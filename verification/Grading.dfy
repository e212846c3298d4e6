/** app/graders/pipeline.py: grading a succeeded item, and opening reviews.

    Scores are thousandths (Numeric(4,3)): 1000 is 1.0. The deterministic
    grader and the judge are oracles: what they answered is a Report. */
module Grading {
  import opened Options
  import opened Sums
  import opened Pricing

  datatype Grader = Deterministic | LlmJudge

  datatype Grade = Grade(item: nat, grader: Grader, score: Option<nat>, passed: Option<bool>)

  datatype ReviewReason = JudgeDisagreement | LowConfidence

  datatype ReviewStatus = Open | Claimed | Resolved

  datatype Review = Review(item: nat, reason: ReviewReason, status: ReviewStatus,
                           reviewerLabel: Option<nat>, claimedAt: Option<nat>, resolvedAt: Option<nat>)

  /** The grade and review_item tables, in insertion order. */
  datatype Book = Book(grades: seq<Grade>, reviews: seq<Review>)

  datatype Ratio = Ratio(num: nat, den: nat)

  /** A float validated into [0, 1]. */
  type UnitRatio = r: Ratio | 0 < r.den && r.num <= r.den witness Ratio(0, 1)

  datatype JudgeOutcome =
    | NoRubric
    | Verdict(overall: UnitRatio)
    | ParseFailure
    | JudgeError

  /** deterministic is None when the task has no expectation. */
  datatype Report = Report(deterministic: Option<bool>, judge: JudgeOutcome)

  datatype Settings = Settings(disagreementThreshold: real, lowConfidenceMin: real, lowConfidenceMax: real)

  const PASS_THRESHOLD: nat := 500

  /** quantize(0.001) of a number in [0, 1] stays in [0, 1]. */
  function Thousandths(r: UnitRatio): (score: nat)
    ensures score <= 1000
    ensures NearestEven(1000 * r.num, r.den, score)
  {
    var score := RoundHalfEven(1000 * r.num, r.den);
    ThousandthsAtMostOne(r, score);
    score
  }

  lemma ThousandthsAtMostOne(r: UnitRatio, score: nat)
    requires NearestEven(1000 * r.num, r.den, score)
    ensures score <= 1000
  {
    assert 1000 * r.num <= 1000 * r.den;
    RoundingIsMonotone(1000 * r.num, 1000 * r.den, r.den, score, 1000);
  }

  function DeterministicScore(passed: bool): nat {
    if passed then 1000 else 0
  }

  function Distance(a: nat, b: nat): nat {
    if a < b then b - a else a - b
  }

  /** _review_item_for_disagreement. */
  function ReviewFor(st: Settings, passed: bool, judge: nat): Option<ReviewReason> {
    if Distance(DeterministicScore(passed), judge) as real / 1000.0 > st.disagreementThreshold then
      Some(JudgeDisagreement)
    else if st.lowConfidenceMin <= judge as real / 1000.0 <= st.lowConfidenceMax then
      Some(LowConfidence)
    else
      None
  }

  function NewGrades(item: nat, report: Report): seq<Grade> {
    (if report.deterministic.Some? then
       [Grade(item, Deterministic, Some(DeterministicScore(report.deterministic.value)), Some(report.deterministic.value))]
     else [])
    +
    (match report.judge
     case Verdict(overall) =>
       var score := Thousandths(overall);
       [Grade(item, LlmJudge, Some(score), Some(score >= PASS_THRESHOLD))]
     case ParseFailure => [Grade(item, LlmJudge, None, None)]
     case _ => [])
  }

  function NewReviews(st: Settings, item: nat, report: Report): seq<Review> {
    if report.deterministic.Some? && report.judge.Verdict? then
      var reason := ReviewFor(st, report.deterministic.value, Thousandths(report.judge.overall));
      if reason.Some? then [Review(item, reason.value, Open, None, None, None)] else []
    else []
  }

  function RowsOf(grades: seq<Grade>, item: nat): seq<Grade> {
    Filter(grades, (g: Grade) => g.item == item)
  }

  function GradesOf(book: Book, item: nat): seq<Grade> {
    RowsOf(book.grades, item)
  }

  predicate HasReview(book: Book, item: nat) {
    exists k :: 0 <= k < |book.reviews| && book.reviews[k].item == item
  }

  /** The commit of a grading call that found no grades for the item. */
  function CommitGrades(st: Settings, book: Book, item: nat, report: Report): Book {
    Book(book.grades + NewGrades(item, report),
         if HasReview(book, item) then book.reviews else book.reviews + NewReviews(st, item, report))
  }

  /** A whole grading call. None is a pipeline error: nothing is committed. */
  function GradeRunItem(st: Settings, book: Book, item: nat, report: Report): (Book, Option<seq<Grade>>) {
    if GradesOf(book, item) != [] then (book, Some(GradesOf(book, item)))
    else if report.judge.JudgeError? then (book, None)
    else (CommitGrades(st, book, item, report), Some(NewGrades(item, report)))
  }

  /** The same call as the code makes it, row by row. */
  class Pipeline {
    var book: Book
    const settings: Settings

    constructor (st: Settings)
      ensures book == Book([], []) && settings == st
    {
      book := Book([], []);
      settings := st;
    }

    method GradeItem(item: nat, report: Report) returns (rows: Option<seq<Grade>>)
      modifies this
      ensures (book, rows) == GradeRunItem(settings, old(book), item, report)
      ensures Graded(settings, old(book), book, item, report, rows)
    {
      CallIsRecorded(settings, book, item, report);
      hide Graded;
      var existing := GradesOf(book, item);
      if existing != [] {
        return Some(existing);
      }
      var grades: seq<Grade> := [];
      if report.deterministic.Some? {
        var passed := report.deterministic.value;
        grades := grades + [Grade(item, Deterministic, Some(DeterministicScore(passed)), Some(passed))];
      }
      var judgeScore: Option<nat> := None;
      match report.judge {
        case NoRubric =>
        case JudgeError =>
          return None;
        case Verdict(overall) =>
          var score := Thousandths(overall);
          judgeScore := Some(score);
          grades := grades + [Grade(item, LlmJudge, judgeScore, Some(score >= PASS_THRESHOLD))];
        case ParseFailure =>
          grades := grades + [Grade(item, LlmJudge, None, None)];
      }
      var reviews: seq<Review> := [];
      if report.deterministic.Some? && judgeScore.Some? {
        var reason := ReviewFor(settings, report.deterministic.value, judgeScore.value);
        if reason.Some? {
          reviews := [Review(item, reason.value, Open, None, None, None)];
        }
      }
      if reviews != [] && HasReview(book, item) {
        reviews := [];
      }
      assert grades == NewGrades(item, report);
      assert book.reviews + [] == book.reviews;
      book := Book(book.grades + grades, book.reviews + reviews);
      return Some(grades);
    }
  }

  // ----- what the leaderboard relies on -----

  ghost predicate GradeOk(g: Grade) {
    && g.score.Some? == g.passed.Some?
    && (g.score.None? ==> g.grader.LlmJudge?)
    && (g.score.Some? ==> g.score.value <= 1000 && g.passed.value == (g.score.value >= PASS_THRESHOLD))
  }

  ghost predicate HasScore(book: Book, item: nat, grader: Grader) {
    exists g :: g in book.grades && g.item == item && g.grader == grader && g.score.Some?
  }

  ghost predicate OneGradePerGrader(book: Book) {
    forall j, k :: 0 <= j < k < |book.grades| && book.grades[j].item == book.grades[k].item
      ==> book.grades[j].grader != book.grades[k].grader
  }

  ghost predicate OneReviewPerItem(book: Book) {
    forall j, k :: 0 <= j < k < |book.reviews| ==> book.reviews[j].item != book.reviews[k].item
  }

  /** What every grading call keeps. */
  ghost predicate BookOk(book: Book) {
    && OneGradePerGrader(book)
    && OneReviewPerItem(book)
    && (forall g :: g in book.grades ==> GradeOk(g))
    && (forall r :: r in book.reviews ==>
          HasScore(book, r.item, Deterministic) && HasScore(book, r.item, LlmJudge))
  }

  ghost predicate NoGrades(book: Book, item: nat) {
    forall g :: g in book.grades ==> g.item != item
  }

  lemma NoGradesIsEmpty(book: Book, item: nat)
    ensures GradesOf(book, item) == [] <==> NoGrades(book, item)
  {
    if GradesOf(book, item) != [] {
      assert GradesOf(book, item)[0] in GradesOf(book, item);
    }
  }

  /** Scores survive appending rows. */
  lemma HasScoreGrows(book: Book, book': Book, item: nat, grader: Grader)
    requires HasScore(book, item, grader)
    requires forall g :: g in book.grades ==> g in book'.grades
    ensures HasScore(book', item, grader)
  {
    var g :| g in book.grades && g.item == item && g.grader == grader && g.score.Some?;
    assert g in book'.grades;
  }

  lemma NewReviewHasScores(st: Settings, book: Book, item: nat, report: Report)
    requires NewReviews(st, item, report) != []
    ensures forall grader :: HasScore(CommitGrades(st, book, item, report), item, grader)
  {
    var book' := CommitGrades(st, book, item, report);
    var new' := NewGrades(item, report);
    assert new'[0] in book'.grades && new'[1] in book'.grades;
    assert new'[0].grader.Deterministic? && new'[1].grader.LlmJudge?;
  }

  lemma NewGradesAreOk(item: nat, report: Report)
    ensures forall g :: g in NewGrades(item, report) ==> g.item == item && GradeOk(g)
    ensures forall j, k :: 0 <= j < k < |NewGrades(item, report)| ==>
              NewGrades(item, report)[j].grader != NewGrades(item, report)[k].grader
  {
    hide Thousandths;
  }

  lemma CommitKeepsGrades(st: Settings, book: Book, item: nat, report: Report)
    requires OneGradePerGrader(book) && NoGrades(book, item)
    ensures OneGradePerGrader(CommitGrades(st, book, item, report))
  {
    NewGradesAreOk(item, report);
    hide NewGrades, GradeOk;
    var new', rows := NewGrades(item, report), CommitGrades(st, book, item, report).grades;
    forall j, k | 0 <= j < k < |rows| ensures rows[j].item == rows[k].item ==> rows[j].grader != rows[k].grader {
      if j < |book.grades| <= k {
        assert rows[j] in book.grades;
        assert rows[k] in new';
      }
    }
  }

  lemma CommitKeepsReviews(st: Settings, book: Book, item: nat, report: Report)
    requires OneReviewPerItem(book)
    ensures OneReviewPerItem(CommitGrades(st, book, item, report))
  {
    NewReviewsOfItem(st, item, report);
    hide NewReviews;
  }

  /** A commit for an ungraded item keeps the uniqueness the joins need. */
  lemma CommitKeepsBook(st: Settings, book: Book, item: nat, report: Report)
    requires BookOk(book) && NoGrades(book, item)
    ensures BookOk(CommitGrades(st, book, item, report))
  {
    var book' := CommitGrades(st, book, item, report);
    NewGradesAreOk(item, report);
    CommitKeepsGrades(st, book, item, report);
    CommitKeepsReviews(st, book, item, report);
    hide OneGradePerGrader, OneReviewPerItem, GradeOk, HasScore, NewGrades, NewReviews;
    forall r | r in book'.reviews
      ensures HasScore(book', r.item, Deterministic) && HasScore(book', r.item, LlmJudge)
    {
      if r in book.reviews {
        HasScoreGrows(book, book', r.item, Deterministic);
        HasScoreGrows(book, book', r.item, LlmJudge);
      } else {
        NewReviewsOfItem(st, item, report);
        NewReviewHasScores(st, book, item, report);
      }
    }
  }

  lemma NewReviewsOfItem(st: Settings, item: nat, report: Report)
    ensures |NewReviews(st, item, report)| <= 1 && forall r :: r in NewReviews(st, item, report) ==> r.item == item
  {
  }

  // ----- what a call records, column by column -----

  ghost predicate DeterministicRow(g: Grade, passed: Option<bool>) {
    passed.Some? && g.score == Some(if passed.value then 1000 else 0) && g.passed == passed
  }

  /** A verdict is recorded as its nearest thousandth, an answer that could not be
      parsed as null. */
  ghost predicate JudgeRow(g: Grade, judge: JudgeOutcome) {
    if judge.Verdict? then
      && g.score.Some? && NearestEven(1000 * judge.overall.num, judge.overall.den, g.score.value)
      && g.passed == Some(2 * g.score.value >= 1000)
    else
      judge.ParseFailure? && g.score.None? && g.passed.None?
  }

  /** One row of the item for each grader that answered, the deterministic first. */
  ghost predicate RowsRecorded(rows: seq<Grade>, item: nat, report: Report) {
    && (forall g :: g in rows ==> g.item == item)
    && (forall g :: g in rows && g.grader.Deterministic? ==> DeterministicRow(g, report.deterministic))
    && (forall g :: g in rows && g.grader.LlmJudge? ==> JudgeRow(g, report.judge))
    && (report.deterministic.Some? <==> exists g :: g in rows && g.grader.Deterministic?)
    && (report.judge.Verdict? || report.judge.ParseFailure? <==> exists g :: g in rows && g.grader.LlmJudge?)
    && (forall j, k :: 0 <= j < k < |rows| ==> rows[j].grader.Deterministic? && rows[k].grader.LlmJudge?)
  }

  function Gap(d: Grade, j: Grade): nat
    requires d.score.Some? && j.score.Some?
  {
    if d.score.value < j.score.value then j.score.value - d.score.value else d.score.value - j.score.value
  }

  ghost predicate BothScored(rows: seq<Grade>, d: Grade, j: Grade) {
    && d in rows && d.grader.Deterministic? && d.score.Some?
    && j in rows && j.grader.LlmJudge? && j.score.Some?
  }

  /** An open review for two scores further apart than the threshold, or else for a
      judge's score in the band; none when one is missing, or for a second time. */
  ghost predicate ReviewRecorded(st: Settings, rows: seq<Grade>, added: seq<Review>, item: nat, before: seq<Review>) {
    && (added != [] ==> exists d, j :: BothScored(rows, d, j))
    && ((exists r :: r in before && r.item == item) ==> added == [])
    && (forall d, j :: BothScored(rows, d, j) && (forall r :: r in before ==> r.item != item) ==>
          if Gap(d, j) as real > 1000.0 * st.disagreementThreshold then
            added == [Review(item, JudgeDisagreement, Open, None, None, None)]
          else if 1000.0 * st.lowConfidenceMin <= j.score.value as real <= 1000.0 * st.lowConfidenceMax then
            added == [Review(item, LowConfidence, Open, None, None, None)]
          else added == [])
  }

  /** The new rows and at most one review, in one commit. */
  ghost predicate Committed(st: Settings, before: Book, after: Book, item: nat, report: Report, rows: seq<Grade>) {
    && after.grades == before.grades + rows && RowsRecorded(rows, item, report)
    && |before.reviews| <= |after.reviews| && after.reviews[..|before.reviews|] == before.reviews
    && ReviewRecorded(st, rows, after.reviews[|before.reviews|..], item, before.reviews)
  }

  /** What one call does to the tables and what it returns. An ungraded item gets
      its new rows in one commit, or nothing when the judge fails. */
  ghost predicate Graded(st: Settings, before: Book, after: Book, item: nat, report: Report, rows: Option<seq<Grade>>) {
    if exists g :: g in before.grades && g.item == item then
      && after == before && rows.Some?
      && (forall g :: g in rows.value <==> g in before.grades && g.item == item)
      && |rows.value| == |set k | 0 <= k < |before.grades| && before.grades[k].item == item|
    else if report.judge.JudgeError? then
      after == before && rows.None?
    else
      rows.Some? && Committed(st, before, after, item, report, rows.value)
  }

  lemma NewRowsAreRecorded(item: nat, report: Report)
    requires !report.judge.JudgeError?
    ensures RowsRecorded(NewGrades(item, report), item, report)
  {
    var rows := NewGrades(item, report);
    if report.deterministic.Some? {
      assert rows[0].grader.Deterministic? && rows[0] in rows;
    }
    if report.judge.Verdict? || report.judge.ParseFailure? {
      assert rows[|rows| - 1].grader.LlmJudge? && rows[|rows| - 1] in rows;
    }
  }

  lemma NewReviewIsRecorded(st: Settings, book: Book, item: nat, report: Report)
    requires !report.judge.JudgeError?
    ensures ReviewRecorded(st, NewGrades(item, report), if HasReview(book, item) then [] else NewReviews(st, item, report),
                           item, book.reviews)
  {
    var rows := NewGrades(item, report);
    if report.deterministic.Some? && report.judge.Verdict? {
      assert BothScored(rows, rows[0], rows[1]);
      hide Thousandths;
      forall d, j | BothScored(rows, d, j) ensures d == rows[0] && j == rows[1] {
      }
    }
    if r :| r in book.reviews && r.item == item {
      var k :| 0 <= k < |book.reviews| && book.reviews[k] == r;
      assert HasReview(book, item);
    }
  }

  lemma CommitIsRecorded(st: Settings, book: Book, item: nat, report: Report)
    requires !report.judge.JudgeError?
    ensures Committed(st, book, CommitGrades(st, book, item, report), item, report, NewGrades(item, report))
  {
    NewRowsAreRecorded(item, report);
    NewReviewIsRecorded(st, book, item, report);
    hide RowsRecorded, ReviewRecorded, NewGrades, NewReviews;
    var n := |book.reviews|;
    var added := if HasReview(book, item) then [] else NewReviews(st, item, report);
    var book' := CommitGrades(st, book, item, report);
    assert book'.reviews == book.reviews + added;
    assert book'.reviews[n..] == added;
  }

  /** A grading call records what the graders answered. */
  lemma CallIsRecorded(st: Settings, book: Book, item: nat, report: Report)
    ensures var (book', rows) := GradeRunItem(st, book, item, report); Graded(st, book, book', item, report, rows)
  {
    NoGradesIsEmpty(book, item);
    FilterCounts(book.grades, (g: Grade) => g.item == item, set k | 0 <= k < |book.grades| && book.grades[k].item == item);
    if NoGrades(book, item) && !report.judge.JudgeError? {
      CommitIsRecorded(st, book, item, report);
      hide Committed;
    }
  }

  datatype Call = Call(item: nat, report: Report)

  /** A run of grading calls, one after another. */
  function GradeAll(st: Settings, book: Book, calls: seq<Call>): Book
    decreases |calls|
  {
    if calls == [] then book
    else GradeAll(st, GradeRunItem(st, book, calls[0].item, calls[0].report).0, calls[1..])
  }

  /** Any run of calls, repeats and parse failures and errors included, keeps
      one grade per (item, grader) and one review per item. */
  lemma {:induction false} GradingStaysUnique(st: Settings, book: Book, calls: seq<Call>)
    requires BookOk(book)
    ensures BookOk(GradeAll(st, book, calls))
    decreases |calls|
  {
    if calls != [] {
      var call := calls[0];
      NoGradesIsEmpty(book, call.item);
      if NoGrades(book, call.item) {
        CommitKeepsBook(st, book, call.item, call.report);
      }
      GradingStaysUnique(st, GradeRunItem(st, book, call.item, call.report).0, calls[1..]);
    }
  }

  lemma RowsOfAppend(grades: seq<Grade>, more: seq<Grade>, item: nat)
    ensures RowsOf(grades + more, item) == RowsOf(grades, item) + RowsOf(more, item)
    ensures (forall g :: g in more ==> g.item != item) ==> RowsOf(more, item) == []
    ensures (forall g :: g in more ==> g.item == item) ==> RowsOf(more, item) == more
  {
    var p := (g: Grade) => g.item == item;
    FilterAppend(grades, more, p);
    if forall g :: g in more ==> g.item != item {
      FilterNone(more, p);
    }
    if forall g :: g in more ==> g.item == item {
      FilterAll(more, p);
    }
  }

  /** One call never touches the grades of an already graded item. */
  lemma CallKeepsGrades(st: Settings, book: Book, call: Call, item: nat)
    requires GradesOf(book, item) != []
    ensures GradesOf(GradeRunItem(st, book, call.item, call.report).0, item) == GradesOf(book, item)
  {
    if call.item != item {
      RowsOfAppend(book.grades, NewGrades(call.item, call.report), item);
    }
  }

  lemma {:induction false} CallsKeepGrades(st: Settings, book: Book, calls: seq<Call>, item: nat)
    requires GradesOf(book, item) != []
    ensures GradesOf(GradeAll(st, book, calls), item) == GradesOf(book, item)
    decreases |calls|
  {
    if calls != [] {
      CallKeepsGrades(st, book, calls[0], item);
      CallsKeepGrades(st, GradeRunItem(st, book, calls[0].item, calls[0].report).0, calls[1..], item);
    }
  }

  /** Idempotence: a call that returned rows is repeated unchanged by every
      later call on that item, whatever was graded in between. */
  lemma FirstResultIsFinal(st: Settings, book: Book, first: Call, between: seq<Call>, again: Report)
    requires GradeRunItem(st, book, first.item, first.report).1.Some?
    requires GradeRunItem(st, book, first.item, first.report).1.value != []
    ensures var (book', rows) := GradeRunItem(st, book, first.item, first.report);
            var later := GradeAll(st, book', between);
            GradeRunItem(st, later, first.item, again) == (later, rows)
  {
    var (book', rows) := GradeRunItem(st, book, first.item, first.report);
    if GradesOf(book, first.item) == [] {
      RowsOfAppend(book.grades, rows.value, first.item);
      assert GradesOf(book', first.item) == [] + rows.value == rows.value;
    }
    CallsKeepGrades(st, book', between, first.item);
  }

  // ----- the review rule -----

  /** A review is for a disagreement if and only if the scores are further apart
      than the threshold, and for low confidence if and only if they are not and the
      judge sits in the band. */
  lemma ReviewReasons(st: Settings, passed: bool, judge: nat)
    requires judge <= 1000
    ensures var gap := if passed then 1000 - judge else judge;
            && (ReviewFor(st, passed, judge) == Some(JudgeDisagreement) <==>
                  gap as real > 1000.0 * st.disagreementThreshold)
            && (ReviewFor(st, passed, judge) == Some(LowConfidence) <==>
                  && gap as real <= 1000.0 * st.disagreementThreshold
                  && 1000.0 * st.lowConfidenceMin <= judge as real <= 1000.0 * st.lowConfidenceMax)
  {
  }

  /** The verdicts differ, or the judge sits in the low-confidence band. */
  ghost predicate NeedsHuman(st: Settings, passed: bool, judge: nat) {
    || passed != (judge >= PASS_THRESHOLD)
    || st.lowConfidenceMin <= judge as real / 1000.0 <= st.lowConfidenceMax
  }

  /** The largest score distance the threshold lets through. */
  function Tolerated(st: Settings): int {
    if st.disagreementThreshold >= 1.0 then 1000 else (1000.0 * st.disagreementThreshold).Floor
  }

  /** The settings can miss nothing: the threshold is below one half, or the
      band reaches over every score a tolerated disagreement can take. */
  ghost predicate NothingMissed(st: Settings) {
    || st.disagreementThreshold < 0.5
    || (&& st.lowConfidenceMin <= (1000 - Tolerated(st)) as real / 1000.0
        && st.lowConfidenceMax >= Tolerated(st) as real / 1000.0)
  }

  lemma ToleratedDistance(st: Settings, d: nat)
    requires d <= 1000
    ensures d as real / 1000.0 > st.disagreementThreshold <==> d > Tolerated(st)
  {
  }

  /** Exactly when no disagreement slips past the reviewers: every pair of
      scores that needs a human opens a review iff NothingMissed. */
  lemma ReviewRuleIsComplete(st: Settings)
    ensures NothingMissed(st) <==>
            forall passed: bool, judge: nat {:trigger NeedsHuman(st, passed, judge)} ::
              judge <= 1000 && NeedsHuman(st, passed, judge) ==> ReviewFor(st, passed, judge).Some?
  {
    forall passed: bool, judge: nat | NothingMissed(st) && judge <= 1000 && NeedsHuman(st, passed, judge)
      ensures ReviewFor(st, passed, judge).Some?
    {
      ToleratedDistance(st, Distance(DeterministicScore(passed), judge));
    }
    if !NothingMissed(st) {
      var m := Tolerated(st);
      ToleratedDistance(st, m);
      if st.lowConfidenceMax < m as real / 1000.0 {
        assert NeedsHuman(st, false, m) && ReviewFor(st, false, m).None?;
      } else {
        MissedBelow(st, m);
      }
    }
  }

  lemma MissedBelow(st: Settings, m: int)
    requires m == Tolerated(st) && st.disagreementThreshold >= 0.5
    requires st.lowConfidenceMin > (1000 - m) as real / 1000.0
    ensures exists passed: bool, judge: nat {:trigger NeedsHuman(st, passed, judge)} ::
              judge <= 1000 && NeedsHuman(st, passed, judge) && ReviewFor(st, passed, judge).None?
  {
    ToleratedDistance(st, m);
    ToleratedDistance(st, 500);
    if m > 500 {
      assert NeedsHuman(st, true, 1000 - m) && ReviewFor(st, true, 1000 - m).None?;
    } else {
      assert NeedsHuman(st, false, 500) && ReviewFor(st, false, 500).None?;
    }
  }

  /** The shipped settings (0.5, 0.4 to 0.6) miss nothing. */
  lemma DefaultsMissNothing(passed: bool, judge: nat)
    requires judge <= 1000 && NeedsHuman(Settings(0.5, 0.4, 0.6), passed, judge)
    ensures ReviewFor(Settings(0.5, 0.4, 0.6), passed, judge).Some?
  {
    ReviewRuleIsComplete(Settings(0.5, 0.4, 0.6));
  }

  // ----- authoritative_score -----

  function Score(g: Grade): int {
    g.score.GetOr(0)
  }

  predicate IsScored(g: Grade) {
    g.score.Some?
  }

  /** The label when there is one, else the mean of the recorded scores. */
  function AuthoritativeScore(reviewerLabel: Option<nat>, grades: seq<Grade>): Option<nat> {
    if reviewerLabel.Some? then reviewerLabel
    else
      var scored := Filter(grades, IsScored);
      if scored == [] then None
      else
        ScoresAreNonNegative(scored);
        Some(RoundHalfEven(Sum(scored, Score), |scored|))
  }

  lemma ScoresAreNonNegative(grades: seq<Grade>)
    ensures Sum(grades, Score) >= 0
  {
    SumAtLeast(grades, Score, 0);
  }

  lemma ScoredRows(grades: seq<Grade>, score: Grade -> int)
    requires forall g: Grade :: score(g) == if g.score.Some? then g.score.value else 0
    ensures Sum(Filter(grades, IsScored), Score) == Sum(grades, score)
    ensures |Filter(grades, IsScored)| == |set i | 0 <= i < |grades| && grades[i].score.Some?|
  {
    hide Sum, Filter;
    FilterCounts(grades, IsScored, set i | 0 <= i < |grades| && grades[i].score.Some?);
    FilterSum(grades, IsScored, Score, score);
  }

  /** The label wins; without one the score is the half-even thousandth of the mean
      of the scores there are, and null when there is none. */
  lemma AuthoritativeIsMean(reviewerLabel: Option<nat>, grades: seq<Grade>, score: Grade -> int)
    requires forall g: Grade :: score(g) == if g.score.Some? then g.score.value else 0
    ensures reviewerLabel.Some? ==> AuthoritativeScore(reviewerLabel, grades) == reviewerLabel
    ensures reviewerLabel.None? ==>
              var n := |set i | 0 <= i < |grades| && grades[i].score.Some?|;
              match AuthoritativeScore(reviewerLabel, grades)
              case None => n == 0
              case Some(mean) => n > 0 && NearestEven(Sum(grades, score), n, mean)
  {
    hide NearestEven, Sum, Filter, IsScored;
    ScoredRows(grades, score);
    ScoresAreNonNegative(Filter(grades, IsScored));
  }

  /** Without a label the result lies between the lowest and the highest score. */
  lemma AuthoritativeIsBetween(grades: seq<Grade>, low: nat, high: nat)
    requires forall g :: g in grades && g.score.Some? ==> low <= g.score.value <= high
    requires AuthoritativeScore(None, grades).Some?
    ensures low <= AuthoritativeScore(None, grades).value <= high
  {
    var scored := Filter(grades, IsScored);
    SumAtLeast(scored, Score, low);
    SumAtMost(scored, Score, high);
    ScoresAreNonNegative(scored);
    var r := RoundHalfEven(Sum(scored, Score), |scored|);
    RoundingIsMonotone(low * |scored|, Sum(scored, Score), |scored|, low, r);
    RoundingIsMonotone(Sum(scored, Score), high * |scored|, |scored|, r, high);
  }
}
