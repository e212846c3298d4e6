/** Grading a task's answer: which of them a human gets to see
    (app/graders/pipeline.py with app/graders/deterministic.py). */
module TaskGrading {
  import opened Options
  import opened Sums
  import opened Grading
  import D = Deterministic

  /** What the graders of a task report of an answer. The judge is an oracle, and
      is asked only where the task has a rubric. */
  function ReportOf(task: D.Task, lower: char -> char, matches: (string, string) -> bool, actual: string,
                    judge: JudgeOutcome): Report {
    Report(D.RunDeterministic(task, lower, matches, actual), if task.rubric then judge else NoRubric)
  }

  predicate InBand(st: Settings, overall: UnitRatio) {
    st.lowConfidenceMin <= Thousandths(overall) as real / 1000.0 <= st.lowConfidenceMax
  }

  /** The low-confidence rule as documented: any ungraded item whose judge
      verdict lies in the band has a review after grading. */
  ghost predicate InBandIsReviewed(st: Settings, task: D.Task, lower: char -> char, matches: (string, string) -> bool) {
    forall book: Book, item: nat, actual: string, judge: JudgeOutcome ::
      NoGrades(book, item) && JudgedInBand(st, ReportOf(task, lower, matches, actual, judge)) ==>
        HasReview(GradeRunItem(st, book, item, ReportOf(task, lower, matches, actual, judge)).0, item)
  }

  predicate JudgedInBand(st: Settings, report: Report) {
    report.judge.Verdict? && InBand(st, report.judge.overall)
  }

  ghost predicate BandIsEmpty(st: Settings) {
    forall overall: UnitRatio :: !InBand(st, overall)
  }

  /** One verdict, in the band: a review of the item exists afterwards if and only
      if it did before or the deterministic grader ran. */
  lemma InBandReview(st: Settings, book: Book, item: nat, report: Report)
    requires NoGrades(book, item) && JudgedInBand(st, report)
    ensures HasReview(GradeRunItem(st, book, item, report).0, item) <==>
            HasReview(book, item) || report.deterministic.Some?
  {
    NoGradesIsEmpty(book, item);
    var book' := GradeRunItem(st, book, item, report).0;
    if !HasReview(book, item) && report.deterministic.Some? {
      var n := |book.reviews|;
      assert book'.reviews[n].item == item;
    }
  }

  /** The code also requires a deterministic score: the rule holds of a task if
      and only if the task configures a deterministic grader, or nothing can be
      judged in the band. */
  lemma InBandReviewedIffConfigured(st: Settings, task: D.Task, lower: char -> char, matches: (string, string) -> bool)
    ensures InBandIsReviewed(st, task, lower, matches) <==> D.IsConfigured(task) || !task.rubric || BandIsEmpty(st)
  {
    if D.IsConfigured(task) || !task.rubric || BandIsEmpty(st) {
      forall book: Book, item: nat, actual: string, judge: JudgeOutcome |
        NoGrades(book, item) && JudgedInBand(st, ReportOf(task, lower, matches, actual, judge))
        ensures HasReview(GradeRunItem(st, book, item, ReportOf(task, lower, matches, actual, judge)).0, item)
      {
        D.RunsIfConfigured(task, lower, matches, actual);
        InBandReview(st, book, item, ReportOf(task, lower, matches, actual, judge));
      }
    } else {
      var overall: UnitRatio :| InBand(st, overall);
      var book, report := Book([], []), ReportOf(task, lower, matches, "", Verdict(overall));
      D.RunsIfConfigured(task, lower, matches, "");
      InBandReview(st, book, 0, report);
      assert !HasReview(GradeRunItem(st, book, 0, report).0, 0);
    }
  }

  /** For instance a verdict of one half, under the shipped settings, on an item
      whose task has a rubric only. */
  lemma HalfGoesUnseen(item: nat)
    ensures var st, report := Settings(0.5, 0.4, 0.6), Report(None, Verdict(Ratio(1, 2)));
            && InBand(st, report.judge.overall)
            && GradeRunItem(st, Book([], []), item, report).0 ==
               Book([Grade(item, LlmJudge, Some(500), Some(true))], [])
  {
    var st, report := Settings(0.5, 0.4, 0.6), Report(None, Verdict(Ratio(1, 2)));
    assert Thousandths(Ratio(1, 2)) == 500;
    NoGradesIsEmpty(Book([], []), item);
    assert NewGrades(item, report) == [Grade(item, LlmJudge, Some(500), Some(true))];
  }
}
