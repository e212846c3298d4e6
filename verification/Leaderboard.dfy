/** app/api/v1/leaderboard.py: the joins and aggregates of its queries.
    Scores and rates are thousandths, costs micro-dollars. */
module Leaderboard {
  import opened Options
  import opened Sums
  import opened Relations
  import opened Arithmetic
  import G = Grading
  import P = Protocol
  import Safety
  import GradedRuns

  datatype ItemRow = ItemRow(id: nat, run: nat, item: P.Item)

  datatype Task = Task(id: nat, taskSet: nat, capability: string)

  datatype Tables = Tables(items: seq<ItemRow>, tasks: seq<Task>, book: G.Book)

  /** _task_filters: an empty capability filters nothing. */
  datatype Filters = Filters(taskSet: Option<nat>, capability: Option<string>)

  datatype Effective = Effective(endpoint: nat, run: nat, latency: Option<nat>, cost: Option<nat>,
                                 capability: string, score: Option<nat>)

  // ----- _EFFECTIVE_BODY -----

  type Joined1 = (ItemRow, Task)
  type Joined2 = (Joined1, Option<G.Review>)
  type Joined3 = (Joined2, Option<G.Grade>)
  type Joined4 = (Joined3, Option<G.Grade>)

  predicate OnTask(r: ItemRow, t: Task) {
    t.id == r.item.task
  }

  predicate OnReview(x: Joined1, rv: G.Review) {
    rv.item == x.0.id && rv.status.Resolved?
  }

  predicate OnJudge(x: Joined2, g: G.Grade) {
    g.item == x.0.0.id && g.grader.LlmJudge? && g.score.Some?
  }

  predicate OnDeterministic(x: Joined3, g: G.Grade) {
    g.item == x.0.0.0.id && g.grader.Deterministic? && g.score.Some?
  }

  predicate Passes(f: Filters, t: Task) {
    && (f.taskSet.Some? ==> t.taskSet == f.taskSet.value)
    && (f.capability.Some? && f.capability.value != "" ==> t.capability == f.capability.value)
  }

  function Where(f: Filters): Joined4 -> bool {
    (x: Joined4) => x.0.0.0.0.item.status.Succeeded? && Passes(f, x.0.0.0.1)
  }

  /** COALESCE(rv.reviewer_label, jg.score, dg.score) and the dimensions. */
  function Select(x: Joined4): Effective {
    var r, t := x.0.0.0.0, x.0.0.0.1;
    var rv, jg := x.0.0.1, x.0.1;
    Effective(r.item.endpoint, r.run, r.item.latency, r.item.cost, t.capability,
              LabelOf(rv).OrElse(ScoreOfGrade(jg)).OrElse(ScoreOfGrade(x.1)))
  }

  function JoinAll(db: Tables): seq<Joined4> {
    var j1 := Join(db.items, db.tasks, OnTask);
    var j2 := LeftJoin(j1, db.book.reviews, OnReview);
    var j3 := LeftJoin(j2, db.book.grades, OnJudge);
    LeftJoin(j3, db.book.grades, OnDeterministic)
  }

  function EffectiveRows(db: Tables, f: Filters): seq<Effective> {
    Map(Filter(JoinAll(db), Where(f)), Select)
  }

  // ----- the score of one item -----

  function TaskOf(tasks: seq<Task>, r: ItemRow): Option<Task> {
    Lookup(tasks, (t: Task) => t.id == r.item.task)
  }

  function ResolvedReview(book: G.Book, id: nat): Option<G.Review> {
    Lookup(book.reviews, (rv: G.Review) => rv.item == id && rv.status.Resolved?)
  }

  function GradeBy(book: G.Book, id: nat, grader: G.Grader): Option<G.Grade> {
    Lookup(book.grades, (g: G.Grade) => g.item == id && g.grader == grader && g.score.Some?)
  }

  function LabelOf(review: Option<G.Review>): Option<nat> {
    if review.Some? then review.value.reviewerLabel else None
  }

  function ScoreOfGrade(grade: Option<G.Grade>): Option<nat> {
    if grade.Some? then grade.value.score else None
  }

  /** Human label, else judge, else deterministic grader. */
  function ScoreOf(book: G.Book, id: nat): Option<nat> {
    LabelOf(ResolvedReview(book, id))
      .OrElse(ScoreOfGrade(GradeBy(book, id, G.LlmJudge)))
      .OrElse(ScoreOfGrade(GradeBy(book, id, G.Deterministic)))
  }

  function Counted(db: Tables, f: Filters): ItemRow -> bool {
    (r: ItemRow) => r.item.status.Succeeded? && TaskOf(db.tasks, r).Some? && Passes(f, TaskOf(db.tasks, r).value)
  }

  function RowOf(db: Tables): ItemRow -> Effective {
    (r: ItemRow) =>
      Effective(r.item.endpoint, r.run, r.item.latency, r.item.cost,
                if TaskOf(db.tasks, r).Some? then TaskOf(db.tasks, r).value.capability else "",
                ScoreOf(db.book, r.id))
  }

  /** What the schema and the grading pipeline guarantee of the tables. */
  ghost predicate TablesOk(db: Tables) {
    && (forall j, k :: 0 <= j < k < |db.tasks| ==> db.tasks[j].id != db.tasks[k].id)
    && (forall r :: r in db.items ==> exists k :: 0 <= k < |db.tasks| && db.tasks[k].id == r.item.task)
    && G.BookOk(db.book)
    && GradedRuns.LabelsOk(db.book)
  }

  lemma OneTask(db: Tables, r: ItemRow)
    requires TablesOk(db) && r in db.items
    ensures AtMostOne(db.tasks, With(OnTask, r)) && Lookup(db.tasks, With(OnTask, r)).Some?
  {
    var on := With(OnTask, r);
    LookupMatches(db.tasks, on);
    var k :| 0 <= k < |db.tasks| && db.tasks[k].id == r.item.task;
    assert on(db.tasks[k]) == OnTask(r, db.tasks[k]) && db.tasks[k] in db.tasks;
    forall i, j | 0 <= i < j < |db.tasks| ensures !(on(db.tasks[i]) && on(db.tasks[j])) {
      assert on(db.tasks[i]) == OnTask(r, db.tasks[i]) && on(db.tasks[j]) == OnTask(r, db.tasks[j]);
      assert db.tasks[i].id != db.tasks[j].id;
    }
  }

  lemma TaskJoin(db: Tables)
    requires TablesOk(db)
    ensures var j1 := Join(db.items, db.tasks, OnTask);
            && |j1| == |db.items|
            && forall k :: 0 <= k < |j1| ==>
                 TaskOf(db.tasks, db.items[k]).Some? && j1[k] == (db.items[k], TaskOf(db.tasks, db.items[k]).value)
  {
    forall r | r in db.items
      ensures AtMostOne(db.tasks, With(OnTask, r)) && Lookup(db.tasks, With(OnTask, r)).Some?
    {
      OneTask(db, r);
    }
    JoinKeepsRows(db.items, db.tasks, OnTask);
    forall k | 0 <= k < |db.items|
      ensures Lookup(db.tasks, With(OnTask, db.items[k])) == TaskOf(db.tasks, db.items[k])
    {
      var r := db.items[k];
      var on := With(OnTask, r);
      forall t: Task ensures on(t) == (t.id == r.item.task) {
        assert on(t) == OnTask(r, t);
      }
      SameLookup(db.tasks, on, (t: Task) => t.id == r.item.task);
    }
  }

  lemma ReviewJoin(book: G.Book, xs: seq<Joined1>)
    requires G.OneReviewPerItem(book)
    ensures |LeftJoin(xs, book.reviews, OnReview)| == |xs|
    ensures forall k :: 0 <= k < |xs| ==>
              LeftJoin(xs, book.reviews, OnReview)[k] == (xs[k], Lookup(book.reviews, With(OnReview, xs[k])))
  {
    forall x | x in xs ensures AtMostOne(book.reviews, With(OnReview, x)) {
      forall j, k | 0 <= j < k < |book.reviews|
        ensures !(With(OnReview, x)(book.reviews[j]) && With(OnReview, x)(book.reviews[k]))
      {
        assert book.reviews[j].item != book.reviews[k].item;
        assert With(OnReview, x)(book.reviews[j]) == OnReview(x, book.reviews[j]);
        assert With(OnReview, x)(book.reviews[k]) == OnReview(x, book.reviews[k]);
      }
    }
    LeftJoinKeepsRows(xs, book.reviews, OnReview);
  }

  lemma JudgeJoin(book: G.Book, xs: seq<Joined2>)
    requires G.OneGradePerGrader(book)
    ensures |LeftJoin(xs, book.grades, OnJudge)| == |xs|
    ensures forall k :: 0 <= k < |xs| ==>
              LeftJoin(xs, book.grades, OnJudge)[k] == (xs[k], Lookup(book.grades, With(OnJudge, xs[k])))
  {
    forall x | x in xs ensures AtMostOne(book.grades, With(OnJudge, x)) {
      forall j, k | 0 <= j < k < |book.grades|
        ensures !(With(OnJudge, x)(book.grades[j]) && With(OnJudge, x)(book.grades[k]))
      {
        assert With(OnJudge, x)(book.grades[j]) == OnJudge(x, book.grades[j]);
        assert With(OnJudge, x)(book.grades[k]) == OnJudge(x, book.grades[k]);
        assert book.grades[j].item == book.grades[k].item ==> book.grades[j].grader != book.grades[k].grader;
      }
    }
    LeftJoinKeepsRows(xs, book.grades, OnJudge);
  }

  lemma DeterministicJoin(book: G.Book, xs: seq<Joined3>)
    requires G.OneGradePerGrader(book)
    ensures |LeftJoin(xs, book.grades, OnDeterministic)| == |xs|
    ensures forall k :: 0 <= k < |xs| ==>
              LeftJoin(xs, book.grades, OnDeterministic)[k] == (xs[k], Lookup(book.grades, With(OnDeterministic, xs[k])))
  {
    forall x | x in xs ensures AtMostOne(book.grades, With(OnDeterministic, x)) {
      forall j, k | 0 <= j < k < |book.grades|
        ensures !(With(OnDeterministic, x)(book.grades[j]) && With(OnDeterministic, x)(book.grades[k]))
      {
        assert With(OnDeterministic, x)(book.grades[j]) == OnDeterministic(x, book.grades[j]);
        assert With(OnDeterministic, x)(book.grades[k]) == OnDeterministic(x, book.grades[k]);
        assert book.grades[j].item == book.grades[k].item ==> book.grades[j].grader != book.grades[k].grader;
      }
    }
    LeftJoinKeepsRows(xs, book.grades, OnDeterministic);
  }

  lemma SameReview(book: G.Book, x: Joined1)
    ensures Lookup(book.reviews, With(OnReview, x)) == ResolvedReview(book, x.0.id)
  {
    forall rv: G.Review ensures With(OnReview, x)(rv) == (rv.item == x.0.id && rv.status.Resolved?) {
      assert With(OnReview, x)(rv) == OnReview(x, rv);
    }
    SameLookup(book.reviews, With(OnReview, x), (rv: G.Review) => rv.item == x.0.id && rv.status.Resolved?);
  }

  lemma SameJudge(book: G.Book, x: Joined2)
    ensures Lookup(book.grades, With(OnJudge, x)) == GradeBy(book, x.0.0.id, G.LlmJudge)
  {
    var id := x.0.0.id;
    forall g: G.Grade ensures With(OnJudge, x)(g) == (g.item == id && g.grader == G.LlmJudge && g.score.Some?) {
      assert With(OnJudge, x)(g) == OnJudge(x, g);
    }
    SameLookup(book.grades, With(OnJudge, x), (g: G.Grade) => g.item == id && g.grader == G.LlmJudge && g.score.Some?);
  }

  lemma SameDeterministic(book: G.Book, x: Joined3)
    ensures Lookup(book.grades, With(OnDeterministic, x)) == GradeBy(book, x.0.0.0.id, G.Deterministic)
  {
    var id := x.0.0.0.id;
    forall g: G.Grade
      ensures With(OnDeterministic, x)(g) == (g.item == id && g.grader == G.Deterministic && g.score.Some?)
    {
      assert With(OnDeterministic, x)(g) == OnDeterministic(x, g);
    }
    SameLookup(book.grades, With(OnDeterministic, x),
               (g: G.Grade) => g.item == id && g.grader == G.Deterministic && g.score.Some?);
  }

  /** A joined row that carries the right task, review and grades. */
  lemma RowIsRight(db: Tables, f: Filters, x: Joined4)
    requires var r := x.0.0.0.0;
             && TaskOf(db.tasks, r) == Some(x.0.0.0.1)
             && x.0.0.1 == ResolvedReview(db.book, r.id)
             && x.0.1 == GradeBy(db.book, r.id, G.LlmJudge) && x.1 == GradeBy(db.book, r.id, G.Deterministic)
    ensures Where(f)(x) == Counted(db, f)(x.0.0.0.0) && Select(x) == RowOf(db)(x.0.0.0.0)
  {
  }

  /** The joins never fan out and never lose a row: the query's rows are, in
      order, the succeeded items that pass the filters, once each, with the
      score the per-item rule gives. */
  lemma JoinIsPerItemScore(db: Tables, f: Filters)
    requires TablesOk(db)
    ensures EffectiveRows(db, f) == Map(Filter(db.items, Counted(db, f)), RowOf(db))
  {
    TaskJoin(db);
    var j1 := Join(db.items, db.tasks, OnTask);
    ReviewJoin(db.book, j1);
    var j2 := LeftJoin(j1, db.book.reviews, OnReview);
    JudgeJoin(db.book, j2);
    var j3 := LeftJoin(j2, db.book.grades, OnJudge);
    DeterministicJoin(db.book, j3);
    var j4 := LeftJoin(j3, db.book.grades, OnDeterministic);
    hide ScoreOf, TaskOf, Join, LeftJoin, Lookup, OnReview, OnJudge, OnDeterministic, TablesOk;
    forall k | 0 <= k < |db.items|
      ensures Where(f)(j4[k]) == Counted(db, f)(db.items[k]) && Select(j4[k]) == RowOf(db)(db.items[k])
    {
      SameReview(db.book, j1[k]);
      SameJudge(db.book, j2[k]);
      SameDeterministic(db.book, j3[k]);
      RowIsRight(db, f, j4[k]);
    }
    SameSelection(j4, db.items, Where(f), Counted(db, f), Select, RowOf(db));
  }

  ghost predicate LabelDecides(book: G.Book, id: nat) {
    exists rv :: rv in book.reviews && rv.item == id && rv.status.Resolved?
  }

  /** The score of an item, from the tables: the label of its resolved review; without
      one the judge's score; without that the deterministic grader's; else null. */
  ghost predicate IsScoreOf(book: G.Book, id: nat, score: Option<nat>) {
    && (forall rv :: rv in book.reviews && rv.item == id && rv.status.Resolved? ==> score == rv.reviewerLabel)
    && (!LabelDecides(book, id) ==>
          && (forall g :: g in book.grades && g.item == id && g.score.Some? && g.grader.LlmJudge? ==> score == g.score)
          && (!G.HasScore(book, id, G.LlmJudge) ==>
                && (forall g :: g in book.grades && g.item == id && g.score.Some? ==> score == g.score)
                && (!G.HasScore(book, id, G.Deterministic) ==> score.None?)))
  }

  lemma ScoreIsUnique(book: G.Book, id: nat, score: Option<nat>)
    requires G.BookOk(book) && GradedRuns.LabelsOk(book)
    requires IsScoreOf(book, id, score)
    ensures score == ScoreOf(book, id)
  {
    LookupMatches(book.reviews, (rv: G.Review) => rv.item == id && rv.status.Resolved?);
    LookupMatches(book.grades, (g: G.Grade) => g.item == id && g.grader == G.LlmJudge && g.score.Some?);
    LookupMatches(book.grades, (g: G.Grade) => g.item == id && g.grader == G.Deterministic && g.score.Some?);
    hide G.BookOk;
    if ResolvedReview(book, id).Some? {
      assert GradedRuns.LabelOk(ResolvedReview(book, id).value);
    }
  }

  lemma ScoreExists(book: G.Book, id: nat)
    requires G.BookOk(book) && GradedRuns.LabelsOk(book)
    ensures IsScoreOf(book, id, ScoreOf(book, id))
  {
    ScorePrecedence(book, id);
    LookupMatches(book.reviews, (rv: G.Review) => rv.item == id && rv.status.Resolved?);
    LookupMatches(book.grades, (g: G.Grade) => g.item == id && g.grader == G.LlmJudge && g.score.Some?);
    LookupMatches(book.grades, (g: G.Grade) => g.item == id && g.grader == G.Deterministic && g.score.Some?);
    hide G.BookOk, GradedRuns.LabelsOk;
  }

  /** Precedence: a resolved review decides the score, whatever the graders
      said; without one the judge does; the deterministic grader comes last. */
  lemma ScorePrecedence(book: G.Book, id: nat)
    requires G.BookOk(book) && GradedRuns.LabelsOk(book)
    ensures forall r :: r in book.reviews && r.item == id && r.status.Resolved? ==>
              ScoreOf(book, id) == r.reviewerLabel
    ensures forall g :: g in book.grades && g.item == id && g.score.Some?
              && (forall r :: r in book.reviews && r.item == id ==> !r.status.Resolved?)
              && (g.grader.LlmJudge? || forall h :: h in book.grades && h.item == id && h.score.Some? ==> h.grader.Deterministic?)
              ==> ScoreOf(book, id) == g.score
    ensures ScoreOf(book, id).Some? ==> ScoreOf(book, id).value <= 1000
  {
    LookupMatches(book.reviews, (rv: G.Review) => rv.item == id && rv.status.Resolved?);
    LookupMatches(book.grades, (g: G.Grade) => g.item == id && g.grader == G.LlmJudge && g.score.Some?);
    LookupMatches(book.grades, (g: G.Grade) => g.item == id && g.grader == G.Deterministic && g.score.Some?);
  }

  lemma TaskFound(db: Tables, r: ItemRow)
    requires TablesOk(db) && r in db.items
    ensures TaskOf(db.tasks, r).Some? && TaskOf(db.tasks, r).value in db.tasks && TaskOf(db.tasks, r).value.id == r.item.task
  {
    LookupMatches(db.tasks, (t: Task) => t.id == r.item.task);
    var j :| 0 <= j < |db.tasks| && db.tasks[j].id == r.item.task;
    assert db.tasks[j] in db.tasks;
  }

  lemma RowAgrees(db: Tables, f: Filters, r: ItemRow, t: Task, e: Effective)
    requires TablesOk(db) && TaskOf(db.tasks, r) == Some(t)
    requires e.endpoint == r.item.endpoint && e.run == r.run && e.latency == r.item.latency && e.cost == r.item.cost
    requires e.capability == t.capability && IsScoreOf(db.book, r.id, e.score)
    ensures RowOf(db)(r) == e
    ensures Counted(db, f)(r) <==>
              && r.item.status.Succeeded?
              && (f.taskSet.None? || t.taskSet == f.taskSet.value)
              && (f.capability.None? || f.capability.value == "" || t.capability == f.capability.value)
  {
    ScoreIsUnique(db.book, r.id, e.score);
    hide ScoreOf, IsScoreOf, TaskOf;
  }

  /** The query in the tables' own terms: which items are in, and every column. */
  lemma EffectiveRowsAre(db: Tables, f: Filters, counted: ItemRow -> bool, row: ItemRow -> Effective)
    requires TablesOk(db)
    requires forall r, t :: r in db.items && t in db.tasks && t.id == r.item.task ==>
               && (counted(r) <==>
                     && r.item.status.Succeeded?
                     && (f.taskSet.None? || t.taskSet == f.taskSet.value)
                     && (f.capability.None? || f.capability.value == "" || t.capability == f.capability.value))
               && row(r).endpoint == r.item.endpoint && row(r).run == r.run
               && row(r).latency == r.item.latency && row(r).cost == r.item.cost
               && row(r).capability == t.capability && IsScoreOf(db.book, r.id, row(r).score)
    ensures EffectiveRows(db, f) == Map(Filter(db.items, counted), row)
  {
    JoinIsPerItemScore(db, f);
    hide EffectiveRows, Map, Filter, TaskOf, ScoreOf, IsScoreOf, Counted, RowOf, TablesOk;
    forall k | 0 <= k < |db.items|
      ensures Counted(db, f)(db.items[k]) == counted(db.items[k]) && RowOf(db)(db.items[k]) == row(db.items[k])
    {
      var r := db.items[k];
      assert r in db.items;
      TaskFound(db, r);
      var t := TaskOf(db.tasks, r).value;
      RowAgrees(db, f, r, t, row(r));
    }
    SameSelection(db.items, db.items, Counted(db, f), counted, RowOf(db), row);
  }

  // ----- the tables a run leaves -----

  function ItemRows(s: P.State, run: nat): seq<ItemRow> {
    seq(|s.items|, i requires 0 <= i < |s.items| => ItemRow(i, run, s.items[i]))
  }

  /** Task ids are unique, and every item is of a task. */
  ghost predicate TasksOk(s: P.State, tasks: seq<Task>) {
    && (forall j, k :: 0 <= j < k < |tasks| ==> tasks[j].id != tasks[k].id)
    && (forall i :: 0 <= i < |s.items| ==> exists k :: 0 <= k < |tasks| && tasks[k].id == s.items[i].task)
  }

  predicate Aggregable(e: Effective) {
    e.latency.Some? && e.cost.Some? && (e.score.Some? ==> e.score.value <= 1000)
  }

  /** Over the tables any run of the protocol leaves, the query is right, and
      each of its rows has a latency and a cost for the aggregates. */
  lemma LeaderboardOfRun(c: P.Config, s0: P.State, tr: seq<P.Action>, tasks: seq<Task>, run: nat, f: Filters)
    requires P.Initial(s0) && P.IsRun(c, s0, tr) && P.SingleMessage(c.faults)
    requires TasksOk(P.End(c, s0, tr), tasks)
    ensures var s := P.End(c, s0, tr);
            var db := Tables(ItemRows(s, run), tasks, s.book);
            && EffectiveRows(db, f) == Map(Filter(db.items, Counted(db, f)), RowOf(db))
            && forall e :: e in EffectiveRows(db, f) ==> Aggregable(e)
  {
    hide P.IsRun, P.End, P.Apply, P.Enabled, P.Initial, EffectiveRows, ScoreOf;
    var s := P.End(c, s0, tr);
    var db := Tables(ItemRows(s, run), tasks, s.book);
    Safety.InitialInv(c, s0);
    Safety.RunKeepsInv(c, s0, tr);
    GradedRuns.GradesStayUnique(c, s0, tr);
    JoinIsPerItemScore(db, f);
    var rows := Filter(db.items, Counted(db, f));
    forall e | e in EffectiveRows(db, f) ensures Aggregable(e) {
      var k :| 0 <= k < |rows| && EffectiveRows(db, f)[k] == e;
      assert rows[k] in rows && rows[k] in db.items;
      assert Safety.ItemOk(s.run, rows[k].item);
      ScorePrecedence(s.book, rows[k].id);
    }
  }

  // ----- _LEADERBOARD_SQL and _CAPABILITIES_SQL -----

  function EndpointOf(e: Effective): nat {
    e.endpoint
  }

  function CapabilityOf(e: Effective): string {
    e.capability
  }

  function ScoreIn(e: Effective): int {
    e.score.GetOr(0)
  }

  function PassIn(e: Effective): int {
    if e.score.GetOr(0) >= G.PASS_THRESHOLD then 1 else 0
  }

  function LatencyIn(e: Effective): int {
    e.latency.GetOr(0)
  }

  function CostIn(e: Effective): int {
    e.cost.GetOr(0)
  }

  predicate HasScore(e: Effective) {
    e.score.Some?
  }

  /** WHERE e.score IS NOT NULL. */
  function Scored(rows: seq<Effective>): seq<Effective> {
    Filter(rows, HasScore)
  }

  /** ROUND of a non-negative numeric goes to the nearest multiple, halves away from
      zero: this leaves just one r. */
  ghost predicate HalfUp(num: int, den: int, r: int) {
    -den <= 2 * (num - r * den) < den
  }

  function Round(num: int, den: nat): (r: int)
    requires den > 0
    ensures HalfUp(num, den, r)
  {
    var r := (2 * num + den) / (2 * den);
    assert r * (2 * den) == 2 * (r * den);
    r
  }

  /** ROUND(x, 1) of a non-negative number, in tenths. */
  function RoundTenths(x: real): int {
    (10.0 * x + 0.5).Floor
  }

  lemma TenthsStayBetween(x: real, low: int, high: int)
    requires low as real <= x <= high as real
    ensures 10 * low <= RoundTenths(x) <= 10 * high
  {
  }

  lemma QuotientBetween(a: int, d: nat, low: int, high: int)
    requires d > 0 && low * d <= a < (high + 1) * d
    ensures low <= a / d <= high
  {
    var q := a / d;
    assert q * d <= a < (q + 1) * d;
    LargerMultiple(q, low, d);
    LargerMultiple(high, q, d);
  }

  lemma LargerMultiple(q: int, r: int, d: nat)
    ensures q < r ==> (q + 1) * d <= r * d
  {
    if q < r {
      assert (r - (q + 1)) * d >= 0;
    }
  }

  lemma RoundStaysBetween(num: int, den: nat, low: int, high: int)
    requires den > 0 && low * den <= num <= high * den
    ensures low <= Round(num, den) <= high
  {
    assert low * (2 * den) == 2 * (low * den);
    assert (high + 1) * (2 * den) == 2 * (high * den) + 2 * den;
    QuotientBetween(2 * num + den, 2 * den, low, high);
  }

  datatype Row = Row(key: nat, meanScore: int, passRate: int, n: nat, meanLatencyTenths: int, p95LatencyTenths: int,
                     totalCost: int, costPer1k: int)

  function Aggregate(key: nat, group: seq<Effective>): Row
    requires group != []
  {
    var n := |group|;
    Row(key, Round(Sum(group, ScoreIn), n), Round(1000 * Sum(group, PassIn), n), n,
        Round(10 * Sum(group, LatencyIn), n), RoundTenths(Percentile95(Sort(Map(group, LatencyIn)))),
        Sum(group, CostIn), Round(1000 * Sum(group, CostIn), n))
  }

  function AggregateGroup(rows: seq<Effective>, keys: seq<nat>, k: nat): Row
    requires k < |keys| && Group(rows, EndpointOf, keys[k]) != []
  {
    Aggregate(keys[k], Group(rows, EndpointOf, keys[k]))
  }

  /** One row per endpoint that has a scored item. */
  function LeaderboardRows(rows: seq<Effective>): seq<Row> {
    var scored := Scored(rows);
    var keys := GroupKeys(scored, EndpointOf);
    GroupsAreNonEmpty(scored, keys);
    seq(|keys|, k requires 0 <= k < |keys| => AggregateGroup(scored, keys, k))
  }

  lemma GroupsAreNonEmpty(rows: seq<Effective>, keys: seq<nat>)
    requires keys == GroupKeys(rows, EndpointOf)
    ensures forall k :: 0 <= k < |keys| ==> Group(rows, EndpointOf, keys[k]) != []
  {
    forall k | 0 <= k < |keys| ensures Group(rows, EndpointOf, keys[k]) != [] {
      assert keys[k] in keys;
      var e :| e in rows && EndpointOf(e) == keys[k];
      assert e in Group(rows, EndpointOf, keys[k]);
    }
  }

  function RowCount(r: Row): int {
    r.n
  }

  function RowCost(r: Row): int {
    r.totalCost
  }

  lemma {:induction false} RowsSumOverGroups(rows: seq<Effective>, keys: seq<nat>, out: seq<Row>)
    requires |out| == |keys|
    requires forall k :: 0 <= k < |keys| ==> Group(rows, EndpointOf, keys[k]) != []
    requires forall k :: 0 <= k < |keys| ==> out[k] == AggregateGroup(rows, keys, k)
    ensures Sum(out, RowCount) == SumOverGroups(rows, EndpointOf, keys, One)
    ensures Sum(out, RowCost) == SumOverGroups(rows, EndpointOf, keys, CostIn)
    decreases |keys|
  {
    if keys != [] {
      SumOnes(Group(rows, EndpointOf, keys[0]));
      forall k | 0 <= k < |keys[1..]| ensures out[1..][k] == AggregateGroup(rows, keys[1..], k) {
        assert out[k + 1] == AggregateGroup(rows, keys, k + 1);
      }
      RowsSumOverGroups(rows, keys[1..], out[1..]);
      assert out[0] == AggregateGroup(rows, keys, 0);
    }
  }

  /** The leaderboard partitions the scored items: its counts and its costs add
      up to theirs, and no endpoint appears twice. */
  lemma LeaderboardPartitions(rows: seq<Effective>)
    ensures Sum(LeaderboardRows(rows), RowCount) == |Scored(rows)|
    ensures Sum(LeaderboardRows(rows), RowCost) == Sum(Scored(rows), CostIn)
    ensures forall j, k :: 0 <= j < k < |LeaderboardRows(rows)| ==>
              LeaderboardRows(rows)[j].key != LeaderboardRows(rows)[k].key
  {
    var scored := Scored(rows);
    var keys := GroupKeys(scored, EndpointOf);
    GroupsAreNonEmpty(scored, keys);
    RowsSumOverGroups(scored, keys, LeaderboardRows(rows));
    GroupsPartition(scored, EndpointOf, keys, One);
    GroupsPartition(scored, EndpointOf, keys, CostIn);
    SumOnes(scored);
  }

  /** The exact sums behind the rows' mean scores, and behind their pass rates. */
  function SumsOf(rows: seq<Effective>, f: Effective -> int): (sums: seq<int>)
    ensures |sums| == |LeaderboardRows(rows)|
    ensures forall k :: 0 <= k < |sums| ==> sums[k] == Sum(ScoredOf(rows, LeaderboardRows(rows)[k].key), f)
  {
    seq(|LeaderboardRows(rows)|, k requires 0 <= k < |LeaderboardRows(rows)| => Sum(ScoredOf(rows, LeaderboardRows(rows)[k].key), f))
  }

  function Itself(x: int): int {
    x
  }

  lemma {:induction false} SumsOverGroups(rows: seq<Effective>, keys: seq<nat>, sums: seq<int>, f: Effective -> int)
    requires |sums| == |keys| && forall k :: 0 <= k < |keys| ==> sums[k] == Sum(Group(rows, EndpointOf, keys[k]), f)
    ensures Sum(sums, Itself) == SumOverGroups(rows, EndpointOf, keys, f)
    decreases |keys|
  {
    if keys != [] {
      forall k | 0 <= k < |keys[1..]| ensures sums[1..][k] == Sum(Group(rows, EndpointOf, keys[1..][k]), f) {
        assert sums[k + 1] == Sum(Group(rows, EndpointOf, keys[k + 1]), f);
      }
      SumsOverGroups(rows, keys[1..], sums[1..], f);
    }
  }

  /** Scores and passes, from the score column of scored rows. */
  ghost predicate AreScores(score: Effective -> int, pass: Effective -> int) {
    forall e: Effective :: e.score.Some? ==>
      score(e) == e.score.value && pass(e) == if 2 * e.score.value >= 1000 then 1 else 0
  }

  lemma SameScores(group: seq<Effective>, score: Effective -> int, pass: Effective -> int)
    requires AreScores(score, pass) && forall e :: e in group ==> e.score.Some?
    ensures Sum(group, ScoreIn) == Sum(group, score) && Sum(group, PassIn) == Sum(group, pass)
  {
    forall k | 0 <= k < |group| ensures ScoreIn(group[k]) == score(group[k]) && PassIn(group[k]) == pass(group[k]) {
    }
    SumsAgree(group, ScoreIn, score);
    SumsAgree(group, PassIn, pass);
  }

  /** Each row rounds an exact score sum and an exact pass sum over its own count,
      and over the rows those sums add up to the sums over all scored items. */
  lemma LeaderboardSumsAgree(rows: seq<Effective>, score: Effective -> int, pass: Effective -> int)
    requires AreScores(score, pass)
    ensures var out, scores, passes := LeaderboardRows(rows), SumsOf(rows, score), SumsOf(rows, pass);
            && Sum(scores, Itself) == Sum(Scored(rows), score)
            && Sum(passes, Itself) == Sum(Scored(rows), pass)
            && (forall k :: 0 <= k < |out| ==>
                  && out[k].n > 0
                  && HalfUp(scores[k], out[k].n, out[k].meanScore)
                  && HalfUp(1000 * passes[k], out[k].n, out[k].passRate))
  {
    var keys := GroupKeys(Scored(rows), EndpointOf);
    SumsOverGroups(Scored(rows), keys, SumsOf(rows, score), score);
    SumsOverGroups(Scored(rows), keys, SumsOf(rows, pass), pass);
    GroupsPartition(Scored(rows), EndpointOf, keys, score);
    GroupsPartition(Scored(rows), EndpointOf, keys, pass);
    hide HalfUp, Scored, SumsOf;
    forall k | 0 <= k < |LeaderboardRows(rows)|
      ensures var row := LeaderboardRows(rows)[k];
              && row.n > 0 && HalfUp(Sum(ScoredOf(rows, row.key), score), row.n, row.meanScore)
              && HalfUp(1000 * Sum(ScoredOf(rows, row.key), pass), row.n, row.passRate)
    {
      RowRounds(rows, k, score, pass);
    }
  }

  lemma RowRounds(rows: seq<Effective>, k: nat, score: Effective -> int, pass: Effective -> int)
    requires AreScores(score, pass) && k < |LeaderboardRows(rows)|
    ensures var row := LeaderboardRows(rows)[k];
            && row.n > 0 && HalfUp(Sum(ScoredOf(rows, row.key), score), row.n, row.meanScore)
            && HalfUp(1000 * Sum(ScoredOf(rows, row.key), pass), row.n, row.passRate)
  {
    hide Sum, HalfUp;
    RowIsAggregate(rows, k);
    SameScores(ScoredOf(rows, LeaderboardRows(rows)[k].key), score, pass);
  }

  // ----- _CAPABILITIES_SQL -----

  datatype CapabilityRow = CapabilityRow(capability: string, meanScore: int, passRate: int, n: nat)

  /** WHERE e.score IS NOT NULL AND e.model_endpoint_id = endpoint. */
  function ScoredOf(rows: seq<Effective>, endpoint: nat): seq<Effective> {
    Group(Scored(rows), EndpointOf, endpoint)
  }

  function CapabilityGroup(mine: seq<Effective>, keys: seq<string>, k: nat): (group: seq<Effective>)
    requires keys == GroupKeys(mine, CapabilityOf) && k < |keys|
    ensures group != [] && forall e :: e in group ==> e in mine && e.capability == keys[k]
  {
    assert keys[k] in keys;
    var e :| e in mine && CapabilityOf(e) == keys[k];
    assert e in Group(mine, CapabilityOf, keys[k]);
    Group(mine, CapabilityOf, keys[k])
  }

  function CapabilityAggregate(capability: string, group: seq<Effective>): CapabilityRow
    requires group != []
  {
    var n := |group|;
    CapabilityRow(capability, Round(Sum(group, ScoreIn), n), Round(1000 * Sum(group, PassIn), n), n)
  }

  /** One row per capability of the endpoint's scored items. */
  function CapabilityRows(rows: seq<Effective>, endpoint: nat): seq<CapabilityRow> {
    var mine := ScoredOf(rows, endpoint);
    var keys := GroupKeys(mine, CapabilityOf);
    seq(|keys|, k requires 0 <= k < |keys| => CapabilityAggregate(keys[k], CapabilityGroup(mine, keys, k)))
  }

  function CountInCapability(row: CapabilityRow): int {
    row.n
  }

  ghost predicate MeansWithin(caps: seq<CapabilityRow>, low: int, high: int) {
    forall c :: c in caps ==> low <= c.meanScore <= high
  }

  ghost predicate RatesWithin(caps: seq<CapabilityRow>, low: int, high: int) {
    forall c :: c in caps ==> low <= c.passRate <= high
  }

  /** A group's rounded mean, freed of its division. */
  lemma RoundBounds(num: int, den: nat, bound: int)
    requires den > 0
    ensures bound <= Round(num, den) <==> 2 * (bound * den) <= 2 * num + den
    ensures Round(num, den) <= bound <==> 2 * num + den < 2 * (bound * den) + 2 * den
  {
    var q, rem := Round(num, den), (2 * num + den) % (2 * den);
    assert q * (2 * den) == 2 * (q * den);
    assert 2 * num + den == 2 * (q * den) + rem;
    Ordered2(bound, q, den);
    Ordered2(q, bound, den);
  }

  lemma Ordered2(a: int, b: int, den: nat)
    requires den > 0
    ensures a <= b <==> a * den <= b * den
    ensures a < b <==> a * den + den <= b * den
  {
    assert b * den - a * den == (b - a) * den;
    if a < b {
      Multiples(b - a, den);
    } else {
      Multiples(a - b, den);
    }
  }

  lemma Multiples(k: nat, den: nat)
    ensures k * den >= 0 && (k > 0 ==> k * den >= den)
  {
  }

  /** Rounded group means bounded from below bound the exact total, and so the
      rounded mean over all groups; from above likewise. */
  lemma {:induction false} GroupMeansBound(mine: seq<Effective>, keys: seq<string>, f: Effective -> int, scale: nat, low: int, high: int)
    requires forall k :: 0 <= k < |keys| ==>
               var group := Group(mine, CapabilityOf, keys[k]);
               group != [] && low <= Round(scale * Sum(group, f), |group|) <= high
    ensures var total, n := SumOverGroups(mine, CapabilityOf, keys, f), SumOverGroups(mine, CapabilityOf, keys, One);
            && 2 * (low * n) <= 2 * (scale * total) + n
            && 2 * (scale * total) + n + |keys| <= 2 * (high * n) + 2 * n
            && n >= |keys|
    decreases |keys|
  {
    if keys == [] {
      NoRows(CapabilityOf, keys, f);
    } else {
      var group := Group(mine, CapabilityOf, keys[0]);
      var a, b := Sum(group, f), SumOverGroups(mine, CapabilityOf, keys[1..], f);
      var m, n := |group|, SumOverGroups(mine, CapabilityOf, keys[1..], One);
      assert low <= Round(scale * Sum(group, f), |group|) <= high;
      forall k | 0 <= k < |keys[1..]|
        ensures var group := Group(mine, CapabilityOf, keys[1..][k]);
                group != [] && low <= Round(scale * Sum(group, f), |group|) <= high
      {
        assert keys[1..][k] == keys[k + 1];
      }
      GroupMeansBound(mine, keys[1..], f, scale, low, high);
      SumOnes(group);
      hide Round, Sum, SumOverGroups;
      RoundBounds(scale * a, m, low);
      RoundBounds(scale * a, m, high);
      Distribute(scale, a, b);
      Distribute(low, m, n);
      Distribute(high, m, n);
    }
  }

  lemma MeanOfMeans(mine: seq<Effective>, keys: seq<string>, f: Effective -> int, scale: nat, low: int, high: int)
    requires mine != [] && keys == GroupKeys(mine, CapabilityOf)
    requires forall k :: 0 <= k < |keys| ==>
               var group := CapabilityGroup(mine, keys, k);
               low <= Round(scale * Sum(group, f), |group|) <= high
    ensures low <= Round(scale * Sum(mine, f), |mine|) <= high
  {
    forall k | 0 <= k < |keys| ensures Group(mine, CapabilityOf, keys[k]) == CapabilityGroup(mine, keys, k) {
    }
    GroupMeansBound(mine, keys, f, scale, low, high);
    GroupsPartition(mine, CapabilityOf, keys, f);
    GroupsPartition(mine, CapabilityOf, keys, One);
    SumOnes(mine);
    assert mine[0] in mine && CapabilityOf(mine[0]) in keys;
    hide Round;
    RoundBounds(scale * Sum(mine, f), |mine|, low);
    RoundBounds(scale * Sum(mine, f), |mine|, high);
  }

  lemma {:induction false} CapabilityCounts(mine: seq<Effective>, keys: seq<string>, caps: seq<CapabilityRow>)
    requires |caps| == |keys|
    requires forall k :: 0 <= k < |keys| ==> caps[k].n == |Group(mine, CapabilityOf, keys[k])|
    ensures Sum(caps, CountInCapability) == SumOverGroups(mine, CapabilityOf, keys, One)
    decreases |keys|
  {
    if keys != [] {
      SumOnes(Group(mine, CapabilityOf, keys[0]));
      forall k | 0 <= k < |keys[1..]| ensures caps[1..][k].n == |Group(mine, CapabilityOf, keys[1..][k])| {
        assert caps[k + 1].n == |Group(mine, CapabilityOf, keys[k + 1])|;
      }
      CapabilityCounts(mine, keys[1..], caps[1..]);
    }
  }

  lemma CapabilityRowAt(rows: seq<Effective>, endpoint: nat, k: nat)
    requires k < |CapabilityRows(rows, endpoint)|
    ensures var mine, caps := ScoredOf(rows, endpoint), CapabilityRows(rows, endpoint);
            var keys := GroupKeys(mine, CapabilityOf);
            |caps| == |keys| && caps[k] in caps && caps[k] == CapabilityAggregate(keys[k], CapabilityGroup(mine, keys, k))
  {
  }

  lemma CapabilityMean(rows: seq<Effective>, endpoint: nat, low: int, high: int)
    requires ScoredOf(rows, endpoint) != [] && MeansWithin(CapabilityRows(rows, endpoint), low, high)
    ensures low <= Round(Sum(ScoredOf(rows, endpoint), ScoreIn), |ScoredOf(rows, endpoint)|) <= high
  {
    var mine, caps := ScoredOf(rows, endpoint), CapabilityRows(rows, endpoint);
    var keys := GroupKeys(mine, CapabilityOf);
    assert |caps| == |keys|;
    hide Round, Sum, CapabilityRows, ScoredOf, CapabilityGroup;
    forall k | 0 <= k < |keys|
      ensures var group := CapabilityGroup(mine, keys, k); low <= Round(1 * Sum(group, ScoreIn), |group|) <= high
    {
      CapabilityRowAt(rows, endpoint, k);
    }
    MeanOfMeans(mine, keys, ScoreIn, 1, low, high);
  }

  lemma CapabilityRate(rows: seq<Effective>, endpoint: nat, low: int, high: int)
    requires ScoredOf(rows, endpoint) != [] && RatesWithin(CapabilityRows(rows, endpoint), low, high)
    ensures low <= Round(1000 * Sum(ScoredOf(rows, endpoint), PassIn), |ScoredOf(rows, endpoint)|) <= high
  {
    var mine, caps := ScoredOf(rows, endpoint), CapabilityRows(rows, endpoint);
    var keys := GroupKeys(mine, CapabilityOf);
    assert |caps| == |keys|;
    hide Round, Sum, CapabilityRows, ScoredOf, CapabilityGroup;
    forall k | 0 <= k < |keys|
      ensures var group := CapabilityGroup(mine, keys, k); low <= Round(1000 * Sum(group, PassIn), |group|) <= high
    {
      CapabilityRowAt(rows, endpoint, k);
    }
    MeanOfMeans(mine, keys, PassIn, 1000, low, high);
  }

  lemma CapabilityTotals(rows: seq<Effective>, endpoint: nat)
    requires ScoredOf(rows, endpoint) != []
    ensures var mine, caps := ScoredOf(rows, endpoint), CapabilityRows(rows, endpoint);
            && caps != [] && (forall i, j :: 0 <= i < j < |caps| ==> caps[i].capability != caps[j].capability)
            && Sum(caps, CountInCapability) == |mine|
  {
    var mine, caps := ScoredOf(rows, endpoint), CapabilityRows(rows, endpoint);
    var keys := GroupKeys(mine, CapabilityOf);
    assert mine[0] in mine && CapabilityOf(mine[0]) in keys;
    CapabilityCounts(mine, keys, caps);
    GroupsPartition(mine, CapabilityOf, keys, One);
    SumOnes(mine);
  }

  lemma RowIsAggregate(rows: seq<Effective>, k: nat)
    requires k < |LeaderboardRows(rows)|
    ensures var row := LeaderboardRows(rows)[k];
            ScoredOf(rows, row.key) != [] && row == Aggregate(row.key, ScoredOf(rows, row.key))
  {
    GroupsAreNonEmpty(Scored(rows), GroupKeys(Scored(rows), EndpointOf));
  }

  /** The capability breakdown of an endpoint refines its unfiltered leaderboard
      row: each capability appears once, the counts add up to the row's, the
      row's mean score lies between the lowest and the highest capability mean,
      rounding included, and so does its pass rate. */
  lemma CapabilitiesRefineRow(rows: seq<Effective>, k: nat, low: int, high: int)
    requires k < |LeaderboardRows(rows)|
    ensures var row := LeaderboardRows(rows)[k];
            var caps := CapabilityRows(rows, row.key);
            && caps != [] && (forall i, j :: 0 <= i < j < |caps| ==> caps[i].capability != caps[j].capability)
            && Sum(caps, CountInCapability) == row.n
            && (MeansWithin(caps, low, high) ==> low <= row.meanScore <= high)
            && (RatesWithin(caps, low, high) ==> low <= row.passRate <= high)
  {
    var row := LeaderboardRows(rows)[k];
    RowIsAggregate(rows, k);
    hide LeaderboardRows, CapabilityRows, ScoredOf, Round, Sum, MeansWithin, RatesWithin;
    CapabilityTotals(rows, row.key);
    if MeansWithin(CapabilityRows(rows, row.key), low, high) {
      CapabilityMean(rows, row.key, low, high);
    }
    if RatesWithin(CapabilityRows(rows, row.key), low, high) {
      CapabilityRate(rows, row.key, low, high);
    }
  }

  /** Underneath the rounding, the exact sums of scores and of passes over an
      endpoint's capabilities are those its leaderboard row is made of. */
  lemma CapabilitySumsAgree(rows: seq<Effective>, k: nat, score: Effective -> int, pass: Effective -> int)
    requires AreScores(score, pass) && k < |LeaderboardRows(rows)|
    ensures var row := LeaderboardRows(rows)[k];
            var mine := ScoredOf(rows, row.key);
            var keys := GroupKeys(mine, CapabilityOf);
            && row.n > 0
            && HalfUp(SumOverGroups(mine, CapabilityOf, keys, score), row.n, row.meanScore)
            && HalfUp(1000 * SumOverGroups(mine, CapabilityOf, keys, pass), row.n, row.passRate)
  {
    var mine := ScoredOf(rows, LeaderboardRows(rows)[k].key);
    RowRounds(rows, k, score, pass);
    GroupsPartition(mine, CapabilityOf, GroupKeys(mine, CapabilityOf), score);
    GroupsPartition(mine, CapabilityOf, GroupKeys(mine, CapabilityOf), pass);
  }

  /** An endpoint has capability rows exactly when it has a leaderboard row. */
  lemma CapabilitiesIffRow(rows: seq<Effective>, endpoint: nat)
    ensures CapabilityRows(rows, endpoint) != [] <==>
            exists k :: 0 <= k < |LeaderboardRows(rows)| && LeaderboardRows(rows)[k].key == endpoint
  {
    var mine, out := ScoredOf(rows, endpoint), LeaderboardRows(rows);
    var keys := GroupKeys(Scored(rows), EndpointOf);
    if mine != [] {
      assert mine[0] in mine && EndpointOf(mine[0]) in keys;
      var k :| 0 <= k < |keys| && keys[k] == endpoint;
      assert out[k].key == endpoint;
      CapabilityTotals(rows, endpoint);
    }
    if k :| 0 <= k < |out| && out[k].key == endpoint {
      RowIsAggregate(rows, k);
    }
  }

  /** A mean score lies between the group's lowest and highest score, a pass
      rate in [0, 1], the mean latency and the 95th percentile between the lowest
      and highest latency, and the cost per thousand items between a thousand
      times the lowest and the highest cost. */
  lemma AggregatesAreBounded(rows: seq<Effective>, k: nat, low: nat, high: nat, fast: nat, slow: nat, cheap: nat, dear: nat)
    requires k < |LeaderboardRows(rows)|
    requires forall e :: e in rows && e.score.Some? && e.endpoint == LeaderboardRows(rows)[k].key ==>
               && low <= e.score.value <= high
               && e.latency.Some? && fast <= e.latency.value <= slow && e.cost.Some? && cheap <= e.cost.value <= dear
    ensures var row := LeaderboardRows(rows)[k];
            && low <= row.meanScore <= high
            && 0 <= row.passRate <= 1000
            && 10 * fast <= row.meanLatencyTenths <= 10 * slow
            && 1000 * cheap <= row.costPer1k <= 1000 * dear
            && 10 * fast <= row.p95LatencyTenths <= 10 * slow
  {
    var key := LeaderboardRows(rows)[k].key;
    RowIsAggregate(rows, k);
    AggregateIsBounded(key, ScoredOf(rows, key), low, high, fast, slow, cheap, dear);
  }

  lemma AggregateIsBounded(key: nat, group: seq<Effective>, low: nat, high: nat, fast: nat, slow: nat, cheap: nat, dear: nat)
    requires group != []
    requires forall e :: e in group ==>
               && e.score.Some? && low <= e.score.value <= high
               && e.latency.Some? && fast <= e.latency.value <= slow && e.cost.Some? && cheap <= e.cost.value <= dear
    ensures var row := Aggregate(key, group);
            && low <= row.meanScore <= high
            && 0 <= row.passRate <= 1000
            && 10 * fast <= row.meanLatencyTenths <= 10 * slow
            && 1000 * cheap <= row.costPer1k <= 1000 * dear
            && 10 * fast <= row.p95LatencyTenths <= 10 * slow
  {
    var n := |group|;
    SumAtLeast(group, ScoreIn, low);
    SumAtMost(group, ScoreIn, high);
    RoundStaysBetween(Sum(group, ScoreIn), n, low, high);
    SumAtLeast(group, PassIn, 0);
    SumAtMost(group, PassIn, 1);
    RoundStaysBetween(1000 * Sum(group, PassIn), n, 0, 1000);
    ScaledMeanIsBounded(group, LatencyIn, 10, fast, slow);
    ScaledMeanIsBounded(group, CostIn, 1000, cheap, dear);
    var latencies := Map(group, LatencyIn);
    forall x | x in Sort(latencies) ensures fast <= x <= slow {
      SortIsPermutation(latencies);
      assert x in multiset(latencies);
      var k :| 0 <= k < |latencies| && latencies[k] == x;
      assert latencies[k] == LatencyIn(group[k]);
    }
    SortOrders(latencies);
    PercentileIsBetween(Sort(latencies), fast, slow);
    TenthsStayBetween(Percentile95(Sort(latencies)), fast, slow);
  }

  lemma ScaledMeanIsBounded(group: seq<Effective>, f: Effective -> int, k: nat, low: nat, high: nat)
    requires group != [] && forall e :: e in group ==> low <= f(e) <= high
    ensures k * low <= Round(k * Sum(group, f), |group|) <= k * high
  {
    hide Round, Sum;
    var n, total := |group|, Sum(group, f);
    SumAtLeast(group, f, low);
    SumAtMost(group, f, high);
    ScaleBetween(k, low, total, n);
    ScaleBetween(k, high, total, n);
    RoundStaysBetween(k * total, n, k * low, k * high);
  }

  lemma ScaleBetween(k: nat, bound: int, total: int, n: nat)
    ensures bound * n <= total ==> (k * bound) * n <= k * total
    ensures total <= bound * n ==> k * total <= (k * bound) * n
  {
    assert (k * bound) * n == k * (bound * n);
    Scale(k, bound * n, total);
    Scale(k, total, bound * n);
  }

  // ----- the rows in the columns' terms -----

  lemma ScoredSum(rows: seq<Effective>, endpoint: nat, f: Effective -> int, g: Effective -> int)
    requires forall e: Effective :: g(e) == if e.score.Some? && e.endpoint == endpoint then f(e) else 0
    ensures Sum(ScoredOf(rows, endpoint), f) == Sum(rows, g)
  {
    hide Sum, Filter, Group;
    var both := (e: Effective) => e.score.Some? && e.endpoint == endpoint;
    GroupOfFilter(rows, HasScore, EndpointOf, endpoint, both);
    FilterSum(rows, both, f, g);
  }

  lemma ScoredCount(rows: seq<Effective>, endpoint: nat, positions: set<int>)
    requires forall i :: i in positions <==> 0 <= i < |rows| && rows[i].score.Some? && rows[i].endpoint == endpoint
    ensures |ScoredOf(rows, endpoint)| == |positions|
  {
    hide Sum, Filter, Group;
    var both := (e: Effective) => e.score.Some? && e.endpoint == endpoint;
    GroupOfFilter(rows, HasScore, EndpointOf, endpoint, both);
    FilterCounts(rows, both, positions);
  }

  lemma ScoredPasses(rows: seq<Effective>, endpoint: nat, positions: set<int>)
    requires forall i :: i in positions <==>
               0 <= i < |rows| && rows[i].score.Some? && rows[i].endpoint == endpoint && 2 * rows[i].score.value >= 1000
    ensures Sum(ScoredOf(rows, endpoint), PassIn) == |positions|
  {
    hide Sum, Filter, ScoredOf;
    var passes := (e: Effective) => e.score.Some? && e.endpoint == endpoint && 2 * e.score.value >= 1000;
    var counted := (e: Effective) => if e.score.Some? && e.endpoint == endpoint then PassIn(e) else 0;
    ScoredSum(rows, endpoint, PassIn, counted);
    SumCounts(rows, counted, passes, positions);
  }

  /** A row counts the scored items of its endpoint. Its mean score is their summed
      score over that number, and its pass rate the number of those scoring at least
      one half, each rounded to a thousandth. */
  lemma RowIsOfScores(rows: seq<Effective>, k: nat, score: Effective -> int)
    requires k < |LeaderboardRows(rows)|
    requires forall e: Effective :: score(e) ==
               if e.score.Some? && e.endpoint == LeaderboardRows(rows)[k].key then e.score.value else 0
    ensures var row := LeaderboardRows(rows)[k];
            && row.n == |set i | 0 <= i < |rows| && rows[i].score.Some? && rows[i].endpoint == row.key| > 0
            && HalfUp(Sum(rows, score), row.n, row.meanScore)
            && HalfUp(1000 * |set i | 0 <= i < |rows| && rows[i].score.Some? && rows[i].endpoint == row.key
                                && 2 * rows[i].score.value >= 1000|, row.n, row.passRate)
  {
    hide Sum, ScoredOf, HalfUp;
    var row := LeaderboardRows(rows)[k];
    RowIsAggregate(rows, k);
    hide LeaderboardRows;
    ScoredCount(rows, row.key, set i | 0 <= i < |rows| && rows[i].score.Some? && rows[i].endpoint == row.key);
    ScoredSum(rows, row.key, ScoreIn, score);
    ScoredPasses(rows, row.key, set i | 0 <= i < |rows| && rows[i].score.Some? && rows[i].endpoint == row.key
                                          && 2 * rows[i].score.value >= 1000);
  }

  /** Its total cost is the summed cost, and its cost per thousand items a thousand
      times that over their number, rounded to a micro-dollar. */
  lemma RowIsOfCosts(rows: seq<Effective>, k: nat, cost: Effective -> int)
    requires k < |LeaderboardRows(rows)|
    requires forall e: Effective :: cost(e) ==
               if e.score.Some? && e.endpoint == LeaderboardRows(rows)[k].key && e.cost.Some? then e.cost.value else 0
    ensures var row := LeaderboardRows(rows)[k];
            row.totalCost == Sum(rows, cost) && row.n > 0 && HalfUp(1000 * Sum(rows, cost), row.n, row.costPer1k)
  {
    hide Sum, ScoredOf, HalfUp;
    var row := LeaderboardRows(rows)[k];
    RowIsAggregate(rows, k);
    hide LeaderboardRows;
    ScoredSum(rows, row.key, CostIn, cost);
  }

  /** Its mean latency, rounded to a tenth, when every row has a latency. */
  lemma RowIsOfLatencies(rows: seq<Effective>, k: nat, latency: Effective -> int)
    requires k < |LeaderboardRows(rows)|
    requires forall e :: e in rows ==> e.latency.Some?
    requires forall e: Effective :: latency(e) ==
               if e.score.Some? && e.endpoint == LeaderboardRows(rows)[k].key && e.latency.Some? then e.latency.value else 0
    ensures var row := LeaderboardRows(rows)[k];
            row.n > 0 && HalfUp(10 * Sum(rows, latency), row.n, row.meanLatencyTenths)
  {
    hide Sum, ScoredOf, HalfUp;
    var row := LeaderboardRows(rows)[k];
    RowIsAggregate(rows, k);
    hide LeaderboardRows;
    ScoredSum(rows, row.key, LatencyIn, latency);
  }

  /** An endpoint has a row if and only if one of its items is scored. */
  lemma RowIffScored(rows: seq<Effective>, endpoint: nat)
    ensures (exists k :: 0 <= k < |LeaderboardRows(rows)| && LeaderboardRows(rows)[k].key == endpoint) <==>
            exists e :: e in rows && e.score.Some? && e.endpoint == endpoint
  {
    var keys, out := GroupKeys(Scored(rows), EndpointOf), LeaderboardRows(rows);
    if e :| e in rows && e.score.Some? && e.endpoint == endpoint {
      assert e in Scored(rows) && EndpointOf(e) in keys;
      var k :| 0 <= k < |keys| && keys[k] == endpoint;
      assert out[k].key == endpoint;
    }
    if k :| 0 <= k < |out| && out[k].key == endpoint {
      assert keys[k] in keys;
    }
  }

  /** A capability row, likewise: the scored items of the endpoint whose task has the
      capability, their mean score and the rate of those that pass. */
  lemma CapabilityIsOfScores(rows: seq<Effective>, endpoint: nat, k: nat, score: Effective -> int)
    requires k < |CapabilityRows(rows, endpoint)|
    requires forall e: Effective :: score(e) ==
               if e.score.Some? && e.endpoint == endpoint && e.capability == CapabilityRows(rows, endpoint)[k].capability
               then e.score.value else 0
    ensures var row := CapabilityRows(rows, endpoint)[k];
            && row.n == |set i | 0 <= i < |rows| && rows[i].score.Some? && rows[i].endpoint == endpoint
                                  && rows[i].capability == row.capability| > 0
            && HalfUp(Sum(rows, score), row.n, row.meanScore)
            && HalfUp(1000 * |set i | 0 <= i < |rows| && rows[i].score.Some? && rows[i].endpoint == endpoint
                                && rows[i].capability == row.capability && 2 * rows[i].score.value >= 1000|, row.n, row.passRate)
  {
    hide Sum, ScoredOf, HalfUp;
    var mine, row := ScoredOf(rows, endpoint), CapabilityRows(rows, endpoint)[k];
    var keys := GroupKeys(mine, CapabilityOf);
    CapabilityRowAt(rows, endpoint, k);
    assert CapabilityGroup(mine, keys, k) == Group(mine, CapabilityOf, row.capability);
    hide CapabilityRows, CapabilityGroup, Group;
    CapabilityScores(rows, endpoint, row.capability, score,
                     set i | 0 <= i < |rows| && rows[i].score.Some? && rows[i].endpoint == endpoint
                               && rows[i].capability == row.capability,
                     set i | 0 <= i < |rows| && rows[i].score.Some? && rows[i].endpoint == endpoint
                               && rows[i].capability == row.capability && 2 * rows[i].score.value >= 1000);
  }

  lemma CapabilityScores(rows: seq<Effective>, endpoint: nat, capability: string, score: Effective -> int,
                         positions: set<int>, passes: set<int>)
    requires forall e: Effective :: score(e) ==
               if e.score.Some? && e.endpoint == endpoint && e.capability == capability then e.score.value else 0
    requires forall i :: i in positions <==>
               0 <= i < |rows| && rows[i].score.Some? && rows[i].endpoint == endpoint && rows[i].capability == capability
    requires forall i :: i in passes <==> i in positions && 2 * rows[i].score.value >= 1000
    ensures var group := Group(ScoredOf(rows, endpoint), CapabilityOf, capability);
            |group| == |positions| && Sum(group, ScoreIn) == Sum(rows, score) && Sum(group, PassIn) == |passes|
  {
    hide Sum, Filter, Group;
    var mine := (e: Effective) => e.score.Some? && e.endpoint == endpoint;
    var both := (e: Effective) => e.score.Some? && e.endpoint == endpoint && e.capability == capability;
    var counted := (e: Effective) => if e.score.Some? && e.endpoint == endpoint && e.capability == capability then PassIn(e) else 0;
    var passing := (e: Effective) => e.score.Some? && e.endpoint == endpoint && e.capability == capability && 2 * e.score.value >= 1000;
    GroupOfFilter(rows, HasScore, EndpointOf, endpoint, mine);
    GroupOfFilter(rows, mine, CapabilityOf, capability, both);
    FilterCounts(rows, both, positions);
    FilterSum(rows, both, ScoreIn, score);
    FilterSum(rows, both, PassIn, counted);
    SumCounts(rows, counted, passing, passes);
  }

  /** The position nineteen twentieths of the way through n ordered values falls
      rest twentieths past the one at index. */
  ghost predicate IsPercentile(ordered: seq<int>, tenths: int)
    requires ordered != []
  {
    var index, rest := 19 * (|ordered| - 1) / 20, 19 * (|ordered| - 1) % 20;
    var next := if index + 1 < |ordered| then ordered[index + 1] else ordered[index];
    HalfUp(10 * ((20 - rest) * ordered[index] + rest * next), 20, tenths)
  }

  lemma PercentileInTwentieths(sorted: seq<int>)
    requires sorted != []
    ensures var index, rest := 19 * (|sorted| - 1) / 20, 19 * (|sorted| - 1) % 20;
            var next := if index + 1 < |sorted| then sorted[index + 1] else sorted[index];
            20.0 * Percentile95(sorted) == ((20 - rest) * sorted[index] + rest * next) as real
  {
    var position := 0.95 * (|sorted| - 1) as real;
    var index, rest := 19 * (|sorted| - 1) / 20, 19 * (|sorted| - 1) % 20;
    assert position == index as real + rest as real / 20.0;
    assert position.Floor == index;
    if index + 1 < |sorted| {
      var a, b := sorted[index], sorted[index + 1];
      InTwentieths(a, b, rest);
    }
  }

  lemma InTwentieths(a: int, b: int, rest: nat)
    ensures 20.0 * Interpolate(a as real, b as real, rest as real / 20.0) == ((20 - rest) * a + rest * b) as real
  {
    var t := rest as real / 20.0;
    assert (b - a) as real == b as real - a as real;
    assert 20.0 * (t * (b - a) as real) == (rest * (b - a)) as real;
    assert (20 - rest) * a + rest * b == 20 * a + rest * (b - a);
  }

  lemma TenthsRound(x: real, twentieths: int)
    requires 20.0 * x == twentieths as real
    ensures HalfUp(10 * twentieths, 20, RoundTenths(x))
  {
  }

  /** The tenths of the percentile are not below ten times any value up to that
      position, nor above ten times any value from there on. */
  ghost predicate SplitsAt95(ordered: seq<int>, tenths: int) {
    forall j :: 0 <= j < |ordered| ==>
      && (20 * j <= 19 * (|ordered| - 1) ==> 10 * ordered[j] <= tenths)
      && (20 * j >= 19 * (|ordered| - 1) ==> tenths <= 10 * ordered[j])
  }

  lemma PercentileIsExact(sorted: seq<int>)
    requires sorted != [] && Ordered(sorted)
    ensures IsPercentile(sorted, RoundTenths(Percentile95(sorted))) && SplitsAt95(sorted, RoundTenths(Percentile95(sorted)))
  {
    PercentileInTwentieths(sorted);
    hide Percentile95, RoundTenths, HalfUp;
    var p := Percentile95(sorted);
    var index, rest := 19 * (|sorted| - 1) / 20, 19 * (|sorted| - 1) % 20;
    var next := if index + 1 < |sorted| then sorted[index + 1] else sorted[index];
    TenthsRound(p, (20 - rest) * sorted[index] + rest * next);
    Between(sorted[index], next, rest);
    TenthsStayBetween(p, sorted[index], next);
    if rest == 0 {
      TenthsStayBetween(p, sorted[index], sorted[index]);
    }
  }

  lemma Between(a: int, b: int, rest: nat)
    requires a <= b && rest < 20
    ensures 20 * a <= (20 - rest) * a + rest * b <= 20 * b
    ensures rest == 0 ==> (20 - rest) * a + rest * b == 20 * a
  {
    assert (20 - rest) * a + rest * b == 20 * a + rest * (b - a);
    Scale(rest, 0, b - a);
    assert (20 - rest) * (b - a) >= 0;
    assert 20 * b - ((20 - rest) * a + rest * b) == (20 - rest) * (b - a);
  }

  /** The 95th percentile of the latencies, interpolated between ordered values. */
  lemma RowIsOfPercentile(rows: seq<Effective>, k: nat, mine: Effective -> bool, latency: Effective -> int)
    requires k < |LeaderboardRows(rows)|
    requires forall e :: e in rows ==> e.latency.Some?
    requires forall e: Effective :: mine(e) <==> e.score.Some? && e.endpoint == LeaderboardRows(rows)[k].key
    requires forall e: Effective :: e.latency.Some? ==> latency(e) == e.latency.value
    ensures exists ordered: seq<int> ::
              && Ordered(ordered) && multiset(ordered) == multiset(Map(Filter(rows, mine), latency)) && ordered != []
              && IsPercentile(ordered, LeaderboardRows(rows)[k].p95LatencyTenths)
              && SplitsAt95(ordered, LeaderboardRows(rows)[k].p95LatencyTenths)
  {
    hide IsPercentile, SplitsAt95, Percentile95, Ordered;
    var row := LeaderboardRows(rows)[k];
    var group := ScoredOf(rows, row.key);
    RowIsAggregate(rows, k);
    GroupOfFilter(rows, HasScore, EndpointOf, row.key, mine);
    assert group == Filter(rows, mine);
    hide LeaderboardRows, ScoredOf;
    assert Map(group, LatencyIn) == Map(Filter(rows, mine), latency) by {
      forall e | e in group ensures LatencyIn(e) == latency(e) {
      }
    }
    var ordered := Sort(Map(group, LatencyIn));
    SortOrders(Map(group, LatencyIn));
    SortIsPermutation(Map(group, LatencyIn));
    PercentileIsExact(ordered);
  }

  // ----- percentile_cont -----

  function Insert(x: int, xs: seq<int>): seq<int> {
    if xs == [] || x <= xs[0] then [x] + xs else [xs[0]] + Insert(x, xs[1..])
  }

  function Sort(xs: seq<int>): (ys: seq<int>)
    ensures |ys| == |xs|
  {
    if xs == [] then [] else
      InsertLength(xs[0], Sort(xs[1..]));
      Insert(xs[0], Sort(xs[1..]))
  }

  lemma InsertLength(x: int, xs: seq<int>)
    ensures |Insert(x, xs)| == |xs| + 1
  {
  }

  lemma {:induction false} InsertAdds(x: int, xs: seq<int>)
    ensures multiset(Insert(x, xs)) == multiset(xs) + multiset{x}
  {
    if xs != [] && x > xs[0] {
      InsertAdds(x, xs[1..]);
      assert xs == [xs[0]] + xs[1..];
    }
  }

  lemma {:induction false} SortIsPermutation(xs: seq<int>)
    ensures multiset(Sort(xs)) == multiset(xs)
  {
    if xs != [] {
      SortIsPermutation(xs[1..]);
      InsertAdds(xs[0], Sort(xs[1..]));
      assert xs == [xs[0]] + xs[1..];
    }
  }

  ghost predicate Ordered(xs: seq<int>) {
    forall j, k :: 0 <= j < k < |xs| ==> xs[j] <= xs[k]
  }

  lemma {:induction false} InsertKeepsOrder(x: int, xs: seq<int>)
    requires Ordered(xs)
    ensures Ordered(Insert(x, xs))
  {
    if xs != [] && x > xs[0] {
      InsertKeepsOrder(x, xs[1..]);
      InsertAdds(x, xs[1..]);
      var rest := Insert(x, xs[1..]);
      forall k | 0 <= k < |rest| ensures xs[0] <= rest[k] {
        assert rest[k] in multiset(rest);
        assert rest[k] in xs[1..] || rest[k] == x;
      }
    }
  }

  lemma {:induction false} SortOrders(xs: seq<int>)
    ensures Ordered(Sort(xs))
  {
    if xs != [] {
      SortOrders(xs[1..]);
      InsertKeepsOrder(xs[0], Sort(xs[1..]));
    }
  }

  function Times(t: real, x: real): real {
    t * x
  }

  function Interpolate(a: real, b: real, t: real): real {
    a + Times(t, b - a)
  }

  /** Linear interpolation at 0.95 of the way through the sorted values. */
  function Percentile95(sorted: seq<int>): real
    requires sorted != []
  {
    var position := 0.95 * (|sorted| - 1) as real;
    var k := position.Floor;
    if k + 1 < |sorted| then
      Interpolate(sorted[k] as real, sorted[k + 1] as real, position - k as real)
    else sorted[k] as real
  }

  lemma PercentileIsBetween(sorted: seq<int>, low: int, high: int)
    requires sorted != [] && Ordered(sorted)
    requires forall x :: x in sorted ==> low <= x <= high
    ensures low as real <= Percentile95(sorted) <= high as real
  {
    var position := 0.95 * (|sorted| - 1) as real;
    var k := position.Floor;
    assert sorted[k] in sorted;
    if k + 1 < |sorted| {
      assert sorted[k + 1] in sorted;
      hide Interpolate;
      Interpolation(sorted[k] as real, sorted[k + 1] as real, position - k as real);
    }
  }

  lemma Interpolation(a: real, b: real, t: real)
    requires 0.0 <= t <= 1.0 && a <= b
    ensures a <= Interpolate(a, b, t) <= b
  {
    Portion(t, b - a);
    assert Times(t, b - a) == t * (b - a);
    hide Times;
  }
}
