/** Two executions of one item both find it ungraded, and both grade it: the
    query of the leaderboard then counts the item twice. */
module DoubleGrading {
  import opened Options
  import opened Sums
  import opened Protocol
  import opened Traces
  import opened Anomalies
  import G = Grading
  import L = Leaderboard
  import Relations

  function Passed(): G.Grade {
    G.Grade(0, G.Deterministic, Some(1000), Some(true))
  }

  function PassedReport(): G.Report {
    G.Report(Some(true), G.NoRubric)
  }

  /** The rows of item 0 after both executions, with the given grades so far. */
  function Graded(it: Item, grades: seq<G.Grade>, p: Phase, q: Phase): State {
    State(OpenRun(2), [it], G.Book(grades, []), multiset{}, [p, q], multiset{})
  }

  lemma BothFinish(c: Config, s0: State, r: nat) returns (it: Item)
    requires Reaches(c, s0, Raced(1), r) && c.maxAttempts == 1
    ensures Reaches(c, s0, Graded(it, [], AbortCheck(0), AbortCheck(0)), r) && it.status.Succeeded? && it.task == 0
  {
    hide Reaches;
    TakeBoth(c, s0, r);
    var s := BothTaken();
    Finish(c, s0, s, 0, r);
    Finish(c, s0, Finished(s, 0), 1, r);
    var s' := Finished(Finished(s, 0), 1);
    it := s'.items[0];
    assert s'.items == [it] && s'.workers == [AbortCheck(0), AbortCheck(0)];
  }

  /** Neither execution has committed when both look for grades. */
  lemma BothLook(c: Config, s0: State, it: Item, r: nat)
    requires Reaches(c, s0, Graded(it, [], AbortCheck(0), AbortCheck(0)), r) && c.spendLimit >= 5000
    ensures Reaches(c, s0, Graded(it, [], Judging(0), Judging(0)), r)
  {
    hide Reaches;
    var a, g, j := AbortCheck(0), Protocol.Grading(0), Judging(0);
    assert G.GradesOf(G.Book([], []), 0) == [];
    Go(c, s0, Graded(it, [], a, a), Advance(0), r);
    assert Apply(c, Graded(it, [], a, a), Advance(0)) == Graded(it, [], g, a);
    Go(c, s0, Graded(it, [], g, a), Advance(1), r);
    assert Apply(c, Graded(it, [], g, a), Advance(1)) == Graded(it, [], g, g);
    Go(c, s0, Graded(it, [], g, g), Advance(0), r);
    assert Apply(c, Graded(it, [], g, g), Advance(0)) == Graded(it, [], j, g);
    Go(c, s0, Graded(it, [], j, g), Advance(1), r);
    assert Apply(c, Graded(it, [], j, g), Advance(1)) == Graded(it, [], j, j);
  }

  lemma Commit(c: Config, grades: seq<G.Grade>)
    ensures G.CommitGrades(c.grading, G.Book(grades, []), 0, PassedReport()) == G.Book(grades + [Passed()], [])
  {
    assert G.NewGrades(0, PassedReport()) == [Passed()];
  }

  lemma BothCommit(c: Config, s0: State, it: Item, r: nat)
    requires Reaches(c, s0, Graded(it, [], Judging(0), Judging(0)), r)
    ensures Reaches(c, s0, Graded(it, [Passed(), Passed()], CompleteCheck(0, false), CompleteCheck(0, false)), r)
  {
    hide Reaches, G.CommitGrades;
    var j, d := Judging(0), CompleteCheck(0, false);
    Commit(c, []);
    Commit(c, [Passed()]);
    Go(c, s0, Graded(it, [], j, j), Judge(0, PassedReport()), r);
    assert [] + [Passed()] == [Passed()];
    assert Apply(c, Graded(it, [], j, j), Judge(0, PassedReport())) == Graded(it, [Passed()], d, j);
    Go(c, s0, Graded(it, [Passed()], d, j), Judge(1, PassedReport()), r);
    assert [Passed()] + [Passed()] == [Passed(), Passed()];
    assert Apply(c, Graded(it, [Passed()], d, j), Judge(1, PassedReport())) == Graded(it, [Passed(), Passed()], d, d);
  }

  /** What both leave: one succeeded item with two equal grades. */
  ghost predicate GradedTwice(s: State) {
    && |s.items| == 1 && s.items[0].status.Succeeded? && s.items[0].task == 0
    && s.book == G.Book([Passed(), Passed()], [])
  }

  lemma RaceGradesTwice(c: Config, s0: State, r: nat)
    requires Reaches(c, s0, Raced(1), r) && c.maxAttempts == 1 && c.spendLimit >= 5000
    ensures exists s :: Reaches(c, s0, s, r) && GradedTwice(s)
  {
    var it := BothFinish(c, s0, r);
    BothLook(c, s0, it, r);
    BothCommit(c, s0, it, r);
    hide Reaches;
    assert GradedTwice(Graded(it, [Passed(), Passed()], CompleteCheck(0, false), CompleteCheck(0, false)));
  }

  lemma GradesRepeat(s: State)
    requires GradedTwice(s)
    ensures !G.OneGradePerGrader(s.book)
  {
    assert s.book.grades[0] == s.book.grades[1];
  }

  // ----- the leaderboard counts the item twice -----

  function OneTask(): seq<L.Task> {
    [L.Task(0, 0, "")]
  }

  function Unfiltered(): L.Filters {
    L.Filters(None, None)
  }

  lemma TwoMatches<A, B>(x: A, ys: seq<B>, on: (A, B) -> bool)
    requires |ys| == 2 && on(x, ys[0]) && on(x, ys[1])
    ensures Relations.LeftJoin([x], ys, on) == [(x, Some(ys[0])), (x, Some(ys[1]))]
  {
    var p := Relations.With(on, x);
    assert p(ys[0]) == on(x, ys[0]) && p(ys[1]) == on(x, ys[1]);
    assert ys == [ys[0]] + [ys[1]] && ys[1..][1..] == [];
    assert Filter(ys[1..], p) == [ys[1]] && Filter(ys, p) == ys;
    assert [x][1..] == [];
  }

  lemma NoMatches<A, B>(x: A, ys: seq<B>, on: (A, B) -> bool)
    requires forall k :: 0 <= k < |ys| ==> !on(x, ys[k])
    ensures Relations.LeftJoin([x], ys, on) == [(x, None)]
  {
    var p := Relations.With(on, x);
    forall k | 0 <= k < |ys| ensures !p(ys[k]) {
      assert p(ys[k]) == on(x, ys[k]);
    }
    Relations.NoMatch(ys, p);
    hide Filter;
    var none: seq<Option<B>> := [None];
    assert Relations.OrNull(Filter(ys, p)) == none;
    assert Relations.Pairs(x, none) == [(x, None)];
    assert [x][1..] == [] && Relations.LeftJoin([], ys, on) == [];
  }

  lemma OneMatch<A, B>(x: A, y: B, on: (A, B) -> bool)
    requires on(x, y)
    ensures Relations.Join([x], [y], on) == [(x, y)]
  {
    var p := Relations.With(on, x);
    assert p(y) == on(x, y) && [y][1..] == [] && [x][1..] == [];
    assert Filter([y], p) == [y];
  }

  /** The LEFT JOIN with the deterministic grades fans out. */
  lemma FansOut(s: State, run: nat)
    requires GradedTwice(s)
    ensures |L.EffectiveRows(L.Tables(L.ItemRows(s, run), OneTask(), s.book), Unfiltered())| == 2
  {
    var db := L.Tables(L.ItemRows(s, run), OneTask(), s.book);
    var x0 := db.items[0];
    assert db.items == [x0] && x0 == L.ItemRow(0, run, s.items[0]);
    OneMatch(x0, OneTask()[0], L.OnTask);
    var x1 := (x0, OneTask()[0]);
    NoMatches(x1, db.book.reviews, L.OnReview);
    var x2 := (x1, None);
    NoMatches(x2, db.book.grades, L.OnJudge);
    var x3 := (x2, None);
    TwoMatches(x3, db.book.grades, L.OnDeterministic);
    var a, b := (x3, Some(Passed())), (x3, Some(Passed()));
    assert L.JoinAll(db) == [a, b];
    Selected([a, b], L.Where(Unfiltered()));
  }

  lemma Selected(xs: seq<L.Joined4>, p: L.Joined4 -> bool)
    requires |xs| == 2 && p(xs[0]) && p(xs[1])
    ensures |Filter(xs, p)| == 2
  {
    assert |xs[1..]| == 1 && xs[1..][1..] == [];
    assert |Filter(xs[1..], p)| == 1;
  }

  /** So the query does not have one row for each succeeded item. */
  lemma CountedTwice(s: State, run: nat)
    requires GradedTwice(s)
    ensures var db := L.Tables(L.ItemRows(s, run), OneTask(), s.book);
            L.EffectiveRows(db, Unfiltered()) != Relations.Map(Filter(db.items, L.Counted(db, Unfiltered())), L.RowOf(db))
  {
    FansOut(s, run);
  }
}
