/** The grade and review tables over whole runs of the protocol. */
module GradedRuns {
  import opened Options
  import opened Protocol
  import opened Safety
  import G = Grading

  /** Finalised, and not yet past grading. */
  predicate ToBeGraded(p: Phase) {
    p.AbortCheck? || p.Grading? || p.Judging?
  }

  ghost predicate GradesAreOfRecorded(s: State) {
    forall k :: 0 <= k < |s.book.grades| ==>
      s.book.grades[k].item < |s.items| && Recorded(s.items[s.book.grades[k].item])
  }

  ghost predicate UngradedSoFar(s: State) {
    forall w :: 0 <= w < |s.workers| && ToBeGraded(s.workers[w]) ==> G.NoGrades(s.book, s.workers[w].item)
  }

  /** A label exactly when resolved. */
  predicate LabelOk(r: G.Review) {
    && r.status.Resolved? == r.reviewerLabel.Some?
    && (r.reviewerLabel.Some? ==> r.reviewerLabel.value <= 1000)
  }

  ghost predicate LabelsOk(book: G.Book) {
    forall k :: 0 <= k < |book.reviews| ==> LabelOk(book.reviews[k])
  }

  ghost predicate Graded(s: State) {
    G.BookOk(s.book) && LabelsOk(s.book) && GradesAreOfRecorded(s) && UngradedSoFar(s)
  }

  /** No step takes back what an item has recorded. */
  lemma RecordedStays(c: Config, s: State, a: Action, i: nat)
    requires Inv(c, s) && Enabled(c, s, a) && i < |s.items| && Recorded(s.items[i])
    ensures i < |Apply(c, s, a).items| && Recorded(Apply(c, s, a).items[i])
  {
    assert ItemOk(s.run, s.items[i]);
    if a.CallProvider? || a.Advance? {
      var p := s.workers[a.worker];
      assert PhaseOk(c, s.run, s.items[p.item], p);
    }
    hide Inv, Price;
  }

  lemma AdvanceToGrading(c: Config, s: State, w: nat)
    requires Inv(c, s) && Graded(s) && Enabled(c, s, Advance(w)) && w < |Apply(c, s, Advance(w)).workers|
    requires ToBeGraded(Apply(c, s, Advance(w)).workers[w])
    ensures G.NoGrades(s.book, Apply(c, s, Advance(w)).workers[w].item)
  {
    var p := s.workers[w];
    assert PhaseOk(c, s.run, s.items[p.item], p);
    assert Apply(c, s, Advance(w)).workers[w].item == p.item;
    if p.Grading? {
      G.NoGradesIsEmpty(s.book, p.item);
    }
    if p.Finalise? {
      forall g | g in s.book.grades ensures g.item != p.item {
        var k :| 0 <= k < |s.book.grades| && s.book.grades[k] == g;
        assert !Recorded(s.items[p.item]);
      }
    }
  }

  lemma BookIsKept(c: Config, s: State, a: Action)
    requires Enabled(c, s, a) && !a.Judge? && !a.Claim? && !a.Resolve?
    ensures Apply(c, s, a).book == s.book
  {
  }

  /** A step that leaves the book alone. */
  lemma SameBookGraded(c: Config, s: State, a: Action)
    requires Inv(c, s) && Graded(s) && Enabled(c, s, a) && !a.Judge? && !a.Claim? && !a.Resolve?
    ensures Graded(Apply(c, s, a))
  {
    hide Apply, Enabled, Inv, Recorded;
    var s' := Apply(c, s, a);
    BookIsKept(c, s, a);
    forall k | 0 <= k < |s'.book.grades|
      ensures s'.book.grades[k].item < |s'.items| && Recorded(s'.items[s'.book.grades[k].item])
    {
      RecordedStays(c, s, a, s.book.grades[k].item);
    }
    forall w | 0 <= w < |s'.workers| && ToBeGraded(s'.workers[w])
      ensures G.NoGrades(s'.book, s'.workers[w].item)
    {
      if a == Advance(w) {
        AdvanceToGrading(c, s, w);
      } else {
        SizesAreKept(c, s, a);
        OnlyAdvanceStartsGrading(c, s, a, w);
      }
    }
  }

  lemma OnlyAdvanceStartsGrading(c: Config, s: State, a: Action, w: nat)
    requires Enabled(c, s, a) && a != Advance(w) && w < |s.workers| == |Apply(c, s, a).workers|
    requires ToBeGraded(Apply(c, s, a).workers[w])
    ensures s.workers[w] == Apply(c, s, a).workers[w]
  {
    hide Price, AdvanceWorker;
    if !By(a, w) {
      PhaseIsPrivate(c, s, a, w);
      hide Apply;
    }
  }

  /** New reviews carry no label. */
  lemma CommitKeepsLabels(c: Config, book: G.Book, i: nat, report: G.Report)
    requires LabelsOk(book)
    ensures LabelsOk(G.CommitGrades(c.grading, book, i, report))
  {
  }

  lemma JudgeGraded(c: Config, s: State, w: nat, report: G.Report)
    requires Inv(c, s) && Graded(s) && Enabled(c, s, Judge(w, report))
    ensures Graded(Apply(c, s, Judge(w, report)))
  {
    hide LedgerOk, MessagesOk, QueuedCarried, AdvanceWorker, G.BookOk;
    var s' := Apply(c, s, Judge(w, report));
    var i := s.workers[w].item;
    if !report.judge.JudgeError? {
      CommitKeepsLabels(c, s.book, i, report);
      G.CommitKeepsBook(c.grading, s.book, i, report);
      var rows := G.NewGrades(i, report);
      assert forall g :: g in rows ==> g.item == i;
      assert Recorded(s.items[i]) by {
        assert ItemOk(s.run, s.items[i]) && PhaseOk(c, s.run, s.items[i], s.workers[w]);
      }
      hide Recorded, LabelsOk, PhaseOk, ItemsOk;
      forall k | 0 <= k < |s'.book.grades|
        ensures s'.book.grades[k].item < |s'.items| && Recorded(s'.items[s'.book.grades[k].item])
      {
        if k >= |s.book.grades| {
          assert s'.book.grades[k] in rows;
        }
      }
      forall v | 0 <= v < |s'.workers| && ToBeGraded(s'.workers[v])
        ensures G.NoGrades(s'.book, s'.workers[v].item)
      {
        assert v != w && !SameItem(s.workers[w], s.workers[v]);
      }
    }
  }

  /** Claims and resolutions keep which items have reviews. */
  lemma ReviewGraded(c: Config, s: State, a: Action)
    requires Graded(s) && Enabled(c, s, a) && (a.Claim? || a.Resolve?)
    ensures Graded(Apply(c, s, a))
  {
    var s' := Apply(c, s, a);
    var k := a.review;
    assert s'.book.reviews == s.book.reviews[k := s'.book.reviews[k]];
    assert s'.book.reviews[k].item == s.book.reviews[k].item;
    assert s.book.reviews[k] in s.book.reviews;
    forall r | r in s'.book.reviews
      ensures G.HasScore(s'.book, r.item, G.Deterministic) && G.HasScore(s'.book, r.item, G.LlmJudge)
    {
      var j :| 0 <= j < |s'.book.reviews| && s'.book.reviews[j] == r;
      assert s.book.reviews[j] in s.book.reviews && s.book.reviews[j].item == r.item;
      G.HasScoreGrows(s.book, s'.book, r.item, G.Deterministic);
      G.HasScoreGrows(s.book, s'.book, r.item, G.LlmJudge);
    }
  }

  lemma StepKeepsGraded(c: Config, s: State, a: Action)
    requires Inv(c, s) && Graded(s) && Enabled(c, s, a)
    ensures Graded(Apply(c, s, a))
  {
    match a {
      case Judge(w, report) => JudgeGraded(c, s, w, report);
      case Claim(_, _) => ReviewGraded(c, s, a);
      case Resolve(_, _, _) => ReviewGraded(c, s, a);
      case _ => SameBookGraded(c, s, a);
    }
  }

  lemma {:induction false} RunKeepsGraded(c: Config, s: State, tr: seq<Action>)
    requires Inv(c, s) && Graded(s) && IsRun(c, s, tr) && SingleMessage(c.faults)
    ensures Inv(c, End(c, s, tr)) && Graded(End(c, s, tr))
    decreases |tr|
  {
    hide Apply, Enabled, Inv, Graded;
    if tr != [] {
      RunKeepsGraded(c, s, Front(tr));
      StepKeepsInv(c, End(c, s, Front(tr)), Last(tr));
      StepKeepsGraded(c, End(c, s, Front(tr)), Last(tr));
    }
  }

  /** However workers interleave their grading with everything else: at most
      one grade per (item, grader), at most one review per item, a review only
      where both graders scored, grades only for items that recorded a result,
      and no worker that comes to grade an item finds it graded. */
  lemma GradesStayUnique(c: Config, s0: State, tr: seq<Action>)
    requires Initial(s0) && IsRun(c, s0, tr) && SingleMessage(c.faults)
    ensures var s := End(c, s0, tr);
            && G.BookOk(s.book) && LabelsOk(s.book)
            && (forall k :: 0 <= k < |s.book.grades| ==>
                  s.book.grades[k].item < |s.items| && Recorded(s.items[s.book.grades[k].item]))
            && (forall w :: 0 <= w < |s.workers| && s.workers[w].Grading? ==>
                  G.GradesOf(s.book, s.workers[w].item) == [])
  {
    InitialInv(c, s0);
    RunKeepsGraded(c, s0, tr);
    var s := End(c, s0, tr);
    forall w | 0 <= w < |s.workers| && s.workers[w].Grading?
      ensures G.GradesOf(s.book, s.workers[w].item) == []
    {
      G.NoGradesIsEmpty(s.book, s.workers[w].item);
    }
  }
}
