/** What becomes of an item that has succeeded. */
module Results {
  import opened Protocol
  import opened Safety
  import G = Grading

  /** The item is finalised, and its message not yet acknowledged. */
  const FINISHED: set<Point> :=
    {BeforeAbortCheck, BeforeGrading, BeforeJudging, BeforeGradingFailure, BeforeCompletion, BeforeAcknowledge}

  /** No crash brings back the message of a succeeded item. */
  predicate KeepsResults(f: Faults) {
    SingleMessage(f) && f.crashIn !! FINISHED
  }

  predicate Undoes(p: Phase, i: nat) {
    (p.CancelWrite? || p.AbortWrite?) && p.item == i
  }

  /** No message and no failing write waits for the item. */
  ghost predicate AtRest(s: State, i: nat) {
    i !in s.queue && forall w :: 0 <= w < |s.workers| ==> !Undoes(s.workers[w], i)
  }

  ghost predicate SucceededAtRest(s: State) {
    forall i :: 0 <= i < |s.items| && s.items[i].status.Succeeded? ==> AtRest(s, i)
  }

  /** Only a grading error fails a succeeded item, and whoever replies that an
      item was cancelled has failed it. */
  ghost predicate TrueToResults(c: Config, s: State, a: Action)
    requires Enabled(c, s, a)
  {
    KeepsSucceeded(s, a, Apply(c, s, a)) && CancelsTruly(s, a, Apply(c, s, a))
  }

  ghost predicate CancelsTruly(s: State, a: Action, s': State) {
    a.Advance? && a.worker < |s.workers| && s.workers[a.worker].CancelWrite? ==>
      s.workers[a.worker].item < |s'.items| && s'.items[s.workers[a.worker].item].status.Failed?
  }

  ghost predicate KeepsSucceeded(s: State, a: Action, s': State) {
    forall i :: 0 <= i < |s.items| && s.items[i].status.Succeeded? ==>
      || (i < |s'.items| && s'.items[i].status.Succeeded?)
      || (a.Advance? && a.worker < |s.workers| && s.workers[a.worker] == GradingFailed(i))
  }

  lemma FinaliseKeepsResults(c: Config, s: State, w: nat)
    requires Inv(c, s) && SucceededAtRest(s) && Enabled(c, s, Advance(w)) && s.workers[w].Finalise?
    ensures TrueToResults(c, s, Advance(w)) && SucceededAtRest(Apply(c, s, Advance(w)))
  {
    var i := s.workers[w].item;
    var s' := Apply(c, s, Advance(w));
    assert MessageOk(s, i);
    forall v | 0 <= v < |s'.workers| ensures !Undoes(s'.workers[v], i) {
      assert v == w || !SameItem(s.workers[w], s.workers[v]);
    }
    hide Inv, Price, Recorded;
    forall j | 0 <= j < |s'.items| && s'.items[j].status.Succeeded? && j != i ensures AtRest(s', j) {
      assert AtRest(s, j);
    }
  }

  lemma AdvanceKeepsResults(c: Config, s: State, w: nat)
    requires Inv(c, s) && SucceededAtRest(s) && Enabled(c, s, Advance(w)) && !s.workers[w].Finalise?
    ensures TrueToResults(c, s, Advance(w)) && SucceededAtRest(Apply(c, s, Advance(w)))
  {
    hide Inv, Apply, SucceededAtRest;
    AdvanceIsTrue(c, s, w);
    AdvanceKeepsRest(c, s, w);
  }

  lemma AdvanceIsTrue(c: Config, s: State, w: nat)
    requires Inv(c, s) && SucceededAtRest(s) && Enabled(c, s, Advance(w)) && !s.workers[w].Finalise?
    ensures TrueToResults(c, s, Advance(w))
  {
    var p := s.workers[w];
    assert PhaseOk(c, s.run, s.items[p.item], p) && ItemOk(s.run, s.items[p.item]);
    assert s.items[p.item].status.Succeeded? ==> AtRest(s, p.item);
    hide Inv, Price, Recorded;
  }

  /** Nothing becomes succeeded, and no failing write comes up for what is. */
  lemma AdvanceKeepsRest(c: Config, s: State, w: nat)
    requires Inv(c, s) && SucceededAtRest(s) && Enabled(c, s, Advance(w)) && !s.workers[w].Finalise?
    ensures SucceededAtRest(Apply(c, s, Advance(w)))
  {
    var p := s.workers[w];
    var s' := Apply(c, s, Advance(w));
    assert PhaseOk(c, s.run, s.items[p.item], p) && ItemOk(s.run, s.items[p.item]);
    hide Inv, Price, Recorded;
    forall i | 0 <= i < |s'.items| && s'.items[i].status.Succeeded? ensures AtRest(s', i) {
      assert AtRest(s, i);
    }
  }

  lemma CallKeepsResults(c: Config, s: State, w: nat, outcome: Outcome)
    requires Inv(c, s) && SucceededAtRest(s) && Enabled(c, s, CallProvider(w, outcome))
    ensures TrueToResults(c, s, CallProvider(w, outcome)) && SucceededAtRest(Apply(c, s, CallProvider(w, outcome)))
  {
    var i := s.workers[w].item;
    var s' := Apply(c, s, CallProvider(w, outcome));
    assert PhaseOk(c, s.run, s.items[i], s.workers[w]) && ItemOk(s.run, s.items[i]);
    hide Inv;
    forall j | 0 <= j < |s'.items| && s'.items[j].status.Succeeded? ensures AtRest(s', j) {
      assert AtRest(s, j);
    }
  }

  /** The item whose message a crash brings back has not succeeded. */
  lemma CrashKeepsResults(c: Config, s: State, w: nat)
    requires Inv(c, s) && SucceededAtRest(s) && Enabled(c, s, Crash(w)) && KeepsResults(c.faults)
    ensures SucceededAtRest(Apply(c, s, Crash(w)))
  {
    var p := s.workers[w];
    var s' := Apply(c, s, Crash(w));
    assert PointOf(p) !in FINISHED;
    assert PhaseOk(c, s.run, s.items[p.item], p) && ItemOk(s.run, s.items[p.item]);
    assert Undoes(p, p.item) ==> !AtRest(s, p.item);
    hide Inv;
    forall i | 0 <= i < |s'.items| && s'.items[i].status.Succeeded? ensures AtRest(s', i) {
      assert AtRest(s, i);
    }
  }

  lemma DeliverKeepsResults(c: Config, s: State, w: nat, j: nat)
    requires SucceededAtRest(s) && Enabled(c, s, Deliver(w, j))
    ensures TrueToResults(c, s, Deliver(w, j)) && SucceededAtRest(Apply(c, s, Deliver(w, j)))
  {
    var s' := Apply(c, s, Deliver(w, j));
    assert !AtRest(s, j) && s'.workers[w].item == j;
    hide AdvanceWorker, AfterCall, Snapshot;
    forall i | 0 <= i < |s'.items| && s'.items[i].status.Succeeded? ensures AtRest(s', i) {
      assert AtRest(s, i);
    }
  }

  /** A replay writes the row of a dead-lettered item only. */
  lemma ReplayKeepsResults(c: Config, s: State, j: nat)
    requires Inv(c, s) && SucceededAtRest(s) && Enabled(c, s, ReplayWrite(j))
    ensures TrueToResults(c, s, ReplayWrite(j)) && SucceededAtRest(Apply(c, s, ReplayWrite(j)))
  {
    var s' := Apply(c, s, ReplayWrite(j));
    ReplayWriteKeeps(c, s, j);
    hide Inv;
    forall i | 0 <= i < |s'.items| && s'.items[i].status.Succeeded? ensures AtRest(s', i) {
      assert AtRest(s, i);
    }
  }

  /** Handlers that bring no message back. */
  lemma OtherKeepsResults(c: Config, s: State, a: Action)
    requires SucceededAtRest(s) && Enabled(c, s, a)
    requires a.ReplayRead? || a.Cancel? || a.Claim? || a.Resolve?
    ensures TrueToResults(c, s, a) && SucceededAtRest(Apply(c, s, a))
  {
    var s' := Apply(c, s, a);
    assert s'.workers == s.workers && s'.queue == s.queue && |s'.items| == |s.items|;
    assert forall i :: 0 <= i < |s.items| ==> (s'.items[i].status.Succeeded? <==> s.items[i].status.Succeeded?);
    hide Apply, Enabled;
    forall i | 0 <= i < |s'.items| && s'.items[i].status.Succeeded? ensures AtRest(s', i) {
      assert AtRest(s, i);
    }
  }

  lemma JudgeKeepsResults(c: Config, s: State, w: nat, report: G.Report)
    requires SucceededAtRest(s) && Enabled(c, s, Judge(w, report))
    ensures TrueToResults(c, s, Judge(w, report)) && SucceededAtRest(Apply(c, s, Judge(w, report)))
  {
    var s' := Apply(c, s, Judge(w, report));
    forall i | 0 <= i < |s'.items| && s'.items[i].status.Succeeded? ensures AtRest(s', i) {
      assert AtRest(s, i);
    }
  }

  lemma StepKeepsResults(c: Config, s: State, a: Action)
    requires Inv(c, s) && SucceededAtRest(s) && Enabled(c, s, a) && KeepsResults(c.faults)
    ensures TrueToResults(c, s, a) && SucceededAtRest(Apply(c, s, a))
  {
    hide Inv, Apply, SucceededAtRest;
    match a {
      case Advance(w) =>
        if s.workers[w].Finalise? {
          FinaliseKeepsResults(c, s, w);
        } else {
          AdvanceKeepsResults(c, s, w);
        }
      case CallProvider(w, outcome) => CallKeepsResults(c, s, w, outcome);
      case Deliver(w, i) => DeliverKeepsResults(c, s, w, i);
      case Judge(w, report) => JudgeKeepsResults(c, s, w, report);
      case Crash(w) =>
        CrashKeepsResults(c, s, w);
        CrashWritesNothing(c, s, w);
      case ReplayWrite(i) => ReplayKeepsResults(c, s, i);
      case _ => OtherKeepsResults(c, s, a);
    }
  }

  lemma CrashWritesNothing(c: Config, s: State, w: nat)
    requires Enabled(c, s, Crash(w))
    ensures Apply(c, s, Crash(w)).items == s.items
  {
  }

  lemma {:induction false} RunKeepsResults(c: Config, s: State, tr: seq<Action>)
    requires Inv(c, s) && SucceededAtRest(s) && IsRun(c, s, tr) && KeepsResults(c.faults)
    ensures Inv(c, End(c, s, tr)) && SucceededAtRest(End(c, s, tr))
    decreases |tr|
  {
    hide Apply, Enabled, Inv, SucceededAtRest, TrueToResults;
    if tr != [] {
      RunKeepsResults(c, s, Front(tr));
      StepKeepsInv(c, End(c, s, Front(tr)), Last(tr));
      StepKeepsResults(c, End(c, s, Front(tr)), Last(tr));
    }
  }

  /** In every run without such a crash, no step but a grading error fails an
      item that has succeeded, and every cancelled reply is true. */
  lemma ResultsAreKept(c: Config, s0: State, tr: seq<Action>, a: Action)
    requires Initial(s0) && IsRun(c, s0, tr) && KeepsResults(c.faults) && Enabled(c, End(c, s0, tr), a)
    ensures TrueToResults(c, End(c, s0, tr), a)
  {
    hide Apply, Enabled, Inv, TrueToResults, IsRun, End;
    InitialInv(c, s0);
    assert SucceededAtRest(s0) by {
      forall i | 0 <= i < |s0.items| ensures !s0.items[i].status.Succeeded? {
        assert s0.items[i] == FreshItem(s0.items[i]);
      }
    }
    RunKeepsResults(c, s0, tr);
    StepKeepsResults(c, End(c, s0, tr), a);
  }
}
