/** What the terminal run statuses promise: completed, failed, cancelled. */
module RunOutcome {
  import opened Sums
  import opened Protocol
  import opened Safety
  import G = Grading

  // ----- completed and failed -----

  /** No sweep has failed queued items: nothing was cancelled or aborted. */
  predicate NotSwept(run: Run) {
    !run.status.Cancelled? && !run.error
  }

  /** Ended by _maybe_complete_run. */
  predicate EndedByCheck(run: Run) {
    run.status.Completed? || (run.status.Failed? && !run.error)
  }

  ghost predicate ExecutingIsUnfinished(s: State) {
    forall w :: 0 <= w < |s.workers| && Executing(s.workers[w]) && s.workers[w].item < |s.items| ==>
      Unfinished(s.items[s.workers[w].item])
  }

  ghost predicate Honest(s: State) {
    && (s.run.error ==> s.run.status.Failed?)
    && (EndedByCheck(s.run) ==> !AnyUnfinished(s.items))
    && (s.run.status.Completed? ==> !AnyDeadLettered(s.items))
    && (s.run.status.Failed? && !s.run.error ==> AnyDeadLettered(s.items))
    && (NotSwept(s.run) ==> ExecutingIsUnfinished(s))
  }

  lemma InitialHonest(s: State)
    requires Initial(s)
    ensures Honest(s)
  {
  }

  /** A step that writes at most the row of one non-dead-lettered item, without
      making it unfinished unless it was, keeps Honest. */
  lemma RowStepHonest(c: Config, s: State, s': State, i: nat)
    requires Inv(c, s) && Honest(s) && i < |s.items| == |s'.items|
    requires s'.run.status == s.run.status && s'.run.error == s.run.error
    requires s'.items == s.items[i := s'.items[i]]
    requires !s.items[i].status.DeadLettered?
    requires NotSwept(s.run) && Unfinished(s'.items[i]) ==> Unfinished(s.items[i])
    requires NotSwept(s.run) && s'.items[i].status.DeadLettered? ==> Unfinished(s.items[i])
    requires NotSwept(s.run) ==> ExecutingIsUnfinished(s')
    ensures Honest(s')
  {
    if EndedByCheck(s.run) {
      assert !Unfinished(s.items[i]);
      if s.run.status.Failed? {
        var d :| 0 <= d < |s.items| && s.items[d].status.DeadLettered?;
        assert s'.items[d] == s.items[d];
      }
    }
  }

  lemma DeliverHonest(c: Config, s: State, w: nat, i: nat)
    requires Inv(c, s) && Honest(s) && Enabled(c, s, Deliver(w, i))
    ensures Honest(Apply(c, s, Deliver(w, i)))
  {
    assert MessageOk(s, i);
  }

  lemma CallHonest(c: Config, s: State, w: nat, outcome: Outcome)
    requires Inv(c, s) && Honest(s) && Enabled(c, s, CallProvider(w, outcome))
    ensures Honest(Apply(c, s, CallProvider(w, outcome)))
  {
    RowStepHonest(c, s, Apply(c, s, CallProvider(w, outcome)), s.workers[w].item);
  }

  lemma RowWriteHonest(c: Config, s: State, w: nat)
    requires Inv(c, s) && Honest(s) && Enabled(c, s, Advance(w))
    requires !s.workers[w].AbortCheck? && !s.workers[w].CompleteCheck? && !s.workers[w].Acknowledge?
    ensures Honest(Apply(c, s, Advance(w)))
  {
    var s' := Apply(c, s, Advance(w));
    var i := s.workers[w].item;
    forall v | 0 <= v < |s'.workers| && NotSwept(s.run) && Executing(s'.workers[v]) && s'.workers[v].item < |s'.items|
      ensures Unfinished(s'.items[s'.workers[v].item])
    {
      assert !SameItem(s.workers[w], s.workers[v]) || v == w;
    }
    RowStepHonest(c, s, s', i);
  }

  lemma AbortCheckHonest(c: Config, s: State, w: nat)
    requires Inv(c, s) && Honest(s) && Enabled(c, s, Advance(w)) && s.workers[w].AbortCheck?
    ensures Honest(Apply(c, s, Advance(w)))
  {
  }

  lemma CompleteCheckHonest(c: Config, s: State, w: nat)
    requires Inv(c, s) && Honest(s) && Enabled(c, s, Advance(w))
    requires s.workers[w].CompleteCheck? || s.workers[w].Acknowledge?
    ensures Honest(Apply(c, s, Advance(w)))
  {
  }

  lemma ReplayHonest(c: Config, s: State, i: nat)
    requires Inv(c, s) && Honest(s) && Enabled(c, s, ReplayWrite(i)) && !c.faults.replayAborted
    ensures Honest(Apply(c, s, ReplayWrite(i)))
  {
    var s' := Apply(c, s, ReplayWrite(i));
    ReplayWriteKeeps(c, s, i);
    forall v | 0 <= v < |s'.workers| && NotSwept(s'.run) && Executing(s'.workers[v]) && s'.workers[v].item < |s'.items|
      ensures Unfinished(s'.items[s'.workers[v].item])
    {
      assert Unfinished(s.items[s.workers[v].item]);
    }
  }

  /** Steps that leave every item row alone, or sweep them for a cancel. */
  lemma OtherStepHonest(c: Config, s: State, a: Action)
    requires Inv(c, s) && Honest(s) && Enabled(c, s, a)
    requires a.Judge? || a.Crash? || a.ReplayRead? || a.Cancel? || a.Claim? || a.Resolve?
    ensures Honest(Apply(c, s, a))
  {
    hide AdvanceWorker, Snapshot, AfterCall, G.CommitGrades, LedgerOk;
  }

  lemma StepKeepsHonest(c: Config, s: State, a: Action)
    requires Inv(c, s) && Honest(s) && Enabled(c, s, a)
    requires SingleMessage(c.faults) && !c.faults.replayAborted
    ensures Honest(Apply(c, s, a))
  {
    hide Inv, Honest, Apply;
    match a {
      case Deliver(w, i) => DeliverHonest(c, s, w, i);
      case CallProvider(w, outcome) => CallHonest(c, s, w, outcome);
      case Advance(w) =>
        if s.workers[w].AbortCheck? {
          AbortCheckHonest(c, s, w);
        } else if s.workers[w].CompleteCheck? || s.workers[w].Acknowledge? {
          CompleteCheckHonest(c, s, w);
        } else {
          RowWriteHonest(c, s, w);
        }
      case ReplayWrite(i) => ReplayHonest(c, s, i);
      case _ => OtherStepHonest(c, s, a);
    }
  }

  lemma {:induction false} RunKeepsHonest(c: Config, s: State, tr: seq<Action>)
    requires Inv(c, s) && Honest(s) && IsRun(c, s, tr)
    requires SingleMessage(c.faults) && !c.faults.replayAborted
    ensures Inv(c, End(c, s, tr)) && Honest(End(c, s, tr))
    decreases |tr|
  {
    hide Apply, Enabled, Inv, Honest;
    if tr != [] {
      RunKeepsHonest(c, s, Front(tr));
      StepKeepsInv(c, End(c, s, Front(tr)), Last(tr));
      StepKeepsHonest(c, End(c, s, Front(tr)), Last(tr));
    }
  }

  lemma CompletedStep(c: Config, s: State, a: Action)
    requires Inv(c, s) && Honest(s) && s.run.status.Completed? && Enabled(c, s, a)
    ensures var s' := Apply(c, s, a);
            s'.run == s.run
  {
    assert forall w :: 0 <= w < |s.workers| ==> !Executing(s.workers[w]) by {
      forall w | 0 <= w < |s.workers| && Executing(s.workers[w])
        ensures Unfinished(s.items[s.workers[w].item])
      {
      }
    }
  }

  lemma {:induction false} CompletedForever(c: Config, s: State, tr: seq<Action>)
    requires Inv(c, s) && Honest(s) && s.run.status.Completed? && IsRun(c, s, tr)
    requires SingleMessage(c.faults) && !c.faults.replayAborted
    ensures End(c, s, tr).run == s.run
    decreases |tr|
  {
    hide Apply, Enabled, Inv, Honest;
    if tr != [] {
      CompletedForever(c, s, Front(tr));
      RunKeepsHonest(c, s, Front(tr));
      CompletedStep(c, End(c, s, Front(tr)), Last(tr));
    }
  }

  /** Completed is absorbing and honest. Unless an aborted run is replayed, a
      run that has completed keeps its whole run row, totals included, and each
      of its items stays succeeded or failed, whatever happens next. */
  lemma CompletedIsFinal(c: Config, s0: State, tr: seq<Action>, more: seq<Action>)
    requires Initial(s0) && IsRun(c, s0, tr) && IsRun(c, End(c, s0, tr), more)
    requires End(c, s0, tr).run.status.Completed?
    requires SingleMessage(c.faults) && !c.faults.replayAborted
    ensures var later := End(c, End(c, s0, tr), more);
            && later.run == End(c, s0, tr).run
            && forall i :: 0 <= i < |later.items| ==>
                 later.items[i].status.Succeeded? || later.items[i].status.Failed?
  {
    InitialInv(c, s0);
    InitialHonest(s0);
    RunKeepsHonest(c, s0, tr);
    CompletedForever(c, End(c, s0, tr), more);
    RunKeepsHonest(c, End(c, s0, tr), more);
    var later := End(c, End(c, s0, tr), more);
    assert !AnyUnfinished(later.items) && !AnyDeadLettered(later.items);
  }

  // ----- cancelled -----

  /** What workers about to finalise will still add. */
  function AboutToSpend(items: seq<Item>, p: Phase): int {
    if p.Finalise? && p.item < |items| then Price(items[p.item], p.result) else 0
  }

  function InFlightSpend(s: State): int {
    Sum(s.workers, (p: Phase) => AboutToSpend(s.items, p))
  }

  ghost predicate SameModels(items: seq<Item>, items': seq<Item>) {
    |items| == |items'| && forall i :: 0 <= i < |items| ==> items[i].model == items'[i].model
  }

  lemma InFlightUpdate(s: State, s': State, w: nat, p: Phase)
    requires w < |s.workers| && s'.workers == s.workers[w := p]
    requires SameModels(s.items, s'.items)
    ensures InFlightSpend(s') == InFlightSpend(s) - AboutToSpend(s.items, s.workers[w]) + AboutToSpend(s.items, p)
  {
    var f, g := (p: Phase) => AboutToSpend(s.items, p), (p: Phase) => AboutToSpend(s'.items, p);
    SumUpdate(s.workers, w, p, f);
    SumCompare(s'.workers, f, g);
    SumCompare(s'.workers, g, f);
  }

  /** The step of worker w moved no more into the total than left its phase. */
  ghost predicate Spends(s: State, s': State, w: nat) {
    && w < |s.workers| == |s'.workers|
    && s'.workers == s.workers[w := s'.workers[w]]
    && SameModels(s.items, s'.items)
    && s'.run.status == s.run.status
    && s.run.totalCost <= s'.run.totalCost
    && s'.run.totalCost + AboutToSpend(s.items, s'.workers[w])
       <= s.run.totalCost + AboutToSpend(s.items, s.workers[w])
  }

  lemma CancelledAdvance(c: Config, s: State, w: nat)
    requires Inv(c, s) && s.run.status.Cancelled? && Enabled(c, s, Advance(w))
    ensures Spends(s, Apply(c, s, Advance(w)), w)
  {
    var p := s.workers[w];
    assert PhaseOk(c, s.run, s.items[p.item], p);
    assert ItemsOk(s);
    hide Inv;
    if p.Finalise? {
      assert Apply(c, s, Advance(w)).run.totalCost == s.run.totalCost + Price(s.items[p.item], p.result);
    }
  }

  lemma CancelledWorkerStep(c: Config, s: State, a: Action)
    requires Inv(c, s) && s.run.status.Cancelled? && Enabled(c, s, a)
    requires !a.Claim? && !a.Resolve? && !a.ReplayWrite?
    ensures !a.ReplayRead? && !a.Cancel? && Spends(s, Apply(c, s, a), a.worker)
  {
    if a.Advance? {
      CancelledAdvance(c, s, a.worker);
    } else if a.CallProvider? {
      CancelledCall(c, s, a.worker, a.outcome);
    } else {
      hide Inv, AdvanceWorker, Price, AfterCall, MarkRunning;
      SizesAreKept(c, s, a);
      assert Apply(c, s, a).workers == s.workers[a.worker := Apply(c, s, a).workers[a.worker]];
    }
  }

  lemma CancelledCall(c: Config, s: State, w: nat, outcome: Outcome)
    requires Enabled(c, s, CallProvider(w, outcome))
    ensures Spends(s, Apply(c, s, CallProvider(w, outcome)), w)
  {
  }

  /** In a cancelled run each step leaves it cancelled and moves no more into
      the total than leaves the in-flight spend. */
  lemma CancelledStep(c: Config, s: State, a: Action)
    requires Inv(c, s) && s.run.status.Cancelled? && Enabled(c, s, a)
    ensures var s' := Apply(c, s, a);
            && s'.run.status.Cancelled?
            && s.run.totalCost <= s'.run.totalCost
            && s'.run.totalCost + InFlightSpend(s') <= s.run.totalCost + InFlightSpend(s)
  {
    var s' := Apply(c, s, a);
    if a.Claim? || a.Resolve? || a.ReplayWrite? {
      hide Inv, InFlightSpend;
      HandlerStepSpend(s, s');
    } else {
      var w := a.worker;
      CancelledWorkerStep(c, s, a);
      hide Apply, Enabled, Inv, InFlightSpend;
      InFlightUpdate(s, s', w, s'.workers[w]);
    }
  }

  lemma HandlerStepSpend(s: State, s': State)
    requires s'.workers == s.workers && SameModels(s.items, s'.items)
    ensures InFlightSpend(s') == InFlightSpend(s)
  {
    var f, g := (p: Phase) => AboutToSpend(s.items, p), (p: Phase) => AboutToSpend(s'.items, p);
    SumCompare(s.workers, g, f);
    SumCompare(s.workers, f, g);
  }

  lemma {:induction false} CancelledSpend(c: Config, s: State, tr: seq<Action>)
    requires Inv(c, s) && s.run.status.Cancelled? && IsRun(c, s, tr) && SingleMessage(c.faults)
    ensures var t := End(c, s, tr);
            && t.run.status.Cancelled?
            && s.run.totalCost <= t.run.totalCost
            && t.run.totalCost + InFlightSpend(t) <= s.run.totalCost + InFlightSpend(s)
    decreases |tr|
  {
    hide Apply, Enabled, Inv, InFlightSpend;
    if tr != [] {
      CancelledSpend(c, s, Front(tr));
      RunKeepsInv(c, s, Front(tr));
      CancelledStep(c, End(c, s, Front(tr)), Last(tr));
    }
  }

  lemma InFlightIsNonNegative(s: State)
    ensures InFlightSpend(s) >= 0
  {
    SumAtLeast(s.workers, (p: Phase) => AboutToSpend(s.items, p), 0);
  }

  /** Nothing of a cancelled run is queued or about to be requeued. */
  ghost predicate SweptForGood(s: State) {
    s.run.status.Cancelled? ==>
      s.pending == multiset{} && forall i :: 0 <= i < |s.items| ==> !s.items[i].status.Queued?
  }

  lemma StepKeepsSwept(c: Config, s: State, a: Action)
    requires SweptForGood(s) && Enabled(c, s, a) && !c.faults.cancelDuringReplay
    ensures SweptForGood(Apply(c, s, a))
  {
    hide SweptForGood, Apply;
    match a {
      case Advance(w) => AdvanceKeepsSwept(c, s, w);
      case CallProvider(w, outcome) => CallKeepsSwept(c, s, w, outcome);
      case ReplayRead(_) => ReplayKeepsSwept(c, s, a);
      case ReplayWrite(_) => ReplayKeepsSwept(c, s, a);
      case Cancel => CancelKeepsSwept(c, s);
      case Deliver(_, _) => QuietKeepsSwept(c, s, a);
      case Judge(_, _) => QuietKeepsSwept(c, s, a);
      case Crash(_) => QuietKeepsSwept(c, s, a);
      case Claim(_, _) => QuietKeepsSwept(c, s, a);
      case Resolve(_, _, _) => QuietKeepsSwept(c, s, a);
    }
  }

  /** Steps that write neither the run row, nor an item row, nor a replay. */
  lemma QuietKeepsSwept(c: Config, s: State, a: Action)
    requires SweptForGood(s) && Enabled(c, s, a)
    requires a.Deliver? || a.Judge? || a.Crash? || a.Claim? || a.Resolve?
    ensures SweptForGood(Apply(c, s, a))
  {
    assert Apply(c, s, a).items == s.items && Apply(c, s, a).run == s.run && Apply(c, s, a).pending == s.pending;
    hide Apply, Enabled;
  }

  /** A cancelled run has no pending replay and admits no new one. */
  lemma ReplayKeepsSwept(c: Config, s: State, a: Action)
    requires SweptForGood(s) && Enabled(c, s, a) && (a.ReplayRead? || a.ReplayWrite?)
    ensures SweptForGood(Apply(c, s, a))
  {
    assert !s.run.status.Cancelled?;
    assert !Apply(c, s, a).run.status.Cancelled?;
  }

  lemma CancelKeepsSwept(c: Config, s: State)
    requires Enabled(c, s, Cancel) && !c.faults.cancelDuringReplay
    ensures SweptForGood(Apply(c, s, Cancel))
  {
  }

  lemma CallKeepsSwept(c: Config, s: State, w: nat, outcome: Outcome)
    requires SweptForGood(s) && Enabled(c, s, CallProvider(w, outcome))
    ensures SweptForGood(Apply(c, s, CallProvider(w, outcome)))
  {
    hide AfterCall;
  }

  lemma AdvanceKeepsSwept(c: Config, s: State, w: nat)
    requires SweptForGood(s) && Enabled(c, s, Advance(w))
    ensures SweptForGood(Apply(c, s, Advance(w)))
  {
    hide Price;
  }

  /** This needs no invariant: it holds with any crash and any overlap. */
  lemma {:induction false} RunKeepsSwept(c: Config, s: State, tr: seq<Action>)
    requires SweptForGood(s) && IsRun(c, s, tr) && !c.faults.cancelDuringReplay
    ensures SweptForGood(End(c, s, tr))
    decreases |tr|
  {
    hide Apply, Enabled, SweptForGood;
    if tr != [] {
      RunKeepsSwept(c, s, Front(tr));
      StepKeepsSwept(c, End(c, s, Front(tr)), Last(tr));
    }
  }

  /** Cancelled is absorbing and grows by no more than the completions that were
      past their cancel check when the cancel committed: the rest of the pool
      adds nothing, however the run continues. It has no queued item, unless a
      replay had read its item when the cancel committed and writes it later. */
  lemma CancelledIsFinal(c: Config, s0: State, tr: seq<Action>, more: seq<Action>)
    requires Initial(s0) && IsRun(c, s0, tr) && IsRun(c, End(c, s0, tr), more)
    requires End(c, s0, tr).run.status.Cancelled? && SingleMessage(c.faults)
    ensures var s, later := End(c, s0, tr), End(c, End(c, s0, tr), more);
            && later.run.status.Cancelled?
            && s.run.totalCost <= later.run.totalCost <= s.run.totalCost + InFlightSpend(s)
            && (!c.faults.cancelDuringReplay ==> forall i :: 0 <= i < |later.items| ==> !later.items[i].status.Queued?)
  {
    hide Apply, Enabled, Inv, InFlightSpend;
    InitialInv(c, s0);
    RunKeepsInv(c, s0, tr);
    CancelledSpend(c, End(c, s0, tr), more);
    InFlightIsNonNegative(End(c, End(c, s0, tr), more));
    if !c.faults.cancelDuringReplay {
      RunKeepsSwept(c, s0, tr);
      RunKeepsSwept(c, End(c, s0, tr), more);
    }
  }
}
