/** How far a run's spend can overshoot its limit. */
module Spend {
  import opened Sums
  import opened Arithmetic
  import opened Protocol
  import opened Safety
  import opened RunOutcome
  import opened Ledger

  /** Every completion answered in the run costs at most most. */
  ghost predicate CallsWithin(c: Config, s: State, tr: seq<Action>, most: nat)
    requires IsRun(c, s, tr)
    decreases |tr|
  {
    tr == [] || (CallsWithin(c, s, Front(tr), most) && CallWithin(End(c, s, Front(tr)), Last(tr), most))
  }

  predicate CallWithin(s: State, a: Action, most: nat) {
    a.CallProvider? && a.outcome.Ok? && Busy(s, a.worker) ==>
      Price(s.items[s.workers[a.worker].item], a.outcome.result) <= most
  }

  /** Results in hand cost at most most. */
  ghost predicate HeldWithin(s: State, most: nat) {
    forall w :: 0 <= w < |s.workers| && HasResult(s.workers[w]) && s.workers[w].item < |s.items| ==>
      Price(s.items[s.workers[w].item], s.workers[w].result) <= most
  }

  function Replays(tr: seq<Action>): nat
    decreases |tr|
  {
    if tr == [] then 0 else Replays(Front(tr)) + (if Last(tr).ReplayWrite? then 1 else 0)
  }

  // ----- what can still be spent -----

  function IsAbortCheck(p: Phase): int {
    if p.AbortCheck? then 1 else 0
  }

  function IsExecuting(p: Phase): int {
    if Executing(p) then 1 else 0
  }

  function AbortChecks(s: State): int {
    Sum(s.workers, IsAbortCheck)
  }

  function Executions(s: State): int {
    Sum(s.workers, IsExecuting)
  }

  /** Queued items whose message is waiting. */
  function Waiting(items: seq<Item>, queue: multiset<nat>): int {
    if items == [] then 0
    else Waiting(items[..|items| - 1], queue)
         + (if items[|items| - 1].status.Queued? && queue[|items| - 1] > 0 then 1 else 0)
  }

  /** No message of a cancelled run is executed. */
  function Owed(s: State): int {
    if s.run.status.Cancelled? then 0 else Waiting(s.items, s.queue)
  }

  /** While the run is open every overshoot has a worker about to notice it;
      once it has left running over its limit, what is in flight or waiting is
      already paid for by the pool and the replays. */
  predicate Bounded(c: Config, s: State, most: nat, replays: nat) {
    || (s.run.status.Running? && s.run.totalCost <= c.spendLimit + most * AbortChecks(s))
    || s.run.totalCost + most * (Executions(s) + Owed(s))
       <= c.spendLimit + most * (|s.workers| + replays)
  }

  lemma CountsUpdate(s: State, w: nat, p: Phase)
    requires w < |s.workers|
    ensures AbortChecks(At(s, w, p)) == AbortChecks(s) - IsAbortCheck(s.workers[w]) + IsAbortCheck(p)
    ensures Executions(At(s, w, p)) == Executions(s) - IsExecuting(s.workers[w]) + IsExecuting(p)
  {
    SumUpdate(s.workers, w, p, IsAbortCheck);
    SumUpdate(s.workers, w, p, IsExecuting);
  }

  /** A worker is not both executing and checking. */
  lemma CountsShareThePool(s: State)
    ensures 0 <= AbortChecks(s) && 0 <= Executions(s)
    ensures AbortChecks(s) + Executions(s) <= |s.workers|
  {
    SumAtLeast(s.workers, IsAbortCheck, 0);
    SumAtLeast(s.workers, IsExecuting, 0);
    SharesThePool(s.workers);
  }

  lemma {:induction false} SharesThePool(workers: seq<Phase>)
    ensures Sum(workers, IsAbortCheck) + Sum(workers, IsExecuting) <= |workers|
  {
    if workers != [] {
      SharesThePool(workers[1..]);
    }
  }

  predicate IsWaiting(it: Item, messages: nat) {
    it.status.Queued? && messages > 0
  }

  function Bit(b: bool): int {
    if b then 1 else 0
  }

  /** One row or one message count changes. */
  lemma {:induction false} WaitingUpdate(items: seq<Item>, items': seq<Item>, queue: multiset<nat>, queue': multiset<nat>, i: nat)
    requires i < |items| == |items'| && items' == items[i := items'[i]]
    requires forall j: nat :: j != i ==> queue[j] == queue'[j]
    ensures Waiting(items', queue') == Waiting(items, queue)
            - Bit(IsWaiting(items[i], queue[i])) + Bit(IsWaiting(items'[i], queue'[i]))
    decreases |items|
  {
    var n := |items| - 1;
    if i == n {
      WaitingSame(items[..n], items'[..n], queue, queue');
    } else {
      assert items'[..n] == items[..n][i := items'[i]];
      WaitingUpdate(items[..n], items'[..n], queue, queue', i);
    }
  }

  lemma {:induction false} WaitingSame(items: seq<Item>, items': seq<Item>, queue: multiset<nat>, queue': multiset<nat>)
    requires |items| == |items'|
    requires forall j: nat :: j < |items| ==> IsWaiting(items[j], queue[j]) == IsWaiting(items'[j], queue'[j])
    ensures Waiting(items, queue) == Waiting(items', queue')
    decreases |items|
  {
    if items != [] {
      var n := |items| - 1;
      assert IsWaiting(items[n], queue[n]) == IsWaiting(items'[n], queue'[n]);
      WaitingSame(items[..n], items'[..n], queue, queue');
    }
  }

  lemma {:induction false} NobodyWaits(items: seq<Item>, queue: multiset<nat>)
    requires forall j :: 0 <= j < |items| ==> !items[j].status.Queued?
    ensures Waiting(items, queue) == 0
    decreases |items|
  {
    if items != [] {
      NobodyWaits(items[..|items| - 1], queue);
    }
  }

  lemma {:induction false} WaitingIsNonNegative(items: seq<Item>, queue: multiset<nat>)
    ensures Waiting(items, queue) >= 0
    decreases |items|
  {
    if items != [] {
      WaitingIsNonNegative(items[..|items| - 1], queue);
    }
  }

  /** Leaving running with nothing queued: the pool pays for what is in flight. */
  lemma ClosingKeepsBound(c: Config, s: State, s': State, most: nat, replays: nat)
    requires Bounded(c, s, most, replays)
    requires s'.run.totalCost == s.run.totalCost && |s'.workers| == |s.workers|
    requires AbortChecks(s) + Executions(s') <= |s.workers|
    requires Executions(s') + Owed(s') <= Executions(s) + Owed(s)
    requires Owed(s') == 0
    ensures Bounded(c, s', most, replays)
  {
    if s.run.status.Running? && s.run.totalCost <= c.spendLimit + most * AbortChecks(s) {
      Scale(most, Executions(s') + AbortChecks(s), |s.workers| + replays);
      assert most * (Executions(s') + AbortChecks(s)) == most * Executions(s') + most * AbortChecks(s);
    } else {
      Scale(most, Executions(s') + Owed(s'), Executions(s) + Owed(s));
    }
  }

  /** A step that spends spent on finishing freed executions or messages. */
  lemma MovingKeepsBound(c: Config, s: State, s': State, most: nat, replays: nat, used: nat)
    requires Bounded(c, s, most, replays)
    requires |s'.workers| == |s.workers| && s'.run.status == s.run.status
    requires s'.run.totalCost <= s.run.totalCost + most * used
    requires s.run.status.Running? && AbortChecks(s') < AbortChecks(s) + used ==>
               used == 0 && s.run.totalCost <= c.spendLimit
    requires Executions(s') + Owed(s') + used <= Executions(s) + Owed(s)
    ensures Bounded(c, s', most, replays)
  {
    var d, d' := Executions(s) + Owed(s), Executions(s') + Owed(s');
    CountsShareThePool(s');
    if s.run.status.Running? && s.run.totalCost <= c.spendLimit + most * AbortChecks(s) {
      if s.run.totalCost <= c.spendLimit && used == 0 {
        Scale(most, 0, AbortChecks(s'));
      } else {
        Scale(most, AbortChecks(s) + used, AbortChecks(s'));
        assert most * (AbortChecks(s) + used) == most * AbortChecks(s) + most * used;
      }
    } else {
      Scale(most, d' + used, d);
      assert most * (d' + used) == most * d' + most * used;
    }
  }

  lemma DeliverBounded(c: Config, s: State, w: nat, i: nat, most: nat, replays: nat)
    requires Inv(c, s) && Enabled(c, s, Deliver(w, i)) && Bounded(c, s, most, replays)
    ensures Bounded(c, Apply(c, s, Deliver(w, i)), most, replays)
  {
    var s' := Apply(c, s, Deliver(w, i));
    assert MessageOk(s, i) && ItemOk(s.run, s.items[i]);
    CountsUpdate(s, w, Snapshot(c, s.run, s.items[i], i));
    WaitingUpdate(s.items, s'.items, s.queue, s'.queue, i);
    assert Executing(s'.workers[w]) ==> s.items[i].status.Queued?;
    hide Inv, Apply, Enabled;
    MovingKeepsBound(c, s, s', most, replays, 0);
  }

  /** A step of worker w, which holds the item whose row it may write. */
  lemma WorkerStepBounded(c: Config, s: State, s': State, w: nat, most: nat, replays: nat, used: nat)
    requires Bounded(c, s, most, replays) && Busy(s, w) && |s'.workers| == |s.workers| && |s'.items| == |s.items|
    requires s'.workers == s.workers[w := s'.workers[w]] && s'.queue == s.queue
    requires var i := s.workers[w].item;
             && s'.items == s.items[i := s'.items[i]]
             && IsWaiting(s'.items[i], s.queue[i]) == IsWaiting(s.items[i], s.queue[i])
    requires s'.run.status == s.run.status && s'.run.totalCost <= s.run.totalCost + most * used
    requires used <= IsExecuting(s.workers[w]) - IsExecuting(s'.workers[w])
    requires || used <= IsAbortCheck(s'.workers[w]) - IsAbortCheck(s.workers[w])
             || !s.run.status.Running?
             || (used == 0 && s.run.totalCost <= c.spendLimit)
    ensures Bounded(c, s', most, replays)
  {
    CountsUpdate(s, w, s'.workers[w]);
    WaitingUpdate(s.items, s'.items, s.queue, s'.queue, s.workers[w].item);
    MovingKeepsBound(c, s, s', most, replays, used);
  }

  lemma CallBounded(c: Config, s: State, w: nat, outcome: Outcome, most: nat, replays: nat)
    requires Inv(c, s) && Enabled(c, s, CallProvider(w, outcome)) && Bounded(c, s, most, replays)
    ensures Bounded(c, Apply(c, s, CallProvider(w, outcome)), most, replays)
  {
    assert MessageOk(s, s.workers[w].item);
    assert Holds(s.workers[w], s.workers[w].item);
    var s' := Apply(c, s, CallProvider(w, outcome));
    hide Inv, Bounded;
    WorkerStepBounded(c, s, s', w, most, replays, 0);
  }

  lemma FinaliseBounded(c: Config, s: State, w: nat, most: nat, replays: nat)
    requires Inv(c, s) && HeldWithin(s, most) && Enabled(c, s, Advance(w)) && s.workers[w].Finalise?
    requires Bounded(c, s, most, replays)
    ensures Bounded(c, Apply(c, s, Advance(w)), most, replays)
  {
    assert PhaseOk(c, s.run, s.items[s.workers[w].item], s.workers[w]);
    var s' := Apply(c, s, Advance(w));
    assert s'.run.totalCost == s.run.totalCost + Price(s.items[s.workers[w].item], s.workers[w].result);
    hide Inv, Bounded;
    WorkerStepBounded(c, s, s', w, most, replays, 1);
  }

  lemma AbortCheckBounded(c: Config, s: State, w: nat, most: nat, replays: nat)
    requires Inv(c, s) && Enabled(c, s, Advance(w)) && s.workers[w].AbortCheck?
    requires Bounded(c, s, most, replays)
    ensures Bounded(c, Apply(c, s, Advance(w)), most, replays)
  {
    var s' := Apply(c, s, Advance(w));
    if OverBudget(s.run, c.spendLimit) {
      CountsUpdate(s, w, s'.workers[w]);
      CountsShareThePool(s);
      NobodyWaits(s'.items, s'.queue);
      WaitingIsNonNegative(s.items, s.queue);
      hide Bounded;
      ClosingKeepsBound(c, s, s', most, replays);
    } else {
      assert s.items[s.workers[w].item := s.items[s.workers[w].item]] == s.items;
      hide Bounded;
      WorkerStepBounded(c, s, s', w, most, replays, 0);
    }
  }

  lemma CompleteCheckBounded(c: Config, s: State, w: nat, most: nat, replays: nat)
    requires Inv(c, s) && Enabled(c, s, Advance(w)) && s.workers[w].CompleteCheck?
    requires Bounded(c, s, most, replays)
    ensures Bounded(c, Apply(c, s, Advance(w)), most, replays)
  {
    var s' := Apply(c, s, Advance(w));
    if s'.run.status == s.run.status {
      assert s.items[s.workers[w].item := s.items[s.workers[w].item]] == s.items;
      hide Bounded;
      WorkerStepBounded(c, s, s', w, most, replays, 0);
    } else {
      CountsUpdate(s, w, s'.workers[w]);
      CountsShareThePool(s);
      forall i | 0 <= i < |s.items| ensures !s.items[i].status.Queued? {
        assert !Unfinished(s.items[i]);
      }
      NobodyWaits(s.items, s.queue);
      hide Bounded;
      ClosingKeepsBound(c, s, s', most, replays);
    }
  }

  lemma RowWriteBounded(c: Config, s: State, w: nat, most: nat, replays: nat)
    requires Inv(c, s) && Enabled(c, s, Advance(w)) && Bounded(c, s, most, replays)
    requires !s.workers[w].Finalise? && !s.workers[w].AbortCheck? && !s.workers[w].CompleteCheck?
    requires !s.workers[w].Acknowledge?
    ensures Bounded(c, Apply(c, s, Advance(w)), most, replays)
  {
    var p := s.workers[w];
    assert MessageOk(s, p.item);
    assert Holds(p, p.item);
    assert PhaseOk(c, s.run, s.items[p.item], p);
    assert s.items[p.item := s.items[p.item]] == s.items;
    var s' := Apply(c, s, Advance(w));
    hide Inv, Bounded;
    WorkerStepBounded(c, s, s', w, most, replays, 0);
  }

  lemma CrashBounded(c: Config, s: State, w: nat, most: nat, replays: nat)
    requires Inv(c, s) && Enabled(c, s, Crash(w)) && Bounded(c, s, most, replays)
    requires SingleMessage(c.faults) && BeforeAbortCheck !in c.faults.crashIn
    ensures Bounded(c, Apply(c, s, Crash(w)), most, replays)
  {
    var i := s.workers[w].item;
    assert MessageOk(s, i) && PhaseOk(c, s.run, s.items[i], s.workers[w]);
    assert s.items[i].status.Queued? ==> Executing(s.workers[w]) || s.run.status.Cancelled?;
    var s' := Apply(c, s, Crash(w));
    CountsUpdate(s, w, Idle);
    assert s.items[i := s.items[i]] == s.items;
    WaitingUpdate(s.items, s'.items, s.queue, s'.queue, i);
    hide Inv, Bounded;
    MovingKeepsBound(c, s, s', most, replays, 0);
  }

  lemma ReplayBounded(c: Config, s: State, i: nat, most: nat, replays: nat)
    requires Inv(c, s) && Enabled(c, s, ReplayWrite(i)) && Bounded(c, s, most, replays)
    ensures Bounded(c, Apply(c, s, ReplayWrite(i)), most, replays + 1)
  {
    var s' := Apply(c, s, ReplayWrite(i));
    ReplayCounts(c, s, i);
    hide Inv, Apply, Enabled, Owed, Executions, AbortChecks;
    var d, d' := Executions(s) + Owed(s), Executions(s') + Owed(s');
    OneMoreReplay(s.run.totalCost - c.spendLimit, most, d, d', |s.workers| + replays);
  }

  lemma ReplayCounts(c: Config, s: State, i: nat)
    requires Inv(c, s) && Enabled(c, s, ReplayWrite(i))
    ensures var s' := Apply(c, s, ReplayWrite(i));
            && s'.workers == s.workers && s'.run.totalCost == s.run.totalCost
            && (s.run.status.Running? ==> s'.run.status.Running?)
            && Owed(s') <= Owed(s) + 1
            && Executions(s') == Executions(s) && AbortChecks(s') == AbortChecks(s)
  {
    var s' := Apply(c, s, ReplayWrite(i));
    ReplayWriteKeeps(c, s, i);
    hide Inv;
    WaitingUpdate(s.items, s'.items, s.queue, s'.queue, i);
  }

  lemma OneMoreReplay(over: int, most: nat, d: int, d': int, k: int)
    requires d' <= d + 1
    ensures over + most * d <= most * k ==> over + most * d' <= most * (k + 1)
  {
    Scale(most, d', d + 1);
    assert most * (d + 1) == most * d + most;
    assert most * (k + 1) == most * k + most;
  }

  /** Reviews and the read of a replay concern nothing that is counted. */
  lemma OtherStepBounded(c: Config, s: State, s': State, most: nat, replays: nat)
    requires Bounded(c, s, most, replays)
    requires s'.run == s.run && s'.items == s.items && s'.queue == s.queue && s'.workers == s.workers
    ensures Bounded(c, s', most, replays)
  {
  }

  lemma CancelBounded(c: Config, s: State, most: nat, replays: nat)
    requires Enabled(c, s, Cancel) && Bounded(c, s, most, replays)
    ensures Bounded(c, Apply(c, s, Cancel), most, replays)
  {
    var s' := Apply(c, s, Cancel);
    CountsShareThePool(s);
    NobodyWaits(s'.items, s'.queue);
    WaitingIsNonNegative(s.items, s.queue);
    hide Bounded;
    ClosingKeepsBound(c, s, s', most, replays);
  }

  lemma StepKeepsBound(c: Config, s: State, a: Action, most: nat, replays: nat)
    requires Inv(c, s) && HeldWithin(s, most) && Enabled(c, s, a) && Bounded(c, s, most, replays)
    requires SingleMessage(c.faults) && BeforeAbortCheck !in c.faults.crashIn
    ensures Bounded(c, Apply(c, s, a), most, replays + if a.ReplayWrite? then 1 else 0)
  {
    hide Inv, Price, Snapshot, AfterCall, Bounded;
    match a {
      case Deliver(w, i) => DeliverBounded(c, s, w, i, most, replays);
      case CallProvider(w, outcome) => CallBounded(c, s, w, outcome, most, replays);
      case Judge(w, _) =>
        assert s.items[s.workers[w].item := s.items[s.workers[w].item]] == s.items;
        WorkerStepBounded(c, s, Apply(c, s, a), w, most, replays, 0);
      case Advance(w) =>
        match s.workers[w] {
          case Finalise(_, _, _, _) => FinaliseBounded(c, s, w, most, replays);
          case AbortCheck(_) => AbortCheckBounded(c, s, w, most, replays);
          case CompleteCheck(_, _) => CompleteCheckBounded(c, s, w, most, replays);
          case Acknowledge(i, _) =>
            assert s.items[i := s.items[i]] == s.items;
            WorkerStepBounded(c, s, Apply(c, s, a), w, most, replays, 0);
          case _ => RowWriteBounded(c, s, w, most, replays);
        }
      case Crash(w) => CrashBounded(c, s, w, most, replays);
      case ReplayWrite(i) => ReplayBounded(c, s, i, most, replays);
      case Cancel => CancelBounded(c, s, most, replays);
      case _ => OtherStepBounded(c, s, Apply(c, s, a), most, replays);
    }
  }

  lemma ModelsAreKept(c: Config, s: State, a: Action)
    requires Enabled(c, s, a)
    ensures SameModels(s.items, Apply(c, s, a).items) && |Apply(c, s, a).workers| == |s.workers|
  {
    hide AdvanceWorker, Snapshot, AfterCall;
    SizesAreKept(c, s, a);
    if a.Advance? {
      AdvanceIsLocal(c, s, a.worker);
    } else {
      forall i | 0 <= i < |s.items| ensures Apply(c, s, a).items[i].model == s.items[i].model {
      }
    }
  }

  predicate HasResult(p: Phase) {
    p.CancelCheck? || p.Finalise?
  }

  lemma AdvanceCarriesResult(c: Config, s: State, w: nat)
    requires Enabled(c, s, Advance(w)) && HasResult(AdvanceWorker(c, s, w).workers[w])
    ensures var p, p' := s.workers[w], AdvanceWorker(c, s, w).workers[w];
            p.CancelCheck? && p'.Finalise? && p'.item == p.item && p'.result == p.result
  {
  }

  /** A step touches one worker's phase at most. */
  lemma OthersAreKept(c: Config, s: State, a: Action, v: nat)
    requires Enabled(c, s, a) && v < |s.workers| == |Apply(c, s, a).workers|
    ensures || Apply(c, s, a).workers[v] == s.workers[v]
            || a == Advance(v)
            || (a.CallProvider? && a.worker == v)
            || !HasResult(Apply(c, s, a).workers[v])
  {
    hide AdvanceWorker, Price;
    if !By(a, v) {
      PhaseIsPrivate(c, s, a, v);
      hide Apply;
    }
  }

  lemma StepKeepsHeld(c: Config, s: State, a: Action, most: nat)
    requires HeldWithin(s, most) && Enabled(c, s, a) && CallWithin(s, a, most)
    ensures HeldWithin(Apply(c, s, a), most)
  {
    var s' := Apply(c, s, a);
    ModelsAreKept(c, s, a);
    forall w | 0 <= w < |s'.workers| && HasResult(s'.workers[w]) && s'.workers[w].item < |s'.items|
      ensures Price(s'.items[s'.workers[w].item], s'.workers[w].result) <= most
    {
      OthersAreKept(c, s, a, w);
      if a == Advance(w) {
        AdvanceCarriesResult(c, s, w);
      }
      hide AdvanceWorker, Price;
    }
  }

  lemma {:induction false} RunKeepsBound(c: Config, s: State, tr: seq<Action>, most: nat)
    requires Inv(c, s) && HeldWithin(s, most) && Bounded(c, s, most, 0)
    requires IsRun(c, s, tr) && CallsWithin(c, s, tr, most)
    requires SingleMessage(c.faults) && BeforeAbortCheck !in c.faults.crashIn
    ensures HeldWithin(End(c, s, tr), most) && Bounded(c, End(c, s, tr), most, Replays(tr))
    ensures |End(c, s, tr).workers| == |s.workers|
    decreases |tr|
  {
    hide Apply, Enabled, Inv, HeldWithin, Bounded;
    if tr != [] {
      var s', a := End(c, s, Front(tr)), Last(tr);
      RunKeepsBound(c, s, Front(tr), most);
      RunKeepsInv(c, s, Front(tr));
      StepKeepsHeld(c, s', a, most);
      StepKeepsBound(c, s', a, most, Replays(Front(tr)));
      PoolIsKept(c, s', a);
    }
  }

  lemma PoolIsKept(c: Config, s: State, a: Action)
    requires Enabled(c, s, a)
    ensures |Apply(c, s, a).workers| == |s.workers|
  {
  }

  /** The overshoot bound. With W workers, completions of at most `most` each
      and R replays, the total never exceeds limit + (W + R) * most in any
      interleaving, if no worker crashes between its rollup and its abort
      check. Without replays and with one worker that is one completion. */
  lemma OvershootIsBounded(c: Config, s0: State, tr: seq<Action>, most: nat)
    requires Initial(s0) && IsRun(c, s0, tr) && CallsWithin(c, s0, tr, most) && c.spendLimit >= 0
    requires SingleMessage(c.faults) && BeforeAbortCheck !in c.faults.crashIn
    ensures End(c, s0, tr).run.totalCost <= c.spendLimit + most * (|s0.workers| + Replays(tr))
  {
    hide Inv, HeldWithin, Bounded, Initial, CallsWithin, Executions, Apply, Enabled;
    InitialInv(c, s0);
    NothingExecutes(s0, most);
    InitialBounded(c, s0, most);
    RunKeepsBound(c, s0, tr, most);
    BoundLimitsTotal(c, End(c, s0, tr), most, Replays(tr));
  }

  lemma InitialBounded(c: Config, s0: State, most: nat)
    requires Initial(s0) && Executions(s0) == 0 && c.spendLimit >= 0
    ensures Bounded(c, s0, most, 0)
  {
    CountsShareThePool(s0);
    Scale(most, 0, AbortChecks(s0));
    Scale(most, 0, |s0.workers|);
  }

  lemma BoundLimitsTotal(c: Config, s: State, most: nat, replays: nat)
    requires Bounded(c, s, most, replays)
    ensures s.run.totalCost <= c.spendLimit + most * (|s.workers| + replays)
  {
    CountsShareThePool(s);
    WaitingIsNonNegative(s.items, s.queue);
    Scale(most, AbortChecks(s), |s.workers| + replays);
    Scale(most, 0, Executions(s) + Owed(s));
  }

  lemma NothingExecutes(s0: State, most: nat)
    requires Initial(s0)
    ensures HeldWithin(s0, most) && Executions(s0) == 0
  {
    SumAtMost(s0.workers, IsExecuting, 0);
    SumAtLeast(s0.workers, IsExecuting, 0);
  }
}
