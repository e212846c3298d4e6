/** The spend bound where replays may overlap. Every message is a token that can
    pay for one completion: the first message of an item while the item has not
    been replayed, and one message for each replay afterwards. */
module Tokens {
  import opened Sums
  import opened Arithmetic
  import opened Protocol
  import opened Safety
  import Spend
  import G = Grading

  /** The items replayed so far. */
  function Replayed(tr: seq<Action>): set<nat>
    decreases |tr|
  {
    if tr == [] then {}
    else Replayed(Front(tr)) + (if Last(tr).ReplayWrite? then {Last(tr).msg} else {})
  }

  /** Where an execution that has paid can crash after its abort check. */
  const PAID: set<Point> := {BeforeGrading, BeforeJudging, BeforeGradingFailure, BeforeCompletion, BeforeAcknowledge}

  /** Where a crash always endangers the bound: before the abort check, or after
      the item was given up. */
  const DANGEROUS: set<Point> := {BeforeAbortCheck, LateCompletion, LateAcknowledge}

  /** Crashes that return a message only before its execution has paid. */
  predicate ReturnsUnpaid(f: Faults) {
    f.crashIn !! DANGEROUS && f.crashIn !! PAID
  }

  /** A message pays for one completion at most: no dangerous crash, and where
      replays overlap no crash at all once an execution has paid. */
  predicate PaysOnce(f: Faults) {
    f.crashIn !! DANGEROUS && (f.overlappingReplays ==> f.crashIn !! PAID)
  }

  predicate Unpaid(p: Phase) {
    Executing(p) || p.CancelWrite? || p.AbortWrite?
  }

  // ----- items that were never replayed -----

  /** Such an item has its first message, one execution, or is given up. */
  ghost predicate FirstTime(s: State, i: nat) {
    && s.queue[i] <= 1
    && (s.queue[i] == 1 ==> NoHolder(s, i))
    && (forall w, v :: 0 <= w < |s.workers| && 0 <= v < |s.workers| && w != v ==>
          !(Holds(s.workers[w], i) && Holds(s.workers[v], i)))
    && (i < |s.items| && s.items[i].status.DeadLettered? ==> s.queue[i] == 0 && NoHolder(s, i))
    && (i in s.pending ==> i < |s.items| && s.items[i].status.DeadLettered?)
    && (forall w :: 0 <= w < |s.workers| && s.workers[w] == AbortWrite(i) && i < |s.items| ==>
          !s.items[i].status.Queued?)
  }

  /** What a worker's phase says whatever the others do. */
  predicate PhaseSound(run: Run, p: Phase) {
    match p
    case CancelWrite(_) => run.status.Cancelled?
    case Attempt(_, _, prevCost, _) => prevCost >= 0
    case CancelCheck(_, prevCost, _, _) => prevCost >= 0
    case Finalise(_, prevCost, _, _) => prevCost >= 0
    case _ => true
  }

  ghost predicate WorkersSound(s: State) {
    forall w :: 0 <= w < |s.workers| && !s.workers[w].Idle? ==>
      s.workers[w].item < |s.items| && PhaseSound(s.run, s.workers[w])
  }

  ghost predicate NoneQueuedIfFailed(s: State) {
    s.run.status.Failed? ==> forall i :: 0 <= i < |s.items| ==> !s.items[i].status.Queued?
  }

  ghost predicate FirstTimes(s: State, replayed: set<nat>) {
    forall i: nat :: i !in replayed ==> FirstTime(s, i)
  }

  ghost predicate Sound(s: State, replayed: set<nat>) {
    WorkersSound(s) && NoneQueuedIfFailed(s) && FirstTimes(s, replayed)
  }

  lemma InitialSound(s: State)
    requires Initial(s)
    ensures Sound(s, {})
  {
    forall i: nat ensures FirstTime(s, i) {
      assert i < |s.items| ==> s.items[i] == FreshItem(s.items[i]);
    }
  }

  /** The item is not newly queued, and dead-lettered if it was. */
  predicate SameStanding(s: State, s': State, i: nat) {
    i < |s.items| && i < |s'.items| ==>
      && (s'.items[i].status.Queued? ==> s.items[i].status.Queued?)
      && (s'.items[i].status.DeadLettered? <==> s.items[i].status.DeadLettered?)
  }

  /** A step of worker w on item j leaves every other item's tokens alone. */
  lemma ElsewhereFirst(s: State, s': State, w: nat, j: nat, i: nat)
    requires FirstTime(s, i) && i != j && w < |s.workers| == |s'.workers| && |s'.items| == |s.items|
    requires s'.workers == s.workers[w := s'.workers[w]] && s'.pending == s.pending
    requires s.workers[w].Idle? || s.workers[w].item == j
    requires s'.workers[w].Idle? || s'.workers[w].item == j
    requires s'.queue[i] == s.queue[i] && SameStanding(s, s', i)
    ensures FirstTime(s', i)
  {
    forall v | 0 <= v < |s'.workers| ensures Holds(s'.workers[v], i) ==> Holds(s.workers[v], i) {
    }
  }

  /** A step of the worker that holds item j: it stays alone with the item, or
      lets go of it, giving it up if it dead-letters it. */
  lemma HolderFirst(s: State, s': State, w: nat, j: nat)
    requires FirstTime(s, j) && w < |s.workers| == |s'.workers| && j < |s.items| == |s'.items|
    requires Holds(s.workers[w], j) && s'.workers == s.workers[w := s'.workers[w]] && s'.pending == s.pending
    requires s'.workers[w].Idle? || (s'.workers[w].item == j && !s'.workers[w].AbortWrite?)
    requires s'.queue[j] == s.queue[j] || (s'.workers[w].Idle? && s'.queue[j] == s.queue[j] + 1)
    requires s'.items[j].status.DeadLettered? ==> !Holds(s'.workers[w], j) && s'.queue[j] == s.queue[j]
    ensures FirstTime(s', j)
  {
    assert s.queue[j] == 0;
    forall v | 0 <= v < |s'.workers| && v != w ensures !Holds(s'.workers[v], j) && s'.workers[v] != AbortWrite(j) {
      assert s'.workers[v] == s.workers[v];
    }
  }

  lemma DeliverSound(c: Config, s: State, w: nat, j: nat, replayed: set<nat>)
    requires Sound(s, replayed) && Enabled(c, s, Deliver(w, j))
    ensures Sound(Apply(c, s, Deliver(w, j)), replayed)
  {
    var s' := Apply(c, s, Deliver(w, j));
    forall i: nat | i !in replayed ensures FirstTime(s', i) {
      assert FirstTime(s, i);
      if i != j {
        ElsewhereFirst(s, s', w, j, i);
      } else {
        forall v | 0 <= v < |s'.workers| && v != w ensures !Holds(s'.workers[v], j) {
          assert s'.workers[v] == s.workers[v];
        }
      }
    }
  }

  lemma CallSound(c: Config, s: State, w: nat, outcome: Outcome, replayed: set<nat>)
    requires Sound(s, replayed) && Enabled(c, s, CallProvider(w, outcome))
    ensures Sound(Apply(c, s, CallProvider(w, outcome)), replayed)
  {
    var s' := Apply(c, s, CallProvider(w, outcome));
    var j := s.workers[w].item;
    assert Holds(s.workers[w], j) && s'.items == s.items[j := s'.items[j]];
    assert !s'.items[j].status.DeadLettered? && !s'.items[j].status.Queued?;
    forall i: nat | i !in replayed ensures FirstTime(s', i) {
      assert FirstTime(s, i);
      if i != j {
        ElsewhereFirst(s, s', w, j, i);
      } else {
        HolderFirst(s, s', w, j);
      }
    }
  }

  lemma JudgeSound(c: Config, s: State, w: nat, report: G.Report, replayed: set<nat>)
    requires Sound(s, replayed) && Enabled(c, s, Judge(w, report))
    ensures Sound(Apply(c, s, Judge(w, report)), replayed)
  {
    var s' := Apply(c, s, Judge(w, report));
    var j := s.workers[w].item;
    forall i: nat | i !in replayed ensures FirstTime(s', i) {
      assert FirstTime(s, i);
      if i != j {
        ElsewhereFirst(s, s', w, j, i);
      } else {
        HolderFirst(s, s', w, j);
      }
    }
  }

  /** The facts about one transaction that soundness depends on: the rows, */
  lemma AdvanceRows(c: Config, s: State, w: nat)
    requires Enabled(c, s, Advance(w))
    ensures var s', p := AdvanceWorker(c, s, w), s.workers[w];
            && |s'.items| == |s.items| && s'.queue == s.queue && s'.pending == s.pending
            && (forall i :: 0 <= i < |s.items| && i != p.item ==> SameStanding(s, s', i))
            && (s'.items[p.item].status.Queued? ==> s.items[p.item].status.Queued?)
            && (s'.items[p.item].status.DeadLettered? ==>
                  s.items[p.item].status.DeadLettered? || (p.Exhausted? && GaveUp(s'.workers[w])))
            && (GaveUp(p) ==> s'.items == s.items)
  {
    hide Price, AnyUnfinished, AnyDeadLettered, OverBudget;
  }

  /** the workers, */
  lemma AdvancePhases(c: Config, s: State, w: nat)
    requires Enabled(c, s, Advance(w))
    ensures var s', p := AdvanceWorker(c, s, w), s.workers[w];
            && |s'.workers| == |s.workers| && s'.workers == s.workers[w := s'.workers[w]]
            && (var p' := s'.workers[w];
                && (p'.Idle? || (p'.item == p.item && !p'.AbortWrite?))
                && (GaveUp(p) ==> !Holds(p', p.item))
                && (PhaseSound(s.run, p) ==> PhaseSound(s.run, p')))
  {
    AdvanceIsLocal(c, s, w);
    NextPhase(c, s, w);
    hide AdvanceWorker;
  }

  lemma NextPhase(c: Config, s: State, w: nat)
    requires Enabled(c, s, Advance(w)) && w < |AdvanceWorker(c, s, w).workers|
    ensures var p, p' := s.workers[w], AdvanceWorker(c, s, w).workers[w];
            && (p'.Idle? || (p'.item == p.item && !p'.AbortWrite?))
            && (GaveUp(p) ==> !Holds(p', p.item))
            && (PhaseSound(s.run, p) ==> PhaseSound(s.run, p'))
  {
    hide Price, MaybeComplete, SweepQueued, MarkSucceeded, MarkFailed, MarkCancelled, MarkDeadLettered;
  }

  lemma SameCancelled(c: Config, s: State, w: nat)
    requires Enabled(c, s, Advance(w))
    ensures AdvanceWorker(c, s, w).run.status.Cancelled? <==> s.run.status.Cancelled?
  {
    hide Price, SweepQueued, AnyUnfinished, AnyDeadLettered;
  }

  /** and the run. */
  lemma AdvanceFails(c: Config, s: State, w: nat)
    requires Enabled(c, s, Advance(w))
    ensures var s' := AdvanceWorker(c, s, w);
            s'.run.status.Failed? && !s.run.status.Failed? ==>
              |s'.items| == |s.items| && forall i :: 0 <= i < |s.items| ==> !s'.items[i].status.Queued?
  {
    hide Price;
    if s.workers[w].CompleteCheck? {
      forall i | 0 <= i < |s.items| && !AnyUnfinished(s.items) ensures !s.items[i].status.Queued? {
        assert !Unfinished(s.items[i]);
      }
    }
  }

  lemma AdvanceSound(c: Config, s: State, w: nat, replayed: set<nat>)
    requires Sound(s, replayed) && Enabled(c, s, Advance(w))
    ensures Sound(Apply(c, s, Advance(w)), replayed)
  {
    var s' := Apply(c, s, Advance(w));
    var j := s.workers[w].item;
    AdvanceRows(c, s, w);
    AdvancePhases(c, s, w);
    AdvanceFails(c, s, w);
    SameCancelled(c, s, w);
    hide AdvanceWorker;
    forall v | 0 <= v < |s'.workers| && !s'.workers[v].Idle?
      ensures s'.workers[v].item < |s'.items| && PhaseSound(s'.run, s'.workers[v])
    {
      assert PhaseSound(s.run, s.workers[v]);
    }
    forall i: nat | i !in replayed ensures FirstTime(s', i) {
      assert FirstTime(s, i);
      if i != j {
        ElsewhereFirst(s, s', w, j, i);
      } else if GaveUp(s.workers[w]) {
        GivenUpFirst(s, s', w, j);
      } else {
        HolderFirst(s, s', w, j);
      }
    }
  }

  /** A worker that has given item j up moves on. */
  lemma GivenUpFirst(s: State, s': State, w: nat, j: nat)
    requires FirstTime(s, j) && w < |s.workers| == |s'.workers| && s'.items == s.items
    requires s'.workers == s.workers[w := s'.workers[w]] && s'.pending == s.pending && s'.queue == s.queue
    requires !Holds(s'.workers[w], j) && !s'.workers[w].AbortWrite?
    ensures FirstTime(s', j)
  {
    forall v | 0 <= v < |s'.workers| ensures Holds(s'.workers[v], j) ==> Holds(s.workers[v], j) {
    }
  }

  lemma CrashSound(c: Config, s: State, w: nat, replayed: set<nat>)
    requires Sound(s, replayed) && Enabled(c, s, Crash(w)) && ReturnsUnpaid(c.faults)
    ensures Unpaid(s.workers[w]) && Sound(Apply(c, s, Crash(w)), replayed)
  {
    var s' := Apply(c, s, Crash(w));
    var j := s.workers[w].item;
    assert Unpaid(s.workers[w]) && Holds(s.workers[w], j);
    forall i: nat | i !in replayed ensures FirstTime(s', i) {
      assert FirstTime(s, i);
      if i != j {
        ElsewhereFirst(s, s', w, j, i);
      } else {
        HolderFirst(s, s', w, j);
      }
    }
  }

  lemma ReplayReadSound(c: Config, s: State, j: nat, replayed: set<nat>)
    requires Sound(s, replayed) && Enabled(c, s, ReplayRead(j))
    ensures Sound(Apply(c, s, ReplayRead(j)), replayed)
  {
    var s' := Apply(c, s, ReplayRead(j));
    forall i: nat | i !in replayed ensures FirstTime(s', i) {
      assert FirstTime(s, i);
    }
  }

  lemma ReplayWriteSound(c: Config, s: State, j: nat, replayed: set<nat>)
    requires Sound(s, replayed) && Enabled(c, s, ReplayWrite(j))
    ensures Sound(Apply(c, s, ReplayWrite(j)), replayed + {j})
  {
    var s' := Apply(c, s, ReplayWrite(j));
    forall i: nat | i !in replayed + {j} ensures FirstTime(s', i) {
      assert FirstTime(s, i);
    }
  }

  lemma CancelSound(c: Config, s: State, replayed: set<nat>)
    requires Sound(s, replayed) && Enabled(c, s, Cancel)
    ensures Sound(Apply(c, s, Cancel), replayed)
  {
    var s' := Apply(c, s, Cancel);
    forall i: nat | i !in replayed ensures FirstTime(s', i) {
      assert FirstTime(s, i);
    }
  }

  lemma ReviewSound(c: Config, s: State, a: Action, replayed: set<nat>)
    requires Sound(s, replayed) && Enabled(c, s, a) && (a.Claim? || a.Resolve?)
    ensures Sound(Apply(c, s, a), replayed)
  {
    var s' := Apply(c, s, a);
    forall i: nat | i !in replayed ensures FirstTime(s', i) {
      assert FirstTime(s, i);
    }
  }

  function AlsoReplayed(replayed: set<nat>, a: Action): set<nat> {
    replayed + (if a.ReplayWrite? then {a.msg} else {})
  }

  lemma StepKeepsSound(c: Config, s: State, a: Action, replayed: set<nat>)
    requires Sound(s, replayed) && Enabled(c, s, a) && ReturnsUnpaid(c.faults)
    ensures Sound(Apply(c, s, a), AlsoReplayed(replayed, a))
  {
    hide Sound, Apply;
    assert !a.ReplayWrite? ==> AlsoReplayed(replayed, a) == replayed;
    match a {
      case Deliver(w, i) => DeliverSound(c, s, w, i, replayed);
      case CallProvider(w, outcome) => CallSound(c, s, w, outcome, replayed);
      case Judge(w, report) => JudgeSound(c, s, w, report, replayed);
      case Advance(w) => AdvanceSound(c, s, w, replayed);
      case Crash(w) => CrashSound(c, s, w, replayed);
      case ReplayRead(i) => ReplayReadSound(c, s, i, replayed);
      case ReplayWrite(i) => ReplayWriteSound(c, s, i, replayed);
      case Cancel => CancelSound(c, s, replayed);
      case Claim(_, _) => ReviewSound(c, s, a, replayed);
      case Resolve(_, _, _) => ReviewSound(c, s, a, replayed);
    }
  }

  // ----- counting tokens -----

  /** The sum of f over the first n items. */
  function Count(n: nat, f: nat -> int): int {
    if n == 0 then 0 else Count(n - 1, f) + f(n - 1)
  }

  lemma {:induction false} CountUpdate(n: nat, f: nat -> int, g: nat -> int, i: nat)
    requires forall k: nat :: k < n && k != i ==> f(k) == g(k)
    ensures Count(n, g) == Count(n, f) + (if i < n then g(i) - f(i) else 0)
  {
    if n > 0 {
      CountUpdate(n - 1, f, g, i);
    }
  }

  lemma {:induction false} CountAtMost(n: nat, f: nat -> int, g: nat -> int)
    requires forall k: nat :: k < n ==> f(k) <= g(k)
    ensures Count(n, f) <= Count(n, g)
  {
    if n > 0 {
      CountAtMost(n - 1, f, g);
    }
  }

  lemma {:induction false} CountNothing(n: nat, f: nat -> int)
    requires forall k: nat :: k < n ==> f(k) == 0
    ensures Count(n, f) == 0
  {
    if n > 0 {
      CountNothing(n - 1, f);
    }
  }

  predicate Waits(s: State, i: nat) {
    i < |s.items| && s.items[i].status.Queued? && s.queue[i] > 0 && !s.run.status.Cancelled?
  }

  /** First messages that will still be executed. */
  function FirstWaiting(s: State, replayed: set<nat>): nat -> int {
    (i: nat) => if i !in replayed && Waits(s, i) then 1 else 0
  }

  /** Messages of replays. */
  function AgainWaiting(s: State, replayed: set<nat>): nat -> int {
    (i: nat) => if i in replayed then s.queue[i] else 0
  }

  function FirstBusy(replayed: set<nat>): Phase -> int {
    (p: Phase) => if !p.Idle? && p.item !in replayed && Executing(p) then 1 else 0
  }

  function AgainBusy(replayed: set<nat>): Phase -> int {
    (p: Phase) => if !p.Idle? && p.item in replayed && Unpaid(p) then 1 else 0
  }

  function FirstTokens(s: State, replayed: set<nat>): int {
    Sum(s.workers, FirstBusy(replayed)) + Count(|s.items|, FirstWaiting(s, replayed))
  }

  function AgainTokens(s: State, replayed: set<nat>): int {
    Sum(s.workers, AgainBusy(replayed)) + Count(|s.items|, AgainWaiting(s, replayed))
  }

  /** A step of worker w on item j moves tokens of that item only. */
  lemma TokensMove(s: State, s': State, replayed: set<nat>, w: nat, j: nat)
    requires w < |s.workers| == |s'.workers| && j < |s.items| == |s'.items|
    requires s'.workers == s.workers[w := s'.workers[w]]
    requires s.workers[w].Idle? || s.workers[w].item == j
    requires s'.workers[w].Idle? || s'.workers[w].item == j
    requires forall i: nat :: i != j ==> s'.queue[i] == s.queue[i]
    requires forall i: nat :: i != j ==> (Waits(s', i) <==> Waits(s, i))
    ensures var first, first' := FirstBusy(replayed)(s.workers[w]), FirstBusy(replayed)(s'.workers[w]);
            FirstTokens(s', replayed) == FirstTokens(s, replayed) - first + first'
              - FirstWaiting(s, replayed)(j) + FirstWaiting(s', replayed)(j)
    ensures var again, again' := AgainBusy(replayed)(s.workers[w]), AgainBusy(replayed)(s'.workers[w]);
            AgainTokens(s', replayed) == AgainTokens(s, replayed) - again + again'
              - AgainWaiting(s, replayed)(j) + AgainWaiting(s', replayed)(j)
  {
    SumUpdate(s.workers, w, s'.workers[w], FirstBusy(replayed));
    SumUpdate(s.workers, w, s'.workers[w], AgainBusy(replayed));
    CountUpdate(|s.items|, FirstWaiting(s, replayed), FirstWaiting(s', replayed), j);
    CountUpdate(|s.items|, AgainWaiting(s, replayed), AgainWaiting(s', replayed), j);
  }

  lemma {:induction false} SharesThePool(workers: seq<Phase>, replayed: set<nat>)
    ensures Sum(workers, FirstBusy(replayed)) + Sum(workers, Spend.IsAbortCheck) <= |workers|
  {
    if workers != [] {
      SharesThePool(workers[1..], replayed);
    }
  }

  lemma TokensAreNonNegative(s: State, replayed: set<nat>)
    ensures 0 <= Sum(s.workers, FirstBusy(replayed)) <= FirstTokens(s, replayed)
    ensures 0 <= AgainTokens(s, replayed)
    ensures 0 <= Spend.AbortChecks(s)
  {
    var none := (i: nat) => 0;
    SumAtLeast(s.workers, FirstBusy(replayed), 0);
    SumAtLeast(s.workers, AgainBusy(replayed), 0);
    SumAtLeast(s.workers, Spend.IsAbortCheck, 0);
    CountNothing(|s.items|, none);
    CountAtMost(|s.items|, none, FirstWaiting(s, replayed));
    CountAtMost(|s.items|, none, AgainWaiting(s, replayed));
  }

  // ----- the bound -----

  /** Tokens of replays never outnumber the replays. While the run is open every
      overshoot has a worker about to notice it; once it has left running over
      its limit, every token left is paid for by the pool and the replays. */
  ghost predicate Within(c: Config, s: State, replayed: set<nat>, most: nat, r: nat) {
    && AgainTokens(s, replayed) <= r
    && (|| (s.run.status.Running? && s.run.totalCost <= c.spendLimit + most * Spend.AbortChecks(s))
        || s.run.totalCost + most * (FirstTokens(s, replayed) + AgainTokens(s, replayed))
           <= c.spendLimit + most * (|s.workers| + r))
  }

  /** A step that spends at most used completions on as many tokens. */
  lemma MovingKeepsWithin(c: Config, s: State, s': State, replayed: set<nat>, most: nat, r: nat, used: nat)
    requires Within(c, s, replayed, most, r)
    requires |s'.workers| == |s.workers| && s'.run.status == s.run.status
    requires s'.run.totalCost <= s.run.totalCost + most * used
    requires s.run.status.Running? && Spend.AbortChecks(s') < Spend.AbortChecks(s) + used ==>
               used == 0 && s.run.totalCost <= c.spendLimit
    requires AgainTokens(s', replayed) <= AgainTokens(s, replayed)
    requires FirstTokens(s', replayed) + AgainTokens(s', replayed) + used <= FirstTokens(s, replayed) + AgainTokens(s, replayed)
    ensures Within(c, s', replayed, most, r)
  {
    TokensAreNonNegative(s', replayed);
    hide FirstTokens, AgainTokens, Spend.AbortChecks;
    var d, d' := FirstTokens(s, replayed) + AgainTokens(s, replayed), FirstTokens(s', replayed) + AgainTokens(s', replayed);
    var k, k' := Spend.AbortChecks(s), Spend.AbortChecks(s');
    if s.run.status.Running? && s.run.totalCost <= c.spendLimit + most * k {
      if s.run.totalCost <= c.spendLimit && used == 0 {
        Scale(most, 0, k');
      } else {
        Scale(most, k + used, k');
        Distribute(most, k, used);
      }
    } else {
      Scale(most, d' + used, d);
      Distribute(most, d', used);
    }
  }

  /** The run leaves running, or is cancelled, and no first message is left. */
  lemma ClosingKeepsWithin(c: Config, s: State, s': State, replayed: set<nat>, most: nat, r: nat)
    requires Within(c, s, replayed, most, r)
    requires |s'.workers| == |s.workers| && |s'.items| == |s.items| && s'.run.totalCost == s.run.totalCost
    requires s'.queue == s.queue
    requires Sum(s'.workers, FirstBusy(replayed)) == Sum(s.workers, FirstBusy(replayed))
    requires Sum(s'.workers, AgainBusy(replayed)) == Sum(s.workers, AgainBusy(replayed))
    requires forall i: nat :: !Waits(s', i)
    ensures Within(c, s', replayed, most, r)
  {
    var e := Sum(s.workers, FirstBusy(replayed));
    TokensAreNonNegative(s, replayed);
    CountNothing(|s'.items|, FirstWaiting(s', replayed));
    CountAtMost(|s.items|, AgainWaiting(s', replayed), AgainWaiting(s, replayed));
    SharesThePool(s.workers, replayed);
    assert FirstTokens(s', replayed) == e && AgainTokens(s', replayed) <= AgainTokens(s, replayed);
    var k := Spend.AbortChecks(s);
    assert e + k <= |s.workers|;
    hide FirstTokens, AgainTokens, Spend.AbortChecks;
    var d, d' := FirstTokens(s, replayed) + AgainTokens(s, replayed), e + AgainTokens(s', replayed);
    if s.run.status.Running? && s.run.totalCost <= c.spendLimit + most * k {
      Scale(most, k + d', |s.workers| + r);
      Distribute(most, k, d');
    } else {
      Scale(most, d', d);
    }
  }

  /** A step of worker w on item j that uses up what it spends. */
  lemma WorkerStepWithin(c: Config, s: State, s': State, replayed: set<nat>, w: nat, j: nat, most: nat, r: nat, used: nat)
    requires Within(c, s, replayed, most, r)
    requires w < |s.workers| == |s'.workers| && j < |s.items| == |s'.items|
    requires s'.workers == s.workers[w := s'.workers[w]]
    requires s.workers[w].Idle? || s.workers[w].item == j
    requires s'.workers[w].Idle? || s'.workers[w].item == j
    requires forall i: nat :: i != j ==> s'.queue[i] == s.queue[i]
    requires forall i: nat :: i != j ==> (Waits(s', i) <==> Waits(s, i))
    requires s'.run.status == s.run.status && s'.run.totalCost <= s.run.totalCost + most * used
    requires if j in replayed
             then AgainBusy(replayed)(s'.workers[w]) + s'.queue[j] + used <= AgainBusy(replayed)(s.workers[w]) + s.queue[j]
             else FirstBusy(replayed)(s'.workers[w]) + FirstWaiting(s', replayed)(j) + used
                  <= FirstBusy(replayed)(s.workers[w]) + FirstWaiting(s, replayed)(j)
    requires || used <= Spend.IsAbortCheck(s'.workers[w]) - Spend.IsAbortCheck(s.workers[w])
             || !s.run.status.Running?
             || (used == 0 && s.run.totalCost <= c.spendLimit)
    ensures Within(c, s', replayed, most, r)
  {
    TokensMove(s, s', replayed, w, j);
    SumUpdate(s.workers, w, s'.workers[w], Spend.IsAbortCheck);
    hide Within, FirstTokens, AgainTokens;
    MovingKeepsWithin(c, s, s', replayed, most, r, used);
  }

  lemma DeliverWithin(c: Config, s: State, w: nat, j: nat, replayed: set<nat>, most: nat, r: nat)
    requires Sound(s, replayed) && Enabled(c, s, Deliver(w, j)) && Within(c, s, replayed, most, r)
    ensures Within(c, Apply(c, s, Deliver(w, j)), replayed, most, r)
  {
    var s' := Apply(c, s, Deliver(w, j));
    assert j !in replayed ==> FirstTime(s, j);
    hide Sound, Within;
    WorkerStepWithin(c, s, s', replayed, w, j, most, r, 0);
  }

  lemma CallWithin(c: Config, s: State, w: nat, outcome: Outcome, replayed: set<nat>, most: nat, r: nat)
    requires Sound(s, replayed) && Enabled(c, s, CallProvider(w, outcome)) && Within(c, s, replayed, most, r)
    ensures Within(c, Apply(c, s, CallProvider(w, outcome)), replayed, most, r)
  {
    var s' := Apply(c, s, CallProvider(w, outcome));
    var j := s.workers[w].item;
    assert Holds(s.workers[w], j) && (j !in replayed ==> FirstTime(s, j));
    assert j !in replayed ==> s.queue[j] == 0;
    hide Sound, Within;
    WorkerStepWithin(c, s, s', replayed, w, j, most, r, 0);
  }

  lemma FinaliseWithin(c: Config, s: State, w: nat, replayed: set<nat>, most: nat, r: nat)
    requires Sound(s, replayed) && Spend.HeldWithin(s, most) && Enabled(c, s, Advance(w)) && s.workers[w].Finalise?
    requires Within(c, s, replayed, most, r)
    ensures Within(c, Apply(c, s, Advance(w)), replayed, most, r)
  {
    var s' := Apply(c, s, Advance(w));
    var j := s.workers[w].item;
    assert Holds(s.workers[w], j) && (j !in replayed ==> FirstTime(s, j));
    assert j !in replayed ==> s.queue[j] == 0;
    assert PhaseSound(s.run, s.workers[w]);
    var paid := s.items[j].status.Running?;
    assert s'.run.totalCost <= s.run.totalCost + if paid then most else 0;
    hide Sound, Within, Price;
    WorkerStepWithin(c, s, s', replayed, w, j, most, r, if paid then 1 else 0);
  }

  lemma AbortCheckWithin(c: Config, s: State, w: nat, replayed: set<nat>, most: nat, r: nat)
    requires Enabled(c, s, Advance(w)) && s.workers[w].AbortCheck? && Within(c, s, replayed, most, r)
    ensures Within(c, Apply(c, s, Advance(w)), replayed, most, r)
  {
    var s' := Apply(c, s, Advance(w));
    var j := s.workers[w].item;
    if OverBudget(s.run, c.spendLimit) {
      SumUpdate(s.workers, w, s'.workers[w], FirstBusy(replayed));
      SumUpdate(s.workers, w, s'.workers[w], AgainBusy(replayed));
      hide Within;
      ClosingKeepsWithin(c, s, s', replayed, most, r);
    } else {
      hide Within;
      WorkerStepWithin(c, s, s', replayed, w, j, most, r, 0);
    }
  }

  lemma CompleteCheckWithin(c: Config, s: State, w: nat, replayed: set<nat>, most: nat, r: nat)
    requires Enabled(c, s, Advance(w)) && s.workers[w].CompleteCheck? && Within(c, s, replayed, most, r)
    ensures Within(c, Apply(c, s, Advance(w)), replayed, most, r)
  {
    var s' := Apply(c, s, Advance(w));
    var j := s.workers[w].item;
    if s'.run.status == s.run.status {
      hide Within;
      WorkerStepWithin(c, s, s', replayed, w, j, most, r, 0);
    } else {
      forall i: nat ensures !Waits(s', i) {
        assert i < |s.items| ==> !Unfinished(s.items[i]);
      }
      SumUpdate(s.workers, w, s'.workers[w], FirstBusy(replayed));
      SumUpdate(s.workers, w, s'.workers[w], AgainBusy(replayed));
      hide Within;
      ClosingKeepsWithin(c, s, s', replayed, most, r);
    }
  }

  /** The transactions that neither finalise nor check. */
  lemma OtherAdvanceWithin(c: Config, s: State, w: nat, replayed: set<nat>, most: nat, r: nat)
    requires Sound(s, replayed) && Enabled(c, s, Advance(w)) && Within(c, s, replayed, most, r)
    requires !s.workers[w].Finalise? && !s.workers[w].AbortCheck? && !s.workers[w].CompleteCheck?
    ensures Within(c, Apply(c, s, Advance(w)), replayed, most, r)
  {
    var s' := Apply(c, s, Advance(w));
    var j := s.workers[w].item;
    assert j !in replayed ==> FirstTime(s, j);
    assert j !in replayed && Holds(s.workers[w], j) ==> s.queue[j] == 0;
    hide Sound, Within, FirstTime, WorkersSound;
    AdvancePhases(c, s, w);
    LocalRow(c, s, w);
    hide AdvanceWorker;
    WorkerStepWithin(c, s, s', replayed, w, j, most, r, 0);
  }

  lemma LocalRow(c: Config, s: State, w: nat)
    requires Enabled(c, s, Advance(w))
    requires !s.workers[w].Finalise? && !s.workers[w].AbortCheck? && !s.workers[w].CompleteCheck?
    ensures var s', p := AdvanceWorker(c, s, w), s.workers[w];
            && s'.run == s.run && s'.queue == s.queue && |s'.items| == |s.items|
            && (forall i :: 0 <= i < |s.items| && (i != p.item || GaveUp(p)) ==> s'.items[i] == s.items[i])
            && w < |s'.workers| && !s'.workers[w].AbortCheck?
            && (Unpaid(s'.workers[w]) ==> Unpaid(p)) && (Executing(s'.workers[w]) ==> Executing(p))
  {
  }

  lemma CrashWithin(c: Config, s: State, w: nat, replayed: set<nat>, most: nat, r: nat)
    requires Sound(s, replayed) && Enabled(c, s, Crash(w)) && Within(c, s, replayed, most, r) && ReturnsUnpaid(c.faults)
    ensures Within(c, Apply(c, s, Crash(w)), replayed, most, r)
  {
    CrashSound(c, s, w, replayed);
    var s' := Apply(c, s, Crash(w));
    var j := s.workers[w].item;
    assert Holds(s.workers[w], j) && PhaseSound(s.run, s.workers[w]);
    assert j !in replayed ==> FirstTime(s, j);
    assert j !in replayed ==> s.queue[j] == 0;
    hide Sound, Within;
    WorkerStepWithin(c, s, s', replayed, w, j, most, r, 0);
  }

  lemma SumSame<T>(xs: seq<T>, f: T -> int, g: T -> int)
    requires forall x :: x in xs ==> f(x) == g(x)
    ensures Sum(xs, f) == Sum(xs, g)
  {
    SumCompare(xs, f, g);
    SumCompare(xs, g, f);
  }

  /** Nobody works on an item that is replayed for the first time. */
  lemma ReplayBusy(s: State, j: nat, replayed: set<nat>)
    requires j !in replayed ==> NoHolder(s, j)
    ensures Sum(s.workers, FirstBusy(replayed + {j})) == Sum(s.workers, FirstBusy(replayed))
    ensures Sum(s.workers, AgainBusy(replayed + {j})) == Sum(s.workers, AgainBusy(replayed))
  {
    var more := replayed + {j};
    forall p | p in s.workers
      ensures FirstBusy(more)(p) == FirstBusy(replayed)(p) && AgainBusy(more)(p) == AgainBusy(replayed)(p)
    {
      var w :| 0 <= w < |s.workers| && s.workers[w] == p;
      assert j !in replayed ==> !Holds(s.workers[w], j);
    }
    SumSame(s.workers, FirstBusy(more), FirstBusy(replayed));
    SumSame(s.workers, AgainBusy(more), AgainBusy(replayed));
  }

  lemma ReplayMessages(s: State, s': State, j: nat, replayed: set<nat>)
    requires |s'.items| == |s.items| && s'.queue == s.queue + multiset{j} && (j !in replayed ==> s.queue[j] == 0)
    requires forall i: nat :: i != j ==> (Waits(s', i) <==> Waits(s, i))
    ensures Count(|s.items|, FirstWaiting(s', replayed + {j})) <= Count(|s.items|, FirstWaiting(s, replayed))
    ensures Count(|s.items|, AgainWaiting(s', replayed + {j})) <= Count(|s.items|, AgainWaiting(s, replayed)) + 1
  {
    var more := replayed + {j};
    hide Waits;
    CountAtMost(|s.items|, FirstWaiting(s', more), FirstWaiting(s, replayed));
    CountUpdate(|s.items|, AgainWaiting(s, replayed), AgainWaiting(s', more), j);
  }

  /** One more message, and one more replay to pay for it. */
  lemma ReplayTokens(c: Config, s: State, j: nat, replayed: set<nat>)
    requires Sound(s, replayed) && Enabled(c, s, ReplayWrite(j))
    ensures var s' := Apply(c, s, ReplayWrite(j));
            && s'.workers == s.workers && s'.run.totalCost == s.run.totalCost
            && (s.run.status.Running? ==> s'.run.status.Running?)
            && FirstTokens(s', replayed + {j}) <= FirstTokens(s, replayed)
            && AgainTokens(s', replayed + {j}) <= AgainTokens(s, replayed) + 1
  {
    var s' := Apply(c, s, ReplayWrite(j));
    assert j !in replayed ==> FirstTime(s, j) && s.queue[j] == 0 && NoHolder(s, j);
    hide Sound, FirstTime, FirstBusy, AgainBusy, FirstWaiting, AgainWaiting;
    ReplayBusy(s, j, replayed);
    ReplayMessages(s, s', j, replayed);
  }

  lemma ReplayWithin(c: Config, s: State, j: nat, replayed: set<nat>, most: nat, r: nat)
    requires Sound(s, replayed) && Enabled(c, s, ReplayWrite(j)) && Within(c, s, replayed, most, r)
    ensures Within(c, Apply(c, s, ReplayWrite(j)), replayed + {j}, most, r + 1)
  {
    hide Sound, Apply, Enabled, FirstTokens, AgainTokens;
    ReplayTokens(c, s, j, replayed);
    MoreKeepsWithin(c, s, Apply(c, s, ReplayWrite(j)), replayed, replayed + {j}, most, r);
  }

  lemma MoreKeepsWithin(c: Config, s: State, s': State, replayed: set<nat>, more: set<nat>, most: nat, r: nat)
    requires Within(c, s, replayed, most, r) && s'.workers == s.workers && s'.run.totalCost == s.run.totalCost
    requires s.run.status.Running? ==> s'.run.status.Running?
    requires FirstTokens(s', more) <= FirstTokens(s, replayed) && AgainTokens(s', more) <= AgainTokens(s, replayed) + 1
    ensures Within(c, s', more, most, r + 1)
  {
    hide FirstTokens, AgainTokens, Spend.AbortChecks;
    var d, d' := FirstTokens(s, replayed) + AgainTokens(s, replayed), FirstTokens(s', more) + AgainTokens(s', more);
    assert Spend.AbortChecks(s') == Spend.AbortChecks(s) by {
      SameAbortChecks(s, s');
    }
    Spend.OneMoreReplay(s.run.totalCost - c.spendLimit, most, d, d', |s.workers| + r);
  }

  lemma SameAbortChecks(s: State, s': State)
    requires s'.workers == s.workers
    ensures Spend.AbortChecks(s') == Spend.AbortChecks(s)
  {
  }

  lemma CancelWithin(c: Config, s: State, replayed: set<nat>, most: nat, r: nat)
    requires Enabled(c, s, Cancel) && Within(c, s, replayed, most, r)
    ensures Within(c, Apply(c, s, Cancel), replayed, most, r)
  {
    var s' := Apply(c, s, Cancel);
    hide Within;
    ClosingKeepsWithin(c, s, s', replayed, most, r);
  }

  /** Judging, reading for a replay and reviewing move no token. */
  lemma OtherStepWithin(c: Config, s: State, s': State, replayed: set<nat>, most: nat, r: nat)
    requires Within(c, s, replayed, most, r)
    requires s'.run == s.run && s'.items == s.items && s'.queue == s.queue && s'.workers == s.workers
    ensures Within(c, s', replayed, most, r)
  {
    CountUpdate(|s.items|, FirstWaiting(s, replayed), FirstWaiting(s', replayed), |s.items|);
    CountUpdate(|s.items|, AgainWaiting(s, replayed), AgainWaiting(s', replayed), |s.items|);
  }

  lemma JudgeWithin(c: Config, s: State, w: nat, report: G.Report, replayed: set<nat>, most: nat, r: nat)
    requires Enabled(c, s, Judge(w, report)) && Within(c, s, replayed, most, r)
    ensures Within(c, Apply(c, s, Judge(w, report)), replayed, most, r)
  {
    var s' := Apply(c, s, Judge(w, report));
    hide Within;
    WorkerStepWithin(c, s, s', replayed, w, s.workers[w].item, most, r, 0);
  }

  lemma AdvanceWithin(c: Config, s: State, w: nat, replayed: set<nat>, most: nat, r: nat)
    requires Sound(s, replayed) && Spend.HeldWithin(s, most) && Enabled(c, s, Advance(w)) && Within(c, s, replayed, most, r)
    ensures Within(c, Apply(c, s, Advance(w)), replayed, most, r)
  {
    hide Sound, Within, Apply;
    if s.workers[w].Finalise? {
      FinaliseWithin(c, s, w, replayed, most, r);
    } else if s.workers[w].AbortCheck? {
      AbortCheckWithin(c, s, w, replayed, most, r);
    } else if s.workers[w].CompleteCheck? {
      CompleteCheckWithin(c, s, w, replayed, most, r);
    } else {
      OtherAdvanceWithin(c, s, w, replayed, most, r);
    }
  }

  lemma StepKeepsWithin(c: Config, s: State, a: Action, replayed: set<nat>, most: nat, r: nat)
    requires Sound(s, replayed) && Spend.HeldWithin(s, most) && Enabled(c, s, a)
    requires Within(c, s, replayed, most, r) && ReturnsUnpaid(c.faults)
    ensures Within(c, Apply(c, s, a), AlsoReplayed(replayed, a), most, r + if a.ReplayWrite? then 1 else 0)
  {
    hide Sound, Within;
    assert !a.ReplayWrite? ==> AlsoReplayed(replayed, a) == replayed;
    match a {
      case Deliver(w, i) => DeliverWithin(c, s, w, i, replayed, most, r);
      case CallProvider(w, outcome) => CallWithin(c, s, w, outcome, replayed, most, r);
      case Judge(w, report) => JudgeWithin(c, s, w, report, replayed, most, r);
      case Advance(w) => AdvanceWithin(c, s, w, replayed, most, r);
      case Crash(w) => CrashWithin(c, s, w, replayed, most, r);
      case ReplayWrite(i) => ReplayWithin(c, s, i, replayed, most, r);
      case Cancel => CancelWithin(c, s, replayed, most, r);
      case ReplayRead(_) => OtherStepWithin(c, s, Apply(c, s, a), replayed, most, r);
      case Claim(_, _) => OtherStepWithin(c, s, Apply(c, s, a), replayed, most, r);
      case Resolve(_, _, _) => OtherStepWithin(c, s, Apply(c, s, a), replayed, most, r);
    }
  }

  lemma {:induction false} RunKeepsWithin(c: Config, s: State, tr: seq<Action>, most: nat)
    requires Sound(s, {}) && Spend.HeldWithin(s, most) && Within(c, s, {}, most, 0)
    requires IsRun(c, s, tr) && Spend.CallsWithin(c, s, tr, most) && ReturnsUnpaid(c.faults)
    ensures Sound(End(c, s, tr), Replayed(tr)) && Spend.HeldWithin(End(c, s, tr), most)
    ensures Within(c, End(c, s, tr), Replayed(tr), most, Spend.Replays(tr)) && |End(c, s, tr).workers| == |s.workers|
    decreases |tr|
  {
    hide Apply, Enabled, Sound, Within, Spend.HeldWithin;
    if tr != [] {
      var s', a := End(c, s, Front(tr)), Last(tr);
      RunKeepsWithin(c, s, Front(tr), most);
      StepKeepsSound(c, s', a, Replayed(Front(tr)));
      StepKeepsWithin(c, s', a, Replayed(Front(tr)), most, Spend.Replays(Front(tr)));
      Spend.StepKeepsHeld(c, s', a, most);
      SizesAreKept(c, s', a);
    }
  }

  lemma InitialWithin(c: Config, s0: State, most: nat)
    requires Initial(s0) && c.spendLimit >= 0
    ensures Within(c, s0, {}, most, 0) && Spend.HeldWithin(s0, most)
  {
    TokensAreNonNegative(s0, {});
    SumAtMost(s0.workers, AgainBusy({}), 0);
    CountNothing(|s0.items|, AgainWaiting(s0, {}));
    SumAtMost(s0.workers, FirstBusy({}), 0);
    Scale(most, 0, Spend.AbortChecks(s0));
    if s0.items == [] {
      Scale(most, 0, |s0.workers|);
      assert FirstTokens(s0, {}) + AgainTokens(s0, {}) == 0;
    }
  }

  lemma WithinLimitsTotal(c: Config, s: State, replayed: set<nat>, most: nat, r: nat)
    requires Within(c, s, replayed, most, r)
    ensures s.run.totalCost <= c.spendLimit + most * (|s.workers| + r)
  {
    TokensAreNonNegative(s, replayed);
    SharesThePool(s.workers, replayed);
    Scale(most, Spend.AbortChecks(s), |s.workers| + r);
    Scale(most, 0, FirstTokens(s, replayed) + AgainTokens(s, replayed));
  }

  /** The bound without single flight: replays may overlap as they like, as long
      as a crash returns a message only before its execution has paid. With W
      workers, R replays and completions of at most `most`, the total never
      exceeds limit + (W + R) * most. */
  lemma OverlapIsBounded(c: Config, s0: State, tr: seq<Action>, most: nat)
    requires Initial(s0) && IsRun(c, s0, tr) && Spend.CallsWithin(c, s0, tr, most) && c.spendLimit >= 0
    requires ReturnsUnpaid(c.faults)
    ensures End(c, s0, tr).run.totalCost <= c.spendLimit + most * (|s0.workers| + Spend.Replays(tr))
  {
    hide Initial, Apply, Enabled, Sound, Within, Spend.HeldWithin, Spend.CallsWithin;
    InitialSound(s0);
    InitialWithin(c, s0, most);
    RunKeepsWithin(c, s0, tr, most);
    WithinLimitsTotal(c, End(c, s0, tr), Replayed(tr), most, Spend.Replays(tr));
  }

  /** The spend bound in full: with W workers, R replays and completions of at
      most `most`, the total never exceeds limit + (W + R) * most. */
  lemma SpendIsBounded(c: Config, s0: State, tr: seq<Action>, most: nat)
    requires Initial(s0) && IsRun(c, s0, tr) && Spend.CallsWithin(c, s0, tr, most) && c.spendLimit >= 0
    requires PaysOnce(c.faults)
    ensures End(c, s0, tr).run.totalCost <= c.spendLimit + most * (|s0.workers| + Spend.Replays(tr))
  {
    hide Initial, Apply, Enabled, Spend.CallsWithin;
    if c.faults.overlappingReplays {
      OverlapIsBounded(c, s0, tr, most);
    } else {
      Spend.OvershootIsBounded(c, s0, tr, most);
    }
  }
}
