/** What every step of the protocol keeps, and what follows for every run. */
module Safety {
  import opened Options
  import opened Sums
  import opened Protocol
  import Pricing
  import G = Grading

  // ----- who is responsible for an item -----

  /** A dead-lettering execution has given its item up. */
  predicate GaveUp(p: Phase) {
    (p.CompleteCheck? || p.Acknowledge?) && p.deadLettered
  }

  /** The worker is responsible for the item until it acknowledges. */
  predicate Holds(p: Phase, i: nat) {
    !p.Idle? && p.item == i && !GaveUp(p)
  }

  predicate SameItem(p: Phase, q: Phase) {
    !p.Idle? && Holds(p, p.item) && Holds(q, p.item)
  }

  /** Past the status check, final item status not yet written. */
  predicate Executing(p: Phase) {
    p.Attempt? || p.CancelCheck? || p.Finalise? || p.ProviderFailed? || p.Exhausted?
  }

  /** Has taken the message of an item and not written its row yet. */
  predicate Claims(p: Phase, i: nat) {
    ((p.Attempt? && p.attempt == 1) || p.Exhausted? || p.CancelWrite?) && p.item == i
  }

  ghost predicate NoHolder(s: State, i: nat) {
    forall w :: 0 <= w < |s.workers| ==> !Holds(s.workers[w], i)
  }

  ghost predicate HasClaim(s: State, i: nat) {
    exists w :: 0 <= w < |s.workers| && Claims(s.workers[w], i)
  }

  // ----- the invariant -----

  predicate Unrecorded(it: Item) {
    it.cost.None? && it.promptTokens.None? && it.completionTokens.None? && it.latency.None?
  }

  predicate Recorded(it: Item) {
    && it.cost.Some? && it.promptTokens.Some? && it.completionTokens.Some? && it.latency.Some?
    && it.cost.value == Pricing.ComputeCost(it.model, it.promptTokens.value, it.completionTokens.value)
  }

  predicate ItemOk(run: Run, it: Item) {
    && (it.status.Queued? ==> !run.status.Failed?)
    && (if it.status.Succeeded? then Recorded(it)
        else if it.status.Failed? then Recorded(it) || Unrecorded(it)
        else Unrecorded(it))
  }

  /** What a worker in phase p knows about its item. */
  predicate PhaseOk(c: Config, run: Run, it: Item, p: Phase) {
    match p
    case Idle => true
    case CancelWrite(_) => run.status.Cancelled? && !it.status.DeadLettered?
    case AbortWrite(_) => !it.status.Queued? && !it.status.DeadLettered?
    case Attempt(_, k, prevCost, prevTokens) =>
      && Unrecorded(it) && prevCost == prevTokens == 0 && 1 <= k <= c.maxAttempts
      && (if k == 1 then it.status.Queued? || it.status.Failed? else it.status.Running?)
    case CancelCheck(_, prevCost, prevTokens, _) =>
      Unrecorded(it) && prevCost == prevTokens == 0 && it.status.Running?
    case Finalise(_, prevCost, prevTokens, _) =>
      Unrecorded(it) && prevCost == prevTokens == 0 && it.status.Running?
    case ProviderFailed(_) => Unrecorded(it) && it.status.Running?
    case Exhausted(_) => Unrecorded(it) && !it.status.DeadLettered?
    case CompleteCheck(_, deadLettered) => !deadLettered ==> it.status.Succeeded? || it.status.Failed?
    case Acknowledge(_, deadLettered) => !deadLettered ==> !it.status.Queued? && !it.status.DeadLettered?
    case _ => it.status.Succeeded?
  }

  ghost predicate ItemsOk(s: State) {
    forall i :: 0 <= i < |s.items| ==> ItemOk(s.run, s.items[i])
  }

  /** At most one message, and then nobody holds the item. */
  ghost predicate MessageOk(s: State, i: nat) {
    && s.queue[i] <= 1
    && (s.queue[i] == 1 ==> i < |s.items| && !s.items[i].status.DeadLettered? && NoHolder(s, i))
  }

  ghost predicate MessagesOk(s: State) {
    forall i: nat :: MessageOk(s, i)
  }

  ghost predicate WorkersOk(c: Config, s: State) {
    forall w :: 0 <= w < |s.workers| && !s.workers[w].Idle? ==>
      s.workers[w].item < |s.items| && PhaseOk(c, s.run, s.items[s.workers[w].item], s.workers[w])
  }

  ghost predicate HoldersUnique(s: State) {
    forall w, v :: 0 <= w < |s.workers| && 0 <= v < |s.workers| && w != v ==>
      !SameItem(s.workers[w], s.workers[v])
  }

  /** No queued item is forgotten. */
  ghost predicate QueuedCarried(s: State) {
    forall i :: 0 <= i < |s.items| && s.items[i].status.Queued? ==> s.queue[i] == 1 || HasClaim(s, i)
  }

  /** A replay that has read its item is alone with it until it writes. */
  ghost predicate PendingOk(s: State, i: nat) {
    && s.pending[i] <= 1
    && (s.pending[i] == 1 ==> i < |s.items| && s.items[i].status.DeadLettered?)
  }

  ghost predicate ReplaysOk(s: State) {
    forall i: nat :: PendingOk(s, i)
  }

  /** The run row's totals are the sums over its items. */
  ghost predicate LedgerOk(s: State) {
    s.run.totalCost == Sum(s.items, CostOf) && s.run.totalTokens == Sum(s.items, TokensOf)
  }

  ghost predicate Inv(c: Config, s: State) {
    && ItemsOk(s) && MessagesOk(s) && WorkersOk(c, s) && HoldersUnique(s) && QueuedCarried(s)
    && ReplaysOk(s) && LedgerOk(s)
  }

  // ----- it holds at first -----

  lemma InitialInv(c: Config, s: State)
    requires Initial(s)
    ensures Inv(c, s)
  {
    NothingSpent(s.items);
    forall i | 0 <= i < |s.items| ensures ItemOk(s.run, s.items[i]) {
      assert s.items[i] == FreshItem(s.items[i]);
    }
    forall i: nat ensures MessageOk(s, i) && PendingOk(s, i) {
      assert s.queue[i] == if i < |s.items| then 1 else 0;
    }
  }

  lemma {:induction false} NothingSpent(items: seq<Item>)
    requires forall i :: 0 <= i < |items| ==> items[i] == FreshItem(items[i])
    ensures Sum(items, CostOf) == 0 && Sum(items, TokensOf) == 0
  {
    if items != [] {
      assert items[0] == FreshItem(items[0]);
      NothingSpent(items[1..]);
    }
  }

  // ----- every step keeps it -----

  lemma StillCarried(s: State, s': State, i: nat)
    requires s.queue[i] == 1 || HasClaim(s, i)
    requires s.queue[i] == 1 ==> s'.queue[i] == 1
    requires |s'.workers| == |s.workers|
    requires forall v :: 0 <= v < |s.workers| && Claims(s.workers[v], i) ==> s'.workers[v] == s.workers[v]
    ensures s'.queue[i] == 1 || HasClaim(s', i)
  {
    if s.queue[i] != 1 {
      var v :| 0 <= v < |s.workers| && Claims(s.workers[v], i);
      assert Claims(s'.workers[v], i);
    }
  }

  lemma NobodyHolds(c: Config, s: State, i: nat)
    requires WorkersOk(c, s) && i < |s.items| && s.items[i].status.DeadLettered?
    ensures NoHolder(s, i)
  {
    forall w | 0 <= w < |s.workers| ensures !Holds(s.workers[w], i) {
      assert Holds(s.workers[w], i) ==> PhaseOk(c, s.run, s.items[i], s.workers[w]);
    }
  }

  /** A step of the worker holding item i that changes only its own row, its
      own phase and the run's totals. */
  lemma LocalStep(c: Config, s: State, w: nat, it: Item, p: Phase, run: Run)
    requires Inv(c, s) && Busy(s, w) && Holds(s.workers[w], s.workers[w].item)
    requires run.status == s.run.status
    requires ItemOk(run, it)
    requires !p.Idle? ==> p.item == s.workers[w].item && PhaseOk(c, run, it, p)
    requires it.status.Queued? ==> !p.Idle? && Claims(p, p.item)
    requires run.totalCost - s.run.totalCost == CostOf(it) - CostOf(s.items[s.workers[w].item])
    requires run.totalTokens - s.run.totalTokens == TokensOf(it) - TokensOf(s.items[s.workers[w].item])
    ensures Inv(c, At(SetItem(s, s.workers[w].item, it), w, p).(run := run))
  {
    var i := s.workers[w].item;
    var s' := At(SetItem(s, i, it), w, p).(run := run);
    hide CostOf, TokensOf, Pricing.ComputeCost, Recorded, Unrecorded;
    assert LedgerOk(s') by {
      SumUpdate(s.items, i, it, CostOf);
      SumUpdate(s.items, i, it, TokensOf);
    }
    hide Sum, LedgerOk;
    assert ItemsOk(s');
    hide ItemOk;
    LocalMessages(c, s, w, it, p, run);
    forall v | 0 <= v < |s'.workers| && v != w && !s'.workers[v].Idle?
      ensures s'.workers[v].item < |s'.items| && PhaseOk(c, s'.run, s'.items[s'.workers[v].item], s'.workers[v])
    {
      assert !SameItem(s.workers[w], s.workers[v]);
    }
    forall v, u | 0 <= v < |s'.workers| && 0 <= u < |s'.workers| && v != u
      ensures !SameItem(s'.workers[v], s'.workers[u])
    {
      assert !SameItem(s.workers[v], s.workers[u]);
    }
  }

  /** Such a step touches no message, no replay, and no other claim. */
  lemma LocalMessages(c: Config, s: State, w: nat, it: Item, p: Phase, run: Run)
    requires Inv(c, s) && Busy(s, w) && Holds(s.workers[w], s.workers[w].item)
    requires !p.Idle? ==> p.item == s.workers[w].item
    requires it.status.Queued? ==> !p.Idle? && Claims(p, p.item)
    ensures var s' := At(SetItem(s, s.workers[w].item, it), w, p).(run := run);
            MessagesOk(s') && ReplaysOk(s') && QueuedCarried(s')
  {
    var i := s.workers[w].item;
    var s' := At(SetItem(s, i, it), w, p).(run := run);
    assert !s.items[i].status.DeadLettered? by {
      assert PhaseOk(c, s.run, s.items[i], s.workers[w]);
    }
    hide LedgerOk, ItemsOk, WorkersOk, HoldersUnique;
    forall j: nat ensures MessageOk(s', j) && PendingOk(s', j) {
      assert MessageOk(s, j) && PendingOk(s, j);
    }
    forall j | 0 <= j < |s'.items| && s'.items[j].status.Queued?
      ensures s'.queue[j] == 1 || HasClaim(s', j)
    {
      if j == i {
        assert Claims(s'.workers[w], j);
      } else {
        StillCarried(s, s', j);
      }
    }
  }

  /** A step that only moves a worker's phase. */
  lemma PhaseStep(c: Config, s: State, w: nat, p: Phase)
    requires Inv(c, s) && Busy(s, w) && Holds(s.workers[w], s.workers[w].item)
    requires !p.Idle? ==> p.item == s.workers[w].item && PhaseOk(c, s.run, s.items[p.item], p)
    requires s.items[s.workers[w].item].status.Queued? ==> !p.Idle? && Claims(p, p.item)
    ensures Inv(c, At(s, w, p))
  {
    var i := s.workers[w].item;
    assert s.items[i := s.items[i]] == s.items;
    LocalStep(c, s, w, s.items[i], p, s.run);
  }

  /** The book carries no part of the invariant. */
  lemma BookStep(c: Config, s: State, book: G.Book)
    requires Inv(c, s)
    ensures Inv(c, s.(book := book))
  {
    var s' := s.(book := book);
    forall i: nat ensures MessageOk(s', i) && PendingOk(s', i) {
      assert MessageOk(s, i) && PendingOk(s, i);
    }
    forall i | 0 <= i < |s'.items| && s'.items[i].status.Queued?
      ensures s'.queue[i] == 1 || HasClaim(s', i)
    {
      StillCarried(s, s', i);
    }
  }

  lemma DeliverKeeps(c: Config, s: State, w: nat, i: nat)
    requires Inv(c, s) && Enabled(c, s, Deliver(w, i))
    ensures Inv(c, Apply(c, s, Deliver(w, i)))
  {
    var s' := Apply(c, s, Deliver(w, i));
    assert MessageOk(s, i);
    assert ItemOk(s.run, s.items[i]);
    assert PhaseOk(c, s.run, s.items[i], s'.workers[w]);
    forall j: nat ensures MessageOk(s', j) && PendingOk(s', j) {
      assert MessageOk(s, j) && PendingOk(s, j);
    }
    forall j | 0 <= j < |s'.items| && s'.items[j].status.Queued?
      ensures s'.queue[j] == 1 || HasClaim(s', j)
    {
      if j == i {
        assert Claims(s'.workers[w], j);
      } else if s.queue[j] != 1 {
        var v :| 0 <= v < |s.workers| && Claims(s.workers[v], j);
        assert s'.workers[v] == s.workers[v];
      }
    }
  }

  lemma CallKeeps(c: Config, s: State, w: nat, outcome: Outcome)
    requires Inv(c, s) && Enabled(c, s, CallProvider(w, outcome))
    ensures Inv(c, Apply(c, s, CallProvider(w, outcome)))
  {
    var p := s.workers[w];
    assert ItemOk(s.run, s.items[p.item]);
    LocalStep(c, s, w, MarkRunning(s.items[p.item]), AfterCall(c, p, outcome), s.run);
  }

  lemma JudgeKeeps(c: Config, s: State, w: nat, report: G.Report)
    requires Inv(c, s) && Enabled(c, s, Judge(w, report))
    ensures Inv(c, Apply(c, s, Judge(w, report)))
  {
    var i := s.workers[w].item;
    if report.judge.JudgeError? {
      PhaseStep(c, s, w, GradingFailed(i));
    } else {
      PhaseStep(c, s, w, CompleteCheck(i, false));
      BookStep(c, At(s, w, CompleteCheck(i, false)), G.CommitGrades(c.grading, s.book, i, report));
    }
  }

  lemma FinaliseKeeps(c: Config, s: State, w: nat)
    requires Inv(c, s) && Enabled(c, s, Advance(w)) && s.workers[w].Finalise?
    ensures Inv(c, Apply(c, s, Advance(w)))
  {
    hide Pricing.ComputeCost, Sum, MessagesOk, HoldersUnique, QueuedCarried, ReplaysOk, LedgerOk;
    var p := s.workers[w];
    var it := s.items[p.item];
    var cost := Price(it, p.result);
    assert PhaseOk(c, s.run, it, p);
    LocalStep(c, s, w, MarkSucceeded(it, p.result, cost), AbortCheck(p.item),
              Rollup(s.run, cost, p.result.promptTokens + p.result.completionTokens));
  }

  /** Every transaction that writes one item row and perhaps the totals. */
  lemma RowWriteKeeps(c: Config, s: State, w: nat)
    requires Inv(c, s) && Enabled(c, s, Advance(w))
    requires !s.workers[w].AbortCheck? && !s.workers[w].CompleteCheck? && !s.workers[w].Acknowledge?
    ensures Inv(c, Apply(c, s, Advance(w)))
  {
    hide Pricing.ComputeCost, Sum, MessagesOk, HoldersUnique, QueuedCarried, ReplaysOk, LedgerOk;
    var p := s.workers[w];
    var i := p.item;
    var it := s.items[i];
    assert ItemOk(s.run, it);
    match p {
      case CancelWrite(_) => LocalStep(c, s, w, MarkCancelled(it), Acknowledge(i, false), s.run);
      case AbortWrite(_) => LocalStep(c, s, w, MarkFailed(it, RunAborted), Acknowledge(i, false), s.run);
      case CancelCheck(_, prevCost, prevTokens, result) =>
        PhaseStep(c, s, w, if s.run.status.Cancelled? then CancelWrite(i)
                           else Finalise(i, prevCost, prevTokens, result));
      case Finalise(_, _, _, _) => FinaliseKeeps(c, s, w);
      case Grading(_) =>
        PhaseStep(c, s, w, if G.GradesOf(s.book, i) != [] then CompleteCheck(i, false) else Judging(i));
      case GradingFailed(_) => LocalStep(c, s, w, MarkFailed(it, GradingError), CompleteCheck(i, false), s.run);
      case ProviderFailed(_) => LocalStep(c, s, w, MarkFailed(it, ProviderError), CompleteCheck(i, false), s.run);
      case Exhausted(_) => LocalStep(c, s, w, MarkDeadLettered(it), CompleteCheck(i, true), s.run);
    }
  }

  /** Both sweeps: cost columns are untouched and no queued item remains. */
  lemma SweepKeeps(c: Config, s: State, run: Run, error: ItemError)
    requires Inv(c, s)
    requires run.totalCost == s.run.totalCost && run.totalTokens == s.run.totalTokens
    requires s.run.status.Cancelled? ==> run.status.Cancelled?
    ensures Inv(c, s.(run := run, items := SweepQueued(s.items, error)))
  {
    var s' := s.(run := run, items := SweepQueued(s.items, error));
    assert LedgerOk(s') by {
      SumPointwise(s.items, s'.items, CostOf);
      SumPointwise(s.items, s'.items, TokensOf);
    }
    forall i | 0 <= i < |s'.items| ensures ItemOk(s'.run, s'.items[i]) {
      assert ItemOk(s.run, s.items[i]);
    }
    forall i: nat ensures MessageOk(s', i) && PendingOk(s', i) {
      assert MessageOk(s, i) && PendingOk(s, i);
    }
    forall w | 0 <= w < |s'.workers| && !s'.workers[w].Idle?
      ensures s'.workers[w].item < |s'.items| && PhaseOk(c, s'.run, s'.items[s'.workers[w].item], s'.workers[w])
    {
      assert PhaseOk(c, s.run, s.items[s.workers[w].item], s.workers[w]);
    }
  }

  lemma AbortCheckKeeps(c: Config, s: State, w: nat)
    requires Inv(c, s) && Enabled(c, s, Advance(w)) && s.workers[w].AbortCheck?
    ensures Inv(c, Apply(c, s, Advance(w)))
  {
    var i := s.workers[w].item;
    if OverBudget(s.run, c.spendLimit) {
      PhaseStep(c, s, w, Acknowledge(i, false));
      SweepKeeps(c, At(s, w, Acknowledge(i, false)), Abort(s.run), SpendLimit);
    } else {
      PhaseStep(c, s, w, Grading(i));
    }
  }

  /** The run row changes its status, never to or from cancelled, and to failed
      only with nothing queued. */
  lemma RunStepKeeps(c: Config, s: State, run: Run)
    requires Inv(c, s) && run.totalCost == s.run.totalCost && run.totalTokens == s.run.totalTokens
    requires run.status.Cancelled? == s.run.status.Cancelled?
    requires run.status.Failed? && !s.run.status.Failed? ==> !AnyUnfinished(s.items)
    ensures Inv(c, s.(run := run))
  {
    var s' := s.(run := run);
    hide Recorded, Unrecorded;
    forall i | 0 <= i < |s'.items| ensures ItemOk(run, s'.items[i]) {
      assert ItemOk(s.run, s.items[i]);
    }
    hide ItemOk;
    forall i: nat ensures MessageOk(s', i) && PendingOk(s', i) {
      assert MessageOk(s, i) && PendingOk(s, i);
    }
    forall i | 0 <= i < |s'.items| && s'.items[i].status.Queued?
      ensures s'.queue[i] == 1 || HasClaim(s', i)
    {
      StillCarried(s, s', i);
    }
  }

  /** A worker that has given its item up moves on. */
  lemma GivenUpKeeps(c: Config, s: State, w: nat, p: Phase)
    requires Inv(c, s) && Busy(s, w) && GaveUp(s.workers[w])
    requires p.Idle? || (GaveUp(p) && p.item == s.workers[w].item)
    ensures Inv(c, At(s, w, p))
  {
    var s' := At(s, w, p);
    hide ItemOk;
    forall i: nat ensures MessageOk(s', i) && PendingOk(s', i) {
      assert MessageOk(s, i) && PendingOk(s, i);
    }
    forall i | 0 <= i < |s'.items| && s'.items[i].status.Queued?
      ensures s'.queue[i] == 1 || HasClaim(s', i)
    {
      StillCarried(s, s', i);
    }
  }

  /** The completion check and the acknowledgement: no item row is written. */
  lemma ReleaseKeeps(c: Config, s: State, w: nat)
    requires Inv(c, s) && Enabled(c, s, Advance(w)) && (s.workers[w].CompleteCheck? || s.workers[w].Acknowledge?)
    ensures Inv(c, Apply(c, s, Advance(w)))
  {
    var p := s.workers[w];
    var p' := if p.CompleteCheck? then Acknowledge(p.item, p.deadLettered) else Idle;
    var run := if p.CompleteCheck? then MaybeComplete(s.run, s.items) else s.run;
    assert PhaseOk(c, s.run, s.items[p.item], p);
    RunStepKeeps(c, s, run);
    var s1 := s.(run := run);
    if GaveUp(p) {
      hide Inv;
      GivenUpKeeps(c, s1, w, p');
    } else {
      hide Inv;
      PhaseStep(c, s1, w, p');
    }
  }

  lemma CrashKeeps(c: Config, s: State, w: nat)
    requires Inv(c, s) && Enabled(c, s, Crash(w)) && SingleMessage(c.faults)
    ensures Inv(c, Apply(c, s, Crash(w)))
  {
    var s' := Apply(c, s, Crash(w));
    var i := s.workers[w].item;
    assert Holds(s.workers[w], i);
    assert ItemOk(s.run, s.items[i]);
    forall j: nat ensures MessageOk(s', j) && PendingOk(s', j) {
      assert MessageOk(s, j) && PendingOk(s, j);
    }
    forall j | 0 <= j < |s'.items| && s'.items[j].status.Queued?
      ensures s'.queue[j] == 1 || HasClaim(s', j)
    {
      assert MessageOk(s', j);
      if j != i && s.queue[j] != 1 {
        var v :| 0 <= v < |s.workers| && Claims(s.workers[v], j);
        assert s'.workers[v] == s.workers[v];
      }
    }
  }

  /** A replay request reads its item, and no other request is about to write it. */
  lemma ReplayReadKeeps(c: Config, s: State, i: nat)
    requires Inv(c, s) && i < |s.items| && s.items[i].status.DeadLettered? && i !in s.pending
    ensures Inv(c, s.(pending := s.pending + multiset{i}))
  {
    var s' := s.(pending := s.pending + multiset{i});
    forall j: nat ensures PendingOk(s', j) && MessageOk(s', j) {
      assert PendingOk(s, j) && MessageOk(s, j);
    }
    forall j | 0 <= j < |s'.items| && s'.items[j].status.Queued?
      ensures s'.queue[j] == 1 || HasClaim(s', j)
    {
      StillCarried(s, s', j);
    }
  }

  lemma RequeueKeeps(c: Config, s: State, i: nat)
    requires Inv(c, s) && i in s.pending && !s.run.status.Failed?
    requires i < |s.items| && s.items[i].status.DeadLettered?
    ensures Inv(c, SetItem(s, i, Requeue(s.items[i])).(queue := s.queue + multiset{i}, pending := s.pending - multiset{i}))
  {
    var s' := SetItem(s, i, Requeue(s.items[i])).(queue := s.queue + multiset{i}, pending := s.pending - multiset{i});
    RequeueMessages(c, s, i);
    NobodyHolds(c, s, i);
    hide MessagesOk, ReplaysOk, QueuedCarried, Recorded, Unrecorded;
    assert ItemOk(s.run, s.items[i]);
    assert LedgerOk(s') by {
      SumUpdate(s.items, i, Requeue(s.items[i]), CostOf);
      SumUpdate(s.items, i, Requeue(s.items[i]), TokensOf);
    }
  }

  lemma RequeueMessages(c: Config, s: State, i: nat)
    requires Inv(c, s) && i in s.pending
    requires i < |s.items| && s.items[i].status.DeadLettered?
    ensures var s' := SetItem(s, i, Requeue(s.items[i])).(queue := s.queue + multiset{i}, pending := s.pending - multiset{i});
            MessagesOk(s') && ReplaysOk(s') && QueuedCarried(s')
  {
    var s' := SetItem(s, i, Requeue(s.items[i])).(queue := s.queue + multiset{i}, pending := s.pending - multiset{i});
    NobodyHolds(c, s, i);
    hide LedgerOk, ItemsOk, WorkersOk, HoldersUnique;
    forall j: nat ensures MessageOk(s', j) && PendingOk(s', j) {
      assert MessageOk(s, j) && PendingOk(s, j);
    }
    forall j | 0 <= j < |s'.items| && s'.items[j].status.Queued?
      ensures s'.queue[j] == 1 || HasClaim(s', j)
    {
      assert MessageOk(s, j);
      if j != i {
        StillCarried(s, s', j);
      }
    }
  }

  /** The write of a replay finds the item still dead-lettered, and keeps the
      invariant even when it reopens an aborted run or finds a cancelled one. */
  lemma ReplayWriteKeeps(c: Config, s: State, i: nat)
    requires Inv(c, s) && i in s.pending
    ensures i < |s.items| && s.items[i].status.DeadLettered? && Inv(c, ReplayItem(s, i))
  {
    assert PendingOk(s, i);
    RunStepKeeps(c, s, Reopen(s.run));
    hide Inv;
    RequeueKeeps(c, s.(run := Reopen(s.run)), i);
  }

  /** Every step keeps the invariant, crashes included, as long as no worker
      crashes between dead-lettering its item and acknowledging its message and
      no two replays of an item overlap. */
  lemma StepKeepsInv(c: Config, s: State, a: Action)
    requires Inv(c, s) && Enabled(c, s, a) && SingleMessage(c.faults)
    ensures Inv(c, Apply(c, s, a))
  {
    match a {
      case Deliver(w, i) => DeliverKeeps(c, s, w, i);
      case CallProvider(w, outcome) => CallKeeps(c, s, w, outcome);
      case Judge(w, report) => JudgeKeeps(c, s, w, report);
      case Advance(w) =>
        if s.workers[w].AbortCheck? {
          AbortCheckKeeps(c, s, w);
        } else if s.workers[w].CompleteCheck? || s.workers[w].Acknowledge? {
          ReleaseKeeps(c, s, w);
        } else {
          RowWriteKeeps(c, s, w);
        }
      case Crash(w) => CrashKeeps(c, s, w);
      case ReplayRead(i) => ReplayReadKeeps(c, s, i);
      case ReplayWrite(i) => ReplayWriteKeeps(c, s, i);
      case Cancel => SweepKeeps(c, s, s.run.(status := Cancelled), RunCancelled);
      case Claim(_, _) => BookStep(c, s, Apply(c, s, a).book);
      case Resolve(_, _, _) => BookStep(c, s, Apply(c, s, a).book);
    }
  }

  lemma {:induction false} RunKeepsInv(c: Config, s: State, tr: seq<Action>)
    requires Inv(c, s) && IsRun(c, s, tr) && SingleMessage(c.faults)
    ensures Inv(c, End(c, s, tr))
    decreases |tr|
  {
    hide Apply, Enabled, Inv;
    if tr != [] {
      RunKeepsInv(c, s, Front(tr));
      StepKeepsInv(c, End(c, s, Front(tr)), Last(tr));
    }
  }

  // ----- why unguarded writes are safe -----

  /** The step is worker w's own. */
  predicate By(a: Action, w: nat) {
    match a
    case Deliver(v, _) => v == w
    case CallProvider(v, _) => v == w
    case Judge(v, _) => v == w
    case Advance(v) => v == w
    case Crash(v) => v == w
    case _ => false
  }

  lemma AdvanceIsLocal(c: Config, s: State, v: nat)
    requires Enabled(c, s, Advance(v))
    ensures var s' := AdvanceWorker(c, s, v);
            && |s'.workers| == |s.workers| && |s'.items| == |s.items|
            && (forall w :: 0 <= w < |s.workers| && w != v ==> s'.workers[w] == s.workers[w])
            && (forall i :: 0 <= i < |s.items| ==> s'.items[i].model == s.items[i].model)
  {
    hide Price;
  }

  lemma SizesAreKept(c: Config, s: State, a: Action)
    requires Enabled(c, s, a)
    ensures |Apply(c, s, a).workers| == |s.workers| && |Apply(c, s, a).items| == |s.items|
  {
    hide AdvanceWorker, Price, Snapshot, AfterCall;
    if a.Advance? {
      AdvanceIsLocal(c, s, a.worker);
    }
  }

  lemma PhaseIsPrivate(c: Config, s: State, a: Action, w: nat)
    requires Enabled(c, s, a) && !By(a, w) && w < |s.workers|
    ensures var s' := Apply(c, s, a);
            |s'.workers| == |s.workers| && |s'.items| == |s.items| && s'.workers[w] == s.workers[w]
  {
    hide AdvanceWorker, Price, Snapshot, AfterCall, MarkRunning, SweepQueued, Reopen, Requeue;
    SizesAreKept(c, s, a);
    match a {
      case Advance(v) => AdvanceIsLocal(c, s, v);
      case _ =>
    }
  }

  lemma AdvanceIsPrivate(c: Config, s: State, v: nat, w: nat, i: nat)
    requires Inv(c, s) && Enabled(c, s, Advance(v)) && v != w && w < |s.workers|
    requires i < |s.items| && Holds(s.workers[w], i) && !s.items[i].status.Queued?
    ensures i < |Apply(c, s, Advance(v)).items| && Apply(c, s, Advance(v)).items[i] == s.items[i]
  {
    assert !SameItem(s.workers[v], s.workers[w]);
    hide Inv;
  }

  /** Row isolation: while a worker holds an item that is no longer queued,
      nobody else's step writes the item's row. */
  lemma HeldRowIsPrivate(c: Config, s: State, a: Action, w: nat, i: nat)
    requires Inv(c, s) && Enabled(c, s, a) && !By(a, w) && w < |s.workers|
    requires i < |s.items| && Holds(s.workers[w], i) && !s.items[i].status.Queued?
    ensures i < |Apply(c, s, a).items| && Apply(c, s, a).items[i] == s.items[i]
  {
    if a.Advance? {
      AdvanceIsPrivate(c, s, a.worker, w, i);
    } else {
      assert !s.items[i].status.DeadLettered? by {
        assert PhaseOk(c, s.run, s.items[i], s.workers[w]);
      }
      assert a.CallProvider? ==> !SameItem(s.workers[a.worker], s.workers[w]);
      hide Inv;
    }
  }
}
