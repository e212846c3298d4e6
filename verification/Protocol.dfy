/** The run-item execution protocol: app/workers/execute.py together with the
    API handlers that write the same rows (create, cancel, replay).

    One eval run is a run row, its item rows, the grade and review tables, a bag
    of queued messages and a pool of workers. Each database transaction is one
    step; a provider or judge call is an oracle answer carried by the step that
    precedes it. A replay is two steps, the read that checks the item and the
    guarded write with its commit and enqueue; any other API handler is one.
    Steps of different workers and handlers interleave freely. */
module Protocol {
  import opened Options
  import opened Sums
  import Pricing
  import G = Grading
  import Q = ReviewQueue

  // ----- rows -----

  datatype RunStatus = Pending | Running | Completed | Failed | Cancelled

  datatype ItemStatus = Queued | Running | Succeeded | Failed | DeadLettered

  datatype ItemError = ProviderError | RetriesExhausted | RunCancelled | RunAborted | SpendLimit | GradingError

  /** error is set by the spend-limit abort alone. */
  datatype Run = Run(status: RunStatus, totalCost: int, totalTokens: int, error: bool)

  /** cost is in micro-dollars; model is the endpoint's provider model id. */
  datatype Item = Item(task: nat, endpoint: nat, model: string, status: ItemStatus, attempts: nat,
                       latency: Option<nat>, promptTokens: Option<nat>, completionTokens: Option<nat>,
                       cost: Option<nat>, error: Option<ItemError>)

  datatype Completion = Completion(promptTokens: nat, completionTokens: nat, latency: nat)

  datatype Outcome = Ok(result: Completion) | Retryable | NonRetryable

  /** Where a worker stands in execute_run_item: the transaction it does next,
      and the local variables that later code reads. */
  datatype Phase =
    | Idle
    | CancelWrite(item: nat)
    | AbortWrite(item: nat)
    | Attempt(item: nat, attempt: nat, prevCost: int, prevTokens: int)
    | CancelCheck(item: nat, prevCost: int, prevTokens: int, result: Completion)
    | Finalise(item: nat, prevCost: int, prevTokens: int, result: Completion)
    | AbortCheck(item: nat)
    | Grading(item: nat)
    | Judging(item: nat)
    | GradingFailed(item: nat)
    | ProviderFailed(item: nat)
    | Exhausted(item: nat)
    | CompleteCheck(item: nat, deadLettered: bool)
    | Acknowledge(item: nat, deadLettered: bool)

  /** pending: replay requests that have read their item and not yet written. */
  datatype State = State(run: Run, items: seq<Item>, book: G.Book, queue: multiset<nat>, workers: seq<Phase>,
                         pending: multiset<nat>)

  /** Where a worker may crash: before which transaction, or before the
      acknowledgement. Late points are those after dead-lettering the item. */
  datatype Point =
    | BeforeCancelWrite
    | BeforeAbortWrite
    | BeforeFirstAttempt
    | BeforeLaterAttempt
    | BeforeCancelCheck
    | BeforeFinalise
    | BeforeAbortCheck
    | BeforeGrading
    | BeforeJudging
    | BeforeGradingFailure
    | BeforeProviderFailure
    | BeforeDeadLetter
    | BeforeCompletion
    | BeforeAcknowledge
    | LateCompletion
    | LateAcknowledge

  function PointOf(p: Phase): Point
    requires !p.Idle?
  {
    match p
    case CancelWrite(_) => BeforeCancelWrite
    case AbortWrite(_) => BeforeAbortWrite
    case Attempt(_, k, _, _) => if k == 1 then BeforeFirstAttempt else BeforeLaterAttempt
    case CancelCheck(_, _, _, _) => BeforeCancelCheck
    case Finalise(_, _, _, _) => BeforeFinalise
    case AbortCheck(_) => BeforeAbortCheck
    case Grading(_) => BeforeGrading
    case Judging(_) => BeforeJudging
    case GradingFailed(_) => BeforeGradingFailure
    case ProviderFailed(_) => BeforeProviderFailure
    case Exhausted(_) => BeforeDeadLetter
    case CompleteCheck(_, late) => if late then LateCompletion else BeforeCompletion
    case Acknowledge(_, late) => if late then LateAcknowledge else BeforeAcknowledge
  }

  /** What an environment may do: where workers crash, whether a replay request
      may read an item that another one is about to write, whether a cancel or
      an abort may fall between a replay's read and its write. */
  datatype Faults = Faults(crashIn: set<Point>, overlappingReplays: bool, cancelDuringReplay: bool, replayAborted: bool)

  /** No crash after dead-lettering, and no overlapping replays. */
  predicate SingleMessage(f: Faults) {
    LateCompletion !in f.crashIn && LateAcknowledge !in f.crashIn && !f.overlappingReplays
  }

  datatype Config = Config(maxAttempts: nat, spendLimit: int, grading: G.Settings, faults: Faults)

  // ----- transactions -----

  function MarkRunning(it: Item): Item {
    it.(status := ItemStatus.Running, attempts := it.attempts + 1)
  }

  function MarkFailed(it: Item, error: ItemError): Item {
    it.(status := ItemStatus.Failed, error := Some(error))
  }

  function MarkDeadLettered(it: Item): Item {
    it.(status := DeadLettered, error := Some(RetriesExhausted))
  }

  /** WHERE status <> 'succeeded'. */
  function MarkCancelled(it: Item): Item {
    if it.status.Succeeded? then it else MarkFailed(it, RunCancelled)
  }

  function MarkSucceeded(it: Item, result: Completion, cost: nat): Item {
    it.(status := Succeeded, latency := Some(result.latency), promptTokens := Some(result.promptTokens),
        completionTokens := Some(result.completionTokens), cost := Some(cost), error := None)
  }

  function Rollup(run: Run, deltaCost: int, deltaTokens: int): Run {
    run.(totalCost := run.totalCost + deltaCost, totalTokens := run.totalTokens + deltaTokens)
  }

  /** UPDATE run_item SET status='failed' WHERE status='queued'. */
  function SweepQueued(items: seq<Item>, error: ItemError): (swept: seq<Item>)
    ensures |swept| == |items|
    ensures forall i :: 0 <= i < |items| ==>
              swept[i] == if items[i].status.Queued? then MarkFailed(items[i], error) else items[i]
  {
    seq(|items|, i requires 0 <= i < |items| =>
      if items[i].status.Queued? then MarkFailed(items[i], error) else items[i])
  }

  predicate OverBudget(run: Run, limit: int) {
    run.status.Running? && run.totalCost > limit
  }

  function Abort(run: Run): Run {
    run.(status := RunStatus.Failed, error := true)
  }

  predicate Unfinished(it: Item) {
    it.status.Queued? || it.status.Running?
  }

  predicate AnyUnfinished(items: seq<Item>) {
    exists i :: 0 <= i < |items| && Unfinished(items[i])
  }

  predicate AnyDeadLettered(items: seq<Item>) {
    exists i :: 0 <= i < |items| && items[i].status.DeadLettered?
  }

  function MaybeComplete(run: Run, items: seq<Item>): Run {
    if AnyUnfinished(items) || !run.status.Running? then run
    else if AnyDeadLettered(items) then run.(status := RunStatus.Failed)
    else run.(status := Completed)
  }

  function Requeue(it: Item): Item {
    it.(status := Queued, error := None)
  }

  function Reopen(run: Run): Run {
    if run.status.Failed? then run.(status := RunStatus.Running, error := false) else run
  }

  function CostOf(it: Item): int {
    it.cost.GetOr(0)
  }

  function TokensOf(it: Item): int {
    it.promptTokens.GetOr(0) + it.completionTokens.GetOr(0)
  }

  function Price(it: Item, result: Completion): nat {
    Pricing.ComputeCost(it.model, result.promptTokens, result.completionTokens)
  }

  // ----- the worker -----

  /** The snapshot read and the branches it decides. */
  function Snapshot(c: Config, run: Run, it: Item, i: nat): Phase {
    if run.status.Cancelled? then CancelWrite(i)
    else if run.status.Failed? then AbortWrite(i)
    else if it.status.Queued? || it.status.DeadLettered? then
      NextAttempt(c, i, 1, CostOf(it), TokensOf(it))
    else Acknowledge(i, false)
  }

  /** The retry loop's head. */
  function NextAttempt(c: Config, i: nat, attempt: nat, prevCost: int, prevTokens: int): Phase {
    if attempt <= c.maxAttempts then Attempt(i, attempt, prevCost, prevTokens) else Exhausted(i)
  }

  function AfterCall(c: Config, p: Phase, outcome: Outcome): Phase
    requires p.Attempt?
  {
    match outcome
    case Ok(result) => CancelCheck(p.item, p.prevCost, p.prevTokens, result)
    case Retryable => NextAttempt(c, p.item, p.attempt + 1, p.prevCost, p.prevTokens)
    case NonRetryable => ProviderFailed(p.item)
  }

  function At(s: State, w: nat, p: Phase): State
    requires w < |s.workers|
  {
    s.(workers := s.workers[w := p])
  }

  function SetItem(s: State, i: nat, it: Item): State
    requires i < |s.items|
  {
    s.(items := s.items[i := it])
  }

  /** The transaction a busy worker does next, when no oracle decides it. */
  function AdvanceWorker(c: Config, s: State, w: nat): State
    requires w < |s.workers| && !s.workers[w].Idle? && s.workers[w].item < |s.items|
  {
    var p := s.workers[w];
    var i := p.item;
    var it := s.items[i];
    match p
    case CancelWrite(_) => At(SetItem(s, i, MarkCancelled(it)), w, Acknowledge(i, false))
    case AbortWrite(_) => At(SetItem(s, i, MarkFailed(it, RunAborted)), w, Acknowledge(i, false))
    case CancelCheck(_, prevCost, prevTokens, result) =>
      if s.run.status.Cancelled? then At(s, w, CancelWrite(i))
      else At(s, w, Finalise(i, prevCost, prevTokens, result))
    case Finalise(_, prevCost, prevTokens, result) =>
      if it.status.Running? then
        var cost := Price(it, result);
        var tokens := result.promptTokens + result.completionTokens;
        At(SetItem(s, i, MarkSucceeded(it, result, cost)), w, AbortCheck(i))
          .(run := Rollup(s.run, cost - prevCost, tokens - prevTokens))
      else At(s, w, Acknowledge(i, false))
    case AbortCheck(_) =>
      if OverBudget(s.run, c.spendLimit) then
        At(s, w, Acknowledge(i, false)).(run := Abort(s.run), items := SweepQueued(s.items, SpendLimit))
      else At(s, w, Grading(i))
    case Grading(_) =>
      At(s, w, if G.GradesOf(s.book, i) != [] then CompleteCheck(i, false) else Judging(i))
    case GradingFailed(_) => At(SetItem(s, i, MarkFailed(it, GradingError)), w, CompleteCheck(i, false))
    case ProviderFailed(_) => At(SetItem(s, i, MarkFailed(it, ProviderError)), w, CompleteCheck(i, false))
    case Exhausted(_) => At(SetItem(s, i, MarkDeadLettered(it)), w, CompleteCheck(i, true))
    case CompleteCheck(_, late) => At(s, w, Acknowledge(i, late)).(run := MaybeComplete(s.run, s.items))
    case Acknowledge(_, _) => At(s, w, Idle)
    case _ => s
  }

  // ----- steps -----

  datatype Action =
    | Deliver(worker: nat, msg: nat)
    | CallProvider(worker: nat, outcome: Outcome)
    | Judge(worker: nat, report: G.Report)
    | Advance(worker: nat)
    | Crash(worker: nat)
    | ReplayRead(msg: nat)
    | ReplayWrite(msg: nat)
    | Cancel
    | Claim(review: nat, now: nat)
    | Resolve(review: nat, verdict: G.UnitRatio, now: nat)

  predicate Busy(s: State, w: nat) {
    w < |s.workers| && !s.workers[w].Idle? && s.workers[w].item < |s.items|
  }

  predicate Enabled(c: Config, s: State, a: Action) {
    match a
    case Deliver(w, i) => w < |s.workers| && s.workers[w].Idle? && i < |s.items| && i in s.queue
    case CallProvider(w, _) => Busy(s, w) && s.workers[w].Attempt?
    case Judge(w, _) => Busy(s, w) && s.workers[w].Judging?
    case Advance(w) => Busy(s, w) && !s.workers[w].Attempt? && !s.workers[w].Judging?
    case Crash(w) => Busy(s, w) && PointOf(s.workers[w]) in c.faults.crashIn
    case ReplayRead(i) =>
      && i < |s.items| && s.items[i].status.DeadLettered? && !s.run.status.Cancelled?
      && (i in s.pending ==> c.faults.overlappingReplays)
    case ReplayWrite(i) => i < |s.items| && i in s.pending && (s.run.error ==> c.faults.replayAborted)
    case Cancel =>
      && (s.run.status.Pending? || s.run.status.Running?)
      && (s.pending != multiset{} ==> c.faults.cancelDuringReplay)
    case Claim(r, _) => r < |s.book.reviews| && s.book.reviews[r].status.Open?
    case Resolve(r, _, _) => r < |s.book.reviews| && s.book.reviews[r].status.Claimed?
  }

  /** The second half of a replay: the item is requeued if it is still
      dead-lettered, a failed run is reopened, and a message is sent anyway. */
  function ReplayItem(s: State, i: nat): State
    requires i < |s.items|
  {
    SetItem(s, i, if s.items[i].status.DeadLettered? then Requeue(s.items[i]) else s.items[i])
      .(run := Reopen(s.run), queue := s.queue + multiset{i}, pending := s.pending - multiset{i})
  }

  /** A crashed worker's message goes back to the queue (late acknowledgement). */
  function Apply(c: Config, s: State, a: Action): State
    requires Enabled(c, s, a)
  {
    match a
    case Deliver(w, i) => At(s, w, Snapshot(c, s.run, s.items[i], i)).(queue := s.queue - multiset{i})
    case CallProvider(w, outcome) =>
      var p := s.workers[w];
      At(SetItem(s, p.item, MarkRunning(s.items[p.item])), w, AfterCall(c, p, outcome))
    case Judge(w, report) =>
      var i := s.workers[w].item;
      if report.judge.JudgeError? then At(s, w, GradingFailed(i))
      else At(s, w, CompleteCheck(i, false)).(book := G.CommitGrades(c.grading, s.book, i, report))
    case Advance(w) => AdvanceWorker(c, s, w)
    case Crash(w) => At(s, w, Idle).(queue := s.queue + multiset{s.workers[w].item})
    case ReplayRead(i) => s.(pending := s.pending + multiset{i})
    case ReplayWrite(i) => ReplayItem(s, i)
    case Cancel => s.(run := s.run.(status := Cancelled), items := SweepQueued(s.items, RunCancelled))
    case Claim(r, now) =>
      s.(book := s.book.(reviews := s.book.reviews[r := Q.ClaimReview(s.book.reviews[r], now)]))
    case Resolve(r, verdict, now) =>
      s.(book := s.book.(reviews := s.book.reviews[r := Q.ResolveReview(s.book.reviews[r], verdict, now)]))
  }

  // ----- runs -----

  /** The state create_eval_run leaves: items queued, one message each. */
  function FreshItem(it: Item): Item {
    it.(status := Queued, attempts := 0, latency := None, promptTokens := None, completionTokens := None,
        cost := None, error := None)
  }

  /** One message for each of n items. */
  function Messages(n: nat): (queue: multiset<nat>)
    ensures |queue| == n
    ensures forall i: nat :: queue[i] == if i < n then 1 else 0
  {
    if n == 0 then multiset{} else Messages(n - 1) + multiset{n - 1}
  }

  predicate Initial(s: State) {
    && s.run == Run(if s.items == [] then Completed else RunStatus.Running, 0, 0, false)
    && (forall i :: 0 <= i < |s.items| ==> s.items[i] == FreshItem(s.items[i]))
    && s.queue == Messages(|s.items|)
    && (forall w :: 0 <= w < |s.workers| ==> s.workers[w].Idle?)
    && s.book == G.Book([], []) && s.pending == multiset{}
  }

  function Last(tr: seq<Action>): Action
    requires tr != []
  {
    tr[|tr| - 1]
  }

  function Front(tr: seq<Action>): seq<Action>
    requires tr != []
  {
    tr[..|tr| - 1]
  }

  /** tr is a run from s: each action is enabled where it happens. */
  predicate IsRun(c: Config, s: State, tr: seq<Action>)
    decreases |tr|, 0
  {
    tr == [] || (IsRun(c, s, Front(tr)) && Enabled(c, End(c, s, Front(tr)), Last(tr)))
  }

  /** Where the run ends. */
  function End(c: Config, s: State, tr: seq<Action>): State
    requires IsRun(c, s, tr)
    decreases |tr|, 1
  {
    if tr == [] then s else Apply(c, End(c, s, Front(tr)), Last(tr))
  }

  lemma {:induction false} RunsCompose(c: Config, s: State, tr: seq<Action>, more: seq<Action>)
    requires IsRun(c, s, tr) && IsRun(c, End(c, s, tr), more)
    ensures IsRun(c, s, tr + more) && End(c, s, tr + more) == End(c, End(c, s, tr), more)
    decreases |more|
  {
    hide Apply, Enabled;
    if more == [] {
      assert tr + more == tr;
    } else {
      RunsCompose(c, s, tr, Front(more));
      var all := tr + more;
      assert Front(all) == tr + Front(more) && Last(all) == Last(more);
      assert End(c, s, Front(all)) == End(c, End(c, s, tr), Front(more));
      assert IsRun(c, s, all);
    }
  }

  /** One more step of a run. */
  lemma Extend(c: Config, s: State, tr: seq<Action>, a: Action)
    requires IsRun(c, s, tr) && Enabled(c, End(c, s, tr), a)
    ensures IsRun(c, s, tr + [a]) && End(c, s, tr + [a]) == Apply(c, End(c, s, tr), a)
  {
    hide Apply, Enabled;
    var all := tr + [a];
    assert Front(all) == tr && Last(all) == a;
  }

  /** Some run leads from s to t. */
  ghost predicate Leads(c: Config, s: State, t: State) {
    exists tr :: IsRun(c, s, tr) && End(c, s, tr) == t
  }

  lemma Begin(c: Config, s: State)
    ensures Leads(c, s, s)
  {
    assert IsRun(c, s, []) && End(c, s, []) == s;
  }

  lemma Step(c: Config, s0: State, s: State, a: Action)
    requires Leads(c, s0, s) && Enabled(c, s, a)
    ensures Leads(c, s0, Apply(c, s, a))
  {
    hide Apply, Enabled;
    var tr :| IsRun(c, s0, tr) && End(c, s0, tr) == s;
    Extend(c, s0, tr, a);
  }

  lemma LeadsOn(c: Config, s: State, t: State, u: State)
    requires Leads(c, s, t) && Leads(c, t, u)
    ensures Leads(c, s, u)
  {
    hide Apply, Enabled;
    var tr :| IsRun(c, s, tr) && End(c, s, tr) == t;
    var more :| IsRun(c, t, more) && End(c, t, more) == u;
    RunsCompose(c, s, tr, more);
  }
}
