/** Building concrete runs: stretches of a run, and an execution stopped at any
    point. Every completion costs 2500 micro-dollars. */
module Traces {
  import opened Options
  import opened Sums
  import opened Protocol
  import opened Safety
  import Spend
  import G = Grading

  // ----- rows -----

  function QueuedItem(): Item {
    Item(0, 0, "gpt-4o", Queued, 0, None, None, None, None, None)
  }

  /** 1000 prompt tokens of gpt-4o. */
  function Answer(): Completion {
    Completion(1000, 0, 5)
  }

  function RunningItem(): Item {
    MarkRunning(QueuedItem())
  }

  function AnsweredItem(it: Item): Item {
    MarkSucceeded(MarkRunning(it), Answer(), 2500)
  }

  function DroppedItem(it: Item): Item {
    MarkDeadLettered(MarkRunning(it))
  }

  function Dropped(): Item {
    DroppedItem(QueuedItem())
  }

  function Done(): Item {
    AnsweredItem(QueuedItem())
  }

  function OpenRun(paid: nat): Run {
    Run(RunStatus.Running, 2500 * paid, 1000 * paid, false)
  }

  function Start(n: nat, workers: nat): State {
    State(if n == 0 then OpenRun(0).(status := Completed) else OpenRun(0), seq(n, _ => QueuedItem()),
          G.Book([], []), Messages(n), seq(workers, _ => Idle), multiset{})
  }

  lemma StartIsInitial(n: nat, workers: nat)
    ensures Initial(Start(n, workers))
  {
  }

  /** The shipped review settings. */
  function Tries(maxAttempts: nat, limit: int, faults: Faults): Config {
    Config(maxAttempts, limit, G.Settings(0.5, 0.4, 0.6), faults)
  }

  // ----- reaching a state -----

  /** A run with r replays whose completions cost at most 2500 leads to s. */
  ghost predicate Reaches(c: Config, s0: State, s: State, r: nat) {
    exists tr :: IsRun(c, s0, tr) && End(c, s0, tr) == s && Spend.CallsWithin(c, s0, tr, 2500) && Spend.Replays(tr) == r
  }

  lemma ReachesLeads(c: Config, s0: State, s: State, r: nat)
    requires Reaches(c, s0, s, r)
    ensures Leads(c, s0, s)
  {
    hide Apply, Enabled;
  }

  lemma Stay(c: Config, s0: State)
    ensures Reaches(c, s0, s0, 0)
  {
    var tr: seq<Action> := [];
    assert IsRun(c, s0, tr) && End(c, s0, tr) == s0 && Spend.CallsWithin(c, s0, tr, 2500) && Spend.Replays(tr) == 0;
  }

  lemma Go(c: Config, s0: State, s: State, a: Action, r: nat)
    requires Reaches(c, s0, s, r) && Enabled(c, s, a) && Spend.CallWithin(s, a, 2500)
    ensures Reaches(c, s0, Apply(c, s, a), r + if a.ReplayWrite? then 1 else 0)
  {
    hide Apply, Enabled, Spend.CallWithin;
    var tr :| IsRun(c, s0, tr) && End(c, s0, tr) == s && Spend.CallsWithin(c, s0, tr, 2500) && Spend.Replays(tr) == r;
    Extend(c, s0, tr, a);
    assert Front(tr + [a]) == tr && Last(tr + [a]) == a;
    assert Spend.CallsWithin(c, s0, tr + [a], 2500);
  }

  // ----- stretches of a run -----

  function Taken(s: State, w: nat, i: nat): State
    requires w < |s.workers|
  {
    At(s, w, Attempt(i, 1, 0, 0)).(queue := s.queue - multiset{i})
  }

  predicate CanTake(c: Config, s: State, w: nat, i: nat) {
    && c.maxAttempts >= 1 && s.run.status.Running?
    && w < |s.workers| && s.workers[w].Idle? && i < |s.items| && i in s.queue
    && s.items[i].status.Queued? && Unrecorded(s.items[i])
  }

  /** Worker w takes the message of a queued item. */
  lemma Take(c: Config, s0: State, s: State, w: nat, i: nat, r: nat)
    requires Reaches(c, s0, s, r) && CanTake(c, s, w, i)
    ensures Reaches(c, s0, Taken(s, w, i), r)
  {
    hide Reaches;
    Go(c, s0, s, Deliver(w, i), r);
  }

  /** The same for any executable item that has cost nothing so far. */
  lemma TakeAgain(c: Config, s0: State, s: State, w: nat, i: nat, r: nat)
    requires Reaches(c, s0, s, r) && c.maxAttempts >= 1 && s.run.status.Running?
    requires w < |s.workers| && s.workers[w].Idle? && i < |s.items| && i in s.queue
    requires s.items[i].status.Queued? || s.items[i].status.DeadLettered?
    requires CostOf(s.items[i]) == 0 && TokensOf(s.items[i]) == 0
    ensures Reaches(c, s0, Taken(s, w, i), r)
  {
    hide Reaches;
    Go(c, s0, s, Deliver(w, i), r);
  }

  /** The item of worker w written as it, and the worker moved on. */
  function Written(s: State, w: nat, it: Item, p: Phase): State
    requires Busy(s, w)
  {
    At(SetItem(s, s.workers[w].item, it), w, p)
  }

  predicate FirstAttempt(s: State, w: nat) {
    && Busy(s, w) && s.workers[w] == Attempt(s.workers[w].item, 1, 0, 0)
    && s.items[s.workers[w].item].model == "gpt-4o"
  }

  lemma WrittenTwice(s: State, w: nat, it: Item, p: Phase, it': Item, p': Phase)
    requires Busy(s, w) && !p.Idle? && p.item == s.workers[w].item
    ensures Written(Written(s, w, it, p), w, it', p') == Written(s, w, it', p')
  {
    var i := s.workers[w].item;
    assert s.items[i := it][i := it'] == s.items[i := it'];
    assert s.workers[w := p][w := p'] == s.workers[w := p'];
  }

  /** One call that is not answered, and the write it leads to. */
  lemma CallAndWrite(c: Config, s0: State, s: State, w: nat, outcome: Outcome, p: Phase, it: Item, p': Phase, r: nat)
    requires Reaches(c, s0, s, r) && FirstAttempt(s, w) && !outcome.Ok?
    requires p == AfterCall(c, s.workers[w], outcome) && (p.Exhausted? || p.ProviderFailed?)
    requires it == if p.Exhausted? then DroppedItem(s.items[s.workers[w].item])
                   else MarkFailed(MarkRunning(s.items[s.workers[w].item]), ProviderError)
    requires p' == CompleteCheck(s.workers[w].item, p.Exhausted?)
    ensures Reaches(c, s0, Written(s, w, it, p'), r)
  {
    hide Reaches;
    var i := s.workers[w].item;
    Go(c, s0, s, CallProvider(w, outcome), r);
    var s1 := Written(s, w, MarkRunning(s.items[i]), p);
    assert Apply(c, s, CallProvider(w, outcome)) == s1;
    Go(c, s0, s1, Advance(w), r);
    WrittenTwice(s, w, MarkRunning(s.items[i]), p, it, p');
  }

  /** The only call fails in a retryable way, and the item is dead-lettered. */
  lemma Drop(c: Config, s0: State, s: State, w: nat, r: nat)
    requires Reaches(c, s0, s, r) && c.maxAttempts == 1 && FirstAttempt(s, w)
    ensures var i := s.workers[w].item;
            Reaches(c, s0, Written(s, w, DroppedItem(s.items[i]), CompleteCheck(i, true)), r)
  {
    hide Reaches;
    var i := s.workers[w].item;
    CallAndWrite(c, s0, s, w, Retryable, Exhausted(i), DroppedItem(s.items[i]), CompleteCheck(i, true), r);
  }

  /** The call fails for good. */
  lemma Reject(c: Config, s0: State, s: State, w: nat, r: nat)
    requires Reaches(c, s0, s, r) && FirstAttempt(s, w)
    ensures var i := s.workers[w].item;
            Reaches(c, s0, Written(s, w, MarkFailed(MarkRunning(s.items[i]), ProviderError), CompleteCheck(i, false)), r)
  {
    hide Reaches;
    var i := s.workers[w].item;
    CallAndWrite(c, s0, s, w, NonRetryable, ProviderFailed(i),
                 MarkFailed(MarkRunning(s.items[i]), ProviderError), CompleteCheck(i, false), r);
  }

  function PriceHere(s: State, w: nat, answer: Completion): nat
    requires Busy(s, w)
  {
    Price(s.items[s.workers[w].item], answer)
  }

  /** The item of worker w answered, finalised and rolled up. */
  function FinishedWith(s: State, w: nat, answer: Completion): State
    requires Busy(s, w)
  {
    var i, cost := s.workers[w].item, PriceHere(s, w, answer);
    Written(s, w, MarkSucceeded(MarkRunning(s.items[i]), answer, cost), AbortCheck(i))
      .(run := Rollup(s.run, cost, answer.promptTokens + answer.completionTokens))
  }

  lemma FinishWith(c: Config, s0: State, s: State, w: nat, answer: Completion, r: nat)
    requires Reaches(c, s0, s, r) && FirstAttempt(s, w) && !s.run.status.Cancelled? && PriceHere(s, w, answer) <= 2500
    ensures Reaches(c, s0, FinishedWith(s, w, answer), r)
  {
    hide Reaches, Price;
    var i := s.workers[w].item;
    var it, done := MarkRunning(s.items[i]), MarkSucceeded(MarkRunning(s.items[i]), answer, PriceHere(s, w, answer));
    var p1, p2 := CancelCheck(i, 0, 0, answer), Finalise(i, 0, 0, answer);
    assert Price(it, answer) == Price(s.items[i], answer) by {
      SamePrice(s.items[i], it, answer);
    }
    Go(c, s0, s, CallProvider(w, Ok(answer)), r);
    assert Apply(c, s, CallProvider(w, Ok(answer))) == Written(s, w, it, p1);
    Go(c, s0, Written(s, w, it, p1), Advance(w), r);
    WrittenTwice(s, w, it, p1, it, p2);
    assert Apply(c, Written(s, w, it, p1), Advance(w)) == Written(s, w, it, p2);
    Go(c, s0, Written(s, w, it, p2), Advance(w), r);
    WrittenTwice(s, w, it, p2, done, AbortCheck(i));
  }

  lemma SamePrice(it: Item, it': Item, answer: Completion)
    requires it.model == it'.model
    ensures Price(it, answer) == Price(it', answer)
  {
  }

  function Finished(s: State, w: nat): State
    requires Busy(s, w)
  {
    var i := s.workers[w].item;
    Written(s, w, AnsweredItem(s.items[i]), AbortCheck(i)).(run := Rollup(s.run, 2500, 1000))
  }

  lemma Finish(c: Config, s0: State, s: State, w: nat, r: nat)
    requires Reaches(c, s0, s, r) && FirstAttempt(s, w) && !s.run.status.Cancelled?
    ensures Reaches(c, s0, Finished(s, w), r)
  {
    hide Reaches;
    assert PriceHere(s, w, Answer()) == 2500;
    FinishWith(c, s0, s, w, Answer(), r);
  }

  /** The completion check and the acknowledgement. */
  lemma Check(c: Config, s0: State, s: State, w: nat, r: nat)
    requires Reaches(c, s0, s, r) && Busy(s, w) && s.workers[w].CompleteCheck?
    ensures Reaches(c, s0, At(s, w, Idle).(run := MaybeComplete(s.run, s.items)), r)
  {
    hide Reaches, MaybeComplete;
    var p := Acknowledge(s.workers[w].item, s.workers[w].deadLettered);
    Go(c, s0, s, Advance(w), r);
    var s1 := At(s, w, p).(run := MaybeComplete(s.run, s.items));
    Go(c, s0, s1, Advance(w), r);
    assert s.workers[w := p][w := Idle] == s.workers[w := Idle];
  }

  /** From an abort check that does not abort, through grading without a grader,
      to the acknowledgement. */
  lemma WalkOff(c: Config, s0: State, s: State, w: nat, r: nat)
    requires Reaches(c, s0, s, r) && Busy(s, w) && s.workers[w].AbortCheck?
    requires !OverBudget(s.run, c.spendLimit) && s.book == G.Book([], [])
    ensures Reaches(c, s0, At(s, w, Idle).(run := MaybeComplete(s.run, s.items)), r)
  {
    hide Reaches, MaybeComplete;
    var i := s.workers[w].item;
    Go(c, s0, s, Advance(w), r);
    var s1 := At(s, w, Protocol.Grading(i));
    assert Apply(c, s, Advance(w)) == s1;
    assert G.GradesOf(s.book, i) == [];
    Go(c, s0, s1, Advance(w), r);
    var s2 := At(s, w, Judging(i));
    assert s1.workers[w := Judging(i)] == s2.workers;
    assert Apply(c, s1, Advance(w)) == s2;
    WalkOffJudging(c, s0, s2, w, r);
    assert s2.workers[w := Idle] == s.workers[w := Idle];
  }

  lemma WalkOffJudging(c: Config, s0: State, s: State, w: nat, r: nat)
    requires Reaches(c, s0, s, r) && Busy(s, w) && s.workers[w].Judging? && s.book == G.Book([], [])
    ensures Reaches(c, s0, At(s, w, Idle).(run := MaybeComplete(s.run, s.items)), r)
  {
    hide Reaches, MaybeComplete;
    var i, report := s.workers[w].item, G.Report(None, G.NoRubric);
    assert G.CommitGrades(c.grading, s.book, i, report) == s.book;
    Go(c, s0, s, Judge(w, report), r);
    var s1 := At(s, w, CompleteCheck(i, false));
    assert Apply(c, s, Judge(w, report)) == s1;
    Check(c, s0, s1, w, r);
    assert s1.workers[w := Idle] == s.workers[w := Idle];
  }

  /** An acknowledgement. */
  lemma Release(c: Config, s0: State, s: State, w: nat, r: nat)
    requires Reaches(c, s0, s, r) && Busy(s, w) && s.workers[w].Acknowledge?
    ensures Reaches(c, s0, At(s, w, Idle), r)
  {
    hide Reaches;
    Go(c, s0, s, Advance(w), r);
  }

  /** The abort and the acknowledgement. */
  lemma AbortRun(c: Config, s0: State, s: State, w: nat, r: nat)
    requires Reaches(c, s0, s, r) && Busy(s, w) && s.workers[w].AbortCheck? && OverBudget(s.run, c.spendLimit)
    ensures Reaches(c, s0, At(s, w, Idle).(run := Abort(s.run), items := SweepQueued(s.items, SpendLimit)), r)
  {
    hide Reaches;
    var p := Acknowledge(s.workers[w].item, false);
    Go(c, s0, s, Advance(w), r);
    var s1 := At(s, w, p).(run := Abort(s.run), items := SweepQueued(s.items, SpendLimit));
    Go(c, s0, s1, Advance(w), r);
    assert s.workers[w := p][w := Idle] == s.workers[w := Idle];
  }

  /** A message that finds its item not executable. */
  lemma Discard(c: Config, s0: State, s: State, w: nat, i: nat, r: nat)
    requires Reaches(c, s0, s, r) && s.run.status.Running?
    requires w < |s.workers| && s.workers[w].Idle? && i < |s.items| && i in s.queue
    requires !s.items[i].status.Queued? && !s.items[i].status.DeadLettered?
    ensures Reaches(c, s0, s.(queue := s.queue - multiset{i}), r)
  {
    hide Reaches;
    Go(c, s0, s, Deliver(w, i), r);
    var s1 := At(s, w, Acknowledge(i, false)).(queue := s.queue - multiset{i});
    Go(c, s0, s1, Advance(w), r);
    assert s.workers[w := Acknowledge(i, false)][w := Idle] == s.workers;
  }

  /** A replay, its read and its write one after the other. */
  lemma ReplayAtOnce(c: Config, s0: State, s: State, i: nat, r: nat)
    requires Reaches(c, s0, s, r) && i < |s.items| && s.items[i].status.DeadLettered? && !s.run.status.Cancelled?
    requires i !in s.pending && (s.run.error ==> c.faults.replayAborted)
    ensures Reaches(c, s0, SetItem(s, i, Requeue(s.items[i])).(run := Reopen(s.run), queue := s.queue + multiset{i}), r + 1)
  {
    hide Reaches;
    Go(c, s0, s, ReplayRead(i), r);
    Go(c, s0, s.(pending := s.pending + multiset{i}), ReplayWrite(i), r);
    assert s.pending + multiset{i} - multiset{i} == s.pending;
  }

  // ----- one item, stopped at any point of its execution -----

  /** Item 0 is it, and a worker of k + 1 executes it in phase p; n more items
      are queued. */
  function Only(n: nat, k: nat, run: Run, it: Item, p: Phase): State {
    State(run, [it] + seq(n, _ => QueuedItem()), G.Book([], []), Messages(n + 1) - multiset{0},
          [p] + seq(k, _ => Idle), multiset{})
  }

  predicate IsStop(point: Point, n: nat) {
    !point.BeforeCancelWrite? && !point.BeforeAbortWrite? && (point.BeforeAcknowledge? ==> n > 0)
  }

  function RunAt(point: Point, n: nat): Run {
    if point.LateAcknowledge? && n == 0 then OpenRun(0).(status := RunStatus.Failed)
    else if Depth(point) <= 2 || point.LateAcknowledge? then OpenRun(0)
    else OpenRun(1)
  }

  function ItemAt(point: Point): Item {
    if point.BeforeFirstAttempt? then QueuedItem()
    else if point.LateCompletion? || point.LateAcknowledge? then DroppedItem(QueuedItem())
    else if Depth(point) <= 2 then RunningItem()
    else AnsweredItem(QueuedItem())
  }

  function PhaseAt(point: Point): Phase {
    match point
    case BeforeCancelWrite => CancelWrite(0)
    case BeforeAbortWrite => AbortWrite(0)
    case BeforeFirstAttempt => Attempt(0, 1, 0, 0)
    case BeforeLaterAttempt => Attempt(0, 2, 0, 0)
    case BeforeDeadLetter => Exhausted(0)
    case BeforeProviderFailure => ProviderFailed(0)
    case BeforeCancelCheck => CancelCheck(0, 0, 0, Answer())
    case BeforeFinalise => Finalise(0, 0, 0, Answer())
    case BeforeAbortCheck => AbortCheck(0)
    case BeforeGrading => Protocol.Grading(0)
    case BeforeJudging => Judging(0)
    case BeforeGradingFailure => GradingFailed(0)
    case BeforeCompletion => CompleteCheck(0, false)
    case BeforeAcknowledge => Acknowledge(0, false)
    case LateCompletion => CompleteCheck(0, true)
    case LateAcknowledge => Acknowledge(0, true)
  }

  function StopAt(point: Point, n: nat, k: nat): State {
    Only(n, k, RunAt(point, n), ItemAt(point), PhaseAt(point))
  }

  /** The point before, and the step from there. */
  function Before(point: Point): (Point, Action)
    requires !point.BeforeFirstAttempt?
  {
    match point
    case BeforeLaterAttempt => (BeforeFirstAttempt, CallProvider(0, Retryable))
    case BeforeDeadLetter => (BeforeFirstAttempt, CallProvider(0, Retryable))
    case BeforeProviderFailure => (BeforeFirstAttempt, CallProvider(0, NonRetryable))
    case BeforeCancelCheck => (BeforeFirstAttempt, CallProvider(0, Ok(Answer())))
    case BeforeFinalise => (BeforeCancelCheck, Advance(0))
    case BeforeAbortCheck => (BeforeFinalise, Advance(0))
    case BeforeGrading => (BeforeAbortCheck, Advance(0))
    case BeforeJudging => (BeforeGrading, Advance(0))
    case BeforeGradingFailure => (BeforeJudging, Judge(0, G.Report(None, G.JudgeError)))
    case BeforeCompletion => (BeforeJudging, Judge(0, G.Report(None, G.NoRubric)))
    case BeforeAcknowledge => (BeforeCompletion, Advance(0))
    case LateCompletion => (BeforeDeadLetter, Advance(0))
    case _ => (LateCompletion, Advance(0))
  }

  function Depth(point: Point): nat {
    match point
    case BeforeFirstAttempt => 0
    case BeforeLaterAttempt => 1
    case BeforeDeadLetter => 1
    case BeforeProviderFailure => 1
    case BeforeCancelCheck => 1
    case BeforeFinalise => 2
    case BeforeAbortCheck => 3
    case BeforeGrading => 4
    case BeforeJudging => 5
    case BeforeGradingFailure => 6
    case BeforeCompletion => 6
    case BeforeAcknowledge => 7
    case LateCompletion => 2
    case _ => 3
  }

  /** A configuration in which the point lies on the way. */
  predicate Visits(c: Config, point: Point) {
    && c.maxAttempts == (if point.BeforeLaterAttempt? then 2 else 1)
    && (3 < Depth(point) ==> c.spendLimit >= 2500)
  }

  lemma OnlyShape(n: nat, k: nat, run: Run, it: Item, p: Phase)
    requires !p.Idle? && p.item == 0
    ensures var s := Only(n, k, run, it, p);
            && Busy(s, 0) && s.workers[0] == p && s.items[0] == it && s.run == run && s.book == G.Book([], [])
            && (n > 0 ==> |s.items| > 1 && s.items[1] == QueuedItem()) && |s.items| == n + 1
  {
  }

  lemma OnlyMoves(n: nat, k: nat, run: Run, it: Item, p: Phase, run': Run, it': Item, p': Phase)
    requires !p.Idle? && p.item == 0
    ensures Busy(Only(n, k, run, it, p), 0)
    ensures At(SetItem(Only(n, k, run, it, p), 0, it'), 0, p').(run := run') == Only(n, k, run', it', p')
    ensures At(SetItem(Only(n, k, run, it, p), 0, it'), 0, p') == Only(n, k, run, it', p')
    ensures At(Only(n, k, run, it, p), 0, p').(run := run') == Only(n, k, run', it, p')
    ensures At(Only(n, k, run, it, p), 0, p') == Only(n, k, run, it, p')
  {
    var s, s' := Only(n, k, run, it, p), Only(n, k, run', it', p');
    assert s.workers[0 := p'] == s'.workers && s.items[0 := it'] == s'.items;
    assert s.items[0 := it] == s.items;
  }

  /** The next transaction of an execution, when it only reads. */
  lemma ReadStep(c: Config, n: nat, k: nat, run: Run, it: Item, p: Phase, p': Phase)
    requires !p.Idle? && p.item == 0
    requires match p
             case CancelCheck(_, cost, tokens, result) => !run.status.Cancelled? && p' == Finalise(0, cost, tokens, result)
             case AbortCheck(_) => !OverBudget(run, c.spendLimit) && p' == Protocol.Grading(0)
             case Grading(_) => p' == Judging(0)
             case _ => false
    ensures var s := Only(n, k, run, it, p);
            Enabled(c, s, Advance(0)) && Apply(c, s, Advance(0)) == Only(n, k, run, it, p')
  {
    OnlyShape(n, k, run, it, p);
    OnlyMoves(n, k, run, it, p, run, it, p');
    assert G.GradesOf(G.Book([], []), 0) == [];
    hide Only;
  }

  lemma WriteStep(c: Config, n: nat, k: nat, run: Run, it: Item, p: Phase, run': Run, it': Item, p': Phase)
    requires !p.Idle? && p.item == 0 && it == RunningItem()
    requires match p
             case Finalise(_, cost, tokens, result) =>
               && result == Answer() && cost == tokens == 0
               && it' == MarkSucceeded(it, result, 2500) && p' == AbortCheck(0) && run' == Rollup(run, 2500, 1000)
             case Exhausted(_) => it' == MarkDeadLettered(it) && p' == CompleteCheck(0, true) && run' == run
             case _ => false
    ensures var s := Only(n, k, run, it, p);
            Enabled(c, s, Advance(0)) && Apply(c, s, Advance(0)) == Only(n, k, run', it', p')
  {
    OnlyShape(n, k, run, it, p);
    OnlyMoves(n, k, run, it, p, run', it', p');
    assert Price(RunningItem(), Answer()) == 2500;
    hide Only, Price;
  }

  lemma CheckStep(c: Config, n: nat, k: nat, run: Run, it: Item, late: bool)
    requires run.status.Running? && !Unfinished(it) && (n > 0 || it.status.DeadLettered?)
    ensures var s, run' := Only(n, k, run, it, CompleteCheck(0, late)), if n > 0 then run else run.(status := RunStatus.Failed);
            Enabled(c, s, Advance(0)) && Apply(c, s, Advance(0)) == Only(n, k, run', it, Acknowledge(0, late))
  {
    var p, run' := CompleteCheck(0, late), if n > 0 then run else run.(status := RunStatus.Failed);
    var s := Only(n, k, run, it, p);
    OnlyShape(n, k, run, it, p);
    OnlyMoves(n, k, run, it, p, run', it, Acknowledge(0, late));
    hide Only;
    assert MaybeComplete(s.run, s.items) == run' by {
      if n > 0 {
        assert Unfinished(s.items[1]);
      } else {
        assert s.items[0].status.DeadLettered?;
      }
    }
    hide MaybeComplete;
  }

  lemma CallStep(c: Config, n: nat, k: nat, outcome: Outcome)
    requires outcome.Ok? ==> outcome.result == Answer()
    ensures var p := Attempt(0, 1, 0, 0);
            var s, a := Only(n, k, OpenRun(0), QueuedItem(), p), CallProvider(0, outcome);
            && Enabled(c, s, a) && Spend.CallWithin(s, a, 2500)
            && Apply(c, s, a) == Only(n, k, OpenRun(0), RunningItem(), AfterCall(c, p, outcome))
  {
    var p := Attempt(0, 1, 0, 0);
    OnlyShape(n, k, OpenRun(0), QueuedItem(), p);
    OnlyMoves(n, k, OpenRun(0), QueuedItem(), p, OpenRun(0), RunningItem(), AfterCall(c, p, outcome));
    assert Price(QueuedItem(), Answer()) == 2500;
    hide Only, Price;
  }

  lemma JudgeStep(c: Config, n: nat, k: nat, it: Item, judge: G.JudgeOutcome)
    requires judge.NoRubric? || judge.JudgeError?
    ensures var s, a := Only(n, k, OpenRun(1), it, Judging(0)), Judge(0, G.Report(None, judge));
            && Enabled(c, s, a)
            && Apply(c, s, a) == Only(n, k, OpenRun(1), it, if judge.JudgeError? then GradingFailed(0) else CompleteCheck(0, false))
  {
    var p := Judging(0);
    var p' := if judge.JudgeError? then GradingFailed(0) else CompleteCheck(0, false);
    var s := Only(n, k, OpenRun(1), it, p);
    OnlyShape(n, k, OpenRun(1), it, p);
    OnlyMoves(n, k, OpenRun(1), it, p, OpenRun(1), it, p');
    hide Only;
    assert judge.NoRubric? ==> G.CommitGrades(c.grading, s.book, 0, G.Report(None, judge)) == s.book;
    assert At(s, 0, p').(book := s.book) == At(s, 0, p');
  }

  /** The step from the point before leads to the point. */
  predicate StepsTo(c: Config, point: Point, n: nat, k: nat)
    requires Depth(point) > 0
  {
    var (prev, a) := Before(point);
    && IsStop(prev, n) && Enabled(c, StopAt(prev, n, k), a) && Spend.CallWithin(StopAt(prev, n, k), a, 2500)
    && Apply(c, StopAt(prev, n, k), a) == StopAt(point, n, k)
  }

  lemma CallStop(c: Config, point: Point, n: nat, k: nat)
    requires IsStop(point, n) && Visits(c, point) && Depth(point) == 1
    ensures StepsTo(c, point, n, k)
  {
    hide Apply, Enabled, Only;
    CallStep(c, n, k, Before(point).1.outcome);
  }

  lemma ReadStop(c: Config, point: Point, n: nat, k: nat)
    requires IsStop(point, n) && Visits(c, point) && (point.BeforeFinalise? || point.BeforeGrading? || point.BeforeJudging?)
    ensures StepsTo(c, point, n, k)
  {
    hide Apply, Enabled, Only;
    if point.BeforeFinalise? {
      ReadStep(c, n, k, OpenRun(0), RunningItem(), CancelCheck(0, 0, 0, Answer()), Finalise(0, 0, 0, Answer()));
    } else if point.BeforeGrading? {
      ReadStep(c, n, k, OpenRun(1), AnsweredItem(QueuedItem()), AbortCheck(0), Protocol.Grading(0));
    } else {
      ReadStep(c, n, k, OpenRun(1), AnsweredItem(QueuedItem()), Protocol.Grading(0), Judging(0));
    }
  }

  lemma FinaliseStop(c: Config, point: Point, n: nat, k: nat)
    requires IsStop(point, n) && Visits(c, point) && point.BeforeAbortCheck?
    ensures StepsTo(c, point, n, k)
  {
    hide Apply, Enabled, Only;
    WriteStep(c, n, k, OpenRun(0), RunningItem(), Finalise(0, 0, 0, Answer()),
              OpenRun(1), AnsweredItem(QueuedItem()), AbortCheck(0));
  }

  lemma DeadLetterStop(c: Config, point: Point, n: nat, k: nat)
    requires IsStop(point, n) && Visits(c, point) && point.LateCompletion?
    ensures StepsTo(c, point, n, k)
  {
    hide Apply, Enabled, Only;
    WriteStep(c, n, k, OpenRun(0), RunningItem(), Exhausted(0),
              OpenRun(0), DroppedItem(QueuedItem()), CompleteCheck(0, true));
  }

  lemma JudgeStop(c: Config, point: Point, n: nat, k: nat)
    requires IsStop(point, n) && Visits(c, point) && Depth(point) == 6
    ensures StepsTo(c, point, n, k)
  {
    hide Apply, Enabled, Only;
    JudgeStep(c, n, k, AnsweredItem(QueuedItem()), Before(point).1.report.judge);
  }

  lemma CheckStop(c: Config, point: Point, n: nat, k: nat)
    requires IsStop(point, n) && Visits(c, point) && (point.BeforeAcknowledge? || point.LateAcknowledge?)
    ensures StepsTo(c, point, n, k)
  {
    hide Apply, Enabled, Only;
    if point.BeforeAcknowledge? {
      CheckStep(c, n, k, OpenRun(1), AnsweredItem(QueuedItem()), false);
    } else {
      CheckStep(c, n, k, OpenRun(0), DroppedItem(QueuedItem()), true);
    }
  }

  lemma StopStep(c: Config, point: Point, n: nat, k: nat)
    requires IsStop(point, n) && Visits(c, point) && Depth(point) > 0
    ensures StepsTo(c, point, n, k)
  {
    hide StepsTo, Visits;
    if Depth(point) == 1 {
      CallStop(c, point, n, k);
    } else if Depth(point) == 6 {
      JudgeStop(c, point, n, k);
    } else if point.BeforeAbortCheck? {
      FinaliseStop(c, point, n, k);
    } else if point.LateCompletion? {
      DeadLetterStop(c, point, n, k);
    } else if point.BeforeAcknowledge? || point.LateAcknowledge? {
      CheckStop(c, point, n, k);
    } else {
      ReadStop(c, point, n, k);
    }
  }

  lemma {:induction false} ReachStop(c: Config, point: Point, n: nat, k: nat)
    requires IsStop(point, n) && c.maxAttempts >= 1
    requires point.BeforeFirstAttempt? || Visits(c, point)
    ensures Reaches(c, Start(n + 1, k + 1), StopAt(point, n, k), 0)
    decreases Depth(point)
  {
    if point.BeforeFirstAttempt? {
      ReachFirstAttempt(c, n, k);
    } else {
      hide Reaches, Apply, Enabled, Spend.CallWithin, StopAt;
      var (prev, a) := Before(point);
      ReachStop(c, prev, n, k);
      StopStep(c, point, n, k);
      Go(c, Start(n + 1, k + 1), StopAt(prev, n, k), a, 0);
    }
  }

  lemma ReachFirstAttempt(c: Config, n: nat, k: nat)
    requires c.maxAttempts >= 1
    ensures Reaches(c, Start(n + 1, k + 1), StopAt(BeforeFirstAttempt, n, k), 0)
  {
    hide Reaches;
    var s0, s := Start(n + 1, k + 1), StopAt(BeforeFirstAttempt, n, k);
    Stay(c, s0);
    Take(c, s0, s0, 0, 0, 0);
    assert Taken(s0, 0, 0).items == s.items && Taken(s0, 0, 0).workers == s.workers;
  }

  /** All workers idle, and the message of item 0 back, or gone. */
  function Redelivered(n: nat, k: nat, run: Run, it: Item): State {
    State(run, [it] + seq(n, _ => QueuedItem()), G.Book([], []), Messages(n + 1), seq(k + 1, _ => Idle), multiset{})
  }

  function Over(n: nat, k: nat, run: Run, it: Item): State {
    Redelivered(n, k, run, it).(queue := Messages(n + 1) - multiset{0})
  }

  lemma OnlyIdles(n: nat, k: nat, run: Run, it: Item, p: Phase)
    requires !p.Idle? && p.item == 0
    ensures At(Only(n, k, run, it, p), 0, Idle) == Over(n, k, run, it)
    ensures Over(n, k, run, it).(queue := Over(n, k, run, it).queue + multiset{0}) == Redelivered(n, k, run, it)
  {
    var s := Only(n, k, run, it, p);
    assert s.workers[0 := Idle] == Over(n, k, run, it).workers;
    assert Messages(n + 1) - multiset{0} + multiset{0} == Messages(n + 1);
  }

  lemma OnlyLeaves(c: Config, n: nat, k: nat, run: Run, it: Item, p: Phase)
    requires !p.Idle? && p.item == 0
    ensures var s := Only(n, k, run, it, p);
            && (PointOf(p) in c.faults.crashIn ==>
                  Enabled(c, s, Crash(0)) && Apply(c, s, Crash(0)) == Redelivered(n, k, run, it))
            && (p.Acknowledge? ==> Enabled(c, s, Advance(0)) && Apply(c, s, Advance(0)) == Over(n, k, run, it))
  {
    OnlyShape(n, k, run, it, p);
    OnlyIdles(n, k, run, it, p);
    hide Only;
  }

  /** A crash at a point brings the message back. */
  lemma CrashAt(c: Config, point: Point, n: nat, k: nat)
    requires IsStop(point, n) && Visits(c, point) && point in c.faults.crashIn
    ensures Reaches(c, Start(n + 1, k + 1), Redelivered(n, k, RunAt(point, n), ItemAt(point)), 0)
  {
    hide Reaches, Apply, Enabled, RunAt, ItemAt, Only;
    ReachStop(c, point, n, k);
    OnlyLeaves(c, n, k, RunAt(point, n), ItemAt(point), PhaseAt(point));
    Go(c, Start(n + 1, k + 1), StopAt(point, n, k), Crash(0), 0);
  }

  /** An execution that dead-letters item 0 comes to its end. */
  lemma ReachOver(c: Config, n: nat, k: nat)
    requires c.maxAttempts == 1
    ensures Reaches(c, Start(n + 1, k + 1), Over(n, k, RunAt(LateAcknowledge, n), DroppedItem(QueuedItem())), 0)
  {
    hide Reaches, Apply, Enabled, RunAt, Only;
    ReachStop(c, LateAcknowledge, n, k);
    OnlyLeaves(c, n, k, RunAt(LateAcknowledge, n), ItemAt(LateAcknowledge), PhaseAt(LateAcknowledge));
    Go(c, Start(n + 1, k + 1), StopAt(LateAcknowledge, n, k), Advance(0), 0);
  }
}
