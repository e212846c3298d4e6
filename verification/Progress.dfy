/** Crash-free runs: they end, and they end in a terminal status. */
module Progress {
  import opened Options
  import opened Protocol
  import opened Safety
  import opened RunOutcome
  import G = Grading

  // ----- nothing is stuck -----

  /** Crashes at these points put back a message that is executed again from
      the start, or one whose item is already finished and checked. */
  const HARMLESS: set<Point> := {BeforeCancelWrite, BeforeAbortWrite, BeforeFirstAttempt, BeforeAcknowledge}

  predicate Harmless(f: Faults) {
    SingleMessage(f) && f.crashIn <= HARMLESS
  }

  /** Somebody still writes the final status of item i. */
  predicate WorksOn(p: Phase, i: nat) {
    (Executing(p) || p.CancelWrite?) && p.item == i
  }

  /** The item has its final status, and the run is still to be checked. */
  predicate OwesCheck(p: Phase) {
    p.AbortCheck? || p.Grading? || p.Judging? || p.GradingFailed? || p.CompleteCheck?
  }

  ghost predicate HasWorker(s: State, i: nat) {
    exists w :: 0 <= w < |s.workers| && WorksOn(s.workers[w], i)
  }

  ghost predicate SomeoneOwes(s: State) {
    exists w :: 0 <= w < |s.workers| && OwesCheck(s.workers[w])
  }

  /** A running item has its worker or, in a cancelled run, its message. */
  ghost predicate Attended(s: State, i: nat) {
    HasWorker(s, i) || (s.run.status.Cancelled? && i in s.queue)
  }

  ghost predicate Alive(s: State) {
    && !s.run.status.Pending?
    && (forall i :: 0 <= i < |s.items| && s.items[i].status.Running? ==> Attended(s, i))
    && (s.run.status.Running? ==> AnyUnfinished(s.items) || SomeoneOwes(s))
  }

  lemma InitialAlive(s: State)
    requires Initial(s)
    ensures Alive(s)
  {
    forall i | 0 <= i < |s.items| ensures s.items[i].status.Queued? {
      assert s.items[i] == FreshItem(s.items[i]);
    }
    if s.run.status.Running? {
      assert Unfinished(s.items[0]);
    }
  }

  /** A worker that holds an item without working on it finds it not running. */
  lemma IdlyHeld(c: Config, s: State, w: nat, i: nat)
    requires Inv(c, s) && Alive(s) && w < |s.workers| && i < |s.items|
    requires Holds(s.workers[w], i) && !WorksOn(s.workers[w], i)
    ensures !s.items[i].status.Running?
  {
    assert MessageOk(s, i);
    forall v | 0 <= v < |s.workers| ensures !WorksOn(s.workers[v], i) {
      assert v == w || !SameItem(s.workers[w], s.workers[v]);
    }
  }

  /** A step of worker w on item i that leaves the run's status alone. */
  lemma WorkerStepAlive(s: State, s': State, w: nat, i: nat)
    requires Alive(s) && w < |s.workers| == |s'.workers| && i < |s.items| == |s'.items|
    requires s'.workers == s.workers[w := s'.workers[w]] && s'.items == s.items[i := s'.items[i]]
    requires s'.run.status == s.run.status && forall j: nat :: j != i ==> s'.queue[j] == s.queue[j]
    requires s.workers[w].Idle? || s.workers[w].item == i
    requires s'.items[i].status.Running? ==>
               || WorksOn(s'.workers[w], i)
               || (s.run.status.Cancelled? && i in s'.queue)
               || (s.items[i].status.Running? && !WorksOn(s.workers[w], i) && s'.queue[i] == s.queue[i])
    requires s.run.status.Running? ==>
               || OwesCheck(s'.workers[w])
               || Unfinished(s'.items[i])
               || (!Unfinished(s.items[i]) && !OwesCheck(s.workers[w]))
    ensures Alive(s')
  {
    forall j | 0 <= j < |s'.items| && s'.items[j].status.Running? ensures Attended(s', j) {
      if j == i && WorksOn(s'.workers[w], i) {
        assert HasWorker(s', j);
      } else if HasWorker(s, j) && !WorksOn(s.workers[w], j) {
        var v :| 0 <= v < |s.workers| && WorksOn(s.workers[v], j);
        assert WorksOn(s'.workers[v], j);
      }
    }
    if s.run.status.Running? {
      if OwesCheck(s'.workers[w]) {
        assert SomeoneOwes(s');
      } else if Unfinished(s'.items[i]) {
        assert AnyUnfinished(s'.items);
      } else if AnyUnfinished(s.items) {
        var j :| 0 <= j < |s.items| && Unfinished(s.items[j]);
        assert Unfinished(s'.items[j]);
      } else {
        var v :| 0 <= v < |s.workers| && OwesCheck(s.workers[v]);
        assert OwesCheck(s'.workers[v]);
      }
    }
  }

  /** A step that leaves the workers alone: a sweep, a replay, a review. */
  lemma HandlerStepAlive(s: State, s': State)
    requires Alive(s) && s'.workers == s.workers && |s'.items| == |s.items| && !s'.run.status.Pending?
    requires forall i :: 0 <= i < |s.items| && s'.items[i].status.Running? ==> s.items[i].status.Running?
    requires s.queue <= s'.queue && (s.run.status.Cancelled? ==> s'.run.status.Cancelled?)
    requires s'.run.status.Running? ==>
               AnyUnfinished(s'.items) || (s.run.status.Running? && s'.items == s.items)
    ensures Alive(s')
  {
    forall i | 0 <= i < |s'.items| && s'.items[i].status.Running? ensures Attended(s', i) {
      assert Attended(s, i);
      if HasWorker(s, i) {
        var v :| 0 <= v < |s.workers| && WorksOn(s.workers[v], i);
        assert WorksOn(s'.workers[v], i);
      }
    }
    if s'.run.status.Running? && SomeoneOwes(s) {
      var v :| 0 <= v < |s.workers| && OwesCheck(s.workers[v]);
      assert OwesCheck(s'.workers[v]);
    }
  }

  lemma DeliverAlive(c: Config, s: State, w: nat, i: nat)
    requires Inv(c, s) && Alive(s) && Enabled(c, s, Deliver(w, i))
    ensures Alive(Apply(c, s, Deliver(w, i)))
  {
    var s' := Apply(c, s, Deliver(w, i));
    assert MessageOk(s, i) && ItemOk(s.run, s.items[i]);
    assert s.items[i := s.items[i]] == s.items;
    if s.items[i].status.Running? && HasWorker(s, i) {
      var v :| 0 <= v < |s.workers| && WorksOn(s.workers[v], i);
      assert !Holds(s.workers[v], i);
    }
    hide Inv, AdvanceWorker;
    WorkerStepAlive(s, s', w, i);
  }

  /** The abort check and the completion check, which may end the run. */
  lemma CheckAlive(c: Config, s: State, w: nat)
    requires Inv(c, s) && Alive(s) && Enabled(c, s, Advance(w))
    requires s.workers[w].AbortCheck? || s.workers[w].CompleteCheck?
    ensures Alive(Apply(c, s, Advance(w)))
  {
    var s' := Apply(c, s, Advance(w));
    var i := s.workers[w].item;
    assert s.items[i := s.items[i]] == s.items;
    assert !WorksOn(s.workers[w], i) && s'.workers == s.workers[w := s'.workers[w]] && s'.queue == s.queue;
    assert s.run.status.Cancelled? ==> s'.run.status.Cancelled?;
    assert forall j :: 0 <= j < |s.items| && s'.items[j].status.Running? ==> s.items[j].status.Running?;
    assert s'.run.status.Running? ==> OwesCheck(s'.workers[w]) || AnyUnfinished(s'.items);
    assert !s'.run.status.Pending?;
    hide Inv, Apply, Enabled;
    forall j | 0 <= j < |s'.items| && s'.items[j].status.Running? ensures Attended(s', j) {
      assert Attended(s, j);
      if HasWorker(s, j) {
        var v :| 0 <= v < |s.workers| && WorksOn(s.workers[v], j);
        assert WorksOn(s'.workers[v], j);
      }
    }
    if s'.run.status.Running? && OwesCheck(s'.workers[w]) {
      assert SomeoneOwes(s');
    }
  }

  lemma AdvanceAlive(c: Config, s: State, w: nat)
    requires Inv(c, s) && Alive(s) && Enabled(c, s, Advance(w))
    ensures Alive(Apply(c, s, Advance(w)))
  {
    var s' := Apply(c, s, Advance(w));
    var p := s.workers[w];
    var i := p.item;
    if p.AbortCheck? || p.CompleteCheck? {
      CheckAlive(c, s, w);
    } else {
      assert PhaseOk(c, s.run, s.items[i], p);
      assert s.items[i := s.items[i]] == s.items;
      if p.AbortWrite? {
        IdlyHeld(c, s, w, i);
      }
      hide Inv, Price, Snapshot, AfterCall;
      WorkerStepAlive(s, s', w, i);
    }
  }

  /** A harmless crash. */
  lemma CrashAlive(c: Config, s: State, w: nat)
    requires Inv(c, s) && Alive(s) && Enabled(c, s, Crash(w)) && Harmless(c.faults)
    ensures Alive(Apply(c, s, Crash(w)))
  {
    var s' := Apply(c, s, Crash(w));
    var p := s.workers[w];
    var i := p.item;
    assert PointOf(p) in HARMLESS;
    assert PhaseOk(c, s.run, s.items[i], p);
    assert s.items[i := s.items[i]] == s.items;
    if !WorksOn(p, i) {
      IdlyHeld(c, s, w, i);
    }
    hide Inv;
    if p.Attempt? && s.items[i].status.Queued? {
      assert Unfinished(s'.items[i]);
    }
    WorkerStepAlive(s, s', w, i);
  }

  lemma CallAlive(c: Config, s: State, w: nat, outcome: Outcome)
    requires Alive(s) && Enabled(c, s, CallProvider(w, outcome))
    ensures Alive(Apply(c, s, CallProvider(w, outcome)))
  {
    WorkerStepAlive(s, Apply(c, s, CallProvider(w, outcome)), w, s.workers[w].item);
  }

  lemma JudgeAlive(c: Config, s: State, w: nat, report: G.Report)
    requires Alive(s) && Enabled(c, s, Judge(w, report))
    ensures Alive(Apply(c, s, Judge(w, report)))
  {
    assert s.items[s.workers[w].item := s.items[s.workers[w].item]] == s.items;
    WorkerStepAlive(s, Apply(c, s, Judge(w, report)), w, s.workers[w].item);
  }

  lemma HandlerAlive(c: Config, s: State, a: Action)
    requires Inv(c, s) && Alive(s) && Enabled(c, s, a)
    requires a.ReplayRead? || a.ReplayWrite? || a.Cancel? || a.Claim? || a.Resolve?
    ensures Alive(Apply(c, s, a))
  {
    if a.ReplayWrite? {
      ReplayWriteKeeps(c, s, a.msg);
      assert Unfinished(Apply(c, s, a).items[a.msg]);
    }
    hide Inv, Alive, AdvanceWorker;
    HandlerStepAlive(s, Apply(c, s, a));
  }

  lemma StepKeepsAlive(c: Config, s: State, a: Action)
    requires Inv(c, s) && Alive(s) && Enabled(c, s, a) && Harmless(c.faults)
    ensures Alive(Apply(c, s, a))
  {
    hide Inv, Alive, Apply;
    match a {
      case Deliver(w, i) => DeliverAlive(c, s, w, i);
      case CallProvider(w, outcome) => CallAlive(c, s, w, outcome);
      case Judge(w, report) => JudgeAlive(c, s, w, report);
      case Advance(w) => AdvanceAlive(c, s, w);
      case Crash(w) => CrashAlive(c, s, w);
      case _ => HandlerAlive(c, s, a);
    }
  }

  lemma {:induction false} RunKeepsAlive(c: Config, s: State, tr: seq<Action>)
    requires Inv(c, s) && Alive(s) && IsRun(c, s, tr) && Harmless(c.faults)
    ensures Inv(c, End(c, s, tr)) && Alive(End(c, s, tr))
    decreases |tr|
  {
    hide Apply, Enabled, Inv, Alive;
    if tr != [] {
      RunKeepsAlive(c, s, Front(tr));
      StepKeepsInv(c, End(c, s, Front(tr)), Last(tr));
      StepKeepsAlive(c, End(c, s, Front(tr)), Last(tr));
    }
  }

  /** No message is queued and no worker is busy. */
  ghost predicate Quiescent(s: State) {
    && s.queue == multiset{}
    && forall w :: 0 <= w < |s.workers| ==> s.workers[w].Idle?
  }

  predicate Terminal(run: Run) {
    run.status.Completed? || run.status.Failed? || run.status.Cancelled?
  }

  /** No stuck run: when a run whose crashes are harmless has gone quiet, the
      eval run is completed, failed or cancelled and none of its items is left
      queued or running. Replays of aborted runs are included. */
  lemma NoStuckRun(c: Config, s0: State, tr: seq<Action>)
    requires Initial(s0) && IsRun(c, s0, tr) && Harmless(c.faults)
    requires Quiescent(End(c, s0, tr))
    ensures Terminal(End(c, s0, tr).run) && !AnyUnfinished(End(c, s0, tr).items)
  {
    hide IsRun, End, Initial;
    InitialInv(c, s0);
    InitialAlive(s0);
    RunKeepsAlive(c, s0, tr);
    var s := End(c, s0, tr);
    forall i | 0 <= i < |s.items| ensures !Unfinished(s.items[i]) {
      assert s.queue[i] == 0;
    }
  }

  /** How it ended. A quiet run that was neither cancelled nor aborted is
      completed exactly when none of its items is dead-lettered. */
  lemma {:induction false} CompletedIffNoDeadLetter(c: Config, s0: State, tr: seq<Action>)
    requires Initial(s0) && IsRun(c, s0, tr)
    requires Harmless(c.faults) && !c.faults.replayAborted
    requires var s := End(c, s0, tr); Quiescent(s) && NotSwept(s.run)
    ensures var s := End(c, s0, tr); s.run.status.Completed? <==> !AnyDeadLettered(s.items)
  {
    NoStuckRun(c, s0, tr);
    InitialInv(c, s0);
    InitialHonest(s0);
    RunKeepsHonest(c, s0, tr);
  }

  // ----- every run ends -----

  /** Steps one message can still cause. */
  function MessageWeight(c: Config): nat {
    c.maxAttempts + 10
  }

  /** Steps the execution in phase p can still take. Grading may open a review,
      which a reviewer can claim and resolve. */
  function Weight(c: Config, p: Phase): nat {
    match p
    case Idle => 0
    case Acknowledge(_, _) => 1
    case CancelWrite(_) => 2
    case AbortWrite(_) => 2
    case CompleteCheck(_, _) => 2
    case GradingFailed(_) => 3
    case ProviderFailed(_) => 3
    case Exhausted(_) => 3
    case Judging(_) => 5
    case Grading(_) => 6
    case AbortCheck(_) => 7
    case Finalise(_, _, _, _) => 8
    case CancelCheck(_, _, _, _) => 9
    case Attempt(_, k, _, _) => if k <= c.maxAttempts then 10 + c.maxAttempts - k else 10
  }

  function WorkersWeight(c: Config, workers: seq<Phase>): nat {
    if workers == [] then 0 else Weight(c, workers[0]) + WorkersWeight(c, workers[1..])
  }

  function ReviewWeight(r: G.Review): nat {
    match r.status
    case Open => 2
    case Claimed => 1
    case Resolved => 0
  }

  function ReviewsWeight(reviews: seq<G.Review>): nat {
    if reviews == [] then 0 else ReviewWeight(reviews[0]) + ReviewsWeight(reviews[1..])
  }

  function Measure(c: Config, s: State): nat {
    |s.queue| * MessageWeight(c) + |s.pending| * (MessageWeight(c) + 1) + WorkersWeight(c, s.workers)
    + ReviewsWeight(s.book.reviews) + (if s.run.status.Cancelled? then 0 else 1)
  }

  lemma {:induction false} WorkersUpdate(c: Config, workers: seq<Phase>, w: nat, p: Phase)
    requires w < |workers|
    ensures WorkersWeight(c, workers[w := p]) == WorkersWeight(c, workers) - Weight(c, workers[w]) + Weight(c, p)
    decreases |workers|
  {
    if w == 0 {
      assert workers[w := p][1..] == workers[1..];
    } else {
      assert workers[w := p][1..] == workers[1..][w - 1 := p];
      WorkersUpdate(c, workers[1..], w - 1, p);
    }
  }

  lemma {:induction false} ReviewsUpdate(reviews: seq<G.Review>, k: nat, r: G.Review)
    requires k < |reviews|
    ensures ReviewsWeight(reviews[k := r]) == ReviewsWeight(reviews) - ReviewWeight(reviews[k]) + ReviewWeight(r)
    decreases |reviews|
  {
    if k == 0 {
      assert reviews[k := r][1..] == reviews[1..];
    } else {
      assert reviews[k := r][1..] == reviews[1..][k - 1 := r];
      ReviewsUpdate(reviews[1..], k - 1, r);
    }
  }

  lemma {:induction false} ReviewsAppend(reviews: seq<G.Review>, more: seq<G.Review>)
    ensures ReviewsWeight(reviews + more) == ReviewsWeight(reviews) + ReviewsWeight(more)
    decreases |reviews|
  {
    if reviews == [] {
      assert reviews + more == more;
    } else {
      assert (reviews + more)[1..] == reviews[1..] + more;
      ReviewsAppend(reviews[1..], more);
    }
  }

  /** Replay requests and crashes bring a message back; every other step uses
      something up. */
  predicate AddsMessage(a: Action) {
    a.ReplayRead? || a.Crash?
  }

  lemma BagWeight(bag: multiset<nat>, i: nat, k: nat)
    ensures |bag + multiset{i}| * k == |bag| * k + k
    ensures i in bag ==> |bag - multiset{i}| * k == |bag| * k - k
  {
    assert (|bag| + 1) * k == |bag| * k + k;
    if i in bag {
      assert |bag - multiset{i}| == |bag| - 1;
      assert (|bag| - 1) * k == |bag| * k - k;
    }
  }

  lemma JudgeDecreases(c: Config, s: State, w: nat, report: G.Report)
    requires Enabled(c, s, Judge(w, report))
    ensures Measure(c, Apply(c, s, Judge(w, report))) < Measure(c, s)
  {
    var s' := Apply(c, s, Judge(w, report));
    var i := s.workers[w].item;
    WorkersUpdate(c, s.workers, w, s'.workers[w]);
    ReviewsAppend(s.book.reviews, G.NewReviews(c.grading, i, report));
    var new' := G.NewReviews(c.grading, i, report);
    assert ReviewsWeight(new') <= 2 by {
      if new' != [] {
        assert new'[1..] == [];
      }
    }
  }

  lemma DeliverDecreases(c: Config, s: State, w: nat, i: nat)
    requires Enabled(c, s, Deliver(w, i))
    ensures Measure(c, Apply(c, s, Deliver(w, i))) < Measure(c, s)
  {
    BagWeight(s.queue, i, MessageWeight(c));
    WorkersUpdate(c, s.workers, w, Snapshot(c, s.run, s.items[i], i));
  }

  lemma RequeueDecreases(c: Config, s: State, a: Action)
    requires Enabled(c, s, a) && AddsMessage(a)
    ensures Measure(c, Apply(c, s, a)) <= Measure(c, s) + MessageWeight(c) + 1
  {
    match a {
      case Crash(w) =>
        BagWeight(s.queue, s.workers[w].item, MessageWeight(c));
        WorkersUpdate(c, s.workers, w, Idle);
      case ReplayRead(i) => BagWeight(s.pending, i, MessageWeight(c) + 1);
    }
  }

  lemma ReplayDecreases(c: Config, s: State, i: nat)
    requires Enabled(c, s, ReplayWrite(i))
    ensures Measure(c, Apply(c, s, ReplayWrite(i))) < Measure(c, s)
  {
    BagWeight(s.queue, i, MessageWeight(c));
    BagWeight(s.pending, i, MessageWeight(c) + 1);
  }

  lemma StepDecreases(c: Config, s: State, a: Action)
    requires Enabled(c, s, a)
    ensures Measure(c, Apply(c, s, a)) < Measure(c, s) + (if AddsMessage(a) then MessageWeight(c) + 2 else 0)
  {
    match a {
      case Deliver(w, i) => DeliverDecreases(c, s, w, i);
      case CallProvider(w, _) => CallDecreases(c, s, w, a.outcome);
      case Judge(w, report) => JudgeDecreases(c, s, w, report);
      case Advance(w) => AdvanceDecreases(c, s, w);
      case Crash(_) => RequeueDecreases(c, s, a);
      case ReplayRead(_) => RequeueDecreases(c, s, a);
      case ReplayWrite(i) => ReplayDecreases(c, s, i);
      case Cancel =>
      case _ => ReviewDecreases(c, s, a);
    }
  }

  lemma CallDecreases(c: Config, s: State, w: nat, outcome: Outcome)
    requires Enabled(c, s, CallProvider(w, outcome))
    ensures Measure(c, Apply(c, s, CallProvider(w, outcome))) < Measure(c, s)
  {
    WorkersUpdate(c, s.workers, w, AfterCall(c, s.workers[w], outcome));
  }

  lemma ReviewDecreases(c: Config, s: State, a: Action)
    requires Enabled(c, s, a) && (a.Claim? || a.Resolve?)
    ensures Measure(c, Apply(c, s, a)) < Measure(c, s)
  {
    ReviewsUpdate(s.book.reviews, a.review, Apply(c, s, a).book.reviews[a.review]);
  }

  lemma AdvanceDecreases(c: Config, s: State, w: nat)
    requires Enabled(c, s, Advance(w))
    ensures Measure(c, Apply(c, s, Advance(w))) < Measure(c, s)
  {
    var s' := Apply(c, s, Advance(w));
    AdvanceWeighsLess(c, s, w);
    hide AdvanceWorker;
    WorkersUpdate(c, s.workers, w, s'.workers[w]);
  }

  lemma AdvanceWeighsLess(c: Config, s: State, w: nat)
    requires Enabled(c, s, Advance(w))
    ensures var s' := AdvanceWorker(c, s, w);
            && s'.workers == s.workers[w := s'.workers[w]] && Weight(c, s'.workers[w]) < Weight(c, s.workers[w])
            && s'.queue == s.queue && s'.pending == s.pending && s'.book == s.book
            && (s.run.status.Cancelled? ==> s'.run.status.Cancelled?)
  {
    hide Price, SweepQueued, MarkSucceeded, MarkFailed, MarkCancelled, MarkDeadLettered, AnyUnfinished, AnyDeadLettered;
  }

  /** How many replay requests and crashes a run has. */
  function Readded(tr: seq<Action>): nat
    decreases |tr|
  {
    if tr == [] then 0 else Readded(Front(tr)) + (if AddsMessage(Last(tr)) then 1 else 0)
  }

  /** No run is endless: from any state, a run with r replays and crashes has
      at most Measure + (MessageWeight + 2) * r steps. */
  lemma {:induction false} RunsAreFinite(c: Config, s: State, tr: seq<Action>)
    requires IsRun(c, s, tr)
    ensures |tr| + Measure(c, End(c, s, tr)) <= Measure(c, s) + (MessageWeight(c) + 2) * Readded(tr)
    decreases |tr|
  {
    hide Apply, Enabled, Measure;
    if tr != [] {
      RunsAreFinite(c, s, Front(tr));
      StepDecreases(c, End(c, s, Front(tr)), Last(tr));
      var k, r := MessageWeight(c) + 2, Readded(Front(tr));
      assert k * (r + 1) == k * r + k;
    }
  }

  lemma {:induction false} IdleWeighsNothing(c: Config, workers: seq<Phase>)
    requires forall w :: 0 <= w < |workers| ==> workers[w].Idle?
    ensures WorkersWeight(c, workers) == 0
    decreases |workers|
  {
    if workers != [] {
      IdleWeighsNothing(c, workers[1..]);
    }
  }

  /** In particular a run over n items with r replays and crashes takes at most
      1 + (max_attempts + 12) * (n + r) steps. */
  lemma {:induction false} RunLengthIsBounded(c: Config, s0: State, tr: seq<Action>)
    requires Initial(s0) && IsRun(c, s0, tr)
    ensures |tr| <= 1 + (c.maxAttempts + 12) * (|s0.items| + Readded(tr))
  {
    hide Measure, Initial, Apply, Enabled, Readded;
    InitialMeasure(c, s0);
    RunsAreFinite(c, s0, tr);
    PerMessage(c.maxAttempts + 10, |s0.items|, Readded(tr));
  }

  lemma InitialMeasure(c: Config, s0: State)
    requires Initial(s0)
    ensures Measure(c, s0) == |s0.items| * MessageWeight(c) + 1
  {
    IdleWeighsNothing(c, s0.workers);
  }

  lemma PerMessage(k: nat, n: nat, r: nat)
    ensures (k + 2) * (n + r) == n * k + 2 * n + (k + 2) * r
  {
  }

  /** A state that is not quiet has a step left, once there is a worker. */
  lemma BusyHasStep(c: Config, s: State)
    requires Inv(c, s) && s.workers != [] && !Quiescent(s)
    ensures exists a :: Enabled(c, s, a) && !AddsMessage(a) && !a.Cancel?
  {
    if w :| 0 <= w < |s.workers| && !s.workers[w].Idle? {
      var a := if s.workers[w].Attempt? then CallProvider(w, Retryable)
               else if s.workers[w].Judging? then Judge(w, G.Report(None, G.NoRubric))
               else Advance(w);
      assert Enabled(c, s, a);
    } else {
      var i :| i in s.queue;
      assert MessageOk(s, i);
      assert Enabled(c, s, Deliver(0, i));
    }
  }

  /** So a run with harmless crashes that cannot go on has ended its eval run. */
  lemma MaximalRunTerminates(c: Config, s0: State, tr: seq<Action>)
    requires Initial(s0) && IsRun(c, s0, tr) && s0.workers != []
    requires Harmless(c.faults)
    requires forall a :: Enabled(c, End(c, s0, tr), a) ==> AddsMessage(a) || a.Cancel?
    ensures Terminal(End(c, s0, tr).run) && !AnyUnfinished(End(c, s0, tr).items)
  {
    InitialInv(c, s0);
    RunKeepsInv(c, s0, tr);
    PoolIsConstant(c, s0, tr);
    if !Quiescent(End(c, s0, tr)) {
      BusyHasStep(c, End(c, s0, tr));
    }
    NoStuckRun(c, s0, tr);
  }

  lemma {:induction false} PoolIsConstant(c: Config, s: State, tr: seq<Action>)
    requires IsRun(c, s, tr)
    ensures |End(c, s, tr).workers| == |s.workers| && |End(c, s, tr).items| == |s.items|
    decreases |tr|
  {
    if tr != [] {
      PoolIsConstant(c, s, Front(tr));
      SizesAreKept(c, End(c, s, Front(tr)), Last(tr));
    }
  }
}
