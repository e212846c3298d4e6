/** What goes wrong once a hypothesis of the main results is dropped: concrete
    runs in which the code falls short of what its documents promise. */
module Anomalies {
  import opened Sums
  import opened Protocol
  import opened Safety
  import opened Traces
  import Progress
  import G = Grading

  // ----- a crash can leave the run running -----

  /** A crash during the call or before its outcome is written. */
  const UNWRITTEN: set<Point> := {BeforeLaterAttempt, BeforeCancelCheck, BeforeFinalise, BeforeDeadLetter, BeforeProviderFailure}

  /** A crash after the item is finalised and before the run is checked. */
  const UNCHECKED: set<Point> := {BeforeAbortCheck, BeforeGrading, BeforeJudging, BeforeGradingFailure, BeforeCompletion}

  /** The redelivered message finds its item not executable, or succeeded. With
      nothing queued and nobody busy the run stays running, and its only item
      stays running too or has succeeded. */
  lemma CrashStrandsRun(c: Config, point: Point)
    requires point in UNWRITTEN + UNCHECKED && point in c.faults.crashIn && Visits(c, point)
    ensures exists s :: Reaches(c, Start(1, 1), s, 0) && Progress.Quiescent(s) && s.run.status.Running?
                        && |s.items| == 1 && !AnyDeadLettered(s.items)
                        && (AnyUnfinished(s.items) <==> point in UNWRITTEN)
  {
    hide Reaches;
    CrashAt(c, point, 0, 0);
    var s := Redelivered(0, 0, RunAt(point, 0), ItemAt(point));
    Discard(c, Start(1, 1), s, 0, 0, 0);
    var s' := s.(queue := s.queue - multiset{0});
    assert s'.queue == multiset{};
    assert Unfinished(s'.items[0]) <==> point in UNWRITTEN;
  }

  // ----- a crash can take an item out of succeeded -----

  /** Item 0 has succeeded and its message is back; item 1 is queued. */
  function DoneWithMessage(): State {
    Redelivered(1, 0, OpenRun(1), AnsweredItem(QueuedItem()))
  }

  lemma ReachDoneWithMessage(c: Config, point: Point)
    requires point in UNCHECKED + {BeforeAcknowledge} && point in c.faults.crashIn && Visits(c, point)
    ensures Reaches(c, Start(2, 1), DoneWithMessage(), 0)
  {
    hide Reaches, RunAt, ItemAt, Redelivered, DoneWithMessage, Start;
    DoneStop(point);
    CrashAt(c, point, 1, 0);
  }

  lemma DoneStop(point: Point)
    requires point in UNCHECKED + {BeforeAcknowledge}
    ensures IsStop(point, 1) && Redelivered(1, 0, RunAt(point, 1), ItemAt(point)) == DoneWithMessage()
  {
  }

  /** Worker w is about to fail item 0, which has succeeded. */
  predicate FailsSucceeded(s: State, w: nat) {
    && w < |s.workers| && s.workers[w] == AbortWrite(0)
    && 0 < |s.items| && s.items[0].status.Succeeded? && Recorded(s.items[0])
  }

  /** Item 1 is dead-lettered, so the run fails; then the message of item 0 is
      delivered, and the run-aborted branch comes before the succeeded one. */
  lemma AbortFailsSucceeded(c: Config, s0: State)
    requires Reaches(c, s0, DoneWithMessage(), 0) && c.maxAttempts == 1
    ensures exists s :: Reaches(c, s0, s, 0) && FailsSucceeded(s, 0)
  {
    hide Reaches;
    var s := DoneWithMessage();
    Take(c, s0, s, 0, 1, 0);
    var s1 := Taken(s, 0, 1);
    Drop(c, s0, s1, 0, 0);
    var s2 := Written(s1, 0, DroppedItem(s1.items[1]), CompleteCheck(1, true));
    Check(c, s0, s2, 0, 0);
    assert s2.items[1].status.DeadLettered?;
    var s3 := At(s2, 0, Idle).(run := s2.run.(status := RunStatus.Failed));
    assert At(s2, 0, Idle).(run := MaybeComplete(s2.run, s2.items)) == s3;
    Go(c, s0, s3, Deliver(0, 0), 0);
    assert FailsSucceeded(Apply(c, s3, Deliver(0, 0)), 0);
  }

  /** Worker w is about to reply that item 0 failed by cancellation, which has
      succeeded. */
  predicate CancelsSucceeded(s: State, w: nat) {
    w < |s.workers| && s.workers[w] == CancelWrite(0) && 0 < |s.items| && s.items[0].status.Succeeded?
  }

  lemma CancelMissesSucceeded(c: Config, s0: State, s: State, w: nat, r: nat)
    requires Reaches(c, s0, s, r) && s.run.status.Running? && s.pending == multiset{}
    requires w < |s.workers| && s.workers[w].Idle? && 0 < |s.items| && 0 in s.queue && s.items[0].status.Succeeded?
    ensures exists s' :: Reaches(c, s0, s', r) && CancelsSucceeded(s', w)
  {
    hide Reaches;
    Go(c, s0, s, Cancel, r);
    var s1 := Apply(c, s, Cancel);
    Go(c, s0, s1, Deliver(w, 0), r);
    assert CancelsSucceeded(Apply(c, s1, Deliver(w, 0)), w);
  }

  // ----- two messages for one item -----

  /** Item 0 was dead-lettered and replayed, and two messages of it are queued. */
  function Raced(k: nat): State {
    State(OpenRun(0), [Requeue(DroppedItem(QueuedItem()))], G.Book([], []), multiset{0, 0},
          seq(k + 1, _ => Idle), multiset{})
  }

  /** A worker crashes after dead-lettering, and the item is replayed while its
      redelivered message is still queued. */
  lemma LateCrashRaces(c: Config, point: Point, k: nat)
    requires point in {LateCompletion, LateAcknowledge} && point in c.faults.crashIn && c.maxAttempts == 1
    ensures Reaches(c, Start(1, k + 1), Raced(k), 1)
  {
    hide Reaches;
    CrashAt(c, point, 0, k);
    var s := Redelivered(0, k, RunAt(point, 0), ItemAt(point));
    ReplayAtOnce(c, Start(1, k + 1), s, 0, 0);
    assert SetItem(s, 0, Requeue(s.items[0])).items == Raced(k).items;
    assert s.queue + multiset{0} == multiset{0, 0};
  }

  /** Two requests to replay the item both pass the status check; the second
      write matches no row, and a message is sent all the same. */
  lemma OverlapRaces(c: Config, k: nat)
    requires c.faults.overlappingReplays && c.maxAttempts == 1
    ensures Reaches(c, Start(1, k + 1), Raced(k), 2)
  {
    hide Reaches, AdvanceWorker;
    ReachOver(c, 0, k);
    var s0, s1 := Start(1, k + 1), Over(0, k, RunAt(LateAcknowledge, 0), DroppedItem(QueuedItem()));
    Go(c, s0, s1, ReplayRead(0), 0);
    var s2 := s1.(pending := multiset{0});
    assert Apply(c, s1, ReplayRead(0)) == s2;
    Go(c, s0, s2, ReplayRead(0), 0);
    var s3 := s2.(pending := multiset{0, 0});
    assert Apply(c, s2, ReplayRead(0)) == s3;
    OverlapWrites(c, s0, s3, k);
  }

  lemma OverlapWrites(c: Config, s0: State, s: State, k: nat)
    requires Reaches(c, s0, s, 0)
    requires s == Over(0, k, RunAt(LateAcknowledge, 0), DroppedItem(QueuedItem())).(pending := multiset{0, 0})
    ensures Reaches(c, s0, Raced(k), 2)
  {
    hide Reaches, AdvanceWorker;
    Go(c, s0, s, ReplayWrite(0), 0);
    var s1 := Raced(k).(queue := multiset{0}, pending := multiset{0});
    assert s.items[0 := Requeue(s.items[0])] == s1.items && s.queue == multiset{};
    assert s.pending - multiset{0} == multiset{0};
    assert Apply(c, s, ReplayWrite(0)) == s1;
    Go(c, s0, s1, ReplayWrite(0), 1);
    assert s1.items[0 := s1.items[0]] == s1.items && s1.pending - multiset{0} == multiset{};
    assert Apply(c, s1, ReplayWrite(0)) == Raced(k);
  }

  lemma ReachRaced(c: Config, k: nat) returns (r: nat)
    requires !SingleMessage(c.faults) && c.maxAttempts == 1
    ensures Reaches(c, Start(1, k + 1), Raced(k), r)
  {
    hide Reaches;
    if LateCompletion in c.faults.crashIn {
      LateCrashRaces(c, LateCompletion, k);
      r := 1;
    } else if LateAcknowledge in c.faults.crashIn {
      LateCrashRaces(c, LateAcknowledge, k);
      r := 1;
    } else {
      OverlapRaces(c, k);
      r := 2;
    }
  }

  /** Both messages are taken before either execution marks the item running. */
  function BothTaken(): State {
    Raced(1).(queue := multiset{}, workers := [Attempt(0, 1, 0, 0), Attempt(0, 1, 0, 0)])
  }

  lemma TakeBoth(c: Config, s0: State, r: nat)
    requires Reaches(c, s0, Raced(1), r) && c.maxAttempts == 1
    ensures Reaches(c, s0, BothTaken(), r)
  {
    hide Reaches;
    Take(c, s0, Raced(1), 0, 0, r);
    var s1 := Raced(1).(queue := multiset{0}, workers := [Attempt(0, 1, 0, 0), Idle]);
    assert Taken(Raced(1), 0, 0) == s1;
    Take(c, s0, s1, 1, 0, r);
    assert Taken(s1, 1, 0) == BothTaken();
  }

  /** Replays can double-count: one item of cost 2500 leaves a total of 5000. */
  lemma RaceDoubleCounts(c: Config, s0: State, r: nat)
    requires Reaches(c, s0, Raced(1), r) && c.maxAttempts == 1
    ensures exists s :: Reaches(c, s0, s, r) && !LedgerOk(s)
  {
    hide Reaches;
    TakeBoth(c, s0, r);
    var s := BothTaken();
    Finish(c, s0, s, 0, r);
    Finish(c, s0, Finished(s, 0), 1, r);
    var s' := Finished(Finished(s, 0), 1);
    assert s'.items[1..] == [];
    assert Sum(s'.items, CostOf) == 2500;
  }

  /** One execution fails the item and completes the run, and the other moves
      the item of the completed run back to running. */
  lemma RaceRevivesItem(c: Config, s0: State, r: nat)
    requires Reaches(c, s0, Raced(1), r) && c.maxAttempts == 1
    ensures exists s :: Reaches(c, s0, s, r) && s.run.status.Completed? && AnyUnfinished(s.items)
  {
    hide Reaches, AdvanceWorker;
    TakeBoth(c, s0, r);
    var s := BothTaken();
    Reject(c, s0, s, 0, r);
    var s1 := Written(s, 0, MarkFailed(MarkRunning(s.items[0]), ProviderError), CompleteCheck(0, false));
    Check(c, s0, s1, 0, r);
    var s2 := At(s1, 0, Idle).(run := MaybeComplete(s1.run, s1.items));
    assert s2.run.status.Completed?;
    Go(c, s0, s2, CallProvider(1, Retryable), r);
    assert Unfinished(Apply(c, s2, CallProvider(1, Retryable)).items[0]);
  }

  /** One execution finalises the item, and the other is about to mark it
      running again. */
  lemma RaceRestartsSucceeded(c: Config, s0: State, r: nat)
    requires Reaches(c, s0, Raced(1), r) && c.maxAttempts == 1
    ensures exists s :: Reaches(c, s0, s, r) && Enabled(c, s, CallProvider(1, Retryable))
                        && s.workers[1].item == 0 && s.items[0].status.Succeeded?
  {
    hide Reaches;
    TakeBoth(c, s0, r);
    Finish(c, s0, BothTaken(), 0, r);
    var s := Finished(BothTaken(), 0);
    assert Enabled(c, s, CallProvider(1, Retryable));
  }

  lemma RaceCancelsSucceeded(c: Config, s0: State, r: nat)
    requires Reaches(c, s0, Raced(1), r) && c.maxAttempts == 1
    ensures exists s :: Reaches(c, s0, s, r) && CancelsSucceeded(s, 1)
  {
    hide Reaches;
    Take(c, s0, Raced(1), 0, 0, r);
    var s1 := Taken(Raced(1), 0, 0);
    assert s1.queue == multiset{0};
    Finish(c, s0, s1, 0, r);
    CancelMissesSucceeded(c, s0, Finished(s1, 0), 1, r);
  }

  /** One message is executed and dead-letters, failing the run; the other one
      reads the failed run, a replay reopens it, and only then the item is
      failed as aborted, without a completion check. */
  lemma RaceStrandsRun(c: Config, s0: State, r: nat)
    requires Reaches(c, s0, Raced(0), r) && c.maxAttempts == 1
    ensures exists s :: Reaches(c, s0, s, r + 1) && Progress.Quiescent(s) && s.run.status.Running?
  {
    hide Reaches;
    RaceReachesAbort(c, s0, r);
    var s := AbortPending();
    ReplayAtOnce(c, s0, s, 0, r);
    var s1 := SetItem(s, 0, Requeue(s.items[0])).(run := Reopen(s.run), queue := s.queue + multiset{0});
    Go(c, s0, s1, Advance(0), r + 1);
    var s2 := Written(s1, 0, MarkFailed(s1.items[0], RunAborted), Acknowledge(0, false));
    assert Apply(c, s1, Advance(0)) == s2;
    Release(c, s0, s2, 0, r + 1);
    var s3 := At(s2, 0, Idle);
    Discard(c, s0, s3, 0, 0, r + 1);
    assert Progress.Quiescent(s3.(queue := s3.queue - multiset{0}));
  }

  /** The second message of the dead-lettered item has read the failed run. */
  function AbortPending(): State {
    State(OpenRun(0).(status := RunStatus.Failed), [DroppedItem(Requeue(DroppedItem(QueuedItem())))], G.Book([], []),
          multiset{}, [AbortWrite(0)], multiset{})
  }

  lemma RaceReachesAbort(c: Config, s0: State, r: nat)
    requires Reaches(c, s0, Raced(0), r) && c.maxAttempts == 1
    ensures Reaches(c, s0, AbortPending(), r)
  {
    hide Reaches, AdvanceWorker;
    Take(c, s0, Raced(0), 0, 0, r);
    var s1 := Taken(Raced(0), 0, 0);
    Drop(c, s0, s1, 0, r);
    var s2 := Written(s1, 0, DroppedItem(s1.items[0]), CompleteCheck(0, true));
    Check(c, s0, s2, 0, r);
    assert s2.items[0].status.DeadLettered?;
    var s3 := At(s2, 0, Idle).(run := s2.run.(status := RunStatus.Failed));
    assert At(s2, 0, Idle).(run := MaybeComplete(s2.run, s2.items)) == s3;
    assert s3.queue == multiset{0};
    Go(c, s0, s3, Deliver(0, 0), r);
    assert Apply(c, s3, Deliver(0, 0)) == AbortPending();
  }

  // ----- a cancel between the read and the write of a replay -----

  /** Item 0 is dead-lettered, and its replay has passed the status check when
      the run is cancelled; the write requeues it all the same. */
  lemma CancelledRunQueues(c: Config)
    requires c.faults.cancelDuringReplay && c.maxAttempts == 1
    ensures exists s :: Reaches(c, Start(2, 1), s, 1) && s.run.status.Cancelled?
                        && |s.items| == 2 && s.items[0].status.Queued?
  {
    hide Reaches, AdvanceWorker;
    ReachOver(c, 1, 0);
    var s0, s1 := Start(2, 1), Over(1, 0, OpenRun(0), DroppedItem(QueuedItem()));
    Go(c, s0, s1, ReplayRead(0), 0);
    var s2 := s1.(pending := multiset{0});
    assert Apply(c, s1, ReplayRead(0)) == s2;
    Go(c, s0, s2, Cancel, 0);
    var s3 := Apply(c, s2, Cancel);
    Go(c, s0, s3, ReplayWrite(0), 0);
    assert ReplayItem(s3, 0).items[0].status.Queued?;
  }

  // ----- replaying an aborted run -----

  /** Item 0 is dead-lettered by worker 0, and worker 1 takes item 1. */
  function Midway(): State {
    State(OpenRun(0), [DroppedItem(QueuedItem()), QueuedItem(), QueuedItem()],
          G.Book([], []), multiset{2}, [Idle, Attempt(1, 1, 0, 0)], multiset{})
  }

  lemma ReachMidway(c: Config)
    requires c.maxAttempts == 1
    ensures Reaches(c, Start(3, 2), Midway(), 0)
  {
    hide Reaches, AdvanceWorker;
    ReachOver(c, 2, 1);
    var s0, s1 := Start(3, 2), Over(2, 1, OpenRun(0), DroppedItem(QueuedItem()));
    assert s1.items == Midway().items && s1.workers == [Idle, Idle];
    Take(c, s0, s1, 1, 1, 0);
    assert Messages(3) - multiset{0} - multiset{1} == multiset{2};
    assert Taken(s1, 1, 1) == Midway();
  }

  /** Item 2 exceeds the limit of 0 and the run is aborted, sweeping item 1
      under worker 1. */
  function Aborted(): State {
    State(OpenRun(1).(status := RunStatus.Failed, error := true),
          [DroppedItem(QueuedItem()), MarkFailed(QueuedItem(), SpendLimit), AnsweredItem(QueuedItem())],
          G.Book([], []), multiset{}, [Idle, Attempt(1, 1, 0, 0)], multiset{})
  }

  lemma ReachAborted(c: Config)
    requires c.maxAttempts == 1 && c.spendLimit == 0
    ensures Reaches(c, Start(3, 2), Aborted(), 0)
  {
    hide Reaches, AdvanceWorker;
    var s0 := Start(3, 2);
    ReachMidway(c);
    Take(c, s0, Midway(), 0, 2, 0);
    var s1 := Midway().(queue := multiset{}, workers := [Attempt(2, 1, 0, 0), Attempt(1, 1, 0, 0)]);
    assert Taken(Midway(), 0, 2) == s1;
    Finish(c, s0, s1, 0, 0);
    var s2 := Finished(s1, 0);
    AbortRun(c, s0, s2, 0, 0);
    assert SweepQueued(s2.items, SpendLimit) == Aborted().items;
    assert At(s2, 0, Idle).(run := Abort(s2.run), items := SweepQueued(s2.items, SpendLimit)) == Aborted();
  }

  /** Item 0 is replayed, which reopens the run. It fails for good and the run
      completes; then worker 1 moves item 1 of the completed run to running. */
  lemma AbortReplayRevivesItem(c: Config)
    requires c.maxAttempts == 1 && c.spendLimit == 0 && c.faults.replayAborted
    ensures exists s :: Reaches(c, Start(3, 2), s, 1) && s.run.status.Completed? && AnyUnfinished(s.items)
  {
    hide Reaches, AdvanceWorker;
    var s0, s := Start(3, 2), Aborted();
    ReachAborted(c);
    ReplayAtOnce(c, s0, s, 0, 0);
    var s1 := SetItem(s, 0, Requeue(s.items[0])).(run := Reopen(s.run), queue := s.queue + multiset{0});
    Take(c, s0, s1, 0, 0, 1);
    var s2 := Taken(s1, 0, 0);
    Reject(c, s0, s2, 0, 1);
    var s3 := Written(s2, 0, MarkFailed(MarkRunning(s2.items[0]), ProviderError), CompleteCheck(0, false));
    Check(c, s0, s3, 0, 1);
    var s4 := At(s3, 0, Idle).(run := MaybeComplete(s3.run, s3.items));
    assert s4.run.status.Completed?;
    Go(c, s0, s4, CallProvider(1, Retryable), 1);
    assert Unfinished(Apply(c, s4, CallProvider(1, Retryable)).items[1]);
  }

  // ----- a crash before the abort check -----

  /** One worker and no replay, a limit of 0: the worker crashes between its
      rollup and its abort check, and spends again. */
  lemma CrashHidesOvershoot(c: Config)
    requires c.maxAttempts == 1 && BeforeAbortCheck in c.faults.crashIn
    requires c.spendLimit == 0
    ensures exists s :: Reaches(c, Start(2, 1), s, 0) && s.run.totalCost == 2 * 2500
  {
    hide Reaches;
    var s0, s := Start(2, 1), DoneWithMessage();
    ReachDoneWithMessage(c, BeforeAbortCheck);
    Take(c, s0, s, 0, 1, 0);
    Finish(c, s0, Taken(s, 0, 1), 0, 0);
  }
}
