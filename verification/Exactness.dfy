/** Which environments each promise needs: it holds of every run if and only if
    the environment satisfies the condition. */
module Exactness {
  import opened Protocol
  import opened Safety
  import opened Traces
  import opened Anomalies
  import opened Sums
  import DoubleGrading
  import GradedRuns
  import G = Grading
  import L = Leaderboard
  import Ledger
  import Overspending
  import Progress
  import Relations
  import Results
  import RunOutcome
  import Spend
  import Tightness
  import Tokens

  /** Some run in the environment leads from s0 to s. */
  ghost predicate Reachable(c: Config, s0: State, s: State, faults: Faults) {
    c.faults == faults && Initial(s0) && Leads(c, s0, s)
  }

  lemma Witness(c: Config, s0: State, s: State, r: nat, n: nat, workers: nat)
    requires Reaches(c, s0, s, r) && s0 == Start(n, workers)
    ensures Reachable(c, s0, s, c.faults)
  {
    hide Initial, Leads, Reaches;
    ReachesLeads(c, s0, s, r);
    StartIsInitial(n, workers);
  }

  // ----- conservation and single flight -----

  ghost predicate AlwaysConserved(faults: Faults) {
    forall c: Config, s0: State, s: State :: Reachable(c, s0, s, faults) ==> LedgerOk(s)
  }

  /** Totals are conserved in every run if and only if no crash falls between
      dead-lettering an item and acknowledging its message, and no two replays
      of an item overlap. */
  lemma ConservedIffSingleMessage(faults: Faults)
    ensures AlwaysConserved(faults) <==> SingleMessage(faults)
  {
    if SingleMessage(faults) {
      hide Apply, Enabled, Initial, LedgerOk;
      forall c: Config, s0: State, s: State | Reachable(c, s0, s, faults) ensures LedgerOk(s) {
        var tr :| IsRun(c, s0, tr) && End(c, s0, tr) == s;
        InitialInv(c, s0);
        RunKeepsInv(c, s0, tr);
      }
    } else {
      hide Initial, LedgerOk, Reaches, Reachable;
      var c, s0 := Tries(1, 0, faults), Start(1, 2);
      var r := ReachRaced(c, 1);
      RaceDoubleCounts(c, s0, r);
      var s :| Reaches(c, s0, s, r) && !LedgerOk(s);
      Witness(c, s0, s, r, 1, 2);
    }
  }

  ghost predicate AlwaysSingleFlight(faults: Faults) {
    forall c: Config, s0: State, s: State, i: nat :: Reachable(c, s0, s, faults) ==>
      s.queue[i] + Ledger.ActiveExecutions(s.workers, i) <= 1
  }

  lemma SingleFlightBreaks(faults: Faults)
    requires !SingleMessage(faults)
    ensures !AlwaysSingleFlight(faults)
  {
    hide Initial, Reaches, Reachable;
    var c, s0, s := Tries(1, 0, faults), Start(1, 1), Raced(0);
    var r := ReachRaced(c, 0);
    Witness(c, s0, s, r, 1, 1);
    Ledger.NoActive(s.workers, 0);
    hide Ledger.ActiveExecutions;
    assert s.queue[0] == 2;
  }

  /** An item has at most one message or execution under the same condition. */
  lemma SingleFlightIffSingleMessage(faults: Faults)
    ensures AlwaysSingleFlight(faults) <==> SingleMessage(faults)
  {
    if SingleMessage(faults) {
      hide Apply, Enabled, Initial, Ledger.ActiveExecutions;
      forall c: Config, s0: State, s: State, i: nat | Reachable(c, s0, s, faults)
        ensures s.queue[i] + Ledger.ActiveExecutions(s.workers, i) <= 1
      {
        var tr :| IsRun(c, s0, tr) && End(c, s0, tr) == s;
        Ledger.SingleFlight(c, s0, tr, i);
      }
    } else {
      SingleFlightBreaks(faults);
    }
  }

  // ----- grades and the leaderboard -----

  ghost predicate GradesAlwaysUnique(faults: Faults) {
    forall c: Config, s0: State, s: State :: Reachable(c, s0, s, faults) ==> G.OneGradePerGrader(s.book)
  }

  /** Under whichever tasks the items are of, and whichever filters. */
  ghost predicate LeaderboardAlwaysRight(faults: Faults) {
    forall c: Config, s0: State, s: State, tasks: seq<L.Task>, run: nat, f: L.Filters ::
      Reachable(c, s0, s, faults) && L.TasksOk(s, tasks) ==> QueryIsRight(s, tasks, run, f)
  }

  /** The query has the succeeded items that pass the filters, once each. */
  ghost predicate QueryIsRight(s: State, tasks: seq<L.Task>, run: nat, f: L.Filters) {
    var db := L.Tables(L.ItemRows(s, run), tasks, s.book);
    L.EffectiveRows(db, f) == Relations.Map(Filter(db.items, L.Counted(db, f)), L.RowOf(db))
  }

  lemma GradesUnique(faults: Faults)
    requires SingleMessage(faults)
    ensures GradesAlwaysUnique(faults)
  {
    hide Apply, Enabled, Initial, G.OneGradePerGrader;
    forall c: Config, s0: State, s: State | Reachable(c, s0, s, faults) ensures G.OneGradePerGrader(s.book) {
      var tr :| IsRun(c, s0, tr) && End(c, s0, tr) == s;
      GradedRuns.GradesStayUnique(c, s0, tr);
    }
  }

  lemma LeaderboardRight(faults: Faults)
    requires SingleMessage(faults)
    ensures LeaderboardAlwaysRight(faults)
  {
    hide Apply, Enabled, Initial, L.EffectiveRows, L.Counted, L.RowOf, L.Aggregable;
    forall c: Config, s0: State, s: State, tasks: seq<L.Task>, run: nat, f: L.Filters |
      Reachable(c, s0, s, faults) && L.TasksOk(s, tasks)
      ensures QueryIsRight(s, tasks, run, f)
    {
      var tr :| IsRun(c, s0, tr) && End(c, s0, tr) == s;
      L.LeaderboardOfRun(c, s0, tr, tasks, run, f);
    }
  }

  lemma RaceReachesTwice(faults: Faults) returns (c: Config, s: State)
    requires !SingleMessage(faults)
    ensures Reachable(c, Start(1, 2), s, faults) && DoubleGrading.GradedTwice(s)
  {
    hide Initial, Reaches, Reachable, DoubleGrading.GradedTwice;
    c := Tries(1, 5000, faults);
    var r := ReachRaced(c, 1);
    DoubleGrading.RaceGradesTwice(c, Start(1, 2), r);
    s :| Reaches(c, Start(1, 2), s, r) && DoubleGrading.GradedTwice(s);
    Witness(c, Start(1, 2), s, r, 1, 2);
  }

  /** At most one grade per (item, grader) in every reachable state, if and only
      if items have one message. */
  lemma GradesUniqueIffSingleMessage(faults: Faults)
    ensures GradesAlwaysUnique(faults) <==> SingleMessage(faults)
  {
    if SingleMessage(faults) {
      GradesUnique(faults);
    } else {
      hide Reachable, G.OneGradePerGrader;
      var c, s := RaceReachesTwice(faults);
      DoubleGrading.GradesRepeat(s);
    }
  }

  /** The joins of the leaderboard never fan out, and its rows are right over the
      tables of every run, under the same condition. */
  lemma LeaderboardRightIffSingleMessage(faults: Faults)
    ensures LeaderboardAlwaysRight(faults) <==> SingleMessage(faults)
  {
    if SingleMessage(faults) {
      LeaderboardRight(faults);
    } else {
      var c, s := RaceReachesTwice(faults);
      var tasks, f := DoubleGrading.OneTask(), DoubleGrading.Unfiltered();
      assert L.TasksOk(s, tasks) by {
        assert tasks[0].id == 0;
      }
      hide Reachable, L.TasksOk, L.EffectiveRows, L.Counted, L.RowOf;
      DoubleGrading.CountedTwice(s, 0);
      assert !QueryIsRight(s, tasks, 0, f);
    }
  }

  // ----- completed runs -----

  ghost predicate CompletedAlwaysHonest(faults: Faults) {
    forall c: Config, s0: State, s: State :: Reachable(c, s0, s, faults) && s.run.status.Completed? ==>
      !AnyUnfinished(s.items)
  }

  lemma CompletedHonest(faults: Faults)
    requires SingleMessage(faults) && !faults.replayAborted
    ensures CompletedAlwaysHonest(faults)
  {
    hide Apply, Enabled, Initial;
    forall c: Config, s0: State, s: State | Reachable(c, s0, s, faults) && s.run.status.Completed?
      ensures !AnyUnfinished(s.items)
    {
      var tr :| IsRun(c, s0, tr) && End(c, s0, tr) == s;
      RunOutcome.CompletedIsFinal(c, s0, tr, []);
    }
  }

  lemma CompletedDishonest(faults: Faults)
    requires !SingleMessage(faults) || faults.replayAborted
    ensures !CompletedAlwaysHonest(faults)
  {
    hide Initial, Reaches, Reachable, AnyUnfinished;
    var c := Tries(1, 0, faults);
    if SingleMessage(faults) {
      AbortReplayRevivesItem(c);
      var s :| Reaches(c, Start(3, 2), s, 1) && s.run.status.Completed? && AnyUnfinished(s.items);
      Witness(c, Start(3, 2), s, 1, 3, 2);
    } else {
      var r := ReachRaced(c, 1);
      RaceRevivesItem(c, Start(1, 2), r);
      var s :| Reaches(c, Start(1, 2), s, r) && s.run.status.Completed? && AnyUnfinished(s.items);
      Witness(c, Start(1, 2), s, r, 1, 2);
    }
  }

  /** A completed run never has an unfinished item if and only if, besides,
      aborted runs are not replayed. */
  lemma CompletedHonestIff(faults: Faults)
    ensures CompletedAlwaysHonest(faults) <==> SingleMessage(faults) && !faults.replayAborted
  {
    hide CompletedAlwaysHonest, SingleMessage;
    if SingleMessage(faults) && !faults.replayAborted {
      CompletedHonest(faults);
    } else {
      CompletedDishonest(faults);
    }
  }

  // ----- stuck runs -----

  ghost predicate NeverStuck(faults: Faults) {
    forall c: Config, s0: State, s: State :: Reachable(c, s0, s, faults) && Progress.Quiescent(s) ==>
      Progress.Terminal(s.run)
  }

  lemma HarmlessNeverStuck(faults: Faults)
    requires Progress.Harmless(faults)
    ensures NeverStuck(faults)
  {
    hide Apply, Enabled, Initial, Progress.Quiescent, Progress.Terminal, Progress.Harmless;
    forall c: Config, s0: State, s: State | Reachable(c, s0, s, faults) && Progress.Quiescent(s)
      ensures Progress.Terminal(s.run)
    {
      var tr :| IsRun(c, s0, tr) && End(c, s0, tr) == s;
      Progress.NoStuckRun(c, s0, tr);
    }
  }

  lemma RaceStuck(faults: Faults)
    requires !SingleMessage(faults)
    ensures !NeverStuck(faults)
  {
    hide Initial, Reaches, Reachable, Progress.Quiescent;
    var c, s0 := Tries(1, 0, faults), Start(1, 1);
    var r := ReachRaced(c, 0);
    RaceStrandsRun(c, s0, r);
    var s :| Reaches(c, s0, s, r + 1) && Progress.Quiescent(s) && s.run.status.Running?;
    Witness(c, s0, s, r + 1, 1, 1);
  }

  lemma CrashStuck(faults: Faults, point: Point)
    requires point in UNWRITTEN + UNCHECKED && point in faults.crashIn
    ensures !NeverStuck(faults)
  {
    var c, s0 := Tries(if point.BeforeLaterAttempt? then 2 else 1, 2500, faults), Start(1, 1);
    assert Visits(c, point);
    hide Initial, Reaches, Reachable, Visits, Progress.Quiescent;
    CrashStrandsRun(c, point);
    var s :| Reaches(c, s0, s, 0) && Progress.Quiescent(s) && s.run.status.Running?;
    Witness(c, s0, s, 0, 1, 1);
  }

  lemma PointCases(point: Point)
    ensures || point in Progress.HARMLESS || point in UNWRITTEN + UNCHECKED
            || point == LateCompletion || point == LateAcknowledge
  {
  }

  /** A run that has gone quiet has always ended if and only if, besides, every
      crash falls before the first attempt, before a cancel or abort write, or
      before the acknowledgement. */
  lemma NeverStuckIffHarmless(faults: Faults)
    ensures NeverStuck(faults) <==> Progress.Harmless(faults)
  {
    hide NeverStuck;
    if Progress.Harmless(faults) {
      HarmlessNeverStuck(faults);
    } else if !SingleMessage(faults) {
      RaceStuck(faults);
    } else {
      var point :| point in faults.crashIn && point !in Progress.HARMLESS;
      PointCases(point);
      CrashStuck(faults, point);
    }
  }

  // ----- cancelled runs -----

  ghost predicate CancelledNeverQueued(faults: Faults) {
    forall c: Config, s0: State, s: State, i :: Reachable(c, s0, s, faults) && s.run.status.Cancelled? && 0 <= i < |s.items| ==>
      !s.items[i].status.Queued?
  }

  /** A cancelled run has no queued item if and only if no cancel commits between
      the read and the write of a replay, whatever else happens. */
  lemma CancelledNeverQueuedIff(faults: Faults)
    ensures CancelledNeverQueued(faults) <==> !faults.cancelDuringReplay
  {
    if !faults.cancelDuringReplay {
      hide Apply, Enabled;
      forall c: Config, s0: State, s: State, i |
        Reachable(c, s0, s, faults) && s.run.status.Cancelled? && 0 <= i < |s.items|
        ensures !s.items[i].status.Queued?
      {
        var tr :| IsRun(c, s0, tr) && End(c, s0, tr) == s;
        RunOutcome.RunKeepsSwept(c, s0, tr);
      }
    } else {
      hide Initial, Reaches, Reachable;
      var c, s0 := Tries(1, 0, faults), Start(2, 1);
      CancelledRunQueues(c);
      var s :| Reaches(c, s0, s, 1) && s.run.status.Cancelled? && |s.items| == 2 && s.items[0].status.Queued?;
      Witness(c, s0, s, 1, 2, 1);
    }
  }

  // ----- succeeded items -----

  ghost predicate SucceededIsKept(faults: Faults) {
    forall c: Config, s0: State, s: State, a :: Reachable(c, s0, s, faults) && Enabled(c, s, a) ==>
      Results.KeepsSucceeded(s, a, Apply(c, s, a))
  }

  lemma ResultsKept(faults: Faults)
    requires Results.KeepsResults(faults)
    ensures SucceededIsKept(faults) && CancelledIsFailed(faults)
  {
    hide Apply, Enabled, Initial, Results.KeepsSucceeded, Results.CancelsTruly;
    forall c: Config, s0: State, s: State, a | Reachable(c, s0, s, faults) && Enabled(c, s, a)
      ensures Results.KeepsSucceeded(s, a, Apply(c, s, a)) && Results.CancelsTruly(s, a, Apply(c, s, a))
    {
      var tr :| IsRun(c, s0, tr) && End(c, s0, tr) == s;
      Results.ResultsAreKept(c, s0, tr, a);
    }
  }

  lemma RaceRestarts(faults: Faults)
    requires !SingleMessage(faults)
    ensures !SucceededIsKept(faults)
  {
    hide Initial, Reaches, Reachable;
    var c, s0 := Tries(1, 0, faults), Start(1, 2);
    var r := ReachRaced(c, 1);
    RaceRestartsSucceeded(c, s0, r);
    var s :| Reaches(c, s0, s, r) && Enabled(c, s, CallProvider(1, Retryable))
             && s.workers[1].item == 0 && s.items[0].status.Succeeded?;
    Witness(c, s0, s, r, 1, 2);
    RestartLoses(c, s);
  }

  lemma RestartLoses(c: Config, s: State)
    requires Enabled(c, s, CallProvider(1, Retryable)) && s.workers[1].item == 0 && s.items[0].status.Succeeded?
    ensures !Results.KeepsSucceeded(s, CallProvider(1, Retryable), Apply(c, s, CallProvider(1, Retryable)))
  {
  }

  lemma CrashFailsSucceeded(faults: Faults, point: Point)
    requires point in UNCHECKED + {BeforeAcknowledge} && point in faults.crashIn
    ensures !SucceededIsKept(faults)
  {
    var c, s0 := Tries(1, 2500, faults), Start(2, 1);
    hide Initial, Reaches, Reachable;
    ReachDoneWithMessage(c, point);
    AbortFailsSucceeded(c, s0);
    var s :| Reaches(c, s0, s, 0) && FailsSucceeded(s, 0);
    Witness(c, s0, s, 0, 2, 1);
    AbortLoses(c, s);
  }

  lemma AbortLoses(c: Config, s: State)
    requires FailsSucceeded(s, 0)
    ensures Enabled(c, s, Advance(0)) && !Results.KeepsSucceeded(s, Advance(0), Apply(c, s, Advance(0)))
  {
  }

  /** Only a grading error takes an item out of succeeded if and only if no
      crash brings back the message of a succeeded item. */
  lemma SucceededIsKeptIff(faults: Faults)
    ensures SucceededIsKept(faults) <==> Results.KeepsResults(faults)
  {
    hide SucceededIsKept;
    if Results.KeepsResults(faults) {
      ResultsKept(faults);
    } else if !SingleMessage(faults) {
      RaceRestarts(faults);
    } else {
      var point :| point in faults.crashIn && point in Results.FINISHED;
      CrashFailsSucceeded(faults, point);
    }
  }

  ghost predicate CancelledIsFailed(faults: Faults) {
    forall c: Config, s0: State, s: State, a :: Reachable(c, s0, s, faults) && Enabled(c, s, a) ==>
      Results.CancelsTruly(s, a, Apply(c, s, a))
  }

  lemma RaceCancels(faults: Faults)
    requires !SingleMessage(faults)
    ensures !CancelledIsFailed(faults)
  {
    hide Initial, Reaches, Reachable;
    var c, s0 := Tries(1, 0, faults), Start(1, 2);
    var r := ReachRaced(c, 1);
    RaceCancelsSucceeded(c, s0, r);
    var s :| Reaches(c, s0, s, r) && CancelsSucceeded(s, 1);
    Witness(c, s0, s, r, 1, 2);
    CancelLies(c, s, 1);
  }

  lemma CrashCancelsSucceeded(faults: Faults, point: Point)
    requires point in UNCHECKED + {BeforeAcknowledge} && point in faults.crashIn
    ensures !CancelledIsFailed(faults)
  {
    var c, s0 := Tries(1, 2500, faults), Start(2, 1);
    hide Initial, Reaches, Reachable;
    ReachDoneWithMessage(c, point);
    CancelMissesSucceeded(c, s0, DoneWithMessage(), 0, 0);
    var s :| Reaches(c, s0, s, 0) && CancelsSucceeded(s, 0);
    Witness(c, s0, s, 0, 2, 1);
    CancelLies(c, s, 0);
  }

  lemma CancelLies(c: Config, s: State, w: nat)
    requires CancelsSucceeded(s, w)
    ensures Enabled(c, s, Advance(w)) && !Results.CancelsTruly(s, Advance(w), Apply(c, s, Advance(w)))
  {
  }

  /** Every reply that an item failed by cancellation is true under the same
      condition. */
  lemma CancelledIsFailedIff(faults: Faults)
    ensures CancelledIsFailed(faults) <==> Results.KeepsResults(faults)
  {
    hide CancelledIsFailed;
    if Results.KeepsResults(faults) {
      ResultsKept(faults);
    } else if !SingleMessage(faults) {
      RaceCancels(faults);
    } else {
      var point :| point in faults.crashIn && point in Results.FINISHED;
      CrashCancelsSucceeded(faults, point);
    }
  }

  // ----- the overshoot -----

  ghost predicate WithinBound(faults: Faults) {
    forall c: Config, s0: State, tr, most: nat ::
      && c.faults == faults && Initial(s0) && c.spendLimit >= 0 && IsRun(c, s0, tr)
      && Spend.CallsWithin(c, s0, tr, most) ==>
        End(c, s0, tr).run.totalCost <= c.spendLimit + most * (|s0.workers| + Spend.Replays(tr))
  }

  /** Some run in the environment spends more than the bound allows. */
  lemma Exceeds(c: Config, s0: State, s: State, r: nat, n: nat, workers: nat)
    requires s0 == Start(n, workers) && Reaches(c, s0, s, r) && c.spendLimit == 0
    requires s.run.totalCost > 2500 * (workers + r)
    ensures !WithinBound(c.faults)
  {
    hide Apply, Enabled, Initial, Spend.CallsWithin, Spend.Replays;
    StartIsInitial(n, workers);
    assert |s0.workers| == workers;
    var tr :| IsRun(c, s0, tr) && End(c, s0, tr) == s && Spend.CallsWithin(c, s0, tr, 2500) && Spend.Replays(tr) == r;
  }

  lemma CrashExceeds(faults: Faults)
    requires !Tokens.PaysOnce(faults)
    ensures !WithinBound(faults)
  {
    hide WithinBound, Reaches;
    var c := Tries(1, 0, faults);
    if BeforeAbortCheck in faults.crashIn {
      CrashHidesOvershoot(c);
      var s :| Reaches(c, Start(2, 1), s, 0) && s.run.totalCost == 2 * 2500;
      Exceeds(c, Start(2, 1), s, 0, 2, 1);
    } else if point: Point :| point in {LateCompletion, LateAcknowledge} && point in faults.crashIn {
      Overspending.LateCrashOverspends(c, Start(5, 3), point);
      var s :| Reaches(c, Start(5, 3), s, 1) && s.run.totalCost == 5 * 2500;
      Exceeds(c, Start(5, 3), s, 1, 5, 3);
    } else {
      var point :| point in Tokens.PAID && point in faults.crashIn;
      Overspending.PaidCrashOverspends(c, point);
      var s :| Reaches(c, Start(1, 4), s, 13) && s.run.totalCost == 18 * 2500;
      Exceeds(c, Start(1, 4), s, 13, 1, 4);
    }
  }

  /** limit + (W + R) * C bounds every run if and only if no crash falls before
      an abort check or after dead-lettering an item, and, where replays overlap,
      none falls once an execution has paid. */
  lemma BoundIffPaysOnce(faults: Faults)
    ensures WithinBound(faults) <==> Tokens.PaysOnce(faults)
  {
    if Tokens.PaysOnce(faults) {
      hide Apply, Enabled, Initial, Spend.CallsWithin, Spend.Replays, Tokens.PaysOnce;
      forall c: Config, s0: State, tr, most: nat |
        && c.faults == faults && Initial(s0) && c.spendLimit >= 0 && IsRun(c, s0, tr)
        && Spend.CallsWithin(c, s0, tr, most)
        ensures End(c, s0, tr).run.totalCost <= c.spendLimit + most * (|s0.workers| + Spend.Replays(tr))
      {
        Tokens.SpendIsBounded(c, s0, tr, most);
      }
    } else {
      CrashExceeds(faults);
    }
  }

  /** The spend limit is overshot by one completion at most, as documented, when
      workers do not crash and nothing is replayed. */
  ghost predicate OneCompletionSuffices(pool: nat) {
    forall c: Config, s0: State, tr, most: nat ::
      && Initial(s0) && |s0.workers| == pool && c.spendLimit >= 0 && IsRun(c, s0, tr) && c.faults.crashIn == {}
      && Spend.CallsWithin(c, s0, tr, most) && Spend.Replays(tr) == 0 ==>
        End(c, s0, tr).run.totalCost <= c.spendLimit + most
  }

  /** The documented bound holds of a pool of one worker and of no larger. */
  lemma OneCompletionIffOneWorker(pool: nat)
    ensures OneCompletionSuffices(pool) <==> pool <= 1
  {
    hide Apply, Enabled, Initial, Spend.CallsWithin, Spend.Replays;
    if pool <= 1 {
      forall c: Config, s0: State, tr, most: nat |
        && Initial(s0) && |s0.workers| == pool && c.spendLimit >= 0 && IsRun(c, s0, tr) && c.faults.crashIn == {}
        && Spend.CallsWithin(c, s0, tr, most) && Spend.Replays(tr) == 0
        ensures End(c, s0, tr).run.totalCost <= c.spendLimit + most
      {
        Tokens.SpendIsBounded(c, s0, tr, most);
        assert most * pool <= most;
      }
    } else {
      var c, s0 := Tries(1, 0, Faults({}, false, false, false)), Start(pool, pool);
      Tightness.BoundIsAttained(c, 0, 0, pool);
      StartIsInitial(pool, pool);
      var s :| Reaches(c, s0, s, 0) && s.run.totalCost == c.spendLimit + 2500 * pool;
      var tr :| IsRun(c, s0, tr) && End(c, s0, tr) == s && Spend.CallsWithin(c, s0, tr, 2500) && Spend.Replays(tr) == 0;
      assert |s0.workers| == pool;
    }
  }
}
