/** How the spend bound breaks when a crash returns a message it should not: one
    of an item that was given up, or one whose execution has paid while replays
    overlap. The limit is 0. */
module Overspending {
  import opened Options
  import opened Protocol
  import opened Safety
  import opened Traces
  import opened Tokens
  import G = Grading

  // ----- one item and any number of its messages -----

  function Copies(q: nat): multiset<nat> {
    if q == 0 then multiset{} else Copies(q - 1) + multiset{0}
  }

  function Solo(run: Run, it: Item, q: nat, ws: seq<Phase>): State {
    State(run, [it], G.Book([], []), Copies(q), ws, multiset{})
  }

  /** The item can be executed and has cost nothing so far. */
  predicate Payable(it: Item) {
    it.status.Queued? && it.model == "gpt-4o" && CostOf(it) == 0 && TokensOf(it) == 0
  }

  lemma SoloTake(c: Config, s0: State, run: Run, it: Item, q: nat, ws: seq<Phase>, w: nat, r: nat)
    requires Reaches(c, s0, Solo(run, it, q + 1, ws), r) && c.maxAttempts >= 1
    requires run.status.Running? && Payable(it) && w < |ws| && ws[w].Idle?
    ensures Reaches(c, s0, Solo(run, it, q, ws[w := Attempt(0, 1, 0, 0)]), r)
  {
    hide Reaches;
    TakeAgain(c, s0, Solo(run, it, q + 1, ws), w, 0, r);
    assert Copies(q + 1) - multiset{0} == Copies(q);
  }

  function CostHere(it: Item, answer: Completion): nat {
    Price(it, answer)
  }

  function PaidItem(it: Item, answer: Completion): Item {
    MarkSucceeded(MarkRunning(it), answer, CostHere(it, answer))
  }

  function PaidRun(run: Run, it: Item, answer: Completion): Run {
    Rollup(run, CostHere(it, answer), answer.promptTokens + answer.completionTokens)
  }

  lemma SoloPay(c: Config, s0: State, run: Run, it: Item, q: nat, ws: seq<Phase>, w: nat, answer: Completion, r: nat)
    requires Reaches(c, s0, Solo(run, it, q, ws), r) && w < |ws| && ws[w] == Attempt(0, 1, 0, 0)
    requires run.status.Running? && it.model == "gpt-4o" && CostHere(it, answer) <= 2500
    ensures Reaches(c, s0, Solo(PaidRun(run, it, answer), PaidItem(it, answer), q, ws[w := AbortCheck(0)]), r)
  {
    hide Reaches, Price, Copies;
    var s := Solo(run, it, q, ws);
    FinishWith(c, s0, s, w, answer, r);
    assert [it][0 := PaidItem(it, answer)] == [PaidItem(it, answer)];
  }

  /** The execution dead-letters the item, and its check fails the run. */
  lemma SoloDrop(c: Config, s0: State, run: Run, it: Item, q: nat, ws: seq<Phase>, w: nat, r: nat)
    requires Reaches(c, s0, Solo(run, it, q, ws), r) && c.maxAttempts == 1
    requires w < |ws| && ws[w] == Attempt(0, 1, 0, 0) && run.status.Running? && it.model == "gpt-4o"
    ensures Reaches(c, s0, Solo(run.(status := RunStatus.Failed), DroppedItem(it), q, ws[w := Idle]), r)
  {
    hide Reaches, Copies;
    var s := Solo(run, it, q, ws);
    Drop(c, s0, s, w, r);
    var s1 := Written(s, w, DroppedItem(it), CompleteCheck(0, true));
    assert s1.items == [DroppedItem(it)] && s1.items[0].status.DeadLettered?;
    Check(c, s0, s1, w, r);
    assert MaybeComplete(s1.run, s1.items) == run.(status := RunStatus.Failed);
    assert s1.workers[w := Idle] == ws[w := Idle];
  }

  // ----- a paid execution crashes in a run that has failed -----

  /** The steps from the abort check to the acknowledgement of a failed run. */
  function WayOut(n: nat): Phase
    requires n <= 4
  {
    if n == 0 then AbortCheck(0) else if n == 1 then Grading(0) else if n == 2 then Judging(0)
    else if n == 3 then CompleteCheck(0, false) else Acknowledge(0, false)
  }

  lemma WayOutStep(c: Config, s0: State, run: Run, it: Item, q: nat, ws: seq<Phase>, w: nat, n: nat, r: nat)
    requires Reaches(c, s0, Solo(run, it, q, ws), r) && run.status.Failed?
    requires n < 4 && w < |ws| && ws[w] == WayOut(n)
    ensures Reaches(c, s0, Solo(run, it, q, ws[w := WayOut(n + 1)]), r)
  {
    hide Reaches, Copies;
    var s := Solo(run, it, q, ws);
    if n == 2 {
      var report := G.Report(None, G.NoRubric);
      assert G.CommitGrades(c.grading, s.book, 0, report) == s.book;
      Go(c, s0, s, Judge(w, report), r);
    } else {
      assert G.GradesOf(s.book, 0) == [];
      Go(c, s0, s, Advance(w), r);
    }
  }

  lemma {:induction false} WalkOut(c: Config, s0: State, run: Run, it: Item, q: nat, ws: seq<Phase>, w: nat, n: nat, r: nat)
    requires Reaches(c, s0, Solo(run, it, q, ws), r) && run.status.Failed?
    requires n <= 4 && w < |ws| && ws[w] == AbortCheck(0)
    ensures Reaches(c, s0, Solo(run, it, q, ws[w := WayOut(n)]), r)
  {
    hide Reaches, Solo;
    if n == 0 {
      assert ws[w := WayOut(0)] == ws;
    } else {
      WalkOut(c, s0, run, it, q, ws, w, n - 1, r);
      WayOutStep(c, s0, run, it, q, ws[w := WayOut(n - 1)], w, n - 1, r);
      assert ws[w := WayOut(n - 1)][w := WayOut(n)] == ws[w := WayOut(n)];
    }
  }

  lemma GradingFails(c: Config, s0: State, run: Run, it: Item, q: nat, ws: seq<Phase>, w: nat, r: nat)
    requires Reaches(c, s0, Solo(run, it, q, ws), r) && w < |ws| && ws[w] == Judging(0)
    ensures Reaches(c, s0, Solo(run, it, q, ws[w := GradingFailed(0)]), r)
  {
    hide Reaches, Copies;
    Go(c, s0, Solo(run, it, q, ws), Judge(w, G.Report(None, G.JudgeError)), r);
  }

  lemma SoloCrash(c: Config, s0: State, run: Run, it: Item, q: nat, ws: seq<Phase>, w: nat, r: nat)
    requires Reaches(c, s0, Solo(run, it, q, ws), r) && w < |ws| && !ws[w].Idle? && ws[w].item == 0
    requires PointOf(ws[w]) in c.faults.crashIn
    ensures Reaches(c, s0, Solo(run, it, q + 1, ws[w := Idle]), r)
  {
    hide Reaches;
    Go(c, s0, Solo(run, it, q, ws), Crash(w), r);
  }

  /** How far along its way out an execution crashes at the point. */
  function StepsTo(point: Point): nat {
    if point.BeforeGrading? then 1 else if point.BeforeJudging? || point.BeforeGradingFailure? then 2
    else if point.BeforeCompletion? then 3 else 4
  }

  lemma PaidPoints(point: Point)
    requires point in PAID
    ensures StepsTo(point) <= 4
    ensures if point.BeforeGradingFailure? then WayOut(StepsTo(point)) == Judging(0) && PointOf(GradingFailed(0)) == point
            else PointOf(WayOut(StepsTo(point))) == point
    ensures !WayOut(StepsTo(point)).Idle? && WayOut(StepsTo(point)).item == 0
  {
  }

  /** The message of a paid execution comes back. */
  lemma Bounce(c: Config, s0: State, run: Run, it: Item, q: nat, ws: seq<Phase>, w: nat, point: Point, r: nat)
    requires Reaches(c, s0, Solo(run, it, q, ws), r) && run.status.Failed? && w < |ws| && ws[w] == AbortCheck(0)
    requires point in PAID && point in c.faults.crashIn
    ensures Reaches(c, s0, Solo(run, it, q + 1, ws[w := Idle]), r)
  {
    hide Reaches, Solo, WayOut, StepsTo, PointOf, PAID;
    PaidPoints(point);
    var p := WayOut(StepsTo(point));
    WalkOut(c, s0, run, it, q, ws, w, StepsTo(point), r);
    if point.BeforeGradingFailure? {
      GradingFails(c, s0, run, it, q, ws[w := p], w, r);
      assert ws[w := p][w := GradingFailed(0)] == ws[w := GradingFailed(0)];
      SoloCrash(c, s0, run, it, q, ws[w := GradingFailed(0)], w, r);
      assert ws[w := GradingFailed(0)][w := Idle] == ws[w := Idle];
    } else {
      SoloCrash(c, s0, run, it, q, ws[w := p], w, r);
      assert ws[w := p][w := Idle] == ws[w := Idle];
    }
  }

  lemma SoloReplay(c: Config, s0: State, run: Run, it: Item, q: nat, ws: seq<Phase>, r: nat)
    requires Reaches(c, s0, Solo(run, it, q, ws), r)
    requires run.status.Failed? && !run.error && it.status.DeadLettered?
    ensures Reaches(c, s0, Solo(run.(status := RunStatus.Running), Requeue(it), q + 1, ws), r + 1)
  {
    hide Reaches;
    ReplayAtOnce(c, s0, Solo(run, it, q, ws), 0, r);
    assert [it][0 := Requeue(it)] == [Requeue(it)];
  }

  // ----- rounds -----

  function Free(): Completion {
    Completion(0, 0, 5)
  }

  function Four(p0: Phase, p1: Phase, p2: Phase, p3: Phase): seq<Phase> {
    [p0, p1, p2, p3]
  }

  /** Four messages of the item are queued, four workers are idle, and the run is
      open. */
  ghost predicate Ready(c: Config, s0: State, run: Run, it: Item, r: nat) {
    && Reaches(c, s0, Solo(run, it, 4, Four(Idle, Idle, Idle, Idle)), r)
    && run.status.Running? && !run.error && Payable(it)
  }

  lemma TakeFour(c: Config, s0: State, run: Run, it: Item, r: nat)
    requires Ready(c, s0, run, it, r) && c.maxAttempts == 1
    ensures var t := Attempt(0, 1, 0, 0); Reaches(c, s0, Solo(run, it, 0, Four(t, t, t, t)), r)
  {
    hide Reaches, Payable, Solo;
    var t := Attempt(0, 1, 0, 0);
    SoloTake(c, s0, run, it, 3, Four(Idle, Idle, Idle, Idle), 0, r);
    assert Four(Idle, Idle, Idle, Idle)[0 := t] == Four(t, Idle, Idle, Idle);
    SoloTake(c, s0, run, it, 2, Four(t, Idle, Idle, Idle), 1, r);
    assert Four(t, Idle, Idle, Idle)[1 := t] == Four(t, t, Idle, Idle);
    SoloTake(c, s0, run, it, 1, Four(t, t, Idle, Idle), 2, r);
    assert Four(t, t, Idle, Idle)[2 := t] == Four(t, t, t, Idle);
    SoloTake(c, s0, run, it, 0, Four(t, t, t, Idle), 3, r);
    assert Four(t, t, t, Idle)[3 := t] == Four(t, t, t, t);
  }

  lemma Prices(it: Item)
    requires it.model == "gpt-4o"
    ensures CostHere(it, Answer()) == 2500 && CostHere(it, Free()) == 0
    ensures PaidItem(it, Answer()).model == "gpt-4o" && PaidItem(it, Free()).model == "gpt-4o"
  {
  }

  /** One of the four executions pays. */
  lemma PayOne(c: Config, s0: State, run: Run, it: Item, ws: seq<Phase>, w: nat, answer: Completion, r: nat) returns (run': Run)
    requires Reaches(c, s0, Solo(run, it, 0, ws), r) && w < |ws| && ws[w] == Attempt(0, 1, 0, 0)
    requires run.status.Running? && !run.error && it.model == "gpt-4o" && CostHere(it, answer) <= 2500
    ensures Reaches(c, s0, Solo(run', PaidItem(it, answer), 0, ws[w := AbortCheck(0)]), r)
    ensures run'.totalCost == run.totalCost + CostHere(it, answer) && run'.status.Running? && !run'.error
  {
    SoloPay(c, s0, run, it, 0, ws, w, answer, r);
    run' := PaidRun(run, it, answer);
    hide Reaches, Solo, CostHere;
  }

  function PaidOnce(it: Item): Item {
    PaidItem(it, Answer())
  }

  /** Two executions pay 2500 each and a third one nothing, which is what the
      row then records; the fourth one dead-letters the item. */
  function SpentItem(it: Item): Item {
    DroppedItem(PaidItem(PaidOnce(PaidOnce(it)), Free()))
  }

  lemma PayTwo(c: Config, s0: State, run: Run, it: Item, r: nat) returns (run': Run)
    requires var t := Attempt(0, 1, 0, 0); Reaches(c, s0, Solo(run, it, 0, Four(t, t, t, t)), r)
    requires run.status.Running? && !run.error && it.model == "gpt-4o"
    ensures var a, t := AbortCheck(0), Attempt(0, 1, 0, 0);
            Reaches(c, s0, Solo(run', PaidOnce(PaidOnce(it)), 0, Four(a, a, t, t)), r)
    ensures run'.totalCost == run.totalCost + 5000 && run'.status.Running? && !run'.error
  {
    hide Reaches, Solo, CostHere, PaidItem;
    var a, t := AbortCheck(0), Attempt(0, 1, 0, 0);
    Prices(it);
    Prices(PaidOnce(it));
    var run1 := PayOne(c, s0, run, it, Four(t, t, t, t), 0, Answer(), r);
    assert Four(t, t, t, t)[0 := a] == Four(a, t, t, t);
    run' := PayOne(c, s0, run1, PaidOnce(it), Four(a, t, t, t), 1, Answer(), r);
    assert Four(a, t, t, t)[1 := a] == Four(a, a, t, t);
  }

  lemma PayThree(c: Config, s0: State, run: Run, it: Item, r: nat) returns (run': Run)
    requires Ready(c, s0, run, it, r) && c.maxAttempts == 1
    ensures var a, t := AbortCheck(0), Attempt(0, 1, 0, 0);
            Reaches(c, s0, Solo(run', PaidItem(PaidOnce(PaidOnce(it)), Free()), 0, Four(a, a, a, t)), r)
    ensures run'.totalCost == run.totalCost + 5000 && run'.status.Running? && !run'.error
  {
    TakeFour(c, s0, run, it, r);
    assert it.model == "gpt-4o" && run.status.Running? && !run.error;
    hide Reaches, Solo, CostHere, PaidItem, Ready, Payable;
    var a, t := AbortCheck(0), Attempt(0, 1, 0, 0);
    var run2 := PayTwo(c, s0, run, it, r);
    Prices(it);
    Prices(PaidOnce(it));
    Prices(PaidOnce(PaidOnce(it)));
    run' := PayOne(c, s0, run2, PaidOnce(PaidOnce(it)), Four(a, a, t, t), 2, Free(), r);
    assert Four(a, a, t, t)[2 := a] == Four(a, a, a, t);
  }

  lemma SpentIsFree(it: Item)
    requires it.model == "gpt-4o"
    ensures Payable(Requeue(SpentItem(it))) && SpentItem(it).status.DeadLettered?
  {
    Prices(PaidOnce(PaidOnce(it)));
  }

  lemma BounceThree(c: Config, s0: State, run: Run, it: Item, point: Point, r: nat)
    requires var a := AbortCheck(0); Reaches(c, s0, Solo(run, it, 0, Four(a, a, a, Idle)), r)
    requires run.status.Failed? && point in PAID && point in c.faults.crashIn
    ensures Reaches(c, s0, Solo(run, it, 3, Four(Idle, Idle, Idle, Idle)), r)
  {
    hide Reaches, Solo, PAID;
    var a := AbortCheck(0);
    Bounce(c, s0, run, it, 0, Four(a, a, a, Idle), 0, point, r);
    assert Four(a, a, a, Idle)[0 := Idle] == Four(Idle, a, a, Idle);
    Bounce(c, s0, run, it, 1, Four(Idle, a, a, Idle), 1, point, r);
    assert Four(Idle, a, a, Idle)[1 := Idle] == Four(Idle, Idle, a, Idle);
    Bounce(c, s0, run, it, 2, Four(Idle, Idle, a, Idle), 2, point, r);
    assert Four(Idle, Idle, a, Idle)[2 := Idle] == Four(Idle, Idle, Idle, Idle);
  }

  lemma DropLast(c: Config, s0: State, run: Run, it: Item, r: nat)
    requires var a, t := AbortCheck(0), Attempt(0, 1, 0, 0); Reaches(c, s0, Solo(run, it, 0, Four(a, a, a, t)), r)
    requires c.maxAttempts == 1 && run.status.Running? && it.model == "gpt-4o"
    ensures var a := AbortCheck(0);
            Reaches(c, s0, Solo(run.(status := RunStatus.Failed), DroppedItem(it), 0, Four(a, a, a, Idle)), r)
  {
    hide Reaches, Solo;
    var a, t := AbortCheck(0), Attempt(0, 1, 0, 0);
    SoloDrop(c, s0, run, it, 0, Four(a, a, a, t), 3, r);
    assert Four(a, a, a, t)[3 := Idle] == Four(a, a, a, Idle);
  }

  /** One replay buys two completions: the paid messages are back. */
  lemma Round(c: Config, s0: State, run: Run, it: Item, point: Point, r: nat) returns (run': Run, it': Item)
    requires Ready(c, s0, run, it, r) && c.maxAttempts == 1 && point in PAID && point in c.faults.crashIn
    ensures Ready(c, s0, run', it', r + 1) && run'.totalCost == run.totalCost + 5000
  {
    var run1 := PayThree(c, s0, run, it, r);
    var paid, spent := PaidItem(PaidOnce(PaidOnce(it)), Free()), SpentItem(it);
    SpentIsFree(it);
    assert paid.model == "gpt-4o" && DroppedItem(paid) == spent;
    var failed := run1.(status := RunStatus.Failed);
    assert failed.(status := RunStatus.Running) == run1;
    hide Reaches, Solo, PaidItem, PaidOnce, SpentItem, Payable, PAID, Four, DroppedItem, Requeue;
    DropLast(c, s0, run1, paid, r);
    BounceThree(c, s0, failed, spent, point, r);
    SoloReplay(c, s0, failed, spent, 3, Four(Idle, Idle, Idle, Idle), r);
    run', it' := run1, Requeue(spent);
  }

  lemma {:induction false} Rounds(c: Config, s0: State, run0: Run, it0: Item, point: Point, n: nat, r: nat) returns (run: Run, it: Item)
    requires Ready(c, s0, run0, it0, r) && c.maxAttempts == 1 && point in PAID && point in c.faults.crashIn
    ensures Ready(c, s0, run, it, r + n) && run.totalCost == run0.totalCost + 5000 * n
    decreases n
  {
    hide Ready, PAID;
    if n == 0 {
      run, it := run0, it0;
    } else {
      run, it := Rounds(c, s0, run0, it0, point, n - 1, r);
      run, it := Round(c, s0, run, it, point, r + n - 1);
    }
  }

  // ----- four overlapping replays -----

  function Reading(run: Run, it: Item, q: nat, ws: seq<Phase>, p: nat): State {
    Solo(run, it, q, ws).(pending := Copies(p))
  }

  lemma {:induction false} ReadMany(c: Config, s0: State, run: Run, it: Item, ws: seq<Phase>, p: nat)
    requires Reaches(c, s0, Solo(run, it, 0, ws), 0) && c.faults.overlappingReplays
    requires it.status.DeadLettered? && !run.status.Cancelled?
    ensures Reaches(c, s0, Reading(run, it, 0, ws, p), 0)
  {
    hide Reaches;
    if p > 0 {
      ReadMany(c, s0, run, it, ws, p - 1);
      Go(c, s0, Reading(run, it, 0, ws, p - 1), ReplayRead(0), 0);
    } else {
      assert Reading(run, it, 0, ws, 0) == Solo(run, it, 0, ws);
    }
  }

  lemma OneLess(p: nat)
    ensures Copies(p + 1) - multiset{0} == Copies(p) && 0 in Copies(p + 1)
  {
  }

  lemma FirstWrite(c: Config, s0: State, run: Run, it: Item, ws: seq<Phase>, p: nat)
    requires Reaches(c, s0, Reading(run, it, 0, ws, p + 1), 0)
    requires it.status.DeadLettered? && run.status.Failed? && !run.error
    ensures Reaches(c, s0, Reading(run.(status := RunStatus.Running), Requeue(it), 1, ws, p), 1)
  {
    hide Reaches;
    OneLess(p);
    Go(c, s0, Reading(run, it, 0, ws, p + 1), ReplayWrite(0), 0);
    assert [it][0 := Requeue(it)] == [Requeue(it)];
    assert Copies(1) == Copies(0) + multiset{0};
  }

  lemma NextWrite(c: Config, s0: State, run: Run, it: Item, ws: seq<Phase>, q: nat, p: nat)
    requires Reaches(c, s0, Reading(run, it, q, ws, p + 1), q)
    requires it.status.Queued? && run.status.Running? && !run.error
    ensures Reaches(c, s0, Reading(run, it, q + 1, ws, p), q + 1)
  {
    hide Reaches;
    OneLess(p);
    assert Copies(q + 1) == Copies(q) + multiset{0};
    hide Copies;
    Go(c, s0, Reading(run, it, q, ws, p + 1), ReplayWrite(0), q);
    assert [it][0 := it] == [it];
  }

  /** The first write requeues the item; the others only enqueue. */
  lemma {:induction false} WriteMany(c: Config, s0: State, run: Run, it: Item, ws: seq<Phase>, q: nat, p: nat)
    requires Reaches(c, s0, Reading(run, it, 0, ws, q + p), 0) && q > 0
    requires it.status.DeadLettered? && run.status.Failed? && !run.error
    ensures Reaches(c, s0, Reading(run.(status := RunStatus.Running), Requeue(it), q, ws, p), q)
    decreases q
  {
    hide Reaches, Reading;
    if q == 1 {
      FirstWrite(c, s0, run, it, ws, p);
    } else {
      WriteMany(c, s0, run, it, ws, q - 1, p + 1);
      NextWrite(c, s0, run.(status := RunStatus.Running), Requeue(it), ws, q - 1, p);
    }
  }

  lemma ReachReady(c: Config) returns (run: Run, it: Item)
    requires c.maxAttempts == 1 && c.faults.overlappingReplays
    ensures Ready(c, Start(1, 4), run, it, 4) && run.totalCost == 0
  {
    hide Reaches;
    ReachOver(c, 0, 3);
    var ws := Four(Idle, Idle, Idle, Idle);
    var failed, dropped := RunAt(LateAcknowledge, 0), DroppedItem(QueuedItem());
    assert Over(0, 3, failed, dropped) == Solo(failed, dropped, 0, ws);
    ReadMany(c, Start(1, 4), failed, dropped, ws, 4);
    WriteMany(c, Start(1, 4), failed, dropped, ws, 4, 0);
    run, it := failed.(status := RunStatus.Running), Requeue(dropped);
    assert Reading(run, it, 4, ws, 0) == Solo(run, it, 4, ws);
  }

  /** Four workers, four overlapping replays, and nine rounds of one replay each:
      the bound allows 17 completions, and 18 are spent. */
  lemma PaidCrashOverspends(c: Config, point: Point)
    requires c.maxAttempts == 1 && c.faults.overlappingReplays && point in PAID && point in c.faults.crashIn
    ensures exists s :: Reaches(c, Start(1, 4), s, 13) && s.run.totalCost == 18 * 2500
  {
    hide Ready, PAID;
    var run, it := ReachReady(c);
    run, it := Rounds(c, Start(1, 4), run, it, point, 9, 4);
    assert Reaches(c, Start(1, 4), Solo(run, it, 4, Four(Idle, Idle, Idle, Idle)), 13) by {
      ReadyReaches(c, Start(1, 4), run, it, 13);
    }
  }

  lemma ReadyReaches(c: Config, s0: State, run: Run, it: Item, r: nat)
    requires Ready(c, s0, run, it, r)
    ensures Reaches(c, s0, Solo(run, it, 4, Four(Idle, Idle, Idle, Idle)), r)
  {
  }

  // ----- messages of items that were given up -----

  /** Some item other than item i is unfinished. */
  predicate OthersRemain(s: State, i: nat) {
    exists k :: 0 <= k < |s.items| && k != i && Unfinished(s.items[k])
  }

  /** Item i is dead-lettered, and the crash that follows returns its message. */
  function DroppedBack(s: State, w: nat, i: nat): State
    requires w < |s.workers| && i < |s.items|
  {
    At(SetItem(s, i, DroppedItem(s.items[i])), w, Idle).(queue := s.queue + multiset{i})
  }

  lemma DropBack(c: Config, s0: State, s: State, w: nat, point: Point, r: nat)
    requires Reaches(c, s0, s, r) && c.maxAttempts == 1 && FirstAttempt(s, w)
    requires point in {LateCompletion, LateAcknowledge} && point in c.faults.crashIn
    requires OthersRemain(s, s.workers[w].item)
    ensures Reaches(c, s0, DroppedBack(s, w, s.workers[w].item), r)
  {
    hide Reaches;
    var i := s.workers[w].item;
    Drop(c, s0, s, w, r);
    var s1 := Written(s, w, DroppedItem(s.items[i]), CompleteCheck(i, true));
    if point.LateCompletion? {
      Go(c, s0, s1, Crash(w), r);
      assert s1.workers[w := Idle] == s.workers[w := Idle];
    } else {
      var k :| 0 <= k < |s.items| && k != i && Unfinished(s.items[k]);
      assert Unfinished(s1.items[k]) && MaybeComplete(s1.run, s1.items) == s1.run;
      Go(c, s0, s1, Advance(w), r);
      var s2 := At(s1, w, Acknowledge(i, true));
      assert Apply(c, s1, Advance(w)) == s2;
      Go(c, s0, s2, Crash(w), r);
      assert s2.workers[w := Idle] == s.workers[w := Idle];
    }
  }

  /** Rows without grades, reviews or pending replays. */
  function Bare(run: Run, items: seq<Item>, queue: multiset<nat>, ws: seq<Phase>): State {
    State(run, items, G.Book([], []), queue, ws, multiset{})
  }

  function Begun(i: nat): Phase {
    Attempt(i, 1, 0, 0)
  }

  lemma BareTake(c: Config, s0: State, run: Run, items: seq<Item>, queue: multiset<nat>, ws: seq<Phase>, w: nat, i: nat, r: nat)
    requires Reaches(c, s0, Bare(run, items, queue, ws), r) && c.maxAttempts == 1 && run.status.Running?
    requires w < |ws| && ws[w].Idle? && i < |items| && i in queue
    requires (items[i].status.Queued? || items[i].status.DeadLettered?) && Unrecorded(items[i])
    ensures Reaches(c, s0, Bare(run, items, queue - multiset{i}, ws[w := Begun(i)]), r)
  {
    hide Reaches;
    TakeAgain(c, s0, Bare(run, items, queue, ws), w, i, r);
  }

  lemma BareFinish(c: Config, s0: State, n: nat, items: seq<Item>, queue: multiset<nat>, ws: seq<Phase>, w: nat, i: nat, r: nat)
    requires Reaches(c, s0, Bare(OpenRun(n), items, queue, ws), r)
    requires w < |ws| && ws[w] == Begun(i) && i < |items| && items[i].model == "gpt-4o"
    ensures Reaches(c, s0, Bare(OpenRun(n + 1), items[i := AnsweredItem(items[i])], queue, ws[w := AbortCheck(i)]), r)
  {
    hide Reaches;
    Finish(c, s0, Bare(OpenRun(n), items, queue, ws), w, r);
  }

  lemma BareDropBack(c: Config, s0: State, run: Run, items: seq<Item>, queue: multiset<nat>, ws: seq<Phase>, w: nat, i: nat, k: nat,
                     point: Point, r: nat)
    requires Reaches(c, s0, Bare(run, items, queue, ws), r) && c.maxAttempts == 1
    requires w < |ws| && ws[w] == Begun(i) && i < |items| && items[i].model == "gpt-4o"
    requires point in {LateCompletion, LateAcknowledge} && point in c.faults.crashIn
    requires k < |items| && k != i && Unfinished(items[k])
    ensures Reaches(c, s0, Bare(run, items[i := DroppedItem(items[i])], queue + multiset{i}, ws[w := Idle]), r)
  {
    hide Reaches;
    DropBack(c, s0, Bare(run, items, queue, ws), w, point, r);
  }

  /** The last unfinished item is dead-lettered, and the check fails the run. */
  lemma BareDropLast(c: Config, s0: State, run: Run, items: seq<Item>, queue: multiset<nat>, ws: seq<Phase>, w: nat, i: nat, r: nat)
    requires Reaches(c, s0, Bare(run, items, queue, ws), r) && c.maxAttempts == 1 && run.status.Running?
    requires w < |ws| && ws[w] == Begun(i) && i < |items| && items[i].model == "gpt-4o"
    requires forall k :: 0 <= k < |items| && k != i ==> !Unfinished(items[k])
    ensures Reaches(c, s0, Bare(run.(status := RunStatus.Failed), items[i := DroppedItem(items[i])], queue, ws[w := Idle]), r)
  {
    hide Reaches;
    var s := Bare(run, items, queue, ws);
    Drop(c, s0, s, w, r);
    var s1 := Written(s, w, DroppedItem(items[i]), CompleteCheck(i, true));
    Check(c, s0, s1, w, r);
    assert s1.items[i].status.DeadLettered? && !AnyUnfinished(s1.items);
    assert MaybeComplete(s1.run, s1.items) == run.(status := RunStatus.Failed);
    assert s1.workers[w := Idle] == ws[w := Idle];
  }

  /** From its abort check to its acknowledgement, in a failed run. */
  lemma BareWalkOut(c: Config, s0: State, run: Run, items: seq<Item>, queue: multiset<nat>, ws: seq<Phase>, w: nat, i: nat, r: nat)
    requires Reaches(c, s0, Bare(run, items, queue, ws), r) && run.status.Failed?
    requires w < |ws| && ws[w] == AbortCheck(i) && i < |items|
    ensures Reaches(c, s0, Bare(run, items, queue, ws[w := Idle]), r)
  {
    hide Reaches;
    WalkOff(c, s0, Bare(run, items, queue, ws), w, r);
  }

  lemma BareReplay(c: Config, s0: State, n: nat, items: seq<Item>, queue: multiset<nat>, ws: seq<Phase>, i: nat, r: nat)
    requires Reaches(c, s0, Bare(OpenRun(n).(status := RunStatus.Failed), items, queue, ws), r)
    requires i < |items| && items[i].status.DeadLettered?
    ensures Reaches(c, s0, Bare(OpenRun(n), items[i := Requeue(items[i])], queue + multiset{i}, ws), r + 1)
  {
    hide Reaches;
    ReplayAtOnce(c, s0, Bare(OpenRun(n).(status := RunStatus.Failed), items, queue, ws), i, r);
  }

  function Rows(a: Item, b: Item, c: Item, d: Item, e: Item): seq<Item> {
    [a, b, c, d, e]
  }

  function Three(p: Phase, q: Phase, r: Phase): seq<Phase> {
    [p, q, r]
  }

  /** A crash returns the message of item i, one of the first two. */
  lemma OneBack(c: Config, s0: State, rows: seq<Item>, i: nat, point: Point)
    requires Reaches(c, s0, Bare(OpenRun(0), rows, multiset{0, 1, 2, 3, 4}, Three(Idle, Idle, Idle)), 0)
    requires c.maxAttempts == 1 && point in {LateCompletion, LateAcknowledge} && point in c.faults.crashIn
    requires i < 2 && |rows| == 5 && rows[i] == QueuedItem() && rows[4] == QueuedItem()
    ensures Reaches(c, s0, Bare(OpenRun(0), rows[i := Dropped()], multiset{0, 1, 2, 3, 4}, Three(Idle, Idle, Idle)), 0)
  {
    hide Reaches, Bare;
    var all, idle := multiset{0, 1, 2, 3, 4}, Three(Idle, Idle, Idle);
    BareTake(c, s0, OpenRun(0), rows, all, idle, 0, i, 0);
    BareDropBack(c, s0, OpenRun(0), rows, all - multiset{i}, idle[0 := Begun(i)], 0, i, 4, point, 0);
    assert all - multiset{i} + multiset{i} == all && idle[0 := Begun(i)][0 := Idle] == idle;
  }

  /** Items 2 to 4 are taken. */
  lemma TakeFresh(c: Config, s0: State, rows: seq<Item>)
    requires Reaches(c, s0, Bare(OpenRun(0), rows, multiset{0, 1, 2, 3, 4}, Three(Idle, Idle, Idle)), 0)
    requires c.maxAttempts == 1 && |rows| == 5 && rows[2] == rows[3] == rows[4] == QueuedItem()
    ensures Reaches(c, s0, Bare(OpenRun(0), rows, multiset{0, 1}, Three(Begun(2), Begun(3), Begun(4))), 0)
  {
    hide Reaches, Bare;
    var run := OpenRun(0);
    BareTake(c, s0, run, rows, multiset{0, 1, 2, 3, 4}, Three(Idle, Idle, Idle), 0, 2, 0);
    assert multiset{0, 1, 2, 3, 4} - multiset{2} == multiset{0, 1, 3, 4};
    assert Three(Idle, Idle, Idle)[0 := Begun(2)] == Three(Begun(2), Idle, Idle);
    BareTake(c, s0, run, rows, multiset{0, 1, 3, 4}, Three(Begun(2), Idle, Idle), 1, 3, 0);
    assert multiset{0, 1, 3, 4} - multiset{3} == multiset{0, 1, 4};
    assert Three(Begun(2), Idle, Idle)[1 := Begun(3)] == Three(Begun(2), Begun(3), Idle);
    BareTake(c, s0, run, rows, multiset{0, 1, 4}, Three(Begun(2), Begun(3), Idle), 2, 4, 0);
    assert multiset{0, 1, 4} - multiset{4} == multiset{0, 1};
    assert Three(Begun(2), Begun(3), Idle)[2 := Begun(4)] == Three(Begun(2), Begun(3), Begun(4));
  }

  /** Items 2 and 3 are finalised, and item 4 is dead-lettered. */
  lemma FinishTwo(c: Config, s0: State)
    requires var q, d := QueuedItem(), Dropped();
             Reaches(c, s0, Bare(OpenRun(0), Rows(d, d, q, q, q), multiset{0, 1}, Three(Begun(2), Begun(3), Begun(4))), 0)
    requires c.maxAttempts == 1
    ensures var d := Dropped();
            Reaches(c, s0, Bare(OpenRun(2).(status := RunStatus.Failed), Rows(d, d, Done(), Done(), d),
                                multiset{0, 1}, Three(AbortCheck(2), AbortCheck(3), Idle)), 0)
  {
    hide Reaches, Bare, OpenRun;
    var q, d, two := QueuedItem(), Dropped(), multiset{0, 1};
    OpenIsRunning(2);
    BareFinish(c, s0, 0, Rows(d, d, q, q, q), two, Three(Begun(2), Begun(3), Begun(4)), 0, 2, 0);
    assert Rows(d, d, q, q, q)[2 := Done()] == Rows(d, d, Done(), q, q);
    assert Three(Begun(2), Begun(3), Begun(4))[0 := AbortCheck(2)] == Three(AbortCheck(2), Begun(3), Begun(4));
    BareFinish(c, s0, 1, Rows(d, d, Done(), q, q), two, Three(AbortCheck(2), Begun(3), Begun(4)), 1, 3, 0);
    assert Rows(d, d, Done(), q, q)[3 := Done()] == Rows(d, d, Done(), Done(), q);
    assert Three(AbortCheck(2), Begun(3), Begun(4))[1 := AbortCheck(3)] == Three(AbortCheck(2), AbortCheck(3), Begun(4));
    BareDropLast(c, s0, OpenRun(2), Rows(d, d, Done(), Done(), q), two, Three(AbortCheck(2), AbortCheck(3), Begun(4)), 2, 4, 0);
    assert Rows(d, d, Done(), Done(), q)[4 := d] == Rows(d, d, Done(), Done(), d);
    assert Three(AbortCheck(2), AbortCheck(3), Begun(4))[2 := Idle] == Three(AbortCheck(2), AbortCheck(3), Idle);
  }

  lemma OpenIsRunning(n: nat)
    ensures OpenRun(n).status.Running? && OpenRun(n).totalCost == 2500 * n
  {
  }

  /** The workers leave, and one replay opens the run to three messages. */
  lemma OpenToThree(c: Config, s0: State)
    requires var d := Dropped();
             Reaches(c, s0, Bare(OpenRun(2).(status := RunStatus.Failed), Rows(d, d, Done(), Done(), d),
                                 multiset{0, 1}, Three(AbortCheck(2), AbortCheck(3), Idle)), 0)
    ensures var d := Dropped();
            Reaches(c, s0, Bare(OpenRun(2), Rows(d, d, Done(), Done(), Requeue(d)), multiset{0, 1, 4}, Three(Idle, Idle, Idle)), 1)
  {
    hide Reaches, Bare, OpenRun;
    var failed, d, two := OpenRun(2).(status := RunStatus.Failed), Dropped(), multiset{0, 1};
    var rows := Rows(d, d, Done(), Done(), d);
    BareWalkOut(c, s0, failed, rows, two, Three(AbortCheck(2), AbortCheck(3), Idle), 0, 2, 0);
    assert Three(AbortCheck(2), AbortCheck(3), Idle)[0 := Idle] == Three(Idle, AbortCheck(3), Idle);
    BareWalkOut(c, s0, failed, rows, two, Three(Idle, AbortCheck(3), Idle), 1, 3, 0);
    assert Three(Idle, AbortCheck(3), Idle)[1 := Idle] == Three(Idle, Idle, Idle);
    BareReplay(c, s0, 2, rows, two, Three(Idle, Idle, Idle), 4, 0);
    assert rows[4 := Requeue(d)] == Rows(d, d, Done(), Done(), Requeue(d));
    assert two + multiset{4} == multiset{0, 1, 4};
  }

  lemma TakeThree(c: Config, s0: State, rows: seq<Item>)
    requires Reaches(c, s0, Bare(OpenRun(2), rows, multiset{0, 1, 4}, Three(Idle, Idle, Idle)), 1)
    requires c.maxAttempts == 1 && |rows| == 5 && rows[0] == rows[1] == Dropped() && rows[4] == Requeue(Dropped())
    ensures Reaches(c, s0, Bare(OpenRun(2), rows, multiset{}, Three(Begun(0), Begun(1), Begun(4))), 1)
  {
    hide Reaches, Bare;
    var run := OpenRun(2);
    BareTake(c, s0, run, rows, multiset{0, 1, 4}, Three(Idle, Idle, Idle), 0, 0, 1);
    assert multiset{0, 1, 4} - multiset{0} == multiset{1, 4};
    assert Three(Idle, Idle, Idle)[0 := Begun(0)] == Three(Begun(0), Idle, Idle);
    BareTake(c, s0, run, rows, multiset{1, 4}, Three(Begun(0), Idle, Idle), 1, 1, 1);
    assert multiset{1, 4} - multiset{1} == multiset{4};
    assert Three(Begun(0), Idle, Idle)[1 := Begun(1)] == Three(Begun(0), Begun(1), Idle);
    BareTake(c, s0, run, rows, multiset{4}, Three(Begun(0), Begun(1), Idle), 2, 4, 1);
    assert multiset{4} - multiset{4} == multiset{};
    assert Three(Begun(0), Begun(1), Idle)[2 := Begun(4)] == Three(Begun(0), Begun(1), Begun(4));
  }

  lemma FinishThree(c: Config, s0: State, rows: seq<Item>)
    requires Reaches(c, s0, Bare(OpenRun(2), rows, multiset{}, Three(Begun(0), Begun(1), Begun(4))), 1)
    requires |rows| == 5 && rows[0].model == rows[1].model == rows[4].model == "gpt-4o"
    ensures exists s :: Reaches(c, s0, s, 1) && s.run.totalCost == 5 * 2500
  {
    hide Reaches, Bare, OpenRun;
    var rows1 := rows[0 := AnsweredItem(rows[0])];
    var rows2 := rows1[1 := AnsweredItem(rows1[1])];
    var rows3 := rows2[4 := AnsweredItem(rows2[4])];
    BareFinish(c, s0, 2, rows, multiset{}, Three(Begun(0), Begun(1), Begun(4)), 0, 0, 1);
    assert Three(Begun(0), Begun(1), Begun(4))[0 := AbortCheck(0)] == Three(AbortCheck(0), Begun(1), Begun(4));
    BareFinish(c, s0, 3, rows1, multiset{}, Three(AbortCheck(0), Begun(1), Begun(4)), 1, 1, 1);
    assert Three(AbortCheck(0), Begun(1), Begun(4))[1 := AbortCheck(1)] == Three(AbortCheck(0), AbortCheck(1), Begun(4));
    BareFinish(c, s0, 4, rows2, multiset{}, Three(AbortCheck(0), AbortCheck(1), Begun(4)), 2, 4, 1);
    BareTotal(5, rows3, multiset{}, Three(AbortCheck(0), AbortCheck(1), Begun(4))[2 := AbortCheck(4)]);
  }

  lemma BareTotal(n: nat, rows: seq<Item>, queue: multiset<nat>, ws: seq<Phase>)
    ensures Bare(OpenRun(n), rows, queue, ws).run.totalCost == n * 2500
  {
  }

  lemma FiveFresh(s0: State)
    requires s0 == Start(5, 3)
    ensures var q := QueuedItem(); s0 == Bare(OpenRun(0), Rows(q, q, q, q, q), multiset{0, 1, 2, 3, 4}, Three(Idle, Idle, Idle))
  {
    var q := QueuedItem();
    assert s0.items == Rows(q, q, q, q, q) && s0.workers == Three(Idle, Idle, Idle);
    assert Messages(5) == multiset{0, 1, 2, 3, 4};
  }

  /** Three workers and one replay: the bound allows four completions, and five
      are spent, since the messages a late crash returned are not swept and the
      replay opens the run to all of them. */
  lemma LateCrashOverspends(c: Config, s0: State, point: Point)
    requires s0 == Start(5, 3)
    requires c.maxAttempts == 1 && point in {LateCompletion, LateAcknowledge} && point in c.faults.crashIn
    ensures exists s :: Reaches(c, s0, s, 1) && s.run.totalCost == 5 * 2500
  {
    var q, d := QueuedItem(), Dropped();
    FiveFresh(s0);
    Stay(c, s0);
    assert Rows(q, q, q, q, q)[0 := d] == Rows(d, q, q, q, q) && Rows(d, q, q, q, q)[1 := d] == Rows(d, d, q, q, q);
    hide Reaches, Bare, Start, OpenRun;
    OneBack(c, s0, Rows(q, q, q, q, q), 0, point);
    OneBack(c, s0, Rows(d, q, q, q, q), 1, point);
    TakeFresh(c, s0, Rows(d, d, q, q, q));
    FinishTwo(c, s0);
    OpenToThree(c, s0);
    TakeThree(c, s0, Rows(d, d, Done(), Done(), Requeue(d)));
    FinishThree(c, s0, Rows(d, d, Done(), Done(), Requeue(d)));
  }
}
