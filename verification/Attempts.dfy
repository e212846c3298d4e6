/** Retry accounting: attempt_count, and the time spent backing off. */
module Attempts {
  import opened Arithmetic
  import opened Protocol
  import opened Safety
  import Pricing

  /** How often item i was replayed in the run. */
  function ReplaysOf(tr: seq<Action>, i: nat): nat
    decreases |tr|
  {
    if tr == [] then 0 else ReplaysOf(Front(tr), i) + (if Last(tr) == ReplayWrite(i) then 1 else 0)
  }

  /** An item replayed r times has used up r executions, and is somewhere in
      one more. */
  ghost predicate Counted(c: Config, s: State, i: nat, r: nat) {
    i < |s.items| ==>
      var used, next := c.maxAttempts * r, c.maxAttempts * (r + 1);
      && used <= s.items[i].attempts <= next
      && (s.queue[i] > 0 ==> s.items[i].attempts == used)
      && (s.items[i].status.DeadLettered? ==> s.items[i].attempts == next)
      && (forall w :: 0 <= w < |s.workers| && s.workers[w].Attempt? && s.workers[w].item == i ==>
            s.items[i].attempts == used + s.workers[w].attempt - 1)
      && (forall w :: 0 <= w < |s.workers| && s.workers[w].Exhausted? && s.workers[w].item == i ==>
            s.items[i].attempts == next)
  }

  lemma InitialCounted(c: Config, s: State, i: nat)
    requires Initial(s)
    ensures Counted(c, s, i, 0)
  {
    if i < |s.items| {
      assert s.items[i] == FreshItem(s.items[i]);
      assert c.maxAttempts * 0 == 0 && c.maxAttempts * 1 == c.maxAttempts;
    }
  }

  lemma NextExecution(m: nat, r: nat)
    ensures m * (r + 1) == m * r + m
  {
  }

  lemma DeliverCounted(c: Config, s: State, w: nat, j: nat, i: nat, r: nat)
    requires Inv(c, s) && Enabled(c, s, Deliver(w, j)) && Counted(c, s, i, r)
    ensures Counted(c, Apply(c, s, Deliver(w, j)), i, r)
  {
    NextExecution(c.maxAttempts, r);
  }

  lemma CallCounted(c: Config, s: State, w: nat, outcome: Outcome, i: nat, r: nat)
    requires Inv(c, s) && Enabled(c, s, CallProvider(w, outcome)) && Counted(c, s, i, r)
    ensures Counted(c, Apply(c, s, CallProvider(w, outcome)), i, r)
  {
    NextExecution(c.maxAttempts, r);
    var p := s.workers[w];
    assert Holds(p, p.item) && MessageOk(s, p.item);
    assert PhaseOk(c, s.run, s.items[p.item], p);
    forall v | 0 <= v < |s.workers| && v != w ensures !SameItem(p, s.workers[v]) {
    }
  }

  lemma AdvanceCounted(c: Config, s: State, w: nat, i: nat, r: nat)
    requires Inv(c, s) && Enabled(c, s, Advance(w)) && Counted(c, s, i, r)
    ensures Counted(c, Apply(c, s, Advance(w)), i, r)
  {
    hide Pricing.ComputeCost, LedgerOk, MessagesOk, QueuedCarried, ItemOk;
    var p := s.workers[w];
    assert Holds(p, p.item) || GaveUp(p);
    assert PhaseOk(c, s.run, s.items[p.item], p);
    var s' := Apply(c, s, Advance(w));
    assert !s'.workers[w].Attempt? && !s'.workers[w].Exhausted?;
    if i < |s.items| {
      assert s'.items[i].attempts == s.items[i].attempts;
      assert s'.items[i].status.DeadLettered? ==> s.items[i].status.DeadLettered? || (p.Exhausted? && p.item == i);
    }
  }

  lemma ReplayCounted(c: Config, s: State, j: nat, i: nat, r: nat)
    requires Inv(c, s) && Enabled(c, s, ReplayWrite(j)) && Counted(c, s, i, r)
    ensures Counted(c, Apply(c, s, ReplayWrite(j)), i, r + if i == j then 1 else 0)
  {
    NextExecution(c.maxAttempts, r + 1);
    ReplayWriteKeeps(c, s, j);
    forall w | 0 <= w < |s.workers| && !s.workers[w].Idle? && s.workers[w].item == j
      ensures !s.workers[w].Attempt? && !s.workers[w].Exhausted?
    {
      assert PhaseOk(c, s.run, s.items[j], s.workers[w]);
    }
  }

  lemma StepCounted(c: Config, s: State, a: Action, i: nat, r: nat)
    requires Inv(c, s) && Enabled(c, s, a) && Counted(c, s, i, r) && c.faults.crashIn == {}
    ensures Counted(c, Apply(c, s, a), i, r + if a == ReplayWrite(i) then 1 else 0)
  {
    match a {
      case Deliver(w, j) => DeliverCounted(c, s, w, j, i, r);
      case CallProvider(w, outcome) => CallCounted(c, s, w, outcome, i, r);
      case Advance(w) => AdvanceCounted(c, s, w, i, r);
      case ReplayWrite(j) => ReplayCounted(c, s, j, i, r);
      case _ =>
    }
  }

  lemma {:induction false} RunCounted(c: Config, s: State, tr: seq<Action>, i: nat)
    requires Inv(c, s) && Counted(c, s, i, 0) && IsRun(c, s, tr)
    requires c.faults.crashIn == {} && SingleMessage(c.faults)
    ensures Counted(c, End(c, s, tr), i, ReplaysOf(tr, i))
    decreases |tr|
  {
    hide Apply, Enabled, Inv, Counted;
    if tr != [] {
      RunCounted(c, s, Front(tr), i);
      RunKeepsInv(c, s, Front(tr));
      StepCounted(c, End(c, s, Front(tr)), Last(tr), i, ReplaysOf(Front(tr), i));
    }
  }

  /** attempt_count in a crash-free run: an item replayed R times has been
      tried between max_attempts * R and max_attempts * (R + 1) times, and
      exactly the latter when it is dead-lettered. */
  lemma AttemptsAreAccounted(c: Config, s0: State, tr: seq<Action>, i: nat)
    requires Initial(s0) && IsRun(c, s0, tr) && i < |End(c, s0, tr).items|
    requires c.faults.crashIn == {} && SingleMessage(c.faults)
    ensures var it, r := End(c, s0, tr).items[i], ReplaysOf(tr, i);
            && c.maxAttempts * r <= it.attempts <= c.maxAttempts * (r + 1)
            && (it.status.DeadLettered? ==> it.attempts == c.maxAttempts * (r + 1))
  {
    hide Apply, Enabled, Inv, End, IsRun;
    InitialInv(c, s0);
    InitialCounted(c, s0, i);
    RunCounted(c, s0, tr, i);
  }

  // ----- backoff -----

  /** Delays in seconds. */
  datatype RetryConfig = RetryConfig(baseDelay: real, maxDelay: real)

  function Pow2(n: nat): nat {
    if n == 0 then 1 else 2 * Pow2(n - 1)
  }

  function Exponential(rc: RetryConfig, attempt: nat): real
    requires attempt >= 1
  {
    var e := rc.baseDelay * Pow2(attempt - 1) as real;
    if e < rc.maxDelay then e else rc.maxDelay
  }

  /** backoff_delay, the uniform jitter given as a fraction of its range. */
  function BackoffDelay(rc: RetryConfig, attempt: nat, jitter: real): real
    requires attempt >= 1
  {
    Exponential(rc, attempt) + jitter * (Exponential(rc, attempt) / 2.0)
  }

  ghost predicate Jitters(js: seq<real>) {
    forall k :: 0 <= k < |js| ==> 0.0 <= js[k] <= 1.0
  }

  /** Time slept after the first |jitters| failed attempts. */
  function Slept(rc: RetryConfig, jitters: seq<real>): real {
    if jitters == [] then 0.0
    else Slept(rc, jitters[..|jitters| - 1]) + BackoffDelay(rc, |jitters|, jitters[|jitters| - 1])
  }

  lemma OneMoreSleep(rc: RetryConfig, js: seq<real>, jitter: real)
    requires Jitters(js) && 0.0 <= jitter <= 1.0
    ensures Jitters(js + [jitter]) && Slept(rc, js + [jitter]) == Slept(rc, js) + BackoffDelay(rc, |js| + 1, jitter)
  {
    assert (js + [jitter])[..|js|] == js;
  }

  lemma JitterBounds(e: real, jitter: real)
    requires e >= 0.0 && 0.0 <= jitter <= 1.0
    ensures e <= e + jitter * (e / 2.0) <= 1.5 * e
  {
    var half := e / 2.0;
    Portion(jitter, half);
  }

  /** The delay doubles until the cap. */
  lemma ExponentialBounds(rc: RetryConfig, n: nat)
    requires n >= 1 && rc.baseDelay >= 0.0 && rc.maxDelay >= 0.0
    ensures 0.0 <= Exponential(rc, n) <= rc.maxDelay
    ensures Exponential(rc, n) <= rc.baseDelay * Pow2(n - 1) as real
  {
    Portion(Pow2(n - 1) as real, rc.baseDelay);
  }

  lemma DelayBounds(rc: RetryConfig, attempt: nat, jitter: real)
    requires attempt >= 1 && rc.baseDelay >= 0.0 && rc.maxDelay >= 0.0 && 0.0 <= jitter <= 1.0
    ensures Exponential(rc, attempt) <= BackoffDelay(rc, attempt, jitter) <= 1.5 * Exponential(rc, attempt)
  {
    hide Exponential;
    ExponentialBounds(rc, attempt);
    var e := Exponential(rc, attempt);
    JitterBounds(e, jitter);
    assert BackoffDelay(rc, attempt, jitter) == e + jitter * (e / 2.0);
  }

  function Least(a: real, b: real): real {
    if a < b then a else b
  }

  /** Without jitter the first delay is the base delay and each further one twice
      the one before, up to the cap; jitter adds up to a half of that. */
  lemma DelayDoubles(rc: RetryConfig, attempt: nat, jitter: real)
    requires attempt >= 1 && rc.baseDelay >= 0.0 && rc.maxDelay >= 0.0
    ensures BackoffDelay(rc, 1, 0.0) == Least(rc.baseDelay, rc.maxDelay)
    ensures BackoffDelay(rc, attempt + 1, 0.0) == Least(2.0 * BackoffDelay(rc, attempt, 0.0), rc.maxDelay)
    ensures BackoffDelay(rc, attempt, jitter) == (1.0 + jitter / 2.0) * BackoffDelay(rc, attempt, 0.0)
  {
    assert Pow2(0) == 1;
    Doubling(rc.baseDelay, Pow2(attempt - 1));
    assert Pow2(attempt) == 2 * Pow2(attempt - 1);
    var e := Exponential(rc, attempt);
    assert jitter * (e / 2.0) == (jitter / 2.0) * e;
  }

  lemma Doubling(base: real, power: nat)
    ensures base * (2 * power) as real == 2.0 * (base * power as real)
  {
  }

  /** While the doubled base delay is within the cap, the delay after attempt n is at
      least that; from then on it is at least the cap. */
  lemma DelayFromBelow(rc: RetryConfig, n: nat, jitter: real)
    requires n >= 1 && rc.baseDelay >= 0.0 && rc.maxDelay >= 0.0 && 0.0 <= jitter <= 1.0
    ensures rc.baseDelay * Pow2(n - 1) as real <= rc.maxDelay ==> rc.baseDelay * Pow2(n - 1) as real <= BackoffDelay(rc, n, jitter)
    ensures rc.baseDelay * Pow2(n - 1) as real >= rc.maxDelay ==> rc.maxDelay <= BackoffDelay(rc, n, jitter)
  {
    DelayBounds(rc, n, jitter);
    hide BackoffDelay;
  }

  /** The sum of n delays doubling from the first, uncapped. */
  function Doubled(rc: RetryConfig, n: nat): real {
    rc.baseDelay * (Pow2(n) - 1) as real
  }

  /** n delays at the cap. */
  function Capped(rc: RetryConfig, n: nat): real {
    rc.maxDelay * n as real
  }

  lemma OneMoreDelay(rc: RetryConfig, n: nat)
    requires n >= 1
    ensures Doubled(rc, n) == Doubled(rc, n - 1) + rc.baseDelay * Pow2(n - 1) as real
    ensures Capped(rc, n) == Capped(rc, n - 1) + rc.maxDelay
  {
    assert (Pow2(n) - 1) as real == (Pow2(n - 1) - 1) as real + Pow2(n - 1) as real;
    assert n as real == (n - 1) as real + 1.0;
  }

  lemma {:induction false} MoreSleepsAllowed(rc: RetryConfig, m: nat, n: nat)
    requires m <= n && rc.baseDelay >= 0.0 && rc.maxDelay >= 0.0
    ensures Doubled(rc, m) <= Doubled(rc, n) && Capped(rc, m) <= Capped(rc, n)
  {
    hide Doubled, Capped;
    if m < n {
      MoreSleepsAllowed(rc, m, n - 1);
      Portion(Pow2(n - 1) as real, rc.baseDelay);
      OneMoreDelay(rc, n);
    }
  }

  /** Sleeping after each of n failures takes at most 1.5 times both the
      uncapped doubling and the cap throughout. */
  lemma {:induction false} SleepIsBounded(rc: RetryConfig, jitters: seq<real>)
    requires rc.baseDelay >= 0.0 && rc.maxDelay >= 0.0
    requires Jitters(jitters)
    ensures 0.0 <= Slept(rc, jitters) <= 1.5 * Doubled(rc, |jitters|)
    ensures Slept(rc, jitters) <= 1.5 * Capped(rc, |jitters|)
    decreases |jitters|
  {
    if jitters != [] {
      hide BackoffDelay, Exponential, Doubled, Capped;
      var n := |jitters|;
      var earlier := Slept(rc, jitters[..n - 1]);
      var delay := BackoffDelay(rc, n, jitters[n - 1]);
      assert Slept(rc, jitters) == earlier + delay;
      SleepIsBounded(rc, jitters[..n - 1]);
      DelayBounds(rc, n, jitters[n - 1]);
      ExponentialBounds(rc, n);
      OneMoreDelay(rc, n);
    }
  }

  /** The delay after attempt n without a cap. */
  function Uncapped(rc: RetryConfig, n: nat): real
    requires n >= 1
  {
    rc.baseDelay * Pow2(n - 1) as real
  }

  /** The cap is reached after m of n delays. */
  ghost predicate CapReached(rc: RetryConfig, m: nat, n: nat) {
    m <= n && (m > 0 ==> Uncapped(rc, m) <= rc.maxDelay) && (m < n ==> Uncapped(rc, m + 1) >= rc.maxDelay)
  }

  lemma {:induction false} MoreDoubling(rc: RetryConfig, m: nat, n: nat)
    requires 1 <= m <= n && rc.baseDelay >= 0.0
    ensures 0.0 <= Uncapped(rc, m) <= Uncapped(rc, n)
  {
    Portion(Pow2(m - 1) as real, rc.baseDelay);
    if m < n {
      MoreDoubling(rc, m, n - 1);
      Doubling(rc.baseDelay, Pow2(n - 2));
      assert Pow2(n - 1) == 2 * Pow2(n - 2);
    }
  }

  /** The last of n delays. */
  lemma LastDelay(rc: RetryConfig, m: nat, n: nat)
    requires n >= 1 && rc.baseDelay >= 0.0 && CapReached(rc, m, n)
    ensures m < n ==> CapReached(rc, m, n - 1) && Uncapped(rc, n) >= rc.maxDelay
    ensures m == n ==> CapReached(rc, m - 1, n - 1) && Uncapped(rc, n) <= rc.maxDelay
  {
    if m < n {
      MoreDoubling(rc, m + 1, n);
    } else if m > 1 {
      MoreDoubling(rc, m - 1, m);
    }
  }

  /** One delay more, whether or not the cap is reached. */
  lemma LastSleep(rc: RetryConfig, m: nat, n: nat, jitter: real)
    requires n >= 1 && rc.baseDelay >= 0.0 && rc.maxDelay >= 0.0 && 0.0 <= jitter <= 1.0 && CapReached(rc, m, n)
    ensures var m' := if m < n then m else n - 1;
            && CapReached(rc, m', n - 1)
            && Doubled(rc, m) + Capped(rc, n - m) <= Doubled(rc, m') + Capped(rc, n - 1 - m') + BackoffDelay(rc, n, jitter)
  {
    hide BackoffDelay, Doubled, Capped, CapReached;
    LastDelay(rc, m, n);
    DelayFromBelow(rc, n, jitter);
    assert Uncapped(rc, n) == rc.baseDelay * Pow2(n - 1) as real;
    CapInRange(rc, m, n);
    if m < n {
      OneMoreDelay(rc, n - m);
    } else {
      OneMoreDelay(rc, n);
    }
  }

  lemma CapInRange(rc: RetryConfig, m: nat, n: nat)
    ensures CapReached(rc, m, n) ==> m <= n
  {
  }

  /** The same sleep from below: at least the doubling delays up to the cap and the
      cap for each one after. */
  lemma {:induction false} SleepFromBelow(rc: RetryConfig, jitters: seq<real>, m: nat)
    requires rc.baseDelay >= 0.0 && rc.maxDelay >= 0.0
    requires Jitters(jitters) && CapReached(rc, m, |jitters|)
    ensures Slept(rc, jitters) >= Doubled(rc, m) + Capped(rc, |jitters| - m)
    decreases |jitters|
  {
    var n := |jitters|;
    if n > 0 {
      hide BackoffDelay, Doubled, Capped, CapReached;
      LastSleep(rc, m, n, jitters[n - 1]);
      SleepFromBelow(rc, jitters[..n - 1], if m < n then m else n - 1);
    }
  }

  /** How long an execution that tries every attempt sleeps at least. */
  ghost predicate SleptAtLeast(rc: RetryConfig, attempts: nat, slept: real) {
    var sleeps: nat := if attempts == 0 then 0 else attempts - 1;
    rc.baseDelay >= 0.0 && rc.maxDelay >= 0.0 ==>
      forall m: nat :: CapReached(rc, m, sleeps) ==> slept >= Doubled(rc, m) + Capped(rc, sleeps - m)
  }

  lemma FullSleep(rc: RetryConfig, attempts: nat, js: seq<real>)
    requires Jitters(js) && |js| == if attempts == 0 then 0 else attempts - 1
    ensures SleptAtLeast(rc, attempts, Slept(rc, js))
  {
    hide Slept, Doubled, Capped;
    if rc.baseDelay >= 0.0 && rc.maxDelay >= 0.0 {
      forall m: nat | CapReached(rc, m, |js|) ensures Slept(rc, js) >= Doubled(rc, m) + Capped(rc, |js| - m) {
        SleepFromBelow(rc, js, m);
      }
    }
  }

  /** How long an execution with the given number of attempts may sleep. */
  ghost predicate SleptWithin(rc: RetryConfig, attempts: nat, slept: real) {
    var sleeps: nat := if attempts == 0 then 0 else attempts - 1;
    rc.baseDelay >= 0.0 && rc.maxDelay >= 0.0 ==>
      0.0 <= slept <= 1.5 * Doubled(rc, sleeps) && slept <= 1.5 * Capped(rc, sleeps)
  }

  /** Sleeping less often than the attempts allow stays within the bound. */
  lemma ExecutionSleep(rc: RetryConfig, attempts: nat, js: seq<real>)
    requires Jitters(js) && (js == [] || |js| < attempts)
    ensures SleptWithin(rc, attempts, Slept(rc, js))
  {
    hide Slept, Doubled, Capped;
    if rc.baseDelay >= 0.0 && rc.maxDelay >= 0.0 {
      SleepIsBounded(rc, js);
      MoreSleepsAllowed(rc, |js|, if attempts == 0 then 0 else attempts - 1);
    }
  }
}
