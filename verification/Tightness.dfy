/** The spend bound is attained: for every pool of workers, every number of
    replays and every limit that is a multiple of the cost 2500 of a completion,
    some run spends all of it. The first l items use the limit up, the next r are
    dead-lettered, the pool finalises one item each before anybody checks the
    limit, and every replay spends once more. */
module Tightness {
  import opened Protocol
  import opened Safety
  import opened Traces
  import G = Grading

  /** The messages of the items from j on. */
  function Left(n: nat, j: nat): multiset<nat> {
    Messages(n) - Messages(j)
  }

  lemma OneTaken(n: nat, j: nat)
    requires j < n
    ensures j in Left(n, j) && Left(n, j) - multiset{j} == Left(n, j + 1)
  {
  }

  function Repaid(): Item {
    AnsweredItem(Requeue(Dropped()))
  }

  // ----- the first l items use the limit up -----

  function SomeDone(n: nat, j: nat): (items: seq<Item>)
    ensures |items| == n
    ensures forall i :: 0 <= i < n ==> items[i] == if i < j then Done() else QueuedItem()
  {
    seq(n, i => if i < j then Done() else QueuedItem())
  }

  function Paying(n: nat, pool: nat, j: nat): State {
    State(OpenRun(j), SomeDone(n, j), G.Book([], []), Left(n, j), seq(pool, _ => Idle), multiset{})
  }

  lemma PayOne(c: Config, s0: State, n: nat, pool: nat, j: nat)
    requires Reaches(c, s0, Paying(n, pool, j), 0) && j + 1 < n && pool > 0
    requires c.maxAttempts == 1 && 2500 * (j + 1) <= c.spendLimit
    ensures Reaches(c, s0, Paying(n, pool, j + 1), 0)
  {
    hide Reaches, Left, SomeDone;
    var s := Paying(n, pool, j);
    OneTaken(n, j);
    Take(c, s0, s, 0, j, 0);
    Finish(c, s0, Taken(s, 0, j), 0, 0);
    PaidMovesOn(c, s0, n, pool, j);
  }

  /** The limit is not exceeded, and the next item is unfinished. */
  lemma PaidMovesOn(c: Config, s0: State, n: nat, pool: nat, j: nat)
    requires j + 1 < n && pool > 0 && 2500 * (j + 1) <= c.spendLimit
    requires Reaches(c, s0, Finished(Taken(Paying(n, pool, j), 0, j), 0), 0)
    ensures Reaches(c, s0, Paying(n, pool, j + 1), 0)
  {
    hide Reaches, Left, SomeDone;
    var s := Finished(Taken(Paying(n, pool, j), 0, j), 0);
    OneTaken(n, j);
    assert Unfinished(s.items[j + 1]) && MaybeComplete(s.run, s.items) == s.run;
    WalkOff(c, s0, s, 0, 0);
    var s' := At(s, 0, Idle);
    assert s'.items == SomeDone(n, j + 1) && s'.workers == Paying(n, pool, j).workers;
    assert s' == Paying(n, pool, j + 1);
  }

  lemma {:induction false} PayAll(c: Config, n: nat, pool: nat, j: nat)
    requires j < n && pool > 0 && c.maxAttempts == 1 && 2500 * j <= c.spendLimit
    ensures Reaches(c, Start(n, pool), Paying(n, pool, j), 0)
  {
    hide Reaches;
    if j == 0 {
      var s0 := Start(n, pool);
      Stay(c, s0);
      assert s0.items == SomeDone(n, 0) && Left(n, 0) == Messages(n);
      assert s0 == Paying(n, pool, 0);
    } else {
      hide Start, Paying;
      PayAll(c, n, pool, j - 1);
      PayOne(c, Start(n, pool), n, pool, j - 1);
    }
  }

  // ----- the next r items are dead-lettered -----

  function SomeDropped(l: nat, n: nat, j: nat): (items: seq<Item>)
    ensures |items| == n
    ensures forall i :: 0 <= i < n ==> items[i] == if i < l then Done() else if i < l + j then Dropped() else QueuedItem()
  {
    seq(n, i => if i < l then Done() else if i < l + j then Dropped() else QueuedItem())
  }

  function Dropping(l: nat, n: nat, pool: nat, j: nat): State {
    State(OpenRun(l), SomeDropped(l, n, j), G.Book([], []), Left(n, l + j), seq(pool, _ => Idle), multiset{})
  }

  lemma DropOne(c: Config, s0: State, l: nat, n: nat, pool: nat, j: nat)
    requires Reaches(c, s0, Dropping(l, n, pool, j), 0) && l + j + 1 < n && pool > 0 && c.maxAttempts == 1
    ensures Reaches(c, s0, Dropping(l, n, pool, j + 1), 0)
  {
    hide Reaches, Left, SomeDropped;
    var s := Dropping(l, n, pool, j);
    OneTaken(n, l + j);
    Take(c, s0, s, 0, l + j, 0);
    Drop(c, s0, Taken(s, 0, l + j), 0, 0);
    DroppedMovesOn(c, s0, l, n, pool, j);
  }

  /** The dropped item's completion check finds the pool's items unfinished. */
  lemma DroppedMovesOn(c: Config, s0: State, l: nat, n: nat, pool: nat, j: nat)
    requires l + j + 1 < n && pool > 0
    requires var s1 := Taken(Dropping(l, n, pool, j), 0, l + j);
             Reaches(c, s0, Written(s1, 0, Dropped(), CompleteCheck(l + j, true)), 0)
    ensures Reaches(c, s0, Dropping(l, n, pool, j + 1), 0)
  {
    hide Reaches, Left, SomeDropped;
    var s1 := Taken(Dropping(l, n, pool, j), 0, l + j);
    var s2 := Written(s1, 0, Dropped(), CompleteCheck(l + j, true));
    OneTaken(n, l + j);
    assert Unfinished(s2.items[l + j + 1]) && MaybeComplete(s2.run, s2.items) == s2.run;
    Check(c, s0, s2, 0, 0);
    var s3 := At(s2, 0, Idle);
    assert s3.items == SomeDropped(l, n, j + 1) && s3.workers == Dropping(l, n, pool, j).workers;
    assert s3 == Dropping(l, n, pool, j + 1);
  }

  lemma NothingDropped(l: nat, n: nat, pool: nat)
    requires l <= n
    ensures Dropping(l, n, pool, 0) == Paying(n, pool, l)
  {
    hide Left;
    assert SomeDone(n, l) == SomeDropped(l, n, 0);
    assert Dropping(l, n, pool, 0).workers == Paying(n, pool, l).workers;
  }

  lemma {:induction false} DropAll(c: Config, l: nat, n: nat, pool: nat, j: nat)
    requires l + j < n && pool > 0 && c.maxAttempts == 1 && c.spendLimit == 2500 * l
    ensures Reaches(c, Start(n, pool), Dropping(l, n, pool, j), 0)
  {
    hide Reaches, Start, Paying, Dropping;
    if j == 0 {
      PayAll(c, n, pool, l);
      NothingDropped(l, n, pool);
    } else {
      DropAll(c, l, n, pool, j - 1);
      DropOne(c, Start(n, pool), l, n, pool, j - 1);
    }
  }

  // ----- every worker takes an item -----

  function SomeTook(k: nat, pool: nat, w: nat): (workers: seq<Phase>)
    ensures |workers| == pool
    ensures forall v: nat :: v < pool ==> workers[v] == if v < w then Attempt(k + v, 1, 0, 0) else Idle
  {
    seq(pool, (v: nat) => if v < w then Attempt(k + v, 1, 0, 0) else Idle)
  }

  function Taking(l: nat, r: nat, pool: nat, w: nat): State {
    Dropping(l, l + r + pool, pool, r)
      .(queue := Left(l + r + pool, l + r + w), workers := SomeTook(l + r, pool, w))
  }

  lemma TakeOne(c: Config, s0: State, l: nat, r: nat, pool: nat, w: nat)
    requires Reaches(c, s0, Taking(l, r, pool, w), 0) && w < pool && c.maxAttempts == 1
    ensures Reaches(c, s0, Taking(l, r, pool, w + 1), 0)
  {
    hide Reaches, Left, SomeDropped, SomeTook;
    var s, i := Taking(l, r, pool, w), l + r + w;
    OneTaken(l + r + pool, i);
    Take(c, s0, s, w, i, 0);
    assert Taken(s, w, i).workers == SomeTook(l + r, pool, w + 1);
    assert Taken(s, w, i) == Taking(l, r, pool, w + 1);
  }

  lemma {:induction false} TakeAll(c: Config, l: nat, r: nat, pool: nat, w: nat)
    requires w <= pool && pool > 0 && c.maxAttempts == 1 && c.spendLimit == 2500 * l
    ensures Reaches(c, Start(l + r + pool, pool), Taking(l, r, pool, w), 0)
  {
    hide Reaches, Left, Start;
    if w == 0 {
      DropAll(c, l, l + r + pool, pool, r);
      assert Taking(l, r, pool, 0).workers == Dropping(l, l + r + pool, pool, r).workers;
      assert Taking(l, r, pool, 0) == Dropping(l, l + r + pool, pool, r);
    } else {
      hide Taking;
      TakeAll(c, l, r, pool, w - 1);
      TakeOne(c, Start(l + r + pool, pool), l, r, pool, w - 1);
    }
  }

  // ----- every worker finalises before anybody checks -----

  function SomeAnswered(l: nat, r: nat, pool: nat, w: nat): (items: seq<Item>)
    ensures |items| == l + r + pool
    ensures forall i :: 0 <= i < |items| ==>
              items[i] == if i < l then Done() else if i < l + r then Dropped() else if i < l + r + w then Done() else QueuedItem()
  {
    seq(l + r + pool, i => if i < l then Done() else if i < l + r then Dropped() else if i < l + r + w then Done() else QueuedItem())
  }

  function SomeFinalised(k: nat, pool: nat, w: nat): (workers: seq<Phase>)
    ensures |workers| == pool
    ensures forall v: nat :: v < pool ==> workers[v] == if v < w then AbortCheck(k + v) else Attempt(k + v, 1, 0, 0)
  {
    seq(pool, (v: nat) => if v < w then AbortCheck(k + v) else Attempt(k + v, 1, 0, 0))
  }

  function Finishing(l: nat, r: nat, pool: nat, w: nat): State {
    State(OpenRun(l + w), SomeAnswered(l, r, pool, w), G.Book([], []), multiset{}, SomeFinalised(l + r, pool, w), multiset{})
  }

  lemma FinishOne(c: Config, s0: State, l: nat, r: nat, pool: nat, w: nat)
    requires Reaches(c, s0, Finishing(l, r, pool, w), 0) && w < pool
    ensures Reaches(c, s0, Finishing(l, r, pool, w + 1), 0)
  {
    hide Reaches, SomeAnswered, SomeFinalised;
    var s, s' := Finishing(l, r, pool, w), Finishing(l, r, pool, w + 1);
    Finish(c, s0, s, w, 0);
    assert Finished(s, w).items == s'.items && Finished(s, w).workers == s'.workers;
    assert Finished(s, w) == s';
  }

  lemma {:induction false} FinishAll(c: Config, l: nat, r: nat, pool: nat, w: nat)
    requires w <= pool && pool > 0 && c.maxAttempts == 1 && c.spendLimit == 2500 * l
    ensures Reaches(c, Start(l + r + pool, pool), Finishing(l, r, pool, w), 0)
  {
    hide Reaches, Start;
    if w == 0 {
      TakeAll(c, l, r, pool, pool);
      var s, s' := Taking(l, r, pool, pool), Finishing(l, r, pool, 0);
      assert s.items == s'.items && s.workers == s'.workers && s.queue == s'.queue;
    } else {
      hide Finishing;
      FinishAll(c, l, r, pool, w - 1);
      FinishOne(c, Start(l + r + pool, pool), l, r, pool, w - 1);
    }
  }

  // ----- every replay spends once more -----

  function SomeReplayed(l: nat, r: nat, pool: nat, j: nat): (items: seq<Item>)
    ensures |items| == l + r + pool
    ensures forall i :: 0 <= i < |items| ==>
              items[i] == if i < l then Done() else if i < l + j then Repaid() else if i < l + r then Dropped() else Done()
  {
    seq(l + r + pool, i => if i < l then Done() else if i < l + j then Repaid() else if i < l + r then Dropped() else Done())
  }

  function OneIdle(k: nat, pool: nat): (workers: seq<Phase>)
    ensures |workers| == pool
    ensures forall v: nat :: v < pool ==> workers[v] == if v == 0 then Idle else AbortCheck(k + v)
  {
    seq(pool, (v: nat) => if v == 0 then Idle else AbortCheck(k + v))
  }

  /** The run is aborted, and j of the r items have been replayed. */
  function Aborted(l: nat, r: nat, pool: nat, j: nat): State {
    State(OpenRun(l + pool + j).(status := RunStatus.Failed, error := true), SomeReplayed(l, r, pool, j),
          G.Book([], []), multiset{}, OneIdle(l + r, pool), multiset{})
  }

  lemma NothingSwept(items: seq<Item>)
    requires forall i :: 0 <= i < |items| ==> !items[i].status.Queued?
    ensures SweepQueued(items, SpendLimit) == items
  {
  }

  lemma AbortFirst(c: Config, l: nat, r: nat, pool: nat)
    requires pool > 0 && c.maxAttempts == 1 && c.spendLimit == 2500 * l
    ensures Reaches(c, Start(l + r + pool, pool), Aborted(l, r, pool, 0), 0)
  {
    hide Reaches, Start, SomeAnswered, SomeFinalised, SomeReplayed, OneIdle;
    FinishAll(c, l, r, pool, pool);
    var s, s' := Finishing(l, r, pool, pool), Aborted(l, r, pool, 0);
    AbortRun(c, Start(l + r + pool, pool), s, 0, 0);
    NothingSwept(s.items);
    assert s.items == s'.items && s.workers[0 := Idle] == s'.workers;
  }

  /** Item l + j is replayed, which reopens the run over its limit. */
  function Repaying(l: nat, r: nat, pool: nat, j: nat): State
    requires j < r && pool > 0
  {
    var s := Aborted(l, r, pool, j);
    s.(run := OpenRun(l + pool + j), items := s.items[l + j := Requeue(s.items[l + j])],
       workers := s.workers[0 := Attempt(l + j, 1, 0, 0)])
  }

  lemma ReplayOne(c: Config, s0: State, l: nat, r: nat, pool: nat, j: nat)
    requires Reaches(c, s0, Aborted(l, r, pool, j), j) && j < r && pool > 0
    requires c.maxAttempts == 1 && c.faults.replayAborted
    ensures Reaches(c, s0, Repaying(l, r, pool, j), j + 1)
  {
    hide Reaches, SomeReplayed, OneIdle;
    var s, i := Aborted(l, r, pool, j), l + j;
    ReplayAtOnce(c, s0, s, i, j);
    var s1 := SetItem(s, i, Requeue(s.items[i])).(run := Reopen(s.run), queue := s.queue + multiset{i});
    Take(c, s0, s1, 0, i, j + 1);
    assert s1.queue - multiset{i} == multiset{};
    assert Taken(s1, 0, i) == Repaying(l, r, pool, j);
  }

  lemma SpendOne(c: Config, s0: State, l: nat, r: nat, pool: nat, j: nat)
    requires Reaches(c, s0, Aborted(l, r, pool, j), j) && j < r && pool > 0
    requires c.maxAttempts == 1 && c.spendLimit == 2500 * l && c.faults.replayAborted
    ensures Reaches(c, s0, Aborted(l, r, pool, j + 1), j + 1)
  {
    hide Reaches, SomeReplayed, OneIdle;
    ReplayOne(c, s0, l, r, pool, j);
    var s, s' := Repaying(l, r, pool, j), Aborted(l, r, pool, j + 1);
    Finish(c, s0, s, 0, j + 1);
    var s1 := Finished(s, 0);
    AbortRun(c, s0, s1, 0, j + 1);
    assert s1.items == s'.items;
    NothingSwept(s'.items);
    assert s1.workers[0 := Idle] == s'.workers;
  }

  lemma {:induction false} SpendAll(c: Config, l: nat, r: nat, pool: nat, j: nat)
    requires j <= r && pool > 0 && c.maxAttempts == 1 && c.spendLimit == 2500 * l && (r > 0 ==> c.faults.replayAborted)
    ensures Reaches(c, Start(l + r + pool, pool), Aborted(l, r, pool, j), j)
  {
    hide Reaches, Start, Aborted;
    if j == 0 {
      AbortFirst(c, l, r, pool);
    } else {
      SpendAll(c, l, r, pool, j - 1);
      SpendOne(c, Start(l + r + pool, pool), l, r, pool, j - 1);
    }
  }

  /** limit + (W + R) * C is reached, for every pool of W workers, every number R
      of replays and every limit that is a multiple of C. */
  lemma BoundIsAttained(c: Config, l: nat, r: nat, pool: nat)
    requires pool > 0 && c.maxAttempts == 1 && c.spendLimit == 2500 * l && (r > 0 ==> c.faults.replayAborted)
    ensures exists s :: Reaches(c, Start(l + r + pool, pool), s, r)
                        && s.run.totalCost == c.spendLimit + 2500 * (pool + r)
  {
    hide Reaches, Start;
    SpendAll(c, l, r, pool, r);
    assert Aborted(l, r, pool, r).run.totalCost == 2500 * (l + pool + r);
  }
}
