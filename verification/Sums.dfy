/** Sums over rows, as SUM(..), COUNT(*) and GROUP BY take them. */
module Sums {

  function Sum<T>(xs: seq<T>, f: T -> int): int {
    if xs == [] then 0 else f(xs[0]) + Sum(xs[1..], f)
  }

  /** Rows satisfying p, in their order: SQL WHERE. */
  function Filter<T>(xs: seq<T>, p: T -> bool): (ys: seq<T>)
    ensures |ys| <= |xs|
    ensures forall y :: y in ys ==> p(y) && y in xs
    ensures forall x :: x in xs && p(x) ==> x in ys
  {
    if xs == [] then []
    else
      var rest := Filter(xs[1..], p);
      assert xs == [xs[0]] + xs[1..];
      if p(xs[0]) then [xs[0]] + rest else rest
  }

  function One<T>(x: T): int { 1 }

  lemma {:induction false} SumUpdate<T>(xs: seq<T>, k: nat, v: T, f: T -> int)
    requires k < |xs|
    ensures Sum(xs[k := v], f) == Sum(xs, f) - f(xs[k]) + f(v)
  {
    if k == 0 {
      assert xs[k := v][1..] == xs[1..];
    } else {
      assert xs[k := v][1..] == xs[1..][k - 1 := v];
      SumUpdate(xs[1..], k - 1, v, f);
    }
  }

  lemma {:induction false} SumPointwise<T>(xs: seq<T>, ys: seq<T>, f: T -> int)
    requires |xs| == |ys|
    requires forall k :: 0 <= k < |xs| ==> f(xs[k]) == f(ys[k])
    ensures Sum(xs, f) == Sum(ys, f)
  {
    if xs != [] {
      assert f(xs[0]) == f(ys[0]);
      forall k | 0 <= k < |xs[1..]| ensures f(xs[1..][k]) == f(ys[1..][k]) {
        assert f(xs[k + 1]) == f(ys[k + 1]);
      }
      SumPointwise(xs[1..], ys[1..], f);
    }
  }

  lemma {:induction false} SumsAgree<T>(xs: seq<T>, f: T -> int, g: T -> int)
    requires forall x :: x in xs ==> f(x) == g(x)
    ensures Sum(xs, f) == Sum(xs, g)
  {
    if xs != [] {
      SumsAgree(xs[1..], f, g);
    }
  }

  /** A bound on every row bounds the sum. */
  lemma {:induction false} SumAtMost<T>(xs: seq<T>, f: T -> int, bound: int)
    requires forall x :: x in xs ==> f(x) <= bound
    ensures Sum(xs, f) <= bound * |xs|
  {
    if xs != [] {
      SumAtMost(xs[1..], f, bound);
      assert bound * |xs| == bound + bound * |xs[1..]|;
    }
  }

  lemma {:induction false} SumAtLeast<T>(xs: seq<T>, f: T -> int, bound: int)
    requires forall x :: x in xs ==> bound <= f(x)
    ensures bound * |xs| <= Sum(xs, f)
  {
    if xs != [] {
      SumAtLeast(xs[1..], f, bound);
      assert bound * |xs| == bound + bound * |xs[1..]|;
    }
  }

  lemma {:induction false} SumCompare<T>(xs: seq<T>, f: T -> int, g: T -> int)
    requires forall x :: x in xs ==> f(x) <= g(x)
    ensures Sum(xs, f) <= Sum(xs, g)
  {
    if xs != [] {
      assert f(xs[0]) <= g(xs[0]);
      SumCompare(xs[1..], f, g);
    }
  }

  lemma {:induction false} SumOnes<T>(xs: seq<T>)
    ensures Sum(xs, One) == |xs|
  {
    if xs != [] {
      SumOnes(xs[1..]);
    }
  }

  lemma {:induction false} FilterAppend<T>(xs: seq<T>, ys: seq<T>, p: T -> bool)
    ensures Filter(xs + ys, p) == Filter(xs, p) + Filter(ys, p)
  {
    if xs == [] {
      assert xs + ys == ys;
    } else {
      assert (xs + ys)[1..] == xs[1..] + ys;
      FilterAppend(xs[1..], ys, p);
    }
  }

  lemma {:induction false} FilterNone<T>(xs: seq<T>, p: T -> bool)
    requires forall x :: x in xs ==> !p(x)
    ensures Filter(xs, p) == []
  {
    if xs != [] {
      assert xs[0] in xs;
      FilterNone(xs[1..], p);
    }
  }

  lemma {:induction false} FilterAll<T>(xs: seq<T>, p: T -> bool)
    requires forall x :: x in xs ==> p(x)
    ensures Filter(xs, p) == xs
  {
    if xs != [] {
      assert xs[0] in xs;
      FilterAll(xs[1..], p);
    }
  }

  // ----- rows of a filter, by their positions -----

  lemma LastRow<T>(x: T, p: T -> bool)
    ensures Filter([x], p) == if p(x) then [x] else []
  {
  }

  /** COUNT(*): a filter keeps as many rows as there are positions that satisfy it. */
  lemma {:induction false} FilterCounts<T>(xs: seq<T>, p: T -> bool, positions: set<int>)
    requires forall i :: i in positions <==> 0 <= i < |xs| && p(xs[i])
    ensures |Filter(xs, p)| == |positions|
    decreases |xs|
  {
    if xs == [] {
      assert forall i :: i !in positions;
    } else {
      var n := |xs| - 1;
      var front, last := xs[..n], xs[n];
      hide Filter;
      assert xs == front + [last];
      FilterAppend(front, [last], p);
      LastRow(last, p);
      forall i ensures i in positions - {n} <==> 0 <= i < n && p(front[i]) {
        assert 0 <= i < n ==> front[i] == xs[i];
      }
      FilterCounts(front, p, positions - {n});
    }
  }

  /** Summing the rows of a filter is summing over all rows, with nothing for the
      rows left out. */
  lemma {:induction false} FilterSum<T>(xs: seq<T>, p: T -> bool, f: T -> int, g: T -> int)
    requires forall x :: x in xs ==> g(x) == if p(x) then f(x) else 0
    ensures Sum(Filter(xs, p), f) == Sum(xs, g)
  {
    if xs != [] {
      assert xs[0] in xs;
      FilterSum(xs[1..], p, f, g);
      var rest := Filter(xs[1..], p);
      if p(xs[0]) {
        assert ([xs[0]] + rest)[1..] == rest;
      }
    }
  }

  /** A sum of ones and zeros counts the positions of the ones. */
  lemma SumCounts<T>(xs: seq<T>, f: T -> int, p: T -> bool, positions: set<int>)
    requires forall x :: x in xs ==> f(x) == if p(x) then 1 else 0
    requires forall i :: i in positions <==> 0 <= i < |xs| && p(xs[i])
    ensures Sum(xs, f) == |positions|
  {
    hide Sum, Filter;
    FilterSum(xs, p, One, f);
    SumOnes(Filter(xs, p));
    FilterCounts(xs, p, positions);
  }

  /** A filter of a filter keeps what satisfies both. */
  lemma {:induction false} FilterTwice<T>(xs: seq<T>, p: T -> bool, q: T -> bool, both: T -> bool)
    requires forall x :: x in xs ==> both(x) == (p(x) && q(x))
    ensures Filter(Filter(xs, p), q) == Filter(xs, both)
  {
    if xs != [] {
      assert xs[0] in xs;
      FilterTwice(xs[1..], p, q, both);
      var rest := Filter(xs[1..], p);
      if p(xs[0]) {
        assert ([xs[0]] + rest)[1..] == rest;
      }
    }
  }

  // ----- GROUP BY -----

  /** The rows of one group. */
  function Group<T, K(==)>(xs: seq<T>, key: T -> K, k: K): seq<T> {
    Filter(xs, x => key(x) == k)
  }

  lemma GroupCounts<T, K>(xs: seq<T>, key: T -> K, k: K, positions: set<int>)
    requires forall i :: i in positions <==> 0 <= i < |xs| && key(xs[i]) == k
    ensures |Group(xs, key, k)| == |positions|
  {
    hide Filter;
    FilterCounts(xs, x => key(x) == k, positions);
  }

  lemma GroupSum<T, K>(xs: seq<T>, key: T -> K, k: K, f: T -> int, g: T -> int)
    requires forall x :: x in xs ==> g(x) == if key(x) == k then f(x) else 0
    ensures Sum(Group(xs, key, k), f) == Sum(xs, g)
  {
    hide Filter, Sum;
    FilterSum(xs, x => key(x) == k, f, g);
  }

  lemma FilterOfGroup<T, K>(xs: seq<T>, key: T -> K, k: K, q: T -> bool, both: T -> bool)
    requires forall x :: x in xs ==> both(x) == (key(x) == k && q(x))
    ensures Filter(Group(xs, key, k), q) == Filter(xs, both)
  {
    hide Filter;
    FilterTwice(xs, x => key(x) == k, q, both);
  }

  lemma GroupOfFilter<T, K>(xs: seq<T>, p: T -> bool, key: T -> K, k: K, both: T -> bool)
    requires forall x :: x in xs ==> both(x) == (p(x) && key(x) == k)
    ensures Group(Filter(xs, p), key, k) == Filter(xs, both)
  {
    hide Filter;
    FilterTwice(xs, p, x => key(x) == k, both);
  }

  /** A per-group aggregate summed over the groups. */
  function SumOverGroups<T, K(==)>(xs: seq<T>, key: T -> K, keys: seq<K>, f: T -> int): int {
    if keys == [] then 0 else Sum(Group(xs, key, keys[0]), f) + SumOverGroups(xs, key, keys[1..], f)
  }

  ghost predicate Distinct<K>(keys: seq<K>) {
    forall j, k :: 0 <= j < k < |keys| ==> keys[j] != keys[k]
  }

  lemma {:induction false} SumOverGroupsStep<T, K>(xs: seq<T>, key: T -> K, keys: seq<K>, f: T -> int)
    requires xs != [] && Distinct(keys)
    ensures SumOverGroups(xs, key, keys, f) ==
            SumOverGroups(xs[1..], key, keys, f) + (if key(xs[0]) in keys then f(xs[0]) else 0)
    decreases |keys|
  {
    if keys != [] {
      var rest := keys[1..];
      SumOverGroupsStep(xs, key, rest, f);
      var g, h := Group(xs, key, keys[0]), Group(xs[1..], key, keys[0]);
      if key(xs[0]) == keys[0] {
        assert g == [xs[0]] + h;
        assert g[1..] == h;
      } else {
        assert g == h;
      }
      assert keys == [keys[0]] + rest;
    }
  }

  /** GROUP BY partitions: if every row's key is one of the distinct keys, no
      row is lost and none is counted in two groups. */
  lemma {:induction false} GroupsPartition<T, K>(xs: seq<T>, key: T -> K, keys: seq<K>, f: T -> int)
    requires Distinct(keys)
    requires forall x :: x in xs ==> key(x) in keys
    ensures SumOverGroups(xs, key, keys, f) == Sum(xs, f)
  {
    if xs == [] {
      NoRows(key, keys, f);
    } else {
      assert xs[0] in xs;
      SumOverGroupsStep(xs, key, keys, f);
      GroupsPartition(xs[1..], key, keys, f);
    }
  }

  lemma {:induction false} NoRows<T, K>(key: T -> K, keys: seq<K>, f: T -> int)
    ensures SumOverGroups([], key, keys, f) == 0
    decreases |keys|
  {
    if keys != [] {
      NoRows(key, keys[1..], f);
    }
  }

  /** The groups of a GROUP BY, in order of first appearance. */
  function GroupKeys<T, K(==)>(xs: seq<T>, key: T -> K): (keys: seq<K>)
    ensures Distinct(keys)
    ensures forall x :: x in xs ==> key(x) in keys
    ensures forall k :: k in keys ==> exists x :: x in xs && key(x) == k
  {
    if xs == [] then []
    else
      var front := xs[..|xs| - 1];
      var last := xs[|xs| - 1];
      var keys := GroupKeys(front, key);
      assert xs == front + [last];
      if key(last) in keys then keys else keys + [key(last)]
  }
}
