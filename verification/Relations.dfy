/** The relational operators the queries use. */
module Relations {
  import opened Options
  import opened Sums

  function Pairs<A, B>(a: A, bs: seq<B>): seq<(A, B)> {
    seq(|bs|, k requires 0 <= k < |bs| => (a, bs[k]))
  }

  /** The condition of a join, for one left row. */
  function With<A, B>(on: (A, B) -> bool, x: A): B -> bool {
    y => on(x, y)
  }

  /** xs JOIN ys ON on(x, y). */
  function Join<A, B>(xs: seq<A>, ys: seq<B>, on: (A, B) -> bool): seq<(A, B)> {
    if xs == [] then []
    else Pairs(xs[0], Filter(ys, With(on, xs[0]))) + Join(xs[1..], ys, on)
  }

  /** Each matching row, or one row of nulls. */
  function OrNull<B>(bs: seq<B>): seq<Option<B>> {
    if bs == [] then [None] else seq(|bs|, k requires 0 <= k < |bs| => Some(bs[k]))
  }

  /** xs LEFT JOIN ys ON on(x, y). */
  function LeftJoin<A, B>(xs: seq<A>, ys: seq<B>, on: (A, B) -> bool): seq<(A, Option<B>)> {
    if xs == [] then []
    else Pairs(xs[0], OrNull(Filter(ys, With(on, xs[0])))) + LeftJoin(xs[1..], ys, on)
  }

  /** The first match, if any. */
  function Lookup<B>(ys: seq<B>, p: B -> bool): Option<B> {
    if ys == [] then None
    else if p(ys[0]) then Some(ys[0])
    else Lookup(ys[1..], p)
  }

  ghost predicate AtMostOne<B>(ys: seq<B>, p: B -> bool) {
    forall j, k :: 0 <= j < k < |ys| ==> !(p(ys[j]) && p(ys[k]))
  }

  lemma {:induction false} SingleMatch<B>(ys: seq<B>, p: B -> bool)
    requires AtMostOne(ys, p)
    ensures Filter(ys, p) == match Lookup(ys, p) case None => [] case Some(y) => [y]
  {
    if ys != [] {
      forall j, k | 0 <= j < k < |ys[1..]| ensures !(p(ys[1..][j]) && p(ys[1..][k])) {
        assert !(p(ys[j + 1]) && p(ys[k + 1]));
      }
      SingleMatch(ys[1..], p);
      if p(ys[0]) {
        forall k | 0 <= k < |ys[1..]| ensures !p(ys[1..][k]) {
          assert !(p(ys[0]) && p(ys[k + 1]));
        }
        NoMatch(ys[1..], p);
      }
    }
  }

  lemma {:induction false} NoMatch<B>(ys: seq<B>, p: B -> bool)
    requires forall k :: 0 <= k < |ys| ==> !p(ys[k])
    ensures Filter(ys, p) == [] && Lookup(ys, p) == None
  {
    if ys != [] {
      NoMatch(ys[1..], p);
    }
  }

  lemma {:induction false} LookupMatches<B>(ys: seq<B>, p: B -> bool)
    ensures match Lookup(ys, p)
            case None => forall y :: y in ys ==> !p(y)
            case Some(y) => y in ys && p(y)
  {
    if ys != [] && !p(ys[0]) {
      LookupMatches(ys[1..], p);
    }
  }

  /** A LEFT JOIN in which no row has two matches does not fan out: it has one
      row for each row of the left side, in its order. */
  lemma {:induction false} LeftJoinKeepsRows<A, B>(xs: seq<A>, ys: seq<B>, on: (A, B) -> bool)
    requires forall x :: x in xs ==> AtMostOne(ys, With(on, x))
    ensures |LeftJoin(xs, ys, on)| == |xs|
    ensures forall k :: 0 <= k < |xs| ==> LeftJoin(xs, ys, on)[k] == (xs[k], Lookup(ys, With(on, xs[k])))
  {
    if xs != [] {
      assert xs[0] in xs;
      SingleMatch(ys, With(on, xs[0]));
      LeftJoinKeepsRows(xs[1..], ys, on);
      var head := Pairs(xs[0], OrNull(Filter(ys, With(on, xs[0]))));
      assert |head| == 1 && head[0] == (xs[0], Lookup(ys, With(on, xs[0])));
    }
  }

  /** A JOIN along a total foreign key has one row for each left row. */
  lemma {:induction false} JoinKeepsRows<A, B>(xs: seq<A>, ys: seq<B>, on: (A, B) -> bool)
    requires forall x :: x in xs ==> AtMostOne(ys, With(on, x)) && Lookup(ys, With(on, x)).Some?
    ensures |Join(xs, ys, on)| == |xs|
    ensures forall k :: 0 <= k < |xs| ==> Lookup(ys, With(on, xs[k])).Some?
    ensures forall k :: 0 <= k < |xs| ==>
              Join(xs, ys, on)[k] == (xs[k], Lookup(ys, With(on, xs[k])).value)
  {
    if xs != [] {
      assert xs[0] in xs;
      SingleMatch(ys, With(on, xs[0]));
      JoinKeepsRows(xs[1..], ys, on);
      var head := Pairs(xs[0], Filter(ys, With(on, xs[0])));
      assert |head| == 1 && head[0] == (xs[0], Lookup(ys, With(on, xs[0])).value);
    }
  }

  function Map<A, B>(xs: seq<A>, f: A -> B): (ys: seq<B>)
    ensures |ys| == |xs|
    ensures forall k :: 0 <= k < |xs| ==> ys[k] == f(xs[k])
  {
    if xs == [] then [] else [f(xs[0])] + Map(xs[1..], f)
  }

  /** Selecting and projecting rows that correspond one to one. */
  lemma {:induction false} SameSelection<A, B, C>(xs: seq<A>, ys: seq<B>, p: A -> bool, q: B -> bool, f: A -> C, g: B -> C)
    requires |xs| == |ys|
    requires forall k :: 0 <= k < |xs| ==> p(xs[k]) == q(ys[k]) && (p(xs[k]) ==> f(xs[k]) == g(ys[k]))
    ensures Map(Filter(xs, p), f) == Map(Filter(ys, q), g)
  {
    if xs != [] {
      forall k | 0 <= k < |xs[1..]|
        ensures p(xs[1..][k]) == q(ys[1..][k]) && (p(xs[1..][k]) ==> f(xs[1..][k]) == g(ys[1..][k]))
      {
        assert p(xs[k + 1]) == q(ys[k + 1]);
      }
      SameSelection(xs[1..], ys[1..], p, q, f, g);
      assert p(xs[0]) == q(ys[0]);
    }
  }

  lemma {:induction false} SameLookup<B>(ys: seq<B>, p: B -> bool, q: B -> bool)
    requires forall k :: 0 <= k < |ys| ==> p(ys[k]) == q(ys[k])
    ensures Lookup(ys, p) == Lookup(ys, q)
  {
    if ys != [] {
      assert p(ys[0]) == q(ys[0]);
      forall k | 0 <= k < |ys[1..]| ensures p(ys[1..][k]) == q(ys[1..][k]) {
        assert p(ys[k + 1]) == q(ys[k + 1]);
      }
      SameLookup(ys[1..], p, q);
    }
  }
}
