/** app/api/v1/review_queue.py: claiming and resolving reviews. */
module ReviewQueue {
  import opened Options
  import opened Sums
  import opened Pricing
  import opened Grading

  // ----- one row -----

  function ClaimReview(r: Review, now: nat): Review {
    r.(status := Claimed, claimedAt := Some(now))
  }

  function ResolveReview(r: Review, verdict: UnitRatio, now: nat): Review {
    r.(status := Resolved, reviewerLabel := Some(Thousandths(verdict)), resolvedAt := Some(now))
  }

  /** What a review row looks like in each status, at time clock. */
  ghost predicate ReviewOk(r: Review, clock: nat) {
    match r.status
    case Open => r.reviewerLabel.None? && r.claimedAt.None? && r.resolvedAt.None?
    case Claimed => r.reviewerLabel.None? && r.claimedAt.Some? && r.claimedAt.value <= clock && r.resolvedAt.None?
    case Resolved =>
      && r.reviewerLabel.Some? && r.reviewerLabel.value <= 1000
      && r.claimedAt.Some? && r.resolvedAt.Some? && r.claimedAt.value <= r.resolvedAt.value <= clock
  }

  // ----- requests against the table -----

  datatype Request =
    | Claim(review: nat, now: nat)
    | Resolve(review: nat, verdict: UnitRatio, now: nat)

  datatype Answer = Updated | NotFound | Conflict

  function Reply(reviews: seq<Review>, q: Request): Answer {
    if q.review >= |reviews| then NotFound
    else if q.Claim? && reviews[q.review].status.Open? then Updated
    else if q.Resolve? && reviews[q.review].status.Claimed? then Updated
    else Conflict
  }

  function Serve(reviews: seq<Review>, q: Request): seq<Review> {
    if !Reply(reviews, q).Updated? then reviews
    else match q
      case Claim(r, now) => reviews[r := ClaimReview(reviews[r], now)]
      case Resolve(r, verdict, now) => reviews[r := ResolveReview(reviews[r], verdict, now)]
  }

  function ServeAll(reviews: seq<Review>, qs: seq<Request>): (after: seq<Review>)
    ensures |after| == |reviews|
    decreases |qs|
  {
    if qs == [] then reviews else Serve(ServeAll(reviews, qs[..|qs| - 1]), qs[|qs| - 1])
  }

  /** Requests on review r that were answered with success. */
  function Wins(reviews: seq<Review>, qs: seq<Request>, r: nat, claims: bool): nat
    decreases |qs|
  {
    if qs == [] then 0
    else
      var front, q := qs[..|qs| - 1], qs[|qs| - 1];
      Wins(reviews, front, r, claims)
      + (if q.review == r && q.Claim? == claims && Reply(ServeAll(reviews, front), q).Updated? then 1 else 0)
  }

  predicate Asked(qs: seq<Request>, r: nat) {
    exists k :: 0 <= k < |qs| && qs[k].Claim? && qs[k].review == r
  }

  /** The database clock does not run backwards. */
  predicate Chronological(qs: seq<Request>) {
    forall j, k :: 0 <= j < k < |qs| ==> qs[j].now <= qs[k].now
  }

  /** Any interleaving of claimers and resolvers: a review that somebody tried
      to claim was claimed by exactly one of them; it was resolved at most
      once, and only after its claim; its row is in step with that. */
  lemma {:induction false} OneClaimOneResolve(reviews: seq<Review>, qs: seq<Request>, r: nat, clock: nat)
    requires r < |reviews| && reviews[r].status.Open? && ReviewOk(reviews[r], 0)
    requires Chronological(qs) && (qs != [] ==> qs[|qs| - 1].now <= clock)
    ensures Wins(reviews, qs, r, true) == (if Asked(qs, r) then 1 else 0)
    ensures Wins(reviews, qs, r, false) <= Wins(reviews, qs, r, true)
    ensures var row := ServeAll(reviews, qs)[r];
            && ReviewOk(row, clock)
            && (row.status.Open? <==> Wins(reviews, qs, r, true) == 0)
            && (row.status.Resolved? <==> Wins(reviews, qs, r, false) == 1)
    decreases |qs|
  {
    if qs != [] {
      var front, q := qs[..|qs| - 1], qs[|qs| - 1];
      OneClaimOneResolve(reviews, front, r, q.now);
      AskedSoFar(qs, r);
      hide Asked;
    }
  }

  lemma AskedSoFar(qs: seq<Request>, r: nat)
    requires qs != []
    ensures var q := qs[|qs| - 1];
            Asked(qs, r) <==> Asked(qs[..|qs| - 1], r) || (q.Claim? && q.review == r)
  {
    var front := qs[..|qs| - 1];
    if Asked(front, r) {
      var k :| 0 <= k < |front| && front[k].Claim? && front[k].review == r;
      assert qs[k] == front[k];
    }
    if Asked(qs, r) {
      var k :| 0 <= k < |qs| && qs[k].Claim? && qs[k].review == r;
      assert k < |front| ==> front[k] == qs[k];
    }
  }

  /** A label is for ever: once resolved, no request changes the row. */
  lemma {:induction false} ResolvedIsFinal(reviews: seq<Review>, qs: seq<Request>, r: nat)
    requires r < |reviews| && reviews[r].status.Resolved?
    ensures ServeAll(reviews, qs)[r] == reviews[r]
    decreases |qs|
  {
    if qs != [] {
      ResolvedIsFinal(reviews, qs[..|qs| - 1], r);
    }
  }

  // ----- what requests write, column by column -----

  /** A successful claim: an open review is claimed now, and nothing else changes. */
  ghost predicate ClaimWritten(before: seq<Review>, after: seq<Review>, id: nat, now: nat) {
    && id < |before| == |after| && before[id].status.Open?
    && after[id].status.Claimed? && after[id].claimedAt == Some(now)
    && after[id].item == before[id].item && after[id].reason == before[id].reason
    && after[id].reviewerLabel == before[id].reviewerLabel && after[id].resolvedAt == before[id].resolvedAt
    && forall k :: 0 <= k < |before| && k != id ==> after[k] == before[k]
  }

  /** A successful resolution: a claimed review gets the verdict's nearest
      thousandth as its label, now, and nothing else changes. */
  ghost predicate ResolutionWritten(before: seq<Review>, after: seq<Review>, id: nat, verdict: UnitRatio, now: nat) {
    && id < |before| == |after| && before[id].status.Claimed?
    && after[id].status.Resolved? && after[id].resolvedAt == Some(now)
    && after[id].reviewerLabel.Some? && NearestEven(1000 * verdict.num, verdict.den, after[id].reviewerLabel.value)
    && after[id].item == before[id].item && after[id].reason == before[id].reason
    && after[id].claimedAt == before[id].claimedAt
    && forall k :: 0 <= k < |before| && k != id ==> after[k] == before[k]
  }

  /** The first claim of review r. */
  ghost predicate IsClaimer(qs: seq<Request>, r: nat, k: nat) {
    k < |qs| && qs[k].Claim? && qs[k].review == r && !Asked(qs[..k], r)
  }

  /** The first resolution of review r after somebody claimed it. */
  ghost predicate IsResolver(qs: seq<Request>, r: nat, k: nat) {
    && k < |qs| && qs[k].Resolve? && qs[k].review == r && Asked(qs[..k], r)
    && forall j :: 0 <= j < k && qs[j].Resolve? && qs[j].review == r ==> !Asked(qs[..j], r)
  }

  ghost predicate Resolvers(qs: seq<Request>, r: nat) {
    exists k: nat :: IsResolver(qs, r, k)
  }

  /** A review row as the requests so far have left it: the first claim set its
      time, the first resolution after that its label and time, and no other
      request left a trace. */
  ghost predicate Settled(row: Review, first: Review, qs: seq<Request>, r: nat) {
    && row.item == first.item && row.reason == first.reason
    && (!Asked(qs, r) ==> row == first)
    && (Asked(qs, r) && !Resolvers(qs, r) ==>
          row.status.Claimed? && row.reviewerLabel == first.reviewerLabel && row.resolvedAt == first.resolvedAt)
    && (forall k: nat :: IsClaimer(qs, r, k) ==> row.claimedAt == Some(qs[k].now))
    && (forall k: nat :: IsResolver(qs, r, k) ==>
          && row.status.Resolved? && row.resolvedAt == Some(qs[k].now) && row.reviewerLabel.Some?
          && NearestEven(1000 * qs[k].verdict.num, qs[k].verdict.den, row.reviewerLabel.value))
  }

  lemma {:induction false} SomeResolver(qs: seq<Request>, r: nat, k: nat)
    requires k < |qs| && qs[k].Resolve? && qs[k].review == r && Asked(qs[..k], r)
    ensures Resolvers(qs, r)
  {
    if j :| 0 <= j < k && qs[j].Resolve? && qs[j].review == r && Asked(qs[..j], r) {
      SomeResolver(qs, r, j);
    } else {
      assert IsResolver(qs, r, k);
    }
  }

  /** One more request: whether it is the claimer or the resolver depends on those
      before it, and who they are does not change. */
  lemma LastRequest(qs: seq<Request>, r: nat)
    requires qs != []
    ensures var n := |qs| - 1;
            var front, q := qs[..n], qs[n];
            && (forall k: nat :: IsClaimer(qs, r, k) <==> IsClaimer(front, r, k) || (k == n && q.Claim? && q.review == r && !Asked(front, r)))
            && (forall k: nat :: IsResolver(qs, r, k) <==>
                  IsResolver(front, r, k) || (k == n && q.Resolve? && q.review == r && Asked(front, r) && !Resolvers(front, r)))
  {
    var n := |qs| - 1;
    var front, q := qs[..n], qs[n];
    hide Asked;
    assert forall j :: 0 <= j <= n ==> front[..j] == qs[..j];
    if q.Resolve? && q.review == r && Asked(front, r) && !Resolvers(front, r) {
      forall j | 0 <= j < n && qs[j].Resolve? && qs[j].review == r ensures !Asked(qs[..j], r) {
        if Asked(qs[..j], r) {
          assert front[j] == qs[j];
          SomeResolver(front, r, j);
        }
      }
    }
  }

  lemma ResolverIsLate(qs: seq<Request>, r: nat)
    requires Resolvers(qs, r)
    ensures Asked(qs, r)
  {
    var j: nat :| IsResolver(qs, r, j);
    var k :| 0 <= k < |qs[..j]| && qs[..j][k].Claim? && qs[..j][k].review == r;
    assert qs[k] == qs[..j][k];
  }

  lemma SettledStep(reviews: seq<Review>, row: Review, qs: seq<Request>, r: nat)
    requires qs != [] && r < |reviews| && row.status.Open?
    requires Settled(reviews[r], row, qs[..|qs| - 1], r)
    ensures Settled(Serve(reviews, qs[|qs| - 1])[r], row, qs, r)
  {
    var n := |qs| - 1;
    var front, q := qs[..n], qs[n];
    AskedSoFar(qs, r);
    LastRequest(qs, r);
    if Resolvers(front, r) {
      ResolverIsLate(front, r);
    }
    hide Asked, IsClaimer, IsResolver, NearestEven;
    assert Resolvers(qs, r) <==> Resolvers(front, r) || (q.Resolve? && q.review == r && Asked(front, r) && !Resolvers(front, r)) by {
      assert IsResolver(qs, r, n) || !IsResolver(qs, r, n);
    }
  }

  /** Any interleaving of requests leaves a review as its first claim and the first
      resolution after that wrote it. */
  lemma {:induction false} FirstClaimFirstResolution(reviews: seq<Review>, qs: seq<Request>, r: nat)
    requires r < |reviews| && reviews[r].status.Open?
    ensures Settled(ServeAll(reviews, qs)[r], reviews[r], qs, r)
    decreases |qs|
  {
    if qs != [] {
      hide Settled, Serve;
      FirstClaimFirstResolution(reviews, qs[..|qs| - 1], r);
      SettledStep(ServeAll(reviews, qs[..|qs| - 1]), reviews[r], qs, r);
    }
  }

  // ----- the table as the handlers update it -----

  datatype Stats = Stats(open: nat, claimed: nat, resolved: nat, meanMs: Option<real>)

  function StatusOf(r: Review): ReviewStatus {
    r.status
  }

  function CountStatus(reviews: seq<Review>, status: ReviewStatus): (n: nat)
    ensures n == |set i | 0 <= i < |reviews| && reviews[i].status == status|
  {
    GroupCounts(reviews, StatusOf, status, set i | 0 <= i < |reviews| && reviews[i].status == status);
    |Group(reviews, StatusOf, status)|
  }

  predicate Timed(r: Review) {
    r.resolvedAt.Some? && r.claimedAt.Some?
  }

  /** Seconds from claim to resolution. */
  function Seconds(r: Review): int {
    r.resolvedAt.GetOr(0) - r.claimedAt.GetOr(0)
  }

  predicate IsMeanMs(timed: seq<Review>, mean: real) {
    mean * |timed| as real == 1000.0 * Sum(timed, Seconds) as real
  }

  function MeanMs(timed: seq<Review>): (mean: real)
    requires timed != []
    ensures IsMeanMs(timed, mean)
    ensures Sum(timed, Seconds) >= 0 ==> mean >= 0.0
  {
    Average(Sum(timed, Seconds), |timed|) * 1000.0
  }

  function Average(total: int, n: nat): (mean: real)
    requires n > 0
    ensures mean * n as real == total as real
    ensures total >= 0 ==> mean >= 0.0
  {
    total as real / n as real
  }

  class ReviewTable {
    var reviews: seq<Review>

    constructor (rows: seq<Review>)
      ensures reviews == rows
    {
      reviews := rows;
    }

    /** UPDATE .. WHERE status = 'open', then 404 or 409 when no row matched. */
    method ClaimReviewItem(id: nat, now: nat) returns (answer: Answer)
      modifies this
      ensures answer == Reply(old(reviews), Claim(id, now)) && reviews == Serve(old(reviews), Claim(id, now))
      ensures answer.NotFound? <==> id >= old(|reviews|)
      ensures answer.Updated? <==> id < old(|reviews|) && old(reviews)[id].status.Open?
      ensures if answer.Updated? then ClaimWritten(old(reviews), reviews, id, now) else reviews == old(reviews)
    {
      var rowcount := 0;
      if id < |reviews| && reviews[id].status.Open? {
        reviews := reviews[id := reviews[id].(status := Claimed, claimedAt := Some(now))];
        rowcount := 1;
      }
      if rowcount == 1 {
        return Updated;
      }
      return if id >= |reviews| then NotFound else Conflict;
    }

    method ResolveReviewItem(id: nat, verdict: UnitRatio, now: nat) returns (answer: Answer)
      modifies this
      ensures answer == Reply(old(reviews), Resolve(id, verdict, now))
      ensures reviews == Serve(old(reviews), Resolve(id, verdict, now))
      ensures answer.NotFound? <==> id >= old(|reviews|)
      ensures answer.Updated? <==> id < old(|reviews|) && old(reviews)[id].status.Claimed?
      ensures if answer.Updated? then ResolutionWritten(old(reviews), reviews, id, verdict, now) else reviews == old(reviews)
    {
      var rounded := Thousandths(verdict);
      var rowcount := 0;
      if id < |reviews| && reviews[id].status.Claimed? {
        reviews := reviews[id := reviews[id].(status := Resolved, reviewerLabel := Some(rounded), resolvedAt := Some(now))];
        rowcount := 1;
      }
      if rowcount == 1 {
        return Updated;
      }
      return if id >= |reviews| then NotFound else Conflict;
    }

    /** review_queue_stats: every review is counted under one status. */
    method ReviewQueueStats() returns (stats: Stats)
      ensures stats.open == |set i | 0 <= i < |reviews| && reviews[i].status.Open?|
      ensures stats.claimed == |set i | 0 <= i < |reviews| && reviews[i].status.Claimed?|
      ensures stats.resolved == |set i | 0 <= i < |reviews| && reviews[i].status.Resolved?|
      ensures stats.open + stats.claimed + stats.resolved == |reviews|
      ensures stats.meanMs.Some? <==> exists r :: r in reviews && Timed(r)
      ensures stats.meanMs.Some? ==> IsMeanMs(Filter(reviews, Timed), stats.meanMs.value)
      ensures (forall r :: r in reviews && Timed(r) ==> Seconds(r) >= 0) && stats.meanMs.Some? ==>
                stats.meanMs.value >= 0.0
    {
      var counts := CountByStatus();
      StatusesPartition(reviews);
      PositionsByStatus(reviews);
      var meanMs := MeanTimeToResolve();
      stats := Stats(counts[Open], counts[Claimed], counts[Resolved], meanMs);
    }

    /** The rows of the GROUP BY over statuses, written over zeros. */
    method CountByStatus() returns (counts: map<ReviewStatus, nat>)
      ensures counts.Keys == {Open, Claimed, Resolved}
      ensures forall status :: status in counts ==> counts[status] == CountStatus(reviews, status)
      ensures forall status :: status in counts ==> counts[status] == |set i | 0 <= i < |reviews| && reviews[i].status == status|
    {
      var keys := GroupKeys(reviews, StatusOf);
      counts := map[Open := 0, Claimed := 0, Resolved := 0];
      var k := 0;
      while k < |keys|
        invariant k <= |keys| && counts.Keys == {Open, Claimed, Resolved}
        invariant forall status :: status in counts ==>
                    counts[status] == if status in keys[..k] then CountStatus(reviews, status) else 0
      {
        assert keys[k] == Open || keys[k] == Claimed || keys[k] == Resolved;
        counts := counts[keys[k] := CountStatus(reviews, keys[k])];
        k := k + 1;
      }
      assert keys[..k] == keys;
      forall status | status in counts ensures counts[status] == CountStatus(reviews, status) {
        var group := Group(reviews, StatusOf, status);
        if group != [] {
          assert group[0] in group && group[0] in reviews;
        }
      }
    }

    /** The average over the reviews with both timestamps: it times their
        number is their summed time, in milliseconds. */
    method MeanTimeToResolve() returns (meanMs: Option<real>)
      ensures meanMs.Some? <==> exists r :: r in reviews && Timed(r)
      ensures meanMs.Some? ==> IsMeanMs(Filter(reviews, Timed), meanMs.value)
      ensures (forall r :: r in reviews && Timed(r) ==> Seconds(r) >= 0) && meanMs.Some? ==> meanMs.value >= 0.0
    {
      hide IsMeanMs, MeanMs, Timed;
      var timed := Filter(reviews, Timed);
      meanMs := None;
      if timed != [] {
        assert timed[0] in timed;
        meanMs := Some(MeanMs(timed));
        if forall r :: r in reviews && Timed(r) ==> Seconds(r) >= 0 {
          SumAtLeast(timed, Seconds, 0);
        }
      }
    }
  }

  lemma PositionsByStatus(reviews: seq<Review>)
    ensures CountStatus(reviews, Open) == |set i | 0 <= i < |reviews| && reviews[i].status.Open?|
    ensures CountStatus(reviews, Claimed) == |set i | 0 <= i < |reviews| && reviews[i].status.Claimed?|
    ensures CountStatus(reviews, Resolved) == |set i | 0 <= i < |reviews| && reviews[i].status.Resolved?|
  {
    hide Group;
    GroupCounts(reviews, StatusOf, Open, set i | 0 <= i < |reviews| && reviews[i].status.Open?);
    GroupCounts(reviews, StatusOf, Claimed, set i | 0 <= i < |reviews| && reviews[i].status.Claimed?);
    GroupCounts(reviews, StatusOf, Resolved, set i | 0 <= i < |reviews| && reviews[i].status.Resolved?);
  }

  /** The mean in the columns' terms: times the number of reviews with both
      timestamps it is a thousand times the seconds between them, summed up. */
  lemma MeanIsOfTimestamps(reviews: seq<Review>, mean: real, seconds: Review -> int)
    requires IsMeanMs(Filter(reviews, Timed), mean)
    requires forall r: Review :: seconds(r) ==
               if r.resolvedAt.Some? && r.claimedAt.Some? then r.resolvedAt.value - r.claimedAt.value else 0
    ensures mean * |set i | 0 <= i < |reviews| && reviews[i].resolvedAt.Some? && reviews[i].claimedAt.Some?| as real ==
            1000.0 * Sum(reviews, seconds) as real
  {
    hide Sum, Filter;
    var positions := set i | 0 <= i < |reviews| && reviews[i].resolvedAt.Some? && reviews[i].claimedAt.Some?;
    FilterCounts(reviews, Timed, positions);
    FilterSum(reviews, Timed, Seconds, seconds);
    assert |Filter(reviews, Timed)| == |positions| && Sum(Filter(reviews, Timed), Seconds) == Sum(reviews, seconds);
    hide Timed, Seconds;
  }

  lemma StatusesPartition(reviews: seq<Review>)
    ensures CountStatus(reviews, Open) + CountStatus(reviews, Claimed) + CountStatus(reviews, Resolved) == |reviews|
  {
    var keys := [Open, Claimed, Resolved];
    forall r | r in reviews ensures StatusOf(r) in keys {
      assert r.status == keys[0] || r.status == keys[1] || r.status == keys[2];
    }
    GroupsPartition(reviews, StatusOf, keys, One);
    SumOnes(reviews);
    var k1, k2 := [Claimed, Resolved], [Resolved];
    assert keys[1..] == k1 && k1[1..] == k2 && k2[1..] == [];
    assert SumOverGroups(reviews, StatusOf, k2, One) == Sum(Group(reviews, StatusOf, Resolved), One);
    assert SumOverGroups(reviews, StatusOf, k1, One) ==
           Sum(Group(reviews, StatusOf, Claimed), One) + SumOverGroups(reviews, StatusOf, k2, One);
    SumOnes(Group(reviews, StatusOf, Open));
    SumOnes(Group(reviews, StatusOf, Claimed));
    SumOnes(Group(reviews, StatusOf, Resolved));
  }

  /** list_review_queue groups the fetched grades by item, keeping their order. */
  method GroupGrades(rows: seq<Grade>) returns (byItem: map<nat, seq<Grade>>)
    ensures forall item :: item in byItem ==> byItem[item] == RowsOf(rows, item)
    ensures forall item: nat :: item !in byItem ==> RowsOf(rows, item) == []
  {
    byItem := map[];
    var k := 0;
    while k < |rows|
      invariant k <= |rows|
      invariant forall item :: item in byItem ==> byItem[item] == RowsOf(rows[..k], item)
      invariant forall item: nat :: item !in byItem ==> RowsOf(rows[..k], item) == []
    {
      var g := rows[k];
      assert rows[..k + 1] == rows[..k] + [g];
      forall item: nat
        ensures RowsOf(rows[..k + 1], item) == RowsOf(rows[..k], item) + (if g.item == item then [g] else [])
      {
        RowsOfAppend(rows[..k], [g], item);
      }
      byItem := byItem[g.item := (if g.item in byItem then byItem[g.item] else []) + [g]];
      k := k + 1;
    }
    assert rows[..k] == rows;
  }
}
