/** _read_eval_run (app/api/v1/eval_runs.py): the per-model aggregates of a run. */
module RunReport {
  import opened Options
  import opened Sums
  import opened Protocol
  import opened Safety

  datatype StatusCounts = StatusCounts(queued: nat, running: nat, succeeded: nat, failed: nat, deadLettered: nat)

  datatype ModelAggregate = ModelAggregate(endpoint: nat, counts: StatusCounts, meanLatency: Option<real>, totalCost: int)

  datatype StatusKey = StatusKey(endpoint: nat, status: ItemStatus)

  function KeyOf(it: Item): StatusKey {
    StatusKey(it.endpoint, it.status)
  }

  function EndpointOf(it: Item): nat {
    it.endpoint
  }

  function LatencyOf(it: Item): int {
    it.latency.GetOr(0)
  }

  predicate Timed(it: Item) {
    it.latency.Some?
  }

  /** Items of one endpoint in one status. */
  function CountOf(items: seq<Item>, endpoint: nat, status: ItemStatus): nat {
    |Group(items, KeyOf, StatusKey(endpoint, status))|
  }

  /** func.avg over a group: null when no row has a latency. */
  function MeanLatency(group: seq<Item>): Option<real> {
    var timed := Filter(group, Timed);
    if timed == [] then None else Some(Sum(timed, LatencyOf) as real / |timed| as real)
  }

  function CountsOf(items: seq<Item>, endpoint: nat): StatusCounts {
    StatusCounts(CountOf(items, endpoint, Queued), CountOf(items, endpoint, ItemStatus.Running),
                 CountOf(items, endpoint, Succeeded), CountOf(items, endpoint, ItemStatus.Failed),
                 CountOf(items, endpoint, DeadLettered))
  }

  /** The aggregate a reader expects for one endpoint. */
  function AggregateOf(items: seq<Item>, endpoint: nat): ModelAggregate {
    var group := Group(items, EndpointOf, endpoint);
    ModelAggregate(endpoint, CountsOf(items, endpoint), MeanLatency(group), Sum(group, CostOf))
  }

  type CountTable = map<nat, map<ItemStatus, nat>>

  /** Dictionary lookups with a default, as the code makes them. */
  function Get(counts: CountTable, endpoint: nat, status: ItemStatus): nat {
    if endpoint in counts && status in counts[endpoint] then counts[endpoint][status] else 0
  }

  /** counts_by_model: one entry per row of the GROUP BY endpoint, status. */
  method CountsByModel(items: seq<Item>) returns (counts: CountTable)
    ensures forall endpoint, status :: Get(counts, endpoint, status) == CountOf(items, endpoint, status)
  {
    var keys := GroupKeys(items, KeyOf);
    counts := map[];
    var k := 0;
    while k < |keys|
      invariant k <= |keys|
      invariant forall endpoint, status :: Get(counts, endpoint, status) ==
                  if StatusKey(endpoint, status) in keys[..k] then CountOf(items, endpoint, status) else 0
    {
      var key := keys[k];
      var inner := if key.endpoint in counts then counts[key.endpoint] else map[];
      counts := counts[key.endpoint := inner[key.status := CountOf(items, key.endpoint, key.status)]];
      k := k + 1;
    }
    assert keys[..k] == keys;
    forall endpoint, status ensures Get(counts, endpoint, status) == CountOf(items, endpoint, status) {
      var group := Group(items, KeyOf, StatusKey(endpoint, status));
      if group != [] {
        assert group[0] in group && group[0] in items;
      }
    }
  }

  function IdsOf(aggregates: seq<ModelAggregate>): (ids: seq<nat>)
    ensures |ids| == |aggregates| && forall k :: 0 <= k < |ids| ==> ids[k] == aggregates[k].endpoint
  {
    seq(|aggregates|, k requires 0 <= k < |aggregates| => aggregates[k].endpoint)
  }

  /** One right aggregate for each of the distinct endpoint ids of the items. */
  ghost predicate IsReport(items: seq<Item>, aggregates: seq<ModelAggregate>) {
    && Distinct(IdsOf(aggregates))
    && (forall id: nat :: id in IdsOf(aggregates) <==> exists it :: it in items && it.endpoint == id)
    && (forall k :: 0 <= k < |aggregates| ==> aggregates[k] == AggregateOf(items, aggregates[k].endpoint))
  }

  method ReadEvalRun(items: seq<Item>) returns (aggregates: seq<ModelAggregate>)
    ensures IsReport(items, aggregates)
    ensures forall k :: 0 <= k < |aggregates| ==> RightCounts(items, aggregates[k].endpoint, aggregates[k].counts)
  {
    hide AggregateOf;
    var counts := CountsByModel(items);
    var modelIds := set it | it in items :: it.endpoint;
    aggregates := [];
    var rest := modelIds;
    while rest != {}
      invariant rest <= modelIds && Distinct(IdsOf(aggregates))
      invariant forall id: nat :: id in IdsOf(aggregates) <==> id in modelIds && id !in rest
      invariant forall k :: 0 <= k < |aggregates| ==> aggregates[k] == AggregateOf(items, aggregates[k].endpoint)
      decreases rest
    {
      var id :| id in rest;
      var next := ReadModel(items, counts, id);
      assert IdsOf(aggregates + [next]) == IdsOf(aggregates) + [id];
      aggregates := aggregates + [next];
      rest := rest - {id};
    }
    hide RightCounts, CountsOf;
    forall k | 0 <= k < |aggregates| ensures RightCounts(items, aggregates[k].endpoint, aggregates[k].counts) {
      CountsAreOfStatuses(items, aggregates, k);
    }
  }

  /** The ModelAggregate built in the loop, from the dictionaries. */
  function ReadModel(items: seq<Item>, counts: CountTable, id: nat): (aggregate: ModelAggregate)
    requires forall status :: Get(counts, id, status) == CountOf(items, id, status)
    ensures aggregate == AggregateOf(items, id) && aggregate.endpoint == id
  {
    var group := Group(items, EndpointOf, id);
    ModelAggregate(id,
                   StatusCounts(Get(counts, id, Queued), Get(counts, id, ItemStatus.Running),
                                Get(counts, id, Succeeded), Get(counts, id, ItemStatus.Failed),
                                Get(counts, id, DeadLettered)),
                   MeanLatency(group), Sum(group, CostOf))
  }

  // ----- the report in the columns' terms -----

  /** The numbers of items of the endpoint in each status. */
  ghost predicate RightCounts(items: seq<Item>, e: nat, counts: StatusCounts) {
    && counts.queued == |set i | 0 <= i < |items| && items[i].endpoint == e && items[i].status.Queued?|
    && counts.running == |set i | 0 <= i < |items| && items[i].endpoint == e && items[i].status.Running?|
    && counts.succeeded == |set i | 0 <= i < |items| && items[i].endpoint == e && items[i].status.Succeeded?|
    && counts.failed == |set i | 0 <= i < |items| && items[i].endpoint == e && items[i].status.Failed?|
    && counts.deadLettered == |set i | 0 <= i < |items| && items[i].endpoint == e && items[i].status.DeadLettered?|
  }

  /** A report counts the items of each endpoint in each status. */
  lemma CountsAreOfStatuses(items: seq<Item>, aggregates: seq<ModelAggregate>, k: nat)
    requires IsReport(items, aggregates) && k < |aggregates|
    ensures RightCounts(items, aggregates[k].endpoint, aggregates[k].counts)
  {
    hide Group;
    var e := aggregates[k].endpoint;
    StatusCount(items, e, Queued, set i | 0 <= i < |items| && items[i].endpoint == e && items[i].status.Queued?);
    StatusCount(items, e, ItemStatus.Running, set i | 0 <= i < |items| && items[i].endpoint == e && items[i].status.Running?);
    StatusCount(items, e, Succeeded, set i | 0 <= i < |items| && items[i].endpoint == e && items[i].status.Succeeded?);
    StatusCount(items, e, ItemStatus.Failed, set i | 0 <= i < |items| && items[i].endpoint == e && items[i].status.Failed?);
    StatusCount(items, e, DeadLettered, set i | 0 <= i < |items| && items[i].endpoint == e && items[i].status.DeadLettered?);
  }

  lemma StatusCount(items: seq<Item>, endpoint: nat, status: ItemStatus, positions: set<int>)
    requires forall i :: i in positions <==> 0 <= i < |items| && items[i].endpoint == endpoint && items[i].status == status
    ensures CountOf(items, endpoint, status) == |positions|
  {
    hide Group;
    GroupCounts(items, KeyOf, StatusKey(endpoint, status), positions);
  }

  /** The mean latency exists if and only if an item of the endpoint has a latency,
      and times the number of those it is the sum of their latencies. */
  lemma MeanIsOfLatencies(items: seq<Item>, aggregates: seq<ModelAggregate>, k: nat, latency: Item -> int)
    requires IsReport(items, aggregates) && k < |aggregates|
    requires forall it: Item :: latency(it) ==
               if it.endpoint == aggregates[k].endpoint && it.latency.Some? then it.latency.value else 0
    ensures var n := |set i | 0 <= i < |items| && items[i].endpoint == aggregates[k].endpoint && items[i].latency.Some?|;
            match aggregates[k].meanLatency
            case None => n == 0
            case Some(mean) => n > 0 && mean * n as real == Sum(items, latency) as real
  {
    hide Group, Sum, Filter, CountsOf, MeanLatency;
    var e := aggregates[k].endpoint;
    assert aggregates[k] == AggregateOf(items, e);
    hide IsReport;
    var positions := set i | 0 <= i < |items| && items[i].endpoint == e && items[i].latency.Some?;
    TimedRows(items, e, latency, positions);
    MeanTimesCount(Group(items, EndpointOf, e), |positions|, Sum(items, latency));
  }

  lemma MeanTimesCount(group: seq<Item>, n: nat, total: int)
    requires |Filter(group, Timed)| == n && Sum(Filter(group, Timed), LatencyOf) == total
    ensures match MeanLatency(group)
            case None => n == 0
            case Some(mean) => n > 0 && mean * n as real == total as real
  {
    hide Sum, Filter;
  }

  /** The total cost is the sum of the costs of the endpoint's items. */
  lemma CostIsOfItems(items: seq<Item>, aggregates: seq<ModelAggregate>, k: nat, cost: Item -> int)
    requires IsReport(items, aggregates) && k < |aggregates|
    requires forall it: Item :: cost(it) ==
               if it.endpoint == aggregates[k].endpoint && it.cost.Some? then it.cost.value else 0
    ensures aggregates[k].totalCost == Sum(items, cost)
  {
    hide Group, Sum, CountsOf, MeanLatency;
    assert aggregates[k] == AggregateOf(items, aggregates[k].endpoint);
    hide IsReport;
    GroupSum(items, EndpointOf, aggregates[k].endpoint, CostOf, cost);
  }

  lemma TimedRows(items: seq<Item>, endpoint: nat, latency: Item -> int, positions: set<int>)
    requires forall it: Item :: latency(it) == if it.endpoint == endpoint && it.latency.Some? then it.latency.value else 0
    requires forall i :: i in positions <==> 0 <= i < |items| && items[i].endpoint == endpoint && items[i].latency.Some?
    ensures Sum(Filter(Group(items, EndpointOf, endpoint), Timed), LatencyOf) == Sum(items, latency)
    ensures |Filter(Group(items, EndpointOf, endpoint), Timed)| == |positions|
  {
    hide Sum, Filter;
    var both := (it: Item) => it.endpoint == endpoint && it.latency.Some?;
    FilterOfGroup(items, EndpointOf, endpoint, Timed, both);
    FilterSum(items, both, LatencyOf, latency);
    FilterCounts(items, both, positions);
  }

  // ----- the report against the ledger -----

  function TotalCount(c: StatusCounts): int {
    c.queued + c.running + c.succeeded + c.failed + c.deadLettered
  }

  function CountIn(a: ModelAggregate): int {
    TotalCount(a.counts)
  }

  function CostIn(a: ModelAggregate): int {
    a.totalCost
  }

  function StatusOf(it: Item): ItemStatus {
    it.status
  }

  /** The five status counts of an endpoint count each of its items once. */
  lemma {:induction false} CountsPartition(items: seq<Item>, endpoint: nat)
    ensures TotalCount(CountsOf(items, endpoint)) == |Group(items, EndpointOf, endpoint)|
  {
    if items != [] {
      CountsPartition(items[1..], endpoint);
      CountsStep(items, endpoint, Queued);
      CountsStep(items, endpoint, ItemStatus.Running);
      CountsStep(items, endpoint, Succeeded);
      CountsStep(items, endpoint, ItemStatus.Failed);
      CountsStep(items, endpoint, DeadLettered);
      assert EndpointOf(items[0]) == items[0].endpoint;
    }
  }

  lemma CountsStep(items: seq<Item>, endpoint: nat, status: ItemStatus)
    requires items != []
    ensures CountOf(items, endpoint, status) ==
            CountOf(items[1..], endpoint, status) + (if items[0].endpoint == endpoint && items[0].status == status then 1 else 0)
  {
    var key := StatusKey(endpoint, status);
    var rest := Group(items[1..], KeyOf, key);
    assert Group(items, KeyOf, key) == if KeyOf(items[0]) == key then [items[0]] + rest else rest;
  }

  lemma {:induction false} ReportSums(items: seq<Item>, keys: seq<nat>, aggregates: seq<ModelAggregate>)
    requires |keys| == |aggregates|
    requires forall k :: 0 <= k < |keys| ==> aggregates[k] == AggregateOf(items, keys[k])
    ensures Sum(aggregates, CountIn) == SumOverGroups(items, EndpointOf, keys, One)
    ensures Sum(aggregates, CostIn) == SumOverGroups(items, EndpointOf, keys, CostOf)
    decreases |keys|
  {
    if keys != [] {
      CountsPartition(items, keys[0]);
      SumOnes(Group(items, EndpointOf, keys[0]));
      forall k | 0 <= k < |keys[1..]| ensures aggregates[1..][k] == AggregateOf(items, keys[1..][k]) {
        assert aggregates[k + 1] == AggregateOf(items, keys[k + 1]);
      }
      ReportSums(items, keys[1..], aggregates[1..]);
      assert aggregates[0] == AggregateOf(items, keys[0]);
    }
  }

  /** A report of any rows counts each row once and each cost once. */
  lemma ReportIsComplete(items: seq<Item>, aggregates: seq<ModelAggregate>)
    requires IsReport(items, aggregates)
    ensures Sum(aggregates, CountIn) == |items| && Sum(aggregates, CostIn) == Sum(items, CostOf)
  {
    var ids := IdsOf(aggregates);
    ReportSums(items, ids, aggregates);
    GroupsPartition(items, EndpointOf, ids, One);
    GroupsPartition(items, EndpointOf, ids, CostOf);
    SumOnes(items);
  }

  /** The API read agrees with the ledger: where items have one message, the
      report's costs add up to the run row's total in every reachable state. */
  lemma ReportAgreesWithLedger(c: Config, s0: State, tr: seq<Action>, aggregates: seq<ModelAggregate>)
    requires Initial(s0) && IsRun(c, s0, tr) && SingleMessage(c.faults)
    requires IsReport(End(c, s0, tr).items, aggregates)
    ensures var s := End(c, s0, tr);
            Sum(aggregates, CountIn) == |s.items| && Sum(aggregates, CostIn) == s.run.totalCost
  {
    hide Apply, Enabled, Initial, IsReport;
    InitialInv(c, s0);
    RunKeepsInv(c, s0, tr);
    assert LedgerOk(End(c, s0, tr));
    ReportIsComplete(End(c, s0, tr).items, aggregates);
  }
}
