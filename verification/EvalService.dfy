/** The code itself, transaction by transaction: execute_run_item and its
    helpers (app/workers/execute.py), create and cancel (app/api/v1/eval_runs.py)
    and replay (app/api/v1/dead_letters.py), over the rows they update in place.

    Between two transactions of a method, Interfere lets the other workers, the
    reviewers and the API handlers do anything the protocol allows them. Each
    method is shown to be a stretch of a run of the protocol, so everything
    proved about runs holds of this code. The workers field records where each
    worker stands; the methods keep it in step with their control flow. */
module EvalService {
  import opened Options
  import opened Sums
  import opened Protocol
  import opened Safety
  import opened Attempts
  import Pricing
  import Results
  import G = Grading

  datatype Reply =
    | CancelledReply
    | RunAbortedReply
    | AlreadySucceeded
    | NotExecutable
    | NonRetryableReply
    | RetriesExhaustedReply
    | OverBudgetReply
    | GradingFailedReply
    | SucceededReply

  datatype ApiReply = Accepted | Missing | Conflict

  datatype Endpoint = Endpoint(id: nat, model: string)

  datatype CreateReply =
    | TaskSetNotFound
    | UnknownEndpoints(missing: seq<nat>)
    | Created(service: EvalService)

  // ----- create_eval_run -----

  /** list(dict.fromkeys(ids)): first occurrences, in order. */
  function Dedupe(ids: seq<nat>): (unique: seq<nat>)
    ensures Distinct(unique)
    ensures forall id :: id in unique <==> id in ids
  {
    if ids == [] then []
    else
      var front := Dedupe(ids[..|ids| - 1]);
      assert ids == ids[..|ids| - 1] + [ids[|ids| - 1]];
      if ids[|ids| - 1] in front then front else front + [ids[|ids| - 1]]
  }

  /** Ids stay in the order in which they first occur. */
  lemma {:induction false} DedupeKeepsOrder(ids: seq<nat>, j: nat, k: nat)
    requires j < k < |Dedupe(ids)|
    ensures exists i :: 0 <= i < |ids| && ids[i] == Dedupe(ids)[j] && Dedupe(ids)[k] !in ids[..i + 1]
    decreases |ids|
  {
    var n := |ids| - 1;
    var front := Dedupe(ids[..n]);
    var i :| 0 <= i < n && ids[i] == Dedupe(ids)[j] && Dedupe(ids)[k] !in ids[..i + 1] by {
      if k < |front| {
        DedupeKeepsOrder(ids[..n], j, k);
        var i :| 0 <= i < n && ids[..n][i] == front[j] && front[k] !in ids[..n][..i + 1];
        assert ids[..n][..i + 1] == ids[..i + 1];
      } else {
        assert front[j] in ids[..n] && Dedupe(ids)[k] == ids[n] && ids[n] !in ids[..n];
        var i :| 0 <= i < n && ids[i] == front[j];
        assert forall x :: x in ids[..i + 1] ==> x in ids[..n];
      }
    }
  }

  function NewItem(task: nat, endpoint: Endpoint): Item {
    Item(task, endpoint.id, endpoint.model, Queued, 0, None, None, None, None, None)
  }

  /** [RunItem(task, endpoint) for task in tasks for endpoint in endpoints] */
  function FanOut(tasks: seq<nat>, endpoints: seq<Endpoint>): (items: seq<Item>)
    ensures |items| == |tasks| * |endpoints|
  {
    if tasks == [] then []
    else
      seq(|endpoints|, e requires 0 <= e < |endpoints| => NewItem(tasks[0], endpoints[e]))
      + FanOut(tasks[1..], endpoints)
  }

  /** The fan-out is the cross product: position t * |endpoints| + e holds the
      pair of task t and endpoint e. */
  lemma {:induction false} FanOutIsCrossProduct(tasks: seq<nat>, endpoints: seq<Endpoint>, t: nat, e: nat)
    requires t < |tasks| && e < |endpoints|
    ensures t * |endpoints| + e < |tasks| * |endpoints|
    ensures var it := FanOut(tasks, endpoints)[t * |endpoints| + e];
            && it.task == tasks[t] && it.endpoint == endpoints[e].id && it.model == endpoints[e].model
            && it.status.Queued? && it.attempts == 0 && it.error.None?
            && it.latency.None? && it.promptTokens.None? && it.completionTokens.None? && it.cost.None?
    decreases t
  {
    var n := |endpoints|;
    assert |tasks| * n == n + |tasks[1..]| * n;
    if t > 0 {
      FanOutIsCrossProduct(tasks[1..], endpoints, t - 1, e);
      assert t * n + e == n + ((t - 1) * n + e);
    }
  }

  lemma {:induction false} FanOutIsFresh(tasks: seq<nat>, endpoints: seq<Endpoint>)
    ensures forall k :: 0 <= k < |FanOut(tasks, endpoints)| ==>
              FanOut(tasks, endpoints)[k] == FreshItem(FanOut(tasks, endpoints)[k])
  {
    if tasks != [] {
      FanOutIsFresh(tasks[1..], endpoints);
    }
  }

  lemma NewRun(c: Config, s: State, tasks: seq<nat>, endpoints: seq<Endpoint>)
    requires s.items == FanOut(tasks, endpoints) && s.queue == Messages(|s.items|)
    requires s.run == Run(if tasks == [] || endpoints == [] then Completed else RunStatus.Running, 0, 0, false)
    requires s.book == G.Book([], []) && s.pending == multiset{} && forall w :: 0 <= w < |s.workers| ==> s.workers[w].Idle?
    ensures Initial(s) && Inv(c, s)
  {
    hide Inv, FanOut;
    FanOutIsFresh(tasks, endpoints);
    if tasks == [] || endpoints == [] {
      assert |tasks| * |endpoints| == 0;
    } else {
      FanOutIsCrossProduct(tasks, endpoints, 0, 0);
    }
    InitialInv(c, s);
  }

  /** The rows found for the requested endpoint ids. */
  function FoundEndpoints(table: seq<Endpoint>, ids: seq<nat>): (found: seq<Endpoint>)
    ensures forall e :: e in found <==> e in table && e.id in ids
  {
    Filter(table, (e: Endpoint) => e.id in ids)
  }

  predicate Knows(table: seq<Endpoint>, id: nat) {
    exists k :: 0 <= k < |table| && table[k].id == id
  }

  method CreateEvalRun(config: Config, retry: RetryConfig, pool: nat, taskSetFound: bool, tasks: seq<nat>,
                       requested: seq<nat>, table: seq<Endpoint>)
    returns (reply: CreateReply)
    requires SingleMessage(config.faults)
    ensures reply.TaskSetNotFound? <==> !taskSetFound
    ensures reply.UnknownEndpoints? <==> taskSetFound && exists id :: id in requested && !Knows(table, id)
    ensures reply.UnknownEndpoints? ==> forall id :: id in reply.missing <==> id in requested && !Knows(table, id)
    ensures reply.Created? ==>
              && fresh(reply.service) && reply.service.Valid() && reply.service.config == config
              && Initial(reply.service.View()) && |reply.service.workers| == pool
              && reply.service.items == FanOut(tasks, FoundEndpoints(table, Dedupe(requested)))
  {
    if !taskSetFound {
      return TaskSetNotFound;
    }
    var ids := Dedupe(requested);
    var endpoints := FoundEndpoints(table, ids);
    var missing := Filter(ids, (id: nat) => !Knows(endpoints, id));
    forall id | id in ids ensures Knows(endpoints, id) == Knows(table, id) {
      if Knows(table, id) {
        var k :| 0 <= k < |table| && table[k].id == id;
        assert table[k] in endpoints;
      }
      if Knows(endpoints, id) {
        var k :| 0 <= k < |endpoints| && endpoints[k].id == id;
        assert endpoints[k] in table;
      }
    }
    if missing != [] {
      assert missing[0] in missing;
      return UnknownEndpoints(missing);
    }
    var service := new EvalService(config, retry, pool, tasks, endpoints);
    return Created(service);
  }

  // ----- the rows -----

  class EvalService {
    var run: Run
    var items: seq<Item>
    var book: G.Book
    var queue: multiset<nat>
    var workers: seq<Phase>
    var pending: multiset<nat>
    const config: Config
    const retry: RetryConfig

    function View(): State
      reads this
    {
      State(run, items, book, queue, workers, pending)
    }

    ghost predicate Valid()
      reads this
    {
      Inv(config, View()) && SingleMessage(config.faults)
    }

    /** The rows and messages of a new run. */
    constructor (config: Config, retry: RetryConfig, pool: nat, tasks: seq<nat>, endpoints: seq<Endpoint>)
      requires SingleMessage(config.faults)
      ensures Valid() && Initial(View()) && this.config == config && |workers| == pool
      ensures items == FanOut(tasks, endpoints)
    {
      var rows := FanOut(tasks, endpoints);
      var messages: multiset<nat> := multiset{};
      var k := 0;
      while k < |rows|
        invariant k <= |rows| && messages == Messages(k)
      {
        messages := messages + multiset{k};
        k := k + 1;
      }
      this.config := config;
      this.retry := retry;
      run := Run(if tasks == [] || endpoints == [] then Completed else RunStatus.Running, 0, 0, false);
      items := rows;
      book := G.Book([], []);
      queue := messages;
      workers := seq(pool, _ => Idle);
      pending := multiset{};
      new;
      hide FanOut, Inv, Initial, Messages;
      NewRun(config, View(), tasks, endpoints);
    }

    // ----- the API -----

    /** Sweeps whether or not a replay has read its item; the run goes on being
        one of the protocol if the environment allows that. */
    method Cancel() returns (reply: ApiReply)
      requires Valid()
      modifies this
      ensures Valid()
      ensures reply == if old(run.status.Completed? || run.status.Failed?) then Conflict else Accepted
      ensures View() == if old(run.status.Pending? || run.status.Running?) then Swept(old(View())) else old(View())
      ensures old(run.status.Pending? || run.status.Running?) ==>
                && run == old(run).(status := Cancelled) && |items| == old(|items|)
                && forall i :: 0 <= i < |items| ==>
                     items[i] == if old(items)[i].status.Queued?
                                 then old(items)[i].(status := ItemStatus.Failed, error := Some(RunCancelled)) else old(items)[i]
      ensures old(pending) == multiset{} || config.faults.cancelDuringReplay ==> Leads(config, old(View()), View())
    {
      Begin(config, View());
      if run.status.Completed? || run.status.Failed? {
        return Conflict;
      }
      if !run.status.Cancelled? {
        SweepKeeps(config, View(), run.(status := Cancelled), RunCancelled);
        if pending == multiset{} || config.faults.cancelDuringReplay {
          Step(config, View(), View(), Protocol.Cancel);
        }
        if run.status.Pending? || run.status.Running? {
          run := run.(status := Cancelled);
        }
        items := SweepQueued(items, RunCancelled);
      }
      return Accepted;
    }

    /** The first half of a replay: 404 for an unknown item, and 409 unless the
        item is dead-lettered and its run not cancelled. */
    method CheckReplay(rid: nat) returns (reply: ApiReply)
      requires Valid()
      modifies this`pending
      ensures reply == if rid >= |items| then Missing
                       else if !items[rid].status.DeadLettered? || run.status.Cancelled? then Conflict
                       else Accepted
      ensures pending == if reply.Accepted? then old(pending) + multiset{rid} else old(pending)
      ensures reply.Accepted? && rid !in old(pending) ==>
                && Enabled(config, old(View()), ReplayRead(rid)) && View() == Apply(config, old(View()), ReplayRead(rid))
      ensures rid !in old(pending) ==> Valid()
    {
      if rid >= |items| {
        return Missing;
      }
      if !items[rid].status.DeadLettered? {
        return Conflict;
      }
      if run.status.Cancelled? {
        return Conflict;
      }
      if rid !in pending {
        ReplayReadKeeps(config, View(), rid);
      }
      pending := pending + multiset{rid};
      return Accepted;
    }

    /** The second half: two guarded updates, the commit and the enqueue. The
        row count of the first update is not looked at. */
    method CommitReplay(rid: nat)
      requires rid < |items| && rid in pending
      modifies this
      ensures View() == ReplayItem(old(View()), rid)
      ensures items == old(items)[rid := if old(items)[rid].status.DeadLettered?
                                         then old(items)[rid].(status := Queued, error := None) else old(items)[rid]]
      ensures run == if old(run).status.Failed? then old(run).(status := RunStatus.Running, error := false) else old(run)
      ensures queue == old(queue) + multiset{rid}
      ensures old(Valid()) ==> Valid() && old(items[rid].status.DeadLettered?) && items[rid].status.Queued?
    {
      if Inv(config, View()) {
        ReplayWriteKeeps(config, View(), rid);
      }
      assert items[rid := items[rid]] == items;
      if items[rid].status.DeadLettered? {
        items := items[rid := items[rid].(status := Queued, error := None)];
      }
      if run.status.Failed? {
        run := run.(status := RunStatus.Running, error := false);
      }
      pending := pending - multiset{rid};
      queue := queue + multiset{rid};
    }

    /** A replay request, with anything happening between its read and its
        write except another replay of the same item. */
    method Replay(rid: nat) returns (reply: ApiReply)
      requires Valid() && rid !in pending
      modifies this
      ensures Valid() && rid !in pending
      ensures config.faults.replayAborted ==> Leads(config, old(View()), View())
      ensures reply == if rid >= old(|items|) then Missing
                       else if !old(items)[rid].status.DeadLettered? || old(run).status.Cancelled? then Conflict
                       else Accepted
      ensures reply.Accepted? ==> rid < |items| && items[rid].status.Queued? && rid in queue
    {
      ghost var origin := View();
      Begin(config, origin);
      reply := CheckReplay(rid);
      if !reply.Accepted? {
        return;
      }
      Step(config, origin, origin, ReplayRead(rid));
      hide Inv, Leads, Apply;
      InterfereWithReplay(origin, rid);
      if config.faults.replayAborted {
        ApplyReplayWrite(config, View(), rid);
        Step(config, origin, View(), ReplayWrite(rid));
      }
      PendingOnce(config, View(), rid);
      CommitReplay(rid);
    }

    /** Any number of steps of the workers, the reviewers and the other handlers. */
    method InterfereWithReplay(ghost origin: State, rid: nat)
      requires Valid() && Leads(config, origin, View()) && rid < |items| && rid in pending
      modifies this
      ensures Valid() && Leads(config, origin, View()) && rid < |items| && rid in pending
    {
      var k, steps: int := 0, *;
      while k < steps
        invariant Valid() && Leads(config, origin, View()) && rid < |items| && rid in pending
      {
        var a: Action := *;
        if Enabled(config, View(), a) && a != ReplayWrite(rid) {
          Own(config, origin, View(), a);
          PendingStays(config, View(), a, rid);
          var s := Apply(config, View(), a);
          run, items, book, queue, workers, pending := s.run, s.items, s.book, s.queue, s.workers, s.pending;
          assert View() == s;
        }
        k := k + 1;
      }
    }

    // ----- everybody else -----

    /** Where the execution of worker me stands, on the way from origin. */
    ghost predicate Underway(origin: State, me: nat)
      reads this
    {
      && Valid() && Leads(config, origin, View()) && Inv(config, origin)
      && me < |workers| == |origin.workers| && |items| == |origin.items|
    }

    /** Any number of steps of the other workers, the reviewers and the API. */
    method Interfere(ghost origin: State, me: nat)
      requires Underway(origin, me)
      modifies this
      ensures Underway(origin, me) && workers[me] == old(workers[me])
      ensures forall i: nat :: i < |items| && Holds(workers[me], i) && !old(items)[i].status.Queued? ==>
                items[i] == old(items)[i]
    {
      var k, steps: int := 0, *;
      while k < steps
        invariant Underway(origin, me) && workers[me] == old(workers[me])
        invariant forall i: nat :: i < |items| && Holds(workers[me], i) && !old(items)[i].status.Queued? ==>
                    items[i] == old(items)[i]
      {
        var a: Action := *;
        if Enabled(config, View(), a) && !By(a, me) {
          Others(config, origin, View(), a, me);
          var s := Apply(config, View(), a);
          run, items, book, queue, workers, pending := s.run, s.items, s.book, s.queue, s.workers, s.pending;
          assert View() == s;
        }
        k := k + 1;
      }
    }

    // ----- the worker's transactions -----

    /** _mark_running, then the provider call: any outcome. */
    method MarkRunningAndCall(ghost origin: State, me: nat) returns (outcome: Outcome)
      requires Underway(origin, me) && workers[me].Attempt?
      modifies this
      ensures Enabled(config, old(View()), CallProvider(me, outcome))
      ensures View() == Apply(config, old(View()), CallProvider(me, outcome))
      ensures Underway(origin, me) && workers[me] == AfterCall(config, old(workers[me]), outcome)
      ensures var rid := old(workers[me].item);
              && rid < old(|items|) && run == old(run)
              && items == old(items)[rid := old(items)[rid].(status := ItemStatus.Running, attempts := old(items)[rid].attempts + 1)]
    {
      hide Inv, Leads, Apply, Enabled, AfterCall;
      var p := workers[me];
      var rid := p.item;
      outcome := *;
      CallWrites(config, View(), me, outcome);
      Own(config, origin, View(), CallProvider(me, outcome));
      items := items[rid := items[rid].(status := ItemStatus.Running, attempts := items[rid].attempts + 1)];
      workers := workers[me := AfterCall(config, p, outcome)];
    }

    /** _mark_failed, for a permanent provider error or a grading error. */
    method MarkFailed(ghost origin: State, me: nat, error: ItemError)
      requires Underway(origin, me)
      requires (workers[me].ProviderFailed? && error.ProviderError?) || (workers[me].GradingFailed? && error.GradingError?)
      modifies this
      ensures Enabled(config, old(View()), Advance(me)) && View() == Apply(config, old(View()), Advance(me))
      ensures Underway(origin, me) && workers[me] == CompleteCheck(old(workers[me].item), false)
      ensures workers[me].item < |items| && items[workers[me].item].status.Failed? && items[workers[me].item].error == Some(error)
    {
      Own(config, origin, View(), Advance(me));
      var rid := workers[me].item;
      items := items[rid := items[rid].(status := ItemStatus.Failed, error := Some(error))];
      workers := workers[me := CompleteCheck(rid, false)];
    }

    /** _mark_failed, for a message of an aborted run: no completion check. */
    method MarkAborted(ghost origin: State, me: nat)
      requires Underway(origin, me) && workers[me].AbortWrite?
      modifies this
      ensures Enabled(config, old(View()), Advance(me)) && View() == Apply(config, old(View()), Advance(me))
      ensures Underway(origin, me) && workers[me] == Acknowledge(old(workers[me].item), false)
      ensures workers[me].item < |items| && items[workers[me].item].status.Failed?
      ensures items[workers[me].item].error == Some(RunAborted)
    {
      Own(config, origin, View(), Advance(me));
      var rid := workers[me].item;
      items := items[rid := items[rid].(status := ItemStatus.Failed, error := Some(RunAborted))];
      workers := workers[me := Acknowledge(rid, false)];
    }

    method MarkDeadLettered(ghost origin: State, me: nat)
      requires Underway(origin, me) && workers[me].Exhausted?
      modifies this
      ensures Enabled(config, old(View()), Advance(me)) && View() == Apply(config, old(View()), Advance(me))
      ensures Underway(origin, me) && workers[me] == CompleteCheck(old(workers[me].item), true)
      ensures workers[me].item < |items| && items[workers[me].item].status.DeadLettered?
      ensures items[workers[me].item].error == Some(RetriesExhausted)
    {
      Own(config, origin, View(), Advance(me));
      var rid := workers[me].item;
      items := items[rid := items[rid].(status := DeadLettered, error := Some(RetriesExhausted))];
      workers := workers[me := CompleteCheck(rid, true)];
    }

    /** _mark_cancelled. The item is failed, unless a crash could have brought
        back the message of an item that had succeeded. */
    method MarkCancelled(ghost origin: State, me: nat)
      requires Underway(origin, me) && workers[me].CancelWrite?
      modifies this
      ensures Enabled(config, old(View()), Advance(me)) && View() == Apply(config, old(View()), Advance(me))
      ensures Underway(origin, me) && workers[me] == Acknowledge(old(workers[me].item), false)
      ensures workers[me].item < |items|
      ensures var it := items[workers[me].item];
              || (it.status.Failed? && it.error == Some(RunCancelled))
              || (it.status.Succeeded? && !SafeResults(config, origin))
    {
      Own(config, origin, View(), Advance(me));
      NothingUndone(config, origin, View(), me);
      hide Inv, Leads, SafeResults;
      var rid := workers[me].item;
      if !items[rid].status.Succeeded? {
        items := items[rid := items[rid].(status := ItemStatus.Failed, error := Some(RunCancelled))];
      }
      assert items[rid := items[rid]] == items;
      workers := workers[me := Acknowledge(rid, false)];
    }

    /** The read of the run's status after the provider answered. */
    method CheckCancelled(ghost origin: State, me: nat) returns (cancelled: bool)
      requires Underway(origin, me) && workers[me].CancelCheck?
      modifies this`workers
      ensures Enabled(config, old(View()), Advance(me)) && View() == Apply(config, old(View()), Advance(me))
      ensures Underway(origin, me)
      ensures var p := old(workers[me]);
              workers[me] == if cancelled then CancelWrite(p.item)
                             else Finalise(p.item, p.prevCost, p.prevTokens, p.result)
    {
      Own(config, origin, View(), Advance(me));
      var p := workers[me];
      cancelled := run.status.Cancelled?;
      workers := workers[me := if cancelled then CancelWrite(p.item)
                               else Finalise(p.item, p.prevCost, p.prevTokens, p.result)];
    }

    /** The guarded finalise and the delta rollup, one transaction. The guard
        always finds its row: "already finalized" does not happen. */
    method FinaliseItem(ghost origin: State, me: nat) returns (updated: bool)
      requires Underway(origin, me) && workers[me].Finalise?
      modifies this
      ensures Enabled(config, old(View()), Advance(me)) && View() == Apply(config, old(View()), Advance(me))
      ensures Underway(origin, me) && updated && workers[me] == AbortCheck(old(workers[me].item))
      ensures workers[me].item < |items| && items[workers[me].item].status.Succeeded? && Recorded(items[workers[me].item])
      ensures var it, result := items[workers[me].item], old(workers[me].result);
              && it.latency == Some(result.latency) && it.error.None?
              && it.promptTokens == Some(result.promptTokens) && it.completionTokens == Some(result.completionTokens)
              && it.cost == Some(Pricing.ComputeCost(it.model, result.promptTokens, result.completionTokens))
              && run == old(run).(totalCost := old(run.totalCost) + it.cost.value - old(workers[me].prevCost),
                                  totalTokens := old(run.totalTokens) + result.promptTokens + result.completionTokens
                                                 - old(workers[me].prevTokens))
    {
      Own(config, origin, View(), Advance(me));
      FinaliseWins(config, View(), me);
      hide Inv, Leads, Apply, Enabled;
      var p := workers[me];
      var rid, result := p.item, p.result;
      var cost := Price(items[rid], result);
      var deltaCost := cost - p.prevCost;
      var deltaTokens := result.promptTokens + result.completionTokens - p.prevTokens;
      updated := items[rid].status.Running?;
      if updated {
        items := items[rid := items[rid].(status := Succeeded, latency := Some(result.latency),
                                          promptTokens := Some(result.promptTokens),
                                          completionTokens := Some(result.completionTokens),
                                          cost := Some(cost), error := None)];
        run := run.(totalCost := run.totalCost + deltaCost, totalTokens := run.totalTokens + deltaTokens);
        workers := workers[me := AbortCheck(rid)];
      } else {
        assert false;
      }
    }

    method AbortOverBudget(ghost origin: State, me: nat) returns (aborted: bool)
      requires Underway(origin, me) && workers[me].AbortCheck?
      modifies this
      ensures Enabled(config, old(View()), Advance(me)) && View() == Apply(config, old(View()), Advance(me))
      ensures Underway(origin, me) && workers[me] == if aborted then Acknowledge(old(workers[me].item), false) else Grading(old(workers[me].item))
      ensures forall i :: 0 <= i < |items| && !old(items)[i].status.Queued? ==> items[i] == old(items)[i]
      ensures !aborted ==> run == old(run) && items == old(items)
      ensures aborted <==> old(run.status.Running? && run.totalCost > config.spendLimit)
      ensures aborted ==> run == old(run).(status := RunStatus.Failed, error := true)
      ensures aborted ==> forall i :: 0 <= i < |items| && old(items)[i].status.Queued? ==>
                items[i].status.Failed? && items[i].error == Some(SpendLimit)
    {
      hide Inv, Leads, Apply, Enabled;
      AbortWrites(config, View(), me);
      Own(config, origin, View(), Advance(me));
      aborted := run.status.Running? && run.totalCost > config.spendLimit;
      if aborted {
        run := run.(status := RunStatus.Failed, error := true);
        items := SweepQueued(items, SpendLimit);
        workers := workers[me := Acknowledge(workers[me].item, false)];
      } else {
        workers := workers[me := Grading(workers[me].item)];
      }
    }

    /** grade_run_item's read of existing grades. */
    method ReadGrades(ghost origin: State, me: nat) returns (found: bool)
      requires Underway(origin, me) && workers[me].Grading?
      modifies this`workers
      ensures Enabled(config, old(View()), Advance(me)) && View() == Apply(config, old(View()), Advance(me))
      ensures Underway(origin, me)
      ensures workers[me] == if found then CompleteCheck(old(workers[me].item), false) else Judging(old(workers[me].item))
    {
      Own(config, origin, View(), Advance(me));
      var rid := workers[me].item;
      found := G.GradesOf(book, rid) != [];
      workers := workers[me := if found then CompleteCheck(rid, false) else Judging(rid)];
    }

    /** The rest of grade_run_item: any report, committed unless it is an error. */
    method JudgeAndCommit(ghost origin: State, me: nat) returns (ok: bool, report: G.Report)
      requires Underway(origin, me) && workers[me].Judging?
      modifies this`book, this`workers
      ensures Enabled(config, old(View()), Judge(me, report)) && View() == Apply(config, old(View()), Judge(me, report))
      ensures Underway(origin, me)
      ensures workers[me] == if ok then CompleteCheck(old(workers[me].item), false) else GradingFailed(old(workers[me].item))
      ensures ok <==> !report.judge.JudgeError?
      ensures if ok then exists rows :: G.Committed(config.grading, old(book), book, old(workers[me].item), report, rows)
              else book == old(book)
    {
      report := *;
      Own(config, origin, View(), Judge(me, report));
      var rid := workers[me].item;
      ok := !report.judge.JudgeError?;
      if ok {
        G.CommitIsRecorded(config.grading, book, rid, report);
        book := G.CommitGrades(config.grading, book, rid, report);
        workers := workers[me := CompleteCheck(rid, false)];
      } else {
        workers := workers[me := GradingFailed(rid)];
      }
    }

    /** _maybe_complete_run: two guarded updates in one transaction. */
    method MaybeCompleteRun(ghost origin: State, me: nat)
      requires Underway(origin, me) && workers[me].CompleteCheck?
      modifies this`run, this`workers
      ensures Enabled(config, old(View()), Advance(me)) && View() == Apply(config, old(View()), Advance(me))
      ensures Underway(origin, me)
      ensures workers[me] == Acknowledge(old(workers[me].item), old(workers[me].deadLettered))
      ensures var finished := forall i :: 0 <= i < |items| ==> !items[i].status.Queued? && !items[i].status.Running?;
              run == if old(run).status.Running? && finished
                     then old(run).(status := if exists i :: 0 <= i < |items| && items[i].status.DeadLettered?
                                              then RunStatus.Failed else Completed)
                     else old(run)
    {
      Own(config, origin, View(), Advance(me));
      CompletionWrites(config, View(), me);
      hide Inv, Leads, Apply, Enabled, AnyUnfinished, AnyDeadLettered;
      var remaining := |Filter(items, Unfinished)|;
      RemainingRows(items);
      if remaining == 0 {
        if run.status.Running? && AnyDeadLettered(items) {
          run := run.(status := RunStatus.Failed);
        }
        if run.status.Running? {
          run := run.(status := Completed);
        }
      }
      workers := workers[me := Acknowledge(workers[me].item, workers[me].deadLettered)];
    }

    /** The acknowledgement, after anything the others do. Unless it was given
        up, the item stays as the execution left it. */
    method Release(ghost origin: State, me: nat)
      requires Underway(origin, me) && workers[me].Acknowledge?
      modifies this
      ensures Underway(origin, me) && workers[me].Idle?
      ensures old(!workers[me].deadLettered && workers[me].item < |items|) ==>
                items[old(workers[me].item)] == old(items[workers[me].item])
    {
      hide Inv, Leads, Apply, Enabled;
      AcknowledgedRow(config, View(), me);
      Interfere(origin, me);
      AcknowledgedRow(config, View(), me);
      Own(config, origin, View(), Advance(me));
      workers := workers[me := Idle];
    }

    // ----- execute_run_item -----

    /** Taking the message and reading the snapshot. */
    method Receive(ghost origin: State, me: nat, rid: nat) returns (runStatus: RunStatus, row: Item)
      requires Underway(origin, me) && workers[me].Idle? && rid in queue
      modifies this`queue, this`workers
      ensures Enabled(config, old(View()), Deliver(me, rid)) && View() == Apply(config, old(View()), Deliver(me, rid))
      ensures Underway(origin, me) && rid < |items| && row == items[rid] && runStatus == run.status
      ensures workers[me] == Snapshot(config, run, row, rid)
    {
      assert MessageOk(View(), rid);
      Own(config, origin, View(), Deliver(me, rid));
      runStatus, row := run.status, items[rid];
      queue := queue - multiset{rid};
      workers := workers[me := Snapshot(config, run, row, rid)];
    }

    /** The retry loop with its backoff, and the branches that end an execution
        without an answer. None means that the worker holds an answer to check.
        After exhausted retries the item was dead-lettered in state dropped, on
        the way to where the run now is. */
    method CallUntilAnswered(ghost origin: State, me: nat, rid: nat, prevCost: int, prevTokens: int)
      returns (reply: Option<Reply>, slept: real, ghost dropped: State)
      requires Underway(origin, me) && rid < |items|
      requires workers[me] == NextAttempt(config, rid, 1, prevCost, prevTokens)
      modifies this
      ensures Underway(origin, me) && rid < |items|
      ensures SleptWithin(retry, config.maxAttempts, slept)
      ensures reply == Some(RetriesExhaustedReply) ==> SleptAtLeast(retry, config.maxAttempts, slept)
      ensures match reply
              case None => workers[me].CancelCheck? && workers[me].item == rid
              case Some(r) =>
                && workers[me].Idle?
                && (|| (r == RetriesExhaustedReply && WasDropped(config, origin, dropped, View(), rid))
                    || (r == NonRetryableReply && items[rid].status.Failed?))
    {
      hide Valid, Apply, Enabled, Leads, Recorded, SleptWithin, SleptAtLeast, BackoffDelay, WasDropped;
      assert Jitters([]) && Slept(retry, []) == 0.0;
      hide Jitters, Slept;
      dropped := origin;
      var result: Option<Completion> := None;
      var attempt := 1;
      slept := 0.0;
      ghost var jitters: seq<real> := [];
      while attempt <= config.maxAttempts && result.None?
        invariant Underway(origin, me) && rid < |items|
        invariant workers[me] == if result.Some? then CancelCheck(rid, prevCost, prevTokens, result.value)
                                 else NextAttempt(config, rid, attempt, prevCost, prevTokens)
        invariant 1 <= attempt && slept == Slept(retry, jitters) && Jitters(jitters)
        invariant result.None? ==> |jitters| == if attempt <= config.maxAttempts then attempt - 1 else AllRetries(config)
        invariant jitters == [] || |jitters| < config.maxAttempts
        decreases config.maxAttempts + 1 - attempt, result.None?
      {
        Interfere(origin, me);
        var outcome := MarkRunningAndCall(origin, me);
        match outcome {
          case Ok(answer) => result := Some(answer);
          case Retryable =>
            if attempt < config.maxAttempts {
              var jitter: real :| 0.0 <= jitter <= 1.0;
              slept := slept + BackoffDelay(retry, attempt, jitter);
              OneMoreSleep(retry, jitters, jitter);
              jitters := jitters + [jitter];
            }
            attempt := attempt + 1;
          case NonRetryable =>
            FailAndComplete(origin, me, ProviderError);
            ExecutionSleep(retry, config.maxAttempts, jitters);
            return Some(NonRetryableReply), slept, dropped;
        }
      }
      ExecutionSleep(retry, config.maxAttempts, jitters);
      if result.None? {
        FullSleep(retry, config.maxAttempts, jitters);
        dropped := DeadLetterAndComplete(origin, me, rid);
        return Some(RetriesExhaustedReply), slept, dropped;
      }
      return None, slept, dropped;
    }

    /** _mark_dead_lettered and then _maybe_complete_run. The item is given up
        in state dropped: from then on a replay may requeue it. */
    method DeadLetterAndComplete(ghost origin: State, me: nat, rid: nat) returns (ghost dropped: State)
      requires Underway(origin, me) && workers[me] == Exhausted(rid)
      modifies this
      ensures Underway(origin, me) && workers[me].Idle? && rid < |items|
      ensures WasDropped(config, origin, dropped, View(), rid)
    {
      hide Apply, Enabled, Leads, Recorded, Inv;
      Interfere(origin, me);
      MarkDeadLettered(origin, me);
      dropped := View();
      Begin(config, dropped);
      Interfere(dropped, me);
      MaybeCompleteRun(dropped, me);
      Release(dropped, me);
      LeadsOn(config, origin, dropped, View());
    }

    /** _mark_failed and then _maybe_complete_run. */
    method FailAndComplete(ghost origin: State, me: nat, error: ItemError)
      requires Underway(origin, me)
      requires (workers[me].ProviderFailed? && error.ProviderError?) || (workers[me].GradingFailed? && error.GradingError?)
      modifies this
      ensures Underway(origin, me) && workers[me].Idle?
      ensures old(workers[me].item) < |items| && items[old(workers[me].item)].status.Failed?
    {
      hide Valid, Apply, Enabled, Leads, Recorded;
      Interfere(origin, me);
      MarkFailed(origin, me, error);
      CompleteAndRelease(origin, me);
    }

    /** The part of an execution that has an answer in hand. */
    method Conclude(ghost origin: State, me: nat, rid: nat) returns (reply: Reply)
      requires Underway(origin, me) && rid < |items| && workers[me].CancelCheck? && workers[me].item == rid
      modifies this
      ensures Underway(origin, me) && rid < |items| && workers[me].Idle?
      ensures reply in {SucceededReply, OverBudgetReply, GradingFailedReply, CancelledReply}
      ensures reply == SucceededReply || reply == OverBudgetReply ==> items[rid].status.Succeeded? && Recorded(items[rid])
      ensures reply == GradingFailedReply ==> items[rid].status.Failed?
      ensures reply == CancelledReply ==>
                items[rid].status.Failed? || (items[rid].status.Succeeded? && !SafeResults(config, origin))
    {
      hide Valid, Apply, Enabled, Leads, Recorded, SafeResults;
      Interfere(origin, me);
      var cancelled := CheckCancelled(origin, me);
      Interfere(origin, me);
      if cancelled {
        MarkCancelled(origin, me);
        Release(origin, me);
        return CancelledReply;
      }
      var updated := FinaliseItem(origin, me);
      assert updated;
      reply := Settle(origin, me, rid);
    }

    /** The abort check, grading and the completion check of a finalised item. */
    method Settle(ghost origin: State, me: nat, rid: nat) returns (reply: Reply)
      requires Underway(origin, me) && rid < |items| && workers[me] == AbortCheck(rid)
      requires items[rid].status.Succeeded? && Recorded(items[rid])
      modifies this
      ensures Underway(origin, me) && rid < |items| && workers[me].Idle?
      ensures reply in {SucceededReply, OverBudgetReply, GradingFailedReply}
      ensures reply == SucceededReply || reply == OverBudgetReply ==> items[rid].status.Succeeded? && Recorded(items[rid])
      ensures reply == GradingFailedReply ==> items[rid].status.Failed?
    {
      hide Valid, Apply, Enabled, Leads, Recorded, OverBudget;
      Interfere(origin, me);
      var aborted := AbortOverBudget(origin, me);
      if aborted {
        Release(origin, me);
        return OverBudgetReply;
      }
      Interfere(origin, me);
      var graded := GradeRunItem(origin, me, rid);
      if !graded {
        FailAndComplete(origin, me, GradingError);
        return GradingFailedReply;
      }
      CompleteAndRelease(origin, me);
      return SucceededReply;
    }

    /** _maybe_complete_run and the acknowledgement. */
    method CompleteAndRelease(ghost origin: State, me: nat)
      requires Underway(origin, me) && workers[me].CompleteCheck? && !workers[me].deadLettered
      requires workers[me].item < |items| && !items[workers[me].item].status.Queued?
      modifies this
      ensures Underway(origin, me) && workers[me].Idle?
      ensures old(workers[me].item) < |items| && items[old(workers[me].item)] == old(items[workers[me].item])
    {
      hide Valid, Apply, Enabled, Leads, Recorded;
      Interfere(origin, me);
      MaybeCompleteRun(origin, me);
      Release(origin, me);
    }

    /** grade_run_item, in its two transactions. */
    method GradeRunItem(ghost origin: State, me: nat, rid: nat) returns (graded: bool)
      requires Underway(origin, me) && rid < |items| && workers[me] == Grading(rid)
      requires items[rid].status.Succeeded? && Recorded(items[rid])
      modifies this
      ensures Underway(origin, me) && rid < |items|
      ensures workers[me] == if graded then CompleteCheck(rid, false) else GradingFailed(rid)
      ensures items[rid].status.Succeeded? && Recorded(items[rid])
    {
      hide Valid, Apply, Enabled, Leads, Recorded;
      var found := ReadGrades(origin, me);
      if found {
        return true;
      }
      Interfere(origin, me);
      var ok, report := JudgeAndCommit(origin, me);
      return ok;
    }

    /** The branches the snapshot alone decides. None: the item is to be called. */
    method Dispatch(ghost origin: State, me: nat, rid: nat, runStatus: RunStatus, row: Item) returns (reply: Option<Reply>)
      requires Underway(origin, me) && rid < |items| && row == items[rid] && runStatus == run.status
      requires workers[me] == Snapshot(config, run, row, rid)
      modifies this
      ensures Underway(origin, me) && rid < |items|
      ensures match reply
              case None => workers[me] == NextAttempt(config, rid, 1, CostOf(row), TokensOf(row))
              case Some(r) => workers[me].Idle? && Told(config, origin, r, items[rid])
    {
      hide Apply, Enabled, Leads, Inv, Recorded, SafeResults;
      if runStatus.Cancelled? {
        Interfere(origin, me);
        MarkCancelled(origin, me);
        Release(origin, me);
        return Some(CancelledReply);
      }
      if runStatus.Failed? {
        Interfere(origin, me);
        MarkAborted(origin, me);
        Release(origin, me);
        return Some(RunAbortedReply);
      }
      if row.status.Succeeded? {
        RecordedRow(config, View(), rid);
        Release(origin, me);
        return Some(AlreadySucceeded);
      }
      if !row.status.Queued? && !row.status.DeadLettered? {
        Release(origin, me);
        return Some(NotExecutable);
      }
      return None;
    }

    /** One execution of run item rid by worker me, from taking its message to
        acknowledging it. It is a stretch of a run of the protocol, and what the
        reply says of the item is so: at the end, or for exhausted retries in
        state dropped on the way. slept is the time spent backing off. */
    method ExecuteRunItem(me: nat, rid: nat) returns (reply: Reply, slept: real, ghost dropped: State)
      requires Valid() && me < |workers| && workers[me].Idle? && rid in queue
      modifies this
      ensures Valid() && Leads(config, old(View()), View())
      ensures rid < |items| && me < |workers| && workers[me].Idle?
      ensures reply != RetriesExhaustedReply ==> Told(config, old(View()), reply, items[rid])
      ensures reply == RetriesExhaustedReply ==> WasDropped(config, old(View()), dropped, View(), rid)
      ensures SleptWithin(retry, config.maxAttempts, slept)
      ensures reply == RetriesExhaustedReply ==> SleptAtLeast(retry, config.maxAttempts, slept)
    {
      hide Apply, Enabled, Leads, Recorded, Inv, WasDropped, SafeResults, SleptAtLeast, SleptWithin,
           Snapshot, NextAttempt, CostOf, TokensOf;
      slept := 0.0;
      ExecutionSleep(retry, config.maxAttempts, []);
      ghost var origin := View();
      dropped := origin;
      Begin(config, origin);
      var runStatus, row := Receive(origin, me, rid);
      var ended := Dispatch(origin, me, rid, runStatus, row);
      if ended.Some? {
        return ended.value, slept, dropped;
      }
      ended, slept, dropped := CallUntilAnswered(origin, me, rid, CostOf(row), TokensOf(row));
      if ended.Some? {
        return ended.value, slept, dropped;
      }
      reply := Conclude(origin, me, rid);
    }
  }

  /** The sleeps of an execution that tries every attempt. */
  function AllRetries(c: Config): nat {
    if c.maxAttempts == 0 then 0 else c.maxAttempts - 1
  }

  /** What a reply says of the item. */
  ghost predicate Told(c: Config, origin: State, reply: Reply, it: Item) {
    match reply
    case SucceededReply => it.status.Succeeded? && Recorded(it)
    case OverBudgetReply => it.status.Succeeded? && Recorded(it)
    case AlreadySucceeded => it.status.Succeeded? && Recorded(it)
    case NotExecutable => it.status.Running? || it.status.Failed?
    case CancelledReply => it.status.Failed? || (it.status.Succeeded? && !SafeResults(c, origin))
    case RetriesExhaustedReply => false
    case _ => it.status.Failed?
  }

  /** The item was dead-lettered in a state on the way from origin to s. */
  ghost predicate WasDropped(c: Config, origin: State, dropped: State, s: State, i: nat) {
    && Leads(c, origin, dropped) && Leads(c, dropped, s)
    && i < |dropped.items| && dropped.items[i].status.DeadLettered?
  }

  /** No crash brings back, or has brought back, a succeeded item's message. */
  ghost predicate SafeResults(c: Config, origin: State) {
    Results.KeepsResults(c.faults) && Results.SucceededAtRest(origin)
  }

  /** A worker about to fail a cancelled item does not hold a succeeded one. */
  lemma NothingUndone(c: Config, origin: State, s: State, w: nat)
    requires Inv(c, origin) && Leads(c, origin, s) && w < |s.workers| && s.workers[w].CancelWrite?
    requires s.workers[w].item < |s.items|
    ensures SafeResults(c, origin) ==> !s.items[s.workers[w].item].status.Succeeded?
  {
    if SafeResults(c, origin) {
      hide Apply, Enabled, Inv;
      var tr :| IsRun(c, origin, tr) && End(c, origin, tr) == s;
      Results.RunKeepsResults(c, origin, tr);
      assert Results.Undoes(s.workers[w], s.workers[w].item);
    }
  }

  /** What an acknowledging worker has not given up is not queued. */
  lemma AcknowledgedRow(c: Config, s: State, w: nat)
    requires Inv(c, s) && w < |s.workers| && s.workers[w].Acknowledge?
    ensures s.workers[w].item < |s.items|
    ensures Enabled(c, s, Advance(w)) && Apply(c, s, Advance(w)) == At(s, w, Idle)
    ensures !s.workers[w].deadLettered ==>
              Holds(s.workers[w], s.workers[w].item) && !s.items[s.workers[w].item].status.Queued?
  {
    assert PhaseOk(c, s.run, s.items[s.workers[w].item], s.workers[w]);
  }

  lemma RecordedRow(c: Config, s: State, i: nat)
    requires Inv(c, s) && i < |s.items| && s.items[i].status.Succeeded?
    ensures Recorded(s.items[i])
  {
    assert ItemOk(s.run, s.items[i]);
  }

  function Swept(s: State): State {
    s.(run := s.run.(status := Cancelled), items := SweepQueued(s.items, RunCancelled))
  }

  lemma ApplyReplayWrite(c: Config, s: State, i: nat)
    requires i < |s.items| && i in s.pending && c.faults.replayAborted
    ensures Enabled(c, s, ReplayWrite(i)) && Apply(c, s, ReplayWrite(i)) == ReplayItem(s, i)
  {
  }

  /** Nobody else takes a pending replay away. */
  lemma PendingStays(c: Config, s: State, a: Action, i: nat)
    requires Enabled(c, s, a) && a != ReplayWrite(i) && i in s.pending && i < |s.items|
    ensures i in Apply(c, s, a).pending && i < |Apply(c, s, a).items|
  {
    hide AdvanceWorker, Price;
    SizesAreKept(c, s, a);
    if a.Advance? {
      AdvanceKeepsPending(c, s, a.worker);
    }
  }

  lemma AdvanceKeepsPending(c: Config, s: State, w: nat)
    requires Enabled(c, s, Advance(w))
    ensures AdvanceWorker(c, s, w).pending == s.pending
  {
    hide Price;
  }

  lemma PendingOnce(c: Config, s: State, i: nat)
    requires Inv(c, s) && i in s.pending
    ensures i !in s.pending - multiset{i}
  {
    assert PendingOk(s, i);
  }

  lemma CallWrites(c: Config, s: State, w: nat, outcome: Outcome)
    requires Inv(c, s) && w < |s.workers| && s.workers[w].Attempt?
    ensures s.workers[w].item < |s.items| && Enabled(c, s, CallProvider(w, outcome))
    ensures var p := s.workers[w];
            var it := s.items[p.item];
            Apply(c, s, CallProvider(w, outcome)) ==
            State(s.run, s.items[p.item := it.(status := ItemStatus.Running, attempts := it.attempts + 1)],
                  s.book, s.queue, s.workers[w := AfterCall(c, p, outcome)], s.pending)
  {
  }

  lemma AbortWrites(c: Config, s: State, w: nat)
    requires Inv(c, s) && w < |s.workers| && s.workers[w].AbortCheck?
    ensures var i := s.workers[w].item;
            && i < |s.items| && Enabled(c, s, Advance(w))
            && Apply(c, s, Advance(w)) ==
               if OverBudget(s.run, c.spendLimit)
               then At(s, w, Acknowledge(i, false)).(run := Abort(s.run), items := SweepQueued(s.items, SpendLimit))
               else At(s, w, Grading(i))
  {
  }

  lemma CompletionWrites(c: Config, s: State, w: nat)
    requires Inv(c, s) && w < |s.workers| && s.workers[w].CompleteCheck?
    ensures s.workers[w].item < |s.items| && Enabled(c, s, Advance(w))
    ensures Apply(c, s, Advance(w)) == At(s, w, Acknowledge(s.workers[w].item, s.workers[w].deadLettered)).(run := MaybeComplete(s.run, s.items))
    ensures MaybeComplete(s.run, s.items) ==
            if s.run.status.Running? && forall i :: 0 <= i < |s.items| ==> !s.items[i].status.Queued? && !s.items[i].status.Running?
            then s.run.(status := if exists i :: 0 <= i < |s.items| && s.items[i].status.DeadLettered? then RunStatus.Failed else Completed)
            else s.run
  {
  }

  /** Under the invariant the finalising guard matches. */
  lemma FinaliseWins(c: Config, s: State, w: nat)
    requires Inv(c, s) && Enabled(c, s, Advance(w)) && s.workers[w].Finalise?
    ensures var p := s.workers[w];
            var it := s.items[p.item];
            var cost := Price(it, p.result);
            && it.status.Running? && Recorded(MarkSucceeded(it, p.result, cost))
            && Apply(c, s, Advance(w)) ==
               At(SetItem(s, p.item, MarkSucceeded(it, p.result, cost)), w, AbortCheck(p.item))
                 .(run := Rollup(s.run, cost - p.prevCost, p.result.promptTokens + p.result.completionTokens - p.prevTokens))
  {
    assert PhaseOk(c, s.run, s.items[s.workers[w].item], s.workers[w]);
  }

  /** A worker's own step, on the way from s0. */
  lemma Own(c: Config, s0: State, s: State, a: Action)
    requires Leads(c, s0, s) && Inv(c, s) && SingleMessage(c.faults) && Enabled(c, s, a)
    ensures Leads(c, s0, Apply(c, s, a)) && Inv(c, Apply(c, s, a))
  {
    Step(c, s0, s, a);
    StepKeepsInv(c, s, a);
  }

  lemma RemainingRows(items: seq<Item>)
    ensures |Filter(items, Unfinished)| == 0 <==> !AnyUnfinished(items)
  {
    var rows := Filter(items, Unfinished);
    if rows != [] {
      assert rows[0] in rows;
      var i :| 0 <= i < |items| && items[i] == rows[0];
      assert Unfinished(items[i]);
    }
    if AnyUnfinished(items) {
      var i :| 0 <= i < |items| && Unfinished(items[i]);
      assert items[i] in rows;
    }
  }

  lemma Others(c: Config, s0: State, s: State, a: Action, me: nat)
    requires Leads(c, s0, s) && Inv(c, s) && SingleMessage(c.faults)
    requires Enabled(c, s, a) && !By(a, me) && me < |s.workers|
    ensures var s' := Apply(c, s, a);
            && Leads(c, s0, s') && Inv(c, s')
            && |s'.workers| == |s.workers| && |s'.items| == |s.items| && s'.workers[me] == s.workers[me]
            && forall i: nat :: i < |s.items| && Holds(s.workers[me], i) && !s.items[i].status.Queued? ==>
                 s'.items[i] == s.items[i]
  {
    PhaseIsPrivate(c, s, a, me);
    forall i: nat | i < |s.items| && Holds(s.workers[me], i) && !s.items[i].status.Queued?
      ensures Apply(c, s, a).items[i] == s.items[i]
    {
      HeldRowIsPrivate(c, s, a, me, i);
    }
    Step(c, s0, s, a);
    StepKeepsInv(c, s, a);
  }
}
