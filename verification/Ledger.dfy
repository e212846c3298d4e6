/** Single flight and conservation of cost and tokens, over whole runs. */
module Ledger {
  import opened Options
  import opened Sums
  import opened Protocol
  import opened Safety
  import Pricing

  /** Executions whose crash would bring the item's message back. */
  function ActiveExecutions(workers: seq<Phase>, i: nat): int {
    Sum(workers, (p: Phase) => if Holds(p, i) then 1 else 0)
  }

  lemma {:induction false} NoActive(workers: seq<Phase>, i: nat)
    requires forall w :: 0 <= w < |workers| ==> !Holds(workers[w], i)
    ensures ActiveExecutions(workers, i) == 0
  {
    var f := (p: Phase) => if Holds(p, i) then 1 else 0;
    assert forall p :: p in workers ==> 0 <= f(p) <= 0;
    SumAtMost(workers, f, 0);
    SumAtLeast(workers, f, 0);
  }

  lemma {:induction false} AtMostOneActive(workers: seq<Phase>, i: nat)
    requires forall w, v :: 0 <= w < |workers| && 0 <= v < |workers| && w != v ==> !SameItem(workers[w], workers[v])
    ensures 0 <= ActiveExecutions(workers, i) <= 1
    decreases |workers|
  {
    if workers != [] {
      if Holds(workers[0], i) {
        forall v | 0 <= v < |workers[1..]| ensures !Holds(workers[1..][v], i) {
          assert !SameItem(workers[0], workers[v + 1]);
        }
        NoActive(workers[1..], i);
      } else {
        forall w, v | 0 <= w < |workers[1..]| && 0 <= v < |workers[1..]| && w != v
          ensures !SameItem(workers[1..][w], workers[1..][v])
        {
          assert !SameItem(workers[w + 1], workers[v + 1]);
        }
        AtMostOneActive(workers[1..], i);
      }
    }
  }

  /** Single flight is a consequence, not an assumption: in every reachable
      state an item has at most one message or unacknowledged execution. A
      worker about to finalise finds its item running, with nothing recorded
      and its snapshot of the previous cost still right. */
  lemma SingleFlight(c: Config, s0: State, tr: seq<Action>, i: nat)
    requires Initial(s0) && IsRun(c, s0, tr) && SingleMessage(c.faults)
    ensures var s := End(c, s0, tr);
            && s.queue[i] + ActiveExecutions(s.workers, i) <= 1
            && (i < |s.items| && s.items[i].status.Queued? ==> s.queue[i] + ActiveExecutions(s.workers, i) == 1)
            && (i < |s.items| && s.items[i].status.DeadLettered? ==> s.queue[i] + ActiveExecutions(s.workers, i) == 0)
            && (forall w :: 0 <= w < |s.workers| && s.workers[w].Finalise? && s.workers[w].item == i ==>
                  && i < |s.items| && s.items[i].status.Running?
                  && s.workers[w].prevCost == CostOf(s.items[i]) == 0
                  && s.workers[w].prevTokens == TokensOf(s.items[i]) == 0)
  {
    hide IsRun, End;
    InitialInv(c, s0);
    RunKeepsInv(c, s0, tr);
    var s := End(c, s0, tr);
    InvSingleFlight(c, s, i);
    hide ActiveExecutions;
  }

  lemma InvSingleFlight(c: Config, s: State, i: nat)
    requires Inv(c, s)
    ensures s.queue[i] + ActiveExecutions(s.workers, i) <= 1
    ensures i < |s.items| && s.items[i].status.Queued? ==> s.queue[i] + ActiveExecutions(s.workers, i) == 1
    ensures i < |s.items| && s.items[i].status.DeadLettered? ==> s.queue[i] + ActiveExecutions(s.workers, i) == 0
  {
    AtMostOneActive(s.workers, i);
    assert MessageOk(s, i);
    if s.queue[i] == 1 {
      NoActive(s.workers, i);
    }
    if i < |s.items| && s.items[i].status.DeadLettered? {
      NoActive(s.workers, i);
    }
    if i < |s.items| && s.items[i].status.Queued? && s.queue[i] == 0 {
      var w :| 0 <= w < |s.workers| && Claims(s.workers[w], i);
      SomeActive(s.workers, i, w);
    }
  }

  lemma SomeActive(workers: seq<Phase>, i: nat, w: nat)
    requires w < |workers| && Holds(workers[w], i)
    ensures ActiveExecutions(workers, i) >= 1
  {
    var f := (p: Phase) => if Holds(p, i) then 1 else 0;
    SumUpdate(workers, w, Idle, f);
    SumAtLeast(workers[w := Idle], f, 0);
  }

  /** Conservation: after any run, whatever was retried, replayed, cancelled,
      aborted or crashed on the way, the run row's totals are exactly the sums
      of the costs and tokens recorded on its items. */
  lemma TotalsAreConserved(c: Config, s0: State, tr: seq<Action>)
    requires Initial(s0) && IsRun(c, s0, tr) && SingleMessage(c.faults)
    ensures var s := End(c, s0, tr);
            s.run.totalCost == Sum(s.items, CostOf) && s.run.totalTokens == Sum(s.items, TokensOf)
  {
    InitialInv(c, s0);
    RunKeepsInv(c, s0, tr);
  }

  /** From any state whatever, finalising keeps the ledger exactly when the
      worker's snapshot is what the row records now. */
  lemma FinaliseKeepsLedgerIff(c: Config, s: State, w: nat)
    requires LedgerOk(s) && Enabled(c, s, Advance(w)) && s.workers[w].Finalise?
    requires s.items[s.workers[w].item].status.Running?
    ensures LedgerOk(Apply(c, s, Advance(w))) <==>
            && s.workers[w].prevCost == CostOf(s.items[s.workers[w].item])
            && s.workers[w].prevTokens == TokensOf(s.items[s.workers[w].item])
  {
    var p := s.workers[w];
    var it := MarkSucceeded(s.items[p.item], p.result, Price(s.items[p.item], p.result));
    SumUpdate(s.items, p.item, it, CostOf);
    SumUpdate(s.items, p.item, it, TokensOf);
  }

  // ----- rounding drift -----

  /** The unrounded price of an item's recorded tokens, in 1e-8 USD. */
  function ExactCostOf(it: Item): int {
    if it.cost.Some? && it.promptTokens.Some? && it.completionTokens.Some? then
      Pricing.ExactCost(it.model, it.promptTokens.value, it.completionTokens.value)
    else 0
  }

  function IsCosted(it: Item): int {
    if it.cost.Some? then 1 else 0
  }

  lemma {:induction false} ItemDrift(items: seq<Item>)
    requires forall it :: it in items ==> Recorded(it) || Unrecorded(it)
    ensures -50 * Sum(items, IsCosted) <= 100 * Sum(items, CostOf) - Sum(items, ExactCostOf)
            <= 50 * Sum(items, IsCosted)
  {
    if items != [] {
      assert Recorded(items[0]) || Unrecorded(items[0]);
      ItemDrift(items[1..]);
    }
  }

  /** A run's total is within half a micro-dollar per costed item of what its
      tokens exactly cost. */
  lemma {:induction false} DriftIsBounded(c: Config, s0: State, tr: seq<Action>)
    requires Initial(s0) && IsRun(c, s0, tr) && SingleMessage(c.faults)
    ensures var s := End(c, s0, tr);
            -50 * Sum(s.items, IsCosted) <= 100 * s.run.totalCost - Sum(s.items, ExactCostOf)
            <= 50 * Sum(s.items, IsCosted)
  {
    InitialInv(c, s0);
    RunKeepsInv(c, s0, tr);
    var s := End(c, s0, tr);
    forall it | it in s.items ensures Recorded(it) || Unrecorded(it) {
      assert ItemOk(s.run, it);
    }
    ItemDrift(s.items);
  }
}
