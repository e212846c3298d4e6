/** app/pricing.py: what one completion costs.

    Prices are kept in cents per million tokens, so an exact cost is an integer
    number of 1e-8 USD, and a recorded cost (Numeric(12,6)) an integer number of
    micro-dollars, 1e-6 USD. */
module Pricing {

  /** Decimal.quantize in the default context rounds half to even. The result
      is a nearest multiple of den, and the even one when two are as near. */
  ghost predicate NearestEven(num: int, den: int, r: int) {
    && -den <= 2 * (r * den - num) <= den
    && (2 * (r * den - num) == den || 2 * (r * den - num) == -den ==> r % 2 == 0)
  }

  function RoundHalfEven(num: nat, den: nat): (r: nat)
    requires den > 0
    ensures NearestEven(num, den, r)
  {
    var q, rem := num / den, num % den;
    assert num == q * den + rem;
    assert (q + 1) * den == q * den + den;
    if 2 * rem < den then q
    else if 2 * rem > den then q + 1
    else if q % 2 == 0 then q else q + 1
  }

  /** Rounding keeps the order of fractions over one denominator, so each
      fraction has only one half-even rounding. */
  lemma RoundingIsMonotone(m: int, n: int, den: int, r: int, s: int)
    requires den > 0 && m <= n
    requires NearestEven(m, den, r) && NearestEven(n, den, s)
    ensures r <= s
    ensures m == n ==> r == s
  {
    if r > s {
      LargerRounding(m, n, den, r, s);
    }
    if r < s {
      LargerRounding(n, m, den, s, r);
    }
  }

  lemma LargerRounding(m: int, n: int, den: int, r: int, s: int)
    requires den > 0 && r > s
    requires NearestEven(m, den, r) && NearestEven(n, den, s)
    ensures m > n
  {
    var a, b := r * den, s * den;
    assert a - b == (r - s) * den;
    if r == s + 1 {
      assert a - b == den;
    } else {
      MultipleAtLeast(r - s, 2, den);
    }
  }

  lemma MultipleAtLeast(k: int, j: int, den: int)
    requires k >= j && den > 0
    ensures k * den >= j * den
  {
  }

  /** (input, output) cents per million tokens; unknown models are free. */
  function PriceForModel(model: string): (nat, nat) {
    if model == "gpt-4o" then (250, 1000)
    else if model == "gpt-4o-mini" then (15, 60)
    else if model == "gpt-4.1" then (200, 800)
    else if model == "gpt-4.1-mini" then (40, 160)
    else if model == "claude-3-5-sonnet-20241022" then (300, 1500)
    else if model == "claude-3-7-sonnet-20250219" then (300, 1500)
    else if model == "claude-sonnet-4-20250514" then (300, 1500)
    else if model == "claude-opus-4-20250514" then (1500, 7500)
    else (0, 0)
  }

  /** The price before rounding, in 1e-8 USD. */
  function ExactCost(model: string, promptTokens: nat, completionTokens: nat): nat {
    var (input, output) := PriceForModel(model);
    promptTokens * input + completionTokens * output
  }

  /** The recorded cost in micro-dollars: never more than half a micro-dollar
      (50e-8 USD) from the exact price, on either side. */
  function ComputeCost(model: string, promptTokens: nat, completionTokens: nat): (cost: nat)
    ensures -50 <= 100 * cost - ExactCost(model, promptTokens, completionTokens) <= 50
  {
    RoundHalfEven(ExactCost(model, promptTokens, completionTokens), 100)
  }

  /** More tokens of either kind never cost less. */
  lemma ComputeCostIsMonotone(model: string, p: nat, c: nat, p': nat, c': nat)
    requires p <= p' && c <= c'
    ensures ComputeCost(model, p, c) <= ComputeCost(model, p', c')
  {
    var (input, output) := PriceForModel(model);
    assert p * input <= p' * input && c * output <= c' * output;
    RoundingIsMonotone(ExactCost(model, p, c), ExactCost(model, p', c'), 100,
                       ComputeCost(model, p, c), ComputeCost(model, p', c'));
  }

  /** What a million input tokens and a million output tokens of a model cost, in
      micro-dollars. */
  ghost predicate BilledAt(model: string, input: nat, output: nat) {
    ComputeCost(model, 1000000, 0) == input && ComputeCost(model, 0, 1000000) == output
  }

  lemma MillionTokens(model: string)
    ensures var (input, output) := PriceForModel(model); BilledAt(model, 10000 * input, 10000 * output)
  {
    var (input, output) := PriceForModel(model);
    assert ExactCost(model, 1000000, 0) == 100 * (10000 * input);
    assert ExactCost(model, 0, 1000000) == 100 * (10000 * output);
  }

  /** The price list. */
  lemma PriceList(model: string, promptTokens: nat, completionTokens: nat)
    ensures BilledAt("gpt-4o", 2500000, 10000000) && BilledAt("gpt-4o-mini", 150000, 600000)
    ensures BilledAt("gpt-4.1", 2000000, 8000000) && BilledAt("gpt-4.1-mini", 400000, 1600000)
    ensures BilledAt("claude-3-5-sonnet-20241022", 3000000, 15000000)
    ensures BilledAt("claude-3-7-sonnet-20250219", 3000000, 15000000)
    ensures BilledAt("claude-sonnet-4-20250514", 3000000, 15000000)
    ensures BilledAt("claude-opus-4-20250514", 15000000, 75000000)
    ensures model !in {"gpt-4o", "gpt-4o-mini", "gpt-4.1", "gpt-4.1-mini", "claude-3-5-sonnet-20241022",
                       "claude-3-7-sonnet-20250219", "claude-sonnet-4-20250514", "claude-opus-4-20250514"} ==>
              ComputeCost(model, promptTokens, completionTokens) == 0
  {
    hide BilledAt;
    MillionTokens("gpt-4o");
    MillionTokens("gpt-4o-mini");
    MillionTokens("gpt-4.1");
    MillionTokens("gpt-4.1-mini");
    MillionTokens("claude-3-5-sonnet-20241022");
    MillionTokens("claude-3-7-sonnet-20250219");
    MillionTokens("claude-sonnet-4-20250514");
    MillionTokens("claude-opus-4-20250514");
  }

  /** Every bill follows from those for a million tokens: it is the half-even
      rounding of its share of the two, and exact for whole millions. */
  lemma BillsFollowTheList(model: string, input: nat, output: nat, p: nat, c: nat)
    requires BilledAt(model, input, output)
    ensures NearestEven(p * input + c * output, 1000000, ComputeCost(model, p, c))
    ensures ComputeCost(model, 1000000 * p, 1000000 * c) == p * input + c * output
  {
    var (i, o) := PriceForModel(model);
    MillionTokens(model);
    var total := p * i + c * o;
    assert p * input == 10000 * (p * i) && c * output == 10000 * (c * o);
    assert ExactCost(model, p, c) == total;
    assert ExactCost(model, 1000000 * p, 1000000 * c) == 1000000 * total by {
      assert (1000000 * p) * i == 1000000 * (p * i) && (1000000 * c) * o == 1000000 * (c * o);
    }
  }
}
