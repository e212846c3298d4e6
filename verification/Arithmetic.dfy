/** Products, in the small steps the solver takes without help. */
module Arithmetic {
  lemma Scale(k: nat, a: int, b: int)
    ensures a <= b ==> k * a <= k * b
  {
  }

  lemma Distribute(k: int, a: int, b: int)
    ensures k * (a + b) == k * a + k * b
  {
  }

  /** A fraction of a non-negative quantity. */
  lemma Portion(u: real, x: real)
    requires u >= 0.0 && x >= 0.0
    ensures 0.0 <= u * x && x * u == u * x
    ensures u <= 1.0 ==> u * x <= x
  {
  }
}
