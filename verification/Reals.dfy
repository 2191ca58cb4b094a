/** Facts about products of reals that the solver is better told than left to find. */
module Reals {
  function Abs(x: real): (r: real)
    ensures r >= 0.0
  {
    if x < 0.0 then -x else x
  }

  lemma NonNegativeProduct(a: real, b: real)
    requires a >= 0.0 && b >= 0.0
    ensures a * b >= 0.0
  {
  }

  /** Multiplying by a positive factor keeps the order. */
  lemma Grows(a: real, b: real, k: real)
    requires a > b && k > 0.0
    ensures a * k > b * k
  {
  }
}
