/** Floating-point values as reals plus the explicit non-finite cases. */
module Floats {
  datatype Float = Finite(value: real) | PosInf | NegInf | NaN(positive: bool)

  function Class(f: Float): int {
    match f
    case NaN(positive) => if positive then 4 else 0
    case NegInf => 1
    case Finite(_) => 2
    case PosInf => 3
  }

  /** `a.total_cmp(b) != Greater`: a total order that also places the non-finite values. */
  predicate TotalLe(a: Float, b: Float) {
    Class(a) < Class(b) || (Class(a) == Class(b) && (a.Finite? ==> a.value <= b.value))
  }

  lemma TotalLeIsTotalOrder(a: Float, b: Float, c: Float)
    ensures TotalLe(a, b) || TotalLe(b, a)
    ensures TotalLe(a, b) && TotalLe(b, c) ==> TotalLe(a, c)
    ensures TotalLe(a, b) && TotalLe(b, a) ==> a == b
  {
  }

  /** Negative NaNs come first, then minus infinity, the numbers by value, infinity and the positive NaNs. */
  lemma TotalLeMeans(a: Float, b: Float)
    ensures TotalLe(a, b) <==>
      || a == NaN(false) || b == NaN(true)
      || (!a.NaN? && !b.NaN? && (a == NegInf || b == PosInf || (a.Finite? && b.Finite? && a.value <= b.value)))
  {
  }

  /** `f >= bound`, false for NaN. */
  predicate AtLeast(f: Float, bound: real) {
    f.PosInf? || (f.Finite? && f.value >= bound)
  }

  /** `f > bound`, false for NaN. */
  predicate Exceeds(f: Float, bound: real) {
    f.PosInf? || (f.Finite? && f.value > bound)
  }

  /** `f * k` for a finite factor. */
  function Scale(f: Float, k: real): Float {
    match f
    case Finite(v) => Finite(v * k)
    case PosInf => if k > 0.0 then PosInf else if k < 0.0 then NegInf else NaN(true)
    case NegInf => if k > 0.0 then NegInf else if k < 0.0 then PosInf else NaN(true)
    case NaN(_) => f
  }
}
