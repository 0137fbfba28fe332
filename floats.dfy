/** The part of IEEE-754 behaviour that the crate branches on: NaN and the two infinities.
    Finite values are exact reals; rounding is not modelled. */
module Floats {
  import opened Wrappers

  datatype Float = Finite(value: real) | PosInf | NegInf | NaN

  /** IEEE division of two finite operands: a zero divisor gives NaN or a signed infinity.
      (The sign of a zero divisor is taken to be positive, as `n as f32` always is.) */
  function Div(num: real, den: real): (r: Float)
    ensures den != 0.0 ==> r == Finite(num / den)
    ensures den == 0.0 ==> (r.NaN? <==> num == 0.0) && (r.PosInf? <==> num > 0.0) && (r.NegInf? <==> num < 0.0)
  {
    if den != 0.0 then Finite(num / den)
    else if num == 0.0 then NaN
    else if num > 0.0 then PosInf
    else NegInf
  }

  /** IEEE multiplication by a strictly positive finite factor. */
  function ScalePositive(x: Float, k: real): (r: Float)
    requires k > 0.0
    ensures r.Finite? <==> x.Finite?
    ensures x.Finite? ==> r.value == x.value * k
    ensures !x.Finite? ==> r == x
  {
    match x
    case Finite(v) => Finite(v * k)
    case _ => x
  }

  /** `x > y` for a float `x` and a finite `y`; any comparison with NaN is false. */
  predicate GreaterThan(x: Float, y: real)
  {
    match x
    case Finite(v) => v > y
    case PosInf => true
    case NegInf => false
    case NaN => false
  }

  datatype Ordering = Less | Equal | Greater

  /** Position on the extended real line, for the non-NaN values. */
  predicate Below(x: Float, y: Float)
  {
    match (x, y)
    case (NegInf, NegInf) => false
    case (NegInf, _) => !y.NaN?
    case (Finite(a), Finite(b)) => a < b
    case (Finite(_), PosInf) => true
    case _ => false
  }

  /** `PartialOrd::partial_cmp` on floats: None exactly when NaN is involved, otherwise the
      order of the extended real line (NegInf below every finite value, PosInf above). */
  function PartialCmp(x: Float, y: Float): (r: Option<Ordering>)
    ensures r.None? <==> x.NaN? || y.NaN?
    ensures r == Some(Equal) <==> !x.NaN? && x == y
    ensures r == Some(Less) <==> Below(x, y)
    ensures r == Some(Greater) <==> Below(y, x)
  {
    if x.NaN? || y.NaN? then None
    else if x == y then Some(Equal)
    else if Below(x, y) then Some(Less)
    else Some(Greater)
  }
}
