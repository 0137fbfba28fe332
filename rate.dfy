/** `Rate` of `src/structs/rate.rs`: a chart rate (music speed) kept as twenty times its value in
    a `u32`, so that every multiple of 0.05 is exact. `f32` values are reals here; the special
    values of a float are the constructors of `Float`. */
module Rates {
  import opened Wrappers
  import opened Util
  import opened Floats

  /** Equality and ordering are derived, so they are those of `x20`. */
  datatype Rate = Rate(x20: u32)

  /** `u32::MAX as f32`: the `f32` nearest to 2^32 - 1 is 2^32. */
  const U32_MAX_AS_F32: real := 4294967296.0

  /** `f32::round`: the nearest integer, halves rounded away from zero. */
  function Round(x: real): (r: int)
    ensures x >= 0.0 ==> r as real - 0.5 <= x < r as real + 0.5
    ensures x < 0.0 ==> r as real - 0.5 < x <= r as real + 0.5
  {
    if x >= 0.0 then (x + 0.5).Floor else -((0.5 - x).Floor)
  }

  /** A float-to-`u32` `as` cast of an integral value: it saturates at both ends. */
  function SaturateU32(x: int): (r: u32)
    ensures 0 <= x <= U32_MAX ==> r == x
    ensures x < 0 ==> r == 0
    ensures x > U32_MAX ==> r == U32_MAX
  {
    if x < 0 then 0 else if x > U32_MAX then U32_MAX else x
  }

  function Times20(v: real): real
  {
    v * 20.0
  }

  /** `from_f32`: the nearest rate, or `None` for a negative or too large value. A NaN passes
      both comparisons and its cast gives 0. */
  function FromF32(r: Float): (o: Option<Rate>)
    ensures o.None? <==> r.NegInf? || r.PosInf? || (r.Finite? && (r.value < 0.0 || r.value > U32_MAX_AS_F32))
  {
    match r
    case NaN => Some(Rate(0))
    case NegInf => None
    case PosInf => None
    case Finite(v) =>
      if v < 0.0 || v > U32_MAX_AS_F32 then None
      else Some(Rate(SaturateU32(Round(Times20(v)))))
  }

  /** `from_string`: the float parser is a parameter. */
  function FromString(s: string, parseF32: string -> Option<Float>): (o: Option<Rate>)
    ensures o.Some? ==> parseF32(s).Some? && FromF32(parseF32(s).value) == o
  {
    match parseF32(s)
    case None => None
    case Some(f) => FromF32(f)
  }

  function FromX20(x20: u32): (r: Rate)
    ensures r.x20 == x20
  {
    Rate(x20)
  }

  /** `as_f32`: the real rate. */
  function AsF32(rate: Rate): (r: real)
    ensures r >= 0.0
    ensures Times20(r) == rate.x20 as real
  {
    rate.x20 as real / 20.0
  }

  /** `Default`: 1.00x. */
  function Default(): (r: Rate)
    ensures AsF32(r) == 1.0
  {
    FromX20(20)
  }

  /** `Add`; the `u32` addition panics on overflow. */
  function Add(a: Rate, b: Rate): (r: Rate)
    requires a.x20 + b.x20 <= U32_MAX
    ensures AsF32(r) == AsF32(a) + AsF32(b)
  {
    FromX20(a.x20 + b.x20)
  }

  /** `Sub`; the `u32` subtraction panics below zero. */
  function Sub(a: Rate, b: Rate): (r: Rate)
    requires b.x20 <= a.x20
    ensures AsF32(r) == AsF32(a) - AsF32(b)
  {
    FromX20(a.x20 - b.x20)
  }

  /** A `&mut Rate` place, which `+=` and `-=` update. */
  class RatePlace {
    var rate: Rate

    constructor (rate: Rate)
      ensures this.rate == rate
    {
      this.rate := rate;
    }

    /** `AddAssign`: adds to `x20` in place. */
    method AddAssign(other: Rate)
      requires rate.x20 + other.x20 <= U32_MAX
      modifies this
      ensures rate == Add(old(rate), other)
    {
      rate := Rate(rate.x20 + other.x20);
    }

    /** `SubAssign`: subtracts from `x20` in place. */
    method SubAssign(other: Rate)
      requires other.x20 <= rate.x20
      modifies this
      ensures rate == Sub(old(rate), other)
    {
      rate := Rate(rate.x20 - other.x20);
    }
  }

  /** Subtracting what was added gives the rate back, in place as well as by value. */
  lemma AddSubInverse(a: Rate, b: Rate)
    requires a.x20 + b.x20 <= U32_MAX
    ensures b.x20 <= Add(a, b).x20
    ensures Sub(Add(a, b), b) == a
    ensures Add(a, b) == Add(b, a)
  {
  }

  /** `from_x20(a) + from_x20(b) == from_x20(a + b)`: the operators act on `x20` alone. */
  lemma AddOfX20(a: u32, b: u32)
    requires a + b <= U32_MAX
    ensures Add(FromX20(a), FromX20(b)) == FromX20(a + b)
    ensures Sub(FromX20(a + b), FromX20(b)) == FromX20(a)
  {
  }

  /** Two rates are equal and ordered exactly as their real values are. */
  lemma OrderIsValueOrder(a: Rate, b: Rate)
    ensures a.x20 < b.x20 <==> AsF32(a) < AsF32(b)
    ensures a == b <==> AsF32(a) == AsF32(b)
  {
  }

  /** Every rate survives `as_f32` followed by `from_f32`. */
  lemma AsF32RoundTrip(rate: Rate)
    ensures FromF32(Finite(AsF32(rate))) == Some(rate)
  {
    var v := AsF32(rate);
    assert Times20(v) == rate.x20 as real;
    assert Round(rate.x20 as real) == rate.x20;
  }

  /** `from_f32` rounds to the nearest multiple of 0.05 while the value fits, and saturates at
      `u32::MAX` twentieths above that. */
  lemma FromF32Nearest(v: real)
    requires 0.0 <= v <= U32_MAX_AS_F32
    ensures FromF32(Finite(v)).Some?
    ensures Times20(v) <= U32_MAX as real ==> Abs(FromF32(Finite(v)).value.x20 as real - Times20(v)) <= 0.5
    ensures Times20(v) >= U32_MAX as real + 0.5 ==> FromF32(Finite(v)).value.x20 == U32_MAX
  {
  }

  /** The documented example: "1.40" parses to 28 twentieths, which is 1.4 as a float. */
  lemma OnePointFour(parseF32: string -> Option<Float>)
    requires parseF32("1.40") == Some(Finite(1.4))
    ensures FromString("1.40", parseF32) == Some(Rate(28))
    ensures AsF32(Rate(28)) == 1.4
  {
    assert Round(Times20(1.4)) == 28;
  }
}
