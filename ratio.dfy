/** Percentages as JavaScript computes them: `(part / whole) * 100`, where a zero
    denominator is not guarded and yields an IEEE-754 infinity or NaN, and
    `Math.min(x, 100)`, which passes NaN and minus infinity through. */
module Ratio {

  datatype Quotient = Finite(value: real) | PosInfinity | NegInfinity | NaN

  /** `(part / whole) * 100`. */
  function Percent(part: real, whole: real): (r: Quotient)
    ensures whole != 0.0 ==> r.Finite?
    ensures whole > 0.0 ==> (r.value <= 100.0 <==> part <= whole)
    ensures whole > 0.0 ==> (r.value >= 0.0 <==> part >= 0.0)
    ensures whole == 0.0 ==> (r.PosInfinity? <==> part > 0.0)
    ensures whole == 0.0 ==> (r.NegInfinity? <==> part < 0.0)
    ensures whole == 0.0 ==> (r.NaN? <==> part == 0.0)
  {
    if whole != 0.0 then
      if whole > 0.0 then QuotientBounds(part, whole); Finite(part / whole * 100.0)
      else Finite(part / whole * 100.0)
    else if part > 0.0 then PosInfinity
    else if part < 0.0 then NegInfinity
    else NaN
  }

  /** Dividing by a positive number keeps the sign and compares with 1 as the numerator compares with the denominator. */
  lemma QuotientBounds(part: real, whole: real)
    requires whole > 0.0
    ensures part / whole <= 1.0 <==> part <= whole
    ensures part / whole >= 0.0 <==> part >= 0.0
  {
    var q := part / whole;
    assert q * whole == part;
    if q > 1.0 {
      assert (q - 1.0) * whole > 0.0;
    }
    if q < 0.0 {
      assert (0.0 - q) * whole > 0.0;
    }
  }

  /** `Math.min(q, 100)`: never above 100, and exact wherever `q` is at most 100. */
  function AtMost100(q: Quotient): (r: Quotient)
    ensures !r.PosInfinity?
    ensures r.Finite? ==> r.value <= 100.0
    ensures q.Finite? && q.value <= 100.0 ==> r == q
    ensures (q.Finite? && q.value > 100.0) || q.PosInfinity? ==> r == Finite(100.0)
    ensures q.NegInfinity? || q.NaN? ==> r == q
  {
    match q
    case Finite(v) => if v <= 100.0 then q else Finite(100.0)
    case PosInfinity => Finite(100.0)
    case _ => q
  }
}
