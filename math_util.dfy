/**
 * The scalar helpers of WPILib's MathUtil that the interpolating maps use:
 * clamping, linear interpolation and its inverse. All quantities are reals;
 * IEEE rounding is not modelled.
 */
module MathUtil {

  function Abs(x: real): (r: real)
    ensures r >= 0.0
    ensures r == x || r == -x
  {
    if x < 0.0 then -x else x
  }

  /** MathUtil.clamp: the point of [low, high] nearest to value. */
  function Clamp(value: real, low: real, high: real): (r: real)
    requires low <= high
    ensures low <= r <= high
    ensures low <= value <= high ==> r == value
    ensures value < low ==> r == low
    ensures value > high ==> r == high
  {
    if value < low then low else if value > high then high else value
  }

  /** MathUtil.interpolate: start + (end - start) * clamp(t, 0, 1). */
  function Interpolate(start: real, end: real, t: real): real
  {
    start + (end - start) * Clamp(t, 0.0, 1.0)
  }

  /**
   * MathUtil.inverseInterpolate: where q lies between start and end as a fraction,
   * 0 when the range is empty or q is at or below start.
   */
  function InverseInterpolate(start: real, end: real, q: real): real
  {
    if end - start <= 0.0 then 0.0
    else if q - start <= 0.0 then 0.0
    else (q - start) / (end - start)
  }

  /** The interpolated value never leaves the closed range spanned by its ends. */
  lemma InterpolateBetween(start: real, end: real, t: real)
    ensures start <= end ==> start <= Interpolate(start, end, t) <= end
    ensures end <= start ==> end <= Interpolate(start, end, t) <= start
  {
    var c, d := Clamp(t, 0.0, 1.0), end - start;
    assert Interpolate(start, end, t) == start + d * c;
    if start <= end {
      MulBetween(d, c);
    } else {
      MulBetweenNeg(d, c);
    }
  }

  /** Interpolate hits its ends exactly at t = 0 and t = 1. */
  lemma InterpolateEnds(start: real, end: real)
    ensures Interpolate(start, end, 0.0) == start
    ensures Interpolate(start, end, 1.0) == end
  {
  }

  /** With start <= end, interpolation is monotone in the fraction. */
  lemma InterpolateMonotone(start: real, end: real, t1: real, t2: real)
    requires start <= end && t1 <= t2
    ensures Interpolate(start, end, t1) <= Interpolate(start, end, t2)
  {
    var c1, c2 := Clamp(t1, 0.0, 1.0), Clamp(t2, 0.0, 1.0);
    assert c1 <= c2;
    MulMonotone(end - start, c1, c2);
  }

  /** The inverse interpolation of a query strictly inside (start, end) is strictly inside (0, 1). */
  lemma InverseInterpolateInside(start: real, end: real, q: real)
    requires start < q < end
    ensures 0.0 < InverseInterpolate(start, end, q) < 1.0
  {
    DivBelowOne(q - start, end - start);
  }

  /** The inverse interpolation is monotone in the query. */
  lemma InverseInterpolateMonotone(start: real, end: real, q1: real, q2: real)
    requires q1 <= q2
    ensures InverseInterpolate(start, end, q1) <= InverseInterpolate(start, end, q2)
  {
    if end - start > 0.0 && q1 - start > 0.0 {
      DivMonotone(q1 - start, q2 - start, end - start);
    }
  }

  lemma MulBetween(d: real, c: real)
    requires d >= 0.0 && 0.0 <= c <= 1.0
    ensures 0.0 <= d * c <= d
  {
  }

  lemma MulBetweenNeg(d: real, c: real)
    requires d <= 0.0 && 0.0 <= c <= 1.0
    ensures d <= d * c <= 0.0
  {
  }

  lemma MulMonotone(d: real, c1: real, c2: real)
    requires d >= 0.0 && c1 <= c2
    ensures d * c1 <= d * c2
  {
    assert d * c2 - d * c1 == d * (c2 - c1);
  }

  lemma DivBelowOne(a: real, b: real)
    requires 0.0 < a < b
    ensures 0.0 < a / b < 1.0
  {
    var q := a / b;
    assert q * b == a;
    if q >= 1.0 {
      MulMonotone(b, 1.0, q);
    }
  }

  lemma DivMonotone(a1: real, a2: real, b: real)
    requires a1 <= a2 && b > 0.0
    ensures a1 / b <= a2 / b
  {
    assert a2 / b - a1 / b == (a2 - a1) / b;
  }
}
