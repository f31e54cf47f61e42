/**
 * WPILib's Rotation2d reduced to what the shooter uses: angles in degrees.
 * A rotation built from degrees keeps the value it was given; only the results
 * of minus and plus (and so of interpolate) pass through atan2 and land in the
 * half-open range (-180, 180], so the difference of two rotations is the
 * shortest signed angle between them.
 */
module Rotation {
  import opened MathUtil

  /** The whole turns to add to x to bring it into (-180, 180]. */
  function Turns(x: real): int
  {
    ((180.0 - x) / 360.0).Floor
  }

  /** The angle congruent to x modulo 360 that lies in (-180, 180]. */
  function Wrap(x: real): (r: real)
    ensures -180.0 < r <= 180.0
    ensures r == x + 360.0 * Turns(x) as real
  {
    x + 360.0 * Turns(x) as real
  }

  /** Rotation2d.minus(...).getDegrees(): the shortest signed angle from b to a. */
  function Minus(a: real, b: real): real
  {
    Wrap(a - b)
  }

  /** Rotation2d.interpolate: rotate from a toward b along the short way by clamp(t, 0, 1). */
  function Interpolate(a: real, b: real, t: real): real
  {
    Wrap(a + Wrap(b - a) * Clamp(t, 0.0, 1.0))
  }

  /** An angle already in (-180, 180] is its own normal form. */
  lemma WrapIdentity(x: real)
    requires -180.0 < x <= 180.0
    ensures Wrap(x) == x
  {
    var y := (180.0 - x) / 360.0;
    assert 0.0 <= y < 1.0;
  }

  /** The normal form is unique: any angle in (-180, 180] congruent to x is Wrap(x). */
  lemma WrapUnique(x: real, y: real, k: int)
    requires -180.0 < y <= 180.0
    requires y == x + 360.0 * k as real
    ensures Wrap(x) == y
  {
    var d := Turns(x) - k;
    assert Wrap(x) - y == 360.0 * d as real;
    assert -360.0 < Wrap(x) - y < 360.0;
  }

  /** Adding whole turns does not change the normal form. */
  lemma WrapPeriodic(x: real, k: int)
    ensures Wrap(x + 360.0 * k as real) == Wrap(x)
  {
    WrapUnique(x + 360.0 * k as real, Wrap(x), Turns(x) - k);
  }

  /** The shortest angle from b to a is the negation of that from a to b, except at exactly half a turn. */
  lemma MinusAntisymmetric(a: real, b: real)
    requires Minus(a, b) != 180.0
    ensures Minus(b, a) == -Minus(a, b)
  {
    WrapUnique(b - a, -Wrap(a - b), -Turns(a - b));
  }

  /** Equal angles have equal normal forms (stated apart to keep the solver's context small). */
  lemma WrapEqual(x: real, y: real)
    requires x == y
    ensures Wrap(x) == Wrap(y)
  {
  }

  /** Between ends within a quarter turn of zero, the short way is the direct difference. */
  lemma ShortWayIsDirect(a: real, b: real, c: real)
    requires -90.0 < a <= 90.0 && -90.0 < b <= 90.0
    ensures a + Wrap(b - a) * c == a + (b - a) * c
  {
    WrapIdentity(b - a);
  }

  /** A linear blend of ends within a quarter turn of zero stays within it. */
  lemma LinearWithinQuarterTurn(a: real, b: real, t: real)
    requires -90.0 < a <= 90.0 && -90.0 < b <= 90.0
    ensures -90.0 < MathUtil.Interpolate(a, b, t) <= 90.0
  {
    InterpolateBetween(a, b, t);
  }

  /**
   * When both ends are within a quarter turn of zero, the short-way blend is
   * the plain linear blend of MathUtil.
   */
  lemma InterpolateIsLinear(a: real, b: real, t: real)
    requires -90.0 < a <= 90.0 && -90.0 < b <= 90.0
    ensures Interpolate(a, b, t) == MathUtil.Interpolate(a, b, t)
  {
    var c := Clamp(t, 0.0, 1.0);
    var linear := MathUtil.Interpolate(a, b, t);
    ShortWayIsDirect(a, b, c);
    WrapEqual(a + Wrap(b - a) * c, linear);
    LinearWithinQuarterTurn(a, b, t);
    WrapIdentity(linear);
  }
}
