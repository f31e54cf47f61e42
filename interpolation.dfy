/**
 * WPILib's InterpolatingTreeMap as the shot calculator uses it: a map from
 * distance to a calibrated value, kept ordered by key, whose lookup returns the
 * stored value at a breakpoint, the nearest end value outside the breakpoints,
 * and a blend of the two bracketing values in between.
 *
 * The map is a sequence of breakpoints in strictly increasing key order.
 */
module Interpolation {
  import opened Wrappers
  import MathUtil
  import Rotation

  datatype Breakpoint = Breakpoint(key: real, value: real)

  /**
   * How two bracketing values are blended: InterpolatingDoubleTreeMap uses
   * MathUtil.interpolate, the hood-angle map uses Rotation2d::interpolate.
   */
  datatype Blend = Scalar | Angular

  function Mix(blend: Blend, a: real, b: real, t: real): real
  {
    match blend
    case Scalar => MathUtil.Interpolate(a, b, t)
    case Angular => Rotation.Interpolate(a, b, t)
  }

  /** Keys strictly increase: the ordering a TreeMap keeps. */
  predicate Sorted(t: seq<Breakpoint>)
  {
    forall i, j :: 0 <= i < j < |t| ==> t[i].key < t[j].key
  }

  /** Calibrated values never decrease as the key grows. */
  predicate NonDecreasing(t: seq<Breakpoint>)
  {
    forall i, j :: 0 <= i < j < |t| ==> t[i].value <= t[j].value
  }

  /** Keys increase and values do not decrease from each breakpoint to the next. */
  predicate StepwiseOrdered(t: seq<Breakpoint>)
  {
    forall i :: 0 <= i < |t| - 1 ==> t[i].key < t[i + 1].key && t[i].value <= t[i + 1].value
  }

  /** Ordering between neighbours is ordering between all pairs. */
  lemma {:induction false} StepwiseOrderedIsOrdered(t: seq<Breakpoint>)
    requires StepwiseOrdered(t)
    ensures Sorted(t) && NonDecreasing(t)
  {
    if |t| > 1 {
      StepwiseOrderedIsOrdered(t[1..]);
      forall j | 0 < j < |t|
        ensures t[0].key < t[j].key && t[0].value <= t[j].value
      {
        if j > 1 {
          assert t[1..][0] == t[1] && t[1..][j - 1] == t[j];
        }
      }
    }
  }

  /** Every key lies strictly above bound. */
  predicate Above(t: seq<Breakpoint>, bound: real)
  {
    forall i :: 0 <= i < |t| ==> bound < t[i].key
  }

  /** The key-to-value mapping the sequence stands for. */
  function ToMap(t: seq<Breakpoint>): map<real, real>
  {
    if t == [] then map[] else ToMap(t[1..])[t[0].key := t[0].value]
  }

  function Last(t: seq<Breakpoint>): Breakpoint
    requires |t| > 0
  {
    t[|t| - 1]
  }

  /**
   * TreeMap.put: insert a breakpoint at its place in key order, replacing the
   * value of an equal key.
   */
  function Put(t: seq<Breakpoint>, key: real, value: real): (r: seq<Breakpoint>)
    requires Sorted(t)
    ensures Sorted(r) && |r| > 0
    ensures ToMap(r) == ToMap(t)[key := value]
    ensures forall bound :: Above(t, bound) && bound < key ==> Above(r, bound)
  {
    if t == [] then [Breakpoint(key, value)]
    else if key < t[0].key then [Breakpoint(key, value)] + t
    else if key == t[0].key then [Breakpoint(key, value)] + t[1..]
    else
      var rest := Put(t[1..], key, value);
      assert Above(t[1..], t[0].key);
      assert ToMap([t[0]] + rest) == ToMap(rest)[t[0].key := t[0].value] by {
        assert ([t[0]] + rest)[1..] == rest;
      }
      [t[0]] + rest
  }

  /** Putting a key beyond the last one appends it. */
  lemma {:induction false} PutAfterLast(t: seq<Breakpoint>, key: real, value: real)
    requires Sorted(t) && (t == [] || Last(t).key < key)
    ensures Put(t, key, value) == t + [Breakpoint(key, value)]
  {
    if t != [] {
      assert t[0].key <= Last(t).key;
      if |t| > 1 {
        PutAfterLast(t[1..], key, value);
      }
      assert [t[0]] + (t[1..] + [Breakpoint(key, value)]) == t + [Breakpoint(key, value)];
    }
  }

  /** Putting a key below the first one prepends it. */
  lemma PutBeforeFirst(t: seq<Breakpoint>, key: real, value: real)
    requires Sorted(t) && (t == [] || key < t[0].key)
    ensures Put(t, key, value) == [Breakpoint(key, value)] + t
  {
  }

  /**
   * InterpolatingTreeMap.get: None on an empty map; the first value at or
   * below the first key; the last value at or above the last key; the stored
   * value at a key; otherwise the blend of the bracketing values at the
   * fraction the key lies between their keys.
   */
  function Get(t: seq<Breakpoint>, key: real, blend: Blend): (r: Option<real>)
    ensures r.Some? <==> |t| > 0
  {
    if |t| == 0 then None
    else if key <= t[0].key || |t| == 1 then Some(t[0].value)
    else if key < t[1].key then
      Some(Mix(blend, t[0].value, t[1].value, MathUtil.InverseInterpolate(t[0].key, t[1].key, key)))
    else Get(t[1..], key, blend)
  }

  /** A single-entry map returns its entry whatever the key. */
  lemma GetSingle(b: Breakpoint, key: real, blend: Blend)
    ensures Get([b], key, blend) == Some(b.value)
  {
  }

  /** Keys at or below the first breakpoint read the first value. */
  lemma GetClampLow(t: seq<Breakpoint>, key: real, blend: Blend)
    requires |t| > 0 && key <= t[0].key
    ensures Get(t, key, blend) == Some(t[0].value)
  {
  }

  /** Keys at or above the last breakpoint read the last value. */
  lemma {:induction false} GetClampHigh(t: seq<Breakpoint>, key: real, blend: Blend)
    requires Sorted(t) && |t| > 0 && key >= Last(t).key
    ensures Get(t, key, blend) == Some(Last(t).value)
  {
    if |t| > 1 {
      assert key >= t[1].key;
      if key > t[0].key {
        GetClampHigh(t[1..], key, blend);
      }
    }
  }

  /** A lookup at a breakpoint's own key returns its calibrated value, without blending. */
  lemma {:induction false} GetAtKey(t: seq<Breakpoint>, i: nat, blend: Blend)
    requires Sorted(t) && i < |t|
    ensures Get(t, t[i].key, blend) == Some(t[i].value)
  {
    if i > 0 {
      assert t[0].key < t[i].key && t[1].key <= t[i].key;
      GetAtKey(t[1..], i - 1, blend);
    }
  }

  /** Strictly between two neighbouring breakpoints the lookup blends exactly those two. */
  lemma {:induction false} GetBetween(t: seq<Breakpoint>, i: nat, key: real, blend: Blend)
    requires Sorted(t) && i + 1 < |t|
    requires t[i].key < key < t[i + 1].key
    ensures Get(t, key, blend)
      == Some(Mix(blend, t[i].value, t[i + 1].value, MathUtil.InverseInterpolate(t[i].key, t[i + 1].key, key)))
  {
    if i > 0 {
      assert t[1].key <= t[i].key;
      GetBetween(t[1..], i - 1, key, blend);
    }
  }

  /** A scalar blend strictly between two breakpoints lies between their two values. */
  lemma GetBetweenBounded(t: seq<Breakpoint>, i: nat, key: real)
    requires Sorted(t) && i + 1 < |t|
    requires t[i].key < key < t[i + 1].key
    ensures t[i].value <= t[i + 1].value ==> t[i].value <= Get(t, key, Scalar).value <= t[i + 1].value
    ensures t[i + 1].value <= t[i].value ==> t[i + 1].value <= Get(t, key, Scalar).value <= t[i].value
  {
    GetBetween(t, i, key, Scalar);
    MathUtil.InterpolateBetween(t[i].value, t[i + 1].value,
      MathUtil.InverseInterpolate(t[i].key, t[i + 1].key, key));
  }

  /** On a non-decreasing table every scalar lookup lies between the first and last values. */
  lemma {:induction false} GetBounds(t: seq<Breakpoint>, key: real)
    requires Sorted(t) && NonDecreasing(t) && |t| > 0
    ensures t[0].value <= Get(t, key, Scalar).value <= Last(t).value
  {
    if key <= t[0].key || |t| == 1 {
    } else if key < t[1].key {
      MathUtil.InterpolateBetween(t[0].value, t[1].value,
        MathUtil.InverseInterpolate(t[0].key, t[1].key, key));
    } else {
      GetBounds(t[1..], key);
    }
  }

  /** On a non-decreasing table the scalar lookup is monotone non-decreasing in the key. */
  lemma {:induction false} GetMonotone(t: seq<Breakpoint>, k1: real, k2: real)
    requires Sorted(t) && NonDecreasing(t) && |t| > 0 && k1 <= k2
    ensures Get(t, k1, Scalar).value <= Get(t, k2, Scalar).value
  {
    if k1 <= t[0].key || |t| == 1 {
      GetBounds(t, k2);
    } else if k1 < t[1].key {
      var f1 := MathUtil.InverseInterpolate(t[0].key, t[1].key, k1);
      MathUtil.InterpolateBetween(t[0].value, t[1].value, f1);
      if k2 < t[1].key {
        var f2 := MathUtil.InverseInterpolate(t[0].key, t[1].key, k2);
        MathUtil.InverseInterpolateMonotone(t[0].key, t[1].key, k1, k2);
        MathUtil.InterpolateMonotone(t[0].value, t[1].value, f1, f2);
      } else {
        GetBounds(t[1..], k2);
      }
    } else {
      GetMonotone(t[1..], k1, k2);
    }
  }

  /** Values within a quarter turn of zero: where the short-way angle blend is linear. */
  predicate WithinQuarterTurn(t: seq<Breakpoint>)
  {
    forall i :: 0 <= i < |t| ==> -90.0 < t[i].value <= 90.0
  }

  /** On such a table the Rotation2d lookup agrees with the scalar lookup. */
  lemma {:induction false} AngularIsScalar(t: seq<Breakpoint>, key: real)
    requires WithinQuarterTurn(t)
    ensures Get(t, key, Angular) == Get(t, key, Scalar)
  {
    if |t| > 1 && t[0].key < key {
      if key < t[1].key {
        Rotation.InterpolateIsLinear(t[0].value, t[1].value,
          MathUtil.InverseInterpolate(t[0].key, t[1].key, key));
      } else {
        AngularIsScalar(t[1..], key);
      }
    }
  }
}
