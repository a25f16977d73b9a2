/** Model of the `Clamp` extension method of TeslaTest/Util.cs.

    The source is generic over any `IComparable<T>`; the vehicle model only
    ever clamps floating-point values, so the model clamps reals. */
module Util {

  /** Limits `val` to the interval [min, max]. The lower bound is tested
      first, so a value below `min` yields `min` even when `min > max`. */
  function Clamp(val: real, min: real, max: real): (r: real)
    ensures r == min || r == max || r == val
    ensures min <= max ==> min <= r <= max
  {
    if val < min then min
    else if val > max then max
    else val
  }

  /** A value below the lower bound is replaced by the lower bound, whatever the upper bound is. */
  lemma ClampBelowMin(val: real, min: real, max: real)
    requires val < min
    ensures Clamp(val, min, max) == min
  {
  }

  /** A value at or above the lower bound and above the upper bound is replaced by the upper bound. */
  lemma ClampAboveMax(val: real, min: real, max: real)
    requires min <= val && max < val
    ensures Clamp(val, min, max) == max
  {
  }

  /** A value already inside the interval is returned unchanged, and only such a value is. */
  lemma ClampKeepsInside(val: real, min: real, max: real)
    requires min <= max
    ensures Clamp(val, min, max) == val <==> min <= val <= max
  {
  }

  /** Clamping twice to the same non-empty interval is the same as clamping once. */
  lemma ClampIdempotent(val: real, min: real, max: real)
    requires min <= max
    ensures Clamp(Clamp(val, min, max), min, max) == Clamp(val, min, max)
  {
  }
}
