/**
 * The linear range remap used to turn a normalised fingertip coordinate into
 * a screen pixel, and Python's `int()` conversion of its result.
 */
module Remap {
  import opened RealArith

  /** Linear interpolation taking [inMin, inMax] onto [outMin, outMax]. */
  function MapValue(value: real, inMin: real, inMax: real, outMin: real, outMax: real): (r: real)
    requires inMin != inMax
    ensures value == inMin ==> r == outMin
    ensures value == inMax ==> r == outMax
  {
    ScaledZero(outMax - outMin, inMax - inMin);
    ScaledCancel(inMax - inMin, outMax - outMin);
    (value - inMin) * (outMax - outMin) / (inMax - inMin) + outMin
  }

  lemma ScaledZero(span: real, q: real)
    requires q != 0.0
    ensures 0.0 * span / q == 0.0
  {
  }

  lemma ScaledCancel(q: real, span: real)
    requires q != 0.0
    ensures q * span / q == span
  {
  }

  /** For an increasing input range and a non-decreasing output range the remap is non-decreasing. */
  lemma MapValueMonotone(v1: real, v2: real, inMin: real, inMax: real, outMin: real, outMax: real)
    requires inMin < inMax && outMin <= outMax && v1 <= v2
    ensures MapValue(v1, inMin, inMax, outMin, outMax) <= MapValue(v2, inMin, inMax, outMin, outMax)
  {
    var slope := (outMax - outMin) / (inMax - inMin);
    assert slope >= 0.0;
    MapValueAffine(v1, inMin, inMax, outMin, outMax);
    MapValueAffine(v2, inMin, inMax, outMin, outMax);
    assert (v2 - inMin) * slope - (v1 - inMin) * slope == (v2 - v1) * slope;
    ProductNonnegative(v2 - v1, slope);
  }

  /** Mapping back with the ranges swapped recovers the original value. */
  lemma MapValueRoundTrip(value: real, inMin: real, inMax: real, outMin: real, outMax: real)
    requires inMin != inMax && outMin != outMax
    ensures MapValue(MapValue(value, inMin, inMax, outMin, outMax), outMin, outMax, inMin, inMax) == value
  {
    var forward := MapValue(value, inMin, inMax, outMin, outMax);
    var slope, backSlope := (outMax - outMin) / (inMax - inMin), (inMax - inMin) / (outMax - outMin);
    MapValueAffine(value, inMin, inMax, outMin, outMax);
    MapValueAffine(forward, outMin, outMax, inMin, inMax);
    // forward - outMin == (value - inMin) * slope, and the two slopes are reciprocal
    ReciprocalSlopes(inMax - inMin, outMax - outMin);
    ScaleBack(value - inMin, slope, backSlope);
  }

  /** The remap is the offset from inMin times the slope of the two ranges, plus outMin. */
  lemma MapValueAffine(value: real, inMin: real, inMax: real, outMin: real, outMax: real)
    requires inMin != inMax
    ensures MapValue(value, inMin, inMax, outMin, outMax)
         == (value - inMin) * ((outMax - outMin) / (inMax - inMin)) + outMin
  {
    MulDivAssoc(value - inMin, outMax - outMin, inMax - inMin);
  }

  lemma MulDivAssoc(x: real, y: real, z: real)
    requires z != 0.0
    ensures x * y / z == x * (y / z)
  {
  }

  lemma ReciprocalSlopes(p: real, q: real)
    requires p != 0.0 && q != 0.0
    ensures (q / p) * (p / q) == 1.0
  {
  }

  lemma ScaleBack(x: real, k: real, kInverse: real)
    requires k * kInverse == 1.0
    ensures (x * k) * kInverse == x
  {
    assert (x * k) * kInverse == x * (k * kInverse);
  }

  /** Python's `int()` on a float: the integer part, truncating toward zero. */
  function Trunc(x: real): (n: int)
    ensures 0.0 <= x ==> n as real <= x < n as real + 1.0
    ensures x < 0.0 ==> n as real - 1.0 < x <= n as real
  {
    if x >= 0.0 then x.Floor else -((-x).Floor)
  }

  /**
   * The pixel `int(_map_value(v, 0, 1, 0, size))` the cursor is sent to
   * along one axis: the integer part of v·size, inside [0, size] for v in [0, 1].
   */
  function ScreenCoord(v: real, size: nat): (c: int)
    ensures 0.0 <= v <= 1.0 ==> 0 <= c <= size
    ensures 0.0 <= v ==> c as real <= v * size as real < c as real + 1.0
    ensures v < 0.0 ==> c as real - 1.0 < v * size as real <= c as real
  {
    var scaled := MapValue(v, 0.0, 1.0, 0.0, size as real);
    assert scaled == v * size as real;
    assert 0.0 <= v <= 1.0 ==> 0.0 <= scaled <= size as real by {
      if 0.0 <= v <= 1.0 {
        ProductNonnegative(v, size as real);
        ProductNonnegative(1.0 - v, size as real);
      }
    }
    Trunc(scaled)
  }

  /** The index tip at (0.5, 0.3) on a 1920×1080 screen moves the cursor to (960, 324). */
  lemma CentreColumnTarget()
    ensures ScreenCoord(0.5, 1920) == 960 && ScreenCoord(0.3, 1080) == 324
  {
  }
}
