/**
 * The extrusion depth of the shape being edited: the height slider's value, 0 to 100,
 * read as a fraction and interpolated between the configured minimum and maximum
 * heights (src/index.js:458, 486-488). The two bounds are URL parameters in the source
 * and parameters here.
 */
module Extrusion {

  /** Linear interpolation from `a` (at 0) to `b` (at 1). */
  function Lerp(a: real, b: real, t: real): (r: real)
    ensures t == 0.0 ==> r == a
    ensures t == 1.0 ==> r == b
  {
    a + (b - a) * t
  }

  /** For `a <= b`, interpolation is non-decreasing in `t`. */
  lemma LerpMonotone(a: real, b: real, t1: real, t2: real)
    requires a <= b
    requires t1 <= t2
    ensures Lerp(a, b, t1) <= Lerp(a, b, t2)
  {
    assert (b - a) * t2 - (b - a) * t1 == (b - a) * (t2 - t1);
    assert (b - a) * (t2 - t1) >= 0.0;
  }

  /** For `a < b`, interpolation is strictly increasing in `t`. */
  lemma LerpStrict(a: real, b: real, t1: real, t2: real)
    requires a < b
    requires t1 < t2
    ensures Lerp(a, b, t1) < Lerp(a, b, t2)
  {
    assert (b - a) * t2 - (b - a) * t1 == (b - a) * (t2 - t1);
    assert (b - a) * (t2 - t1) > 0.0;
  }

  /** The `depth` handed to the extrusion for slider value `value`. */
  function Depth(minHeight: real, maxHeight: real, value: int): (d: real)
    ensures value == 0 ==> d == minHeight
    ensures value == 100 ==> d == maxHeight
  {
    Lerp(minHeight, maxHeight, value as real / 100.0)
  }

  /** A higher slider value never gives a shallower solid. */
  lemma DepthMonotone(minHeight: real, maxHeight: real, v1: int, v2: int)
    requires minHeight <= maxHeight
    requires v1 <= v2
    ensures Depth(minHeight, maxHeight, v1) <= Depth(minHeight, maxHeight, v2)
  {
    LerpMonotone(minHeight, maxHeight, v1 as real / 100.0, v2 as real / 100.0);
  }

  /** With distinct bounds, a higher slider value gives a strictly deeper solid: no plateau inside the range. */
  lemma DepthStrict(minHeight: real, maxHeight: real, v1: int, v2: int)
    requires minHeight < maxHeight
    requires v1 < v2
    ensures Depth(minHeight, maxHeight, v1) < Depth(minHeight, maxHeight, v2)
  {
    LerpStrict(minHeight, maxHeight, v1 as real / 100.0, v2 as real / 100.0);
  }

  /** Within the slider's range, the depth stays between the two configured heights. */
  lemma DepthBounds(minHeight: real, maxHeight: real, value: int)
    requires minHeight <= maxHeight
    requires 0 <= value <= 100
    ensures minHeight <= Depth(minHeight, maxHeight, value) <= maxHeight
  {
    DepthMonotone(minHeight, maxHeight, 0, value);
    DepthMonotone(minHeight, maxHeight, value, 100);
  }
}
