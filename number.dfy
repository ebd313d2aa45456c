/** numberInRange (src/lib/math/number.ts): the linear remap of a value from
    the range [oldMin, oldMax] onto [newMin, newMax]. The ranges are bounds of
    an affine map, not clamps: values outside the old range extrapolate. */
module Numbers {

  /** The remap divides by the width of the old range, so that width must not
      be zero. The result keeps the value's proportion along its range: it
      lies as far along [newMin, newMax], in units of that range's width, as
      value lies along [oldMin, oldMax]. */
  function NumberInRange(oldMin: real, oldMax: real, newMin: real, newMax: real, value: real): (r: real)
    requires oldMax != oldMin
    ensures (r - newMin) * (oldMax - oldMin) == (value - oldMin) * (newMax - newMin)
  {
    var t := (value - oldMin) / (oldMax - oldMin);
    DivMul(value - oldMin, oldMax - oldMin);
    t * (newMax - newMin) + newMin
  }

  lemma DivMul(x: real, w: real)
    requires w != 0.0
    ensures (x / w) * w == x
  {
  }

  lemma Cancel(x: real, y: real, k: real)
    requires k != 0.0 && x * k == y * k
    ensures x == y
  {
    assert (x - y) * k == 0.0;
  }

  /** The old minimum lands exactly on the new minimum. */
  lemma MinMapsToNewMin(oldMin: real, oldMax: real, newMin: real, newMax: real)
    requires oldMax != oldMin
    ensures NumberInRange(oldMin, oldMax, newMin, newMax, oldMin) == newMin
  {
    var r := NumberInRange(oldMin, oldMax, newMin, newMax, oldMin);
    Cancel(r - newMin, 0.0, oldMax - oldMin);
  }

  /** The old maximum lands exactly on the new maximum. */
  lemma MaxMapsToNewMax(oldMin: real, oldMax: real, newMin: real, newMax: real)
    requires oldMax != oldMin
    ensures NumberInRange(oldMin, oldMax, newMin, newMax, oldMax) == newMax
  {
    var r := NumberInRange(oldMin, oldMax, newMin, newMax, oldMax);
    Cancel(r - newMin, newMax - newMin, oldMax - oldMin);
  }

  /** Remapping back, with the two ranges swapped, returns the original value. */
  lemma {:induction false} RoundTrip(oldMin: real, oldMax: real, newMin: real, newMax: real, value: real)
    requires oldMax != oldMin && newMax != newMin
    ensures NumberInRange(newMin, newMax, oldMin, oldMax, NumberInRange(oldMin, oldMax, newMin, newMax, value)) == value
  {
    var r := NumberInRange(oldMin, oldMax, newMin, newMax, value);
    var s := NumberInRange(newMin, newMax, oldMin, oldMax, r);
    // (s - oldMin) (newMax - newMin) = (r - newMin) (oldMax - oldMin) = (value - oldMin) (newMax - newMin)
    Cancel(s - oldMin, value - oldMin, newMax - newMin);
  }

  /** No clamping: the remap is affine in the value on the whole real line,
      so two values a distance apart land that distance times the ratio of
      the widths apart, wherever they lie. */
  lemma {:induction false} Affine(oldMin: real, oldMax: real, newMin: real, newMax: real, v: real, w: real)
    requires oldMax != oldMin
    ensures (NumberInRange(oldMin, oldMax, newMin, newMax, v) - NumberInRange(oldMin, oldMax, newMin, newMax, w)) * (oldMax - oldMin)
         == (v - w) * (newMax - newMin)
  {
    var rv := NumberInRange(oldMin, oldMax, newMin, newMax, v);
    var rw := NumberInRange(oldMin, oldMax, newMin, newMax, w);
    assert (rv - rw) * (oldMax - oldMin) == (rv - newMin) * (oldMax - oldMin) - (rw - newMin) * (oldMax - oldMin);
  }

  /** Mapping a range onto itself changes nothing. */
  lemma SameRangeIsIdentity(min: real, max: real, value: real)
    requires max != min
    ensures NumberInRange(min, max, min, max, value) == value
  {
    var r := NumberInRange(min, max, min, max, value);
    Cancel(r - min, value - min, max - min);
  }

  /** The middle of [0, 100] is the middle of [0, 1]. */
  lemma Example()
    ensures NumberInRange(0.0, 100.0, 0.0, 1.0, 50.0) == 0.5
  {
    var r := NumberInRange(0.0, 100.0, 0.0, 1.0, 50.0);
    Cancel(r, 0.5, 100.0);
  }
}
