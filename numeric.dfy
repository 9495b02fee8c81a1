/** The three pieces of JavaScript `Math` the hero component uses on numbers
    other than trigonometry: `Math.min`, `Math.max`, and the
    `Math.min(Math.max(v, lo), hi)` idiom that clamps a value into a range.
    JavaScript doubles are modelled as `real`. */
module Numeric {

  /** `Math.min` of two numbers. */
  function Min(a: real, b: real): (r: real)
    ensures r <= a && r <= b
    ensures r == a || r == b
  {
    if a <= b then a else b
  }

  /** `Math.max` of two numbers. */
  function Max(a: real, b: real): (r: real)
    ensures a <= r && b <= r
    ensures r == a || r == b
  {
    if a <= b then b else a
  }

  /** `Math.min(Math.max(v, lo), hi)`: the value pushed into `[lo, hi]`.
      A value below the range lands exactly on `lo`, one above it exactly
      on `hi`, and one inside it is left alone. */
  function Clamp(v: real, lo: real, hi: real): (r: real)
    requires lo <= hi
    ensures lo <= r <= hi
    ensures v < lo ==> r == lo
    ensures hi < v ==> r == hi
    ensures lo <= v <= hi ==> r == v
  {
    Min(Max(v, lo), hi)
  }

  /** Both factors non-negative: so is the product. */
  lemma MulNonNegative(a: real, b: real)
    requires 0.0 <= a && 0.0 <= b
    ensures 0.0 <= a * b
  {
  }

  /** A fraction `t` in `[0, 1]` of a signed distance `d` lies between 0
      and `d`. */
  lemma FractionBetween(t: real, d: real)
    ensures 0.0 <= t <= 1.0 ==> Min(0.0, d) <= t * d <= Max(0.0, d)
  {
    if 0.0 <= t <= 1.0 {
      if 0.0 <= d {
        MulNonNegative(t, d);
        MulNonNegative(1.0 - t, d);
      } else {
        MulNonNegative(t, -d);
        MulNonNegative(1.0 - t, -d);
      }
    }
  }
}
