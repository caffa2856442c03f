// MathHelpers.lerp and MathHelpers.clamp (src/utils/MathHelpers.ts), over exact reals.

module MathHelpers {

  function Min(a: real, b: real): (r: real)
    ensures r <= a && r <= b && (r == a || r == b)
  {
    if a <= b then a else b
  }

  function Max(a: real, b: real): (r: real)
    ensures r >= a && r >= b && (r == a || r == b)
  {
    if a >= b then a else b
  }

  /** `start * (1 - t) + end * t`: the point a fraction t of the way from start to end. */
  function Lerp(start: real, end: real, t: real): (r: real)
    ensures t == 0.0 ==> r == start
    ensures t == 1.0 ==> r == end
    ensures r - start == (end - start) * t
  {
    start * (1.0 - t) + end * t
  }

  /** For t in [0, 1] the interpolated value lies between the two endpoints. */
  lemma LerpBetween(start: real, end: real, t: real)
    requires 0.0 <= t <= 1.0
    ensures start <= end ==> start <= Lerp(start, end, t) <= end
    ensures end <= start ==> end <= Lerp(start, end, t) <= start
  {
    var r := Lerp(start, end, t);
    assert r - start == (end - start) * t;
    assert end - r == (end - start) * (1.0 - t);
    if start <= end {
      MulNonNegative(end - start, t);
      MulNonNegative(end - start, 1.0 - t);
    } else {
      MulNonNegative(start - end, t);
      MulNonNegative(start - end, 1.0 - t);
    }
  }

  lemma MulNonNegative(a: real, b: real)
    requires 0.0 <= a && 0.0 <= b
    ensures 0.0 <= a * b
  {
  }

  /**
   * `Math.min(Math.max(value, min), max)`: raise to min, then cap at max.
   * When the bounds are inverted the cap wins and the result is max.
   */
  function Clamp(value: real, min: real, max: real): (r: real)
    ensures min <= max ==> min <= r <= max
    ensures min <= value <= max ==> r == value
    ensures value < min && min <= max ==> r == min
    ensures max < value ==> r == max
    ensures max < min ==> r == max
  {
    Min(Max(value, min), max)
  }

  /** Clamping twice with the same bounds is the same as clamping once. */
  lemma ClampIdempotent(value: real, min: real, max: real)
    ensures Clamp(Clamp(value, min, max), min, max) == Clamp(value, min, max)
  {
  }

  /** Clamping is monotone: a larger input never gives a smaller output. */
  lemma ClampMonotone(a: real, b: real, min: real, max: real)
    requires a <= b
    ensures Clamp(a, min, max) <= Clamp(b, min, max)
  {
  }
}
