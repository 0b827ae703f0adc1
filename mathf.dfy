/** The scalar helpers of Unity's `Mathf` that the camera relies on, over exact reals. */
module Mathf {

  /** `Mathf.Clamp(value, min, max)`: below `min` gives `min`, otherwise above `max` gives
      `max`, otherwise `value` itself. The two tests are made in this order, so with
      `min > max` a value at or above `min` comes back as `max`. */
  function Clamp(value: real, min: real, max: real): (r: real)
    ensures min <= max ==> min <= r <= max
    ensures min <= value <= max ==> r == value
    ensures r == value || r == min || r == max
  {
    if value < min then min
    else if value > max then max
    else value
  }

  /** With a well-formed range, the clamped value is the point of `[min, max]` nearest
      to `value`, and it moves monotonically with `value`. */
  lemma ClampIsNearest(value: real, min: real, max: real, y: real)
    requires min <= max
    requires min <= y <= max
    ensures Abs(Clamp(value, min, max) - value) <= Abs(y - value)
    ensures value <= y ==> Clamp(value, min, max) <= y
    ensures y <= value ==> y <= Clamp(value, min, max)
  {
  }

  /** With a well-formed range, clamping is monotone. */
  lemma ClampMonotone(a: real, b: real, min: real, max: real)
    requires min <= max
    requires a <= b
    ensures Clamp(a, min, max) <= Clamp(b, min, max)
  {
  }

  /** `Mathf.Clamp01(t)`, the clamp `Vector3.Lerp` applies to its factor. */
  function Clamp01(t: real): (r: real)
    ensures 0.0 <= r <= 1.0
    ensures 0.0 <= t <= 1.0 ==> r == t
    ensures t < 0.0 ==> r == 0.0
    ensures 1.0 < t ==> r == 1.0
  {
    Clamp(t, 0.0, 1.0)
  }

  function Abs(x: real): (r: real)
    ensures 0.0 <= r && (r == x || r == -x)
  {
    if x < 0.0 then -x else x
  }

  /** `x` raised to the `n`-th power. */
  function Pow(x: real, n: nat): real
  {
    if n == 0 then 1.0 else x * Pow(x, n - 1)
  }

  /** A power of a factor in `[0, 1]` stays in `[0, 1]`, and a power of a positive
      factor stays positive. */
  lemma {:induction false} PowBounds(x: real, n: nat)
    requires 0.0 <= x <= 1.0
    ensures 0.0 <= Pow(x, n) <= 1.0
    ensures 0.0 < x ==> 0.0 < Pow(x, n)
  {
    if n > 0 {
      PowBounds(x, n - 1);
      var p := Pow(x, n - 1);
      assert x * p <= 1.0 * p;
    }
  }

  /** Squaring preserves the order of non-negative reals, strictly and not. */
  lemma SquareMonotone(a: real, b: real)
    requires 0.0 <= a
    ensures a < b ==> a * a < b * b
    ensures a <= b ==> a * a <= b * b
  {
    if a <= b {
      var e := b - a;
      assert b * b == a * a + e * (b + a);
      assert 0.0 <= e * (b + a);
      if a < b {
        assert 0.0 < e * (b + a);
      }
    }
  }

}
