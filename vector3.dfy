/** Unity's `Vector3`, over exact reals: the arithmetic the camera performs and
    `Vector3.Lerp`, the interpolation it smooths its position with. */
module Vector3 {
  import Mathf

  datatype Vec3 = Vec3(x: real, y: real, z: real)

  function Add(a: Vec3, b: Vec3): Vec3
  {
    Vec3(a.x + b.x, a.y + b.y, a.z + b.z)
  }

  function Sub(a: Vec3, b: Vec3): Vec3
  {
    Vec3(a.x - b.x, a.y - b.y, a.z - b.z)
  }

  /** `v * k`. */
  function Scale(v: Vec3, k: real): Vec3
  {
    Vec3(v.x * k, v.y * k, v.z * k)
  }

  function Dot(a: Vec3, b: Vec3): real
  {
    a.x * b.x + a.y * b.y + a.z * b.z
  }

  /** `v.sqrMagnitude`: the squared length, never negative. */
  function SqrMagnitude(v: Vec3): (r: real)
    ensures 0.0 <= r
  {
    Dot(v, v)
  }

  /** The square of `Vector3.Distance(a, b)`. */
  function SqrDistance(a: Vec3, b: Vec3): real
  {
    SqrMagnitude(Sub(a, b))
  }

  lemma ScaleScale(v: Vec3, a: real, b: real)
    ensures Scale(Scale(v, a), b) == Scale(v, a * b)
  {
  }

  /** Scaling a vector by `k` scales its squared length by `k * k`. */
  lemma SqrMagnitudeScale(v: Vec3, k: real)
    ensures SqrMagnitude(Scale(v, k)) == k * k * SqrMagnitude(v)
  {
  }

  /** `Vector3.LerpUnclamped(a, b, s)`: `a + (b - a) * s`. */
  function LerpUnclamped(a: Vec3, b: Vec3, s: real): Vec3
  {
    Vec3(a.x + (b.x - a.x) * s, a.y + (b.y - a.y) * s, a.z + (b.z - a.z) * s)
  }

  /** `Vector3.Lerp(a, b, t)`: the factor is first clamped into `[0, 1]`. */
  function Lerp(a: Vec3, b: Vec3, t: real): Vec3
  {
    LerpUnclamped(a, b, Mathf.Clamp01(t))
  }

  /** The point `a + (b - a) * s` is `a` moved the fraction `s` of the way towards
      `b`, so what remains to `b` is the fraction `1 - s` of the original offset. */
  lemma LerpUnclampedOffsets(a: Vec3, b: Vec3, s: real)
    ensures Sub(LerpUnclamped(a, b, s), a) == Scale(Sub(b, a), s)
    ensures Sub(LerpUnclamped(a, b, s), b) == Scale(Sub(a, b), 1.0 - s)
  {
  }

  /** The interpolated point lies on the segment from `a` to `b`: it is `a` moved a
      fraction `Clamp01(t)` of the way towards `b`, so what remains to `b` is the
      fraction `1 - Clamp01(t)` of the original offset, pointing the same way; a
      factor at or below 0 stays at `a`, one at or above 1 lands on `b`. */
  lemma LerpTowards(a: Vec3, b: Vec3, t: real)
    ensures Sub(Lerp(a, b, t), a) == Scale(Sub(b, a), Mathf.Clamp01(t))
    ensures Sub(Lerp(a, b, t), b) == Scale(Sub(a, b), 1.0 - Mathf.Clamp01(t))
    ensures t <= 0.0 ==> Lerp(a, b, t) == a
    ensures 1.0 <= t ==> Lerp(a, b, t) == b
  {
  }

  /** What remains of the way to the goal after one interpolation: the squared
      distance to `b` is the old one times `(1 - s)^2`, and the squared distance
      covered from `a` is the old one times `s^2`, where `s = Clamp01(t)`. */
  lemma LerpSqrDistances(a: Vec3, b: Vec3, t: real)
    ensures SqrDistance(Lerp(a, b, t), b)
         == (1.0 - Mathf.Clamp01(t)) * (1.0 - Mathf.Clamp01(t)) * SqrDistance(a, b)
    ensures SqrDistance(Lerp(a, b, t), a)
         == Mathf.Clamp01(t) * Mathf.Clamp01(t) * SqrDistance(a, b)
  {
    var s := Mathf.Clamp01(t);
    var r := LerpUnclamped(a, b, s);
    LerpUnclampedOffsets(a, b, s);
    SqrDistanceOfOffset(r, b, Sub(a, b), 1.0 - s);
    SqrDistanceOfOffset(r, a, Sub(b, a), s);
    SqrMagnitudeNeg(a, b);
  }

  lemma SqrDistanceOfOffset(p: Vec3, q: Vec3, v: Vec3, k: real)
    requires Sub(p, q) == Scale(v, k)
    ensures SqrDistance(p, q) == k * k * SqrMagnitude(v)
  {
    SqrMagnitudeScale(v, k);
  }

  /** Interpolation brings the point no further from the goal: the squared distance
      to `b` never grows, and shrinks strictly when the goal is not yet reached and
      the factor is positive; the point is also no further from `a` than `b` is.
      That it lies on the segment from `a` to `b` is `LerpTowards`. */
  lemma LerpNoOvershoot(a: Vec3, b: Vec3, t: real)
    ensures SqrDistance(Lerp(a, b, t), b) <= SqrDistance(a, b)
    ensures SqrDistance(Lerp(a, b, t), a) <= SqrDistance(a, b)
    ensures 0.0 < SqrDistance(a, b) && 0.0 < t ==> SqrDistance(Lerp(a, b, t), b) < SqrDistance(a, b)
  {
    var s := Mathf.Clamp01(t);
    LerpSqrDistances(a, b, t);
    FactorShrinks(1.0 - s, SqrDistance(a, b), SqrDistance(Lerp(a, b, t), b));
    FactorShrinks(s, SqrDistance(a, b), SqrDistance(Lerp(a, b, t), a));
  }

  lemma SqrMagnitudeNeg(a: Vec3, b: Vec3)
    ensures SqrMagnitude(Sub(b, a)) == SqrMagnitude(Sub(a, b))
  {
  }

  /** A quantity `x` that is a non-negative `d` scaled by the square of a factor in
      `[0, 1]` is no larger than `d`, and strictly smaller when the factor is below 1
      and `d` is positive. */
  lemma FactorShrinks(f: real, d: real, x: real)
    requires 0.0 <= f <= 1.0
    requires 0.0 <= d
    requires x == f * f * d
    ensures x <= d
    ensures f < 1.0 && 0.0 < d ==> x < d
  {
    var ff := f * f;
    assert 0.0 <= ff <= 1.0 by {
      assert f * f <= f * 1.0;
    }
    assert x == ff * d;
    assert ff * d <= 1.0 * d;
    if f < 1.0 && 0.0 < d {
      assert ff < 1.0 by {
        assert f * f <= f * 1.0;
      }
      assert ff * d < 1.0 * d;
    }
  }

}
