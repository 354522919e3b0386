/**
 * Three-component vectors over the reals and the two interpolation
 * primitives the viewer uses from three.js: `Vector3.lerp`/`lerpVectors`
 * and `MathUtils.smoothstep(x, 0, 1)`. Reals stand in for IEEE doubles, so
 * nothing here says anything about rounding.
 */
module Vectors {

  datatype Vec3 = Vec3(x: real, y: real, z: real)

  const Zero: Vec3 := Vec3(0.0, 0.0, 0.0)

  function Add(a: Vec3, b: Vec3): Vec3
  {
    Vec3(a.x + b.x, a.y + b.y, a.z + b.z)
  }

  function Scale(k: real, a: Vec3): Vec3
  {
    Vec3(k * a.x, k * a.y, k * a.z)
  }

  /** three.js `a + (b - a) * t` on one component. */
  function LerpScalar(a: real, b: real, t: real): real
  {
    a + (b - a) * t
  }

  /** three.js `Vector3.lerpVectors(a, b, t)`, also what `a.lerp(b, t)` stores into `a`. */
  function Lerp(a: Vec3, b: Vec3, t: real): Vec3
  {
    Vec3(LerpScalar(a.x, b.x, t), LerpScalar(a.y, b.y, t), LerpScalar(a.z, b.z, t))
  }

  /** Squared Euclidean distance (the square root is monotone, so comparisons carry over). */
  function DistSq(a: Vec3, b: Vec3): real
  {
    (a.x - b.x) * (a.x - b.x) + (a.y - b.y) * (a.y - b.y) + (a.z - b.z) * (a.z - b.z)
  }

  /** The point `p` lies on the closed segment from `a` to `b`. */
  ghost predicate OnSegment(a: Vec3, b: Vec3, p: Vec3)
  {
    exists t :: 0.0 <= t <= 1.0 && p == Lerp(a, b, t)
  }

  /**
   * `MathUtils.smoothstep(x, 0, 1)`: 0 at or below 0, 1 at or above 1, and the
   * cubic x*x*(3 - 2x) in between. The eased value always lies in [0, 1].
   */
  function Smoothstep(x: real): (r: real)
    ensures 0.0 <= r <= 1.0
    ensures x <= 0.0 ==> r == 0.0
    ensures x >= 1.0 ==> r == 1.0
  {
    if x <= 0.0 then 0.0
    else if x >= 1.0 then 1.0
    else
      CubicInUnitRange(x);
      x * x * (3.0 - 2.0 * x)
  }

  lemma CubicInUnitRange(x: real)
    requires 0.0 < x < 1.0
    ensures 0.0 <= x * x * (3.0 - 2.0 * x) <= 1.0
  {
    SquareNonNeg(x);
    MulNonNeg(x * x, 3.0 - 2.0 * x);
    SquareNonNeg(1.0 - x);
    MulNonNeg((1.0 - x) * (1.0 - x), 1.0 + 2.0 * x);
    assert 1.0 - x * x * (3.0 - 2.0 * x) == (1.0 - x) * (1.0 - x) * (1.0 + 2.0 * x);
  }

  lemma SquareNonNeg(p: real)
    ensures p * p >= 0.0
  {
    if p < 0.0 {
      MulNonNeg(-p, -p);
    } else {
      MulNonNeg(p, p);
    }
  }

  /** The eased curve never runs backwards. */
  lemma SmoothstepMonotone(a: real, b: real)
    requires a <= b
    ensures Smoothstep(a) <= Smoothstep(b)
  {
    if 0.0 < a && b < 1.0 {
      CubicMonotone(a, b);
    }
  }

  lemma CubicMonotone(a: real, b: real)
    requires 0.0 < a <= b < 1.0
    ensures a * a * (3.0 - 2.0 * a) <= b * b * (3.0 - 2.0 * b)
  {
    // b²(3-2b) - a²(3-2a) = (b-a) * (3(a+b) - 2(a²+ab+b²)), and the second factor is >= 0 on [0,1].
    var aa, ab, bb := a * a, a * b, b * b;
    MulAtMost(a, a);
    MulAtMost(b, b);
    MulAtMost(b, a);
    assert b * a == ab;
    SlopeFactorNonNeg(a, b, aa, ab, bb);
    MulNonNeg(b - a, 3.0 * (a + b) - 2.0 * (aa + ab + bb));
    CubicDifference(a, b);
  }

  lemma CubicDifference(a: real, b: real)
    ensures b * b * (3.0 - 2.0 * b) - a * a * (3.0 - 2.0 * a)
         == (b - a) * (3.0 * (a + b) - 2.0 * (a * a + a * b + b * b))
  {
  }

  lemma SlopeFactorNonNeg(a: real, b: real, aa: real, ab: real, bb: real)
    requires 0.0 < a <= b < 1.0
    requires aa <= a && bb <= b && ab <= a
    ensures 3.0 * (a + b) - 2.0 * (aa + ab + bb) >= 0.0
  {
  }

  lemma MulNonNeg(p: real, q: real)
    requires p >= 0.0 && q >= 0.0
    ensures p * q >= 0.0
  {
  }

  /** Interpolating with weight t leaves exactly the fraction (1 - t) of the distance to `b`. */
  lemma LerpDistanceToEnd(a: Vec3, b: Vec3, t: real)
    ensures DistSq(Lerp(a, b, t), b) == (1.0 - t) * (1.0 - t) * DistSq(a, b)
  {
    LerpScalarToEnd(a.x, b.x, t);
    LerpScalarToEnd(a.y, b.y, t);
    LerpScalarToEnd(a.z, b.z, t);
  }

  lemma LerpScalarToEnd(a: real, b: real, t: real)
    ensures (LerpScalar(a, b, t) - b) * (LerpScalar(a, b, t) - b) == (1.0 - t) * (1.0 - t) * ((a - b) * (a - b))
  {
    assert LerpScalar(a, b, t) - b == (a - b) * (1.0 - t);
  }

  lemma DistSqNonNeg(a: Vec3, b: Vec3)
    ensures DistSq(a, b) >= 0.0
  {
    SquareNonNeg(a.x - b.x);
    SquareNonNeg(a.y - b.y);
    SquareNonNeg(a.z - b.z);
  }

  /** Moving the weight towards 1 never moves the interpolated point away from `b`. */
  lemma LerpApproachesEnd(a: Vec3, b: Vec3, t1: real, t2: real)
    requires 0.0 <= t1 <= t2 <= 1.0
    ensures DistSq(Lerp(a, b, t2), b) <= DistSq(Lerp(a, b, t1), b)
  {
    LerpDistanceToEnd(a, b, t1);
    LerpDistanceToEnd(a, b, t2);
    var d := DistSq(a, b);
    DistSqNonNeg(a, b);
    assert 0.0 <= 1.0 - t2 <= 1.0 - t1;
    var p, q := 1.0 - t2, 1.0 - t1;
    SquareMono(p, q);
    MulMono(p * p, q * q, d);
  }

  lemma MulAtMost(p: real, k: real)
    requires p <= 1.0 && k >= 0.0
    ensures p * k <= k
  {
    MulNonNeg(1.0 - p, k);
    assert (1.0 - p) * k == k - p * k;
  }

  lemma SquareMono(p: real, q: real)
    requires 0.0 <= p <= q
    ensures p * p <= q * q
  {
    MulMono(p, q, p);
    MulMono(p, q, q);
    assert q * p == p * q;
  }

  lemma MulMono(p: real, q: real, k: real)
    requires p <= q && k >= 0.0
    ensures p * k <= q * k
  {
    MulNonNeg(q - p, k);
  }
}
