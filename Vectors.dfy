/**
 * Three-component real vectors as used by the Babylon.js `Vector3` class.
 *
 * Babylon computes a length with `Math.sqrt`; the model receives the square
 * root as a parameter `sqrt` that is only assumed to be a square root on the
 * non-negative reals (`IsSqrt`).  Everything else is exact real arithmetic.
 */
module Vectors {
  datatype Vec3 = Vec3(x: real, y: real, z: real)

  const Zero := Vec3(0.0, 0.0, 0.0)

  /** `new Ray(origin, direction, length)`. */
  datatype Ray = Ray(origin: Vec3, direction: Vec3, length: real)

  function Add(a: Vec3, b: Vec3): Vec3 { Vec3(a.x + b.x, a.y + b.y, a.z + b.z) }
  function Sub(a: Vec3, b: Vec3): Vec3 { Vec3(a.x - b.x, a.y - b.y, a.z - b.z) }
  function Scale(a: Vec3, s: real): Vec3 { Vec3(a.x * s, a.y * s, a.z * s) }
  function Dot(a: Vec3, b: Vec3): real { a.x * b.x + a.y * b.y + a.z * b.z }
  function Cross(a: Vec3, b: Vec3): Vec3 {
    Vec3(a.y * b.z - a.z * b.y, a.z * b.x - a.x * b.z, a.x * b.y - a.y * b.x)
  }
  function LengthSquared(a: Vec3): real { Dot(a, a) }

  /** `sqrt` returns the non-negative square root of every non-negative real. */
  ghost predicate IsSqrt(sqrt: real -> real) {
    forall x: real {:trigger sqrt(x)} :: 0.0 <= x ==> 0.0 <= sqrt(x) && sqrt(x) * sqrt(x) == x
  }

  /** `Vector3.length()`. */
  function Length(sqrt: real -> real, a: Vec3): real { sqrt(LengthSquared(a)) }

  /** `Vector3.normalize()`: a vector of length 0 is returned unchanged. */
  function Normalize(sqrt: real -> real, a: Vec3): Vec3 {
    var len := Length(sqrt, a);
    if len == 0.0 then a else Scale(a, 1.0 / len)
  }

  /** `b` is a positive multiple of `a`, stated without an existential. */
  predicate SameDirection(a: Vec3, b: Vec3) {
    Cross(a, b) == Zero && Dot(a, b) > 0.0
  }

  lemma PositiveProduct(d: real, t: real)
    requires 0.0 < d && 0.0 < t
    ensures 0.0 < d * t
  {
  }

  lemma SquareNonNegative(x: real)
    ensures x * x >= 0.0
  {
    if x < 0.0 {
      var y := -x;
      assert y * y == x * x;
    }
  }

  lemma SquarePositive(x: real)
    requires x != 0.0
    ensures x * x > 0.0
  {
    if x < 0.0 {
      var y := -x;
      assert y * y == x * x;
    }
  }

  lemma LengthSquaredNonNegative(a: Vec3)
    ensures LengthSquared(a) >= 0.0
  {
    SquareNonNegative(a.x);
    SquareNonNegative(a.y);
    SquareNonNegative(a.z);
  }

  lemma SquareRootUnique(r: real, s: real)
    requires 0.0 <= r && 0.0 <= s && r * r == s * s
    ensures r == s
  {
    assert (r - s) * (r + s) == r * r - s * s;
    if r > s {
      PositiveProduct(r - s, r + s);
    } else if r < s {
      assert (s - r) * (r + s) == s * s - r * r;
      PositiveProduct(s - r, r + s);
    }
  }

  lemma SqrtOfSquare(sqrt: real -> real, s: real, q: real)
    requires IsSqrt(sqrt) && 0.0 <= s && s * s == q
    ensures sqrt(q) == s
  {
    SquareNonNegative(s);
    SquareRootUnique(sqrt(q), s);
  }

  lemma LengthNonNegative(sqrt: real -> real, a: Vec3)
    requires IsSqrt(sqrt)
    ensures Length(sqrt, a) >= 0.0
    ensures Length(sqrt, a) * Length(sqrt, a) == LengthSquared(a)
  {
    LengthSquaredNonNegative(a);
    assert 0.0 <= LengthSquared(a);
  }

  /** A vector has length 0 exactly when its squared length is 0. */
  lemma LengthZero(sqrt: real -> real, a: Vec3)
    requires IsSqrt(sqrt)
    ensures Length(sqrt, a) == 0.0 <==> LengthSquared(a) == 0.0
  {
    LengthNonNegative(sqrt, a);
    if LengthSquared(a) == 0.0 {
      SqrtOfSquare(sqrt, 0.0, LengthSquared(a));
    }
  }

  /** The distance from `a` to `b` is the distance from `b` to `a`. */
  lemma LengthSubSymmetric(sqrt: real -> real, a: Vec3, b: Vec3)
    ensures Length(sqrt, Sub(a, b)) == Length(sqrt, Sub(b, a))
  {
    assert LengthSquared(Sub(a, b)) == LengthSquared(Sub(b, a));
  }

  lemma SubSelf(a: Vec3)
    ensures Sub(a, a) == Zero
  {
  }

  /** The zero vector normalizes to itself; scaling it gives it back. */
  lemma NormalizeZero(sqrt: real -> real, k: real)
    ensures Normalize(sqrt, Zero) == Zero && Scale(Zero, k) == Zero
  {
    var len := Length(sqrt, Zero);
    if len != 0.0 {
      assert Scale(Zero, 1.0 / len) == Zero;
    }
  }

  lemma LengthSquaredOfScale(a: Vec3, k: real)
    ensures LengthSquared(Scale(a, k)) == (k * k) * LengthSquared(a)
  {
  }

  lemma LengthOfScale(sqrt: real -> real, a: Vec3, k: real)
    requires IsSqrt(sqrt) && 0.0 <= k
    ensures Length(sqrt, Scale(a, k)) == k * Length(sqrt, a)
  {
    LengthNonNegative(sqrt, a);
    var l := Length(sqrt, a);
    var ls := LengthSquared(a);
    assert ls == l * l;
    LengthSquaredOfScale(a, k);
    assert LengthSquared(Scale(a, k)) == (k * k) * ls;
    assert (k * k) * ls == (k * k) * (l * l);
    Reassociate(k, l);
    assert LengthSquared(Scale(a, k)) == (k * l) * (k * l);
    PositiveOrZeroProduct(k, l);
    SqrtOfSquare(sqrt, k * l, LengthSquared(Scale(a, k)));
  }

  lemma Reassociate(k: real, l: real)
    ensures (k * k) * (l * l) == (k * l) * (k * l)
  {
  }

  lemma PositiveOrZeroProduct(k: real, l: real)
    requires 0.0 <= k && 0.0 <= l
    ensures 0.0 <= k * l
  {
  }

  lemma ScaleSameDirection(a: Vec3, k: real)
    requires 0.0 < LengthSquared(a) && 0.0 < k
    ensures SameDirection(Scale(a, k), a) && SameDirection(a, Scale(a, k))
  {
    assert Dot(Scale(a, k), a) == k * LengthSquared(a);
    PositiveProduct(k, LengthSquared(a));
  }

  /**
   * Scaling a normalized vector of nonzero length by `s >= 0` gives a vector
   * of length `s`, pointing the original way when `s > 0`.
   */
  lemma ScaledNormal(sqrt: real -> real, a: Vec3, s: real)
    requires IsSqrt(sqrt) && Length(sqrt, a) != 0.0 && 0.0 <= s
    ensures Length(sqrt, Scale(Normalize(sqrt, a), s)) == s
    ensures 0.0 < s ==> SameDirection(Scale(Normalize(sqrt, a), s), a)
  {
    var l := Length(sqrt, a);
    var k := s / l;
    ScaledNormalIsScale(sqrt, a, s);
    LengthNonNegative(sqrt, a);
    LengthOfScale(sqrt, a, k);
    DivideMultiply(s, l);
    if 0.0 < s {
      LengthZero(sqrt, a);
      LengthSquaredNonNegative(a);
      ScaleSameDirection(a, k);
    }
  }

  /** A vector of nonzero length normalizes to a unit vector pointing its way. */
  lemma NormalizeUnit(sqrt: real -> real, a: Vec3)
    requires IsSqrt(sqrt) && Length(sqrt, a) != 0.0
    ensures Length(sqrt, Normalize(sqrt, a)) == 1.0 && SameDirection(Normalize(sqrt, a), a)
  {
    ScaledNormal(sqrt, a, 1.0);
    assert Scale(Normalize(sqrt, a), 1.0) == Normalize(sqrt, a);
  }

  lemma ScaledNormalIsScale(sqrt: real -> real, a: Vec3, s: real)
    requires Length(sqrt, a) != 0.0
    ensures Scale(Normalize(sqrt, a), s) == Scale(a, s / Length(sqrt, a))
  {
  }

  lemma DivideMultiply(s: real, l: real)
    requires l != 0.0
    ensures (s / l) * l == s
    ensures 0.0 <= s && 0.0 < l ==> 0.0 <= s / l
    ensures 0.0 < s && 0.0 < l ==> 0.0 < s / l
  {
  }
}
