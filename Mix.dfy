/**
 * The WGSL `mix` library: Hermite smoothstep `t*t*(3 - 2t)` and
 * `mix_hermite(a, b, t) = mix(a, b, hermite(t))`, where WGSL's built-in
 * `mix(a, b, s)` is `a*(1 - s) + b*s`.  `f32` is modelled as `real`.
 */
module Mix {
  import Vectors

  /** WGSL `vec2<f32>` and `vec4<f32>`; `vec3<f32>` is `Vectors.Vec3`. */
  datatype Vec2 = Vec2(x: real, y: real)
  datatype Vec4 = Vec4(x: real, y: real, z: real, w: real)

  /** WGSL `floor` and `fract` on `f32`. */
  function Floor(x: real): real { x.Floor as real }
  function Fract(x: real): (r: real)
    ensures 0.0 <= r < 1.0
  {
    x - Floor(x)
  }

  /** WGSL vector addition and the component-wise `floor` / `fract`. */
  function Add2(a: Vec2, b: Vec2): Vec2 { Vec2(a.x + b.x, a.y + b.y) }
  function Add4(a: Vec4, b: Vec4): Vec4 { Vec4(a.x + b.x, a.y + b.y, a.z + b.z, a.w + b.w) }

  function Floor2(p: Vec2): Vec2 { Vec2(Floor(p.x), Floor(p.y)) }
  function Fract2(p: Vec2): Vec2 { Vec2(Fract(p.x), Fract(p.y)) }
  function Floor3(p: Vectors.Vec3): Vectors.Vec3 { Vectors.Vec3(Floor(p.x), Floor(p.y), Floor(p.z)) }
  function Fract3(p: Vectors.Vec3): Vectors.Vec3 { Vectors.Vec3(Fract(p.x), Fract(p.y), Fract(p.z)) }
  function Floor4(p: Vec4): Vec4 { Vec4(Floor(p.x), Floor(p.y), Floor(p.z), Floor(p.w)) }
  function Fract4(p: Vec4): Vec4 { Vec4(Fract(p.x), Fract(p.y), Fract(p.z), Fract(p.w)) }

  /** `fract` of an integer is 0 and `floor` is the integer itself. */
  lemma LatticePoint(n: int)
    ensures Floor(n as real) == n as real && Fract(n as real) == 0.0
  {
  }

  function Hermite(t: real): real { t * t * (3.0 - 2.0 * t) }

  /** WGSL built-in `mix` on scalars. */
  function Lerp(a: real, b: real, s: real): real { a * (1.0 - s) + b * s }

  function MixHermite(a: real, b: real, t: real): real { Lerp(a, b, Hermite(t)) }

  /** `x` lies in the closed interval spanned by `a` and `b`, whichever is larger. */
  predicate Between(x: real, a: real, b: real) {
    (a <= x <= b) || (b <= x <= a)
  }

  predicate InUnit(x: real) { 0.0 <= x <= 1.0 }

  lemma NonNegativeProduct(p: real, q: real)
    requires 0.0 <= p && 0.0 <= q
    ensures 0.0 <= p * q
  {
  }

  lemma UnitProducts(p: real, q: real)
    requires InUnit(p) && InUnit(q)
    ensures p * q <= p && p * q <= q && p * p <= p && q * q <= q
  {
  }

  lemma HermiteEnds()
    ensures Hermite(0.0) == 0.0 && Hermite(1.0) == 1.0 && Hermite(0.5) == 0.5
  {
  }

  /** `hermite(1 - t) = 1 - hermite(t)`. */
  lemma HermiteSymmetric(t: real)
    ensures Hermite(1.0 - t) == 1.0 - Hermite(t)
  {
    assert Hermite(1.0 - t) == (1.0 - t) * (1.0 - t) * (1.0 + 2.0 * t);
    assert (1.0 - t) * (1.0 - t) * (1.0 + 2.0 * t) == 1.0 - 3.0 * (t * t) + 2.0 * (t * t * t);
    assert Hermite(t) == 3.0 * (t * t) - 2.0 * (t * t * t);
  }

  lemma {:induction false} HermiteInUnit(t: real)
    requires InUnit(t)
    ensures InUnit(Hermite(t))
  {
    var sq := t * t;
    NonNegativeProduct(t, t);
    NonNegativeProduct(sq, 3.0 - 2.0 * t);
    var u := 1.0 - t;
    var usq := u * u;
    NonNegativeProduct(u, u);
    NonNegativeProduct(usq, 1.0 + 2.0 * t);
    HermiteSymmetric(t);
    assert Hermite(u) == usq * (1.0 + 2.0 * t);
  }

  /** `hermite` is non-decreasing on `[0, 1]`. */
  lemma {:induction false} HermiteMonotone(t: real, u: real)
    requires InUnit(t) && InUnit(u) && t <= u
    ensures Hermite(t) <= Hermite(u)
  {
    HermiteDifference(t, u);
    SlopeNonNegative(t, u);
    NonNegativeProduct(u - t, Slope(t, u));
  }

  function Slope(t: real, u: real): real { 3.0 * (u + t) - 2.0 * (u * u + u * t + t * t) }

  lemma HermiteDifference(t: real, u: real)
    ensures Hermite(u) - Hermite(t) == (u - t) * Slope(t, u)
  {
  }

  lemma SlopeNonNegative(t: real, u: real)
    requires InUnit(t) && InUnit(u)
    ensures 0.0 <= Slope(t, u)
  {
    UnitProducts(u, t);
    SlopeLinear(u, t, u * u, u * t, t * t);
  }

  lemma SlopeLinear(u: real, t: real, uu: real, ut: real, tt: real)
    requires uu <= u && tt <= t && ut <= u && ut <= t
    ensures 0.0 <= 3.0 * (u + t) - 2.0 * (uu + ut + tt)
  {
  }

  lemma LerpEnds(a: real, b: real)
    ensures Lerp(a, b, 0.0) == a && Lerp(a, b, 1.0) == b
  {
  }

  /** For a weight in `[0, 1]`, `mix(a, b, s)` lies between `a` and `b`. */
  lemma {:induction false} LerpBetween(a: real, b: real, s: real)
    requires InUnit(s)
    ensures Between(Lerp(a, b, s), a, b)
  {
    var r := Lerp(a, b, s);
    assert r - a == (b - a) * s;
    assert b - r == (b - a) * (1.0 - s);
    if a <= b {
      NonNegativeProduct(b - a, s);
      NonNegativeProduct(b - a, 1.0 - s);
    } else {
      NonNegativeProduct(a - b, s);
      NonNegativeProduct(a - b, 1.0 - s);
      assert a - r == (a - b) * s;
      assert r - b == (a - b) * (1.0 - s);
    }
  }

  lemma MixHermiteEnds(a: real, b: real)
    ensures MixHermite(a, b, 0.0) == a && MixHermite(a, b, 1.0) == b
  {
    HermiteEnds();
  }

  /** For `t` in `[0, 1]`, `mix_hermite(a, b, t)` lies between `a` and `b`. */
  lemma MixHermiteBetween(a: real, b: real, t: real)
    requires InUnit(t)
    ensures Between(MixHermite(a, b, t), a, b)
  {
    HermiteInUnit(t);
    LerpBetween(a, b, Hermite(t));
  }

  /** Mixing two values of `[lo, hi]` with `t` in `[0, 1]` stays in `[lo, hi]`. */
  lemma MixHermiteWithin(a: real, b: real, t: real, lo: real, hi: real)
    requires InUnit(t) && lo <= a <= hi && lo <= b <= hi
    ensures lo <= MixHermite(a, b, t) <= hi
  {
    MixHermiteBetween(a, b, t);
  }

  /** `MIX__mix_hermite__f32_2d`: the scalar weight `hermite(t)` applied to each component. */
  function MixHermite2(a: Vec2, b: Vec2, t: real): (r: Vec2)
    ensures r.x == MixHermite(a.x, b.x, t) && r.y == MixHermite(a.y, b.y, t)
  {
    var h := Hermite(t);
    Vec2(Lerp(a.x, b.x, h), Lerp(a.y, b.y, h))
  }

  /** `MIX__mix_hermite__f32_3d`. */
  function MixHermite3(a: Vectors.Vec3, b: Vectors.Vec3, t: real): (r: Vectors.Vec3)
    ensures r.x == MixHermite(a.x, b.x, t) && r.y == MixHermite(a.y, b.y, t)
    ensures r.z == MixHermite(a.z, b.z, t)
  {
    var h := Hermite(t);
    Vectors.Vec3(Lerp(a.x, b.x, h), Lerp(a.y, b.y, h), Lerp(a.z, b.z, h))
  }

  /** `MIX__mix_hermite__f32_4d`. */
  function MixHermite4(a: Vec4, b: Vec4, t: real): (r: Vec4)
    ensures r.x == MixHermite(a.x, b.x, t) && r.y == MixHermite(a.y, b.y, t)
    ensures r.z == MixHermite(a.z, b.z, t) && r.w == MixHermite(a.w, b.w, t)
  {
    var h := Hermite(t);
    Vec4(Lerp(a.x, b.x, h), Lerp(a.y, b.y, h), Lerp(a.z, b.z, h), Lerp(a.w, b.w, h))
  }

  lemma MixHermiteVectorEnds(a: Vec4, b: Vec4, p: Vec2, q: Vec2)
    ensures MixHermite2(p, q, 0.0) == p && MixHermite2(p, q, 1.0) == q
    ensures MixHermite4(a, b, 0.0) == a && MixHermite4(a, b, 1.0) == b
  {
    HermiteEnds();
  }

  lemma MixHermite3Ends(a: Vectors.Vec3, b: Vectors.Vec3)
    ensures MixHermite3(a, b, 0.0) == a && MixHermite3(a, b, 1.0) == b
  {
    HermiteEnds();
  }
}
