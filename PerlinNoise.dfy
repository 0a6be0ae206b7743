/**
 * Perlin (gradient) noise (`NOISE_PERLIN__noise__f32` and its 2-D, 3-D and
 * 4-D variants).  Each lattice corner draws a random value `r` (a vector in
 * more than one dimension) and turns it into a gradient `-1 + 2r`; the noise
 * blends the corners' `dot(gradient, offset from corner)` with
 * `mix_hermite` and maps the result by `0.5 + 0.5 x`.
 */
module PerlinNoise {
  import opened Mix
  import V = Vectors

  function Gradient(r: real): real { -1.0 + 2.0 * r }
  function Gradient2(r: Vec2): Vec2 { Vec2(Gradient(r.x), Gradient(r.y)) }
  function Gradient3(r: V.Vec3): V.Vec3 { V.Vec3(Gradient(r.x), Gradient(r.y), Gradient(r.z)) }
  function Gradient4(r: Vec4): Vec4 { Vec4(Gradient(r.x), Gradient(r.y), Gradient(r.z), Gradient(r.w)) }

  function Sub2(a: Vec2, b: Vec2): Vec2 { Vec2(a.x - b.x, a.y - b.y) }
  function Sub4(a: Vec4, b: Vec4): Vec4 { Vec4(a.x - b.x, a.y - b.y, a.z - b.z, a.w - b.w) }
  function Dot2(a: Vec2, b: Vec2): real { a.x * b.x + a.y * b.y }
  function Dot4(a: Vec4, b: Vec4): real { a.x * b.x + a.y * b.y + a.z * b.z + a.w * b.w }

  /** The last step shared by every dimension: `0.5 + 0.5 x`. */
  function Output(x: real): real { 0.5 + 0.5 * x }

  /** One lattice cell `[i, i + 1]` of 1-D Perlin noise, at offset `f` into it. */
  function Cell1(random: real -> real, i: real, f: real): real {
    Blend1(Gradient(random(i)), Gradient(random(i + 1.0)), f)
  }

  /** The gradients `v0`, `v1` at the cell's ends, each dotted with the offset from its end, blended. */
  function Blend1(v0: real, v1: real, f: real): real {
    Output(MixHermite(v0 * f, v1 * (f - 1.0), f))
  }

  /** `NOISE_PERLIN__noise__f32`. */
  function Noise1(random: real -> real, pos: real): real {
    Cell1(random, Floor(pos), Fract(pos))
  }

  /** The contribution of the corner at offset `c` from the cell origin. */
  function Corner2(random: Vec2 -> Vec2, i: Vec2, f: Vec2, c: Vec2): real {
    Dot2(Gradient2(random(Add2(i, c))), Sub2(f, c))
  }

  /** `NOISE_PERLIN__noise2d__f32`; the corner at the origin is written `random(i)`, as in WGSL. */
  function Noise2(random: Vec2 -> Vec2, pos: Vec2): real {
    var i := Floor2(pos);
    var f := Fract2(pos);
    Output(MixHermite(
      MixHermite(Dot2(Gradient2(random(i)), f), Corner2(random, i, f, Vec2(1.0, 0.0)), f.x),
      MixHermite(Corner2(random, i, f, Vec2(0.0, 1.0)), Corner2(random, i, f, Vec2(1.0, 1.0)), f.x),
      f.y))
  }

  function Corner3(random: V.Vec3 -> V.Vec3, i: V.Vec3, f: V.Vec3, c: V.Vec3): real {
    V.Dot(Gradient3(random(V.Add(i, c))), V.Sub(f, c))
  }

  /** `NOISE_PERLIN__noise3d__f32`. */
  function Noise3(random: V.Vec3 -> V.Vec3, pos: V.Vec3): real {
    var i := Floor3(pos);
    var f := Fract3(pos);
    Output(MixHermite(
      MixHermite(
        MixHermite(V.Dot(Gradient3(random(i)), f), Corner3(random, i, f, V.Vec3(1.0, 0.0, 0.0)), f.x),
        MixHermite(Corner3(random, i, f, V.Vec3(0.0, 1.0, 0.0)), Corner3(random, i, f, V.Vec3(1.0, 1.0, 0.0)), f.x),
        f.y),
      MixHermite(
        MixHermite(Corner3(random, i, f, V.Vec3(0.0, 0.0, 1.0)), Corner3(random, i, f, V.Vec3(1.0, 0.0, 1.0)), f.x),
        MixHermite(Corner3(random, i, f, V.Vec3(0.0, 1.0, 1.0)), Corner3(random, i, f, V.Vec3(1.0, 1.0, 1.0)), f.x),
        f.y),
      f.z))
  }

  function Corner4(random: Vec4 -> Vec4, i: Vec4, f: Vec4, c: Vec4): real {
    Dot4(Gradient4(random(Add4(i, c))), Sub4(f, c))
  }

  /** The blend of the four corners `(0|1, 0|1, z, w)` of a 4-D cell. */
  function Face4(random: Vec4 -> Vec4, i: Vec4, f: Vec4, z: real, w: real): real {
    MixHermite(
      MixHermite(Corner4(random, i, f, Vec4(0.0, 0.0, z, w)), Corner4(random, i, f, Vec4(1.0, 0.0, z, w)), f.x),
      MixHermite(Corner4(random, i, f, Vec4(0.0, 1.0, z, w)), Corner4(random, i, f, Vec4(1.0, 1.0, z, w)), f.x),
      f.y)
  }

  /**
   * `NOISE_PERLIN__noise4d__f32`.  The WGSL writes the origin corner as
   * `dot(v0000, fPos)`, which is `Corner4` at offset zero.
   */
  function Noise4(random: Vec4 -> Vec4, pos: Vec4): real {
    var i := Floor4(pos);
    var f := Fract4(pos);
    Output(MixHermite(
      MixHermite(Face4(random, i, f, 0.0, 0.0), Face4(random, i, f, 1.0, 0.0), f.z),
      MixHermite(Face4(random, i, f, 0.0, 1.0), Face4(random, i, f, 1.0, 1.0), f.z),
      f.w))
  }

  /** A random value in `[0, 1]` gives a gradient in `[-1, 1]`. */
  lemma GradientRange(r: real)
    requires InUnit(r)
    ensures -1.0 <= Gradient(r) <= 1.0
  {
  }

  /** At an integer argument 1-D Perlin noise is exactly 0.5. */
  lemma Noise1AtLattice(random: real -> real, n: int)
    ensures Noise1(random, n as real) == 0.5
  {
    LatticePoint(n);
    MixHermiteEnds(Gradient(random(n as real)) * 0.0, Gradient(random(n as real + 1.0)) * -1.0);
  }

  /** The cell formula at `f = 1` is also 0.5, the value at the next integer. */
  lemma Noise1Continuous(random: real -> real, n: int)
    ensures Cell1(random, n as real, 1.0) == 0.5 == Noise1(random, (n + 1) as real)
  {
    MixHermiteEnds(Gradient(random(n as real)) * 1.0, Gradient(random(n as real + 1.0)) * 0.0);
    Noise1AtLattice(random, n + 1);
  }

  /** With random values in `[0, 1]`, 1-D Perlin noise lies in `[0, 1]`. */
  lemma Noise1InUnit(random: real -> real, pos: real)
    requires forall p :: InUnit(random(p))
    ensures InUnit(Noise1(random, pos))
  {
    var i := Floor(pos);
    assert InUnit(random(i)) && InUnit(random(i + 1.0));
    CellInUnit(random, i, Fract(pos));
  }

  lemma CellInUnit(random: real -> real, i: real, f: real)
    requires InUnit(random(i)) && InUnit(random(i + 1.0)) && InUnit(f)
    ensures InUnit(Cell1(random, i, f))
  {
    GradientRange(random(i));
    GradientRange(random(i + 1.0));
    CellValuesInUnit(Gradient(random(i)), Gradient(random(i + 1.0)), f);
  }

  /** The cell formula with gradients in `[-1, 1]` at offset `f` in `[0, 1]`. */
  lemma CellValuesInUnit(v0: real, v1: real, f: real)
    requires -1.0 <= v0 <= 1.0 && -1.0 <= v1 <= 1.0 && InUnit(f)
    ensures InUnit(Blend1(v0, v1, f))
  {
    BoundedProduct(v0, f);
    BoundedProduct(v1, f - 1.0);
    MixHermiteWithin(v0 * f, v1 * (f - 1.0), f, -1.0, 1.0);
    OutputInUnit(MixHermite(v0 * f, v1 * (f - 1.0), f));
  }

  lemma OutputInUnit(x: real)
    requires -1.0 <= x <= 1.0
    ensures InUnit(Output(x))
  {
  }

  /** `|v| <= 1` and `|f| <= 1` give `|v f| <= 1`. */
  lemma BoundedProduct(v: real, f: real)
    requires -1.0 <= v <= 1.0 && -1.0 <= f <= 1.0
    ensures -1.0 <= v * f <= 1.0
  {
    if 0.0 <= v && 0.0 <= f {
      UnitProducts(v, f);
    } else if v < 0.0 && 0.0 <= f {
      UnitProducts(-v, f);
      assert (-v) * f == -(v * f);
    } else if 0.0 <= v {
      UnitProducts(v, -f);
      assert v * (-f) == -(v * f);
    } else {
      UnitProducts(-v, -f);
      assert (-v) * (-f) == v * f;
    }
  }

  lemma Noise2AtLattice(random: Vec2 -> Vec2, m: int, n: int)
    ensures Noise2(random, Vec2(m as real, n as real)) == 0.5
  {
    var p := Vec2(m as real, n as real);
    LatticePoint(m);
    LatticePoint(n);
    assert Fract2(p) == Vec2(0.0, 0.0);
    assert Floor2(p) == p;
    HermiteEnds();
  }

  lemma Noise3AtLattice(random: V.Vec3 -> V.Vec3, l: int, m: int, n: int)
    ensures Noise3(random, V.Vec3(l as real, m as real, n as real)) == 0.5
  {
    var p := V.Vec3(l as real, m as real, n as real);
    LatticePoint(l);
    LatticePoint(m);
    LatticePoint(n);
    var f := Fract3(p);
    assert f == V.Zero;
    assert Floor3(p) == p;
    var a := V.Dot(Gradient3(random(p)), f);
    assert a == 0.0;
    var b := Corner3(random, p, f, V.Vec3(1.0, 0.0, 0.0));
    var c := MixHermite(Corner3(random, p, f, V.Vec3(0.0, 1.0, 0.0)), Corner3(random, p, f, V.Vec3(1.0, 1.0, 0.0)), f.x);
    MixHermiteEnds(a, b);
    MixHermiteEnds(MixHermite(a, b, f.x), c);
    var lower := MixHermite(MixHermite(a, b, f.x), c, f.y);
    var upper := MixHermite(
        MixHermite(Corner3(random, p, f, V.Vec3(0.0, 0.0, 1.0)), Corner3(random, p, f, V.Vec3(1.0, 0.0, 1.0)), f.x),
        MixHermite(Corner3(random, p, f, V.Vec3(0.0, 1.0, 1.0)), Corner3(random, p, f, V.Vec3(1.0, 1.0, 1.0)), f.x),
        f.y);
    MixHermiteEnds(lower, upper);
    assert Noise3(random, p) == Output(MixHermite(lower, upper, f.z));
  }

  lemma Noise4AtLattice(random: Vec4 -> Vec4, k: int, l: int, m: int, n: int)
    ensures Noise4(random, Vec4(k as real, l as real, m as real, n as real)) == 0.5
  {
    var p := Vec4(k as real, l as real, m as real, n as real);
    LatticePoint(k);
    LatticePoint(l);
    LatticePoint(m);
    LatticePoint(n);
    var f := Fract4(p);
    assert f == Vec4(0.0, 0.0, 0.0, 0.0);
    assert Floor4(p) == p;
    FaceAtOrigin(random, p, f);
    var lower := MixHermite(Face4(random, p, f, 0.0, 0.0), Face4(random, p, f, 1.0, 0.0), f.z);
    var upper := MixHermite(Face4(random, p, f, 0.0, 1.0), Face4(random, p, f, 1.0, 1.0), f.z);
    MixHermiteEnds(Face4(random, p, f, 0.0, 0.0), Face4(random, p, f, 1.0, 0.0));
    MixHermiteEnds(lower, upper);
    assert Noise4(random, p) == Output(MixHermite(lower, upper, f.w));
  }

  lemma FaceAtOrigin(random: Vec4 -> Vec4, i: Vec4, f: Vec4)
    requires f == Vec4(0.0, 0.0, 0.0, 0.0)
    ensures Face4(random, i, f, 0.0, 0.0) == 0.0
  {
    var a := Corner4(random, i, f, Vec4(0.0, 0.0, 0.0, 0.0));
    assert a == 0.0;
    var b := Corner4(random, i, f, Vec4(1.0, 0.0, 0.0, 0.0));
    var c := MixHermite(Corner4(random, i, f, Vec4(0.0, 1.0, 0.0, 0.0)), Corner4(random, i, f, Vec4(1.0, 1.0, 0.0, 0.0)), 0.0);
    MixHermiteEnds(a, b);
    MixHermiteEnds(MixHermite(a, b, 0.0), c);
  }
}
