/**
 * Value noise (`NOISE_VALUE__noise__f32` and its 2-D, 3-D and 4-D variants):
 * the random values at the lattice corners around `pos` are blended with
 * `mix_hermite`, one axis at a time, x first.  The hash `random` is a
 * parameter; nothing is assumed about it unless a lemma says so.
 */
module ValueNoise {
  import opened Mix
  import V = Vectors

  /** One lattice cell `[i, i + 1]` of 1-D value noise, at offset `f` into it. */
  function Cell1(random: real -> real, i: real, f: real): real {
    MixHermite(random(i), random(i + 1.0), f)
  }

  /** `NOISE_VALUE__noise__f32`. */
  function Noise1(random: real -> real, pos: real): real {
    Cell1(random, Floor(pos), Fract(pos))
  }

  /** `NOISE_VALUE__noise2d__f32`. */
  function Noise2(random: Vec2 -> real, pos: Vec2): real {
    var i := Floor2(pos);
    var f := Fract2(pos);
    var v00 := random(i);
    var v10 := random(Add2(i, Vec2(1.0, 0.0)));
    var v01 := random(Add2(i, Vec2(0.0, 1.0)));
    var v11 := random(Add2(i, Vec2(1.0, 1.0)));
    MixHermite(MixHermite(v00, v10, f.x), MixHermite(v01, v11, f.x), f.y)
  }

  /** `NOISE_VALUE__noise3d__f32`. */
  function Noise3(random: V.Vec3 -> real, pos: V.Vec3): real {
    var i := Floor3(pos);
    var f := Fract3(pos);
    var v000 := random(i);
    var v100 := random(V.Add(i, V.Vec3(1.0, 0.0, 0.0)));
    var v010 := random(V.Add(i, V.Vec3(0.0, 1.0, 0.0)));
    var v110 := random(V.Add(i, V.Vec3(1.0, 1.0, 0.0)));
    var v001 := random(V.Add(i, V.Vec3(0.0, 0.0, 1.0)));
    var v101 := random(V.Add(i, V.Vec3(1.0, 0.0, 1.0)));
    var v011 := random(V.Add(i, V.Vec3(0.0, 1.0, 1.0)));
    var v111 := random(V.Add(i, V.Vec3(1.0, 1.0, 1.0)));
    MixHermite(
      MixHermite(MixHermite(v000, v100, f.x), MixHermite(v010, v110, f.x), f.y),
      MixHermite(MixHermite(v001, v101, f.x), MixHermite(v011, v111, f.x), f.y),
      f.z)
  }

  /** The 2-D blend of the four corners of one face of a 4-D cell. */
  function Face(v00: real, v10: real, v01: real, v11: real, f: Vec4): real {
    MixHermite(MixHermite(v00, v10, f.x), MixHermite(v01, v11, f.x), f.y)
  }

  /** `NOISE_VALUE__noise4d__f32`. */
  function Noise4(random: Vec4 -> real, pos: Vec4): real {
    var i := Floor4(pos);
    var f := Fract4(pos);
    var v0000 := random(i);
    var v1000 := random(Add4(i, Vec4(1.0, 0.0, 0.0, 0.0)));
    var v0100 := random(Add4(i, Vec4(0.0, 1.0, 0.0, 0.0)));
    var v1100 := random(Add4(i, Vec4(1.0, 1.0, 0.0, 0.0)));
    var v0010 := random(Add4(i, Vec4(0.0, 0.0, 1.0, 0.0)));
    var v1010 := random(Add4(i, Vec4(1.0, 0.0, 1.0, 0.0)));
    var v0110 := random(Add4(i, Vec4(0.0, 1.0, 1.0, 0.0)));
    var v1110 := random(Add4(i, Vec4(1.0, 1.0, 1.0, 0.0)));
    var v0001 := random(Add4(i, Vec4(0.0, 0.0, 0.0, 1.0)));
    var v1001 := random(Add4(i, Vec4(1.0, 0.0, 0.0, 1.0)));
    var v0101 := random(Add4(i, Vec4(0.0, 1.0, 0.0, 1.0)));
    var v1101 := random(Add4(i, Vec4(1.0, 1.0, 0.0, 1.0)));
    var v0011 := random(Add4(i, Vec4(0.0, 0.0, 1.0, 1.0)));
    var v1011 := random(Add4(i, Vec4(1.0, 0.0, 1.0, 1.0)));
    var v0111 := random(Add4(i, Vec4(0.0, 1.0, 1.0, 1.0)));
    var v1111 := random(Add4(i, Vec4(1.0, 1.0, 1.0, 1.0)));
    MixHermite(
      MixHermite(Face(v0000, v1000, v0100, v1100, f), Face(v0010, v1010, v0110, v1110, f), f.z),
      MixHermite(Face(v0001, v1001, v0101, v1101, f), Face(v0011, v1011, v0111, v1111, f), f.z),
      f.w)
  }

  /** At an integer argument the noise is the random value there. */
  lemma Noise1AtLattice(random: real -> real, n: int)
    ensures Noise1(random, n as real) == random(n as real)
  {
    LatticePoint(n);
    MixHermiteEnds(random(n as real), random(n as real + 1.0));
  }

  /**
   * The cell formula at the far end `f = 1` gives the value at the next
   * lattice point, which is where the next cell starts: the noise is
   * continuous across integers.
   */
  lemma Noise1Continuous(random: real -> real, n: int)
    ensures Cell1(random, n as real, 1.0) == Noise1(random, (n + 1) as real)
  {
    MixHermiteEnds(random(n as real), random(n as real + 1.0));
    Noise1AtLattice(random, n + 1);
  }

  /** The noise lies between the random values at the two enclosing lattice points. */
  lemma Noise1Between(random: real -> real, pos: real)
    ensures Between(Noise1(random, pos), random(Floor(pos)), random(Floor(pos) + 1.0))
  {
    MixHermiteBetween(random(Floor(pos)), random(Floor(pos) + 1.0), Fract(pos));
  }

  lemma Noise1InUnit(random: real -> real, pos: real)
    requires forall p :: InUnit(random(p))
    ensures InUnit(Noise1(random, pos))
  {
    MixHermiteWithin(random(Floor(pos)), random(Floor(pos) + 1.0), Fract(pos), 0.0, 1.0);
  }

  lemma Noise2AtLattice(random: Vec2 -> real, m: int, n: int)
    ensures Noise2(random, Vec2(m as real, n as real)) == random(Vec2(m as real, n as real))
  {
    LatticePoint(m);
    LatticePoint(n);
    HermiteEnds();
  }

  /** On the edge `fract(pos.y) = 0`, 2-D noise is the 1-D blend of the two lower corners. */
  lemma Noise2OnEdge(random: Vec2 -> real, pos: Vec2)
    requires Fract(pos.y) == 0.0
    ensures Noise2(random, pos)
         == MixHermite(random(Floor2(pos)), random(Add2(Floor2(pos), Vec2(1.0, 0.0))), Fract(pos.x))
  {
    var i := Floor2(pos);
    MixHermiteEnds(MixHermite(random(i), random(Add2(i, Vec2(1.0, 0.0))), Fract(pos.x)),
                   MixHermite(random(Add2(i, Vec2(0.0, 1.0))), random(Add2(i, Vec2(1.0, 1.0))), Fract(pos.x)));
  }

  lemma Noise2InUnit(random: Vec2 -> real, pos: Vec2)
    requires forall p :: InUnit(random(p))
    ensures InUnit(Noise2(random, pos))
  {
    var i := Floor2(pos);
    var f := Fract2(pos);
    var a := MixHermite(random(i), random(Add2(i, Vec2(1.0, 0.0))), f.x);
    var b := MixHermite(random(Add2(i, Vec2(0.0, 1.0))), random(Add2(i, Vec2(1.0, 1.0))), f.x);
    MixHermiteWithin(random(i), random(Add2(i, Vec2(1.0, 0.0))), f.x, 0.0, 1.0);
    MixHermiteWithin(random(Add2(i, Vec2(0.0, 1.0))), random(Add2(i, Vec2(1.0, 1.0))), f.x, 0.0, 1.0);
    MixHermiteWithin(a, b, f.y, 0.0, 1.0);
  }

  lemma Noise3AtLattice(random: V.Vec3 -> real, l: int, m: int, n: int)
    ensures Noise3(random, V.Vec3(l as real, m as real, n as real))
         == random(V.Vec3(l as real, m as real, n as real))
  {
    var p := V.Vec3(l as real, m as real, n as real);
    LatticePoint(l);
    LatticePoint(m);
    LatticePoint(n);
    assert Fract3(p) == V.Vec3(0.0, 0.0, 0.0);
    assert Floor3(p) == p;
    var v000 := random(p);
    var v100 := random(V.Add(p, V.Vec3(1.0, 0.0, 0.0)));
    var v010 := random(V.Add(p, V.Vec3(0.0, 1.0, 0.0)));
    var v110 := random(V.Add(p, V.Vec3(1.0, 1.0, 0.0)));
    MixHermiteEnds(v000, v100);
    MixHermiteEnds(v010, v110);
    MixHermiteEnds(MixHermite(v000, v100, 0.0), MixHermite(v010, v110, 0.0));
  }

  lemma Noise3InUnit(random: V.Vec3 -> real, pos: V.Vec3)
    requires forall p :: InUnit(random(p))
    ensures InUnit(Noise3(random, pos))
  {
    var i := Floor3(pos);
    var f := Fract3(pos);
    var v000 := random(i);
    var v100 := random(V.Add(i, V.Vec3(1.0, 0.0, 0.0)));
    var v010 := random(V.Add(i, V.Vec3(0.0, 1.0, 0.0)));
    var v110 := random(V.Add(i, V.Vec3(1.0, 1.0, 0.0)));
    var v001 := random(V.Add(i, V.Vec3(0.0, 0.0, 1.0)));
    var v101 := random(V.Add(i, V.Vec3(1.0, 0.0, 1.0)));
    var v011 := random(V.Add(i, V.Vec3(0.0, 1.0, 1.0)));
    var v111 := random(V.Add(i, V.Vec3(1.0, 1.0, 1.0)));
    SquareInUnit(v000, v100, v010, v110, f.x, f.y);
    SquareInUnit(v001, v101, v011, v111, f.x, f.y);
    MixHermiteWithin(
      MixHermite(MixHermite(v000, v100, f.x), MixHermite(v010, v110, f.x), f.y),
      MixHermite(MixHermite(v001, v101, f.x), MixHermite(v011, v111, f.x), f.y),
      f.z, 0.0, 1.0);
  }

  /** Blending four values of `[0, 1]` over a square stays in `[0, 1]`. */
  lemma SquareInUnit(v00: real, v10: real, v01: real, v11: real, fx: real, fy: real)
    requires InUnit(v00) && InUnit(v10) && InUnit(v01) && InUnit(v11) && InUnit(fx) && InUnit(fy)
    ensures InUnit(MixHermite(MixHermite(v00, v10, fx), MixHermite(v01, v11, fx), fy))
  {
    MixHermiteWithin(v00, v10, fx, 0.0, 1.0);
    MixHermiteWithin(v01, v11, fx, 0.0, 1.0);
    MixHermiteWithin(MixHermite(v00, v10, fx), MixHermite(v01, v11, fx), fy, 0.0, 1.0);
  }

  lemma Noise4AtLattice(random: Vec4 -> real, k: int, l: int, m: int, n: int)
    ensures Noise4(random, Vec4(k as real, l as real, m as real, n as real))
         == random(Vec4(k as real, l as real, m as real, n as real))
  {
    var p := Vec4(k as real, l as real, m as real, n as real);
    LatticePoint(k);
    LatticePoint(l);
    LatticePoint(m);
    LatticePoint(n);
    var f := Fract4(p);
    assert f == Vec4(0.0, 0.0, 0.0, 0.0);
    assert Floor4(p) == p;
    var v0000 := random(p);
    var v1000 := random(Add4(p, Vec4(1.0, 0.0, 0.0, 0.0)));
    var v0100 := random(Add4(p, Vec4(0.0, 1.0, 0.0, 0.0)));
    var v1100 := random(Add4(p, Vec4(1.0, 1.0, 0.0, 0.0)));
    var lower := Face(v0000, v1000, v0100, v1100, f);
    MixHermiteEnds(v0000, v1000);
    MixHermiteEnds(v0100, v1100);
    MixHermiteEnds(MixHermite(v0000, v1000, 0.0), MixHermite(v0100, v1100, 0.0));
    assert lower == v0000;
  }

  lemma Noise4InUnit(random: Vec4 -> real, pos: Vec4)
    requires forall p :: InUnit(random(p))
    ensures InUnit(Noise4(random, pos))
  {
    var i := Floor4(pos);
    var f := Fract4(pos);
    var v0000 := random(i);
    var v1000 := random(Add4(i, Vec4(1.0, 0.0, 0.0, 0.0)));
    var v0100 := random(Add4(i, Vec4(0.0, 1.0, 0.0, 0.0)));
    var v1100 := random(Add4(i, Vec4(1.0, 1.0, 0.0, 0.0)));
    var v0010 := random(Add4(i, Vec4(0.0, 0.0, 1.0, 0.0)));
    var v1010 := random(Add4(i, Vec4(1.0, 0.0, 1.0, 0.0)));
    var v0110 := random(Add4(i, Vec4(0.0, 1.0, 1.0, 0.0)));
    var v1110 := random(Add4(i, Vec4(1.0, 1.0, 1.0, 0.0)));
    var v0001 := random(Add4(i, Vec4(0.0, 0.0, 0.0, 1.0)));
    var v1001 := random(Add4(i, Vec4(1.0, 0.0, 0.0, 1.0)));
    var v0101 := random(Add4(i, Vec4(0.0, 1.0, 0.0, 1.0)));
    var v1101 := random(Add4(i, Vec4(1.0, 1.0, 0.0, 1.0)));
    var v0011 := random(Add4(i, Vec4(0.0, 0.0, 1.0, 1.0)));
    var v1011 := random(Add4(i, Vec4(1.0, 0.0, 1.0, 1.0)));
    var v0111 := random(Add4(i, Vec4(0.0, 1.0, 1.0, 1.0)));
    var v1111 := random(Add4(i, Vec4(1.0, 1.0, 1.0, 1.0)));
    SquareInUnit(v0000, v1000, v0100, v1100, f.x, f.y);
    SquareInUnit(v0010, v1010, v0110, v1110, f.x, f.y);
    SquareInUnit(v0001, v1001, v0101, v1101, f.x, f.y);
    SquareInUnit(v0011, v1011, v0111, v1111, f.x, f.y);
    var lower := MixHermite(Face(v0000, v1000, v0100, v1100, f), Face(v0010, v1010, v0110, v1110, f), f.z);
    var upper := MixHermite(Face(v0001, v1001, v0101, v1101, f), Face(v0011, v1011, v0111, v1111, f), f.z);
    MixHermiteWithin(Face(v0000, v1000, v0100, v1100, f), Face(v0010, v1010, v0110, v1110, f), f.z, 0.0, 1.0);
    MixHermiteWithin(Face(v0001, v1001, v0101, v1101, f), Face(v0011, v1011, v0111, v1111, f), f.z, 0.0, 1.0);
    MixHermiteWithin(lower, upper, f.w, 0.0, 1.0);
  }
}
