/**
 * Obstacle avoidance of the 3-D flocking demo: the table of sixteen probe
 * directions (`Utils.Vector3.Probes`), the front-face ray test
 * (`IsColliding`) and the probe search (`Navigate`).
 */
module Boids3DNavigation {
  import opened Vectors
  import Boids3D

  /** `Math.sin`, `Math.cos`, `Math.acos`, `Math.sqrt` and `Math.PI` of the host. */
  datatype Trig = Trig(sin: real -> real, cos: real -> real, acos: real -> real, sqrt: real -> real, pi: real)

  /**
   * What the table needs of the host: `cos(acos x) = x` on `[-1, 1]`,
   * `sin(acos x)^2 = 1 - x^2` there, and `sin^2 + cos^2 = 1`.
   */
  ghost predicate ValidTrig(trig: Trig) {
    && (forall x: real {:trigger trig.acos(x)} :: -1.0 <= x <= 1.0 ==>
          trig.cos(trig.acos(x)) == x && trig.sin(trig.acos(x)) * trig.sin(trig.acos(x)) == 1.0 - x * x)
    && (forall a: real {:trigger trig.sin(a)} {:trigger trig.cos(a)} ::
          trig.sin(a) * trig.sin(a) + trig.cos(a) * trig.cos(a) == 1.0)
  }

  const ProbeCount := 16

  /** Entry `i` of the Fibonacci-sphere table: inclination `acos(1 - 2 i / 16)`, azimuth `pi (1 + sqrt 5) i`. */
  function ProbePoint(trig: Trig, i: nat): Vec3 {
    var t := (i as real) / (ProbeCount as real);
    var inclination := trig.acos(1.0 - 2.0 * t);
    var azimuth := trig.pi * (1.0 + trig.sqrt(5.0)) * (i as real);
    Vec3(trig.sin(inclination) * trig.cos(azimuth),
         trig.sin(inclination) * trig.sin(azimuth),
         trig.cos(inclination))
  }

  /** The loop that fills the probe table once, when the module is loaded. */
  method ProbeTable(trig: Trig) returns (table: seq<Vec3>)
    ensures |table| == ProbeCount
    ensures forall i :: 0 <= i < ProbeCount ==> table[i] == ProbePoint(trig, i)
  {
    table := [];
    var i := 0;
    while i < ProbeCount
      invariant 0 <= i <= ProbeCount
      invariant |table| == i
      invariant forall j :: 0 <= j < i ==> table[j] == ProbePoint(trig, j)
    {
      table := table + [ProbePoint(trig, i)];
      i := i + 1;
    }
  }

  /** The heights of the probes fall evenly from `1` (straight ahead) to `-7/8`. */
  lemma ProbeHeight(trig: Trig, i: nat)
    requires ValidTrig(trig) && i < ProbeCount
    ensures ProbePoint(trig, i).z == 1.0 - (i as real) / 8.0
  {
    var c := 1.0 - 2.0 * ((i as real) / (ProbeCount as real));
    assert c == 1.0 - (i as real) / 8.0;
    assert -1.0 <= c <= 1.0;
    assert trig.cos(trig.acos(c)) == c;
  }

  /** Probe 0 points straight ahead: `(0, 0, 1)`. */
  lemma FirstProbe(trig: Trig)
    requires ValidTrig(trig)
    ensures ProbePoint(trig, 0) == Vec3(0.0, 0.0, 1.0)
  {
    var s := trig.sin(trig.acos(1.0));
    assert s * s == 0.0;
    if s != 0.0 {
      SquarePositive(s);
    }
    var p := ProbePoint(trig, 0);
    assert p.x == s * trig.cos(trig.pi * (1.0 + trig.sqrt(5.0)) * 0.0);
    assert p.y == s * trig.sin(trig.pi * (1.0 + trig.sqrt(5.0)) * 0.0);
  }

  lemma UnitFromParts(s: real, ca: real, sa: real, z: real)
    requires ca * ca + sa * sa == 1.0 && s * s == 1.0 - z * z
    ensures (s * ca) * (s * ca) + (s * sa) * (s * sa) + z * z == 1.0
  {
    assert (s * ca) * (s * ca) == (s * s) * (ca * ca);
    assert (s * sa) * (s * sa) == (s * s) * (sa * sa);
    assert (s * s) * (ca * ca) + (s * s) * (sa * sa) == (s * s) * (ca * ca + sa * sa);
  }

  /** Every probe is a unit vector. */
  lemma ProbeIsUnit(trig: Trig, i: nat)
    requires ValidTrig(trig) && i < ProbeCount
    ensures LengthSquared(ProbePoint(trig, i)) == 1.0
  {
    var c := 1.0 - 2.0 * ((i as real) / (ProbeCount as real));
    assert -1.0 <= c <= 1.0;
    var inclination := trig.acos(c);
    var azimuth := trig.pi * (1.0 + trig.sqrt(5.0)) * (i as real);
    UnitFromParts(trig.sin(inclination), trig.cos(azimuth), trig.sin(azimuth), trig.cos(inclination));
  }

  /** `right = normalize(cross(forward, (1, 0, 0)))`. */
  function Right(sqrt: real -> real, forward: Vec3): Vec3 {
    Normalize(sqrt, Cross(forward, Vec3(1.0, 0.0, 0.0)))
  }

  /** `up = normalize(cross(forward, right))`. */
  function Up(sqrt: real -> real, forward: Vec3): Vec3 {
    Normalize(sqrt, Cross(forward, Right(sqrt, forward)))
  }

  /** A table entry expressed in the frame of `forward`. */
  function Orient(sqrt: real -> real, forward: Vec3, probe: Vec3): Vec3 {
    Add(Add(Scale(forward, probe.z), Scale(Right(sqrt, forward), probe.x)), Scale(Up(sqrt, forward), probe.y))
  }

  /** `Utils.Vector3.Probes(direction)`: the table mapped into the frame of `direction`. */
  function Probes(sqrt: real -> real, table: seq<Vec3>, direction: Vec3): (r: seq<Vec3>)
    ensures |r| == |table|
  {
    seq(|table|, i requires 0 <= i < |table| => Orient(sqrt, direction, table[i]))
  }

  lemma CrossOrthogonal(a: Vec3, b: Vec3)
    ensures Dot(a, Cross(a, b)) == 0.0
  {
  }

  lemma DotScale(a: Vec3, b: Vec3, k: real)
    ensures Dot(a, Scale(b, k)) == k * Dot(a, b)
  {
  }

  /** A vector orthogonal to `forward` stays orthogonal once normalized. */
  lemma NormalizeOrthogonal(sqrt: real -> real, forward: Vec3, v: Vec3)
    requires Dot(forward, v) == 0.0
    ensures Dot(forward, Normalize(sqrt, v)) == 0.0
  {
    var len := Length(sqrt, v);
    if len != 0.0 {
      DotScale(forward, v, 1.0 / len);
    }
  }

  lemma DotOfCombination(d: Vec3, f: Vec3, r: Vec3, u: Vec3, z: real, x: real, y: real)
    ensures Dot(d, Add(Add(Scale(f, z), Scale(r, x)), Scale(u, y)))
              == z * Dot(d, f) + x * Dot(d, r) + y * Dot(d, u)
  {
    DotScale(d, f, z);
    DotScale(d, r, x);
    DotScale(d, u, y);
  }

  /**
   * The right and up axes are orthogonal to the heading, so the component
   * of an oriented probe along the heading is its table height times
   * `|forward|^2`.
   */
  lemma OrientAlongHeading(sqrt: real -> real, forward: Vec3, probe: Vec3)
    ensures Dot(forward, Right(sqrt, forward)) == 0.0 && Dot(forward, Up(sqrt, forward)) == 0.0
    ensures Dot(forward, Orient(sqrt, forward, probe)) == probe.z * LengthSquared(forward)
  {
    CrossOrthogonal(forward, Vec3(1.0, 0.0, 0.0));
    NormalizeOrthogonal(sqrt, forward, Cross(forward, Vec3(1.0, 0.0, 0.0)));
    CrossOrthogonal(forward, Right(sqrt, forward));
    NormalizeOrthogonal(sqrt, forward, Cross(forward, Right(sqrt, forward)));
    DotOfCombination(forward, forward, Right(sqrt, forward), Up(sqrt, forward), probe.z, probe.x, probe.y);
  }

  /**
   * With the real table, probe `i` makes an angle with the heading whose
   * cosine is `1 - i/8` (for a unit heading): the probes are ordered from
   * straight ahead to almost straight behind.
   */
  lemma ProbesOrder(trig: Trig, table: seq<Vec3>, direction: Vec3, i: nat)
    requires ValidTrig(trig) && |table| == ProbeCount
    requires forall j :: 0 <= j < ProbeCount ==> table[j] == ProbePoint(trig, j)
    requires i < ProbeCount
    ensures Dot(direction, Probes(trig.sqrt, table, direction)[i])
              == (1.0 - (i as real) / 8.0) * LengthSquared(direction)
  {
    ProbeHeight(trig, i);
    OrientAlongHeading(trig.sqrt, direction, table[i]);
  }

  /** With the real table, probe 0 is the heading itself. */
  lemma ProbesStartAhead(trig: Trig, table: seq<Vec3>, direction: Vec3)
    requires ValidTrig(trig) && |table| == ProbeCount
    requires forall j :: 0 <= j < ProbeCount ==> table[j] == ProbePoint(trig, j)
    ensures Probes(trig.sqrt, table, direction)[0] == direction
  {
    FirstProbe(trig);
    assert table[0] == Vec3(0.0, 0.0, 1.0);
    assert Probes(trig.sqrt, table, direction)[0] == Orient(trig.sqrt, direction, Vec3(0.0, 0.0, 1.0));
  }

  // ---------------------------------------------------------------------
  // Ray picking
  // ---------------------------------------------------------------------

  datatype Triangle = Triangle(p0: Vec3, p1: Vec3, p2: Vec3)

  /**
   * The pickable geometry: its triangles and the host's ray/triangle
   * intersection test (within the ray's length).
   */
  datatype Scene = Scene(triangles: seq<Triangle>, intersects: (Ray, Triangle) -> bool)

  /**
   * `scene.pickWithRay(ray, undefined, undefined, predicate).hit` with the
   * front-face predicate: some triangle is crossed by the ray and faces it.
   */
  predicate Hit(scene: Scene, ray: Ray) {
    exists k :: 0 <= k < |scene.triangles| && scene.intersects(ray, scene.triangles[k])
      && Boids3D.IsFrontFacing(scene.triangles[k].p0, scene.triangles[k].p1, scene.triangles[k].p2, ray.direction)
  }

  /** `IsColliding`. */
  predicate IsColliding(scene: Scene, position: Vec3, direction: Vec3, radius: real) {
    Hit(scene, Ray(position, direction, radius))
  }

  /** A triangle that faces away from the ray never blocks it. */
  lemma BackFaceNeverBlocks(scene: Scene, ray: Ray, t: Triangle)
    requires !Boids3D.IsFrontFacing(t.p0, t.p1, t.p2, ray.direction)
    ensures Hit(Scene(scene.triangles + [t], scene.intersects), ray) == Hit(scene, ray)
  {
    var s2 := Scene(scene.triangles + [t], scene.intersects);
    if Hit(s2, ray) {
      var k :| 0 <= k < |s2.triangles| && s2.intersects(ray, s2.triangles[k])
        && Boids3D.IsFrontFacing(s2.triangles[k].p0, s2.triangles[k].p1, s2.triangles[k].p2, ray.direction);
      assert k < |scene.triangles|;
      assert s2.triangles[k] == scene.triangles[k];
    }
    if Hit(scene, ray) {
      var k :| 0 <= k < |scene.triangles| && scene.intersects(ray, scene.triangles[k])
        && Boids3D.IsFrontFacing(scene.triangles[k].p0, scene.triangles[k].p1, scene.triangles[k].p2, ray.direction);
      assert s2.triangles[k] == scene.triangles[k];
    }
  }

  /** Of a triangle and its reverse-wound twin, at most one can block a ray. */
  lemma TwinBlocksOnce(t: Triangle, ray: Ray)
    ensures !(Boids3D.IsFrontFacing(t.p0, t.p1, t.p2, ray.direction)
              && Boids3D.IsFrontFacing(t.p0, t.p2, t.p1, ray.direction))
  {
    Boids3D.FrontFacingSwap(t.p0, t.p1, t.p2, ray.direction);
  }

  // ---------------------------------------------------------------------
  // Navigate
  // ---------------------------------------------------------------------

  predicate Blocked(scene: Scene, position: Vec3, probe: Vec3, radius: real) {
    Hit(scene, Ray(position, probe, radius))
  }

  /** The index of the first probe from `from` on whose ray hits nothing, or `|probes|`. */
  function FirstClear(scene: Scene, position: Vec3, probes: seq<Vec3>, radius: real, from: nat): (k: nat)
    requires from <= |probes|
    ensures from <= k <= |probes|
    ensures k < |probes| ==> !Blocked(scene, position, probes[k], radius)
    ensures forall j :: from <= j < k ==> Blocked(scene, position, probes[j], radius)
    decreases |probes| - from
  {
    if from == |probes| then from
    else if !Blocked(scene, position, probes[from], radius) then from
    else FirstClear(scene, position, probes, radius, from + 1)
  }

  /**
   * What `Navigate` returns: the first probe (in table order) whose ray is
   * clear, or the reversed heading when every probe is blocked.
   */
  function SteerTarget(scene: Scene, sqrt: real -> real, table: seq<Vec3>, position: Vec3, direction: Vec3, radius: real): Vec3 {
    var probes := Probes(sqrt, table, direction);
    var k := FirstClear(scene, position, probes, radius, 0);
    if k < |probes| then probes[k] else Scale(direction, -1.0)
  }

  /** The steering target is a clear probe preceded only by blocked ones, or the reversed heading when all are blocked. */
  lemma SteerTargetSpec(scene: Scene, sqrt: real -> real, table: seq<Vec3>, position: Vec3, direction: Vec3, radius: real)
    ensures var probes := Probes(sqrt, table, direction);
            var steer := SteerTarget(scene, sqrt, table, position, direction, radius);
            || (exists k :: 0 <= k < |probes| && steer == probes[k] && !Blocked(scene, position, probes[k], radius)
                  && forall j :: 0 <= j < k ==> Blocked(scene, position, probes[j], radius))
            || ((forall j :: 0 <= j < |probes| ==> Blocked(scene, position, probes[j], radius))
                  && steer == Scale(direction, -1.0))
  {
    var probes := Probes(sqrt, table, direction);
    var k := FirstClear(scene, position, probes, radius, 0);
    if k < |probes| {
      assert probes[k] == SteerTarget(scene, sqrt, table, position, direction, radius);
    }
  }

  /** `Navigate`: the probe search loop, returning at the first clear probe. */
  method Navigate(scene: Scene, sqrt: real -> real, table: seq<Vec3>, position: Vec3, direction: Vec3, radius: real)
    returns (steer: Vec3)
    ensures steer == SteerTarget(scene, sqrt, table, position, direction, radius)
  {
    var probes := Probes(sqrt, table, direction);
    var i := 0;
    while i < |probes|
      invariant 0 <= i <= |probes|
      invariant FirstClear(scene, position, probes, radius, 0) == FirstClear(scene, position, probes, radius, i)
    {
      if !Blocked(scene, position, probes[i], radius) {
        return probes[i];
      }
      i := i + 1;
    }
    return Scale(direction, -1.0);
  }
}
