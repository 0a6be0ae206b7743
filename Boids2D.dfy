/**
 * The helpers of the 2-D flocking demo: the in-place length clamp and
 * boundary wrap on Babylon `Vector3` objects, the view cone, the
 * inverse-square repulsion and the collision-avoidance search.
 */
module Boids2D {
  import opened Vectors
  import opened Wrappers

  /** The `SETTINGS` constants the helpers read. */
  const ViewDistance := 8.0
  const DetectDistance := 8.0
  const QueryCount := 4
  const RepulsionDetectDistance := 5.0
  const BoundaryHalfWidth := 30.0
  /** Below this length `clampLengthInPlace` leaves a vector alone. */
  const Epsilon := 0.00001

  type Positive = r: real | r > 0.0 witness 1.0

  /** A Babylon `Vector3`, updated in place by the `...InPlace` operations. */
  class Vector3 {
    var x: real
    var y: real
    var z: real

    function Value(): Vec3
      reads this
    {
      Vec3(x, y, z)
    }

    constructor (v: Vec3)
      ensures Value() == v
    {
      x, y, z := v.x, v.y, v.z;
    }

    /** `addInPlace(v)`. */
    method AddInPlace(v: Vec3)
      modifies this
      ensures Value() == Add(old(Value()), v)
    {
      x, y, z := x + v.x, y + v.y, z + v.z;
    }

    /** `scaleInPlace(k)`. */
    method ScaleInPlace(k: real)
      modifies this
      ensures Value() == Scale(old(Value()), k)
    {
      x, y, z := x * k, y * k, z * k;
    }
  }

  /** The value `clampLengthInPlace(vec, min, max)` leaves in `vec`. */
  function ClampedLength(sqrt: real -> real, v: Vec3, min: real, max: real): Vec3 {
    var len := Length(sqrt, v);
    if len < Epsilon then v
    else if len < min then Scale(v, min / len)
    else if len > max then Scale(v, max / len)
    else v
  }

  /** `clampLengthInPlace(vec, min, max)`. */
  method ClampLengthInPlace(sqrt: real -> real, vec: Vector3, min: real, max: real)
    modifies vec
    ensures vec.Value() == ClampedLength(sqrt, old(vec.Value()), min, max)
  {
    var len := sqrt(LengthSquared(vec.Value()));
    if len < Epsilon {
      return;
    }
    if len < min {
      vec.ScaleInPlace(min / len);
      return;
    }
    if len > max {
      vec.ScaleInPlace(max / len);
    }
  }

  /** The world rectangle: `x` in `[-30, 30]`, `y` in `[-30 / aspect, 30 / aspect]`. */
  datatype Boundary = Boundary(xMin: real, xMax: real, yMin: real, yMax: real)

  function WorldBoundary(aspectRatio: Positive): Boundary {
    Boundary(-BoundaryHalfWidth, BoundaryHalfWidth, -BoundaryHalfWidth / aspectRatio, BoundaryHalfWidth / aspectRatio)
  }

  /** One axis of `sanitizePosition`: the two tests run in sequence on the updated value. */
  function WrapAxis(c: real, lo: real, hi: real): real {
    var c1 := if c > hi then c + (lo - hi) else c;
    if c1 < lo then c1 + (hi - lo) else c1
  }

  function Wrapped(p: Vec3, b: Boundary): Vec3 {
    Vec3(WrapAxis(p.x, b.xMin, b.xMax), WrapAxis(p.y, b.yMin, b.yMax), p.z)
  }

  /** `sanitizePosition(position, boundary)`: wraps the position around the rectangle. */
  method SanitizePosition(position: Vector3, b: Boundary)
    modifies position
    ensures position.Value() == Wrapped(old(position.Value()), b)
  {
    if position.x > b.xMax { position.x := position.x + (b.xMin - b.xMax); }
    if position.x < b.xMin { position.x := position.x + (b.xMax - b.xMin); }
    if position.y > b.yMax { position.y := position.y + (b.yMin - b.yMax); }
    if position.y < b.yMin { position.y := position.y + (b.yMax - b.yMin); }
  }

  /**
   * `isVisibleParticle(me, other)`; `cosViewAngle` is `Math.cos(2/3 pi)`.
   * Unlike the 3-D demo the range test is strict.
   */
  predicate IsVisibleParticle(sqrt: real -> real, cosViewAngle: real, position: Vec3, velocity: Vec3, other: Vec3) {
    var diff := Sub(other, position);
    Length(sqrt, diff) < ViewDistance && Dot(Normalize(sqrt, diff), Normalize(sqrt, velocity)) >= cosViewAngle
  }

  /**
   * `RepulsionForce(particle, other)` as written.  For two particles at the
   * same position `normalize()` leaves the zero vector and the scale
   * `1 / (len * len)` is `Infinity`, so every component is `0 * Infinity`,
   * that is NaN: `None` stands for that vector.
   */
  function RepulsionForceAsWritten(sqrt: real -> real, position: Vec3, other: Vec3): Option<Vec3> {
    var diff := Sub(position, other);
    var len := Length(sqrt, diff);
    if len > RepulsionDetectDistance then Some(Zero)
    else if len == 0.0 then None
    else Some(Scale(Normalize(sqrt, diff), InverseSquare(len)))
  }

  /** `1 / (len * len)`. */
  function InverseSquare(len: real): real
    requires len != 0.0
  {
    1.0 / (len * len)
  }

  /** `RepulsionForce` with coincident particles exerting no force, as the 3-D demo does. */
  function RepulsionForce(sqrt: real -> real, position: Vec3, other: Vec3): Vec3 {
    var diff := Sub(position, other);
    var len := Length(sqrt, diff);
    if len > RepulsionDetectDistance || len == 0.0 then Zero
    else Scale(Normalize(sqrt, diff), InverseSquare(len))
  }

  /** The order in which `SearchAvoidCollision` tries the query angles: `1, -1, 2, -2, ...`. */
  function QueryOrder(n: nat): (r: seq<int>)
    ensures |r| == 2 * n
    ensures forall k :: 0 <= k < n ==> r[2 * k] == k + 1 && r[2 * k + 1] == -(k + 1)
  {
    if n == 0 then [] else QueryOrder(n - 1) + [n as int, -(n as int)]
  }

  /** The loop that fills `queriedIndices`. */
  method QueriedIndices(n: nat) returns (indices: seq<int>)
    ensures indices == QueryOrder(n)
  {
    indices := [];
    var i := 1;
    while i <= n
      invariant 1 <= i <= n + 1
      invariant indices == QueryOrder(i - 1)
    {
      indices := indices + [i];
      indices := indices + [-i];
      i := i + 1;
    }
  }

  /** The host's `pickWithRay(ray)`: no hit, or a hit at a positive distance. */
  datatype Pick = NoHit | Hit(distance: Positive)

  /**
   * The host services the update reads: square root, `Math.cos`,
   * `Math.sin`, `Math.atan2`, `Math.PI`, `cos(2/3 pi)`, the particle's
   * rotation matrix applied by `TransformCoordinates`, ray picking,
   * `engine.getDeltaTime()` and the canvas aspect ratio.
   */
  datatype Host = Host(
    sqrt: real -> real,
    cos: real -> real,
    sin: real -> real,
    atan2: (real, real) -> real,
    pi: real,
    cosViewAngle: real,
    rotate: (real, Vec3) -> Vec3,
    pick: Ray -> Pick,
    deltaMs: real,
    aspectRatio: Positive)

  /** Query direction `i`: angle `i * 0.1 pi` in the particle's frame, rotated into the world. */
  function QueryDirection(host: Host, rotationZ: real, i: int): Vec3 {
    var a := (i as real) * (0.1 * host.pi);
    host.rotate(rotationZ, Vec3(host.cos(a), host.sin(a), 0.0))
  }

  predicate Open(host: Host, position: Vec3, d: Vec3) {
    host.pick(Ray(position, d, DetectDistance)).NoHit?
  }

  /** The index of the first query from `from` on whose ray hits nothing, or `|indices|`. */
  function FirstOpen(host: Host, position: Vec3, rotationZ: real, indices: seq<int>, from: nat): (k: nat)
    requires from <= |indices|
    ensures from <= k <= |indices|
    ensures k < |indices| ==> Open(host, position, QueryDirection(host, rotationZ, indices[k]))
    ensures forall j :: from <= j < k ==> !Open(host, position, QueryDirection(host, rotationZ, indices[j]))
    decreases |indices| - from
  {
    if from == |indices| then from
    else if Open(host, position, QueryDirection(host, rotationZ, indices[from])) then from
    else FirstOpen(host, position, rotationZ, indices, from + 1)
  }

  /**
   * The search over the query angles `indices`: the normalized difference
   * between the first open query direction and the heading, or zero.
   */
  function AvoidDirectionAmong(host: Host, position: Vec3, velocity: Vec3, rotationZ: real, indices: seq<int>): Vec3 {
    var k := FirstOpen(host, position, rotationZ, indices, 0);
    if k < |indices| then
      Normalize(host.sqrt, Sub(QueryDirection(host, rotationZ, indices[k]), Normalize(host.sqrt, velocity)))
    else Zero
  }

  /** What `SearchAvoidCollision` returns, with the query order `1, -1, ..., 4, -4`. */
  function AvoidDirection(host: Host, position: Vec3, velocity: Vec3, rotationZ: real): Vec3 {
    AvoidDirectionAmong(host, position, velocity, rotationZ, QueryOrder(QueryCount))
  }

  /** The second loop of `SearchAvoidCollision`, returning at the first open query ray. */
  method SearchQueries(host: Host, position: Vec3, velocity: Vec3, rotationZ: real, indices: seq<int>) returns (d: Vec3)
    ensures d == AvoidDirectionAmong(host, position, velocity, rotationZ, indices)
  {
    var j := 0;
    while j < |indices|
      invariant 0 <= j <= |indices|
      invariant FirstOpen(host, position, rotationZ, indices, 0) == FirstOpen(host, position, rotationZ, indices, j)
    {
      var q := QueryDirection(host, rotationZ, indices[j]);
      if Open(host, position, q) {
        return Normalize(host.sqrt, Sub(q, Normalize(host.sqrt, velocity)));
      }
      j := j + 1;
    }
    return Zero;
  }

  /** `SearchAvoidCollision(particle, scene)`. */
  method SearchAvoidCollision(host: Host, position: Vec3, velocity: Vec3, rotationZ: real) returns (d: Vec3)
    ensures d == AvoidDirection(host, position, velocity, rotationZ)
  {
    var indices := QueriedIndices(QueryCount);
    d := SearchQueries(host, position, velocity, rotationZ, indices);
  }

  // ---------------------------------------------------------------------
  // Properties
  // ---------------------------------------------------------------------

  lemma ScaleToLength(sqrt: real -> real, v: Vec3, target: real)
    requires IsSqrt(sqrt) && 0.0 < target && Length(sqrt, v) > 0.0
    ensures Length(sqrt, Scale(v, target / Length(sqrt, v))) == target
    ensures SameDirection(Scale(v, target / Length(sqrt, v)), v)
  {
    var len := Length(sqrt, v);
    DivideMultiply(target, len);
    LengthOfScale(sqrt, v, target / len);
    LengthZero(sqrt, v);
    LengthSquaredNonNegative(v);
    ScaleSameDirection(v, target / len);
  }

  /**
   * A vector shorter than `1e-5` is left alone; any other comes out with
   * its length clamped into `[min, max]`, in its own direction.
   */
  lemma ClampedLengthSpec(sqrt: real -> real, v: Vec3, min: real, max: real)
    requires IsSqrt(sqrt) && 0.0 <= min <= max && Epsilon <= max
    ensures Length(sqrt, v) < Epsilon ==> ClampedLength(sqrt, v, min, max) == v
    ensures Length(sqrt, v) >= Epsilon ==>
              min <= Length(sqrt, ClampedLength(sqrt, v, min, max)) <= max
              && SameDirection(ClampedLength(sqrt, v, min, max), v)
    ensures min <= Length(sqrt, v) <= max ==> ClampedLength(sqrt, v, min, max) == v
  {
    var len := Length(sqrt, v);
    if len >= Epsilon {
      if len < min {
        ScaleToLength(sqrt, v, min);
      } else if len > max {
        ScaleToLength(sqrt, v, max);
      } else {
        LengthZero(sqrt, v);
        LengthSquaredNonNegative(v);
        assert Cross(v, v) == Zero;
      }
    }
  }

  /** Whatever its input, the clamp never leaves a vector longer than `max`. */
  lemma ClampedLengthAtMost(sqrt: real -> real, v: Vec3, min: real, max: real)
    requires IsSqrt(sqrt) && 0.0 <= min <= max && Epsilon <= max
    ensures Length(sqrt, ClampedLength(sqrt, v, min, max)) <= max
  {
    ClampedLengthSpec(sqrt, v, min, max);
  }

  /**
   * One axis of the wrap: inside `[lo, hi]` nothing moves; within one
   * width outside it the coordinate comes back inside; the shift is always
   * `0` or plus or minus the width.
   */
  lemma WrapAxisSpec(c: real, lo: real, hi: real)
    requires lo < hi
    ensures lo <= c <= hi ==> WrapAxis(c, lo, hi) == c
    ensures 2.0 * lo - hi <= c <= 2.0 * hi - lo ==> lo <= WrapAxis(c, lo, hi) <= hi
    ensures var d := WrapAxis(c, lo, hi) - c; d == 0.0 || d == hi - lo || d == lo - hi
  {
  }

  /** A position that left the rectangle by less than one width is wrapped back inside it; `z` is untouched. */
  lemma WrappedInside(p: Vec3, b: Boundary)
    requires b.xMin < b.xMax && b.yMin < b.yMax
    requires 2.0 * b.xMin - b.xMax <= p.x <= 2.0 * b.xMax - b.xMin
    requires 2.0 * b.yMin - b.yMax <= p.y <= 2.0 * b.yMax - b.yMin
    ensures b.xMin <= Wrapped(p, b).x <= b.xMax && b.yMin <= Wrapped(p, b).y <= b.yMax
    ensures Wrapped(p, b).z == p.z
  {
    WrapAxisSpec(p.x, b.xMin, b.xMax);
    WrapAxisSpec(p.y, b.yMin, b.yMax);
  }

  lemma WorldBoundaryNonEmpty(aspectRatio: Positive)
    ensures WorldBoundary(aspectRatio).xMin < WorldBoundary(aspectRatio).xMax
    ensures WorldBoundary(aspectRatio).yMin < WorldBoundary(aspectRatio).yMax
  {
    DivideMultiply(BoundaryHalfWidth, aspectRatio);
  }

  /** A particle at exactly the viewer's position is visible, since `cos(2/3 pi) < 0`. */
  lemma CoincidentIsVisible(sqrt: real -> real, cosViewAngle: real, position: Vec3, velocity: Vec3)
    requires IsSqrt(sqrt) && cosViewAngle <= 0.0
    ensures IsVisibleParticle(sqrt, cosViewAngle, position, velocity, position)
  {
    SubSelf(position);
    NormalizeZero(sqrt, 1.0);
    LengthZero(sqrt, Zero);
  }

  /** The written repulsion of two particles at the same position is the NaN vector. */
  lemma RepulsionNaNWhenCoincident(sqrt: real -> real, position: Vec3)
    requires sqrt(0.0) == 0.0
    ensures RepulsionForceAsWritten(sqrt, position, position) == None
  {
    SubSelf(position);
  }

  /** Away from coincidence the corrected repulsion is exactly the written one. */
  lemma RepulsionAgrees(sqrt: real -> real, position: Vec3, other: Vec3)
    requires Length(sqrt, Sub(position, other)) != 0.0
    ensures RepulsionForceAsWritten(sqrt, position, other) == Some(RepulsionForce(sqrt, position, other))
  {
  }

  lemma InverseSquarePositive(len: real)
    requires 0.0 < len
    ensures 0.0 < InverseSquare(len)
  {
    PositiveProduct(len, len);
  }

  /**
   * Inside the detection distance the repulsion follows an inverse-square
   * law, pointing away from the other particle.
   */
  lemma RepulsionForceSpec(sqrt: real -> real, position: Vec3, other: Vec3)
    requires IsSqrt(sqrt)
    requires 0.0 < Length(sqrt, Sub(position, other)) <= RepulsionDetectDistance
    ensures var len := Length(sqrt, Sub(position, other));
            Length(sqrt, RepulsionForce(sqrt, position, other)) == InverseSquare(len)
    ensures SameDirection(RepulsionForce(sqrt, position, other), Sub(position, other))
  {
    var diff := Sub(position, other);
    var len := Length(sqrt, diff);
    InverseSquarePositive(len);
    ScaledNormal(sqrt, diff, InverseSquare(len));
  }

  /** Beyond the detection distance there is no repulsion. */
  lemma RepulsionForceVanishes(sqrt: real -> real, position: Vec3, other: Vec3)
    requires IsSqrt(sqrt)
    ensures Length(sqrt, Sub(position, other)) > RepulsionDetectDistance ==> RepulsionForce(sqrt, position, other) == Zero
  {
  }

  /** Between coincident particles the corrected repulsion is zero. */
  lemma RepulsionForceCoincident(sqrt: real -> real, position: Vec3)
    requires IsSqrt(sqrt)
    ensures RepulsionForce(sqrt, position, position) == Zero
  {
    SubSelf(position);
    LengthZero(sqrt, Zero);
  }

  /**
   * The avoidance direction is zero when every query ray is blocked, and
   * otherwise a unit vector from the heading toward the first open query
   * direction (unless the two coincide).
   */
  lemma AvoidDirectionSpec(host: Host, position: Vec3, velocity: Vec3, rotationZ: real)
    requires IsSqrt(host.sqrt)
    ensures var indices := QueryOrder(QueryCount);
            var k := FirstOpen(host, position, rotationZ, indices, 0);
            var r := AvoidDirectionAmong(host, position, velocity, rotationZ, indices);
            && (k == |indices| ==> r == Zero)
            && (k < |indices| ==>
                  var diff := Sub(QueryDirection(host, rotationZ, indices[k]), Normalize(host.sqrt, velocity));
                  Length(host.sqrt, diff) != 0.0 ==> Length(host.sqrt, r) == 1.0 && SameDirection(r, diff))
  {
    var indices := QueryOrder(QueryCount);
    var k := FirstOpen(host, position, rotationZ, indices, 0);
    if k < |indices| {
      var diff := Sub(QueryDirection(host, rotationZ, indices[k]), Normalize(host.sqrt, velocity));
      if Length(host.sqrt, diff) != 0.0 {
        NormalizeUnit(host.sqrt, diff);
      }
    }
  }
}
