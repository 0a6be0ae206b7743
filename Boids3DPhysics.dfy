/**
 * The force rules of the 3-D flocking demo (`Physics.*`), `ClampLength`,
 * the flock-type table and the visibility test.  All vectors are exact
 * reals; `sqrt` is the host's square root (see `Vectors.IsSqrt`).
 */
module Boids3D {
  import opened Vectors

  /** The `$ENV` constants the rules read. */
  const WorldXMin := -40.0
  const WorldXMax := 40.0
  const WorldYMin := -15.0
  const WorldYMax := 15.0
  const WorldZMin := -40.0
  const WorldZMax := 40.0
  const SpeedMin := 12.0
  const SpeedMax := 16.0
  const FlockRange := 12.0
  const CollisionRange := 4.0
  const ForceMax := 500.0
  const AttractionWeight := 50.0
  const RepulsionWeight := 40.0
  const RepulsionMax := 500.0
  const CohesionWeight := 8.0
  const AlignmentWeight := 8.0
  const AvoidCollisionWeight := 200.0

  /** `Scalar.Clamp(value, min, max)` of Babylon: `min(max, max(min, value))`. */
  function Clamp(value: real, lo: real, hi: real): real {
    var low := if value < lo then lo else value;
    if hi < low then hi else low
  }

  /** The push back into `[lo, hi]` along one axis, before weighting. */
  function AxisPush(c: real, lo: real, hi: real): real {
    (if c > hi then hi - c else 0.0) + (if c < lo then lo - c else 0.0)
  }

  function InWorld(p: Vec3): bool {
    WorldXMin <= p.x <= WorldXMax && WorldYMin <= p.y <= WorldYMax && WorldZMin <= p.z <= WorldZMax
  }

  /** `Physics.SanitizePosition`. */
  function SanitizePosition(p: Vec3): Vec3 {
    Scale(Vec3(AxisPush(p.x, WorldXMin, WorldXMax), AxisPush(p.y, WorldYMin, WorldYMax),
               AxisPush(p.z, WorldZMin, WorldZMax)), AvoidCollisionWeight)
  }

  /** `Physics.Attraction`. */
  function Attraction(sqrt: real -> real, position: Vec3, attraction: Vec3): Vec3 {
    Scale(Normalize(sqrt, Sub(attraction, position)), AttractionWeight)
  }

  /**
   * `Physics.Repulsion`.  With `lengthSquared() == 0` the quotient is
   * `+Infinity`, which `Clamp` takes to its maximum.
   */
  function Repulsion(sqrt: real -> real, position: Vec3, other: Vec3): Vec3 {
    var diff := Sub(position, other);
    Scale(Normalize(sqrt, diff), RepulsionScale(diff))
  }

  function RepulsionScale(diff: Vec3): real {
    var ls := LengthSquared(diff);
    if ls == 0.0 then RepulsionMax else Clamp(RepulsionWeight / ls, 0.0, RepulsionMax)
  }

  /** `Physics.Cohesion`. */
  function Cohesion(position: Vec3, other: Vec3): Vec3 {
    Scale(Sub(other, position), CohesionWeight)
  }

  /** `Physics.Alignment`. */
  function Alignment(sqrt: real -> real, direction: Vec3, target: Vec3): Vec3 {
    Scale(Normalize(sqrt, Sub(target, direction)), AlignmentWeight)
  }

  /** `Physics.AvoidCollision`. */
  function AvoidCollision(sqrt: real -> real, direction: Vec3, target: Vec3): Vec3 {
    Scale(Normalize(sqrt, Sub(target, direction)), AvoidCollisionWeight)
  }

  /** `Physics.IsFrontFacing`. */
  predicate IsFrontFacing(p0: Vec3, p1: Vec3, p2: Vec3, direction: Vec3) {
    Dot(direction, Cross(Sub(p1, p0), Sub(p2, p0))) > 0.0
  }

  /** An optional length bound of `ClampLength` (`undefined` is `NoLimit`). */
  datatype Limit = NoLimit | Limit(value: real)

  /** `Utils.Vector3.ClampLength`; the lower bound is checked first. */
  function ClampLength(sqrt: real -> real, v: Vec3, lo: Limit, hi: Limit): Vec3 {
    if lo.Limit? && Length(sqrt, v) < lo.value then Scale(Normalize(sqrt, v), lo.value)
    else if hi.Limit? && Length(sqrt, v) > hi.value then Scale(Normalize(sqrt, v), hi.value)
    else v
  }

  datatype FlockType = A | B | C

  /** `Utils.Flock.Type`: `['A', 'A', 'A', 'B', 'B', 'C'][index % 6]`. */
  function Type(index: nat): FlockType {
    [A, A, A, B, B, C][index % 6]
  }

  /**
   * `Utils.Flock.IsVisible`; `cosViewport` is `Math.cos(0.8 * Math.PI)` and
   * `direction` the viewer's normalized velocity.
   */
  predicate IsVisible(sqrt: real -> real, cosViewport: real, position: Vec3, direction: Vec3, other: Vec3) {
    var diff := Sub(other, position);
    Length(sqrt, diff) <= FlockRange && Dot(direction, Normalize(sqrt, diff)) >= cosViewport
  }

  // ---------------------------------------------------------------------
  // Properties
  // ---------------------------------------------------------------------

  lemma AxisPushSpec(c: real, lo: real, hi: real)
    requires lo <= hi
    ensures lo <= c <= hi <==> AxisPush(c, lo, hi) == 0.0
    ensures c > hi ==> AxisPush(c, lo, hi) == hi - c < 0.0
    ensures c < lo ==> AxisPush(c, lo, hi) == lo - c > 0.0
  {
  }

  /**
   * The boundary force is zero exactly inside the world box; outside, each
   * offending axis gets `weight * (bound - coordinate)`, pointing back in.
   */
  lemma SanitizePositionSpec(p: Vec3)
    ensures InWorld(p) <==> SanitizePosition(p) == Zero
    ensures p.x > WorldXMax ==> SanitizePosition(p).x == AvoidCollisionWeight * (WorldXMax - p.x) < 0.0
    ensures p.x < WorldXMin ==> SanitizePosition(p).x == AvoidCollisionWeight * (WorldXMin - p.x) > 0.0
    ensures p.y > WorldYMax ==> SanitizePosition(p).y == AvoidCollisionWeight * (WorldYMax - p.y) < 0.0
    ensures p.y < WorldYMin ==> SanitizePosition(p).y == AvoidCollisionWeight * (WorldYMin - p.y) > 0.0
    ensures p.z > WorldZMax ==> SanitizePosition(p).z == AvoidCollisionWeight * (WorldZMax - p.z) < 0.0
    ensures p.z < WorldZMin ==> SanitizePosition(p).z == AvoidCollisionWeight * (WorldZMin - p.z) > 0.0
  {
    AxisPushSpec(p.x, WorldXMin, WorldXMax);
    AxisPushSpec(p.y, WorldYMin, WorldYMax);
    AxisPushSpec(p.z, WorldZMin, WorldZMax);
  }

  /** A unit push scaled by `weight`: length `weight`, along `v` (zero when `v` has length 0). */
  lemma WeightedNormal(sqrt: real -> real, v: Vec3, weight: real)
    requires IsSqrt(sqrt) && 0.0 < weight
    ensures Length(sqrt, v) != 0.0 ==>
              Length(sqrt, Scale(Normalize(sqrt, v), weight)) == weight
              && SameDirection(Scale(Normalize(sqrt, v), weight), v)
    ensures Length(sqrt, v) == 0.0 ==> Length(sqrt, Scale(Normalize(sqrt, v), weight)) == 0.0
  {
    if Length(sqrt, v) != 0.0 {
      ScaledNormal(sqrt, v, weight);
    } else {
      LengthOfScale(sqrt, v, weight);
    }
  }

  /** Attraction has length 50 and points from `position` to the attraction point. */
  lemma AttractionSpec(sqrt: real -> real, position: Vec3, attraction: Vec3)
    requires IsSqrt(sqrt) && Length(sqrt, Sub(attraction, position)) != 0.0
    ensures Length(sqrt, Attraction(sqrt, position, attraction)) == AttractionWeight
    ensures SameDirection(Attraction(sqrt, position, attraction), Sub(attraction, position))
  {
    WeightedNormal(sqrt, Sub(attraction, position), AttractionWeight);
  }

  /**
   * Repulsion never exceeds `repulsion.max`; for distinct positions its
   * length is `min(weight / |diff|^2, max)` and it points from `other` to
   * `position`; for equal positions it is zero.
   */
  lemma RepulsionSpec(sqrt: real -> real, position: Vec3, other: Vec3)
    requires IsSqrt(sqrt)
    ensures Length(sqrt, Repulsion(sqrt, position, other)) <= RepulsionMax
    ensures Length(sqrt, Sub(position, other)) != 0.0 ==>
              Length(sqrt, Repulsion(sqrt, position, other))
                == Clamp(RepulsionWeight / LengthSquared(Sub(position, other)), 0.0, RepulsionMax)
              && SameDirection(Repulsion(sqrt, position, other), Sub(position, other))
    ensures position == other ==> Repulsion(sqrt, position, other) == Zero
  {
    var diff := Sub(position, other);
    var s := RepulsionScale(diff);
    LengthSquaredNonNegative(diff);
    LengthZero(sqrt, diff);
    if Length(sqrt, diff) != 0.0 {
      PositiveQuotient(RepulsionWeight, LengthSquared(diff));
      ScaledNormal(sqrt, diff, s);
    } else {
      LengthOfScale(sqrt, diff, s);
    }
  }

  lemma PositiveQuotient(w: real, d: real)
    requires 0.0 < w && 0.0 < d
    ensures 0.0 < w / d
  {
  }

  /** Cohesion points to the flock centre with length `8 |centre - position|`. */
  lemma CohesionSpec(sqrt: real -> real, position: Vec3, centre: Vec3)
    requires IsSqrt(sqrt)
    ensures Length(sqrt, Cohesion(position, centre)) == CohesionWeight * Length(sqrt, Sub(centre, position))
    ensures Add(position, Scale(Cohesion(position, centre), 1.0 / CohesionWeight)) == centre
  {
    LengthOfScale(sqrt, Sub(centre, position), CohesionWeight);
  }

  /** Alignment has length 8 toward the flock's mean direction, unless the two directions agree. */
  lemma AlignmentSpec(sqrt: real -> real, direction: Vec3, target: Vec3)
    requires IsSqrt(sqrt) && Length(sqrt, Sub(target, direction)) != 0.0
    ensures Length(sqrt, Alignment(sqrt, direction, target)) == AlignmentWeight
    ensures SameDirection(Alignment(sqrt, direction, target), Sub(target, direction))
  {
    WeightedNormal(sqrt, Sub(target, direction), AlignmentWeight);
  }

  lemma AlignmentOfSame(sqrt: real -> real, direction: Vec3)
    ensures Alignment(sqrt, direction, direction) == Zero
  {
    SubSelf(direction);
    NormalizeZero(sqrt, AlignmentWeight);
  }

  /** Collision steering has length 200 toward the free probe, unless the two directions agree. */
  lemma AvoidCollisionSpec(sqrt: real -> real, direction: Vec3, target: Vec3)
    requires IsSqrt(sqrt) && Length(sqrt, Sub(target, direction)) != 0.0
    ensures Length(sqrt, AvoidCollision(sqrt, direction, target)) == AvoidCollisionWeight
    ensures SameDirection(AvoidCollision(sqrt, direction, target), Sub(target, direction))
  {
    WeightedNormal(sqrt, Sub(target, direction), AvoidCollisionWeight);
  }

  lemma AvoidCollisionOfSame(sqrt: real -> real, direction: Vec3)
    ensures AvoidCollision(sqrt, direction, direction) == Zero
  {
    SubSelf(direction);
    NormalizeZero(sqrt, AvoidCollisionWeight);
  }

  lemma CrossAntisymmetric(a: Vec3, b: Vec3)
    ensures Cross(b, a) == Scale(Cross(a, b), -1.0)
  {
  }

  /**
   * Swapping the second and third vertex flips the normal, so a triangle
   * facing `direction` stops facing it.
   */
  lemma FrontFacingSwap(p0: Vec3, p1: Vec3, p2: Vec3, direction: Vec3)
    ensures IsFrontFacing(p0, p1, p2, direction) ==> !IsFrontFacing(p0, p2, p1, direction)
    ensures Dot(direction, Cross(Sub(p2, p0), Sub(p1, p0))) == -Dot(direction, Cross(Sub(p1, p0), Sub(p2, p0)))
  {
    var n := Cross(Sub(p1, p0), Sub(p2, p0));
    CrossAntisymmetric(Sub(p1, p0), Sub(p2, p0));
    assert Dot(direction, Scale(n, -1.0)) == -Dot(direction, n);
  }

  /**
   * `ClampLength` with both bounds: an in-band vector comes back unchanged;
   * a too-short one gets length exactly `lo`, a too-long one exactly `hi`,
   * in its own direction; a vector of length 0 stays of length 0.
   */
  lemma ClampLengthSpec(sqrt: real -> real, v: Vec3, lo: real, hi: real)
    requires IsSqrt(sqrt) && 0.0 < lo <= hi
    ensures lo <= Length(sqrt, v) <= hi ==> ClampLength(sqrt, v, Limit(lo), Limit(hi)) == v
    ensures 0.0 < Length(sqrt, v) < lo ==>
              Length(sqrt, ClampLength(sqrt, v, Limit(lo), Limit(hi))) == lo
              && SameDirection(ClampLength(sqrt, v, Limit(lo), Limit(hi)), v)
    ensures Length(sqrt, v) > hi ==>
              Length(sqrt, ClampLength(sqrt, v, Limit(lo), Limit(hi))) == hi
              && SameDirection(ClampLength(sqrt, v, Limit(lo), Limit(hi)), v)
    ensures Length(sqrt, v) == 0.0 ==> Length(sqrt, ClampLength(sqrt, v, Limit(lo), Limit(hi))) == 0.0
  {
    WeightedNormal(sqrt, v, lo);
    WeightedNormal(sqrt, v, hi);
  }

  /** Whatever the input, a clamped vector of nonzero length has length in `[lo, hi]`. */
  lemma ClampLengthInBand(sqrt: real -> real, v: Vec3, lo: real, hi: real)
    requires IsSqrt(sqrt) && 0.0 < lo <= hi
    ensures var r := ClampLength(sqrt, v, Limit(lo), Limit(hi));
            Length(sqrt, r) != 0.0 ==> lo <= Length(sqrt, r) <= hi
  {
    LengthNonNegative(sqrt, v);
    ClampLengthSpec(sqrt, v, lo, hi);
  }

  /** The flock type repeats with period 6: three `A`, two `B`, one `C`. */
  lemma TypePeriodic(index: nat)
    ensures Type(index + 6) == Type(index)
    ensures Type(index) == A <==> index % 6 < 3
    ensures Type(index) == C <==> index % 6 == 5
  {
    assert (index + 6) % 6 == index % 6;
  }

  /**
   * A boid at exactly the viewer's position is visible: the normalized
   * difference is the zero vector, whose dot product 0 is at least
   * `cos(0.8 pi) < 0`.
   */
  lemma CoincidentIsVisible(sqrt: real -> real, cosViewport: real, position: Vec3, direction: Vec3)
    requires IsSqrt(sqrt) && cosViewport <= 0.0
    ensures IsVisible(sqrt, cosViewport, position, direction, position)
  {
    var diff := Sub(position, position);
    assert diff == Zero;
    LengthZero(sqrt, diff);
  }
}
