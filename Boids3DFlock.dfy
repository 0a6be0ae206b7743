/**
 * `sps.updateParticle` of the 3-D flocking demo (`UpdateBoid`): the
 * per-frame force accumulation, speed clamp and integration of one boid of
 * the solid particle system.
 */
module Boids3DFlock {
  import opened Vectors
  import opened Wrappers
  import opened Boids3D
  import N = Boids3DNavigation

  /**
   * What one frame reads from outside the particle system: the host square
   * root, `cos(0.8 pi)`, `Rotation.FromDirection`, the attraction point (if
   * the mesh exists), the pickable scene, the probe table and
   * `engine.getDeltaTime()` in milliseconds.
   */
  datatype World = World(
    sqrt: real -> real,
    cosViewport: real,
    fromDirection: Vec3 -> Vec3,
    attraction: Option<Vec3>,
    scene: N.Scene,
    table: seq<Vec3>,
    deltaMs: real)

  function DeltaTime(world: World): real { world.deltaMs * 0.001 }

  /** The sum, over the boids `i < n` other than `b`, of their repulsion on `b`. */
  function RepulsionSum(sqrt: real -> real, positions: seq<Vec3>, b: nat, n: nat): Vec3
    requires b < |positions| && n <= |positions|
  {
    if n == 0 then Zero
    else if n - 1 == b then RepulsionSum(sqrt, positions, b, n - 1)
    else Add(RepulsionSum(sqrt, positions, b, n - 1), Repulsion(sqrt, positions[b], positions[n - 1]))
  }

  /** The visible flockmates found so far: their number and the sums of their positions and headings. */
  datatype FlockStats = FlockStats(size: nat, center: Vec3, heading: Vec3)

  /** Boid `i` is a flockmate of `b`: another boid of the same type, visible from `b`. */
  predicate Flockmate(world: World, positions: seq<Vec3>, b: nat, direction: Vec3, i: nat)
    requires b < |positions| && i < |positions|
  {
    i != b && Type(i) == Type(b) && IsVisible(world.sqrt, world.cosViewport, positions[b], direction, positions[i])
  }

  function Flock(world: World, positions: seq<Vec3>, velocities: seq<Vec3>, b: nat, direction: Vec3, n: nat): FlockStats
    requires |velocities| == |positions| && b < |positions| && n <= |positions|
  {
    if n == 0 then FlockStats(0, Zero, Zero)
    else
      var s := Flock(world, positions, velocities, b, direction, n - 1);
      if Flockmate(world, positions, b, direction, n - 1) then
        FlockStats(s.size + 1, Add(s.center, positions[n - 1]), Add(s.heading, Normalize(world.sqrt, velocities[n - 1])))
      else s
  }

  /** Steering toward the flock's centre and mean heading, when there is a flock. */
  function FlockForce(world: World, position: Vec3, direction: Vec3, s: FlockStats): Vec3 {
    if s.size > 0 then
      Add(Cohesion(position, Scale(s.center, 1.0 / s.size as real)),
          Alignment(world.sqrt, direction, Scale(s.heading, 1.0 / s.size as real)))
    else Zero
  }

  /** Collision steering, when the ray along the heading hits a front face. */
  function CollisionForce(world: World, position: Vec3, direction: Vec3): Vec3 {
    if N.IsColliding(world.scene, position, direction, CollisionRange) then
      AvoidCollision(world.sqrt, direction,
                     N.SteerTarget(world.scene, world.sqrt, world.table, position, direction, CollisionRange))
    else Zero
  }

  /** `force.normalize().scaleInPlace(max)` when the force is longer than `max`. */
  function CapForce(sqrt: real -> real, force: Vec3): Vec3 {
    if Length(sqrt, force) > ForceMax then Scale(Normalize(sqrt, force), ForceMax) else force
  }

  /** The total steering force on boid `b` in the state `positions`, `velocities`. */
  function Force(world: World, positions: seq<Vec3>, velocities: seq<Vec3>, b: nat): Vec3
    requires |velocities| == |positions| && b < |positions|
  {
    var position := positions[b];
    var direction := Normalize(world.sqrt, velocities[b]);
    var attraction := if world.attraction.Some? then Attraction(world.sqrt, position, world.attraction.value) else Zero;
    var repelled := Add(attraction, RepulsionSum(world.sqrt, positions, b, |positions|));
    var flocked := Add(repelled, FlockForce(world, position, direction, Flock(world, positions, velocities, b, direction, |positions|)));
    var steered := Add(flocked, CollisionForce(world, position, direction));
    CapForce(world.sqrt, Add(steered, SanitizePosition(position)))
  }

  /** The velocity of boid `b` at the end of the frame. */
  function NewVelocity(world: World, positions: seq<Vec3>, velocities: seq<Vec3>, b: nat): Vec3
    requires |velocities| == |positions| && b < |positions|
  {
    var v := Add(velocities[b], Scale(Force(world, positions, velocities, b), DeltaTime(world)));
    ClampLength(world.sqrt, v, Limit(SpeedMin), Limit(SpeedMax))
  }

  /** The solid particle system: one position, velocity and rotation per boid. */
  class BoidSystem {
    var positions: seq<Vec3>
    var velocities: seq<Vec3>
    var rotations: seq<Vec3>

    predicate Valid()
      reads this
    {
      |velocities| == |positions| && |rotations| == |positions|
    }

    constructor (positions0: seq<Vec3>, velocities0: seq<Vec3>, rotations0: seq<Vec3>)
      requires |velocities0| == |positions0| && |rotations0| == |positions0|
      ensures Valid()
      ensures positions == positions0 && velocities == velocities0 && rotations == rotations0
    {
      positions := positions0;
      velocities := velocities0;
      rotations := rotations0;
    }

    /** The first loop of `UpdateBoid`: repulsion from every other boid. */
    method SumRepulsion(sqrt: real -> real, b: nat) returns (sum: Vec3)
      requires Valid() && b < |positions|
      ensures sum == RepulsionSum(sqrt, positions, b, |positions|)
    {
      sum := Zero;
      var i := 0;
      while i < |positions|
        invariant 0 <= i <= |positions|
        invariant sum == RepulsionSum(sqrt, positions, b, i)
      {
        if i != b {
          sum := Add(sum, Repulsion(sqrt, positions[b], positions[i]));
        }
        i := i + 1;
      }
    }

    /** The second loop of `UpdateBoid`: the visible boids of the same type. */
    method GatherFlock(world: World, b: nat, direction: Vec3) returns (size: nat, center: Vec3, heading: Vec3)
      requires Valid() && b < |positions|
      ensures FlockStats(size, center, heading) == Flock(world, positions, velocities, b, direction, |positions|)
    {
      size, center, heading := 0, Zero, Zero;
      var i := 0;
      while i < |positions|
        invariant 0 <= i <= |positions|
        invariant FlockStats(size, center, heading) == Flock(world, positions, velocities, b, direction, i)
      {
        if i != b && Type(i) == Type(b) && IsVisible(world.sqrt, world.cosViewport, positions[b], direction, positions[i]) {
          size := size + 1;
          center := Add(center, positions[i]);
          heading := Add(heading, Normalize(world.sqrt, velocities[i]));
        }
        i := i + 1;
      }
    }

    /** The force accumulation of `UpdateBoid`, up to and including the cap. */
    method ComputeForce(world: World, b: nat) returns (force: Vec3)
      requires Valid() && b < |positions|
      ensures force == Force(world, positions, velocities, b)
    {
      var position := positions[b];
      var direction := Normalize(world.sqrt, velocities[b]);

      force := Zero;
      if world.attraction.Some? {
        force := Attraction(world.sqrt, position, world.attraction.value);
      }
      var repulsion := SumRepulsion(world.sqrt, b);
      force := Add(force, repulsion);

      var size, center, heading := GatherFlock(world, b, direction);
      ghost var stats := FlockStats(size, center, heading);
      if size > 0 {
        center := Scale(center, 1.0 / size as real);
        heading := Scale(heading, 1.0 / size as real);
        force := Add(force, Add(Cohesion(position, center), Alignment(world.sqrt, direction, heading)));
      } else {
        force := Add(force, Zero);
      }
      assert force == Add(Add(if world.attraction.Some? then Attraction(world.sqrt, position, world.attraction.value) else Zero,
                              RepulsionSum(world.sqrt, positions, b, |positions|)),
                          FlockForce(world, position, direction, stats));

      if N.IsColliding(world.scene, position, direction, CollisionRange) {
        var steer := N.Navigate(world.scene, world.sqrt, world.table, position, direction, CollisionRange);
        force := Add(force, AvoidCollision(world.sqrt, direction, steer));
      } else {
        force := Add(force, Zero);
      }

      force := Add(force, SanitizePosition(position));
      if Length(world.sqrt, force) > ForceMax {
        force := Scale(Normalize(world.sqrt, force), ForceMax);
      }
    }

    /** The new velocity of `UpdateBoid`: the force applied over `deltaTime`, then clamped to the speed band. */
    method ComputeVelocity(world: World, b: nat) returns (velocity: Vec3)
      requires Valid() && b < |positions|
      ensures velocity == NewVelocity(world, positions, velocities, b)
    {
      var deltaTime := world.deltaMs * 0.001;
      var force := ComputeForce(world, b);
      velocity := Add(velocities[b], Scale(force, deltaTime));
      velocity := ClampLength(world.sqrt, velocity, Limit(SpeedMin), Limit(SpeedMax));
    }

    /**
     * `UpdateBoid(boid)`: boid `b` gets the clamped new velocity, the
     * rotation facing it and the position advanced by it; every other boid
     * is left as it was.
     */
    method UpdateBoid(world: World, b: nat)
      requires Valid() && b < |positions|
      modifies this
      ensures Valid()
      ensures var v := NewVelocity(world, old(positions), old(velocities), b);
              && velocities == old(velocities)[b := v]
              && rotations == old(rotations)[b := world.fromDirection(v)]
              && positions == old(positions)[b := Add(old(positions)[b], Scale(v, DeltaTime(world)))]
    {
      var velocity := ComputeVelocity(world, b);
      velocities := velocities[b := velocity];
      rotations := rotations[b := world.fromDirection(velocity)];
      positions := positions[b := Add(positions[b], Scale(velocity, world.deltaMs * 0.001))];
    }
  }

  // ---------------------------------------------------------------------
  // Properties
  // ---------------------------------------------------------------------

  /** The capped force is never longer than `force.max`; a force within it is kept, a longer one keeps its direction. */
  lemma CapForceSpec(sqrt: real -> real, force: Vec3)
    requires IsSqrt(sqrt)
    ensures Length(sqrt, CapForce(sqrt, force)) <= ForceMax
    ensures Length(sqrt, force) <= ForceMax ==> CapForce(sqrt, force) == force
    ensures Length(sqrt, force) > ForceMax ==>
              Length(sqrt, CapForce(sqrt, force)) == ForceMax && SameDirection(CapForce(sqrt, force), force)
  {
    if Length(sqrt, force) > ForceMax {
      ScaledNormal(sqrt, force, ForceMax);
    }
  }

  /** The total force on a boid never exceeds `force.max`. */
  lemma ForceBounded(world: World, positions: seq<Vec3>, velocities: seq<Vec3>, b: nat)
    requires IsSqrt(world.sqrt) && |velocities| == |positions| && b < |positions|
    ensures Length(world.sqrt, Force(world, positions, velocities, b)) <= ForceMax
  {
    var position := positions[b];
    var direction := Normalize(world.sqrt, velocities[b]);
    var attraction := if world.attraction.Some? then Attraction(world.sqrt, position, world.attraction.value) else Zero;
    var repelled := Add(attraction, RepulsionSum(world.sqrt, positions, b, |positions|));
    var flocked := Add(repelled, FlockForce(world, position, direction, Flock(world, positions, velocities, b, direction, |positions|)));
    var steered := Add(flocked, CollisionForce(world, position, direction));
    CapForceSpec(world.sqrt, Add(steered, SanitizePosition(position)));
  }

  /** After a frame a moving boid flies at a speed between `speed.min` and `speed.max`. */
  lemma SpeedInBand(world: World, positions: seq<Vec3>, velocities: seq<Vec3>, b: nat)
    requires IsSqrt(world.sqrt) && |velocities| == |positions| && b < |positions|
    ensures var v := NewVelocity(world, positions, velocities, b);
            Length(world.sqrt, v) != 0.0 ==> SpeedMin <= Length(world.sqrt, v) <= SpeedMax
  {
    var v := Add(velocities[b], Scale(Force(world, positions, velocities, b), DeltaTime(world)));
    ClampLengthInBand(world.sqrt, v, SpeedMin, SpeedMax);
  }

  /** The flock of `b` never counts `b` itself: at most `n - 1` of the first `n` boids. */
  lemma {:induction false} FlockSizeBound(world: World, positions: seq<Vec3>, velocities: seq<Vec3>, b: nat, direction: Vec3, n: nat)
    requires |velocities| == |positions| && b < |positions| && n <= |positions|
    ensures Flock(world, positions, velocities, b, direction, n).size <= n
    ensures b < n ==> Flock(world, positions, velocities, b, direction, n).size <= n - 1
    decreases n
  {
    if n > 0 {
      FlockSizeBound(world, positions, velocities, b, direction, n - 1);
    }
  }

  /** Without flockmates there is no cohesion or alignment force. */
  lemma {:induction false} NoFlockmates(world: World, positions: seq<Vec3>, velocities: seq<Vec3>, b: nat, direction: Vec3, n: nat)
    requires |velocities| == |positions| && b < |positions| && n <= |positions|
    requires forall i :: 0 <= i < n ==> !Flockmate(world, positions, b, direction, i)
    ensures Flock(world, positions, velocities, b, direction, n) == FlockStats(0, Zero, Zero)
    decreases n
  {
    if n > 0 {
      NoFlockmates(world, positions, velocities, b, direction, n - 1);
    }
  }

  /** Every boid counted in the flock is a flockmate, so a nonempty flock has one. */
  lemma {:induction false} FlockmateExists(world: World, positions: seq<Vec3>, velocities: seq<Vec3>, b: nat, direction: Vec3, n: nat)
    requires |velocities| == |positions| && b < |positions| && n <= |positions|
    requires Flock(world, positions, velocities, b, direction, n).size > 0
    ensures exists i :: 0 <= i < n && Flockmate(world, positions, b, direction, i)
    decreases n
  {
    if !Flockmate(world, positions, b, direction, n - 1) {
      FlockmateExists(world, positions, velocities, b, direction, n - 1);
    }
  }

  /** A boid whose same-type boids are all beyond the flock range has an empty flock. */
  lemma {:induction false} IsolatedBoidHasNoFlock(world: World, positions: seq<Vec3>, velocities: seq<Vec3>, b: nat, direction: Vec3, n: nat)
    requires |velocities| == |positions| && b < |positions| && n <= |positions|
    requires forall i :: 0 <= i < n && i != b && Type(i) == Type(b) ==>
               Length(world.sqrt, Sub(positions[i], positions[b])) > FlockRange
    ensures Flock(world, positions, velocities, b, direction, n) == FlockStats(0, Zero, Zero)
    decreases n
  {
    if n > 0 {
      IsolatedBoidHasNoFlock(world, positions, velocities, b, direction, n - 1);
    }
  }
}
