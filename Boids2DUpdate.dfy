/**
 * `SPS.updateParticle` of the 2-D flocking demo: each particle owns a
 * position and a velocity `Vector3` that the update changes in place, an
 * acceleration that it replaces, and a rotation about `z`.
 */
module Boids2DUpdate {
  import opened Vectors
  import opened Boids2D
  import opened Wrappers

  const RepulsionWeight := 3.0
  const AlignWeight := 1.0
  const CohesionWeight := 5.0
  const CollisionWeight := 200.0
  const ForceMin := 0.0
  const ForceMax := 30.0
  const SpeedMin := 4.0
  const SpeedMax := 10.0
  /** Particles `i` and `j` flock together when `i % 3 == j % 3`. */
  const FlockCount := 3

  /** The value of one particle that the others read. */
  datatype Boid = Boid(position: Vec3, velocity: Vec3)

  /** What the neighbour loop accumulates: repulsion, flock size, heading sum and position sum. */
  datatype Neighbourhood = Neighbourhood(repulsion: Vec3, size: nat, direction: Vec3, center: Vec3)

  predicate SameFlock(i: nat, k: nat) { i != k && i % FlockCount == k % FlockCount }

  /** The neighbour loop over the particles `i < n`, for particle `k`. */
  function Neighbours(host: Host, boids: seq<Boid>, k: nat, n: nat): Neighbourhood
    requires k < |boids| && n <= |boids|
  {
    if n == 0 then Neighbourhood(Zero, 0, Zero, Zero)
    else
      var s := Neighbours(host, boids, k, n - 1);
      var i := n - 1;
      if !SameFlock(i, k) then s
      else
        var repulsion := Add(s.repulsion, RepulsionForce(host.sqrt, boids[k].position, boids[i].position));
        if IsVisibleParticle(host.sqrt, host.cosViewAngle, boids[k].position, boids[k].velocity, boids[i].position) then
          Neighbourhood(repulsion, s.size + 1, Add(s.direction, Normalize(host.sqrt, boids[i].velocity)),
                        Add(s.center, boids[i].position))
        else Neighbourhood(repulsion, s.size, s.direction, s.center)
  }

  /** The alignment and cohesion directions of a nonempty flock. */
  function SteerDirection(host: Host, me: Boid, s: Neighbourhood): Vec3 {
    Normalize(host.sqrt, Sub(Normalize(host.sqrt, s.direction), Normalize(host.sqrt, me.velocity)))
  }

  function CohesionDirection(host: Host, me: Boid, s: Neighbourhood): Vec3
    requires s.size > 0
  {
    Normalize(host.sqrt, Sub(Scale(s.center, 1.0 / s.size as real), me.position))
  }

  /** The ray `isColliding` casts: along the heading, `detectDistance` long. */
  function HeadingRay(host: Host, me: Boid): Ray {
    Ray(me.position, Normalize(host.sqrt, me.velocity), DetectDistance)
  }

  /** Alignment and cohesion, added to `force` when the flock is nonempty. */
  function FlockTerms(host: Host, me: Boid, s: Neighbourhood, force: Vec3): Vec3 {
    if s.size > 0 then
      Add(Add(force, Scale(SteerDirection(host, me, s), AlignWeight)), Scale(CohesionDirection(host, me, s), CohesionWeight))
    else force
  }

  /** The avoidance push, added to `force` when the heading ray hits something, weighted by `1 / distance^2`. */
  function CollisionTerm(host: Host, me: Boid, rotationZ: real, force: Vec3): Vec3 {
    var collide := host.pick(HeadingRay(host, me));
    if collide.Hit? then
      Add(force, Scale(Scale(AvoidDirection(host, me.position, me.velocity, rotationZ), InverseSquare(collide.distance)),
                       CollisionWeight))
    else force
  }

  /** The force on particle `k` before its clamp, summed in the order of the source. */
  function Force(host: Host, boids: seq<Boid>, rotationZ: real, k: nat): Vec3
    requires k < |boids|
  {
    var s := Neighbours(host, boids, k, |boids|);
    CollisionTerm(host, boids[k], rotationZ, FlockTerms(host, boids[k], s, Add(Zero, Scale(s.repulsion, RepulsionWeight))))
  }

  /** The new acceleration, velocity, position and rotation of a particle. */
  datatype Next = Next(acceleration: Vec3, velocity: Vec3, position: Vec3, rotationZ: real)

  function DeltaTime(host: Host): real { host.deltaMs * 0.001 }

  /**
   * The end of `updateParticle` on the particle `me` under `force`: clamp
   * the force to `[0, 30]`, integrate and clamp the velocity to `[4, 10]`,
   * integrate and wrap the position, and face the velocity.
   */
  function Advance(host: Host, me: Boid, force: Vec3): Next {
    var dt := DeltaTime(host);
    var acceleration := ClampedLength(host.sqrt, force, ForceMin, ForceMax);
    var velocity := ClampedLength(host.sqrt, Add(me.velocity, Scale(acceleration, dt)), SpeedMin, SpeedMax);
    var position := Wrapped(Add(me.position, Scale(velocity, dt)), WorldBoundary(host.aspectRatio));
    Next(acceleration, velocity, position, host.atan2(velocity.y, velocity.x))
  }

  /** The new state of particle `k` in the state `boids`. */
  function Step(host: Host, boids: seq<Boid>, rotationZ: real, k: nat): Next
    requires k < |boids|
  {
    Advance(host, boids[k], Force(host, boids, rotationZ, k))
  }

  /** A solid particle with the `props` the demo gives it. */
  class Particle {
    const position: Vector3
    const velocity: Vector3
    var acceleration: Vector3
    var rotationZ: real

    constructor (p: Vec3, v: Vec3, angle: real)
      ensures position.Value() == p && velocity.Value() == v && acceleration.Value() == Zero
      ensures rotationZ == angle
      ensures fresh(position) && fresh(velocity) && fresh(acceleration)
    {
      position := new Vector3(p);
      velocity := new Vector3(v);
      acceleration := new Vector3(Zero);
      rotationZ := angle;
    }

    /** The last lines of `updateParticle`: the force becomes the acceleration, then velocity and position follow. */
    method Integrate(host: Host, force: Vec3)
      requires position != velocity
      modifies this, position, velocity
      ensures var next := Advance(host, Boid(old(position.Value()), old(velocity.Value())), force);
              && acceleration.Value() == next.acceleration && velocity.Value() == next.velocity
              && position.Value() == next.position && rotationZ == next.rotationZ
      ensures fresh(acceleration)
    {
      var dt := host.deltaMs * 0.001;
      acceleration := new Vector3(force);
      ClampLengthInPlace(host.sqrt, acceleration, ForceMin, ForceMax);
      velocity.AddInPlace(Scale(acceleration.Value(), dt));
      ClampLengthInPlace(host.sqrt, velocity, SpeedMin, SpeedMax);
      position.AddInPlace(Scale(velocity.Value(), dt));
      SanitizePosition(position, WorldBoundary(host.aspectRatio));
      rotationZ := host.atan2(velocity.y, velocity.x);
    }
  }

  class ParticleSystem {
    const particles: seq<Particle>

    /**
     * No two particles share a particle object or a position or velocity
     * vector, and no acceleration vector is any particle's position or velocity.
     */
    predicate Valid()
      reads particles
    {
      && (forall i :: 0 <= i < |particles| ==>
            && particles[i].position != particles[i].velocity
            && particles[i].acceleration != particles[i].position
            && particles[i].acceleration != particles[i].velocity)
      && (forall i, j :: 0 <= i < |particles| && 0 <= j < |particles| && i != j ==>
            && particles[i] != particles[j]
            && particles[i].position != particles[j].position
            && particles[i].velocity != particles[j].velocity
            && particles[i].position != particles[j].velocity
            && particles[i].acceleration != particles[j].position
            && particles[i].acceleration != particles[j].velocity)
    }

    function Footprint(): set<Vector3> {
      (set i | 0 <= i < |particles| :: particles[i].position) + (set i | 0 <= i < |particles| :: particles[i].velocity)
    }

    /** The values of the first `n` particles. */
    function State(n: nat): (s: seq<Boid>)
      requires n <= |particles|
      reads Footprint()
      ensures |s| == n
      ensures forall i :: 0 <= i < n ==> s[i] == Boid(particles[i].position.Value(), particles[i].velocity.Value())
    {
      if n == 0 then []
      else State(n - 1) + [Boid(particles[n - 1].position.Value(), particles[n - 1].velocity.Value())]
    }

    /** The neighbour loop of `updateParticle`. */
    method GatherNeighbours(host: Host, k: nat, ghost boids: seq<Boid>) returns (s: Neighbourhood)
      requires k < |particles| && boids == State(|particles|)
      ensures s == Neighbours(host, boids, k, |boids|)
    {
      var position := particles[k].position.Value();
      var velocity := particles[k].velocity.Value();
      var repulsion, size, direction, center := Zero, 0, Zero, Zero;
      var i := 0;
      while i < |particles|
        invariant 0 <= i <= |particles|
        invariant Neighbourhood(repulsion, size, direction, center) == Neighbours(host, boids, k, i)
      {
        if i != k && i % FlockCount == k % FlockCount {
          var other := particles[i].position.Value();
          repulsion := Add(repulsion, RepulsionForce(host.sqrt, position, other));
          if IsVisibleParticle(host.sqrt, host.cosViewAngle, position, velocity, other) {
            size := size + 1;
            direction := Add(direction, Normalize(host.sqrt, particles[i].velocity.Value()));
            center := Add(center, other);
          }
        }
        i := i + 1;
      }
      s := Neighbourhood(repulsion, size, direction, center);
    }

    /** The force accumulation of `updateParticle`, before the clamp. */
    method ComputeForce(host: Host, k: nat, ghost boids: seq<Boid>) returns (force: Vec3)
      requires k < |particles| && boids == State(|particles|)
      ensures force == Force(host, boids, particles[k].rotationZ, k)
    {
      var me := Boid(particles[k].position.Value(), particles[k].velocity.Value());
      assert boids[k] == me;
      var s := GatherNeighbours(host, k, boids);
      force := Zero;
      force := Add(force, Scale(s.repulsion, RepulsionWeight));
      force := AddFlockTerms(host, me, s, force);
      force := AddCollisionTerm(host, me, particles[k].rotationZ, force);
      assert force == CollisionTerm(host, boids[k], particles[k].rotationZ,
                                    FlockTerms(host, boids[k], s, Add(Zero, Scale(s.repulsion, RepulsionWeight))));
    }

    /** The `flockSize > 0` branch of `updateParticle`. */
    static method AddFlockTerms(host: Host, me: Boid, s: Neighbourhood, force0: Vec3) returns (force: Vec3)
      ensures force == FlockTerms(host, me, s, force0)
    {
      force := force0;
      if s.size > 0 {
        var steer := Normalize(host.sqrt, Sub(Normalize(host.sqrt, s.direction), Normalize(host.sqrt, me.velocity)));
        force := Add(force, Scale(steer, AlignWeight));
        var cohesion := Normalize(host.sqrt, Sub(Scale(s.center, 1.0 / s.size as real), me.position));
        force := Add(force, Scale(cohesion, CohesionWeight));
      }
    }

    /** The `if (collide)` branch of `updateParticle`. */
    static method AddCollisionTerm(host: Host, me: Boid, rotationZ: real, force0: Vec3) returns (force: Vec3)
      ensures force == CollisionTerm(host, me, rotationZ, force0)
    {
      force := force0;
      var collide := host.pick(Ray(me.position, Normalize(host.sqrt, me.velocity), DetectDistance));
      if collide.Hit? {
        var avoid := SearchAvoidCollision(host, me.position, me.velocity, rotationZ);
        force := Add(force, Scale(Scale(avoid, InverseSquare(collide.distance)), CollisionWeight));
      }
    }

    /**
     * `updateParticle(particle)` for particle `k`: the clamped force becomes
     * its acceleration; its velocity and position vectors are updated in
     * place and its rotation set to the heading; no other particle changes.
     */
    method UpdateParticle(host: Host, k: nat)
      requires Valid() && k < |particles|
      modifies particles[k], particles[k].position, particles[k].velocity
      ensures var next := Step(host, old(State(|particles|)), old(particles[k].rotationZ), k);
              && particles[k].acceleration.Value() == next.acceleration
              && particles[k].velocity.Value() == next.velocity
              && particles[k].position.Value() == next.position
              && particles[k].rotationZ == next.rotationZ
      ensures forall j :: 0 <= j < |particles| && j != k ==>
                && particles[j].position.Value() == old(particles[j].position.Value())
                && particles[j].velocity.Value() == old(particles[j].velocity.Value())
                && particles[j].rotationZ == old(particles[j].rotationZ)
                && particles[j].acceleration == old(particles[j].acceleration)
                && particles[j].acceleration.Value() == old(particles[j].acceleration.Value())
      ensures Valid()
    {
      ghost var boids := State(|particles|);
      var force := ComputeForce(host, k, boids);
      assert boids[k] == Boid(particles[k].position.Value(), particles[k].velocity.Value());
      particles[k].Integrate(host, force);
    }
  }

  // ---------------------------------------------------------------------
  // Properties
  // ---------------------------------------------------------------------

  /** The acceleration never exceeds `force.max`. */
  lemma AccelerationBounded(host: Host, boids: seq<Boid>, rotationZ: real, k: nat)
    requires IsSqrt(host.sqrt) && k < |boids|
    ensures Length(host.sqrt, Step(host, boids, rotationZ, k).acceleration) <= ForceMax
  {
    ClampedLengthAtMost(host.sqrt, Force(host, boids, rotationZ, k), ForceMin, ForceMax);
  }

  /** After the update a particle is either (nearly) at rest or flies between `speed.min` and `speed.max`. */
  lemma SpeedInBand(host: Host, boids: seq<Boid>, rotationZ: real, k: nat)
    requires IsSqrt(host.sqrt) && k < |boids|
    ensures var v := Step(host, boids, rotationZ, k).velocity;
            Length(host.sqrt, v) < Epsilon || SpeedMin <= Length(host.sqrt, v) <= SpeedMax
  {
    var dt := DeltaTime(host);
    var acceleration := ClampedLength(host.sqrt, Force(host, boids, rotationZ, k), ForceMin, ForceMax);
    ClampedLengthSpec(host.sqrt, Add(boids[k].velocity, Scale(acceleration, dt)), SpeedMin, SpeedMax);
  }

  /** A particle inside the world that moves less than one world width per frame stays inside it. */
  lemma StaysInWorld(host: Host, boids: seq<Boid>, rotationZ: real, k: nat)
    requires k < |boids|
    requires var b := WorldBoundary(host.aspectRatio);
             var step := Scale(Step(host, boids, rotationZ, k).velocity, DeltaTime(host));
             && b.xMin <= boids[k].position.x <= b.xMax && b.yMin <= boids[k].position.y <= b.yMax
             && -(b.xMax - b.xMin) <= step.x <= b.xMax - b.xMin
             && -(b.yMax - b.yMin) <= step.y <= b.yMax - b.yMin
    ensures var b := WorldBoundary(host.aspectRatio);
            var p := Step(host, boids, rotationZ, k).position;
            b.xMin <= p.x <= b.xMax && b.yMin <= p.y <= b.yMax
  {
    var b := WorldBoundary(host.aspectRatio);
    WorldBoundaryNonEmpty(host.aspectRatio);
    var v := Step(host, boids, rotationZ, k).velocity;
    WrappedInside(Add(boids[k].position, Scale(v, DeltaTime(host))), b);
  }

  /** The flock of `k` never counts `k` itself. */
  lemma {:induction false} NeighbourhoodBound(host: Host, boids: seq<Boid>, k: nat, n: nat)
    requires k < |boids| && n <= |boids|
    ensures Neighbours(host, boids, k, n).size <= n
    ensures k < n ==> Neighbours(host, boids, k, n).size <= n - 1
    decreases n
  {
    if n > 0 {
      NeighbourhoodBound(host, boids, k, n - 1);
    }
  }

  /** A nonempty flock contains a visible particle of the same flock. */
  lemma {:induction false} FlockHasVisibleMate(host: Host, boids: seq<Boid>, k: nat, n: nat)
    requires k < |boids| && n <= |boids|
    requires Neighbours(host, boids, k, n).size > 0
    ensures exists i :: 0 <= i < n && SameFlock(i, k)
              && IsVisibleParticle(host.sqrt, host.cosViewAngle, boids[k].position, boids[k].velocity, boids[i].position)
    decreases n
  {
    var i := n - 1;
    if !(SameFlock(i, k)
         && IsVisibleParticle(host.sqrt, host.cosViewAngle, boids[k].position, boids[k].velocity, boids[i].position)) {
      FlockHasVisibleMate(host, boids, k, n - 1);
    }
  }

  /** Particles of other flocks exert no repulsion: the sum only runs over flockmates. */
  lemma {:induction false} LoneParticleFeelsNothing(host: Host, boids: seq<Boid>, k: nat, n: nat)
    requires k < |boids| && n <= |boids|
    requires forall i :: 0 <= i < n ==> !SameFlock(i, k)
    ensures Neighbours(host, boids, k, n) == Neighbourhood(Zero, 0, Zero, Zero)
    decreases n
  {
    if n > 0 {
      LoneParticleFeelsNothing(host, boids, k, n - 1);
    }
  }

  /**
   * A particle whose flockmates are all at least the view distance away
   * sees no flock and, as the view distance exceeds the repulsion
   * distance, feels no repulsion either.
   */
  lemma {:induction false} IsolatedParticleAlone(host: Host, boids: seq<Boid>, k: nat, n: nat)
    requires k < |boids| && n <= |boids|
    requires forall i :: 0 <= i < n && SameFlock(i, k) ==>
               Length(host.sqrt, Sub(boids[i].position, boids[k].position)) >= ViewDistance
    ensures Neighbours(host, boids, k, n) == Neighbourhood(Zero, 0, Zero, Zero)
    decreases n
  {
    if n > 0 {
      IsolatedParticleAlone(host, boids, k, n - 1);
      var i := n - 1;
      if SameFlock(i, k) {
        LengthSubSymmetric(host.sqrt, boids[i].position, boids[k].position);
        assert RepulsionForce(host.sqrt, boids[k].position, boids[i].position) == Zero;
        assert Add(Zero, Zero) == Zero;
      }
    }
  }

  // ---------------------------------------------------------------------
  // The update with the repulsion as written
  // ---------------------------------------------------------------------

  /** Some flockmate of `k` among the particles `i < n` sits at `k`'s position. */
  predicate HasCoincidentMate(host: Host, boids: seq<Boid>, k: nat, n: nat)
    requires k < |boids| && n <= |boids|
  {
    exists i :: 0 <= i < n && SameFlock(i, k) && Length(host.sqrt, Sub(boids[k].position, boids[i].position)) == 0.0
  }

  /**
   * The repulsion sum of the neighbour loop with `RepulsionForceAsWritten`:
   * once a term is the NaN vector (`None`) every later sum is NaN too.
   */
  function RepulsionSumAsWritten(host: Host, boids: seq<Boid>, k: nat, n: nat): Option<Vec3>
    requires k < |boids| && n <= |boids|
  {
    if n == 0 then Some(Zero)
    else
      var s := RepulsionSumAsWritten(host, boids, k, n - 1);
      var i := n - 1;
      if !SameFlock(i, k) then s
      else
        match RepulsionForceAsWritten(host.sqrt, boids[k].position, boids[i].position)
        case None => None
        case Some(f) => if s.None? then None else Some(Add(s.value, f))
  }

  /**
   * The written sum is NaN exactly when a flockmate coincides with `k`,
   * and otherwise it is the corrected sum.
   */
  lemma {:induction false} RepulsionSumAgrees(host: Host, boids: seq<Boid>, k: nat, n: nat)
    requires k < |boids| && n <= |boids|
    ensures RepulsionSumAsWritten(host, boids, k, n) ==
      if HasCoincidentMate(host, boids, k, n) then None else Some(Neighbours(host, boids, k, n).repulsion)
    decreases n
  {
    if n > 0 {
      RepulsionSumAgrees(host, boids, k, n - 1);
      var i := n - 1;
      var p, q := boids[k].position, boids[i].position;
      if SameFlock(i, k) && Length(host.sqrt, Sub(p, q)) == 0.0 {
        assert HasCoincidentMate(host, boids, k, n);
      } else {
        if SameFlock(i, k) {
          RepulsionAgrees(host.sqrt, p, q);
        }
        if HasCoincidentMate(host, boids, k, n) {
          var j :| 0 <= j < n && SameFlock(j, k) && Length(host.sqrt, Sub(p, boids[j].position)) == 0.0;
          assert j < n - 1;
          assert HasCoincidentMate(host, boids, k, n - 1);
        } else {
          assert !HasCoincidentMate(host, boids, k, n - 1);
        }
      }
    }
  }

  /**
   * `Step` with the repulsion as written.  `None` is the state a NaN force
   * leads to: `clampLengthInPlace` compares the NaN length with its bounds,
   * every comparison is false, so the acceleration stays NaN, and so do
   * the velocity, the position and the rotation computed from them.
   */
  function StepAsWritten(host: Host, boids: seq<Boid>, rotationZ: real, k: nat): Option<Next>
    requires k < |boids|
  {
    match RepulsionSumAsWritten(host, boids, k, |boids|)
    case None => None
    case Some(repulsion) =>
      var s := Neighbours(host, boids, k, |boids|);
      var force := CollisionTerm(host, boids[k], rotationZ,
                                 FlockTerms(host, boids[k], s, Add(Zero, Scale(repulsion, RepulsionWeight))));
      Some(Advance(host, boids[k], force))
  }

  /**
   * The written update turns particle `k` into NaN exactly when a
   * flockmate coincides with it; otherwise it is `Step`, so the bounds of
   * `AccelerationBounded` and `SpeedInBand` hold for it.
   */
  lemma StepAgrees(host: Host, boids: seq<Boid>, rotationZ: real, k: nat)
    requires k < |boids|
    ensures StepAsWritten(host, boids, rotationZ, k) ==
      if HasCoincidentMate(host, boids, k, |boids|) then None else Some(Step(host, boids, rotationZ, k))
  {
    RepulsionSumAgrees(host, boids, k, |boids|);
  }

  /** Two particles of one flock at one position: as written, the update of either is NaN. */
  lemma CoincidentMateMakesNaN(host: Host, boids: seq<Boid>, rotationZ: real, k: nat, i: nat)
    requires host.sqrt(0.0) == 0.0
    requires k < |boids| && i < |boids| && SameFlock(i, k) && boids[i].position == boids[k].position
    ensures StepAsWritten(host, boids, rotationZ, k) == None
  {
    SubSelf(boids[k].position);
    assert HasCoincidentMate(host, boids, k, |boids|);
    StepAgrees(host, boids, rotationZ, k);
  }
}
