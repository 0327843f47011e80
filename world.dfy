/** Physics::World: the particles, constraints and planes it owns, the
    accumulator that turns frame time into fixed substeps, and the cube
    builder. Each method is proved to leave the world in the state the
    functions of modules Simulation and CubeLayout describe. */
module Physics {
  import opened Vectors
  import opened PhysicsTypes
  import opened Simulation
  import opened CubeLayout

  class World {
    var settings: Settings
    var particles: seq<Particle>
    var constraints: seq<Constraint>
    var planes: seq<Plane>
    var timer: real

    /** Every constraint refers only to particles the world holds. */
    ghost predicate Valid()
      reads this
    {
      RefsWithin(constraints, |particles|)
    }

    /** The timer starts at zero, the settings at their defaults, and the
        collections empty. */
    constructor()
      ensures settings == DefaultSettings()
      ensures particles == [] && constraints == [] && planes == []
      ensures timer == 0.0
      ensures Valid()
    {
      settings := DefaultSettings();
      particles := [];
      constraints := [];
      planes := [];
      timer := 0.0;
    }

    /** Replaces the whole Settings value; nothing else changes. */
    method Setup(s: Settings)
      modifies this`settings
      ensures settings == s
    {
      settings := s;
    }

    method AddParticle(p: Particle)
      modifies this`particles
      ensures particles == old(particles) + [p]
      ensures old(Valid()) ==> Valid()
    {
      particles := particles + [p];
    }

    method AddConstraint(c: Constraint)
      modifies this`constraints
      ensures constraints == old(constraints) + [c]
    {
      constraints := constraints + [c];
    }

    /** Drops every particle and constraint; planes, timer and settings stay.
        The new collections do not depend on the old ones, so a second call
        changes nothing. */
    method ClearDynamic()
      modifies this`particles, this`constraints
      ensures particles == [] && constraints == []
      ensures Valid()
    {
      particles := [];
      constraints := [];
    }

    /** Sets every particle's acceleration to gravity. */
    method AccumulateForces()
      modifies this`particles
      ensures particles == Accumulated(old(particles), settings.gravity)
      ensures old(Valid()) ==> Valid()
    {
      ghost var ps0 := particles;
      var i := 0;
      while i < |particles|
        invariant 0 <= i <= |particles| == |ps0|
        invariant forall j :: 0 <= j < i ==> particles[j] == ps0[j].(acceleration := settings.gravity)
        invariant forall j :: i <= j < |ps0| ==> particles[j] == ps0[j]
      {
        particles := particles[i := particles[i].(acceleration := settings.gravity)];
        i := i + 1;
      }
      AccumulatedPointwise(ps0, settings.gravity, particles);
    }

    /** One Verlet step for every particle. */
    method Integrate()
      modifies this`particles
      ensures particles == Integrated(old(particles), settings.timeStep)
      ensures old(Valid()) ==> Valid()
    {
      ghost var ps0 := particles;
      var timeStepSqr := Sqr(settings.timeStep);
      var i := 0;
      while i < |particles|
        invariant 0 <= i <= |particles| == |ps0|
        invariant forall j :: 0 <= j < i ==> particles[j] == IntegrateParticle(ps0[j], settings.timeStep)
        invariant forall j :: i <= j < |ps0| ==> particles[j] == ps0[j]
      {
        var p := particles[i];
        var displacement := Add(Sub(p.position, p.positionOld), Scale(p.acceleration, timeStepSqr));
        particles := particles[i := p.(positionOld := p.position, position := Add(p.position, displacement))];
        i := i + 1;
      }
      IntegratedPointwise(ps0, settings.timeStep, particles);
    }

    /** Applies every constraint once, in registration order. */
    method SatisfyConstraints(apply: ApplyFn)
      modifies this`particles
      ensures particles == SatisfyAll(apply, constraints, old(particles))
      ensures old(Valid()) ==> Valid()
    {
      var i := 0;
      while i < |constraints|
        invariant 0 <= i <= |constraints|
        invariant particles == SatisfyAll(apply, constraints[..i], old(particles))
      {
        assert constraints[..i + 1][..i] == constraints[..i];
        particles := ApplyConstraint(apply, constraints[i], particles);
        i := i + 1;
      }
      assert constraints[..i] == constraints;
    }

    /** Adds `deltaTime` to the timer, then runs one substep per whole step
        the timer holds, taking each step off the timer. The step must be
        positive for the loop to end. */
    method Update(deltaTime: real, apply: ApplyFn)
      requires settings.timeStep > 0.0
      modifies this`particles, this`timer
      ensures SimState(particles, timer)
           == Advance(SubstepFn(settings, apply, constraints), settings.timeStep,
                      SimState(old(particles), old(timer)), deltaTime)
      ensures old(Valid()) ==> Valid()
    {
      timer := timer + deltaTime;
      ghost var t := timer;
      ghost var h := settings.timeStep;
      ghost var n := SubstepCount(t, h);
      ghost var k: nat := 0;
      while timer >= settings.timeStep
        invariant k <= n
        invariant timer == t - Taken(k, h)
        invariant t < 0.0 ==> k == 0
        invariant 0.0 <= t ==> 0.0 <= timer
        invariant particles == Iterate(k, SubstepFn(settings, apply, constraints), old(particles))
        decreases n - k
      {
        StepsRemain(t, h, k);
        timer := timer - settings.timeStep;
        Step(apply);
        SubstepsNext(k, settings, apply, constraints, old(particles), particles);
        k := k + 1;
      }
      LoopExit(t, h, k, timer);
      AdvanceKeepsCount(settings, apply, constraints, SimState(old(particles), old(timer)), deltaTime);
    }

    /** The body of Update's accumulator loop, after the timer is charged:
        AccumulateForces, Integrate, SatisfyConstraints. */
    method Step(apply: ApplyFn)
      modifies this`particles
      ensures particles == Substep(settings, apply, constraints, old(particles))
      ensures old(Valid()) ==> Valid()
    {
      AccumulateForces();
      Integrate();
      SatisfyConstraints(apply);
    }

    /** Builds a cube in `world` (not in this world): eight particles at the
        corners, then the 32 springs in the order of CubeSprings, then, when
        `fixed`, one pin per particle at its corner. `sqrt` stands for
        Math::Sqrt, and `prevOf(corner, velocity)` for the old position that
        Particle::SetVelocity followed by Particle::SetPosition leave. The
        body runs in the phases below, one method each. */
    method AddCube(world: World, position: Vec3, velocity: Vec3, sqrt: real -> real,
                   prevOf: (Vec3, Vec3) -> Vec3,
                   width: real := 1.0, invMass: real := 1.0, fixed: bool := false)
      modifies world`particles, world`constraints
      ensures world.particles
           == old(world.particles) + CubeParticles(position, velocity, width, invMass, prevOf)
      ensures world.constraints
           == old(world.constraints)
            + CubeConstraints(|old(world.particles)|, position, width, fixed, sqrt)
      ensures old(world.Valid()) ==> world.Valid()
    {
      ghost var ps0, cs0 := world.particles, world.constraints;
      ghost var valid0 := world.Valid();
      var b := |world.particles|;
      AddCubeParticles(world, position, velocity, width, invMass, prevOf);
      AddCubeEdges(world, b, width);
      var squareDiagonalLength := SquareDiagonal(width, sqrt);
      var cubeDiagonalLength := CubeDiagonal(width, sqrt);
      AddCubeFaceDiagonals(world, b, squareDiagonalLength);
      AddCubeCrossDiagonals(world, b, squareDiagonalLength, cubeDiagonalLength);
      ghost var cs1 := world.constraints;
      if fixed {
        AddCubePins(world, b);
        assert world.particles[b..b + ParticleCount] == CubeParticles(position, velocity, width, invMass, prevOf);
        CubePinsFromParticles(b, position, velocity, width, invMass, prevOf);
        assert world.constraints == cs1 + Pins(b, Corners(position, width));
      } else {
        assert world.constraints == cs1 + [];
      }
      CubeRegistration(cs0, b, position, width, fixed, sqrt);
      if valid0 {
        CubeKeepsRefs(cs0, b, position, width, fixed, sqrt);
      }
    }

    /** The first phase of AddCube: eight particles with an eighth of the
        inverse mass each, registered, then placed at the corners. */
    method AddCubeParticles(world: World, position: Vec3, velocity: Vec3, width: real, invMass: real,
                            prevOf: (Vec3, Vec3) -> Vec3)
      modifies world`particles
      ensures world.particles
           == old(world.particles) + CubeParticles(position, velocity, width, invMass, prevOf)
    {
      var particleInvMass := invMass / 8.0;
      var halfWidth := width * 0.5;
      var b := |world.particles|;
      ghost var ps0 := world.particles;

      var blank := Particle(Zero, Zero, Zero, particleInvMass, ParticleRadius);
      var i := 0;
      while i < 8
        invariant 0 <= i <= 8
        invariant |world.particles| == b + i
        invariant forall j :: 0 <= j < b ==> world.particles[j] == ps0[j]
        invariant forall j :: b <= j < b + i ==> world.particles[j] == blank
      {
        world.AddParticle(blank);
        i := i + 1;
      }
      PlaceCorners(world, b, position, halfWidth, velocity, prevOf);
      assert blank == Blank(invMass);
      CornersListed(position, width);
      CubeParticlesFrom(ps0, world.particles, position, velocity, width, invMass, prevOf);
    }

    /** The eight SetPosition calls of AddCube: particle `b + k` moves to
        corner `k` of the cube of half-width `halfWidth` around `position`. */
    method PlaceCorners(world: World, b: nat, position: Vec3, halfWidth: real, velocity: Vec3,
                        prevOf: (Vec3, Vec3) -> Vec3)
      requires b + ParticleCount <= |world.particles|
      modifies world`particles
      ensures |world.particles| == |old(world.particles)|
      ensures forall j :: 0 <= j < |world.particles| && !(b <= j < b + ParticleCount)
                ==> world.particles[j] == old(world.particles)[j]
      ensures forall k :: b <= k < b + ParticleCount ==>
                world.particles[k] == Placed(old(world.particles)[k], HalfCorners(position, halfWidth)[k - b], velocity, prevOf)
    {
      world.particles := world.particles[b + 0 := Placed(world.particles[b + 0], Vec3(position.x - halfWidth, position.y + halfWidth, position.z + halfWidth), velocity, prevOf)];
      world.particles := world.particles[b + 1 := Placed(world.particles[b + 1], Vec3(position.x + halfWidth, position.y + halfWidth, position.z + halfWidth), velocity, prevOf)];
      world.particles := world.particles[b + 2 := Placed(world.particles[b + 2], Vec3(position.x - halfWidth, position.y + halfWidth, position.z - halfWidth), velocity, prevOf)];
      world.particles := world.particles[b + 3 := Placed(world.particles[b + 3], Vec3(position.x + halfWidth, position.y + halfWidth, position.z - halfWidth), velocity, prevOf)];

      world.particles := world.particles[b + 4 := Placed(world.particles[b + 4], Vec3(position.x - halfWidth, position.y - halfWidth, position.z + halfWidth), velocity, prevOf)];
      world.particles := world.particles[b + 5 := Placed(world.particles[b + 5], Vec3(position.x + halfWidth, position.y - halfWidth, position.z + halfWidth), velocity, prevOf)];
      world.particles := world.particles[b + 6 := Placed(world.particles[b + 6], Vec3(position.x - halfWidth, position.y - halfWidth, position.z - halfWidth), velocity, prevOf)];
      world.particles := world.particles[b + 7 := Placed(world.particles[b + 7], Vec3(position.x + halfWidth, position.y - halfWidth, position.z - halfWidth), velocity, prevOf)];
      ghost var corners := HalfCorners(position, halfWidth);
      forall k | b <= k < b + ParticleCount
        ensures world.particles[k] == Placed(old(world.particles)[k], corners[k - b], velocity, prevOf)
      {
        if k == b + 0 {} else if k == b + 1 {} else if k == b + 2 {} else if k == b + 3 {}
        else if k == b + 4 {} else if k == b + 5 {} else if k == b + 6 {} else {}
      }
    }

    /** The second phase of AddCube: the twelve edges, by the first two loops. */
    method AddCubeEdges(world: World, b: nat, width: real)
      modifies world`constraints
      ensures world.constraints == old(world.constraints) + TopAndVerticals(b, width) + Bottom(b, width)
    {
      ghost var cs0 := world.constraints;
      ghost var first := TopAndVerticals(b, width);
      var i := 0;
      while i < 4
        invariant 0 <= i <= 4
        invariant world.constraints == cs0 + first[..2 * i]
      {
        LoopTables(b, width, width, i);
        world.AddConstraint(Spring(b + i, b + (i + 1) % 4, width));
        world.AddConstraint(Spring(b + i, b + i + 4, width));
        assert first[..2 * (i + 1)] == first[..2 * i] + [first[2 * i], first[2 * i + 1]];
        i := i + 1;
      }
      assert first[..8] == first;
      ghost var cs1 := world.constraints;
      ghost var second := Bottom(b, width);
      i := 0;
      while i < 4
        invariant 0 <= i <= 4
        invariant world.constraints == cs1 + second[..i]
      {
        LoopTables(b, width, width, i);
        world.AddConstraint(Spring(b + i + 4, b + (i + 1) % 4 + 4, width));
        assert second[..i + 1] == second[..i] + [second[i]];
        i := i + 1;
      }
      assert second[..4] == second;
    }

    /** The third and fourth loops of AddCube: the diagonals across the
        top and across the bottom, of rest length `squareDiagonalLength`. */
    method AddCubeFaceDiagonals(world: World, b: nat, squareDiagonalLength: real)
      modifies world`constraints
      ensures world.constraints
           == old(world.constraints) + TopDiagonals(b, squareDiagonalLength) + BottomDiagonals(b, squareDiagonalLength)
    {
      ghost var cs0 := world.constraints;
      ghost var third := TopDiagonals(b, squareDiagonalLength);
      var i := 0;
      while i < 4
        invariant 0 <= i <= 4
        invariant world.constraints == cs0 + third[..i]
      {
        LoopTables(b, squareDiagonalLength, squareDiagonalLength, i);
        world.AddConstraint(Spring(b + i, b + (i + 2) % 4, squareDiagonalLength));
        assert third[..i + 1] == third[..i] + [third[i]];
        i := i + 1;
      }
      assert third[..4] == third;
      ghost var cs1 := world.constraints;
      ghost var fourth := BottomDiagonals(b, squareDiagonalLength);
      i := 0;
      while i < 4
        invariant 0 <= i <= 4
        invariant world.constraints == cs1 + fourth[..i]
      {
        LoopTables(b, squareDiagonalLength, squareDiagonalLength, i);
        world.AddConstraint(Spring(b + i + 4, b + (i + 2) % 4 + 4, squareDiagonalLength));
        assert fourth[..i + 1] == fourth[..i] + [fourth[i]];
        i := i + 1;
      }
      assert fourth[..4] == fourth;
    }

    /** The listed diagonals of AddCube: eight across the sides, of rest
        length `squareDiagonalLength`, and four through the centre, of rest
        length `cubeDiagonalLength`. */
    method AddCubeCrossDiagonals(world: World, b: nat, squareDiagonalLength: real, cubeDiagonalLength: real)
      modifies world`constraints
      ensures world.constraints
           == old(world.constraints) + SideDiagonals(b, squareDiagonalLength) + BodyDiagonals(b, cubeDiagonalLength)
    {
      world.AddConstraint(Spring(b + 0, b + 5, squareDiagonalLength));
      world.AddConstraint(Spring(b + 1, b + 7, squareDiagonalLength));
      world.AddConstraint(Spring(b + 2, b + 4, squareDiagonalLength));
      world.AddConstraint(Spring(b + 3, b + 6, squareDiagonalLength));
      world.AddConstraint(Spring(b + 0, b + 6, squareDiagonalLength));
      world.AddConstraint(Spring(b + 1, b + 4, squareDiagonalLength));
      world.AddConstraint(Spring(b + 2, b + 7, squareDiagonalLength));
      world.AddConstraint(Spring(b + 3, b + 5, squareDiagonalLength));

      world.AddConstraint(Spring(b + 0, b + 7, cubeDiagonalLength));
      world.AddConstraint(Spring(b + 1, b + 6, cubeDiagonalLength));
      world.AddConstraint(Spring(b + 2, b + 5, cubeDiagonalLength));
      world.AddConstraint(Spring(b + 3, b + 4, cubeDiagonalLength));
    }

    /** The last phase of AddCube: each cube particle pinned where it is. */
    method AddCubePins(world: World, b: nat)
      requires b + ParticleCount <= |world.particles|
      modifies world`constraints
      ensures world.constraints
           == old(world.constraints) + Pins(b, Positions(world.particles[b..b + ParticleCount]))
    {
      ghost var cs0 := world.constraints;
      world.AddConstraint(Fixed(b + 0, world.particles[b + 0].position));
      world.AddConstraint(Fixed(b + 1, world.particles[b + 1].position));
      world.AddConstraint(Fixed(b + 2, world.particles[b + 2].position));
      world.AddConstraint(Fixed(b + 3, world.particles[b + 3].position));
      world.AddConstraint(Fixed(b + 4, world.particles[b + 4].position));
      world.AddConstraint(Fixed(b + 5, world.particles[b + 5].position));
      world.AddConstraint(Fixed(b + 6, world.particles[b + 6].position));
      world.AddConstraint(Fixed(b + 7, world.particles[b + 7].position));
      PinsOfPositions(b, world.particles[b..b + ParticleCount]);
    }
  }
}
