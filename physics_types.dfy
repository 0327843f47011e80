/** The value types of the particle/constraint solver: its settings, its
    particles and its constraints. */
module PhysicsTypes {
  import opened Vectors

  type uint32 = i: int | 0 <= i < 0x1_0000_0000

  /** Physics::Settings. `iterations` is carried but never consulted by the
      solver. */
  datatype Settings = Settings(gravity: Vec3, timeStep: real, drag: real, iterations: uint32)

  const DefaultGravityY: real := -9.81
  const DefaultTimeStep: real := 1.0 / 60.0

  /** The default-constructed Settings: gravity (0, -9.81, 0), a 1/60 s step,
      no drag and one iteration. The step is strictly positive, which is what
      lets World.Update's accumulator loop end. */
  function DefaultSettings(): (s: Settings)
    ensures s.timeStep > 0.0 && s.timeStep * 60.0 == 1.0
    ensures s.gravity.x == 0.0 && s.gravity.z == 0.0 && s.gravity.y == -9.81
    ensures s.drag == 0.0 && s.iterations == 1
  {
    Settings(Vec3(0.0, DefaultGravityY, 0.0), DefaultTimeStep, 0.0, 1)
  }

  /** Point-mass state of a Physics::Particle. */
  datatype Particle = Particle(
    position: Vec3,
    positionOld: Vec3,
    acceleration: Vec3,
    invMass: real,
    radius: real)

  /** A constraint as constructed: a Spring between two particles (by index
      into the world's particle collection) with a rest length, or a Fixed pin
      of one particle to an anchor. */
  datatype Constraint =
    | Spring(a: nat, b: nat, restLength: real)
    | Fixed(p: nat, anchor: Vec3)

  /** A static plane of the world. Only its registration is part of this
      model; its shape is kept minimal. */
  datatype Plane = Plane(normal: Vec3, offset: real)

  /** Whether constraint `c` governs the particle at index `i`. */
  predicate Refers(c: Constraint, i: nat) {
    match c
    case Spring(a, b, _) => i == a || i == b
    case Fixed(p, _) => i == p
  }

  /** Every constraint in `cs` refers only to particle indices below `n`. */
  ghost predicate RefsWithin(cs: seq<Constraint>, n: nat) {
    forall k, j: nat :: 0 <= k < |cs| && Refers(cs[k], j) ==> j < n
  }

  /** Appending a constraint that refers below `n` keeps every reference
      below `n`: what World.AddConstraint needs to keep the world valid. */
  lemma RefsAppend(cs: seq<Constraint>, c: Constraint, n: nat)
    requires RefsWithin(cs, n)
    requires forall j: nat :: Refers(c, j) ==> j < n
    ensures RefsWithin(cs + [c], n)
  {
    forall k, j: nat | 0 <= k < |cs + [c]| && Refers((cs + [c])[k], j)
      ensures j < n
    {
      if k < |cs| {
        assert (cs + [c])[k] == cs[k];
      }
    }
  }

  /** Constraint::Apply, whose body is not part of this model: given the
      constraint and the current particles, the new state of particle `i`. */
  type ApplyFn = (Constraint, seq<Particle>, nat) -> Particle

  /** One application of `c`: the particles it governs get the state `apply`
      gives them, computed from the particles as they are before the call;
      every other particle, and the number of particles, stay as they are. */
  function ApplyConstraint(apply: ApplyFn, c: Constraint, ps: seq<Particle>): (r: seq<Particle>)
    ensures |r| == |ps|
  {
    seq(|ps|, i requires 0 <= i < |ps| => if Refers(c, i) then apply(c, ps, i) else ps[i])
  }

  /** The frame of one application: exactly the governed particles change. */
  lemma ApplyConstraintAt(apply: ApplyFn, c: Constraint, ps: seq<Particle>, i: nat)
    requires i < |ps|
    ensures !Refers(c, i) ==> ApplyConstraint(apply, c, ps)[i] == ps[i]
    ensures Refers(c, i) ==> ApplyConstraint(apply, c, ps)[i] == apply(c, ps, i)
  {
  }
}
