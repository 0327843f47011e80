/** The solver's substep pipeline as functions of the particle collection:
    force accumulation, Verlet integration, one in-order constraint pass, and
    the fixed-timestep accumulator that decides how many substeps run. The
    imperative World in module Physics is proved to compute exactly these. */
module Simulation {
  import opened Vectors
  import opened PhysicsTypes

  /** The implicit per-step velocity of the Verlet scheme. */
  function Velocity(p: Particle): Vec3 {
    Sub(p.position, p.positionOld)
  }

  // ---------------------------------------------------------------------
  // AccumulateForces

  /** AccumulateForces on the whole collection, particle by particle. */
  function Accumulated(ps: seq<Particle>, g: Vec3): (r: seq<Particle>)
    ensures |r| == |ps|
  {
    if |ps| == 0 then []
    else Accumulated(ps[..|ps| - 1], g) + [ps[|ps| - 1].(acceleration := g)]
  }

  /** Every particle's acceleration becomes `g`; nothing else changes. */
  lemma {:induction false} AccumulatedAt(ps: seq<Particle>, g: Vec3, i: nat)
    requires i < |ps|
    ensures Accumulated(ps, g)[i] == ps[i].(acceleration := g)
    ensures Accumulated(ps, g)[i].position == ps[i].position
    ensures Accumulated(ps, g)[i].positionOld == ps[i].positionOld
  {
    if i < |ps| - 1 {
      AccumulatedAt(ps[..|ps| - 1], g, i);
    }
  }

  /** Accumulated is characterised particle by particle. */
  lemma AccumulatedPointwise(ps: seq<Particle>, g: Vec3, qs: seq<Particle>)
    requires |qs| == |ps|
    requires forall j :: 0 <= j < |ps| ==> qs[j] == ps[j].(acceleration := g)
    ensures qs == Accumulated(ps, g)
  {
    forall j | 0 <= j < |ps|
      ensures qs[j] == Accumulated(ps, g)[j]
    {
      AccumulatedAt(ps, g, j);
    }
  }

  // ---------------------------------------------------------------------
  // Integrate

  /** One Verlet step of a single particle with step `h`. */
  function IntegrateParticle(p: Particle, h: real): Particle {
    var displacement := Add(Sub(p.position, p.positionOld), Scale(p.acceleration, Sqr(h)));
    p.(positionOld := p.position, position := Add(p.position, displacement))
  }

  /** Verlet: the old position becomes the current one, and the implicit
      velocity grows by exactly `acceleration * h^2`; acceleration, inverse
      mass and radius are kept. */
  lemma IntegrateVelocity(p: Particle, h: real)
    ensures IntegrateParticle(p, h).positionOld == p.position
    ensures Velocity(IntegrateParticle(p, h)) == Add(Velocity(p), Scale(p.acceleration, Sqr(h)))
    ensures IntegrateParticle(p, h).acceleration == p.acceleration
    ensures IntegrateParticle(p, h).invMass == p.invMass && IntegrateParticle(p, h).radius == p.radius
  {
  }

  /** A particle at rest (position equal to its old position) with no
      acceleration does not move. */
  lemma AtRestStaysPut(p: Particle, h: real)
    requires p.position == p.positionOld && p.acceleration == Zero
    ensures IntegrateParticle(p, h).position == p.position
  {
    assert Scale(Zero, Sqr(h)) == Zero;
  }

  /** Integrate on the whole collection, particle by particle. */
  function Integrated(ps: seq<Particle>, h: real): (r: seq<Particle>)
    ensures |r| == |ps|
  {
    if |ps| == 0 then []
    else Integrated(ps[..|ps| - 1], h) + [IntegrateParticle(ps[|ps| - 1], h)]
  }

  /** Each particle is integrated on its own, from its own state only. */
  lemma {:induction false} IntegratedAt(ps: seq<Particle>, h: real, i: nat)
    requires i < |ps|
    ensures Integrated(ps, h)[i] == IntegrateParticle(ps[i], h)
  {
    if i < |ps| - 1 {
      IntegratedAt(ps[..|ps| - 1], h, i);
    }
  }

  /** Integrated is characterised particle by particle. */
  lemma IntegratedPointwise(ps: seq<Particle>, h: real, qs: seq<Particle>)
    requires |qs| == |ps|
    requires forall j :: 0 <= j < |ps| ==> qs[j] == IntegrateParticle(ps[j], h)
    ensures qs == Integrated(ps, h)
  {
    forall j | 0 <= j < |ps|
      ensures qs[j] == Integrated(ps, h)[j]
    {
      IntegratedAt(ps, h, j);
    }
  }

  // ---------------------------------------------------------------------
  // SatisfyConstraints

  /** No constraint of `cs` governs particle `i`. */
  predicate Ungoverned(cs: seq<Constraint>, i: nat) {
    forall k :: 0 <= k < |cs| ==> !Refers(cs[k], i)
  }

  /** One relaxation pass: every constraint of `cs` applied once, in
      registration order, each seeing the corrections of those before it. */
  function SatisfyAll(apply: ApplyFn, cs: seq<Constraint>, ps: seq<Particle>): (r: seq<Particle>)
    ensures |r| == |ps|
  {
    if |cs| == 0 then ps
    else ApplyConstraint(apply, cs[|cs| - 1], SatisfyAll(apply, cs[..|cs| - 1], ps))
  }

  /** The pass leaves every particle that no constraint governs as it was. */
  lemma {:induction false} SatisfyAllUngoverned(apply: ApplyFn, cs: seq<Constraint>, ps: seq<Particle>, i: nat)
    requires i < |ps| && Ungoverned(cs, i)
    ensures SatisfyAll(apply, cs, ps)[i] == ps[i]
  {
    if |cs| > 0 {
      assert !Refers(cs[|cs| - 1], i);
      SatisfyAllUngoverned(apply, cs[..|cs| - 1], ps, i);
      ApplyConstraintAt(apply, cs[|cs| - 1], SatisfyAll(apply, cs[..|cs| - 1], ps), i);
    }
  }

  /** A pass over `cs1 + cs2` is the pass over `cs1` followed by the pass
      over `cs2`: order of registration is order of application. */
  lemma {:induction false} SatisfyAllAppend(apply: ApplyFn, cs1: seq<Constraint>, cs2: seq<Constraint>, ps: seq<Particle>)
    ensures SatisfyAll(apply, cs1 + cs2, ps) == SatisfyAll(apply, cs2, SatisfyAll(apply, cs1, ps))
    decreases |cs2|
  {
    if |cs2| == 0 {
      assert cs1 + cs2 == cs1;
    } else {
      var last := cs2[|cs2| - 1];
      assert (cs1 + cs2)[..|cs1 + cs2| - 1] == cs1 + cs2[..|cs2| - 1];
      SatisfyAllAppend(apply, cs1, cs2[..|cs2| - 1], ps);
    }
  }

  // ---------------------------------------------------------------------
  // Substeps

  /** One substep: AccumulateForces, then Integrate, then SatisfyConstraints. */
  function Substep(s: Settings, apply: ApplyFn, cs: seq<Constraint>, ps: seq<Particle>): (r: seq<Particle>)
    ensures |r| == |ps|
  {
    SatisfyAll(apply, cs, Integrated(Accumulated(ps, s.gravity), s.timeStep))
  }

  /** The substep as a function of the particles alone. */
  function SubstepFn(s: Settings, apply: ApplyFn, cs: seq<Constraint>): seq<Particle> -> seq<Particle> {
    ps => Substep(s, apply, cs, ps)
  }

  type StepFn = seq<Particle> -> seq<Particle>

  /** `n` applications of `step` in a row. */
  function Iterate(n: nat, step: StepFn, ps: seq<Particle>): seq<Particle> {
    if n == 0 then ps else step(Iterate(n - 1, step, ps))
  }

  /** Running `m` steps and then `n` more is running `m + n`. */
  lemma {:induction false} IterateAdd(m: nat, n: nat, step: StepFn, ps: seq<Particle>)
    ensures Iterate(m + n, step, ps) == Iterate(n, step, Iterate(m, step, ps))
    decreases n
  {
    if n > 0 {
      IterateAdd(m, n - 1, step, ps);
      assert m + n - 1 == m + (n - 1);
    }
  }

  /** A step that keeps the number of particles keeps it over any run. */
  lemma {:induction false} IterateLength(n: nat, step: StepFn, ps: seq<Particle>)
    requires forall qs :: |step(qs)| == |qs|
    ensures |Iterate(n, step, ps)| == |ps|
  {
    if n > 0 {
      IterateLength(n - 1, step, ps);
    }
  }

  /** Runs of two steps that agree everywhere agree. */
  lemma {:induction false} IterateAgree(n: nat, step: StepFn, step': StepFn, ps: seq<Particle>)
    requires forall qs :: step(qs) == step'(qs)
    ensures Iterate(n, step, ps) == Iterate(n, step', ps)
  {
    if n > 0 {
      IterateAgree(n - 1, step, step', ps);
    }
  }

  /** The substep never adds or removes particles. */
  lemma SubstepFnLength(s: Settings, apply: ApplyFn, cs: seq<Constraint>)
    ensures forall qs :: |SubstepFn(s, apply, cs)(qs)| == |qs|
  {
    forall qs
      ensures |SubstepFn(s, apply, cs)(qs)| == |qs|
    {
      assert SubstepFn(s, apply, cs)(qs) == Substep(s, apply, cs, qs);
    }
  }

  /** One more substep. */
  lemma SubstepsNext(n: nat, s: Settings, apply: ApplyFn, cs: seq<Constraint>, ps: seq<Particle>, after: seq<Particle>)
    requires after == Substep(s, apply, cs, Iterate(n, SubstepFn(s, apply, cs), ps))
    ensures after == Iterate(n + 1, SubstepFn(s, apply, cs), ps)
  {
  }

  /** In one substep a particle that no constraint governs gains exactly
      `g * h^2` of implicit velocity, and its old position becomes the
      position it had before the substep. */
  lemma SubstepUngovernedVelocity(s: Settings, apply: ApplyFn, cs: seq<Constraint>, ps: seq<Particle>, i: nat)
    requires i < |ps| && Ungoverned(cs, i)
    ensures Velocity(Substep(s, apply, cs, ps)[i]) == Add(Velocity(ps[i]), Scale(s.gravity, Sqr(s.timeStep)))
    ensures Substep(s, apply, cs, ps)[i].positionOld == ps[i].position
  {
    var acc := Accumulated(ps, s.gravity);
    var integ := Integrated(acc, s.timeStep);
    SatisfyAllUngoverned(apply, cs, integ, i);
    IntegratedAt(acc, s.timeStep, i);
    AccumulatedAt(ps, s.gravity, i);
    IntegrateVelocity(acc[i], s.timeStep);
    assert Substep(s, apply, cs, ps)[i] == integ[i];
    assert integ[i] == IntegrateParticle(acc[i], s.timeStep);
    assert acc[i].acceleration == s.gravity;
    assert Velocity(acc[i]) == Velocity(ps[i]);
  }

  // ---------------------------------------------------------------------
  // The fixed-timestep accumulator

  /** The time `k` steps of length `h` take off the timer, one step at a
      time; TakenIsMultiple shows it is `k * h`. */
  function Taken(k: nat, h: real): real {
    if k == 0 then 0.0 else Taken(k - 1, h) + h
  }

  lemma {:induction false} TakenIsMultiple(k: nat, h: real)
    ensures Taken(k, h) == (k as real) * h
  {
    if k > 0 {
      TakenIsMultiple(k - 1, h);
      assert (k as real) * h == ((k - 1) as real) * h + h;
    }
  }

  lemma {:induction false} TakenAdd(j: nat, k: nat, h: real)
    ensures Taken(j + k, h) == Taken(j, h) + Taken(k, h)
    decreases k
  {
    if k > 0 {
      TakenAdd(j, k - 1, h);
      assert j + k - 1 == j + (k - 1);
    }
  }

  lemma {:induction false} TakenNonNegative(k: nat, h: real)
    requires h >= 0.0
    ensures Taken(k, h) >= 0.0
  {
    if k > 0 {
      TakenNonNegative(k - 1, h);
    }
  }

  /** More steps take more time, at least one step more per extra step. */
  lemma TakenMonotone(j: nat, k: nat, h: real)
    requires j <= k && h > 0.0
    ensures Taken(j, h) <= Taken(k, h)
    ensures j < k ==> Taken(j, h) + h <= Taken(k, h)
  {
    TakenAdd(j, k - j, h);
    assert j + (k - j) == k;
    if j < k {
      TakenNonNegative(k - j - 1, h);
    } else {
      TakenNonNegative(k - j, h);
    }
  }

  /** The number of substeps the accumulator loop runs when the timer holds
      `t` and the step is `h`: the whole number of steps in `t`. */
  function SubstepCount(t: real, h: real): (n: nat)
    requires h > 0.0
    ensures t < h ==> n == 0
    ensures 0.0 <= t ==> Taken(n, h) <= t < Taken(n, h) + h
  {
    if t < 0.0 then 0
    else
      FloorDiv(t, h);
      (t / h).Floor
  }

  /** The floor of `t / h` brackets `t` between two multiples of `h`. */
  lemma FloorDiv(t: real, h: real)
    requires h > 0.0 && 0.0 <= t
    ensures 0 <= (t / h).Floor
    ensures Taken((t / h).Floor, h) <= t < Taken((t / h).Floor, h) + h
    ensures t < h ==> (t / h).Floor == 0
  {
    var q := t / h;
    var f := q.Floor;
    DivBounds(t, h, 0.0);
    DivBounds(t, h, f as real);
    DivBounds(t, h, f as real + 1.0);
    DivBounds(t, h, 1.0);
    TakenIsMultiple(f, h);
    SuccMultiple(f, h);
  }

  lemma SuccMultiple(f: int, h: real)
    ensures (f as real + 1.0) * h == (f as real) * h + h
  {
  }

  lemma MulMonotone(a: real, b: real, h: real)
    requires a <= b && h > 0.0
    ensures a * h <= b * h
  {
    assert b * h - a * h == (b - a) * h;
  }

  lemma MulStrict(a: real, b: real, h: real)
    requires a < b && h > 0.0
    ensures a * h < b * h
  {
    assert b * h - a * h == (b - a) * h;
  }

  /** Comparing `t` with a multiple of `h` is comparing `t / h` with the factor. */
  lemma DivBounds(t: real, h: real, a: real)
    requires h > 0.0
    ensures a * h <= t <==> a <= t / h
    ensures t < a * h <==> t / h < a
  {
    var q := t / h;
    assert q * h == t;
    if a <= q {
      MulMonotone(a, q, h);
    } else {
      MulStrict(q, a, h);
    }
  }

  /** The count is the unique whole number `k` with `k*h <= t < (k+1)*h`. */
  lemma SubstepCountUnique(t: real, h: real, k: nat)
    requires h > 0.0
    requires Taken(k, h) <= t < Taken(k, h) + h
    ensures SubstepCount(t, h) == k
  {
    TakenNonNegative(k, h);
    var n := SubstepCount(t, h);
    if n < k {
      TakenMonotone(n, k, h);
    } else if k < n {
      TakenMonotone(k, n, h);
    }
  }

  /** While the timer still holds a whole step after `k` have been taken,
      fewer than the total count have run. */
  lemma StepsRemain(t: real, h: real, k: nat)
    requires h > 0.0 && Taken(k, h) + h <= t
    ensures k < SubstepCount(t, h)
  {
    TakenNonNegative(k, h);
    var n := SubstepCount(t, h);
    if n <= k {
      TakenMonotone(n, k, h);
    }
  }

  /** What the accumulator loop leaves in the timer: less than one step,
      and never negative unless the timer started negative (then untouched). */
  function Leftover(t: real, h: real): (r: real)
    requires h > 0.0
    ensures r < h
    ensures 0.0 <= t ==> 0.0 <= r
    ensures t < 0.0 ==> r == t
  {
    t - Taken(SubstepCount(t, h), h)
  }

  /** When the accumulator loop stops after `k` steps, `k` is the count and
      what is left in the timer is the leftover. */
  lemma LoopExit(t: real, h: real, k: nat, timer: real)
    requires h > 0.0 && timer == t - Taken(k, h) && timer < h
    requires t < 0.0 ==> k == 0
    requires 0.0 <= t ==> 0.0 <= timer
    ensures SubstepCount(t, h) == k && Leftover(t, h) == timer
  {
    if 0.0 <= t {
      SubstepCountUnique(t, h, k);
    }
  }

  /** What the solver keeps between frames: its particles and its timer. */
  datatype SimState = SimState(particles: seq<Particle>, timer: real)

  /** The effect of World::Update(dt) with substep `step` of length `h`:
      the timer grows by `dt`, then one step runs for every whole step it
      holds, and those steps are taken off the timer. */
  function Advance(step: StepFn, h: real, st: SimState, dt: real): SimState
    requires h > 0.0
  {
    var t := st.timer + dt;
    SimState(Iterate(SubstepCount(t, h), step, st.particles), Leftover(t, h))
  }

  /** With a non-negative timer and frame time, Update runs
      floor((timer + dt) / h) substeps and leaves between 0 and one step in
      the timer: exactly the time the substeps did not consume. */
  lemma AdvanceRunsFloor(step: StepFn, h: real, st: SimState, dt: real)
    requires h > 0.0 && 0.0 <= st.timer && 0.0 <= dt
    ensures var t := st.timer + dt; var n := (t / h).Floor;
      && 0 <= n
      && Advance(step, h, st, dt) == SimState(Iterate(n, step, st.particles), t - (n as real) * h)
      && 0.0 <= Advance(step, h, st, dt).timer < h
  {
    var t := st.timer + dt;
    FloorDiv(t, h);
    TakenIsMultiple((t / h).Floor, h);
  }

  /** World::Update never adds or removes particles. */
  lemma AdvanceKeepsCount(s: Settings, apply: ApplyFn, cs: seq<Constraint>, st: SimState, dt: real)
    requires s.timeStep > 0.0
    ensures |Advance(SubstepFn(s, apply, cs), s.timeStep, st, dt).particles| == |st.particles|
  {
    SubstepFnLength(s, apply, cs);
    IterateLength(SubstepCount(st.timer + dt, s.timeStep), SubstepFn(s, apply, cs), st.particles);
  }

  /** Substep determinism: splitting a frame's time into two Update calls
      runs the same substeps, and leaves the same timer, as one call with
      the sum. */
  lemma UpdateSplit(step: StepFn, h: real, st: SimState, d1: real, d2: real)
    requires h > 0.0
    requires 0.0 <= st.timer && 0.0 <= d1 && 0.0 <= d2
    ensures Advance(step, h, Advance(step, h, st, d1), d2) == Advance(step, h, st, d1 + d2)
  {
    var t1 := st.timer + d1;
    var k1 := SubstepCount(t1, h);
    var k2 := SubstepCount(Leftover(t1, h) + d2, h);
    SubstepCountSplit(t1, d2, h);
    assert st.timer + (d1 + d2) == t1 + d2;
    IterateAdd(k1, k2, step, st.particles);
  }

  /** Counting the steps in `a`, keeping the remainder, and then counting
      the steps in the remainder plus `b` counts, and leaves, what counting
      the steps in `a + b` does. */
  lemma SubstepCountSplit(a: real, b: real, h: real)
    requires h > 0.0 && 0.0 <= a && 0.0 <= b
    ensures SubstepCount(a, h) + SubstepCount(Leftover(a, h) + b, h) == SubstepCount(a + b, h)
    ensures Leftover(Leftover(a, h) + b, h) == Leftover(a + b, h)
  {
    var k1 := SubstepCount(a, h);
    var k2 := SubstepCount(Leftover(a, h) + b, h);
    TakenAdd(k1, k2, h);
    SubstepCountUnique(a + b, h, k1 + k2);
  }

  /** The solver's `iterations` and `drag` settings have no effect. */
  lemma IterationsAndDragIgnored(s: Settings, apply: ApplyFn, cs: seq<Constraint>, st: SimState, dt: real, iterations: uint32, drag: real)
    requires s.timeStep > 0.0
    ensures Advance(SubstepFn(s, apply, cs), s.timeStep, st, dt)
         == Advance(SubstepFn(s.(iterations := iterations, drag := drag), apply, cs), s.timeStep, st, dt)
  {
    var s' := s.(iterations := iterations, drag := drag);
    forall qs
      ensures SubstepFn(s, apply, cs)(qs) == SubstepFn(s', apply, cs)(qs)
    {
      assert SubstepFn(s, apply, cs)(qs) == Substep(s, apply, cs, qs);
      assert SubstepFn(s', apply, cs)(qs) == Substep(s', apply, cs, qs);
    }
    IterateAgree(SubstepCount(st.timer + dt, s.timeStep), SubstepFn(s, apply, cs), SubstepFn(s', apply, cs), st.particles);
  }
}
