# Particle world and box collider of Math3DGraphics, in Dafny

This project models two parts of the engine.

**The particle solver `Physics::World`** (KREngine).
- The world owns point-mass particles, the constraints between them (springs and fixed pins), a list of planes, an accumulator timer and its `Settings`.
- `Update(deltaTime)` adds the frame time to the timer. It then runs one fixed substep for every whole `timeStep` the timer holds. Each substep sets every acceleration to gravity, takes one Verlet step for every particle, and applies every constraint once, in registration order.
- `AddCube` builds a cube:
  - 8 particles at its corners;
  - 32 springs, in the order of the source's loops and lists;
  - when `fixed` is set, one pin per corner.

**The collider `AABoxColliderComponent`** (JREngine). This is an axis-aligned box given by a centre and a half-extent per axis. `CheckCollision` tests this box against another one. On a hit it turns both boxes red.

## Modules

- `Vectors` (vectors.dfy): exact 3- and 4-component vectors.
- `PhysicsTypes` (physics_types.dfy): `Settings` and its defaults, `Particle`, `Constraint` and `Plane`.
  - Constraints refer to particles by index.
  - `Constraint::Apply` is a parameter of type `ApplyFn`. Its only fixed property is its frame: a constraint changes only the particles it names.
- `Simulation` (simulation.dfy): the value-level specification of a substep and of the accumulator.
  - `Substep`, `Iterate n`, `SubstepCount`, `Leftover` and `Advance`.
  - The properties of the loop: the floor count, the leftover bounds, and splitting a frame into two calls.
- `CubeLayout` (cube.dfy): what `AddCube` registers, as tables, including the corner positions. It also has the geometric lemmas that check those tables against the corner layout.
- `Physics` (world.dfy): `class World`. Its fields are the source's. Its methods use `modifies` frames and loops, and each is proved to produce the state the `Simulation` and `CubeLayout` functions describe.
- `Collider` (collider.dfy):
  - the overlap predicate and its meaning;
  - `class AABoxCollider` with the source's constructor, `CheckCollision` and `GetAABB`;
  - a one-field `Transform`.

## What the cube tables show

The layout lemmas prove some facts about the rest lengths that are worth knowing.

- **Top and bottom squares.** The top-square loop joins (i, i+1 mod 4). The corners are numbered so that 0-1-3-2, not 0-1-2-3, goes round the top face. As a result:
  - springs (1,2) and (3,0) join face-diagonal corners, yet rest at `width` (`TopAndVerticalsFit`);
  - the bottom square has the same defect (`BottomFit`);
  - the "diagonals across top/bottom" join corners one edge apart, and each pair is registered twice (`FaceDiagonalsAreEdges`).
- **Body diagonals.** The body-diagonal length is `sqrt(width^2 * squareDiagonal^2)`. That is `sqrt(2) * width^2`, not the `sqrt(3) * width` the corners are apart. So these springs fit only when `2 * width^2 == 3` (`BodyDiagonalsFit`).
- **Side diagonals.** The eight side diagonals fit (`SideDiagonalsFit`).

The model keeps the wiring exactly as written.

## Settings, names and positions the code does not use

- **Settings.** `Update` never reads `iterations` or `drag` (`IterationsAndDragIgnored`).
- **Expired constraints and world time.** The JREngine physics world declares `RemoveExpired` and a `mWorldTime` field (JREngine/Physics/Inc/World.h:45,53). The KREngine world modelled here has neither: `Update` removes no constraints and keeps no running time.
- **AddCube's mass parameter.** In the header of `AddCube` the fifth parameter is called `mass`. The definition calls it `invMass` and gives each particle `invMass / 8`.
- **The collision test.** `CheckCollision` compares the untransformed centres and never reads the transform. `GetAABB` adds the transform's position (`PositionIgnored`).

## Model

| member | source | states |
|---|---|---|
| PhysicsTypes.DefaultSettings | KREngine_but_good/Physics/Inc/World.h:8-13 | the default gravity is (0, -9.81, 0); the step is 1/60, so positive; drag is 0; iterations is 1 |
| PhysicsTypes.RefsAppend | KREngine_but_good/Physics/Src/World.cpp:32-35 | appending a constraint whose particles exist keeps every constraint referring to existing particles |
| Physics.World.constructor | KREngine_but_good/Physics/Src/World.cpp:9-11 | timer 0, default settings, empty collections, and a valid world |
| Physics.World.Setup | KREngine_but_good/Physics/Inc/World.h:27 | the settings become the argument; its frame lets nothing else change |
| Physics.World.AddParticle | KREngine_but_good/Physics/Src/World.cpp:27-30 | the particle is appended at the end; constraints, planes and timer are untouched, and validity is kept |
| Physics.World.AddConstraint | KREngine_but_good/Physics/Src/World.cpp:32-35 | the constraint is appended at the end; particles, planes and timer are untouched |
| Physics.World.ClearDynamic | KREngine_but_good/Physics/Src/World.cpp:155-159 | particles and constraints become empty whatever they were, so a second call changes nothing; planes, timer and settings stay |
| Physics.World.AccumulateForces | KREngine_but_good/Physics/Src/World.cpp:173-179 | the particles become `Accumulated(old, gravity)`: every acceleration is gravity and nothing else changes; a valid world stays valid |
| Physics.World.Integrate | KREngine_but_good/Physics/Src/World.cpp:181-190 | the particles become `Integrated(old, timeStep)`: one Verlet step each; a valid world stays valid |
| Physics.World.SatisfyConstraints | KREngine_but_good/Physics/Src/World.cpp:192-197 | the particles become `SatisfyAll`: every constraint applied once, in registration order; a valid world stays valid |
| Physics.World.Step | KREngine_but_good/Physics/Src/World.cpp:21-23 | one substep: forces, then integration, then constraints; a valid world stays valid |
| Physics.World.Update | KREngine_but_good/Physics/Src/World.cpp:15-25 | the new particles and timer are `Advance` of the old ones: `SubstepCount` substeps, with the `Leftover` of the step count kept in the timer; a valid world stays valid |
| Physics.World.AddCube | KREngine_but_good/Physics/Src/World.cpp:37-153 | appends exactly `CubeParticles` to the particles of `world`, and exactly the 32 springs plus, iff `fixed`, the 8 pins to its constraints; a valid world stays valid |
| Physics.World.AddCubeParticles | KREngine_but_good/Physics/Src/World.cpp:39-60 | eight blanks with radius 0.3 and inverse mass `invMass / 8` are appended, then each is placed at its corner |
| Physics.World.PlaceCorners | KREngine_but_good/Physics/Src/World.cpp:52-60 | particle b+k moves to the kth listed corner; every other particle and the count are unchanged |
| Physics.World.AddCubeEdges | KREngine_but_good/Physics/Src/World.cpp:62-76 | the first two loops append exactly `TopAndVerticals` then `Bottom` |
| Physics.World.AddCubeFaceDiagonals | KREngine_but_good/Physics/Src/World.cpp:81-93 | the third and fourth loops append exactly `TopDiagonals` then `BottomDiagonals` |
| Physics.World.AddCubeCrossDiagonals | KREngine_but_good/Physics/Src/World.cpp:95-131 | the twelve listed springs are appended in order: the side diagonals, then the body diagonals |
| Physics.World.AddCubePins | KREngine_but_good/Physics/Src/World.cpp:133-151 | eight pins are appended, pin i holding particle b+i at its current position |
| Simulation.AccumulatedAt | KREngine_but_good/Physics/Src/World.cpp:173-179 | after force accumulation, each particle's acceleration is gravity; its position, old position, mass and radius are unchanged |
| Simulation.IntegratedAt | KREngine_but_good/Physics/Src/World.cpp:181-190 | particle i after integration is the Verlet step of particle i alone, independent of the other particles |
| Simulation.IntegrateVelocity | KREngine_but_good/Physics/Src/World.cpp:186-188 | the old position becomes the position, the implicit velocity (position - old) grows by exactly acceleration * timeStep^2, and acceleration, inverse mass and radius are kept |
| Simulation.AtRestStaysPut | KREngine_but_good/Physics/Src/World.cpp:181-190 | a particle with position == old and zero acceleration does not move |
| Simulation.SatisfyAllUngoverned | KREngine_but_good/Physics/Src/World.cpp:192-197 | a particle no constraint names is left unchanged by the relaxation pass |
| Simulation.SatisfyAllAppend | KREngine_but_good/Physics/Src/World.cpp:194-197 | applying `cs1 + cs2` is applying `cs1`, then `cs2`: registration order is application order |
| Simulation.SubstepUngovernedVelocity | KREngine_but_good/Physics/Src/World.cpp:20-23 | in one substep, an unconstrained particle's implicit velocity grows by exactly gravity * timeStep^2 |
| Simulation.SubstepCount | KREngine_but_good/Physics/Src/World.cpp:18-20 | the number of substeps is the whole number n with n*h <= t < (n+1)*h; it is 0 when t < h |
| Simulation.SubstepCountUnique | KREngine_but_good/Physics/Src/World.cpp:18-20 | any k with k*h <= t < (k+1)*h is the substep count |
| Simulation.Leftover | KREngine_but_good/Physics/Src/World.cpp:17-24 | the timer left after the loop is below one step; it is non-negative when the timer started non-negative, and untouched when it started negative |
| Simulation.AdvanceRunsFloor | KREngine_but_good/Physics/Src/World.cpp:15-25 | with timer and deltaTime non-negative, Update runs floor((timer + dt) / h) substeps and leaves `t - n*h`, which lies in [0, h), in the timer |
| Simulation.AdvanceKeepsCount | KREngine_but_good/Physics/Src/World.cpp:15-25 | Update never adds or removes particles |
| Simulation.UpdateSplit | KREngine_but_good/Physics/Src/World.cpp:15-25 | Update(d1) followed by Update(d2) equals Update(d1 + d2), in particles and timer |
| Simulation.SubstepCountSplit | KREngine_but_good/Physics/Src/World.cpp:17-24 | counting steps in `a`, then in the leftover plus `b`, gives the count and the leftover of `a + b` |
| Simulation.IterationsAndDragIgnored | KREngine_but_good/Physics/Src/World.cpp:15-25 | changing `iterations` or `drag` does not change what Update does |
| CubeLayout.CornersListed | KREngine_but_good/Physics/Src/World.cpp:52-60 | the eight listed SetPosition corners are the centre moved half a width along each axis, on the sides the index bits give |
| CubeLayout.CornerSqDist | KREngine_but_good/Physics/Src/World.cpp:52-60 | corners i and j are `Hamming(i, j) * width^2` apart, squared: 1 for an edge, 2 for a face diagonal, 3 for a body diagonal |
| CubeLayout.CubeParticlesAt | KREngine_but_good/Physics/Src/World.cpp:39-60 | cube particle i sits at corner i, has radius 0.3, an eighth of the inverse mass and zero acceleration, and its old position follows from its velocity |
| CubeLayout.CubeSpringsLoops | KREngine_but_good/Physics/Src/World.cpp:62-131 | spring 2i is (i, (i+1)%4) and spring 2i+1 is (i, i+4), at rest length width; springs 8+i, 12+i and 16+i are the other three loops' pairs with their lengths; then come the side list and the body list |
| CubeLayout.LoopTables | KREngine_but_good/Physics/Src/World.cpp:62-93 | at each loop index, the four loop tables hold the pairs the loops compute |
| CubeLayout.CubePinsAt | KREngine_but_good/Physics/Src/World.cpp:133-151 | there are 40 constraints iff `fixed` and 32 otherwise; with `fixed`, constraint 32+i pins b+i at corner i |
| CubeLayout.CubePinsFromParticles | KREngine_but_good/Physics/Src/World.cpp:133-151 | pinning the cube particles where they stand pins them at their corners |
| CubeLayout.CubeConstraintsWithin | KREngine_but_good/Physics/Src/World.cpp:62-151 | every constraint the cube adds governs only its own eight particles |
| CubeLayout.CubeKeepsRefs | KREngine_but_good/Physics/Src/World.cpp:37-153 | adding the cube to constraints that refer below b gives constraints that refer below b + 8 |
| CubeLayout.DiagonalLengths | KREngine_but_good/Physics/Src/World.cpp:78-79 | squareDiagonal^2 = 2 width^2 and cubeDiagonal^2 = width^2 * squareDiagonal^2 = 2 width^4 |
| CubeLayout.FitsByHamming | KREngine_but_good/Physics/Src/World.cpp:62-131 | a spring of squared rest length q * width^2 rests at its corners' distance iff q is their Hamming distance |
| CubeLayout.TopAndVerticalsFit | KREngine_but_good/Physics/Src/World.cpp:62-70 | of the first loop's 8 springs, exactly (1,2) and (3,0) do not rest at their corners' distance |
| CubeLayout.BottomFit | KREngine_but_good/Physics/Src/World.cpp:71-76 | of the bottom loop's 4 springs, exactly (4,5) and (6,7) rest at their corners' distance |
| CubeLayout.FaceDiagonalsAreEdges | KREngine_but_good/Physics/Src/World.cpp:81-93 | no "diagonal across top/bottom" rests at its corners' distance, and springs i and i+2 of each loop join the same pair |
| CubeLayout.SideDiagonalsFit | KREngine_but_good/Physics/Src/World.cpp:95-118 | all eight side diagonals rest at their corners' distance |
| CubeLayout.BodyDiagonalsFit | KREngine_but_good/Physics/Src/World.cpp:120-131 | a body diagonal rests at its corners' distance iff 2 width^2 == 3 |
| Collider.AABoxCollider.constructor | JREngine/GameEngine/Src/ColliderComponent.cpp:11-16 | no transform, centre (0,0,0), extents (1,1,1), colour green |
| Collider.AABoxCollider.CheckCollision | JREngine/GameEngine/Src/ColliderComponent.cpp:33-57 | the result is true iff the two local boxes meet on all three axes; on a hit both colours are red; otherwise neither colour changes; no other field ever changes |
| Collider.AABoxCollider.GetAABB | JREngine/GameEngine/Src/ColliderComponent.cpp:59-63 | the centre is the collider's centre plus the transform's position and the extents are the collider's; so a point lies in the world box iff the point moved back by the transform's position lies in the local box |
| Collider.AxisMeetsIffShared | JREngine/GameEngine/Src/ColliderComponent.cpp:50-52 | for non-negative extents, one axis test passes iff the two closed intervals share a point |
| Collider.OverlapsIffCommonPoint | JREngine/GameEngine/Src/ColliderComponent.cpp:35-52 | for non-negative extents, the test passes iff some point lies in both closed boxes |
| Collider.OverlapsSymmetric | JREngine/GameEngine/Src/ColliderComponent.cpp:50-52 | a.CheckCollision(b) and b.CheckCollision(a) agree |
| Collider.OverlapsSelf | JREngine/GameEngine/Src/ColliderComponent.cpp:35-52 | a box collides with a copy of itself iff no extent is negative |
| Collider.OverlapsTranslated | JREngine/GameEngine/Src/ColliderComponent.cpp:35-52 | moving both boxes by the same offset does not change the result |
| Collider.TouchingCounts | JREngine/GameEngine/Src/ColliderComponent.cpp:50 | a box moved along x still hits its original iff the move is at most twice the x half-extent; touching counts |
| Collider.PositionIgnored | JREngine/GameEngine/Src/ColliderComponent.cpp:35-48 | two default boxes hit each other, though their world boxes ten units apart do not overlap |
| Collider.WorldBoxesAgreeAtSamePosition | JREngine/GameEngine/Src/ColliderComponent.cpp:59-63 | when both transforms are at the same position, the world boxes overlap iff the local boxes do |

Some lemmas only unfold a definition for the proofs above, and have no row: `PhysicsTypes.ApplyConstraintAt` (a constraint changes at most the particles it names), `CubeLayout.CubeParticlesListed`, `CubeLayout.PinsListed` and `CubeLayout.CubeRegistration`.

## Left out

- **`World::DebugDraw`** (World.cpp:161-171): it only renders.
- **`World::AddPhysicsPlane`**: it is declared in World.h:33, but its definition is not part of this model. The `planes` field exists only so that other operations can be shown to leave it alone.
- **Collaborators whose source is not part of this model** (`Constraints.h`, `Particle.h`, `Math::Sqrt`, `TransformComponent`) are parameters:
  - `apply` stands for `Constraint::Apply`, with only its frame property;
  - `sqrt` stands for `Math::Sqrt`. The diagonal lemmas assume it is a true square root at the two points `AddCube` uses;
  - `prevOf` stands for the old position that `SetVelocity` followed by `SetPosition` leave;
  - `Transform` is reduced to a position.
- **Spring behaviour.** No mass weighting or other `Apply` behaviour of springs is stated.
- **New particles.** A newly constructed `Particle` is taken to have zero position, old position and acceleration. Only radius and inverse mass are set before it is placed.
- **Floating point.** `float` is modelled as `real`: there is no rounding, and 1/60 is exact.
- **Pointers and memory.**
  - Particles are held by value, and constraints refer to them by index.
  - `new`, the destructor and `SafeDeleteVector` are ownership plumbing and are left out.
  - Constraints that point into a cleared particle collection are not modelled. `ClearDynamic` removes both collections together.
- **Valid.** `World.Valid` (every constraint refers to an existing particle) is a model invariant, not a check of the source. Nothing guards it at run time. The constructor, `ClearDynamic`, `AddParticle`, `AddCube`, `Update` and the three passes keep it. `AddConstraint` does not promise it; `PhysicsTypes.RefsAppend` states when it is kept. No precondition depends on it.
- Physics.World.Update: requires `timeStep > 0`. The source does not check this, and with a zero or negative step its loop never ends once the timer reaches the step.
- **Structure.**
  - **AddCube:** its body is split into one method per phase: particles, edges, face diagonals, cross diagonals and pins.
  - **Update:** its loop body is the method `Step`.
  - **Statement order:** the order of the source's statements within each phase is kept.
- **`AABoxColliderComponent::Initialize` and `Render`** are left out. The first looks up the owner's transform through the component framework, and the second only draws. The destructor is empty.
