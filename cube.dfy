/** The composite builder World::AddCube, as tables: the eight corner
    positions, the eight particles, the 32 springs in the order they are
    registered, and the optional eight pins. The imperative builder in module
    Physics is proved to register exactly these; the lemmas here say what the
    tables mean geometrically, including the two places where the rest
    lengths disagree with the corner layout. */
module CubeLayout {
  import opened Vectors
  import opened PhysicsTypes

  const ParticleRadius: real := 0.3
  const ParticleCount: nat := 8
  const SpringCount: nat := 32

  // ---------------------------------------------------------------------
  // Corners

  /** The corner positions in particle order. Corners 0-3 are on the top
      (y + w/2), 4-7 below them; x is - for even and + for odd indices, z is
      + for 0, 1, 4, 5 and - for 2, 3, 6, 7. So 0-1-3-2, not 0-1-2-3, goes
      round the top face. */
  function Corners(position: Vec3, width: real): (r: seq<Vec3>)
    ensures |r| == ParticleCount
  {
    seq(ParticleCount, i requires 0 <= i < ParticleCount => CornerAt(position, width, i))
  }

  /** The corners as AddCube lists them, from the half-width `h`. */
  function HalfCorners(position: Vec3, h: real): (r: seq<Vec3>)
    ensures |r| == ParticleCount
  {
    [ Vec3(position.x - h, position.y + h, position.z + h),
      Vec3(position.x + h, position.y + h, position.z + h),
      Vec3(position.x - h, position.y + h, position.z - h),
      Vec3(position.x + h, position.y + h, position.z - h),
      Vec3(position.x - h, position.y - h, position.z + h),
      Vec3(position.x + h, position.y - h, position.z + h),
      Vec3(position.x - h, position.y - h, position.z - h),
      Vec3(position.x + h, position.y - h, position.z - h) ]
  }

  /** The corner's side on each axis: 1 for the + side of x, the - side of
      y (bottom) and the - side of z. */
  function XBit(i: nat): nat { i % 2 }
  function ZBit(i: nat): nat { (i / 2) % 2 }
  function YBit(i: nat): nat { i / 4 }

  /** The number of axes on which corners `i` and `j` lie on different sides:
      1 for an edge, 2 for a face diagonal, 3 for a body diagonal. */
  function Hamming(i: nat, j: nat): nat {
    (if XBit(i) == XBit(j) then 0 else 1)
    + (if YBit(i) == YBit(j) then 0 else 1)
    + (if ZBit(i) == ZBit(j) then 0 else 1)
  }

  /** The sign of the offset along an axis whose bit is `bit`: for x the +
      side is bit 1, for y and z it is bit 0. */
  function Side(bit: nat): real { if bit == 0 then -1.0 else 1.0 }
  function Flip(bit: nat): real { if bit == 0 then 1.0 else -1.0 }

  /** Corner `i` as a formula: the centre moved half a width along each
      axis, on the sides its index bits give. */
  function CornerAt(position: Vec3, width: real, i: nat): Vec3 {
    Vec3(position.x + Side(XBit(i)) * (width * 0.5),
         position.y + Flip(YBit(i)) * (width * 0.5),
         position.z + Flip(ZBit(i)) * (width * 0.5))
  }

  /** The listed corners are the formula's. */
  lemma CornersListed(position: Vec3, width: real)
    ensures HalfCorners(position, width * 0.5) == Corners(position, width)
  {
    var h := width * 0.5;
    assert Side(0) * h == -h && Side(1) * h == h;
    assert Flip(0) * h == h && Flip(1) * h == -h;
    forall i | 0 <= i < ParticleCount
      ensures HalfCorners(position, h)[i] == Corners(position, width)[i]
    {
      assert i == 0 || i == 1 || i == 2 || i == 3 || i == 4 || i == 5 || i == 6 || i == 7;
    }
  }

  /** One axis of the distance between two corners at offsets `si * h` and
      `sj * h` from the same centre coordinate `c`, where `h` is half the
      width. */
  lemma AxisSq(ci: real, cj: real, c: real, si: real, sj: real, h: real, width: real)
    requires si == -1.0 || si == 1.0
    requires sj == -1.0 || sj == 1.0
    requires ci == c + si * h && cj == c + sj * h && h == width * 0.5
    ensures Sqr(ci - cj) == if si == sj then 0.0 else Sqr(width)
  {
    if si == sj {
      assert ci - cj == 0.0;
    } else if si == 1.0 {
      assert ci - cj == width;
    } else {
      assert ci - cj == -width;
      assert Sqr(-width) == Sqr(width);
    }
  }

  /** The Hamming distance times `k`, axis by axis. */
  lemma HammingScaled(i: nat, j: nat, k: real)
    ensures (Hamming(i, j) as real) * k
         == (if XBit(i) == XBit(j) then 0.0 else k)
          + (if YBit(i) == YBit(j) then 0.0 else k)
          + (if ZBit(i) == ZBit(j) then 0.0 else k)
  {
    var n := Hamming(i, j);
    assert n == 0 || n == 1 || n == 2 || n == 3;
  }

  lemma CornerAtSqDist(position: Vec3, width: real, i: nat, j: nat)
    requires i < ParticleCount && j < ParticleCount
    ensures SqDist(CornerAt(position, width, i), CornerAt(position, width, j))
         == (Hamming(i, j) as real) * Sqr(width)
  {
    var h := width * 0.5;
    var ci, cj := CornerAt(position, width, i), CornerAt(position, width, j);
    assert XBit(i) < 2 && XBit(j) < 2 && ZBit(i) < 2 && ZBit(j) < 2 && YBit(i) < 2 && YBit(j) < 2;
    AxisSq(ci.x, cj.x, position.x, Side(XBit(i)), Side(XBit(j)), h, width);
    AxisSq(ci.y, cj.y, position.y, Flip(YBit(i)), Flip(YBit(j)), h, width);
    AxisSq(ci.z, cj.z, position.z, Flip(ZBit(i)), Flip(ZBit(j)), h, width);
    SqDistAxes(ci, cj);
    HammingScaled(i, j, Sqr(width));
  }

  /** Two corners are `sqrt(Hamming) * width` apart: an edge `width`, a face
      diagonal `sqrt(2) * width`, a body diagonal `sqrt(3) * width`. */
  lemma CornerSqDist(position: Vec3, width: real, i: nat, j: nat)
    requires i < ParticleCount && j < ParticleCount
    ensures SqDist(Corners(position, width)[i], Corners(position, width)[j])
         == (Hamming(i, j) as real) * Sqr(width)
  {
    CornerAtSqDist(position, width, i, j);
  }

  // ---------------------------------------------------------------------
  // Particles

  /** A particle as the first loop creates it: radius 0.3 and an eighth of
      the cube's inverse mass. Its position is not yet set. */
  function Blank(invMass: real): Particle {
    Particle(Zero, Zero, Zero, invMass / 8.0, ParticleRadius)
  }

  /** Particle::SetPosition(pos) after SetVelocity(velocity): the position
      becomes `pos` and the old position `prevOf(pos, velocity)`. */
  function Placed(p: Particle, pos: Vec3, velocity: Vec3, prevOf: (Vec3, Vec3) -> Vec3): Particle {
    p.(position := pos, positionOld := prevOf(pos, velocity))
  }

  /** The eight particles AddCube registers, in order: each blank placed at
      its corner. */
  function CubeParticles(position: Vec3, velocity: Vec3, width: real, invMass: real,
                         prevOf: (Vec3, Vec3) -> Vec3): (r: seq<Particle>)
    ensures |r| == ParticleCount
  {
    var c := Corners(position, width);
    seq(ParticleCount, i requires 0 <= i < ParticleCount => Placed(Blank(invMass), c[i], velocity, prevOf))
  }

  /** Each cube particle sits at its corner, with an eighth of the inverse
      mass, radius 0.3 and no acceleration. */
  lemma CubeParticlesAt(position: Vec3, velocity: Vec3, width: real, invMass: real,
                        prevOf: (Vec3, Vec3) -> Vec3, i: nat)
    requires i < ParticleCount
    ensures var p := CubeParticles(position, velocity, width, invMass, prevOf)[i];
      && p.position == Corners(position, width)[i]
      && p.positionOld == prevOf(Corners(position, width)[i], velocity)
      && p.invMass * 8.0 == invMass && p.radius == 0.3 && p.acceleration == Zero
  {
  }

  /** A collection that extends `ps0` by the eight placed blanks extends it
      by the cube particles. */
  lemma CubeParticlesFrom(ps0: seq<Particle>, qs: seq<Particle>, position: Vec3, velocity: Vec3,
                          width: real, invMass: real, prevOf: (Vec3, Vec3) -> Vec3)
    requires |qs| == |ps0| + ParticleCount
    requires forall j :: 0 <= j < |ps0| ==> qs[j] == ps0[j]
    requires forall k :: |ps0| <= k < |qs|
               ==> qs[k] == Placed(Blank(invMass), Corners(position, width)[k - |ps0|], velocity, prevOf)
    ensures qs == ps0 + CubeParticles(position, velocity, width, invMass, prevOf)
  {
    var r := ps0 + CubeParticles(position, velocity, width, invMass, prevOf);
    forall j | 0 <= j < |qs|
      ensures qs[j] == r[j]
    {
    }
  }

  /** The cube particles written out, corner by corner. */
  lemma CubeParticlesListed(position: Vec3, velocity: Vec3, width: real, invMass: real,
                            prevOf: (Vec3, Vec3) -> Vec3)
    ensures var c, p := Corners(position, width), Blank(invMass);
      CubeParticles(position, velocity, width, invMass, prevOf)
        == [ Placed(p, c[0], velocity, prevOf), Placed(p, c[1], velocity, prevOf),
             Placed(p, c[2], velocity, prevOf), Placed(p, c[3], velocity, prevOf),
             Placed(p, c[4], velocity, prevOf), Placed(p, c[5], velocity, prevOf),
             Placed(p, c[6], velocity, prevOf), Placed(p, c[7], velocity, prevOf) ]
  {
  }

  /** The pins written out, each at the position its cube particle holds. */
  lemma PinsListed(b: nat, position: Vec3, velocity: Vec3, width: real, invMass: real,
                   prevOf: (Vec3, Vec3) -> Vec3)
    ensures var ps := CubeParticles(position, velocity, width, invMass, prevOf);
      Pins(b, Corners(position, width))
        == [ Fixed(b + 0, ps[0].position), Fixed(b + 1, ps[1].position),
             Fixed(b + 2, ps[2].position), Fixed(b + 3, ps[3].position),
             Fixed(b + 4, ps[4].position), Fixed(b + 5, ps[5].position),
             Fixed(b + 6, ps[6].position), Fixed(b + 7, ps[7].position) ]
  {
  }

  // ---------------------------------------------------------------------
  // Springs, in registration order; `b` is the index of particle 0

  /** First loop: for each i in 0..3, the springs (i, (i+1)%4) and (i, i+4),
      both of rest length `w`. */
  function TopAndVerticals(b: nat, w: real): seq<Constraint> {
    [ Spring(b + 0, b + 1, w), Spring(b + 0, b + 4, w),
      Spring(b + 1, b + 2, w), Spring(b + 1, b + 5, w),
      Spring(b + 2, b + 3, w), Spring(b + 2, b + 6, w),
      Spring(b + 3, b + 0, w), Spring(b + 3, b + 7, w) ]
  }

  /** Second loop: (i+4, (i+1)%4 + 4), rest length `w`. */
  function Bottom(b: nat, w: real): seq<Constraint> {
    [ Spring(b + 4, b + 5, w), Spring(b + 5, b + 6, w),
      Spring(b + 6, b + 7, w), Spring(b + 7, b + 4, w) ]
  }

  /** Third loop: (i, (i+2)%4), rest length `sd`. */
  function TopDiagonals(b: nat, sd: real): seq<Constraint> {
    [ Spring(b + 0, b + 2, sd), Spring(b + 1, b + 3, sd),
      Spring(b + 2, b + 0, sd), Spring(b + 3, b + 1, sd) ]
  }

  /** Fourth loop: (i+4, (i+2)%4 + 4), rest length `sd`. */
  function BottomDiagonals(b: nat, sd: real): seq<Constraint> {
    [ Spring(b + 4, b + 6, sd), Spring(b + 5, b + 7, sd),
      Spring(b + 6, b + 4, sd), Spring(b + 7, b + 5, sd) ]
  }

  /** The eight listed side diagonals, rest length `sd`. */
  function SideDiagonals(b: nat, sd: real): seq<Constraint> {
    [ Spring(b + 0, b + 5, sd), Spring(b + 1, b + 7, sd),
      Spring(b + 2, b + 4, sd), Spring(b + 3, b + 6, sd),
      Spring(b + 0, b + 6, sd), Spring(b + 1, b + 4, sd),
      Spring(b + 2, b + 7, sd), Spring(b + 3, b + 5, sd) ]
  }

  /** The four listed body diagonals, rest length `cd`. */
  function BodyDiagonals(b: nat, cd: real): seq<Constraint> {
    [ Spring(b + 0, b + 7, cd), Spring(b + 1, b + 6, cd),
      Spring(b + 2, b + 5, cd), Spring(b + 3, b + 4, cd) ]
  }

  /** Math::Sqrt(Math::Sqr(width) * 2). */
  function SquareDiagonal(width: real, sqrt: real -> real): real {
    sqrt(Sqr(width) * 2.0)
  }

  /** Math::Sqrt(Math::Sqr(width) * Math::Sqr(squareDiagonal)): a product
      where Pythagoras would have a sum. */
  function CubeDiagonal(width: real, sqrt: real -> real): real {
    sqrt(Sqr(width) * Sqr(SquareDiagonal(width, sqrt)))
  }

  /** All 32 springs in registration order. */
  function CubeSprings(b: nat, width: real, sqrt: real -> real): (r: seq<Constraint>)
    ensures |r| == SpringCount
  {
    var sd := SquareDiagonal(width, sqrt);
    TopAndVerticals(b, width) + Bottom(b, width)
      + TopDiagonals(b, sd) + BottomDiagonals(b, sd)
      + SideDiagonals(b, sd) + BodyDiagonals(b, CubeDiagonal(width, sqrt))
  }

  /** The eight pins, one per particle in order, each at its corner. */
  function Pins(b: nat, corners: seq<Vec3>): (r: seq<Constraint>)
    requires |corners| == ParticleCount
    ensures |r| == ParticleCount
  {
    seq(ParticleCount, i requires 0 <= i < ParticleCount => Fixed(b + i, corners[i]))
  }

  /** Everything AddCube registers after its particles. */
  function CubeConstraints(b: nat, position: Vec3, width: real, fixed: bool, sqrt: real -> real): seq<Constraint> {
    CubeSprings(b, width, sqrt) + (if fixed then Pins(b, Corners(position, width)) else [])
  }

  // ---------------------------------------------------------------------
  // What the tables say

  /** The springs are the loops' pairs: within each i of the four loops,
      the pairs (i, (i+1)%4), (i, i+4), (i+4, (i+1)%4+4), (i, (i+2)%4) and
      (i+4, (i+2)%4+4) with the loops' rest lengths, followed by the listed
      side and body diagonals. */
  lemma CubeSpringsLoops(b: nat, width: real, sqrt: real -> real, i: nat)
    requires i < 4
    ensures var r, sd := CubeSprings(b, width, sqrt), SquareDiagonal(width, sqrt);
      && r[2 * i] == Spring(b + i, b + (i + 1) % 4, width)
      && r[2 * i + 1] == Spring(b + i, b + i + 4, width)
      && r[8 + i] == Spring(b + i + 4, b + (i + 1) % 4 + 4, width)
      && r[12 + i] == Spring(b + i, b + (i + 2) % 4, sd)
      && r[16 + i] == Spring(b + i + 4, b + (i + 2) % 4 + 4, sd)
      && r[20..28] == SideDiagonals(b, sd)
      && r[28..] == BodyDiagonals(b, CubeDiagonal(width, sqrt))
  {
    var sd := SquareDiagonal(width, sqrt);
    var r := CubeSprings(b, width, sqrt);
    var front := TopAndVerticals(b, width) + Bottom(b, width) + TopDiagonals(b, sd) + BottomDiagonals(b, sd);
    assert r == front + SideDiagonals(b, sd) + BodyDiagonals(b, CubeDiagonal(width, sqrt));
    assert r[..8] == TopAndVerticals(b, width);
    assert r[8..12] == Bottom(b, width);
    assert r[12..16] == TopDiagonals(b, sd);
    assert r[16..20] == BottomDiagonals(b, sd);
    assert i == 0 || i == 1 || i == 2 || i == 3;
  }

  /** The four loop tables hold, at each loop index `i`, the pairs the loops
      compute: (i, (i+1)%4) and (i, i+4) at 2i and 2i+1 of the first,
      (i+4, (i+1)%4+4) of the second, (i, (i+2)%4) of the third and
      (i+4, (i+2)%4+4) of the fourth. */
  lemma LoopTables(b: nat, w: real, sd: real, i: nat)
    requires i < 4
    ensures TopAndVerticals(b, w)[2 * i] == Spring(b + i, b + (i + 1) % 4, w)
    ensures TopAndVerticals(b, w)[2 * i + 1] == Spring(b + i, b + i + 4, w)
    ensures Bottom(b, w)[i] == Spring(b + i + 4, b + (i + 1) % 4 + 4, w)
    ensures TopDiagonals(b, sd)[i] == Spring(b + i, b + (i + 2) % 4, sd)
    ensures BottomDiagonals(b, sd)[i] == Spring(b + i + 4, b + (i + 2) % 4 + 4, sd)
  {
    assert i == 0 || i == 1 || i == 2 || i == 3;
  }

  /** The cube's constraints, group by group as AddCube registers them. */
  lemma CubeRegistration(cs: seq<Constraint>, b: nat, position: Vec3, width: real, fixed: bool, sqrt: real -> real)
    ensures var sd, cd := SquareDiagonal(width, sqrt), CubeDiagonal(width, sqrt);
      cs + CubeConstraints(b, position, width, fixed, sqrt)
        == cs + TopAndVerticals(b, width) + Bottom(b, width)
              + TopDiagonals(b, sd) + BottomDiagonals(b, sd)
              + SideDiagonals(b, sd) + BodyDiagonals(b, cd)
              + (if fixed then Pins(b, Corners(position, width)) else [])
  {
  }

  /** The positions of a run of particles. */
  function Positions(ps: seq<Particle>): (r: seq<Vec3>)
    ensures |r| == |ps|
  {
    seq(|ps|, i requires 0 <= i < |ps| => ps[i].position)
  }

  /** The pins at eight particles' positions, written out. */
  lemma PinsOfPositions(b: nat, ps: seq<Particle>)
    requires |ps| == ParticleCount
    ensures Pins(b, Positions(ps))
         == [ Fixed(b + 0, ps[0].position), Fixed(b + 1, ps[1].position),
              Fixed(b + 2, ps[2].position), Fixed(b + 3, ps[3].position),
              Fixed(b + 4, ps[4].position), Fixed(b + 5, ps[5].position),
              Fixed(b + 6, ps[6].position), Fixed(b + 7, ps[7].position) ]
  {
  }

  /** Pinning the cube particles where they are pins them at their corners. */
  lemma CubePinsFromParticles(b: nat, position: Vec3, velocity: Vec3, width: real, invMass: real,
                              prevOf: (Vec3, Vec3) -> Vec3)
    ensures Pins(b, Positions(CubeParticles(position, velocity, width, invMass, prevOf)))
         == Pins(b, Corners(position, width))
  {
    var ps := CubeParticles(position, velocity, width, invMass, prevOf);
    forall i | 0 <= i < ParticleCount
      ensures Positions(ps)[i] == Corners(position, width)[i]
    {
      CubeParticlesAt(position, velocity, width, invMass, prevOf, i);
    }
    assert Positions(ps) == Corners(position, width);
  }

  /** Every constraint the cube adds governs only its own eight particles. */
  lemma CubeConstraintsWithin(b: nat, position: Vec3, width: real, fixed: bool, sqrt: real -> real, k: nat, j: nat)
    requires k < |CubeConstraints(b, position, width, fixed, sqrt)|
    requires Refers(CubeConstraints(b, position, width, fixed, sqrt)[k], j)
    ensures b <= j < b + ParticleCount
  {
    var sd := SquareDiagonal(width, sqrt);
    var cs := CubeConstraints(b, position, width, fixed, sqrt);
    if k >= SpringCount {
      assert cs[k] == Pins(b, Corners(position, width))[k - SpringCount];
    } else {
      var r := CubeSprings(b, width, sqrt);
      assert cs[k] == r[k];
      if k < 8 {
        assert r[k] == TopAndVerticals(b, width)[k];
      } else if k < 12 {
        assert r[k] == Bottom(b, width)[k - 8];
      } else if k < 16 {
        assert r[k] == TopDiagonals(b, sd)[k - 12];
      } else if k < 20 {
        assert r[k] == BottomDiagonals(b, sd)[k - 16];
      } else if k < 28 {
        assert r[k] == SideDiagonals(b, sd)[k - 20];
      } else {
        assert r[k] == BodyDiagonals(b, CubeDiagonal(width, sqrt))[k - 28];
      }
    }
  }

  /** Adding a cube whose particles start at index `b` to constraints that
      refer only below `b` gives constraints that refer only below `b + 8`. */
  lemma CubeKeepsRefs(cs: seq<Constraint>, b: nat, position: Vec3, width: real, fixed: bool, sqrt: real -> real)
    requires RefsWithin(cs, b)
    ensures RefsWithin(cs + CubeConstraints(b, position, width, fixed, sqrt), b + ParticleCount)
  {
    var all := cs + CubeConstraints(b, position, width, fixed, sqrt);
    forall k, j: nat | 0 <= k < |all| && Refers(all[k], j)
      ensures j < b + ParticleCount
    {
      if k < |cs| {
        assert all[k] == cs[k];
      } else {
        assert all[k] == CubeConstraints(b, position, width, fixed, sqrt)[k - |cs|];
        CubeConstraintsWithin(b, position, width, fixed, sqrt, k - |cs|, j);
      }
    }
  }

  /** With `fixed`, the last eight constraints pin particle b+i to corner i. */
  lemma CubePinsAt(b: nat, position: Vec3, width: real, fixed: bool, sqrt: real -> real, i: nat)
    requires i < ParticleCount
    ensures |CubeConstraints(b, position, width, fixed, sqrt)| == if fixed then 40 else 32
    ensures fixed ==> CubeConstraints(b, position, width, fixed, sqrt)[SpringCount + i]
                      == Fixed(b + i, Corners(position, width)[i])
  {
  }

  /** `sqrt` returns the non-negative square root of `x`. */
  predicate IsSqrtAt(sqrt: real -> real, x: real) {
    sqrt(x) >= 0.0 && Sqr(sqrt(x)) == x
  }

  /** What Math::Sqrt is assumed to do at the two points AddCube calls it. */
  predicate SqrtValid(width: real, sqrt: real -> real) {
    && IsSqrtAt(sqrt, Sqr(width) * 2.0)
    && IsSqrtAt(sqrt, Sqr(width) * Sqr(SquareDiagonal(width, sqrt)))
  }

  /** The rest lengths through their squares: squareDiag^2 = 2 width^2 and
      cubeDiag^2 = width^2 squareDiag^2 = 2 width^4, where the corner
      geometry has 3 width^2 for a body diagonal. */
  lemma DiagonalLengths(width: real, sqrt: real -> real)
    requires SqrtValid(width, sqrt)
    ensures Sqr(SquareDiagonal(width, sqrt)) == 2.0 * Sqr(width)
    ensures Sqr(CubeDiagonal(width, sqrt)) == 2.0 * Sqr(width) * Sqr(width)
  {
  }

  /** A spring between two of the cube's particles whose rest length is the
      distance its corners start at. */
  predicate Fits(c: Constraint, b: nat, corners: seq<Vec3>)
    requires |corners| == ParticleCount
  {
    && c.Spring?
    && b <= c.a < b + ParticleCount && b <= c.b < b + ParticleCount
    && RestsAt(c.restLength, corners, c.a - b, c.b - b)
  }

  /** A rest length equal to the distance between corners `i` and `j`. */
  predicate RestsAt(restLength: real, corners: seq<Vec3>, i: nat, j: nat)
    requires |corners| == ParticleCount && i < ParticleCount && j < ParticleCount
  {
    Sqr(restLength) == SqDist(corners[i], corners[j])
  }

  /** A rest length whose square is `q * width^2` is the distance between
      corners `i` and `j` exactly when `q` is the number of axes they differ
      on. */
  lemma RestsByHamming(restLength: real, position: Vec3, width: real, q: real, i: nat, j: nat)
    requires width > 0.0 && i < ParticleCount && j < ParticleCount
    requires Sqr(restLength) == q * Sqr(width)
    ensures RestsAt(restLength, Corners(position, width), i, j) <==> q == Hamming(i, j) as real
  {
    var n := Hamming(i, j) as real;
    CornerSqDist(position, width, i, j);
    if RestsAt(restLength, Corners(position, width), i, j) {
      SqrNonZero(width);
      CancelFactor(q, n, Sqr(width));
    }
  }

  /** A spring of squared rest length `q * width^2` between two of the
      cube's corners fits exactly when `q` is the number of axes they differ
      on. */
  lemma FitsByHamming(c: Constraint, b: nat, position: Vec3, width: real, q: real)
    requires width > 0.0 && c.Spring?
    requires b <= c.a < b + ParticleCount && b <= c.b < b + ParticleCount
    requires Sqr(c.restLength) == q * Sqr(width)
    ensures Fits(c, b, Corners(position, width)) <==> q == Hamming(c.a - b, c.b - b) as real
  {
    RestsByHamming(c.restLength, position, width, q, c.a - b, c.b - b);
  }

  /** Of the first loop's eight springs, (1,2) and (3,0) do not fit: corners
      1 and 2, and 3 and 0, are a face diagonal apart, yet the springs rest at
      `width`. The other six are edges and fit. */
  lemma TopAndVerticalsFit(b: nat, position: Vec3, width: real, k: nat)
    requires width > 0.0 && k < 8
    ensures Fits(TopAndVerticals(b, width)[k], b, Corners(position, width)) <==> k != 2 && k != 6
  {
    var c := TopAndVerticals(b, width)[k];
    assert Sqr(c.restLength) == 1.0 * Sqr(width);
    FitsByHamming(c, b, position, width, 1.0);
    assert k == 0 || k == 1 || k == 2 || k == 3 || k == 4 || k == 5 || k == 6 || k == 7;
  }

  /** Of the second loop's four springs, (5,6) and (7,4) are face diagonals
      resting at `width`; (4,5) and (6,7) are edges and fit. */
  lemma BottomFit(b: nat, position: Vec3, width: real, k: nat)
    requires width > 0.0 && k < 4
    ensures Fits(Bottom(b, width)[k], b, Corners(position, width)) <==> k == 0 || k == 2
  {
    var c := Bottom(b, width)[k];
    assert Sqr(c.restLength) == 1.0 * Sqr(width);
    FitsByHamming(c, b, position, width, 1.0);
    assert k == 0 || k == 1 || k == 2 || k == 3;
  }

  /** The "diagonals across top and bottom" join corners one edge apart, so
      none of the eight fits; and spring i and spring i+2 of each loop join
      the same two particles, so only four pairs are covered, each twice. */
  lemma FaceDiagonalsAreEdges(b: nat, position: Vec3, width: real, sqrt: real -> real, k: nat)
    requires width > 0.0 && k < 4 && SqrtValid(width, sqrt)
    ensures var sd := SquareDiagonal(width, sqrt);
      && !Fits(TopDiagonals(b, sd)[k], b, Corners(position, width))
      && !Fits(BottomDiagonals(b, sd)[k], b, Corners(position, width))
    ensures var sd := SquareDiagonal(width, sqrt); k < 2 ==>
      && TopDiagonals(b, sd)[k].a == TopDiagonals(b, sd)[k + 2].b
      && TopDiagonals(b, sd)[k].b == TopDiagonals(b, sd)[k + 2].a
      && BottomDiagonals(b, sd)[k].a == BottomDiagonals(b, sd)[k + 2].b
      && BottomDiagonals(b, sd)[k].b == BottomDiagonals(b, sd)[k + 2].a
  {
    var sd := SquareDiagonal(width, sqrt);
    DiagonalLengths(width, sqrt);
    var t, u := TopDiagonals(b, sd)[k], BottomDiagonals(b, sd)[k];
    FitsByHamming(t, b, position, width, 2.0);
    FitsByHamming(u, b, position, width, 2.0);
    assert k == 0 || k == 1 || k == 2 || k == 3;
  }

  /** All eight side diagonals are face diagonals and fit. */
  lemma SideDiagonalsFit(b: nat, position: Vec3, width: real, sqrt: real -> real, k: nat)
    requires width > 0.0 && k < 8 && SqrtValid(width, sqrt)
    ensures Fits(SideDiagonals(b, SquareDiagonal(width, sqrt))[k], b, Corners(position, width))
  {
    var sd := SquareDiagonal(width, sqrt);
    DiagonalLengths(width, sqrt);
    var c := SideDiagonals(b, sd)[k];
    FitsByHamming(c, b, position, width, 2.0);
    assert k == 0 || k == 1 || k == 2 || k == 3 || k == 4 || k == 5 || k == 6 || k == 7;
  }

  /** The four body diagonals join opposite corners, but rest at
      `sqrt(2) * width^2` instead of `sqrt(3) * width`: they fit exactly when
      2 width^2 == 3. */
  lemma BodyDiagonalsFit(b: nat, position: Vec3, width: real, sqrt: real -> real, k: nat)
    requires width > 0.0 && k < 4 && SqrtValid(width, sqrt)
    ensures Fits(BodyDiagonals(b, CubeDiagonal(width, sqrt))[k], b, Corners(position, width))
        <==> 2.0 * Sqr(width) == 3.0
  {
    DiagonalLengths(width, sqrt);
    var c := BodyDiagonals(b, CubeDiagonal(width, sqrt))[k];
    FitsByHamming(c, b, position, width, 2.0 * Sqr(width));
    assert k == 0 || k == 1 || k == 2 || k == 3;
  }
}
