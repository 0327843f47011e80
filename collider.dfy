/** AABoxColliderComponent: an axis-aligned box, given by a centre and a
    half-extent per axis, that tests itself against another box and turns
    both red when they overlap. */
module Collider {
  import opened Vectors

  /** Math::AABB: a centre and a half-extent per axis. */
  datatype AABB = AABB(center: Vec3, extend: Vec3)

  /** Whether the intervals [c1 - e1, c1 + e1] and [c2 - e2, c2 + e2] are not
      separated: neither lies strictly beyond the other. */
  predicate AxisMeets(c1: real, e1: real, c2: real, e2: real) {
    !(c1 + e1 < c2 - e2 || c1 - e1 > c2 + e2)
  }

  /** The overlap test of CheckCollision: the boxes meet on all three axes. */
  predicate Overlaps(a: AABB, b: AABB) {
    && AxisMeets(a.center.x, a.extend.x, b.center.x, b.extend.x)
    && AxisMeets(a.center.y, a.extend.y, b.center.y, b.extend.y)
    && AxisMeets(a.center.z, a.extend.z, b.center.z, b.extend.z)
  }

  predicate NonNegative(e: Vec3) {
    e.x >= 0.0 && e.y >= 0.0 && e.z >= 0.0
  }

  /** `x` lies in the closed interval [c - e, c + e]. */
  predicate InInterval(x: real, c: real, e: real) {
    c - e <= x <= c + e
  }

  /** The closed box contains the point `p`. */
  predicate Contains(a: AABB, p: Vec3) {
    && InInterval(p.x, a.center.x, a.extend.x)
    && InInterval(p.y, a.center.y, a.extend.y)
    && InInterval(p.z, a.center.z, a.extend.z)
  }

  function Translated(a: AABB, d: Vec3): AABB {
    AABB(Add(a.center, d), a.extend)
  }

  // ---------------------------------------------------------------------
  // What the test means

  /** One axis: for intervals that are not empty, not being separated is
      sharing a point; touching end points count. */
  lemma AxisMeetsIffShared(c1: real, e1: real, c2: real, e2: real)
    requires e1 >= 0.0 && e2 >= 0.0
    ensures AxisMeets(c1, e1, c2, e2) <==> exists x :: InInterval(x, c1, e1) && InInterval(x, c2, e2)
  {
    if AxisMeets(c1, e1, c2, e2) {
      var x := if c1 - e1 <= c2 - e2 then c2 - e2 else c1 - e1;
      assert InInterval(x, c1, e1) && InInterval(x, c2, e2);
    }
  }

  /** Two boxes with non-negative extents overlap exactly when some point
      lies in both. */
  lemma OverlapsIffCommonPoint(a: AABB, b: AABB)
    requires NonNegative(a.extend) && NonNegative(b.extend)
    ensures Overlaps(a, b) <==> exists p :: Contains(a, p) && Contains(b, p)
  {
    AxisMeetsIffShared(a.center.x, a.extend.x, b.center.x, b.extend.x);
    AxisMeetsIffShared(a.center.y, a.extend.y, b.center.y, b.extend.y);
    AxisMeetsIffShared(a.center.z, a.extend.z, b.center.z, b.extend.z);
    if Overlaps(a, b) {
      var x :| InInterval(x, a.center.x, a.extend.x) && InInterval(x, b.center.x, b.extend.x);
      var y :| InInterval(y, a.center.y, a.extend.y) && InInterval(y, b.center.y, b.extend.y);
      var z :| InInterval(z, a.center.z, a.extend.z) && InInterval(z, b.center.z, b.extend.z);
      assert Contains(a, Vec3(x, y, z)) && Contains(b, Vec3(x, y, z));
    }
    if exists p :: Contains(a, p) && Contains(b, p) {
      var p :| Contains(a, p) && Contains(b, p);
      assert InInterval(p.x, a.center.x, a.extend.x) && InInterval(p.x, b.center.x, b.extend.x);
      assert InInterval(p.y, a.center.y, a.extend.y) && InInterval(p.y, b.center.y, b.extend.y);
      assert InInterval(p.z, a.center.z, a.extend.z) && InInterval(p.z, b.center.z, b.extend.z);
    }
  }

  /** The test does not depend on which box asks. */
  lemma OverlapsSymmetric(a: AABB, b: AABB)
    ensures Overlaps(a, b) <==> Overlaps(b, a)
  {
  }

  /** A box overlaps a copy of itself exactly when no extent is negative. */
  lemma OverlapsSelf(a: AABB)
    ensures Overlaps(a, a) <==> NonNegative(a.extend)
  {
  }

  /** Moving both boxes by the same offset does not change the result. */
  lemma OverlapsTranslated(a: AABB, b: AABB, d: Vec3)
    ensures Overlaps(Translated(a, d), Translated(b, d)) <==> Overlaps(a, b)
  {
  }

  /** Boundaries count: a box moved along x overlaps its original exactly
      while the move is at most twice its half-extent, touching included. */
  lemma TouchingCounts(a: AABB, d: real)
    requires NonNegative(a.extend)
    ensures Overlaps(a, Translated(a, Vec3(d, 0.0, 0.0))) <==> -2.0 * a.extend.x <= d <= 2.0 * a.extend.x
  {
  }

  /** The test compares the untransformed boxes: two colliders with default
      geometry hit each other even when their transforms are ten units
      apart, where their world boxes do not overlap. */
  lemma PositionIgnored()
    ensures var local := AABB(Zero, One);
      && Overlaps(local, local)
      && !Overlaps(Translated(local, Zero), Translated(local, Vec3(10.0, 0.0, 0.0)))
  {
  }

  // ---------------------------------------------------------------------
  // The component

  /** TransformComponent, reduced to the position GetAABB reads. */
  class Transform {
    var position: Vec3

    constructor(position: Vec3)
      ensures this.position == position
    {
      this.position := position;
    }
  }

  class AABoxCollider {
    var transform: Transform?
    var center: Vec3
    var extend: Vec3
    var color: Vec4

    /** No transform yet, the unit box at the origin, green. */
    constructor()
      ensures transform == null
      ensures center == Zero && extend == One && color == Green
    {
      transform := null;
      center := Zero;
      extend := One;
      color := Green;
    }

    /** The collider's box before the transform is applied. */
    function LocalBox(): AABB
      reads this
    {
      AABB(center, extend)
    }

    /** Tests this box against `boxB` axis by axis, returning at the first
        separated axis; on a hit both colours become red. Only `color`
        fields change, and only on a hit. */
    method CheckCollision(boxB: AABoxCollider) returns (hit: bool)
      modifies this`color, boxB`color
      ensures hit <==> Overlaps(LocalBox(), boxB.LocalBox())
      ensures hit ==> color == Red && boxB.color == Red
      ensures !hit ==> color == old(color) && boxB.color == old(boxB.color)
    {
      var x1Max := center.x + extend.x;
      var x1Min := center.x - extend.x;
      var x2Max := boxB.center.x + boxB.extend.x;
      var x2Min := boxB.center.x - boxB.extend.x;

      var y1Max := center.y + extend.y;
      var y1Min := center.y - extend.y;
      var y2Max := boxB.center.y + boxB.extend.y;
      var y2Min := boxB.center.y - boxB.extend.y;

      var z1Max := center.z + extend.z;
      var z1Min := center.z - extend.z;
      var z2Max := boxB.center.z + boxB.extend.z;
      var z2Min := boxB.center.z - boxB.extend.z;

      if x1Max < x2Min || x1Min > x2Max {
        return false;
      }
      if y1Max < y2Min || y1Min > y2Max {
        return false;
      }
      if z1Max < z2Min || z1Min > z2Max {
        return false;
      }

      boxB.color := Red;
      color := boxB.color;
      return true;
    }

    /** The world-space box: the centre moved by the transform's position and
        the extents as they are, so a point lies in it exactly when the point
        moved back by that position lies in the local box. */
    function GetAABB(): (r: AABB)
      reads this, transform
      requires transform != null
      ensures r.center == Add(center, transform.position) && r.extend == extend
      ensures forall p :: Contains(r, Add(p, transform.position)) <==> Contains(LocalBox(), p)
    {
      AABB(Add(center, transform.position), extend)
    }
  }

  /** Colliders whose transforms sit at the same position get the same
      answer from their world boxes as CheckCollision gives. */
  lemma WorldBoxesAgreeAtSamePosition(a: AABoxCollider, b: AABoxCollider)
    requires a.transform != null && b.transform != null
    requires a.transform.position == b.transform.position
    ensures Overlaps(a.GetAABB(), b.GetAABB()) <==> Overlaps(a.LocalBox(), b.LocalBox())
  {
    OverlapsTranslated(a.LocalBox(), b.LocalBox(), a.transform.position);
  }
}
