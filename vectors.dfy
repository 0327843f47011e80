/** Exact 3- and 4-component vectors over the reals, standing in for the
    engine's single-precision Math::Vector3 and Math::Vector4. */
module Vectors {

  datatype Vec3 = Vec3(x: real, y: real, z: real)

  /** An RGBA colour. */
  datatype Vec4 = Vec4(x: real, y: real, z: real, w: real)

  const Zero: Vec3 := Vec3(0.0, 0.0, 0.0)
  const One: Vec3 := Vec3(1.0, 1.0, 1.0)

  const Green: Vec4 := Vec4(0.0, 1.0, 0.0, 1.0)
  const Red: Vec4 := Vec4(1.0, 0.0, 0.0, 1.0)

  function Add(a: Vec3, b: Vec3): Vec3 {
    Vec3(a.x + b.x, a.y + b.y, a.z + b.z)
  }

  function Sub(a: Vec3, b: Vec3): Vec3 {
    Vec3(a.x - b.x, a.y - b.y, a.z - b.z)
  }

  function Scale(a: Vec3, k: real): Vec3 {
    Vec3(a.x * k, a.y * k, a.z * k)
  }

  function Dot(a: Vec3, b: Vec3): real {
    a.x * b.x + a.y * b.y + a.z * b.z
  }

  /** Math::Sqr. */
  function Sqr(x: real): real {
    x * x
  }

  lemma ZeroProduct(a: real, b: real)
    requires a * b == 0.0
    ensures a == 0.0 || b == 0.0
  {
  }

  lemma SqrNonZero(x: real)
    requires x != 0.0
    ensures Sqr(x) != 0.0
  {
    if Sqr(x) == 0.0 {
      ZeroProduct(x, x);
    }
  }

  /** Cancelling a non-zero factor. */
  lemma CancelFactor(x: real, y: real, k: real)
    requires k != 0.0 && x * k == y * k
    ensures x == y
  {
    assert (x - y) * k == 0.0;
    ZeroProduct(x - y, k);
  }

  /** The squared Euclidean distance between two points. */
  function SqDist(a: Vec3, b: Vec3): real {
    Dot(Sub(a, b), Sub(a, b))
  }

  lemma SqDistAxes(a: Vec3, b: Vec3)
    ensures SqDist(a, b) == Sqr(a.x - b.x) + Sqr(a.y - b.y) + Sqr(a.z - b.z)
  {
  }
}
