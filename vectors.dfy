/**
 * Three-component vectors over the reals, standing in for the engine's
 * `Vector3` (positions) and for RGB colours. Arithmetic is exact: the model
 * does not follow single-precision rounding.
 */
module Vectors {

  datatype Vec3 = Vec3(x: real, y: real, z: real)

  /** `Vector3.zero` */
  const Zero: Vec3 := Vec3(0.0, 0.0, 0.0)

  /** `Vector3.one` */
  const One: Vec3 := Vec3(1.0, 1.0, 1.0)

  /** Component-wise difference `a - b`. */
  function Sub(a: Vec3, b: Vec3): Vec3
  {
    Vec3(a.x - b.x, a.y - b.y, a.z - b.z)
  }

  /** The product `v * k` of a vector and a scalar. */
  function Scale(v: Vec3, k: real): Vec3
  {
    Vec3(v.x * k, v.y * k, v.z * k)
  }

  /** `Vector3.SqrMagnitude`: the squared Euclidean length. */
  function SqrMagnitude(v: Vec3): real
  {
    v.x * v.x + v.y * v.y + v.z * v.z
  }

  /** The squared distance between two points does not depend on their order. */
  lemma SqrDistanceSymmetric(a: Vec3, b: Vec3)
    ensures SqrMagnitude(Sub(a, b)) == SqrMagnitude(Sub(b, a))
  {
    assert (a.x - b.x) * (a.x - b.x) == (b.x - a.x) * (b.x - a.x);
    assert (a.y - b.y) * (a.y - b.y) == (b.y - a.y) * (b.y - a.y);
    assert (a.z - b.z) * (a.z - b.z) == (b.z - a.z) * (b.z - a.z);
  }
}
