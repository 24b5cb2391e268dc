/** Three-dimensional vectors over the reals (cilantro's C++ implementation
    uses single-precision Eigen vectors; rounding and NaN are not modelled). */
module Geometry {
  datatype Vec3 = Vec3(x: real, y: real, z: real)

  /** The origin, the estimator's initial viewpoint. */
  const Zero: Vec3 := Vec3(0.0, 0.0, 0.0)

  /** The unit vector along the z axis. */
  const UnitZ: Vec3 := Vec3(0.0, 0.0, 1.0)

  function Sub(a: Vec3, b: Vec3): (d: Vec3) {
    Vec3(a.x - b.x, a.y - b.y, a.z - b.z)
  }

  function Dot(a: Vec3, b: Vec3): (r: real) {
    a.x * b.x + a.y * b.y + a.z * b.z
  }

  /** `v * -1`, the in-place sign flip of the orientation step. */
  function Neg(v: Vec3): (r: Vec3) {
    Vec3(-v.x, -v.y, -v.z)
  }

  /** Negating a vector negates its dot product with any other vector. */
  lemma DotNeg(a: Vec3, b: Vec3)
    ensures Dot(Neg(a), b) == -Dot(a, b)
  {
  }
}
