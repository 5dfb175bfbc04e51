/**
 * Points in three-dimensional space with exact real coordinates. The demo
 * stores the integrator state, the trajectory points and the tick geometry as
 * such triples; IEEE-754 doubles are idealised as Dafny reals.
 */
module Vectors {

  datatype Vec3 = Vec3(x: real, y: real, z: real)

  const Origin: Vec3 := Vec3(0.0, 0.0, 0.0)

  /** Componentwise sum. */
  function Add(a: Vec3, b: Vec3): Vec3 {
    Vec3(a.x + b.x, a.y + b.y, a.z + b.z)
  }

  /** Uniform scaling of every coordinate by `k`. */
  function Scale(k: real, v: Vec3): Vec3 {
    Vec3(v.x * k, v.y * k, v.z * k)
  }
}
