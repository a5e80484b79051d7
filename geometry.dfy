/** The few ignition::math value types the plugin works with, over `real`
    in place of `double`. */
module Geometry {

  /** ignition::math::Vector3d. */
  datatype Vector3 = Vector3(x: real, y: real, z: real)

  /** A default-constructed Vector3d is the zero vector. */
  const ZERO: Vector3 := Vector3(0.0, 0.0, 0.0)

  /** `v * s` for a Vector3d and a double: every component multiplied by `s`. */
  function Scale(v: Vector3, s: real): (r: Vector3)
  {
    Vector3(v.x * s, v.y * s, v.z * s)
  }

  /** ignition::math::Matrix3d, entry `mij` in row `i` and column `j`. */
  datatype Matrix3 = Matrix3(
    m00: real, m01: real, m02: real,
    m10: real, m11: real, m12: real,
    m20: real, m21: real, m22: real)

  /** The matrix with `d` on its diagonal and zeros elsewhere. */
  function Diagonal(d: Vector3): (m: Matrix3)
  {
    Matrix3(d.x, 0.0, 0.0,
            0.0, d.y, 0.0,
            0.0, 0.0, d.z)
  }

  /** `v * m` with a Vector3d on the left of a Matrix3d: `v` read as a row
      vector and multiplied by `m`. */
  function RowTimes(v: Vector3, m: Matrix3): (r: Vector3)
  {
    Vector3(m.m00 * v.x + m.m10 * v.y + m.m20 * v.z,
            m.m01 * v.x + m.m11 * v.y + m.m21 * v.z,
            m.m02 * v.x + m.m12 * v.y + m.m22 * v.z)
  }

  /** Against a diagonal matrix the row-vector product is the
      component-wise product with the diagonal. */
  lemma RowTimesDiagonal(v: Vector3, d: Vector3)
    ensures RowTimes(v, Diagonal(d)) == Vector3(v.x * d.x, v.y * d.y, v.z * d.z)
  {
  }

  /** A vector along z picks out the bottom row of the matrix, scaled. */
  lemma RowTimesAlongZ(a: real, m: Matrix3)
    ensures RowTimes(Vector3(0.0, 0.0, a), m) == Vector3(a * m.m20, a * m.m21, a * m.m22)
  {
  }

  /** ignition::math::Quaterniond, components W, X, Y, Z. */
  datatype Quaternion = Quaternion(w: real, x: real, y: real, z: real)

  /** ignition::math::Pose3d: a position and a rotation. */
  datatype Pose3 = Pose3(pos: Vector3, rot: Quaternion)
}
