/** Vectors over the reals, and the library maths (square roots, trigonometry,
    quaternion rotation) that the game calls but that reals cannot compute. */
module Geometry {

  datatype Vec3 = Vec3(x: real, y: real, z: real)

  const Zero: Vec3 := Vec3(0.0, 0.0, 0.0)

  function Add(a: Vec3, b: Vec3): Vec3 {
    Vec3(a.x + b.x, a.y + b.y, a.z + b.z)
  }

  function Sub(a: Vec3, b: Vec3): Vec3 {
    Vec3(a.x - b.x, a.y - b.y, a.z - b.z)
  }

  function Scale(v: Vec3, k: real): Vec3 {
    Vec3(v.x * k, v.y * k, v.z * k)
  }

  /** The vector with its vertical component zeroed. */
  function Horizontal(v: Vec3): Vec3 {
    v.(y := 0.0)
  }

  function LengthSquared(v: Vec3): real {
    v.x * v.x + v.y * v.y + v.z * v.z
  }

  function Abs(r: real): real {
    if r < 0.0 then -r else r
  }

  /** Library maths the game relies on, as uninterpreted functions:
      - length: `Vec3::length` (a square root), also behind `distance`;
      - lengthRecip: `Vec3::length_recip`, by which `normalize` multiplies;
      - forward: `Transform::forward` of a rotation about the vertical axis by a yaw;
      - turnToward: the yaw reached by `slerp` from a yaw toward the heading of a
        horizontal unit direction, by an interpolation factor. */
  datatype Maths = Maths(
    length: Vec3 -> real,
    lengthRecip: Vec3 -> real,
    forward: real -> Vec3,
    turnToward: (real, Vec3, real) -> real)
}
