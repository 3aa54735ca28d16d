/** System.Numerics value types, with float components read as exact reals. */
module Numerics {

  datatype Vec2 = Vec2(x: real, y: real)
  datatype Vec3 = Vec3(x: real, y: real, z: real)
  datatype Vec4 = Vec4(x: real, y: real, z: real, w: real)

  /** Matrix4x4 as its sixteen fields in declaration order M11..M14, M21..M24,
      M31..M34, M41..M44, so that field Mrc is m[4 * (r - 1) + (c - 1)]. */
  type Matrix4x4 = m: seq<real> | |m| == 16
    witness [1.0, 0.0, 0.0, 0.0, 0.0, 1.0, 0.0, 0.0, 0.0, 0.0, 1.0, 0.0, 0.0, 0.0, 0.0, 1.0]

  const Identity: Matrix4x4 :=
    [1.0, 0.0, 0.0, 0.0, 0.0, 1.0, 0.0, 0.0, 0.0, 0.0, 1.0, 0.0, 0.0, 0.0, 0.0, 1.0]

  /** Row i of a times column j of b. */
  function Dot(a: Matrix4x4, b: Matrix4x4, i: nat, j: nat): real
    requires i < 4 && j < 4
  {
    a[4 * i] * b[j] + a[4 * i + 1] * b[4 + j] + a[4 * i + 2] * b[8 + j] + a[4 * i + 3] * b[12 + j]
  }

  /** Matrix4x4.Multiply(a, b): the row-by-column product a * b. */
  function Multiply(a: Matrix4x4, b: Matrix4x4): (r: Matrix4x4)
    ensures forall i: nat, j: nat :: i < 4 && j < 4 ==> r[4 * i + j] == Dot(a, b, i, j)
  {
    seq(16, k requires 0 <= k < 16 => Dot(a, b, k / 4, k % 4))
  }

  /** Matrix4x4.Translation: the fourth row (M41, M42, M43). */
  function Translation(m: Matrix4x4): Vec3
  {
    Vec3(m[12], m[13], m[14])
  }
}
