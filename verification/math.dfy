/** The vector and transform values the anchoring code handles. Coordinates
    are mathematical reals; the single-precision rounding of the original is
    not modelled. */
module Math {

  datatype Vec2 = Vec2(x: real, y: real)

  datatype Vec3 = Vec3(x: real, y: real, z: real)

  /** Component-wise difference of two points. */
  function Sub(a: Vec3, b: Vec3): Vec3
  {
    Vec3(a.x - b.x, a.y - b.y, a.z - b.z)
  }

  /** Component-wise sum; subtracting the second operand again gives the first back. */
  function Add(a: Vec3, b: Vec3): (r: Vec3)
    ensures Sub(r, b) == a
    ensures Sub(r, a) == b
  {
    Vec3(a.x + b.x, a.y + b.y, a.z + b.z)
  }

  /** A 3x3 matrix by its columns. */
  datatype Mat3 = Mat3(xAxis: Vec3, yAxis: Vec3, zAxis: Vec3)

  /** An affine world transform: rotation/scale part and translation. Only the
      translation is read by the anchoring code; the whole transform is
      passed, unread, to the camera projection. */
  datatype GlobalTransform = GlobalTransform(matrix3: Mat3, translation: Vec3)
}
