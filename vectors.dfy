/**
 * Vector3Float and Vector4Float of the creative library, over the reals:
 * float rounding, infinities and NaN are not modelled.
 */
module Vectors {

  datatype Vec3 = Vec3(x: real, y: real, z: real) {

    function Add(o: Vec3): Vec3 {
      Vec3(x + o.x, y + o.y, z + o.z)
    }

    function Subtract(o: Vec3): Vec3 {
      Vec3(x - o.x, y - o.y, z - o.z)
    }

    /** Componentwise product with (a, b, c), as `multiply(a, b, c)`. */
    function Multiply(a: real, b: real, c: real): Vec3 {
      Vec3(x * a, y * b, z * c)
    }

    /** Componentwise quotient by (a, b, c), as `divide(a, b, c)`. */
    function Divide(a: real, b: real, c: real): Vec3
      requires a != 0.0 && b != 0.0 && c != 0.0
    {
      Vec3(x / a, y / b, z / c)
    }
  }

  const Zero3 := Vec3(0.0, 0.0, 0.0)

  datatype Vec4 = Vec4(x: real, y: real, z: real, w: real)

  const Zero4 := Vec4(0.0, 0.0, 0.0, 0.0)
}
