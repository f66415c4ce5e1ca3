/** Three- and four-component vectors over the reals (GLM's vec3/vec4 with
    floating-point rounding left out), and the parts of GLM's numerics the
    model does not interpret. */
module Vectors {

  datatype Vec3 = Vec3(x: real, y: real, z: real)

  datatype Vec4 = Vec4(r: real, g: real, b: real, a: real)

  const Origin: Vec3 := Vec3(0.0, 0.0, 0.0)

  function Add(u: Vec3, v: Vec3): Vec3 {
    Vec3(u.x + v.x, u.y + v.y, u.z + v.z)
  }

  function Sub(u: Vec3, v: Vec3): Vec3 {
    Vec3(u.x - v.x, u.y - v.y, u.z - v.z)
  }

  function Neg(v: Vec3): Vec3 {
    Vec3(-v.x, -v.y, -v.z)
  }

  function Scale(v: Vec3, k: real): Vec3 {
    Vec3(v.x * k, v.y * k, v.z * k)
  }

  function Cross(u: Vec3, v: Vec3): Vec3 {
    Vec3(u.y * v.z - u.z * v.y, u.z * v.x - u.x * v.z, u.x * v.y - u.y * v.x)
  }

  /** The transcendental functions and the normalisation the viewer takes
      from the C library and GLM. The model never looks inside them: every
      operation that needs them receives them as a parameter, so a property
      proved here holds whatever they compute. */
  datatype Glm = Glm(sin: real -> real, cos: real -> real, normalize: Vec3 -> Vec3)

  /** glm::pi, to the precision of a double. */
  const Pi: real := 3.141592653589793

  /** glm::radians */
  function Radians(degrees: real): real {
    degrees * Pi / 180.0
  }

  /** The free-fly look direction for a yaw and a pitch in degrees, as both
      the cursor callback and the end of every frame compute it. */
  function LookDirection(glm: Glm, yaw: real, pitch: real): Vec3 {
    var cy, sy := glm.cos(Radians(yaw)), glm.sin(Radians(yaw));
    var cp, sp := glm.cos(Radians(pitch)), glm.sin(Radians(pitch));
    glm.normalize(Vec3(cy * cp, sp, sy * cp))
  }
}
