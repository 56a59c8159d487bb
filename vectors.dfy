/**
 * The vector and colour values the intersection code works on (`Vector3`,
 * `Vector2`, `Color3`), with the componentwise operators it uses.
 */
module Vectors {

  datatype Vec3 = Vec3(x: real, y: real, z: real)

  datatype Vec2 = Vec2(x: real, y: real)

  datatype Color3 = Color3(r: real, g: real, b: real)

  function Add(u: Vec3, v: Vec3): Vec3 {
    Vec3(u.x + v.x, u.y + v.y, u.z + v.z)
  }

  function Sub(u: Vec3, v: Vec3): Vec3 {
    Vec3(u.x - v.x, u.y - v.y, u.z - v.z)
  }

  /** `v * s` */
  function Scale(v: Vec3, s: real): Vec3 {
    Vec3(v.x * s, v.y * s, v.z * s)
  }

  function Dot(u: Vec3, v: Vec3): real {
    u.x * v.x + u.y * v.y + u.z * v.z
  }

  function Cross(u: Vec3, v: Vec3): Vec3 {
    Vec3(u.y * v.z - u.z * v.y, u.z * v.x - u.x * v.z, u.x * v.y - u.y * v.x)
  }

  function Add2(u: Vec2, v: Vec2): Vec2 {
    Vec2(u.x + v.x, u.y + v.y)
  }

  function Scale2(v: Vec2, s: real): Vec2 {
    Vec2(v.x * s, v.y * s)
  }

  /** `Color3::White()` */
  const White: Color3 := Color3(1.0, 1.0, 1.0)

  /** `Color3::Black()` */
  const Black: Color3 := Color3(0.0, 0.0, 0.0)

  function ColorAdd(c: Color3, d: Color3): Color3 {
    Color3(c.r + d.r, c.g + d.g, c.b + d.b)
  }

  /** `c * s` */
  function ColorScale(c: Color3, s: real): Color3 {
    Color3(c.r * s, c.g * s, c.b * s)
  }
}
