/** Unity's small vector structs, with float components modelled as exact reals. */
module Geometry {

  datatype Vec2 = Vec2(x: real, y: real)
  {
    function Plus(other: Vec2): Vec2 { Vec2(x + other.x, y + other.y) }
    function Minus(other: Vec2): Vec2 { Vec2(x - other.x, y - other.y) }
  }

  datatype Vec3 = Vec3(x: real, y: real, z: real)
  {
    function Plus(other: Vec3): Vec3 { Vec3(x + other.x, y + other.y, z + other.z) }
  }

  const Zero2 := Vec2(0.0, 0.0)
  const One2 := Vec2(1.0, 1.0)
  const Zero3 := Vec3(0.0, 0.0, 0.0)
}
