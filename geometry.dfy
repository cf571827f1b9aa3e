/** Points, the yaw frame of an object that turns only about the vertical axis,
    and axis-aligned boxes with the overlap test the collision query uses. */
module Geometry {

  /** A point or displacement in world space, in exact arithmetic. */
  datatype Vec3 = Vec3(x: real, y: real, z: real)

  function Add(a: Vec3, b: Vec3): Vec3 {
    Vec3(a.x + b.x, a.y + b.y, a.z + b.z)
  }

  function Scale(k: real, v: Vec3): Vec3 {
    Vec3(k * v.x, k * v.y, k * v.z)
  }

  /** The sine and cosine of an object's rotation about the world Y axis. The
      trigonometry itself is supplied by the caller. */
  datatype Heading = Heading(sin: real, cos: real)

  /** The object's local +X axis in world coordinates (rotation about Y). */
  function LocalX(h: Heading): (v: Vec3)
    ensures v.y == 0.0
  {
    Vec3(h.cos, 0.0, -h.sin)
  }

  /** The object's local +Z axis in world coordinates (rotation about Y). */
  function LocalZ(h: Heading): (v: Vec3)
    ensures v.y == 0.0
  {
    Vec3(h.sin, 0.0, h.cos)
  }

  /** An object that only turns about Y keeps its local +Y equal to world +Y. */
  const WorldUp: Vec3 := Vec3(0.0, 1.0, 0.0)

  /** Moving an object by `distance` along one of its axes. */
  function Translate(p: Vec3, axis: Vec3, distance: real): Vec3 {
    Add(p, Scale(distance, axis))
  }

  /** An axis-aligned box; `EmptyBox` is the box of an object without geometry
      (a light, an empty group), which has no points at all. */
  datatype Box = EmptyBox | Bounds(lo: Vec3, hi: Vec3)

  /** Closed-interval overlap on all three axes; an empty box meets nothing. */
  predicate Intersects(a: Box, b: Box) {
    a.Bounds? && b.Bounds? &&
    b.hi.x >= a.lo.x && b.lo.x <= a.hi.x &&
    b.hi.y >= a.lo.y && b.lo.y <= a.hi.y &&
    b.hi.z >= a.lo.z && b.lo.z <= a.hi.z
  }

  lemma IntersectsSymmetric(a: Box, b: Box)
    ensures Intersects(a, b) <==> Intersects(b, a)
  {
  }

  lemma EmptyMeetsNothing(a: Box)
    ensures !Intersects(a, EmptyBox) && !Intersects(EmptyBox, a)
  {
  }
}
