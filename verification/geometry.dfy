/** Points and axis-aligned boxes over the reals. The bounding box is a plain
    record of a minimum and a maximum corner; only the x coordinates of the
    corners are ever moved by the simulation host. */
module Geometry {

  datatype Vec3 = Vec3(x: real, y: real, z: real)

  const Zero: Vec3 := Vec3(0.0, 0.0, 0.0)

  datatype AABB = AABB(min: Vec3, max: Vec3) {

    function Width(): real { max.x - min.x }
    function Height(): real { max.y - min.y }
    function Depth(): real { max.z - min.z }

    /** Replaces the x coordinate of the maximum corner. */
    function WithMaxX(v: real): (b: AABB)
      ensures b.max.x == v
      ensures b.min == min && b.max.y == max.y && b.max.z == max.z
    {
      AABB(min, Vec3(v, max.y, max.z))
    }

    /** Replaces the x coordinate of the minimum corner. */
    function WithMinX(v: real): (b: AABB)
      ensures b.min.x == v
      ensures b.max == max && b.min.y == min.y && b.min.z == min.z
    {
      AABB(Vec3(v, min.y, min.z), max)
    }

    /** True when the point lies in the closed box. */
    predicate Contains(p: Vec3) {
      && min.x <= p.x <= max.x
      && min.y <= p.y <= max.y
      && min.z <= p.z <= max.z
    }
  }

  /** The two boxes agree on everything but the x coordinates of their corners. */
  predicate SameYZ(a: AABB, b: AABB) {
    && a.min.y == b.min.y && a.min.z == b.min.z
    && a.max.y == b.max.y && a.max.z == b.max.z
  }
}
