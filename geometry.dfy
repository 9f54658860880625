/**
 * The slice of pbrt's geometry that the light, the material and the
 * integrator touch: vectors and points, rays, interactions, transforms.
 */
module Geometry {

  datatype Vec3 = Vec3(x: real, y: real, z: real) {

    function Plus(o: Vec3): Vec3 {
      Vec3(x + o.x, y + o.y, z + o.z)
    }

    function Minus(o: Vec3): Vec3 {
      Vec3(x - o.x, y - o.y, z - o.z)
    }

    function Scale(s: real): Vec3 {
      Vec3(s * x, s * y, s * z)
    }

    function Neg(): Vec3 {
      Vec3(-x, -y, -z)
    }

    /** The squared Euclidean length, `LengthSquared()`. */
    function LengthSquared(): real {
      x * x + y * y + z * z
    }
  }

  /** Points share the representation of vectors. */
  type Point3 = Vec3

  /** `Point3f()`: the origin. */
  const Origin: Point3 := Vec3(0.0, 0.0, 0.0)

  /** A pair of uniform random numbers, `Point2f`. */
  datatype Point2 = Point2(u: real, v: real)

  /** How far a ray extends: pbrt's default `tMax` is infinity. */
  datatype Extent = Unbounded | Bounded(tMax: real)

  datatype Ray = Ray(o: Point3, d: Vec3, extent: Extent, time: real)

  /** A point in the scene at a time (the medium interface is not modelled). */
  datatype Interaction = Interaction(p: Point3, time: real)

  /** A deferred occlusion test between two interactions. */
  datatype VisibilityTester = VisibilityTester(p0: Interaction, p1: Interaction)

  /** A transform, seen as the map it applies to points. */
  type Transform = Point3 -> Point3

  /** pbrt's product `a * b` of transforms: apply `b`, then `a`. */
  function Compose(a: Transform, b: Transform): Transform {
    (x: Point3) => a(b(x))
  }

  /** `Translate(v)`. */
  function Translate(v: Vec3): Transform {
    (x: Point3) => x.Plus(v)
  }
}
