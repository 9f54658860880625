/**
 * The false-colour integrator (integrators/falsecolor.cpp): despite its name,
 * it returns, per camera ray, the raw value of one sample of the BSDF at the
 * first hit, with no cosine or density weighting and no further bounces.
 */
module FalseColor {
  import opened Wrappers
  import opened Spectra
  import opened Geometry

  // ---------------------------------------------------------------------------
  // Collaborators
  // ---------------------------------------------------------------------------

  /** pbrt's `BxDFType` bit mask. */
  type BxDFType = bv8

  /** `BSDF_ALL`: reflection, transmission, diffuse, glossy and specular lobes. */
  const BsdfAll: BxDFType := 0x1F

  /** What `BSDF::Sample_f` produces: the value, and through its out-pointers the direction, density and lobe type. */
  datatype BsdfSample = BsdfSample(f: Spectrum, wi: Vec3, pdf: real, sampledType: BxDFType)

  /** A BSDF at a hit, seen through `Sample_f(wo, u, type)`, the one operation the integrator calls. */
  datatype BsdfView = BsdfView(sampleF: (Vec3, Point2, BxDFType) -> BsdfSample)

  /** The hit record `Scene::Intersect` fills. */
  datatype SurfaceHit = SurfaceHit(p: Point3, n: Vec3, time: real)

  /**
   * The scene: `Intersect` (no hit is `None`) and the hit's
   * `ComputeScatteringFunctions` (a null `bsdf` is `None`).
   */
  datatype Scene = Scene(intersect: Ray -> Option<SurfaceHit>,
                         computeScatteringFunctions: (SurfaceHit, Ray) -> Option<BsdfView>)

  /** A sampler, seen as the sequence of 2D samples `Get2D` hands out. */
  class Sampler {
    const samples: nat -> Point2
    var next: nat

    constructor(samples: nat -> Point2)
      ensures this.samples == samples && next == 0
    {
      this.samples := samples;
      next := 0;
    }

    /** `Get2D`: the next sample; each call consumes one. */
    method Get2D() returns (u: Point2)
      modifies this
      ensures u == samples(old(next))
      ensures next == old(next) + 1
    {
      u := samples(next);
      next := next + 1;
    }
  }

  datatype Point2i = Point2i(x: int, y: int)

  datatype Bounds2i = Bounds2i(pMin: Point2i, pMax: Point2i)

  /**
   * The integer-bounds operations the factory uses, left uninterpreted: the
   * `Bounds2i` built from two corner points, `Intersect` and `Area`.
   */
  datatype BoundsOps = BoundsOps(fromCorners: (Point2i, Point2i) -> Bounds2i,
                                 intersect: (Bounds2i, Bounds2i) -> Bounds2i,
                                 area: Bounds2i -> int)

  /** The camera, seen through its film's sample bounds. */
  datatype Camera = Camera(sampleBounds: Bounds2i)

  /** The two diagnostics the factory can report through `Error`. */
  datatype Diagnostic = WrongValueCount(count: int) | DegenerateBounds

  // ---------------------------------------------------------------------------
  // The integrator
  // ---------------------------------------------------------------------------

  class FalseColorIntegrator {
    const camera: Camera
    const sampler: Sampler
    const pixelBounds: Bounds2i

    constructor(camera: Camera, sampler: Sampler, pixelBounds: Bounds2i)
      ensures this.camera == camera && this.sampler == sampler && this.pixelBounds == pixelBounds
    {
      this.camera := camera;
      this.sampler := sampler;
      this.pixelBounds := pixelBounds;
    }

    /**
     * Black on a miss or when the hit has no BSDF; otherwise exactly the value
     * of one `Sample_f(-ray.d, Get2D(), BSDF_ALL)`. A sample is drawn only in
     * that last case; `depth` is never consulted.
     */
    method Li(ray: Ray, scene: Scene, sampler: Sampler, depth: int) returns (L: Spectrum)
      modifies sampler
      ensures scene.intersect(ray).None? ==>
                L == Black && sampler.next == old(sampler.next)
      ensures scene.intersect(ray).Some? &&
              scene.computeScatteringFunctions(scene.intersect(ray).value, ray).None? ==>
                L == Black && sampler.next == old(sampler.next)
      ensures scene.intersect(ray).Some? &&
              scene.computeScatteringFunctions(scene.intersect(ray).value, ray).Some? ==>
                var bsdf := scene.computeScatteringFunctions(scene.intersect(ray).value, ray).value;
                L == bsdf.sampleF(ray.d.Neg(), sampler.samples(old(sampler.next)), BsdfAll).f &&
                sampler.next == old(sampler.next) + 1
    {
      L := Black;
      var isect := scene.intersect(ray);
      if isect.Some? {
        var bsdf := scene.computeScatteringFunctions(isect.value, ray);
        if bsdf.Some? {
          var wo := ray.d.Neg();
          var u := sampler.Get2D();
          var sample := bsdf.value.sampleF(wo, u, BsdfAll);
          L := sample.f;
        }
      }
    }
  }

  /**
   * The factory. Without `pixelbounds` the camera's sample bounds are used.
   * With a number of values other than four, a diagnostic is reported and the
   * camera's bounds are kept. With four values `[x0, x1, y0, y1]` the bounds
   * become the camera's intersected with the box on corners `(x0, y0)` and
   * `(x1, y1)`; if that has zero area a diagnostic is reported and the
   * degenerate bounds are used all the same.
   */
  method CreateFalseColorIntegrator(pixelbounds: Option<seq<int>>, sampler: Sampler,
                                    camera: Camera, ops: BoundsOps)
    returns (integrator: FalseColorIntegrator, errors: seq<Diagnostic>)
    ensures fresh(integrator)
    ensures integrator.camera == camera && integrator.sampler == sampler
    ensures |errors| <= 1
    ensures pixelbounds.None? ==>
              integrator.pixelBounds == camera.sampleBounds && errors == []
    ensures pixelbounds.Some? && |pixelbounds.value| != 4 ==>
              integrator.pixelBounds == camera.sampleBounds &&
              errors == [WrongValueCount(|pixelbounds.value|)]
    ensures pixelbounds.Some? && |pixelbounds.value| == 4 ==>
              var v := pixelbounds.value;
              integrator.pixelBounds ==
                ops.intersect(camera.sampleBounds, ops.fromCorners(Point2i(v[0], v[2]), Point2i(v[1], v[3]))) &&
              errors == (if ops.area(integrator.pixelBounds) == 0 then [DegenerateBounds] else [])
  {
    errors := [];
    var pixelBounds := camera.sampleBounds;
    if pixelbounds.Some? {
      var bounds := pixelbounds.value;
      if |bounds| != 4 {
        errors := errors + [WrongValueCount(|bounds|)];
      } else {
        pixelBounds := ops.intersect(pixelBounds,
                                     ops.fromCorners(Point2i(bounds[0], bounds[2]), Point2i(bounds[1], bounds[3])));
        if 0 == ops.area(pixelBounds) {
          errors := errors + [DegenerateBounds];
        }
      }
    }
    integrator := new FalseColorIntegrator(camera, sampler, pixelBounds);
  }
}
