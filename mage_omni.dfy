/**
 * The MAGE omni light (lights/mage_omni.cpp): an isotropic point emitter whose
 * inverse-square falloff is floored near the light and smoothly windowed to
 * zero at a configurable range.
 */
module MageOmni {
  import opened Wrappers
  import opened Spectra
  import opened Geometry
  import opened ShadingMath

  /** pbrt's `Pi`. */
  const Pi: real := 3.14159265358979323846

  /** The floor `1e-4` (that is, 0.01 squared) on the squared distance. */
  const DistanceFloor: real := 0.0001

  /** `1 / DistanceFloor`: the largest attenuation the law can produce. */
  const MaxAttenuation: real := 10000.0

  /** `UniformSpherePdf()`: the density 1/(4 Pi) of a uniformly chosen direction. */
  function UniformSpherePdf(): (pdf: real)
    ensures 0.0 < pdf
    ensures pdf * (4.0 * Pi) == 1.0
  {
    1.0 / (4.0 * Pi)
  }

  /** Frostbite's window `saturate(1 - distance2 / range2)^2`. */
  function DistanceAttenuationSmoothingFactor(distance2: real, range2: real): (s: real)
    requires range2 != 0.0
    ensures 0.0 <= s <= 1.0
    ensures 0.0 < range2 <= distance2 ==> s == 0.0
    ensures distance2 == 0.0 ==> s == 1.0
  {
    WindowClosesAtRange(distance2, range2);
    Sqr(Saturate(1.0 - distance2 / range2))
  }

  /**
   * The light's falloff: inverse-square with the squared distance floored at
   * DistanceFloor, times the smoothing window.
   */
  function DistanceAttenuation(distance: real, range: real): (a: real)
    requires range != 0.0
    ensures 0.0 <= a <= MaxAttenuation
    ensures 0.0 < range <= distance ==> a == 0.0
    ensures distance == 0.0 ==> a == MaxAttenuation
  {
    SquarePositive(range);
    var distance2 := Sqr(distance);
    var range2 := Sqr(range);
    var attenuation := InverseSquare(distance2);
    var smoothing := DistanceAttenuationSmoothingFactor(distance2, range2);
    ScaledBound(attenuation, smoothing, MaxAttenuation);
    SqrMonotoneWhen(range, distance);
    ProductWithUnitOrZero(attenuation, smoothing);
    attenuation * smoothing
  }

  /** The floored inverse-square factor `1 / max(distance2, 1e-4)`. */
  function InverseSquare(distance2: real): (f: real)
    ensures 0.0 < f <= MaxAttenuation
    ensures distance2 <= DistanceFloor ==> f == MaxAttenuation
  {
    InverseAntitone(DistanceFloor, Max(distance2, DistanceFloor));
    1.0 / Max(distance2, DistanceFloor)
  }

  // ---------------------------------------------------------------------------
  // Arithmetic facts the attenuation law rests on
  // ---------------------------------------------------------------------------

  /** Taking reciprocals reverses the order of positive numbers. */
  lemma InverseAntitone(a: real, b: real)
    requires 0.0 < a <= b
    ensures 0.0 < 1.0 / b <= 1.0 / a
  {
    var ia, ib := 1.0 / a, 1.0 / b;
    assert ia * a == 1.0 && ib * b == 1.0;
    if ib <= 0.0 {
      calc {
        1.0;
      ==
        b * ib;
      <= { MulMonotone(b, ib, 0.0); }
        b * 0.0;
      ==
        0.0;
      }
    }
    if ia < ib {
      calc {
        1.0;
      ==
        ia * a;
      <= { MulMonotone(ia, a, b); }
        ia * b;
      ==
        b * ia;
      < { StrictMulMonotone(b, ia, ib); }
        b * ib;
      ==
        1.0;
      }
    }
  }

  /** A product whose second factor is 1 or 0. */
  lemma ProductWithUnitOrZero(a: real, s: real)
    ensures s == 1.0 ==> a * s == a
    ensures s == 0.0 ==> a * s == 0.0
  {
  }

  /** A quotient of positive numbers is at least one when the numerator is at least the denominator. */
  lemma DivAtLeastOne(a: real, b: real)
    requires 0.0 < b <= a
    ensures 1.0 <= a / b
  {
    var q := a / b;
    assert q * b == a;
    if q < 1.0 {
      calc {
        a;
      ==
        q * b;
      ==
        b * q;
      < { StrictMulMonotone(b, q, 1.0); }
        b * 1.0;
      ==
        b;
      }
    }
  }

  /** Beyond the squared range the saturated term is zero. */
  lemma WindowClosesAtRange(distance2: real, range2: real)
    requires range2 != 0.0
    ensures 0.0 < range2 <= distance2 ==> Saturate(1.0 - distance2 / range2) == 0.0
  {
    if 0.0 < range2 <= distance2 {
      DivAtLeastOne(distance2, range2);
    }
  }

  /** SqrMonotone, for callers that cannot branch. */
  lemma SqrMonotoneWhen(x: real, y: real)
    ensures 0.0 <= x <= y ==> Sqr(x) <= Sqr(y)
  {
    if 0.0 <= x <= y {
      SqrMonotone(x, y);
    }
  }

  /** Dividing by a positive number keeps an order. */
  lemma DivMonotone(a: real, b: real, c: real)
    requires 0.0 < c && a <= b
    ensures a / c <= b / c
  {
    var qa, qb := a / c, b / c;
    assert qa * c == a && qb * c == b;
    if qb < qa {
      calc {
        b;
      ==
        qb * c;
      ==
        c * qb;
      < { StrictMulMonotone(c, qb, qa); }
        c * qa;
      ==
        a;
      }
    }
  }

  /** A product of non-negative, non-increasing factors is non-increasing. */
  lemma ProductMonotone(a1: real, s1: real, a2: real, s2: real)
    requires 0.0 <= a2 <= a1 && 0.0 <= s2 <= s1
    ensures a2 * s2 <= a1 * s1
  {
    calc {
      a2 * s2;
    <= { MulMonotone(a2, s2, s1); }
      a2 * s1;
    ==
      s1 * a2;
    <= { MulMonotone(s1, a2, a1); }
      s1 * a1;
    ==
      a1 * s1;
    }
  }

  // ---------------------------------------------------------------------------
  // Properties of the attenuation law
  // ---------------------------------------------------------------------------

  /** The floored inverse-square factor never grows with the squared distance. */
  lemma InverseSquareNonIncreasing(d1: real, d2: real)
    requires d1 <= d2
    ensures InverseSquare(d2) <= InverseSquare(d1)
  {
    InverseAntitone(Max(d1, DistanceFloor), Max(d2, DistanceFloor));
  }

  /** The window never grows as the squared distance grows. */
  lemma SmoothingFactorNonIncreasing(d1: real, d2: real, range2: real)
    requires 0.0 < range2 && d1 <= d2
    ensures DistanceAttenuationSmoothingFactor(d2, range2) <= DistanceAttenuationSmoothingFactor(d1, range2)
  {
    DivMonotone(d1, d2, range2);
    SaturateMonotone(1.0 - d2 / range2, 1.0 - d1 / range2);
    SqrMonotone(Saturate(1.0 - d2 / range2), Saturate(1.0 - d1 / range2));
  }

  /** Moving away from the light never increases the attenuation. */
  lemma {:induction false} AttenuationNonIncreasing(d1: real, d2: real, range: real)
    requires range != 0.0 && 0.0 <= d1 <= d2
    ensures DistanceAttenuation(d2, range) <= DistanceAttenuation(d1, range)
  {
    SquarePositive(range);
    var range2 := Sqr(range);
    SqrMonotone(d1, d2);
    calc {
      DistanceAttenuation(d2, range);
    ==
      InverseSquare(Sqr(d2)) * DistanceAttenuationSmoothingFactor(Sqr(d2), range2);
    <= { InverseSquareNonIncreasing(Sqr(d1), Sqr(d2));
         SmoothingFactorNonIncreasing(Sqr(d1), Sqr(d2), range2);
         ProductMonotone(InverseSquare(Sqr(d1)), DistanceAttenuationSmoothingFactor(Sqr(d1), range2),
                         InverseSquare(Sqr(d2)), DistanceAttenuationSmoothingFactor(Sqr(d2), range2)); }
      InverseSquare(Sqr(d1)) * DistanceAttenuationSmoothingFactor(Sqr(d1), range2);
    ==
      DistanceAttenuation(d1, range);
    }
  }

  /** At the light the attenuation is finite and strictly above its value at half the range. */
  lemma {:induction false} AttenuationHalfRange(range: real)
    requires 0.0 < range
    ensures DistanceAttenuation(range / 2.0, range) < DistanceAttenuation(0.0, range) == MaxAttenuation
  {
    var half := range / 2.0;
    SquarePositive(range);
    var range2 := Sqr(range);
    calc {
      Sqr(half) / range2;
    ==
      (half * half) / (range * range);
    ==
      ((range * range) / 4.0) / (range * range);
    ==
      0.25;
    }
    var smoothing := DistanceAttenuationSmoothingFactor(Sqr(half), range2);
    assert smoothing == 0.5625;
    var attenuation := InverseSquare(Sqr(half));
    calc {
      DistanceAttenuation(half, range);
    ==
      attenuation * smoothing;
    ==
      smoothing * attenuation;
    <= { MulMonotone(smoothing, attenuation, MaxAttenuation); }
      smoothing * MaxAttenuation;
    <
      MaxAttenuation;
    }
  }

  // ---------------------------------------------------------------------------
  // The light
  // ---------------------------------------------------------------------------

  /** pbrt's `LightFlags`; this light is always a delta-position emitter. */
  datatype LightFlags = DeltaPosition | DeltaDirection | Area | Infinite

  /** Immutable after construction: every field is a `const`. */
  class MageOmniLight {
    const flags: LightFlags
    /** `m_p`: the world-space position. */
    const p: Point3
    /** `m_range`: the distance at which the falloff reaches zero. */
    const range: real
    /** `m_I`: the radiant intensity. */
    const intensity: Spectrum

    constructor(lightToWorld: Transform, range: real, intensity: Spectrum)
      ensures flags == DeltaPosition
      ensures p == lightToWorld(Origin)
      ensures this.range == range && this.intensity == intensity
    {
      flags := DeltaPosition;
      p := lightToWorld(Origin);
      this.range := range;
      this.intensity := intensity;
    }

    /**
     * Total power `4 Pi I`, whatever the range; spread uniformly over the
     * sphere of directions it gives back the intensity.
     */
    function Power(): (phi: Spectrum)
      ensures phi == intensity.Scale(4.0 * Pi)
      ensures phi.Scale(UniformSpherePdf()) == intensity
    {
      var pdf := UniformSpherePdf();
      assert pdf * (4.0 * Pi) == 1.0;
      assert pdf * (4.0 * Pi * intensity.r) == intensity.r;
      assert pdf * (4.0 * Pi * intensity.g) == intensity.g;
      assert pdf * (4.0 * Pi * intensity.b) == intensity.b;
      intensity.Scale(4.0 * Pi)
    }

    /**
     * Incident radiance at `ref` from the light. `distance` is the Euclidean
     * length of `p - ref.p`, which the vector collaborator computes. The
     * random pair `u` is not consulted.
     */
    method SampleLi(ref: Interaction, u: Point2, distance: real)
      returns (L: Spectrum, wi: Vec3, pdf: real, vis: VisibilityTester)
      requires range != 0.0
      requires 0.0 < distance && distance * distance == p.Minus(ref.p).LengthSquared()
      ensures pdf == 1.0
      ensures wi == p.Minus(ref.p).Scale(1.0 / distance)
      ensures wi.LengthSquared() == 1.0
      ensures L == intensity.Scale(DistanceAttenuation(distance, range))
      ensures 0.0 < range <= distance ==> L.IsBlack()
      ensures intensity.NonNegative() ==> L.NonNegative()
      ensures vis == VisibilityTester(ref, Interaction(p, ref.time))
    {
      var direction := p.Minus(ref.p);
      var invDistance := 1.0 / distance;
      wi := direction.Scale(invDistance);
      UnitDirection(direction, distance);
      pdf := 1.0;
      vis := VisibilityTester(ref, Interaction(p, ref.time));
      var attenuation := DistanceAttenuation(distance, range);
      L := intensity.Scale(attenuation);
      if intensity.NonNegative() {
        MulMonotone(attenuation, 0.0, intensity.r);
        MulMonotone(attenuation, 0.0, intensity.g);
        MulMonotone(attenuation, 0.0, intensity.b);
      }
    }

    /** A direction chosen from outside can never hit a point: density 0. */
    function PdfLi(ref: Interaction, wi: Vec3): (pdf: real)
      ensures pdf == 0.0
    {
      0.0
    }

    /**
     * An emitted ray: it leaves `p` in the direction `sampleSphere(u1)`
     * (pbrt's `UniformSampleSphere`), carrying the unattenuated intensity.
     * The second random pair `u2` is not consulted.
     */
    method SampleLe(u1: Point2, u2: Point2, time: real, sampleSphere: Point2 -> Vec3)
      returns (L: Spectrum, ray: Ray, nLight: Vec3, pdfPos: real, pdfDir: real)
      ensures ray == Ray(p, sampleSphere(u1), Unbounded, time)
      ensures nLight == ray.d
      ensures pdfPos == 1.0
      ensures pdfDir == UniformSpherePdf() && pdfDir * (4.0 * Pi) == 1.0
      ensures L == intensity
    {
      ray := Ray(p, sampleSphere(u1), Unbounded, time);
      nLight := ray.d;
      pdfPos := 1.0;
      pdfDir := UniformSpherePdf();
      L := intensity;
    }

    /** Densities of an emitted ray: 0 for its origin, uniform for its direction. */
    method PdfLe(ray: Ray, nLight: Vec3) returns (pdfPos: real, pdfDir: real)
      ensures pdfPos == 0.0
      ensures pdfDir == UniformSpherePdf() && 0.0 < pdfDir
    {
      pdfPos := 0.0;
      pdfDir := UniformSpherePdf();
    }
  }

  /** Dividing a vector by its length gives a unit vector. */
  lemma UnitDirection(v: Vec3, length: real)
    requires 0.0 < length && length * length == v.LengthSquared()
    ensures v.Scale(1.0 / length).LengthSquared() == 1.0
  {
    var k := 1.0 / length;
    assert k * length == 1.0;
    calc {
      v.Scale(k).LengthSquared();
    ==
      (k * v.x) * (k * v.x) + (k * v.y) * (k * v.y) + (k * v.z) * (k * v.z);
    ==
      (k * k) * (v.x * v.x + v.y * v.y + v.z * v.z);
    ==
      (k * k) * (length * length);
    ==
      (k * length) * (k * length);
    ==
      1.0;
    }
  }

  /** The parameters `CreateMAGEOmniLight` looks up; `None` when absent. */
  datatype LightParams = LightParams(I: Option<Spectrum>, scale: Option<Spectrum>,
                                     range: Option<real>, from: Option<Point3>)

  /**
   * The factory: intensity `scale * I` (each defaulting to white), range
   * defaulting to 1, and the light placed by `Translate(from) * lightToWorld`
   * with `from` defaulting to the origin.
   */
  method CreateMageOmniLight(lightToWorld: Transform, params: LightParams)
    returns (light: MageOmniLight)
    ensures fresh(light)
    ensures light.flags == DeltaPosition
    ensures light.intensity == params.scale.GetOr(White).Times(params.I.GetOr(White))
    ensures light.range == params.range.GetOr(1.0)
    ensures light.p == lightToWorld(Origin).Plus(params.from.GetOr(Origin))
    ensures lightToWorld(Origin) == Origin ==> light.p == params.from.GetOr(Origin)
  {
    var I := params.I.GetOr(White);
    var scale := params.scale.GetOr(White);
    var range := params.range.GetOr(1.0);
    var from := params.from.GetOr(Origin);
    var l2w := Compose(Translate(from), lightToWorld);
    light := new MageOmniLight(l2w, range, scale.Times(I));
  }
}
