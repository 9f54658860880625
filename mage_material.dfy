/**
 * The MAGE metallic-roughness material (materials/mage.cpp): it turns a base
 * colour, a roughness and a metalness (each a stored value times a texture
 * lookup) into at most two reflection lobes, a Lambertian one weighted by the
 * diffuse reflectance and a Blinn-Phong one weighted by the specular
 * reflectance at normal incidence.
 *
 * As written, the code derives `metalness` from the stored roughness and its
 * texture, and `roughness` from the stored metalness and its texture; the
 * contracts below keep that exchange visible.
 */
module MageMaterials {
  import opened Wrappers
  import opened Spectra
  import opened Geometry
  import opened ShadingMath

  /** `s_dielectric_F0`: the specular reflectance of a typical non-metal. */
  const DielectricF0: real := 0.04

  /** The floor on `alpha`. */
  const MinAlpha: real := 0.001

  // ---------------------------------------------------------------------------
  // Lobe weights
  // ---------------------------------------------------------------------------

  /** `max(1e-3, roughness^2)`. */
  function Alpha(roughness: real): (alpha: real)
    ensures MinAlpha <= alpha
    ensures 0.0 <= roughness <= 1.0 ==> alpha <= 1.0
    ensures roughness == 0.0 ==> alpha == MinAlpha
  {
    Max(MinAlpha, Sqr(roughness))
  }

  /** `Lerp(metalness, 0.04, base_color)`: the specular reflectance at normal incidence. */
  function SpecularReflectance(metalness: real, baseColor: Spectrum): (f: Spectrum)
    ensures metalness == 0.0 ==> f == Gray(DielectricF0)
    ensures metalness == 1.0 ==> f == baseColor
    ensures 0.0 <= metalness <= 1.0 && baseColor.InUnitCube() ==> f.InUnitCube()
    ensures 0.0 <= metalness < 1.0 && baseColor.NonNegative() ==> !f.IsBlack()
  {
    SpecularChannel(metalness, baseColor.r);
    SpecularChannel(metalness, baseColor.g);
    SpecularChannel(metalness, baseColor.b);
    Lerp(metalness, Gray(DielectricF0), baseColor)
  }

  /** `(1 - F_specular) * (1 - metalness)`: the diffuse reflectance. */
  function DiffuseReflectance(specular: Spectrum, metalness: real): (f: Spectrum)
    ensures metalness == 1.0 ==> f.IsBlack()
    ensures 0.0 <= metalness <= 1.0 && specular.InUnitCube() ==> f.InUnitCube()
  {
    DiffuseChannel(specular.r, metalness);
    DiffuseChannel(specular.g, metalness);
    DiffuseChannel(specular.b, metalness);
    White.Minus(specular).Scale(1.0 - metalness)
  }

  /** One channel of the specular reflectance stays in [0,1], and above 0 short of a full metal. */
  lemma SpecularChannel(m: real, c: real)
    ensures m == 0.0 ==> LerpReal(m, DielectricF0, c) == DielectricF0
    ensures m == 1.0 ==> LerpReal(m, DielectricF0, c) == c
    ensures 0.0 <= m <= 1.0 && 0.0 <= c <= 1.0 ==> 0.0 <= LerpReal(m, DielectricF0, c) <= 1.0
    ensures 0.0 <= m < 1.0 && 0.0 <= c ==> 0.0 < LerpReal(m, DielectricF0, c)
  {
    if 0.0 <= m <= 1.0 && 0.0 <= c <= 1.0 {
      calc {
        LerpReal(m, DielectricF0, c);
      ==
        (1.0 - m) * DielectricF0 + m * c;
      <= { MulMonotone(m, c, 1.0); }
        (1.0 - m) * DielectricF0 + m * 1.0;
      <=
        1.0;
      }
    }
    if 0.0 <= m <= 1.0 && 0.0 <= c {
      calc {
        LerpReal(m, DielectricF0, c);
      ==
        (1.0 - m) * DielectricF0 + m * c;
      >= { MulMonotone(m, 0.0, c); }
        (1.0 - m) * DielectricF0 + m * 0.0;
      ==
        (1.0 - m) * DielectricF0;
      >=
        0.0;
      }
    }
    if 0.0 <= m < 1.0 && 0.0 <= c {
      calc {
        LerpReal(m, DielectricF0, c);
      ==
        (1.0 - m) * DielectricF0 + m * c;
      >= { MulMonotone(m, 0.0, c); }
        (1.0 - m) * DielectricF0 + m * 0.0;
      ==
        (1.0 - m) * DielectricF0;
      >
        0.0;
      }
    }
  }

  /** One channel of the diffuse reflectance: zero for a full metal, in [0,1] otherwise. */
  lemma DiffuseChannel(s: real, m: real)
    ensures m == 1.0 ==> (1.0 - m) * (1.0 - s) == 0.0
    ensures 0.0 <= m <= 1.0 && 0.0 <= s <= 1.0 ==> 0.0 <= (1.0 - m) * (1.0 - s) <= 1.0
  {
    if 0.0 <= m <= 1.0 && 0.0 <= s <= 1.0 {
      ScaledBound(1.0 - m, 1.0 - s, 1.0);
    }
  }

  /** A rougher surface never has a smaller `alpha`. */
  lemma AlphaNonDecreasing(r1: real, r2: real)
    requires 0.0 <= r1 <= r2
    ensures Alpha(r1) <= Alpha(r2)
  {
    SqrMonotone(r1, r2);
  }

  /** At metalness 0 (a dielectric) the diffuse weight is the grey `1 - 0.04`. */
  lemma DielectricDiffuse(baseColor: Spectrum)
    ensures DiffuseReflectance(SpecularReflectance(0.0, baseColor), 0.0) == Gray(1.0 - DielectricF0)
  {
  }

  /**
   * For a base colour in the unit cube, no channel of the diffuse weight grows
   * with the metalness.
   */
  lemma {:induction false} DiffuseNonIncreasingInMetalness(m1: real, m2: real, baseColor: Spectrum)
    requires 0.0 <= m1 <= m2 <= 1.0 && baseColor.InUnitCube()
    ensures var d1 := DiffuseReflectance(SpecularReflectance(m1, baseColor), m1);
            var d2 := DiffuseReflectance(SpecularReflectance(m2, baseColor), m2);
            d2.r <= d1.r && d2.g <= d1.g && d2.b <= d1.b
  {
    DiffuseChannels(m1, baseColor);
    DiffuseChannels(m2, baseColor);
    DiffuseChannelNonIncreasing(m1, m2, baseColor.r);
    DiffuseChannelNonIncreasing(m1, m2, baseColor.g);
    DiffuseChannelNonIncreasing(m1, m2, baseColor.b);
  }

  /** Each channel of the diffuse weight depends only on the same channel of the base colour. */
  lemma DiffuseChannels(m: real, baseColor: Spectrum)
    ensures var d := DiffuseReflectance(SpecularReflectance(m, baseColor), m);
            d.r == DiffuseChannelOf(m, baseColor.r) &&
            d.g == DiffuseChannelOf(m, baseColor.g) &&
            d.b == DiffuseChannelOf(m, baseColor.b)
  {
  }

  /**
   * For a base colour channel `c` in [0,1], the diffuse weight of that channel
   * never grows with the metalness.
   */
  lemma {:induction false} DiffuseChannelNonIncreasing(m1: real, m2: real, c: real)
    requires 0.0 <= m1 <= m2 <= 1.0 && 0.0 <= c <= 1.0
    ensures DiffuseChannelOf(m2, c) <= DiffuseChannelOf(m1, c)
  {
    var k := c - DielectricF0;
    var bracket := (1.0 - DielectricF0) + k * (1.0 - m1 - m2);
    calc {
      DiffuseChannelOf(m2, c);
    == { DiffuseDifference(m1, m2, c); }
      DiffuseChannelOf(m1, c) - (m2 - m1) * bracket;
    <= { DiffuseBracketNonNegative(m1, m2, k); MulMonotone(m2 - m1, 0.0, bracket); }
      DiffuseChannelOf(m1, c) - (m2 - m1) * 0.0;
    ==
      DiffuseChannelOf(m1, c);
    }
  }

  /** The difference of two diffuse weights, factored. */
  lemma DiffuseDifference(m1: real, m2: real, c: real)
    ensures DiffuseChannelOf(m1, c) - DiffuseChannelOf(m2, c)
            == (m2 - m1) * ((1.0 - DielectricF0) + (c - DielectricF0) * (1.0 - m1 - m2))
  {
    var k := c - DielectricF0;
    calc {
      DiffuseChannelOf(m1, c) - DiffuseChannelOf(m2, c);
    == { DiffuseChannelFormula(m1, c); DiffuseChannelFormula(m2, c); }
      (1.0 - m1) * (0.96 - m1 * k) - (1.0 - m2) * (0.96 - m2 * k);
    ==
      (0.96 - m1 * k - 0.96 * m1 + m1 * m1 * k) - (0.96 - m2 * k - 0.96 * m2 + m2 * m2 * k);
    ==
      (m2 - m1) * (0.96 + k * (1.0 - m1 - m2));
    }
  }

  /** One channel of the diffuse weight as a polynomial in the metalness. */
  lemma DiffuseChannelFormula(m: real, c: real)
    ensures DiffuseChannelOf(m, c) == (1.0 - m) * (0.96 - m * (c - DielectricF0))
  {
    calc {
      DiffuseChannelOf(m, c);
    ==
      (1.0 - m) * (1.0 - ((1.0 - m) * DielectricF0 + m * c));
    ==
      (1.0 - m) * (0.96 - m * (c - DielectricF0));
    }
  }

  /** The second factor of DiffuseDifference is non-negative on the unit square. */
  lemma DiffuseBracketNonNegative(m1: real, m2: real, k: real)
    requires 0.0 <= m1 <= 1.0 && 0.0 <= m2 <= 1.0 && -DielectricF0 <= k <= 1.0 - DielectricF0
    ensures 0.0 <= (1.0 - DielectricF0) + k * (1.0 - m1 - m2)
  {
    if 0.0 <= k {
      calc {
        k * (1.0 - m1 - m2);
      >= { MulMonotone(k, -1.0, 1.0 - m1 - m2); }
        k * -1.0;
      >=
        DielectricF0 - 1.0;
      }
    } else {
      calc {
        k * (1.0 - m1 - m2);
      ==
        -((-k) * (1.0 - m1 - m2));
      >= { MulMonotone(-k, 1.0 - m1 - m2, 1.0); }
        -((-k) * 1.0);
      >=
        DielectricF0 - 1.0;
      }
    }
  }

  /** The red channel of the diffuse weight for metalness `m` and base colour channel `c`. */
  function DiffuseChannelOf(m: real, c: real): real {
    DiffuseReflectance(SpecularReflectance(m, Gray(c)), m).r
  }

  // ---------------------------------------------------------------------------
  // Lobes
  // ---------------------------------------------------------------------------

  /** The two lobe types the material creates. */
  datatype Lobe =
    | LambertianReflection(reflectance: Spectrum)
    | BlinnPhongReflection(reflectance: Spectrum, alpha: real)

  /** Everything `ComputeScatteringFunctions` derives before adding lobes. */
  datatype ScatteringWeights = ScatteringWeights(
    baseColor: Spectrum, metalness: real, roughness: real, alpha: real,
    specular: Spectrum, diffuse: Spectrum)

  /**
   * The weights for the stored `baseColor`, `roughness`, `metalness` and the
   * three texture lookups. Note the exchange: `metalness` comes from the
   * roughness pair, `roughness` from the metalness pair.
   */
  function Weights(baseColor: Spectrum, roughness: real, metalness: real,
                   baseColorTex: Spectrum, roughnessTex: real, metalnessTex: real): (w: ScatteringWeights)
    ensures w.baseColor == SaturateSpectrum(baseColor.Times(baseColorTex))
    ensures w.metalness == Saturate(roughness * roughnessTex)
    ensures w.roughness == Saturate(metalness * metalnessTex)
    ensures w.alpha == Alpha(w.roughness) && MinAlpha <= w.alpha <= 1.0
    ensures w.specular == SpecularReflectance(w.metalness, w.baseColor) && w.specular.InUnitCube()
    ensures w.diffuse == DiffuseReflectance(w.specular, w.metalness) && w.diffuse.InUnitCube()
    ensures w.metalness == 1.0 ==> w.diffuse.IsBlack()
    ensures w.metalness < 1.0 ==> !w.specular.IsBlack()
  {
    var base := SaturateSpectrum(baseColor.Times(baseColorTex));
    var m := Saturate(roughness * roughnessTex);
    var r := Saturate(metalness * metalnessTex);
    var specular := SpecularReflectance(m, base);
    ScatteringWeights(base, m, r, Alpha(r), specular, DiffuseReflectance(specular, m))
  }

  /**
   * The lobes added to a fresh BSDF: the diffuse one first, when its weight is
   * not black, then the specular one, when its weight is not black.
   */
  function Lobes(w: ScatteringWeights): (lobes: seq<Lobe>)
    ensures |lobes| <= 2
    ensures LambertianReflection(w.diffuse) in lobes <==> !w.diffuse.IsBlack()
    ensures BlinnPhongReflection(w.specular, w.alpha) in lobes <==> !w.specular.IsBlack()
    ensures forall i :: 0 <= i < |lobes| ==>
              lobes[i] == LambertianReflection(w.diffuse) || lobes[i] == BlinnPhongReflection(w.specular, w.alpha)
    ensures forall i, j :: 0 <= i < j < |lobes| ==> lobes[i].LambertianReflection? && lobes[j].BlinnPhongReflection?
  {
    (if w.diffuse.IsBlack() then [] else [LambertianReflection(w.diffuse)])
      + (if w.specular.IsBlack() then [] else [BlinnPhongReflection(w.specular, w.alpha)])
  }

  /**
   * Short of a full metal (by the value the code calls metalness, which comes
   * from the stored roughness), the specular lobe is always there.
   */
  lemma {:induction false} SpecularLobePresent(baseColor: Spectrum, roughness: real, metalness: real,
                                               baseColorTex: Spectrum, roughnessTex: real, metalnessTex: real)
    requires roughness * roughnessTex < 1.0
    ensures var w := Weights(baseColor, roughness, metalness, baseColorTex, roughnessTex, metalnessTex);
            BlinnPhongReflection(w.specular, w.alpha) in Lobes(w)
  {
    var w := Weights(baseColor, roughness, metalness, baseColorTex, roughnessTex, metalnessTex);
    assert w.metalness < 1.0;
  }

  /**
   * Once the stored roughness times its texture reaches 1, the diffuse lobe is
   * gone, whatever the stored metalness: the exchange of the two names.
   */
  lemma {:induction false} StoredRoughnessRemovesDiffuse(baseColor: Spectrum, roughness: real, metalness: real,
                                                         baseColorTex: Spectrum, roughnessTex: real, metalnessTex: real)
    requires 1.0 <= roughness * roughnessTex
    ensures var w := Weights(baseColor, roughness, metalness, baseColorTex, roughnessTex, metalnessTex);
            forall l :: l in Lobes(w) ==> l.BlinnPhongReflection?
  {
    var w := Weights(baseColor, roughness, metalness, baseColorTex, roughnessTex, metalnessTex);
    assert w.metalness == 1.0;
    assert w.diffuse.IsBlack();
    var lobes := Lobes(w);
    forall l | l in lobes
      ensures l.BlinnPhongReflection?
    {
      var i :| 0 <= i < |lobes| && lobes[i] == l;
      assert l != LambertianReflection(w.diffuse);
    }
  }

  /** The `alpha` of the specular lobe is set by the stored metalness and its texture. */
  lemma {:induction false} StoredMetalnessSetsAlpha(baseColor: Spectrum, roughness: real, metalness: real,
                                                    baseColorTex: Spectrum, roughnessTex: real, metalnessTex: real)
    requires roughness * roughnessTex < 1.0
    ensures var w := Weights(baseColor, roughness, metalness, baseColorTex, roughnessTex, metalnessTex);
            Lobes(w)[|Lobes(w)| - 1] == BlinnPhongReflection(w.specular, Max(MinAlpha, Sqr(Saturate(metalness * metalnessTex))))
  {
    var w := Weights(baseColor, roughness, metalness, baseColorTex, roughnessTex, metalnessTex);
    assert !w.specular.IsBlack();
  }

  // ---------------------------------------------------------------------------
  // The shading point and its BSDF
  // ---------------------------------------------------------------------------

  /** The geometry of a shading point that bump mapping and texture lookups see. */
  datatype SurfaceGeometry = SurfaceGeometry(p: Point3, uv: Point2, n: Vec3, ns: Vec3)

  /** A texture, seen as its lookup at a shading point. */
  type FloatTexture = SurfaceGeometry -> real
  type SpectrumTexture = SurfaceGeometry -> Spectrum

  /** pbrt's `Bump`: perturbs the shading geometry from a displacement texture. */
  type BumpMapping = (FloatTexture, SurfaceGeometry) -> SurfaceGeometry

  /** `ConstantTexture<Float>(v)`. */
  function ConstantFloatTexture(v: real): FloatTexture {
    (g: SurfaceGeometry) => v
  }

  /** `ConstantTexture<Spectrum>(v)`. */
  function ConstantSpectrumTexture(v: Spectrum): SpectrumTexture {
    (g: SurfaceGeometry) => v
  }

  datatype TransportMode = Radiance | Importance

  /** The ordered lobe list at one shading point. */
  class BSDF {
    const ng: Vec3
    const ns: Vec3
    var lobes: seq<Lobe>

    /** `BSDF(si)`: an empty lobe list in the frame of the shading point. */
    constructor(g: SurfaceGeometry)
      ensures ng == g.n && ns == g.ns
      ensures lobes == []
    {
      ng := g.n;
      ns := g.ns;
      lobes := [];
    }

    /** `BSDF::Add`: appends one lobe. */
    method Add(lobe: Lobe)
      modifies this
      ensures lobes == old(lobes) + [lobe]
    {
      lobes := lobes + [lobe];
    }
  }

  /** A ray-surface hit; the material fills its `bsdf` slot. */
  class SurfaceInteraction {
    var geometry: SurfaceGeometry
    var bsdf: BSDF?

    constructor(geometry: SurfaceGeometry)
      ensures this.geometry == geometry && bsdf == null
    {
      this.geometry := geometry;
      bsdf := null;
    }
  }

  // ---------------------------------------------------------------------------
  // The material
  // ---------------------------------------------------------------------------

  class MageMaterial {
    const baseColor: Spectrum
    const roughness: real
    const metalness: real
    const baseColorTexture: SpectrumTexture
    const roughnessTexture: FloatTexture
    const metalnessTexture: FloatTexture
    const bumpTexture: Option<FloatTexture>

    constructor(baseColor: Spectrum, roughness: real, metalness: real,
                baseColorTexture: SpectrumTexture, roughnessTexture: FloatTexture,
                metalnessTexture: FloatTexture, bumpTexture: Option<FloatTexture>)
      ensures this.baseColor == baseColor && this.roughness == roughness && this.metalness == metalness
      ensures this.baseColorTexture == baseColorTexture
      ensures this.roughnessTexture == roughnessTexture
      ensures this.metalnessTexture == metalnessTexture
      ensures this.bumpTexture == bumpTexture
    {
      this.baseColor := baseColor;
      this.roughness := roughness;
      this.metalness := metalness;
      this.baseColorTexture := baseColorTexture;
      this.roughnessTexture := roughnessTexture;
      this.metalnessTexture := metalnessTexture;
      this.bumpTexture := bumpTexture;
    }

    /** The weights at shading geometry `g`, with every texture looked up at `g`. */
    function WeightsAt(g: SurfaceGeometry): ScatteringWeights {
      Weights(baseColor, roughness, metalness, baseColorTexture(g), roughnessTexture(g), metalnessTexture(g))
    }

    /**
     * Bump-maps `si` when a bump texture is set, then gives it a fresh BSDF in
     * the (possibly perturbed) frame and adds the lobes. `mode` and
     * `allowMultipleLobes` do not affect the result.
     */
    method ComputeScatteringFunctions(si: SurfaceInteraction, mode: TransportMode,
                                      allowMultipleLobes: bool, bump: BumpMapping)
      modifies si
      ensures si.geometry == (if bumpTexture.Some? then bump(bumpTexture.value, old(si.geometry))
                              else old(si.geometry))
      ensures si.bsdf != null && fresh(si.bsdf)
      ensures si.bsdf.ng == si.geometry.n && si.bsdf.ns == si.geometry.ns
      ensures si.bsdf.lobes == Lobes(WeightsAt(si.geometry))
    {
      if bumpTexture.Some? {
        si.geometry := bump(bumpTexture.value, si.geometry);
      }
      var bsdf := new BSDF(si.geometry);
      si.bsdf := bsdf;

      var base := SaturateSpectrum(baseColor.Times(baseColorTexture(si.geometry)));
      var m := Saturate(roughness * roughnessTexture(si.geometry));
      var r := Saturate(metalness * metalnessTexture(si.geometry));
      var alpha := Alpha(r);

      var specular := SpecularReflectance(m, base);
      var diffuse := DiffuseReflectance(specular, m);
      ghost var w := ScatteringWeights(base, m, r, alpha, specular, diffuse);
      assert w == WeightsAt(si.geometry);

      if !diffuse.IsBlack() {
        bsdf.Add(LambertianReflection(diffuse));
      }
      if !specular.IsBlack() {
        bsdf.Add(BlinnPhongReflection(specular, alpha));
      }
      assert bsdf.lobes == Lobes(w);
    }
  }

  // ---------------------------------------------------------------------------
  // The factory
  // ---------------------------------------------------------------------------

  /** `s_default_base_color`: a default-constructed, black spectrum. */
  const DefaultBaseColor: Spectrum := Black
  const DefaultRoughness: real := 1.0
  const DefaultMetalness: real := 0.0
  const DefaultRoughnessTexture: real := 1.0
  const DefaultMetalnessTexture: real := 0.0

  /** The parameters `CreateMAGEMaterial` looks up; `None` when absent. */
  datatype MaterialParams = MaterialParams(
    baseColor: Option<Spectrum>, roughness: Option<real>, metalness: Option<real>,
    baseColorTexture: Option<SpectrumTexture>, roughnessTexture: Option<FloatTexture>,
    metalnessTexture: Option<FloatTexture>, bumpTexture: Option<FloatTexture>)

  /** The factory: each absent parameter takes its default; the bump texture may stay unset. */
  method CreateMageMaterial(mp: MaterialParams) returns (m: MageMaterial)
    ensures fresh(m)
    ensures m.baseColor == mp.baseColor.GetOr(DefaultBaseColor)
    ensures m.roughness == mp.roughness.GetOr(DefaultRoughness)
    ensures m.metalness == mp.metalness.GetOr(DefaultMetalness)
    ensures m.baseColorTexture == mp.baseColorTexture.GetOr(ConstantSpectrumTexture(DefaultBaseColor))
    ensures m.roughnessTexture == mp.roughnessTexture.GetOr(ConstantFloatTexture(DefaultRoughnessTexture))
    ensures m.metalnessTexture == mp.metalnessTexture.GetOr(ConstantFloatTexture(DefaultMetalnessTexture))
    ensures m.bumpTexture == mp.bumpTexture
  {
    m := new MageMaterial(
      mp.baseColor.GetOr(DefaultBaseColor),
      mp.roughness.GetOr(DefaultRoughness),
      mp.metalness.GetOr(DefaultMetalness),
      mp.baseColorTexture.GetOr(ConstantSpectrumTexture(DefaultBaseColor)),
      mp.roughnessTexture.GetOr(ConstantFloatTexture(DefaultRoughnessTexture)),
      mp.metalnessTexture.GetOr(ConstantFloatTexture(DefaultMetalnessTexture)),
      mp.bumpTexture);
  }

  /**
   * The default base-colour texture is black, so whatever base colour is
   * stored the base colour used is black and the specular weight is the grey
   * `0.04 * (1 - metalness)`.
   */
  lemma {:induction false} DefaultBaseColorTextureBlackens(baseColor: Spectrum, roughness: real, metalness: real,
                                                           roughnessTex: real, metalnessTex: real)
    ensures var w := Weights(baseColor, roughness, metalness, DefaultBaseColor, roughnessTex, metalnessTex);
            w.baseColor == Black && w.specular == Gray(DielectricF0 * (1.0 - w.metalness))
  {
    var w := Weights(baseColor, roughness, metalness, DefaultBaseColor, roughnessTex, metalnessTex);
    assert baseColor.Times(Black) == Black;
    assert w.baseColor == Black;
  }

  /**
   * With the default base-colour texture (black), the default stored roughness
   * (1) and the default roughness texture (1), the BSDF gets no lobe at all,
   * whatever the stored metalness and its texture.
   */
  lemma {:induction false} FactoryDefaultsYieldNoLobes(baseColor: Spectrum, metalness: real, metalnessTex: real)
    ensures Lobes(Weights(baseColor, DefaultRoughness, metalness, DefaultBaseColor,
                          DefaultRoughnessTexture, metalnessTex)) == []
  {
    var w := Weights(baseColor, DefaultRoughness, metalness, DefaultBaseColor, DefaultRoughnessTexture, metalnessTex);
    assert baseColor.Times(Black) == Black;
    assert w.baseColor == Black;
    assert w.metalness == 1.0;
    assert w.specular == Black;
    assert w.diffuse.IsBlack();
  }
}
