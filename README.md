# MAGE extensions to pbrt-v3, modelled in Dafny

This project models three small extensions to the pbrt-v3 renderer, and proves properties of each:

- **the MAGE omni light** (`MageOmni`): an isotropic point light. Its falloff is inverse-square, with the squared distance floored at `1e-4`. Frostbite's window `saturate(1 - d²/r²)²` then smooths it to zero at a configurable range;
- **the MAGE metallic-roughness material** (`MageMaterials`): it builds a BSDF of at most two lobes, a Lambertian diffuse lobe and a Blinn-Phong specular lobe. Their weights come from a base colour, a metalness and a roughness;
- **the false-colour integrator** (`FalseColor`): it returns the raw value of one BSDF sample at the first hit of each camera ray.

Numbers are `real` and spectra are RGB triples (`Spectra`). Vectors, rays and transforms live in `Geometry`. `ShadingMath` holds the `Saturate` and `Sqr` helpers. Both .cpp files define identical private copies of these (mage_omni.cpp:12-24 and mage.cpp:12-24), so they are defined once here.

Collaborators whose code is not part of this model appear as function-valued parameters or fields:
- textures, `Bump`, `UniformSampleSphere` and the light-to-world transform;
- `Scene::Intersect`, `ComputeScatteringFunctions` and `BSDF::Sample_f`;
- the sampler's stream of 2D samples;
- the `Bounds2i` corner constructor, `Intersect` and `Area`.

The model makes no assumption about any of them.

The material computes the value it calls `metalness` from the stored *roughness* and the roughness texture. It computes `roughness` from the stored *metalness* and the metalness texture (mage.cpp:66-67). The model keeps that exchange as written, and several contracts make it visible:
- `Weights`;
- `StoredRoughnessRemovesDiffuse`: a stored roughness of 1 removes the diffuse lobe;
- `StoredMetalnessSetsAlpha`: the stored metalness sets the specular lobe's `alpha`;
- `FactoryDefaultsYieldNoLobes`: with every factory default, the BSDF is empty.

## Model

| member | source | states |
|---|---|---|
| ShadingMath.Saturate | src/lights/mage_omni.cpp:12-15 | The result lies in [0,1]. It equals the input on [0,1], is 0 below and 1 above. |
| ShadingMath.SaturateSpectrum | src/lights/mage_omni.cpp:17-20 | Every channel is clamped into [0,1], so the result is in the unit cube. A spectrum already in the unit cube is unchanged. |
| ShadingMath.Sqr | src/lights/mage_omni.cpp:22-24 | The square is non-negative, and on [0,1] it is at most its argument. |
| ShadingMath.SquarePositive | src/lights/mage_omni.cpp:22-24 | The square of a non-zero number is positive. |
| ShadingMath.SaturateMonotone | src/lights/mage_omni.cpp:12-15 | Saturate never reverses an order. |
| ShadingMath.SqrMonotone | src/lights/mage_omni.cpp:22-24 | Squaring is monotone on non-negative numbers. |
| MageOmni.UniformSpherePdf | src/lights/mage_omni.cpp:111 | The uniform-sphere density is positive, and times the sphere's area 4π it gives 1. |
| MageOmni.DistanceAttenuationSmoothingFactor | src/lights/mage_omni.cpp:26-35 | The window lies in [0,1]. It is 1 at the light and exactly 0 once the squared distance reaches the squared range. |
| MageOmni.WindowClosesAtRange | src/lights/mage_omni.cpp:34 | From the range outwards, the clamped term inside the window is 0. |
| MageOmni.InverseSquare | src/lights/mage_omni.cpp:44 | `1/max(d², 1e-4)` is positive and at most 10000. It is exactly 10000 within the floor. |
| MageOmni.InverseSquareNonIncreasing | src/lights/mage_omni.cpp:44 | The floored inverse square never grows with the squared distance. |
| MageOmni.SmoothingFactorNonIncreasing | src/lights/mage_omni.cpp:34 | The window never grows with the squared distance. |
| MageOmni.DistanceAttenuation | src/lights/mage_omni.cpp:37-48 | The attenuation lies in [0, 10000]. It is exactly 0 from the range outwards and exactly 10000 at the light, so it is finite there. |
| MageOmni.AttenuationNonIncreasing | src/lights/mage_omni.cpp:37-48 | For non-negative distances, moving away from the light never increases the attenuation. |
| MageOmni.AttenuationHalfRange | src/lights/mage_omni.cpp:42-47 | At half the range the attenuation is strictly below its value at the light, which is 10000. |
| MageOmni.MageOmniLight.constructor | src/lights/mage_omni.cpp:51-60 | The light is a delta-position light. Its position is the light-to-world image of the origin. Range and intensity are stored as given. |
| MageOmni.MageOmniLight.Power | src/lights/mage_omni.cpp:68-70 | Power is `4π·I`, independent of the range. Spread with the uniform-sphere density, it gives back `I`. |
| MageOmni.MageOmniLight.SampleLi | src/lights/mage_omni.cpp:72-90 | The results are as follows: `pdf` is 1; `wi` is the direction to the light divided by the distance, a unit vector; the visibility test joins the receiver to the light at the receiver's time; the radiance is `DistanceAttenuation(distance, range)·I`, black beyond the range and non-negative for a non-negative intensity. `u` is not used. |
| MageOmni.UnitDirection | src/lights/mage_omni.cpp:80-84 | A vector divided by its length has unit squared length. |
| MageOmni.MageOmniLight.PdfLi | src/lights/mage_omni.cpp:92-95 | The density is 0 for every query. |
| MageOmni.MageOmniLight.SampleLe | src/lights/mage_omni.cpp:97-114 | The ray leaves the light's position in the sampled sphere direction and is unbounded. The normal is the ray direction, `pdfPos` is 1 and `pdfDir` is the uniform-sphere density. The radiance is `I` unattenuated, and `u2` is not used. |
| MageOmni.MageOmniLight.PdfLe | src/lights/mage_omni.cpp:116-124 | `pdfPos` is 0 and `pdfDir` is the (positive) uniform-sphere density. |
| MageOmni.CreateMageOmniLight | src/lights/mage_omni.cpp:126-137 | Intensity is `scale·I`, both defaulting to white. Range defaults to 1. The position is `from` (default: the origin) added after the light-to-world transform, so with any transform that fixes the origin it is `from` itself. |
| MageMaterials.Alpha | src/materials/mage.cpp:68 | `alpha` is at least 1e-3. It is at most 1 for a roughness in [0,1], and exactly 1e-3 at roughness 0. |
| MageMaterials.AlphaNonDecreasing | src/materials/mage.cpp:68 | A larger non-negative roughness never gives a smaller `alpha`. |
| MageMaterials.SpecularReflectance | src/materials/mage.cpp:70-71 | The result is grey 0.04 at metalness 0 and the base colour at metalness 1. It is in the unit cube for inputs in range, and never black below metalness 1 with a non-negative base colour. |
| MageMaterials.SpecularChannel | src/materials/mage.cpp:71 | One channel of the interpolation stays in [0,1], and is positive short of a full metal. |
| MageMaterials.DiffuseReflectance | src/materials/mage.cpp:72 | The result is black at metalness 1, and in the unit cube for inputs in range. |
| MageMaterials.DiffuseChannel | src/materials/mage.cpp:72 | One channel of the diffuse weight is 0 for a full metal and in [0,1] otherwise. |
| MageMaterials.DielectricDiffuse | src/materials/mage.cpp:70-72 | At metalness 0 the diffuse weight is grey `1 - 0.04`, whatever the base colour. |
| MageMaterials.DiffuseNonIncreasingInMetalness | src/materials/mage.cpp:71-72 | For a base colour in the unit cube, no channel of the diffuse weight grows with metalness. |
| MageMaterials.DiffuseChannels | src/materials/mage.cpp:71-72 | Each channel of the diffuse weight depends only on the same channel of the base colour. |
| MageMaterials.DiffuseChannelNonIncreasing | src/materials/mage.cpp:71-72 | For a base colour channel in [0,1], that channel of the diffuse weight never grows with metalness. |
| MageMaterials.Weights | src/materials/mage.cpp:65-72 | The base colour is the clamped product with its texture. `metalness` is the clamped stored roughness times its texture, and `roughness` is the clamped stored metalness times its texture. `alpha` lies in [1e-3, 1] and both weights are in the unit cube. At metalness 1 the diffuse weight is black; below it the specular weight is not. |
| MageMaterials.Lobes | src/materials/mage.cpp:74-79 | There are at most two lobes. The Lambertian lobe is present iff the diffuse weight is not black. The Blinn-Phong lobe (with `alpha`) is present iff the specular weight is not black. Nothing else is present, and diffuse comes before specular. |
| MageMaterials.SpecularLobePresent | src/materials/mage.cpp:66-79 | When stored roughness times its texture is below 1, the specular lobe is always added. |
| MageMaterials.StoredRoughnessRemovesDiffuse | src/materials/mage.cpp:66-76 | When stored roughness times its texture reaches 1, only Blinn-Phong lobes remain, whatever the stored metalness. |
| MageMaterials.StoredMetalnessSetsAlpha | src/materials/mage.cpp:67-79 | When stored roughness times its texture is below 1, the last lobe is Blinn-Phong with `alpha = max(1e-3, saturate(metalness·texture)²)`. |
| MageMaterials.BSDF.constructor | src/materials/mage.cpp:63 | A new BSDF has no lobes and takes the shading point's frame. |
| MageMaterials.BSDF.Add | src/materials/mage.cpp:75 | `Add` appends exactly one lobe. |
| MageMaterials.MageMaterial.constructor | src/materials/mage.cpp:27-40 | Every field is stored as given. |
| MageMaterials.MageMaterial.ComputeScatteringFunctions | src/materials/mage.cpp:54-80 | The surface is bump-mapped exactly when a bump texture is set, before the BSDF is made. The new BSDF has the bumped frame. Its lobes are exactly `Lobes` of the weights looked up at the bumped geometry. `mode` and `allowMultipleLobes` play no part. |
| MageMaterials.CreateMageMaterial | src/materials/mage.cpp:82-107 | Every absent parameter takes its default: black base colour, roughness 1, metalness 0, and constant textures black, 1 and 0. The bump texture stays unset when absent. |
| MageMaterials.DefaultBaseColorTextureBlackens | src/materials/mage.cpp:65-71 | With the default (black) base-colour texture, the base colour used is black and the specular weight is grey `0.04·(1 - metalness)`. |
| MageMaterials.FactoryDefaultsYieldNoLobes | src/materials/mage.cpp:83-96 | With the default base-colour texture, stored roughness and roughness texture, the BSDF gets no lobe, whatever the metalness. |
| FalseColor.Sampler.Get2D | src/integrators/falsecolor.cpp:40 | Each call returns the next sample of the stream and advances it by one. |
| FalseColor.FalseColorIntegrator.constructor | src/integrators/falsecolor.cpp:12-15 | Camera, sampler and pixel bounds are stored as given. |
| FalseColor.FalseColorIntegrator.Li | src/integrators/falsecolor.cpp:23-45 | On a miss, or when the hit has no BSDF, the result is black and no sample is drawn. Otherwise the result is exactly the value of `Sample_f(-ray.d, next sample, BSDF_ALL)`, and one sample is drawn. There is no pdf or cosine weighting, and `depth` is not used. |
| FalseColor.CreateFalseColorIntegrator | src/integrators/falsecolor.cpp:47-72 | There is at most one diagnostic. Without `pixelbounds`, the bounds are the camera's. With a count other than four, a count diagnostic is reported and the camera's bounds are kept. With `[x0,x1,y0,y1]`, the bounds are the camera's intersected with the box on `(x0,y0)`,`(x1,y1)`, and a zero area is reported but those bounds are still used. |

## Left out

- Floating point: all arithmetic is over exact reals. Rounding, NaN and infinity are not modelled, so the `1e-4f` floor is exactly 0.0001 and `0.04f` is exactly 0.04.
- MageOmni.DistanceAttenuation: requires a non-zero range, because `d²/r²` is undefined at range 0.
- MageOmni.MageOmniLight.SampleLi: requires a positive distance, because `1/distance` is undefined at 0. It also requires a non-zero range.
- MageOmni.MageOmniLight.SampleLi: the distance is an input that must square to the squared length of `p - ref.p`. Square roots are not modelled.
- MageOmni.UniformSpherePdf: it is exactly `1/(4π)`, with π as pbrt's decimal constant, rather than pbrt's decimal `Inv4Pi`.
- Transforms are modelled as maps on points. `Translate(from) * lightToWorld` is their composition, and the projective part of `Transform` is not modelled.
- The light does not keep its light-to-world transform (pbrt's `Light::LightToWorld`), because nothing in these files reads it after the position is computed.
- These are parameters with no stated properties: `UniformSampleSphere`, texture evaluation, `Bump`, `Scene::Intersect`, `ComputeScatteringFunctions` on a hit, `BSDF::Sample_f`, and `Bounds2i` construction, `Intersect` and `Area`. No corner order is assumed for the bounds.
- The internals of `LambertianReflection` and `BlinnPhongReflection` are not modelled; each lobe is recorded with its weights.
- The BSDF's fixed lobe capacity is not modelled; it lives in reflection.h, which is not part of this model.
- `MemoryArena`/`ARENA_ALLOC`, `MediumInterface`, `ProfilePhase` and `RayDifferential` differentials are not modelled. They carry no logic of these files.
- Copy and move constructors, destructors and assignment operators are not modelled. They are defaulted.
- `Error` logging is modelled as a returned list of diagnostics, not as output.
- Sampler state is modelled only as the index into its stream of 2D samples. Multi-threaded rendering is not modelled.
