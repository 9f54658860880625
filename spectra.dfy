/** pbrt's `Spectrum` in its RGB configuration: one real per channel. */
module Spectra {

  datatype Spectrum = RGB(r: real, g: real, b: real) {

    /** `Spectrum::IsBlack`: every channel is exactly zero. */
    predicate IsBlack() {
      r == 0.0 && g == 0.0 && b == 0.0
    }

    /** Every channel lies in [0,1] (a reflectance). */
    predicate InUnitCube() {
      0.0 <= r <= 1.0 && 0.0 <= g <= 1.0 && 0.0 <= b <= 1.0
    }

    /** Every channel is non-negative. */
    predicate NonNegative() {
      0.0 <= r && 0.0 <= g && 0.0 <= b
    }

    function Minus(o: Spectrum): Spectrum {
      RGB(r - o.r, g - o.g, b - o.b)
    }

    /** Channel-wise product of two spectra. */
    function Times(o: Spectrum): Spectrum {
      RGB(r * o.r, g * o.g, b * o.b)
    }

    /** Product with a scalar. */
    function Scale(s: real): Spectrum {
      RGB(s * r, s * g, s * b)
    }
  }

  /** `Spectrum(v)`: the same value in every channel. */
  function Gray(v: real): Spectrum {
    RGB(v, v, v)
  }

  /** The default-constructed spectrum. */
  const Black: Spectrum := Gray(0.0)

  /** `Spectrum(1)`. */
  const White: Spectrum := Gray(1.0)

  /** pbrt's scalar `Lerp(t, v1, v2) = (1 - t) * v1 + t * v2`. */
  function LerpReal(t: real, v1: real, v2: real): real {
    (1.0 - t) * v1 + t * v2
  }

  /** pbrt's `Lerp(t, s1, s2) = (1 - t) * s1 + t * s2`, channel by channel. */
  function Lerp(t: real, s1: Spectrum, s2: Spectrum): Spectrum {
    RGB(LerpReal(t, s1.r, s2.r), LerpReal(t, s1.g, s2.g), LerpReal(t, s1.b, s2.b))
  }
}
