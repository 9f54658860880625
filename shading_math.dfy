/**
 * The two helpers that mage_omni.cpp and mage.cpp each define, identically,
 * in an anonymous namespace: `Saturate` (a clamp into [0,1], for a scalar and
 * channel-wise for a spectrum) and `Sqr`.
 */
module ShadingMath {
  import opened Spectra

  /** `Clamp(x, 0, 1)`: pbrt's Clamp tests `x < low`, then `x > high`. */
  function Saturate(x: real): (r: real)
    ensures 0.0 <= r <= 1.0
    ensures 0.0 <= x <= 1.0 ==> r == x
    ensures x < 0.0 ==> r == 0.0
    ensures 1.0 < x ==> r == 1.0
  {
    if x < 0.0 then 0.0 else if x > 1.0 then 1.0 else x
  }

  /** `Spectrum::Clamp(0, 1)`: Saturate applied to every channel. */
  function SaturateSpectrum(s: Spectrum): (c: Spectrum)
    ensures c.InUnitCube()
    ensures s.InUnitCube() ==> c == s
    ensures c == RGB(Saturate(s.r), Saturate(s.g), Saturate(s.b))
  {
    RGB(Saturate(s.r), Saturate(s.g), Saturate(s.b))
  }

  function Sqr(x: real): (r: real)
    ensures 0.0 <= r
    ensures 0.0 <= x <= 1.0 ==> r <= x
  {
    UnitSquare(x);
    x * x
  }

  /** The square of a non-zero number is positive. */
  lemma SquarePositive(x: real)
    requires x != 0.0
    ensures 0.0 < Sqr(x)
  {
    var a := if 0.0 < x then x else -x;
    calc {
      Sqr(x);
    ==
      a * a;
    > { StrictMulMonotone(a, 0.0, a); }
      a * 0.0;
    ==
      0.0;
    }
  }

  /** Multiplying by a positive factor keeps a strict order. */
  lemma StrictMulMonotone(c: real, a: real, b: real)
    requires 0.0 < c && a < b
    ensures c * a < c * b
  {
    assert c * b - c * a == c * (b - a);
  }

  /** Scaling a number in [0, m] by a factor in [0, 1] stays in [0, m]. */
  lemma ScaledBound(a: real, s: real, m: real)
    requires 0.0 <= a <= m && 0.0 <= s <= 1.0
    ensures 0.0 <= a * s <= m
  {
    MulMonotone(a, 0.0, s);
    MulMonotone(a, s, 1.0);
    assert a * 1.0 == a;
  }

  /** On [0,1], squaring does not increase a number. */
  lemma UnitSquare(x: real)
    ensures 0.0 <= x <= 1.0 ==> x * x <= x
  {
    if 0.0 <= x <= 1.0 {
      MulMonotone(x, x, 1.0);
      assert x * 1.0 == x;
    }
  }

  /** Multiplying by a non-negative factor keeps an order. */
  lemma MulMonotone(c: real, a: real, b: real)
    requires 0.0 <= c && a <= b
    ensures c * a <= c * b
  {
    assert c * b - c * a == c * (b - a);
  }

  /** `std::max`. */
  function Max(a: real, b: real): real {
    if a < b then b else a
  }

  /** Saturate never reverses an order. */
  lemma SaturateMonotone(x: real, y: real)
    requires x <= y
    ensures Saturate(x) <= Saturate(y)
  {
  }

  /** Squaring is monotone on non-negative numbers. */
  lemma SqrMonotone(x: real, y: real)
    requires 0.0 <= x <= y
    ensures Sqr(x) <= Sqr(y)
  {
    calc {
      Sqr(x);
    ==
      x * x;
    <= { MulMonotone(x, x, y); }
      x * y;
    == 
      y * x;
    <= { MulMonotone(y, x, y); }
      y * y;
    ==
      Sqr(y);
    }
  }
}
