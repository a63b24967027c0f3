/** The two-layer earth (`ParametrosSolo`, `Solo`) and the algebraic part of
    its reduction to one equivalent uniform resistivity. */
module Soil {
  import opened RealArith

  /** Layer resistivities in Ω·m, layer-1 thickness in m, relative permittivity. */
  datatype SoilParams = SoilParams(rho1: real, rho2: real, h1: real, relPermittivity: real)

  /** The transcendental inputs of the reduction are what the model knows of them:
      `a1` and `a2` are the positive square roots of 1/ρ1 and 1/ρ2, and `k` is the
      skin term exp(-2·h1·√(π·f·μ0/ρ1)), which lies in (0, 1] for h1 ≥ 0 and f ≥ 0.
      Both resistivities must be positive for the square roots to be real;
      a_i² = 1/ρ_i is written a_i²·ρ_i = 1. */
  predicate ValidShell(s: SoilParams, a1: real, a2: real, k: real)
  {
    && 0.0 < s.rho1 && 0.0 < s.rho2
    && 0.0 < a1 && (a1 * a1) * s.rho1 == 1.0
    && 0.0 < a2 && (a2 * a2) * s.rho2 == 1.0
    && 0.0 < k <= 1.0
  }

  function Numerator(a1: real, a2: real, k: real): real
  {
    (a1 + a2) + (a1 - a2) * k
  }

  function Denominator(a1: real, a2: real, k: real): real
  {
    (a1 + a2) - (a1 - a2) * k
  }

  /** Both halves of the quotient are positive whenever the roots are and the
      skin term is in (0, 1]: the reduction never divides by zero. */
  lemma ShellPositive(a1: real, a2: real, k: real)
    requires 0.0 < a1 && 0.0 < a2 && 0.0 < k <= 1.0
    ensures 0.0 < Numerator(a1, a2, k) && 0.0 < Denominator(a1, a2, k)
  {
    MulPositive(a1, 1.0 + k);
    MulNonNegative(a2, 1.0 - k);
    MulNonNegative(a1, 1.0 - k);
    MulPositive(a2, 1.0 + k);
    assert Numerator(a1, a2, k) == a1 * (1.0 + k) + a2 * (1.0 - k);
    assert Denominator(a1, a2, k) == a1 * (1.0 - k) + a2 * (1.0 + k);
  }


  /** ρ·q², the first-layer resistivity scaled by the squared ratio. */
  function Scaled(rho: real, q: real): real { rho * Square(q) }

  /** The quotient num/den of the image series. */
  function Ratio(a1: real, a2: real, k: real): real
    requires 0.0 < a1 && 0.0 < a2 && 0.0 < k <= 1.0
  {
    ShellPositive(a1, a2, k);
    Numerator(a1, a2, k) / Denominator(a1, a2, k)
  }

  /** The ratio is positive and is the quotient of the numerator by the denominator. */
  lemma RatioQuotient(a1: real, a2: real, k: real)
    requires 0.0 < a1 && 0.0 < a2 && 0.0 < k <= 1.0
    ensures 0.0 < Denominator(a1, a2, k)
    ensures 0.0 < Ratio(a1, a2, k) && Ratio(a1, a2, k) * Denominator(a1, a2, k) == Numerator(a1, a2, k)
  {
    ShellPositive(a1, a2, k);
    DivPositive(Numerator(a1, a2, k), Denominator(a1, a2, k));
  }

  /** Equivalent uniform resistivity ρ1·(num/den)² (Tsiamitros' formula). */
  function EquivalentResistivity(s: SoilParams, a1: real, a2: real, k: real): real
    requires ValidShell(s, a1, a2, k)
  {
    Scaled(s.rho1, Ratio(a1, a2, k))
  }

  /** a1·den − a2·num = (a1 + a2)·(a1 − a2)·(1 − k). */
  lemma CrossDifference(a1: real, a2: real, k: real)
    ensures a1 * Denominator(a1, a2, k) - Numerator(a1, a2, k) * a2
            == (a1 + a2) * ((a1 - a2) * (1.0 - k))
  {
    var s, p := a1 + a2, (a1 - a2) * k;
    assert a1 * (s - p) == a1 * s - a1 * p;
    assert a2 * (s + p) == a2 * s + a2 * p;
    assert a1 * s - a2 * s == s * (a1 - a2);
    assert a1 * p + a2 * p == s * p;
    assert s * (a1 - a2) - s * p == s * ((a1 - a2) - p);
    assert (a1 - a2) - p == (a1 - a2) * (1.0 - k);
  }

  /** q·d = n with d > 0 orders q against 1 as n is ordered against d. */
  lemma QuotientVersusOne(q: real, n: real, d: real)
    requires 0.0 < d && q * d == n
    ensures d <= n ==> 1.0 <= q
    ensures n <= d ==> q <= 1.0
  {
    if d <= n { CancelPositive(1.0, q, d); }
    if n <= d { CancelPositive(q, 1.0, d); }
  }

  /** q·d = n with d > 0 orders q·a2 against a1 as n·a2 is ordered against a1·d. */
  lemma QuotientVersusRatio(q: real, n: real, d: real, a1: real, a2: real)
    requires 0.0 < d && q * d == n
    ensures n * a2 <= a1 * d ==> q * a2 <= a1
    ensures a1 * d <= n * a2 ==> a1 <= q * a2
  {
    assert (q * a2) * d == n * a2;
    if n * a2 <= a1 * d {
      assert (q * a2) * d <= a1 * d;
      CancelPositive(q * a2, a1, d);
    }
    if a1 * d <= n * a2 {
      assert a1 * d <= (q * a2) * d;
      CancelPositive(a1, q * a2, d);
    }
  }

  /** For a1 ≥ a2 (so ρ1 ≤ ρ2) the quotient q = num/den lies in [1, a1/a2]. */
  lemma QuotientUpper(a1: real, a2: real, k: real, q: real)
    requires 0.0 < a2 <= a1 && 0.0 < k <= 1.0
    requires 0.0 < Denominator(a1, a2, k)
    requires q * Denominator(a1, a2, k) == Numerator(a1, a2, k)
    ensures 1.0 <= q && q * a2 <= a1
  {
    var n, d := Numerator(a1, a2, k), Denominator(a1, a2, k);
    MulNonNegative(a1 - a2, k);
    assert d <= n;
    QuotientVersusOne(q, n, d);
    CrossDifference(a1, a2, k);
    MulNonNegative(a1 - a2, 1.0 - k);
    MulNonNegative(a1 + a2, (a1 - a2) * (1.0 - k));
    assert n * a2 <= a1 * d;
    QuotientVersusRatio(q, n, d, a1, a2);
  }

  /** For a1 ≤ a2 (so ρ1 ≥ ρ2) the quotient q = num/den lies in [a1/a2, 1]. */
  lemma QuotientLower(a1: real, a2: real, k: real, q: real)
    requires 0.0 < a1 <= a2 && 0.0 < k <= 1.0
    requires 0.0 < Denominator(a1, a2, k)
    requires q * Denominator(a1, a2, k) == Numerator(a1, a2, k)
    ensures q <= 1.0 && a1 <= q * a2
  {
    var n, d := Numerator(a1, a2, k), Denominator(a1, a2, k);
    MulNonNegative(a2 - a1, k);
    assert n <= d;
    QuotientVersusOne(q, n, d);
    CrossDifference(a1, a2, k);
    MulNonNegative(a2 - a1, 1.0 - k);
    MulNonNegative(a1 + a2, (a2 - a1) * (1.0 - k));
    assert (a1 + a2) * ((a1 - a2) * (1.0 - k)) == -((a1 + a2) * ((a2 - a1) * (1.0 - k)));
    assert a1 * d <= n * a2;
    QuotientVersusRatio(q, n, d, a1, a2);
  }

  /** With a_i² = 1/ρ_i, a quotient 1 ≤ q ≤ a1/a2 puts ρ1·q² in [ρ1, ρ2]. */
  lemma ScaledRange(r1: real, r2: real, a1: real, a2: real, q: real)
    requires 0.0 < r1 && 0.0 < r2 && 0.0 < a2
    requires (a1 * a1) * r1 == 1.0 && (a2 * a2) * r2 == 1.0
    requires 1.0 <= q && q * a2 <= a1
    ensures r1 <= r1 * Square(q) <= r2
  {
    SquareMonotone(1.0, q);
    MulNonNegative(r1, q * q - 1.0);
    assert r1 * (q * q - 1.0) == r1 * (q * q) - r1;
    MulPositive(q, a2);
    SquareMonotone(q * a2, a1);
    var t := (q * a2) * (q * a2);
    MulPositive(r1, r2);
    MulMonotone(t, a1 * a1, r1 * r2);
    calc {
      r1 * (q * q);
      == (q * q) * ((a2 * a2) * r2) * r1;
      == t * (r1 * r2);
      <= (a1 * a1) * (r1 * r2);
      == r2;
    }
  }

  /** With a_i² = 1/ρ_i, a quotient a1/a2 ≤ q ≤ 1 puts ρ1·q² in [ρ2, ρ1]. */
  lemma ScaledRangeReversed(r1: real, r2: real, a1: real, a2: real, q: real)
    requires 0.0 < r1 && 0.0 < r2 && 0.0 < a1 && 0.0 < a2
    requires (a1 * a1) * r1 == 1.0 && (a2 * a2) * r2 == 1.0
    requires q <= 1.0 && a1 <= q * a2
    ensures r2 <= r1 * Square(q) <= r1
  {
    CancelPositive(0.0, q, a2);
    SquareMonotone(q, 1.0);
    MulNonNegative(r1, 1.0 - q * q);
    assert r1 * (1.0 - q * q) == r1 - r1 * (q * q);
    SquareMonotone(a1, q * a2);
    var t := (q * a2) * (q * a2);
    MulPositive(r1, r2);
    MulMonotone(a1 * a1, t, r1 * r2);
    calc {
      r2;
      == (a1 * a1) * (r1 * r2);
      <= t * (r1 * r2);
      == (q * q) * ((a2 * a2) * r2) * r1;
      == r1 * (q * q);
    }
  }

  lemma ScaledIntoRange(s: SoilParams, a1: real, a2: real, k: real, q: real)
    requires ValidShell(s, a1, a2, k)
    requires 1.0 <= q && q * a2 <= a1
    ensures s.rho1 <= Scaled(s.rho1, q) <= s.rho2
  {
    ScaledRange(s.rho1, s.rho2, a1, a2, q);
  }

  lemma ScaledIntoRangeReversed(s: SoilParams, a1: real, a2: real, k: real, q: real)
    requires ValidShell(s, a1, a2, k)
    requires q <= 1.0 && a1 <= q * a2
    ensures s.rho2 <= Scaled(s.rho1, q) <= s.rho1
  {
    ScaledRangeReversed(s.rho1, s.rho2, a1, a2, q);
  }

  /** Either ordering of the layers confines ρ1·q² between ρ1 and ρ2 when q is
      the quotient of the image-series numerator by its denominator. */
  lemma ScaledQuotientInRange(s: SoilParams, a1: real, a2: real, k: real, q: real)
    requires ValidShell(s, a1, a2, k)
    requires 0.0 < Denominator(a1, a2, k) && q * Denominator(a1, a2, k) == Numerator(a1, a2, k)
    ensures || s.rho1 <= Scaled(s.rho1, q) <= s.rho2
            || s.rho2 <= Scaled(s.rho1, q) <= s.rho1
  {
    if a2 <= a1 {
      QuotientUpper(a1, a2, k, q);
      ScaledIntoRange(s, a1, a2, k, q);
    } else {
      QuotientLower(a1, a2, k, q);
      ScaledIntoRangeReversed(s, a1, a2, k, q);
    }
  }

  /** The reduced resistivity never leaves the range spanned by the two layers:
      a more resistive lower layer raises it above ρ1 but not past ρ2, and a
      less resistive one lowers it below ρ1 but not past ρ2. */
  lemma EquivalentResistivityBounds(s: SoilParams, a1: real, a2: real, k: real)
    requires ValidShell(s, a1, a2, k)
    ensures s.rho1 <= s.rho2 ==> s.rho1 <= EquivalentResistivity(s, a1, a2, k) <= s.rho2
    ensures s.rho2 <= s.rho1 ==> s.rho2 <= EquivalentResistivity(s, a1, a2, k) <= s.rho1
  {
    RatioQuotient(a1, a2, k);
    ScaledQuotientInRange(s, a1, a2, k, Ratio(a1, a2, k));
  }

  /** The reduced resistivity is a positive resistivity. */
  lemma EquivalentResistivityPositive(s: SoilParams, a1: real, a2: real, k: real)
    requires ValidShell(s, a1, a2, k)
    ensures 0.0 < EquivalentResistivity(s, a1, a2, k)
  {
    EquivalentResistivityBounds(s, a1, a2, k);
  }

  /** Two equal layers reduce to the homogeneous soil itself, whatever the
      layer thickness and the frequency (that is, whatever the skin term k). */
  lemma HomogeneousSoil(s: SoilParams, a1: real, a2: real, k: real)
    requires ValidShell(s, a1, a2, k)
    requires s.rho1 == s.rho2
    ensures EquivalentResistivity(s, a1, a2, k) == s.rho1
  {
    EquivalentResistivityBounds(s, a1, a2, k);
  }
}
