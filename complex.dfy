/** Complex numbers as pairs of reals: the arithmetic the interference engine
    performs on Python `complex` / numpy `complex128` values, without rounding. */
module Complex {
  import opened RealArith

  datatype Complex = Complex(re: real, im: real)

  /** The accumulator's start value `0j`. */
  const Zero: Complex := Complex(0.0, 0.0)

  function Add(z: Complex, w: Complex): Complex
  {
    Complex(z.re + w.re, z.im + w.im)
  }

  function Mul(z: Complex, w: Complex): Complex
  {
    Complex(z.re * w.re - z.im * w.im, z.re * w.im + z.im * w.re)
  }

  /** Product of a complex number with a real (a Python complex times a float). */
  function Scale(k: real, z: Complex): Complex
  {
    Complex(k * z.re, k * z.im)
  }

  /** `m` is `abs(z)`: the non-negative square root of re² + im². The square
      root itself is not computed; callers pass it in and this relation
      is what the model knows about it. */
  predicate IsModulus(z: Complex, m: real)
  {
    0.0 <= m && m * m == z.re * z.re + z.im * z.im
  }

  lemma ScaleAdd(k: real, z: Complex, w: Complex)
    ensures Scale(k, Add(z, w)) == Add(Scale(k, z), Scale(k, w))
  {
  }

  lemma ScaleScale(a: real, b: real, z: Complex)
    ensures Scale(a, Scale(b, z)) == Scale(a * b, z)
  {
  }

  lemma MulScale(k: real, z: Complex, w: Complex)
    ensures Mul(z, Scale(k, w)) == Scale(k, Mul(z, w))
  {
  }

  /** The modulus vanishes exactly at 0j. */
  lemma ModulusZero(z: Complex, m: real)
    requires IsModulus(z, m)
    ensures m == 0.0 <==> z == Zero
  {
    if m == 0.0 {
      assert z.re * z.re + z.im * z.im == 0.0;
      SumOfSquaresZero(z.re, z.im);
    } else if z == Zero {
      assert m * m == 0.0;
      SquareZero(m);
    }
  }

  /** The modulus is compared with a bound c ≥ 0 through re² + im² and c². */
  lemma ModulusAtMost(z: Complex, m: real, c: real)
    requires IsModulus(z, m) && 0.0 <= c
    ensures m <= c <==> z.re * z.re + z.im * z.im <= c * c
  {
    SquareOrder(m, c);
  }
}
