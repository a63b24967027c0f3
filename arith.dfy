/** Facts about products and quotients of reals that the proofs use over
    and over, stated once on plain variables. */
module RealArith {

  function Square(x: real): real { x * x }

  lemma MulNonNegative(x: real, y: real)
    requires 0.0 <= x && 0.0 <= y
    ensures 0.0 <= x * y
  {
  }

  lemma MulPositive(x: real, y: real)
    requires 0.0 < x && 0.0 < y
    ensures 0.0 < x * y
  {
  }

  lemma MulMonotone(x: real, y: real, c: real)
    requires x <= y && 0.0 <= c
    ensures x * c <= y * c
  {
    MulNonNegative(y - x, c);
    assert (y - x) * c == y * c - x * c;
  }

  lemma CancelPositive(x: real, y: real, d: real)
    requires 0.0 < d && x * d <= y * d
    ensures x <= y
  {
    if y < x {
      MulMonotone(y, x, d);
      MulPositive(x - y, d);
    }
  }

  lemma DivPositive(n: real, d: real)
    requires 0.0 < n && 0.0 < d
    ensures 0.0 < n / d && (n / d) * d == n
  {
    var q := n / d;
    if q <= 0.0 {
      MulNonNegative(-q, d);
    }
  }

  lemma SquareMonotone(x: real, y: real)
    requires 0.0 <= x <= y
    ensures x * x <= y * y
  {
    MulMonotone(x, y, x);
    MulMonotone(x, y, y);
  }

  lemma MulStrictBoth(a: real, b: real, c: real, d: real)
    requires 0.0 <= a < b && 0.0 <= c < d
    ensures a * c < b * d
  {
    MulMonotone(a, b, c);
    MulPositive(b, d - c);
    assert b * (d - c) == b * d - b * c;
  }

  /** Squaring preserves and reflects the order of non-negative reals. */
  lemma SquareOrder(x: real, y: real)
    requires 0.0 <= x && 0.0 <= y
    ensures x <= y <==> x * x <= y * y
  {
    if x <= y {
      SquareMonotone(x, y);
    } else {
      MulStrictBoth(y, x, y, x);
    }
  }

  /* The next lemmas take a square x·x as a product x·x2 of two parameters
     known to be equal, which keeps the solver's arithmetic on products of
     distinct variables. */

  lemma SelfProductSign(x: real, x2: real)
    requires x2 == x
    ensures 0.0 <= x * x2
    ensures x != 0.0 ==> 0.0 < x * x2
  {
    if x < 0.0 {
      MulPositive(-x, -x2);
    } else if 0.0 < x {
      MulPositive(x, x2);
    }
  }

  lemma SumOfSelfProductsZero(x: real, x2: real, y: real, y2: real)
    requires x2 == x && y2 == y && x * x2 + y * y2 == 0.0
    ensures x == 0.0 && y == 0.0
  {
    SelfProductSign(x, x2);
    SelfProductSign(y, y2);
  }

  /** A sum of two squares vanishes only when both terms do. */
  lemma SumOfSquaresZero(x: real, y: real)
    requires x * x + y * y == 0.0
    ensures x == 0.0 && y == 0.0
  {
    SumOfSelfProductsZero(x, x, y, y);
  }

  lemma SelfProductZero(m: real, m2: real)
    requires 0.0 <= m && m2 == m && m * m2 == 0.0
    ensures m == 0.0
  {
    if m != 0.0 {
      SelfProductSign(m, m2);
    }
  }

  /** The only non-negative real whose square is 0 is 0. */
  lemma SquareZero(m: real)
    requires 0.0 <= m && m * m == 0.0
    ensures m == 0.0
  {
    SelfProductZero(m, m);
  }

  lemma MulNonZero(x: real, y: real)
    requires x != 0.0 && y != 0.0
    ensures x * y != 0.0
  {
  }
}
