/** Squares, products and quotients of reals: the sign and order facts
    the Allan variance divisor and the noise model rest on. */
module Arith {
  /** x itself; Square multiplies c by Copy(c) so that the verifier treats
      the square as a product of two factors. */
  function Copy(x: real): real
  {
    x
  }

  /** The square of c. */
  function Square(c: real): real
  {
    c * Copy(c)
  }

  lemma ProductPositive(a: real, b: real)
    requires (a > 0.0 && b > 0.0) || (a < 0.0 && b < 0.0)
    ensures a * b > 0.0
  {
  }

  lemma SquarePositive(c: real)
    requires c != 0.0
    ensures Square(c) > 0.0
  {
    ProductPositive(c, Copy(c));
  }

  lemma SquareNonNegative(c: real)
    ensures Square(c) >= 0.0
  {
    if c != 0.0 {
      SquarePositive(c);
    }
  }

  lemma SquareOfNegation(c: real)
    ensures Square(-c) == Square(c)
  {
  }

  lemma ProductNonNegative(a: real, b: real)
    requires a >= 0.0 && b >= 0.0
    ensures a * b >= 0.0
  {
  }

  lemma QuotientNonNegative(a: real, b: real)
    requires a >= 0.0 && b > 0.0
    ensures a / b >= 0.0
  {
  }

  lemma DivideSum(x: real, y: real, f: real)
    requires f != 0.0
    ensures (x + y) / f == x / f + y / f
  {
  }

  lemma QuotientOfProduct(n: real, d: real)
    requires n != 0.0
    ensures (n * d) / n == d
  {
  }

  lemma DivideKeepsOrder(a: real, b: real, c: real)
    requires a < b && c > 0.0
    ensures a / c < b / c
  {
    assert b / c - a / c == (b - a) / c;
  }
}
