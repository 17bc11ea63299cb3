/** Small facts about products and quotients of reals that the solver does
    not find on its own inside larger proofs. */
module RealArith {

  /** The sign of a product of two reals. */
  lemma ProductSign(x: real, y: real)
    ensures x > 0.0 && y > 0.0 ==> x * y > 0.0
    ensures x < 0.0 && y > 0.0 ==> x * y < 0.0
    ensures x > 0.0 && y < 0.0 ==> x * y < 0.0
    ensures x < 0.0 && y < 0.0 ==> x * y > 0.0
    ensures x == 0.0 || y == 0.0 ==> x * y == 0.0
  {
  }

  /** Multiplying both sides by a positive factor keeps the order. */
  lemma MulMonotone(a: real, b: real, c: real)
    requires c > 0.0
    ensures a <= b ==> a * c <= b * c
    ensures a < b ==> a * c < b * c
  {
    ProductSign(b - a, c);
  }

  /** Dividing and multiplying by the same non-zero number cancel. */
  lemma DivMulCancel(a: real, c: real)
    requires c != 0.0
    ensures (a / c) * c == a
    ensures (a * c) / c == a
  {
  }

  /** Comparing with a quotient by a positive number is comparing with the product. */
  lemma DivBounds(a: real, b: real, c: real)
    requires c > 0.0
    ensures b <= a / c <==> b * c <= a
    ensures a / c <= b <==> a <= b * c
  {
    DivMulCancel(a, c);
    MulMonotone(b, a / c, c);
    MulMonotone(a / c, b, c);
  }
}
