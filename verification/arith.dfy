/** Monotonicity of multiplication by a natural number, stated once for the
    index arithmetic of the reshaping and batching code, and cancellation of
    a real factor. */
module Arith {

  lemma MulMono(a: int, b: int, c: nat)
    requires a <= b
    ensures a * c <= b * c
  {
  }

  lemma MulLess(a: int, b: int, c: nat)
    requires a * c < b * c
    ensures a < b
  {
    if a >= b {
      MulMono(b, a, c);
    }
  }

  /** Euclidean division of a natural number by a positive one. */
  lemma DivMod(n: nat, d: int)
    requires d > 0
    ensures n / d >= 0 && 0 <= n % d < d && n == (n / d) * d + n % d
  {
  }

  /** A quotient stays below the bound its dividend was below. */
  lemma QuotientBelow(n: nat, d: int, bound: int)
    requires d > 0 && n < bound * d
    ensures n / d < bound
  {
    DivMod(n, d);
    MulLess(n / d, bound, d);
  }

  /** Two reals with the same product by a non-zero factor are equal. */
  lemma Cancel(a: real, b: real, d: real)
    requires d != 0.0 && a * d == b * d
    ensures a == b
  {
    assert (a - b) * d == 0.0;
  }
}
