/** Finite sums over an index range, the only arithmetic the layers need, and
    the algebra of them that the gradient proofs use. */
module Sums {

  /** Sum of f(k) for 0 <= k < n, accumulated in index order. */
  function Sum(n: nat, f: int -> real): real
    decreases n
  {
    if n == 0 then 0.0 else Sum(n - 1, f) + f(n - 1)
  }

  lemma {:induction false} SumExt(n: nat, f: int -> real, g: int -> real)
    requires forall k :: 0 <= k < n ==> f(k) == g(k)
    ensures Sum(n, f) == Sum(n, g)
  {
    if n > 0 {
      SumExt(n - 1, f, g);
    }
  }

  lemma {:induction false} SumZero(n: nat, f: int -> real)
    requires forall k :: 0 <= k < n ==> f(k) == 0.0
    ensures Sum(n, f) == 0.0
  {
    if n > 0 {
      SumZero(n - 1, f);
    }
  }

  lemma {:induction false} SumAdd(n: nat, f: int -> real, g: int -> real)
    ensures Sum(n, k => f(k) + g(k)) == Sum(n, f) + Sum(n, g)
  {
    if n > 0 {
      SumAdd(n - 1, f, g);
    }
  }

  /** A sum with a single possibly non-zero term is that term. */
  lemma {:induction false} SumSingle(n: nat, j: int, f: int -> real)
    requires 0 <= j < n
    requires forall k :: 0 <= k < n && k != j ==> f(k) == 0.0
    ensures Sum(n, f) == f(j)
  {
    if n - 1 == j {
      SumZero(n - 1, f);
    } else {
      SumSingle(n - 1, j, f);
    }
  }

  /** Terms at and beyond m contribute nothing. */
  lemma {:induction false} SumPrefix(n: nat, m: nat, f: int -> real)
    requires m <= n
    requires forall k :: m <= k < n ==> f(k) == 0.0
    ensures Sum(n, f) == Sum(m, f)
  {
    if n > m {
      SumPrefix(n - 1, m, f);
    }
  }

  /** Summing consecutive pairs: the first 2*m terms taken two at a time. */
  lemma {:induction false} SumPairs(m: nat, f: int -> real)
    ensures Sum(2 * m, f) == Sum(m, j => f(2 * j) + f(2 * j + 1))
  {
    if m > 0 {
      SumPairs(m - 1, f);
      assert 2 * m - 1 == 2 * (m - 1) + 1;
    }
  }

  /** Exchanging the order of a double sum. */
  lemma {:induction false} SumSwap(n: nat, m: nat, f: (int, int) -> real)
    ensures Sum(n, a => Sum(m, b => f(a, b))) == Sum(m, b => Sum(n, a => f(a, b)))
  {
    if n > 0 {
      SumSwap(n - 1, m, f);
      var inner := b => Sum(n - 1, a => f(a, b));
      var last := b => f(n - 1, b);
      SumAdd(m, inner, last);
      SumExt(m, k => inner(k) + last(k), b => Sum(n, a => f(a, b)));
    } else {
      SumZero(m, b => Sum(n, a => f(a, b)));
    }
  }

  /** Pointwise forms of the rules above, for summands given as different
      closures. */
  lemma {:induction false} SumTwo(n: nat, f: int -> real, g: int -> real, e: int -> real)
    requires forall k :: 0 <= k < n ==> e(k) == f(k) + g(k)
    ensures Sum(n, f) + Sum(n, g) == Sum(n, e)
  {
    if n > 0 {
      SumTwo(n - 1, f, g, e);
    }
  }

  lemma {:induction false} SumFour(n: nat, f1: int -> real, f2: int -> real, f3: int -> real, f4: int -> real, e: int -> real)
    requires forall k :: 0 <= k < n ==> e(k) == f1(k) + f2(k) + f3(k) + f4(k)
    ensures Sum(n, f1) + Sum(n, f2) + Sum(n, f3) + Sum(n, f4) == Sum(n, e)
  {
    if n > 0 {
      SumFour(n - 1, f1, f2, f3, f4, e);
    }
  }

  lemma {:induction false} SumScaled(n: nat, a: real, f: int -> real, e: int -> real)
    requires forall k :: 0 <= k < n ==> e(k) == a * f(k)
    ensures Sum(n, e) == a * Sum(n, f)
  {
    if n > 0 {
      SumScaled(n - 1, a, f, e);
    }
  }

  /** n terms each at least c sum to at least n * c. */
  lemma {:induction false} SumAtLeast(n: nat, f: int -> real, c: real)
    requires forall k :: 0 <= k < n ==> f(k) >= c
    ensures Sum(n, f) >= (n as real) * c
  {
    if n > 0 {
      SumAtLeast(n - 1, f, c);
    }
  }

  /** A non-empty sum of positive terms is positive. */
  lemma {:induction false} SumPositive(n: nat, f: int -> real)
    requires n > 0
    requires forall k :: 0 <= k < n ==> f(k) > 0.0
    ensures Sum(n, f) > 0.0
  {
    if n > 1 {
      SumPositive(n - 1, f);
    }
  }

  /** Exchanging the order of a double sum, with the inner sums of either
      order given as closures. */
  lemma SumSwapped(n: nat, m: nat, f: (int, int) -> real, rows: int -> real, cols: int -> real)
    requires forall a :: 0 <= a < n ==> rows(a) == Sum(m, b => f(a, b))
    requires forall b :: 0 <= b < m ==> cols(b) == Sum(n, a => f(a, b))
    ensures Sum(n, rows) == Sum(m, cols)
  {
    SumSwap(n, m, f);
    SumExt(n, rows, a => Sum(m, b => f(a, b)));
    SumExt(m, cols, b => Sum(n, a => f(a, b)));
  }

  /** The first 2*m terms of f, grouped in consecutive pairs. */
  lemma SumPaired(m: nat, f: int -> real, e: int -> real)
    requires forall j :: 0 <= j < m ==> e(j) == f(2 * j) + f(2 * j + 1)
    ensures Sum(2 * m, f) == Sum(m, e)
  {
    SumPairs(m, f);
    SumExt(m, j => f(2 * j) + f(2 * j + 1), e);
  }

  /** Triple sum of f(a, b, c) over [0, n0) x [0, n1) x [0, n2), row-major. */
  function Sum3(n0: nat, n1: nat, n2: nat, f: (int, int, int) -> real): real {
    Sum(n0, a => Sum3Plane(n1, n2, f, a))
  }

  function Sum3Plane(n1: nat, n2: nat, f: (int, int, int) -> real, a: int): real {
    Sum(n1, b => Sum3Line(n2, f, a, b))
  }

  function Sum3Line(n2: nat, f: (int, int, int) -> real, a: int, b: int): real {
    Sum(n2, c => f(a, b, c))
  }

  lemma Sum3Ext(n0: nat, n1: nat, n2: nat, f: (int, int, int) -> real, g: (int, int, int) -> real)
    requires forall a, b, c :: 0 <= a < n0 && 0 <= b < n1 && 0 <= c < n2 ==> f(a, b, c) == g(a, b, c)
    ensures Sum3(n0, n1, n2, f) == Sum3(n0, n1, n2, g)
  {
    forall a, b | 0 <= a < n0 && 0 <= b < n1
      ensures Sum3Line(n2, f, a, b) == Sum3Line(n2, g, a, b)
    {
      SumExt(n2, c => f(a, b, c), c => g(a, b, c));
    }
    forall a | 0 <= a < n0
      ensures Sum3Plane(n1, n2, f, a) == Sum3Plane(n1, n2, g, a)
    {
      SumExt(n1, b => Sum3Line(n2, f, a, b), b => Sum3Line(n2, g, a, b));
    }
    SumExt(n0, a => Sum3Plane(n1, n2, f, a), a => Sum3Plane(n1, n2, g, a));
  }

  lemma Sum3Zero(n0: nat, n1: nat, n2: nat, f: (int, int, int) -> real)
    requires forall a, b, c :: 0 <= a < n0 && 0 <= b < n1 && 0 <= c < n2 ==> f(a, b, c) == 0.0
    ensures Sum3(n0, n1, n2, f) == 0.0
  {
    forall a, b | 0 <= a < n0 && 0 <= b < n1
      ensures Sum3Line(n2, f, a, b) == 0.0
    {
      SumZero(n2, c => f(a, b, c));
    }
    forall a | 0 <= a < n0
      ensures Sum3Plane(n1, n2, f, a) == 0.0
    {
      SumZero(n1, b => Sum3Line(n2, f, a, b));
    }
    SumZero(n0, a => Sum3Plane(n1, n2, f, a));
  }

  /** A triple sum with a single possibly non-zero term is that term. */
  lemma Sum3Single(n0: nat, n1: nat, n2: nat, a0: int, b0: int, c0: int, f: (int, int, int) -> real)
    requires 0 <= a0 < n0 && 0 <= b0 < n1 && 0 <= c0 < n2
    requires forall a, b, c :: 0 <= a < n0 && 0 <= b < n1 && 0 <= c < n2 && (a, b, c) != (a0, b0, c0) ==> f(a, b, c) == 0.0
    ensures Sum3(n0, n1, n2, f) == f(a0, b0, c0)
  {
    forall a, b | 0 <= a < n0 && 0 <= b < n1 && (a, b) != (a0, b0)
      ensures Sum3Line(n2, f, a, b) == 0.0
    {
      SumZero(n2, c => f(a, b, c));
    }
    SumSingle(n2, c0, c => f(a0, b0, c));
    forall a | 0 <= a < n0 && a != a0
      ensures Sum3Plane(n1, n2, f, a) == 0.0
    {
      SumZero(n1, b => Sum3Line(n2, f, a, b));
    }
    SumSingle(n1, b0, b => Sum3Line(n2, f, a0, b));
    SumSingle(n0, a0, a => Sum3Plane(n1, n2, f, a));
  }
}
