/** Dense real tensors as nested sequences, indexed (batch, height, width,
    channel), and (batch, feature) matrices. A shape is carried explicitly,
    because a sequence with an empty dimension does not determine the
    dimensions after it. */
module Tensors {
  import opened Sums

  type Tensor<T> = seq<seq<seq<seq<T>>>>
  type Tensor4 = Tensor<real>
  type Matrix = seq<seq<real>>

  datatype Shape = Shape(n: nat, h: nat, w: nat, c: nat)

  /** t is a rectangular n x h x w x c array. */
  predicate HasShape<T>(t: Tensor<T>, s: Shape) {
    && |t| == s.n
    && (forall i :: 0 <= i < |t| ==> |t[i]| == s.h)
    && (forall i, y :: 0 <= i < |t| && 0 <= y < |t[i]| ==> |t[i][y]| == s.w)
    && (forall i, y, x :: 0 <= i < |t| && 0 <= y < |t[i]| && 0 <= x < |t[i][y]| ==> |t[i][y][x]| == s.c)
  }

  predicate IsMatrix(m: Matrix, rows: nat, cols: nat) {
    |m| == rows && forall i :: 0 <= i < |m| ==> |m[i]| == cols
  }

  predicate InShape(s: Shape, i: int, y: int, x: int, l: int) {
    0 <= i < s.n && 0 <= y < s.h && 0 <= x < s.w && 0 <= l < s.c
  }

  /** Total element access: positions outside the array read as zero, which
      keeps the summands of the layer formulas total. */
  function At(t: Tensor4, i: int, y: int, x: int, l: int): real {
    if 0 <= i < |t| && 0 <= y < |t[i]| && 0 <= x < |t[i][y]| && 0 <= l < |t[i][y][x]|
    then t[i][y][x][l] else 0.0
  }

  function MAt(m: Matrix, i: int, j: int): real {
    if 0 <= i < |m| && 0 <= j < |m[i]| then m[i][j] else 0.0
  }

  function VAt(v: seq<real>, j: int): real {
    if 0 <= j < |v| then v[j] else 0.0
  }

  function Relu(v: real): real {
    if v > 0.0 then v else 0.0
  }

  function Build<T>(s: Shape, f: (int, int, int, int) -> T): (t: Tensor<T>)
    ensures HasShape(t, s)
  {
    seq(s.n, i => BuildImage(s, f, i))
  }

  function BuildImage<T>(s: Shape, f: (int, int, int, int) -> T, i: int): (t: seq<seq<seq<T>>>)
    ensures |t| == s.h && forall y :: 0 <= y < s.h ==> |t[y]| == s.w && forall x :: 0 <= x < s.w ==> |t[y][x]| == s.c
  {
    seq(s.h, y => BuildRow(s, f, i, y))
  }

  function BuildRow<T>(s: Shape, f: (int, int, int, int) -> T, i: int, y: int): (t: seq<seq<T>>)
    ensures |t| == s.w && forall x :: 0 <= x < s.w ==> |t[x]| == s.c
  {
    seq(s.w, x => seq(s.c, l => f(i, y, x, l)))
  }

  lemma BuildEntry(s: Shape, f: (int, int, int, int) -> real, i: int, y: int, x: int, l: int)
    requires InShape(s, i, y, x, l)
    ensures At(Build(s, f), i, y, x, l) == f(i, y, x, l)
  {
  }

  function BuildMatrix(rows: nat, cols: nat, f: (int, int) -> real): (m: Matrix)
    ensures IsMatrix(m, rows, cols)
  {
    seq(rows, i => seq(cols, j => f(i, j)))
  }

  function Zeros(s: Shape): Tensor4 {
    Build(s, (i, y, x, l) => 0.0)
  }

  function ZeroMatrix(rows: nat, cols: nat): Matrix {
    BuildMatrix(rows, cols, (i, j) => 0.0)
  }

  /** The rows x cols product of a (rows x inner) and b (inner x cols). */
  function MatMul(a: Matrix, b: Matrix, rows: nat, inner: nat, cols: nat): (m: Matrix)
    ensures IsMatrix(m, rows, cols)
  {
    BuildMatrix(rows, cols, (i, j) => Sum(inner, k => MAt(a, i, k) * MAt(b, k, j)))
  }

  /** Every entry of t is zero. */
  ghost predicate AllZero(t: Tensor4, s: Shape) {
    forall i, y, x, l :: InShape(s, i, y, x, l) ==> At(t, i, y, x, l) == 0.0
  }

  ghost predicate AllZeroMatrix(m: Matrix, rows: nat, cols: nat) {
    forall i, j :: 0 <= i < rows && 0 <= j < cols ==> MAt(m, i, j) == 0.0
  }

  /** Two arrays of the same shape that agree everywhere are equal. */
  lemma TensorExt(a: Tensor4, b: Tensor4, s: Shape)
    requires HasShape(a, s) && HasShape(b, s)
    requires forall i, y, x, l :: InShape(s, i, y, x, l) ==> At(a, i, y, x, l) == At(b, i, y, x, l)
    ensures a == b
  {
    forall i | 0 <= i < s.n
      ensures a[i] == b[i]
    {
      forall y | 0 <= y < s.h
        ensures a[i][y] == b[i][y]
      {
        forall x | 0 <= x < s.w
          ensures a[i][y][x] == b[i][y][x]
        {
          forall l | 0 <= l < s.c
            ensures a[i][y][x][l] == b[i][y][x][l]
          {
            assert At(a, i, y, x, l) == At(b, i, y, x, l);
          }
        }
      }
    }
  }

  lemma MatrixExt(a: Matrix, b: Matrix, rows: nat, cols: nat)
    requires IsMatrix(a, rows, cols) && IsMatrix(b, rows, cols)
    requires forall i, j :: 0 <= i < rows && 0 <= j < cols ==> MAt(a, i, j) == MAt(b, i, j)
    ensures a == b
  {
    forall i | 0 <= i < rows
      ensures a[i] == b[i]
    {
      forall j | 0 <= j < cols
        ensures a[i][j] == b[i][j]
      {
        assert MAt(a, i, j) == MAt(b, i, j);
      }
    }
  }

  lemma ZerosAllZero(s: Shape)
    ensures HasShape(Zeros(s), s) && AllZero(Zeros(s), s)
  {
  }

  /** An all-zero array is the zero array. */
  lemma AllZeroIsZeros(t: Tensor4, s: Shape)
    requires HasShape(t, s) && AllZero(t, s)
    ensures t == Zeros(s)
  {
    TensorExt(t, Zeros(s), s);
  }

  lemma AllZeroIsZeroMatrix(m: Matrix, rows: nat, cols: nat)
    requires IsMatrix(m, rows, cols) && AllZeroMatrix(m, rows, cols)
    ensures m == ZeroMatrix(rows, cols)
  {
    MatrixExt(m, ZeroMatrix(rows, cols), rows, cols);
  }

  /** Sum of f over every position of shape s, in row-major order. */
  function Sum4(s: Shape, f: (int, int, int, int) -> real): real {
    Sum(s.n, i => SumImage(s, f, i))
  }

  function SumImage(s: Shape, f: (int, int, int, int) -> real, i: int): real {
    Sum(s.h, y => SumRow(s, f, i, y))
  }

  function SumRow(s: Shape, f: (int, int, int, int) -> real, i: int, y: int): real {
    Sum(s.w, x => SumPixel(s, f, i, y, x))
  }

  function SumPixel(s: Shape, f: (int, int, int, int) -> real, i: int, y: int, x: int): real {
    Sum(s.c, l => f(i, y, x, l))
  }

  /** Sum of all entries of t. */
  function Total(t: Tensor4, s: Shape): real {
    Sum4(s, (i, y, x, l) => At(t, i, y, x, l))
  }

  function InnerMatrix(a: Matrix, b: Matrix, rows: nat, cols: nat): real {
    Sum(rows, i => RowInner(a, b, cols, i))
  }

  /** Sum of the entrywise products of row i of a and row i of b. */
  function RowInner(a: Matrix, b: Matrix, cols: nat, i: int): real {
    Sum(cols, j => MAt(a, i, j) * MAt(b, i, j))
  }

  /** Building from two generators that agree on the shape gives one array. */
  lemma BuildExt(s: Shape, f: (int, int, int, int) -> real, g: (int, int, int, int) -> real)
    requires forall i, y, x, l :: InShape(s, i, y, x, l) ==> f(i, y, x, l) == g(i, y, x, l)
    ensures Build(s, f) == Build(s, g)
  {
    TensorExt(Build(s, f), Build(s, g), s);
  }

  /** Rebuilding an array from its own entries gives the array back. */
  lemma BuildAt(t: Tensor4, s: Shape)
    requires HasShape(t, s)
    ensures Build(s, (i, y, x, l) => At(t, i, y, x, l)) == t
  {
    TensorExt(Build(s, (i, y, x, l) => At(t, i, y, x, l)), t, s);
  }
}
