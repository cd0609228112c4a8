/** The 2x2, stride-2 max-pooling layer. It has no parameters; backward routes
    each upstream value to the first maximum of its window. */
module MaxPoolLayer {
  import opened Sums
  import opened Tensors
  import opened Extrema

  /** What forward leaves behind for backward: the input it pooled. */
  datatype PoolCache = PoolCache(input: Tensor4, inShape: Shape)

  /** Floor division: an odd trailing row or column is dropped. */
  function OutShape(s: Shape): Shape {
    Shape(s.n, s.h / 2, s.w / 2, s.c)
  }

  /** Row and column offset of slot t of a 2x2 window in row-major order. */
  function Dy(t: int): int {
    if t >= 2 then 1 else 0
  }

  function Dx(t: int): int {
    if t == 1 || t == 3 then 1 else 0
  }

  /** The 2x2 window under output position (i, j, k, l), flattened in
      row-major order: offsets (0,0), (0,1), (1,0), (1,1). */
  function Window(x: Tensor4, i: int, j: int, k: int, l: int): (v: seq<real>)
    ensures |v| == 4
  {
    [At(x, i, 2 * j, 2 * k, l), At(x, i, 2 * j, 2 * k + 1, l),
     At(x, i, 2 * j + 1, 2 * k, l), At(x, i, 2 * j + 1, 2 * k + 1, l)]
  }

  /** Forward pass (main.py:203-230): each output is the maximum of its
      window, so it bounds every entry of the window and is one of them. */
  function Forward(x: Tensor4, s: Shape): (r: (PoolCache, Tensor4))
    requires HasShape(x, s)
    ensures r.0 == PoolCache(x, s)
    ensures HasShape(r.1, OutShape(s))
    ensures forall i, j, k, l, t :: InShape(OutShape(s), i, j, k, l) && 0 <= t < 4 ==>
      Window(x, i, j, k, l)[t] <= r.1[i][j][k][l]
    ensures forall i, j, k, l :: InShape(OutShape(s), i, j, k, l) ==>
      exists t :: 0 <= t < 4 && Window(x, i, j, k, l)[t] == r.1[i][j][k][l]
  {
    var out := Build(OutShape(s), (i, j, k, l) => Max(Window(x, i, j, k, l)));
    forall i, j, k, l | InShape(OutShape(s), i, j, k, l)
      ensures exists t :: 0 <= t < 4 && Window(x, i, j, k, l)[t] == out[i][j][k][l]
    {
      var v := Window(x, i, j, k, l);
      var t :| 0 <= t < 4 && v[t] == Max(v);
    }
    (PoolCache(x, s), out)
  }

  /** Slot t of a window is the entry at offset (Dy(t), Dx(t)). */
  lemma WindowSlot(x: Tensor4, i: int, j: int, k: int, l: int, t: int)
    requires 0 <= t < 4
    ensures Window(x, i, j, k, l)[t] == At(x, i, 2 * j + Dy(t), 2 * k + Dx(t), l)
  {
  }

  /** Every window of an output position lies inside the input. */
  lemma WindowInside(s: Shape, i: int, j: int, k: int, l: int, t: int)
    requires InShape(OutShape(s), i, j, k, l) && 0 <= t < 4
    ensures InShape(s, i, 2 * j + Dy(t), 2 * k + Dx(t), l)
  {
  }

  /** The gradient input position (y, x) receives: the upstream value of the
      window it lies in, if it is that window's first maximum; nothing
      otherwise, and nothing outside every window. */
  function Routed(cache: PoolCache, g: Tensor4, i: int, y: int, x: int, l: int): real {
    var o := OutShape(cache.inShape);
    if 0 <= y < 2 * o.h && 0 <= x < 2 * o.w
       && FirstMaxIndex(Window(cache.input, i, y / 2, x / 2, l)) == 2 * (y % 2) + x % 2
    then At(g, i, y / 2, x / 2, l) else 0.0
  }

  /** Backward pass (main.py:233-252). The windows are disjoint, so the
      accumulation into each input position receives at most one term; the
      learning rate the original accepts is unused and not modelled. */
  function Backward(cache: PoolCache, g: Tensor4): (r: Tensor4)
    requires HasShape(cache.input, cache.inShape)
    requires HasShape(g, OutShape(cache.inShape))
    ensures HasShape(r, cache.inShape)
  {
    RoutedTensor(cache, g)
  }

  /** Inside each window, the input gradient is the upstream value at the
      window's first maximum in row-major order and zero elsewhere. */
  lemma BackwardRoutesToFirstMax(cache: PoolCache, g: Tensor4)
    requires HasShape(cache.input, cache.inShape)
    requires HasShape(g, OutShape(cache.inShape))
    ensures forall i, j, k, l, t :: InShape(OutShape(cache.inShape), i, j, k, l) && 0 <= t < 4 ==>
      Window(Backward(cache, g), i, j, k, l)[t] ==
        (if t == FirstMaxIndex(Window(cache.input, i, j, k, l)) then At(g, i, j, k, l) else 0.0)
  {
    var r := Backward(cache, g);
    forall i, j, k, l, t | InShape(OutShape(cache.inShape), i, j, k, l) && 0 <= t < 4
      ensures Window(r, i, j, k, l)[t] ==
        (if t == FirstMaxIndex(Window(cache.input, i, j, k, l)) then At(g, i, j, k, l) else 0.0)
    {
      Slot(cache, g, i, j, k, l, t);
      WindowSlot(r, i, j, k, l, t);
    }
  }

  /** An odd trailing row or column lies in no window and gets no gradient. */
  lemma BackwardOutsideZero(cache: PoolCache, g: Tensor4)
    requires HasShape(cache.input, cache.inShape)
    requires HasShape(g, OutShape(cache.inShape))
    ensures forall i, y, x, l :: InShape(cache.inShape, i, y, x, l) && (y >= 2 * (cache.inShape.h / 2) || x >= 2 * (cache.inShape.w / 2)) ==>
      Backward(cache, g)[i][y][x][l] == 0.0
  {
    forall i, y, x, l | InShape(cache.inShape, i, y, x, l) && (y >= 2 * (cache.inShape.h / 2) || x >= 2 * (cache.inShape.w / 2))
      ensures Backward(cache, g)[i][y][x][l] == 0.0
    {
      OutsideWindows(cache, g, i, y, x, l);
    }
  }

  lemma OutsideWindows(cache: PoolCache, g: Tensor4, i: int, y: int, x: int, l: int)
    requires InShape(cache.inShape, i, y, x, l) && (y >= 2 * (cache.inShape.h / 2) || x >= 2 * (cache.inShape.w / 2))
    ensures At(RoutedTensor(cache, g), i, y, x, l) == 0.0
  {
    RoutedTensorEntry(cache, g, i, y, x, l);
  }

  function RoutedTensor(cache: PoolCache, g: Tensor4): (r: Tensor4)
    ensures HasShape(r, cache.inShape)
  {
    Build(cache.inShape, (i, y, x, l) => Routed(cache, g, i, y, x, l))
  }

  lemma RoutedTensorEntry(cache: PoolCache, g: Tensor4, i: int, y: int, x: int, l: int)
    requires InShape(cache.inShape, i, y, x, l)
    ensures At(RoutedTensor(cache, g), i, y, x, l) == Routed(cache, g, i, y, x, l)
  {
    BuildEntry(cache.inShape, (i, y, x, l) => Routed(cache, g, i, y, x, l), i, y, x, l);
  }

  lemma RoutedInWindow(cache: PoolCache, g: Tensor4, i: int, j: int, k: int, l: int, t: int)
    requires InShape(OutShape(cache.inShape), i, j, k, l) && 0 <= t < 4
    ensures Routed(cache, g, i, 2 * j + Dy(t), 2 * k + Dx(t), l) ==
      (if t == FirstMaxIndex(Window(cache.input, i, j, k, l)) then At(g, i, j, k, l) else 0.0)
  {
    assert (2 * j + Dy(t)) / 2 == j && (2 * j + Dy(t)) % 2 == Dy(t);
    assert (2 * k + Dx(t)) / 2 == k && (2 * k + Dx(t)) % 2 == Dx(t);
  }

  /** The upstream value a window receives lands on the entry the forward
      pass reported as the window's maximum. */
  lemma RoutedToMaximum(x: Tensor4, s: Shape, i: int, j: int, k: int, l: int)
    requires HasShape(x, s) && InShape(OutShape(s), i, j, k, l)
    ensures Window(x, i, j, k, l)[FirstMaxIndex(Window(x, i, j, k, l))] == Forward(x, s).1[i][j][k][l]
  {
    var v := Window(x, i, j, k, l);
    var m := Forward(x, s).1[i][j][k][l];
    var t :| 0 <= t < 4 && v[t] == m;
    assert v[FirstMaxIndex(v)] >= v[t];
  }

  /** Backward conserves the gradient: the entries of the input gradient sum
      to the entries of the upstream gradient. */
  lemma BackwardConservesSum(cache: PoolCache, g: Tensor4)
    requires HasShape(cache.input, cache.inShape)
    requires HasShape(g, OutShape(cache.inShape))
    ensures Total(Backward(cache, g), cache.inShape) == Total(g, OutShape(cache.inShape))
  {
    var s := cache.inShape;
    var o := OutShape(s);
    var r := Backward(cache, g);
    var f := (i, y, x, l) => At(r, i, y, x, l);
    var e := (i, j, k, l) => At(g, i, j, k, l);
    forall i, j, k, l | InShape(o, i, j, k, l)
      ensures f(i, 2 * j, 2 * k, l) + f(i, 2 * j, 2 * k + 1, l) + f(i, 2 * j + 1, 2 * k, l) + f(i, 2 * j + 1, 2 * k + 1, l) == e(i, j, k, l)
    {
      WindowOfBackward(cache, g, i, j, k, l);
    }
    BlockSum(s, f, e);
  }

  lemma WindowOfBackward(cache: PoolCache, g: Tensor4, i: int, j: int, k: int, l: int)
    requires InShape(OutShape(cache.inShape), i, j, k, l)
    ensures var r := RoutedTensor(cache, g);
      At(r, i, 2 * j, 2 * k, l) + At(r, i, 2 * j, 2 * k + 1, l) + At(r, i, 2 * j + 1, 2 * k, l) + At(r, i, 2 * j + 1, 2 * k + 1, l)
        == At(g, i, j, k, l)
  {
    Slot(cache, g, i, j, k, l, 0);
    Slot(cache, g, i, j, k, l, 1);
    Slot(cache, g, i, j, k, l, 2);
    Slot(cache, g, i, j, k, l, 3);
  }

  lemma Slot(cache: PoolCache, g: Tensor4, i: int, j: int, k: int, l: int, t: int)
    requires InShape(OutShape(cache.inShape), i, j, k, l) && 0 <= t < 4
    ensures At(RoutedTensor(cache, g), i, 2 * j + Dy(t), 2 * k + Dx(t), l) ==
      (if t == FirstMaxIndex(Window(cache.input, i, j, k, l)) then At(g, i, j, k, l) else 0.0)
  {
    WindowInside(cache.inShape, i, j, k, l, t);
    RoutedInWindow(cache, g, i, j, k, l, t);
    RoutedTensorEntry(cache, g, i, 2 * j + Dy(t), 2 * k + Dx(t), l);
  }

  /** Summing over 2x2 blocks: if f vanishes outside the blocks and each
      block of f sums to the matching entry of e, f and e have equal sums. */
  lemma BlockSum(s: Shape, f: (int, int, int, int) -> real, e: (int, int, int, int) -> real)
    requires forall i, y, x, l :: InShape(s, i, y, x, l) && (y >= 2 * (s.h / 2) || x >= 2 * (s.w / 2)) ==> f(i, y, x, l) == 0.0
    requires forall i, j, k, l :: InShape(OutShape(s), i, j, k, l) ==>
      f(i, 2 * j, 2 * k, l) + f(i, 2 * j, 2 * k + 1, l) + f(i, 2 * j + 1, 2 * k, l) + f(i, 2 * j + 1, 2 * k + 1, l) == e(i, j, k, l)
    ensures Sum4(s, f) == Sum4(OutShape(s), e)
  {
    var o := OutShape(s);
    forall i | 0 <= i < s.n
      ensures SumImage(s, f, i) == SumImage(o, e, i)
    {
      forall y | 2 * o.h <= y < s.h
        ensures SumRow(s, f, i, y) == 0.0
      {
        forall x | 0 <= x < s.w
          ensures SumPixel(s, f, i, y, x) == 0.0
        {
          SumZero(s.c, l => f(i, y, x, l));
        }
        SumZero(s.w, x => SumPixel(s, f, i, y, x));
      }
      SumPrefix(s.h, 2 * o.h, y => SumRow(s, f, i, y));
      forall j | 0 <= j < o.h
        ensures SumRow(s, f, i, 2 * j) + SumRow(s, f, i, 2 * j + 1) == SumRow(o, e, i, j)
      {
        BlockRows(s, f, e, i, j);
      }
      SumPaired(o.h, y => SumRow(s, f, i, y), j => SumRow(o, e, i, j));
    }
    SumExt(s.n, i => SumImage(s, f, i), i => SumImage(o, e, i));
  }

  lemma BlockRows(s: Shape, f: (int, int, int, int) -> real, e: (int, int, int, int) -> real, i: int, j: int)
    requires 0 <= i < s.n && 0 <= j < s.h / 2
    requires forall i, y, x, l :: InShape(s, i, y, x, l) && (y >= 2 * (s.h / 2) || x >= 2 * (s.w / 2)) ==> f(i, y, x, l) == 0.0
    requires forall i, j, k, l :: InShape(OutShape(s), i, j, k, l) ==>
      f(i, 2 * j, 2 * k, l) + f(i, 2 * j, 2 * k + 1, l) + f(i, 2 * j + 1, 2 * k, l) + f(i, 2 * j + 1, 2 * k + 1, l) == e(i, j, k, l)
    ensures SumRow(s, f, i, 2 * j) + SumRow(s, f, i, 2 * j + 1) == SumRow(OutShape(s), e, i, j)
  {
    var o := OutShape(s);
    forall y | y == 2 * j || y == 2 * j + 1
      ensures SumRow(s, f, i, y) == Sum(o.w, k => SumPixel(s, f, i, y, 2 * k) + SumPixel(s, f, i, y, 2 * k + 1))
    {
      forall x | 2 * o.w <= x < s.w
        ensures SumPixel(s, f, i, y, x) == 0.0
      {
        SumZero(s.c, l => f(i, y, x, l));
      }
      SumPrefix(s.w, 2 * o.w, x => SumPixel(s, f, i, y, x));
      SumPaired(o.w, x => SumPixel(s, f, i, y, x), k => SumPixel(s, f, i, y, 2 * k) + SumPixel(s, f, i, y, 2 * k + 1));
    }
    forall k | 0 <= k < o.w
      ensures SumPixel(s, f, i, 2 * j, 2 * k) + SumPixel(s, f, i, 2 * j, 2 * k + 1)
            + SumPixel(s, f, i, 2 * j + 1, 2 * k) + SumPixel(s, f, i, 2 * j + 1, 2 * k + 1) == SumPixel(o, e, i, j, k)
    {
      SumFour(s.c, l => f(i, 2 * j, 2 * k, l), l => f(i, 2 * j, 2 * k + 1, l),
                   l => f(i, 2 * j + 1, 2 * k, l), l => f(i, 2 * j + 1, 2 * k + 1, l), l => e(i, j, k, l));
    }
    SumTwo(o.w, k => SumPixel(s, f, i, 2 * j, 2 * k) + SumPixel(s, f, i, 2 * j, 2 * k + 1),
                k => SumPixel(s, f, i, 2 * j + 1, 2 * k) + SumPixel(s, f, i, 2 * j + 1, 2 * k + 1),
                k => SumPixel(o, e, i, j, k));
  }

  /** A zero upstream gradient sends back zeros. */
  lemma BackwardZero(cache: PoolCache, g: Tensor4)
    requires HasShape(cache.input, cache.inShape)
    requires HasShape(g, OutShape(cache.inShape)) && AllZero(g, OutShape(cache.inShape))
    ensures Backward(cache, g) == Zeros(cache.inShape)
  {
    var r := Backward(cache, g);
    forall i, y, x, l | InShape(cache.inShape, i, y, x, l)
      ensures At(r, i, y, x, l) == 0.0
    {
      RoutedTensorEntry(cache, g, i, y, x, l);
      if 0 <= y < 2 * (cache.inShape.h / 2) && 0 <= x < 2 * (cache.inShape.w / 2) {
        assert InShape(OutShape(cache.inShape), i, y / 2, x / 2, l);
      }
    }
    AllZeroIsZeros(r, cache.inShape);
  }
}
