/** The fully connected layer: an affine map of each row followed by ReLU or
    a row-wise softmax, and its hand-written backward pass with a plain SGD
    step on the batch-averaged gradients. */
module DenseLayer {
  import opened Sums
  import opened Tensors
  import opened Outcomes
  import opened Extrema

  /** fin x fout weights, one bias per output and the activation tag, which
      the original dispatches on by string comparison. */
  datatype Dense = Dense(fin: nat, fout: nat, weights: Matrix, biases: seq<real>, activation: string) {

    predicate Valid() {
      IsMatrix(weights, fin, fout) && |biases| == fout
    }

    /** Same configuration, possibly different parameter values. */
    predicate SameConfig(other: Dense) {
      fin == other.fin && fout == other.fout && activation == other.activation
    }
  }

  /** What forward leaves behind: the input and the pre-activation z. */
  datatype DenseCache = DenseCache(input: Matrix, z: Matrix)

  datatype DenseStep = DenseStep(cache: DenseCache, output: Matrix)

  /** Pre-activation of output oc for row i: the row times column oc of the
      weights, plus the bias. */
  function Affine(layer: Dense, x: Matrix, i: int, oc: int): real {
    Sum(layer.fin, ic => MAt(x, i, ic) * MAt(layer.weights, ic, oc)) + VAt(layer.biases, oc)
  }

  predicate Supported(tag: string) {
    tag == "relu" || tag == "softmax"
  }

  /** Softmax reduces each row with a maximum, which numpy refuses when the
      matrix has no rows or its rows are empty. */
  predicate ReductionEmpty(tag: string, rows: nat, cols: nat) {
    tag == "softmax" && (rows == 0 || cols == 0)
  }

  /** Softmax of a non-empty row, shifted by the row maximum before
      exponentiating as the original does; exp is a parameter of the model
      and only its positivity is assumed. */
  function Softmax(v: seq<real>, exp: real -> real): (p: seq<real>)
    requires |v| > 0
    requires forall t :: exp(t) > 0.0
    ensures |p| == |v|
    ensures forall j :: 0 <= j < |p| ==> p[j] > 0.0
    ensures Sum(|p|, j => VAt(p, j)) == 1.0
  {
    var m := Max(v);
    var e := j => exp(VAt(v, j) - m);
    var total := Sum(|v|, e);
    SumPositive(|v|, e);
    var p := seq(|v|, j => e(j) / total);
    NormalisedSum(p, e, total);
    p
  }

  /** Dividing positive terms by their sum gives terms summing to one. */
  lemma NormalisedSum(p: seq<real>, e: int -> real, total: real)
    requires total == Sum(|p|, e) && total > 0.0
    requires forall j :: 0 <= j < |p| ==> p[j] == e(j) / total
    ensures Sum(|p|, j => VAt(p, j)) == 1.0
  {
    SumScaled(|p|, 1.0 / total, e, j => VAt(p, j));
    assert (1.0 / total) * total == 1.0;
  }

  /** The activation function (main.py:183-193). */
  function Activate(tag: string, z: Matrix, cols: nat, exp: real -> real): (r: Result<Matrix>)
    requires IsMatrix(z, |z|, cols)
    requires forall t :: exp(t) > 0.0
    ensures r.Failure? <==> !Supported(tag) || ReductionEmpty(tag, |z|, cols)
    ensures r.Failure? ==> r.error == (if Supported(tag) then EmptyReduction else UnsupportedActivation(tag))
    ensures r.Success? ==> IsMatrix(r.value, |z|, cols)
    ensures r.Success? && tag == "relu" ==> forall i, j :: 0 <= i < |z| && 0 <= j < cols ==>
      && r.value[i][j] >= 0.0
      && (z[i][j] > 0.0 ==> r.value[i][j] == z[i][j])
      && (z[i][j] <= 0.0 ==> r.value[i][j] == 0.0)
    ensures r.Success? && tag == "softmax" ==> forall i :: 0 <= i < |z| ==>
      && (forall j :: 0 <= j < cols ==> r.value[i][j] > 0.0)
      && Sum(cols, j => VAt(r.value[i], j)) == 1.0
  {
    if tag == "relu" then
      Success(BuildMatrix(|z|, cols, (i, j) => Relu(MAt(z, i, j))))
    else if tag == "softmax" then
      if |z| == 0 || cols == 0 then Failure(EmptyReduction)
      else Success(seq(|z|, i requires 0 <= i < |z| => Softmax(z[i], exp)))
    else
      Failure(UnsupportedActivation(tag))
  }

  /** Forward pass (main.py:145-156): numpy's dot refuses a row whose width
      is not fin before the activation is looked at. */
  function Forward(layer: Dense, x: Matrix, cols: nat, exp: real -> real): (r: Result<DenseStep>)
    requires layer.Valid() && IsMatrix(x, |x|, cols)
    requires forall t :: exp(t) > 0.0
    ensures r.Failure? <==>
      (|x| > 0 && cols != layer.fin) || !Supported(layer.activation) || ReductionEmpty(layer.activation, |x|, layer.fout)
    ensures r.Failure? && |x| > 0 && cols != layer.fin ==> r.error == FeatureMismatch
    ensures r.Success? ==> r.value.cache.input == x && IsMatrix(r.value.cache.z, |x|, layer.fout)
    ensures r.Success? ==> forall i, oc :: 0 <= i < |x| && 0 <= oc < layer.fout ==>
      r.value.cache.z[i][oc] == Affine(layer, x, i, oc)
    ensures r.Success? ==> Activate(layer.activation, r.value.cache.z, layer.fout, exp) == Success(r.value.output)
  {
    if |x| > 0 && cols != layer.fin then Failure(FeatureMismatch)
    else
      var z := BuildMatrix(|x|, layer.fout, (i, oc) => Affine(layer, x, i, oc));
      var out :- Activate(layer.activation, z, layer.fout, exp);
      Success(DenseStep(DenseCache(x, z), out))
  }

  /** Gradient for the previous layer: the upstream row times the transposed
      weights, not divided by the batch size. */
  function InputGrad(layer: Dense, g: Matrix, i: int, ic: int): real {
    Sum(layer.fout, oc => MAt(layer.weights, ic, oc) * MAt(g, i, oc))
  }

  /** total / n; backward is only defined for a non-empty batch, so the
      zero case is never used. */
  function Mean(total: real, n: nat): real {
    if n == 0 then 0.0 else total / (n as real)
  }

  /** Batch average of the outer products of input rows and gradient rows. */
  function WeightGrad(x: Matrix, g: Matrix, ic: int, oc: int): real {
    Mean(Sum(|x|, i => MAt(g, i, oc) * MAt(x, i, ic)), |x|)
  }

  /** Batch average of the gradient rows. */
  function BiasGrad(x: Matrix, g: Matrix, oc: int): real {
    Mean(Sum(|x|, i => MAt(g, i, oc)), |x|)
  }

  /** Backward pass (main.py:158-179): the gradient for the previous layer,
      computed with the weights as they were before this call, and the layer
      after one step of size lr. The stored pre-activation is not read: no
      activation derivative is applied. */
  function Backward(layer: Dense, cache: DenseCache, g: Matrix, lr: real): (r: (Dense, Matrix))
    requires layer.Valid() && |cache.input| > 0
    requires IsMatrix(cache.input, |cache.input|, layer.fin) && IsMatrix(g, |cache.input|, layer.fout)
    ensures r.0.Valid() && r.0.SameConfig(layer)
    ensures IsMatrix(r.1, |cache.input|, layer.fin)
    ensures forall i, ic :: 0 <= i < |cache.input| && 0 <= ic < layer.fin ==>
      r.1[i][ic] == InputGrad(layer, g, i, ic)
    ensures forall ic, oc :: 0 <= ic < layer.fin && 0 <= oc < layer.fout ==>
      r.0.weights[ic][oc] == layer.weights[ic][oc] - lr * WeightGrad(cache.input, g, ic, oc)
    ensures forall oc :: 0 <= oc < layer.fout ==>
      r.0.biases[oc] == layer.biases[oc] - lr * BiasGrad(cache.input, g, oc)
  {
    var x := cache.input;
    var weights := BuildMatrix(layer.fin, layer.fout, (ic, oc) => MAt(layer.weights, ic, oc) - lr * WeightGrad(x, g, ic, oc));
    var biases := seq(layer.fout, oc => VAt(layer.biases, oc) - lr * BiasGrad(x, g, oc));
    (layer.(weights := weights, biases := biases), BuildMatrix(|x|, layer.fin, (i, ic) => InputGrad(layer, g, i, ic)))
  }

  /** Softmax depends only on the differences between the entries of a row:
      adding a constant to every entry leaves it unchanged, for any exp. */
  lemma SoftmaxShiftInvariant(v: seq<real>, w: seq<real>, c: real, exp: real -> real)
    requires |v| == |w| > 0
    requires forall j :: 0 <= j < |v| ==> w[j] == v[j] + c
    requires forall t :: exp(t) > 0.0
    ensures Softmax(w, exp) == Softmax(v, exp)
  {
    MaxShift(v, w, c);
    var mv := Max(v);
    var mw := Max(w);
    var ev := j => exp(VAt(v, j) - mv);
    var ew := j => exp(VAt(w, j) - mw);
    forall j | 0 <= j < |v|
      ensures ew(j) == ev(j)
    {
      assert VAt(w, j) - mw == VAt(v, j) - mv;
    }
    SumExt(|v|, ew, ev);
  }

  /** With an increasing exp, softmax keeps the order of a row's entries. */
  lemma SoftmaxMonotone(v: seq<real>, exp: real -> real, j: int, k: int)
    requires |v| > 0
    requires forall t :: exp(t) > 0.0
    requires forall a, b :: a < b ==> exp(a) < exp(b)
    requires 0 <= j < |v| && 0 <= k < |v| && v[j] < v[k]
    ensures Softmax(v, exp)[j] < Softmax(v, exp)[k]
  {
    var m := Max(v);
    var e := j => exp(VAt(v, j) - m);
    var total := Sum(|v|, e);
    SumPositive(|v|, e);
    assert e(j) < e(k);
    DivideMonotone(e(j), e(k), total);
  }

  lemma DivideMonotone(a: real, b: real, d: real)
    requires a < b && d > 0.0
    ensures a / d < b / d
  {
  }

  /** A zero learning rate changes no parameter, whatever the gradient. */
  lemma BackwardNoRate(layer: Dense, cache: DenseCache, g: Matrix)
    requires layer.Valid() && |cache.input| > 0
    requires IsMatrix(cache.input, |cache.input|, layer.fin) && IsMatrix(g, |cache.input|, layer.fout)
    ensures Backward(layer, cache, g, 0.0).0 == layer
  {
    var r := Backward(layer, cache, g, 0.0).0;
    MatrixExt(r.weights, layer.weights, layer.fin, layer.fout);
    assert r.biases == layer.biases;
  }

  /** A zero upstream gradient changes no parameter and sends back zeros. */
  lemma BackwardZero(layer: Dense, cache: DenseCache, g: Matrix, lr: real)
    requires layer.Valid() && |cache.input| > 0
    requires IsMatrix(cache.input, |cache.input|, layer.fin) && IsMatrix(g, |cache.input|, layer.fout)
    requires AllZeroMatrix(g, |cache.input|, layer.fout)
    ensures Backward(layer, cache, g, lr) == (layer, ZeroMatrix(|cache.input|, layer.fin))
  {
    var x := cache.input;
    var r := Backward(layer, cache, g, lr);
    forall ic, oc | 0 <= ic < layer.fin && 0 <= oc < layer.fout
      ensures WeightGrad(x, g, ic, oc) == 0.0
    {
      SumZero(|x|, i => MAt(g, i, oc) * MAt(x, i, ic));
    }
    forall oc | 0 <= oc < layer.fout
      ensures BiasGrad(x, g, oc) == 0.0
    {
      SumZero(|x|, i => MAt(g, i, oc));
    }
    forall i, ic | 0 <= i < |x| && 0 <= ic < layer.fin
      ensures InputGrad(layer, g, i, ic) == 0.0
    {
      SumZero(layer.fout, oc => MAt(layer.weights, ic, oc) * MAt(g, i, oc));
    }
    MatrixExt(r.0.weights, layer.weights, layer.fin, layer.fout);
    assert r.0.biases == layer.biases;
    MatrixExt(r.1, ZeroMatrix(|x|, layer.fin), |x|, layer.fin);
  }

  /** The input gradient is the adjoint of the linear part of forward: for
      every direction u, pairing u with the input gradient equals pairing the
      upstream gradient with u times the weights. */
  lemma InputGradIsAdjoint(layer: Dense, cache: DenseCache, g: Matrix, lr: real, u: Matrix)
    requires layer.Valid() && |cache.input| > 0
    requires IsMatrix(cache.input, |cache.input|, layer.fin) && IsMatrix(g, |cache.input|, layer.fout)
    requires IsMatrix(u, |cache.input|, layer.fin)
    ensures InnerMatrix(Backward(layer, cache, g, lr).1, u, |cache.input|, layer.fin)
      == InnerMatrix(g, MatMul(u, layer.weights, |cache.input|, layer.fin, layer.fout), |cache.input|, layer.fout)
  {
    var n := |cache.input|;
    var d := Backward(layer, cache, g, lr).1;
    var uw := MatMul(u, layer.weights, n, layer.fin, layer.fout);
    forall i | 0 <= i < n
      ensures RowInner(d, u, layer.fin, i) == RowInner(g, uw, layer.fout, i)
    {
      RowAdjoint(layer, g, d, u, uw, i);
    }
    SumExt(n, i => RowInner(d, u, layer.fin, i), i => RowInner(g, uw, layer.fout, i));
  }

  lemma RowAdjoint(layer: Dense, g: Matrix, d: Matrix, u: Matrix, uw: Matrix, i: int)
    requires forall ic :: 0 <= ic < layer.fin ==> MAt(d, i, ic) == InputGrad(layer, g, i, ic)
    requires forall oc :: 0 <= oc < layer.fout ==> MAt(uw, i, oc) == Sum(layer.fin, k => MAt(u, i, k) * MAt(layer.weights, k, oc))
    ensures RowInner(d, u, layer.fin, i) == RowInner(g, uw, layer.fout, i)
  {
    var f := (ic, oc) => MAt(layer.weights, ic, oc) * MAt(g, i, oc) * MAt(u, i, ic);
    var rows := j => MAt(d, i, j) * MAt(u, i, j);
    var cols := j => MAt(g, i, j) * MAt(uw, i, j);
    assert forall a :: 0 <= a < layer.fin ==> rows(a) == Sum(layer.fout, b => f(a, b)) by {
      RowAdjointLeft(layer, g, d, u, i, f, rows);
    }
    assert forall b :: 0 <= b < layer.fout ==> cols(b) == Sum(layer.fin, a => f(a, b)) by {
      RowAdjointRight(layer, g, u, uw, i, f, cols);
    }
    SumSwapped(layer.fin, layer.fout, f, rows, cols);
  }

  lemma RowAdjointLeft(layer: Dense, g: Matrix, d: Matrix, u: Matrix, i: int, f: (int, int) -> real, rows: int -> real)
    requires forall ic :: 0 <= ic < layer.fin ==> MAt(d, i, ic) == InputGrad(layer, g, i, ic)
    requires forall ic, oc :: f(ic, oc) == MAt(layer.weights, ic, oc) * MAt(g, i, oc) * MAt(u, i, ic)
    requires forall ic :: rows(ic) == MAt(d, i, ic) * MAt(u, i, ic)
    ensures forall a :: 0 <= a < layer.fin ==> rows(a) == Sum(layer.fout, b => f(a, b))
  {
    forall ic | 0 <= ic < layer.fin
      ensures rows(ic) == Sum(layer.fout, b => f(ic, b))
    {
      var a := MAt(u, i, ic);
      forall oc | 0 <= oc < layer.fout
        ensures f(ic, oc) == a * (MAt(layer.weights, ic, oc) * MAt(g, i, oc))
      {
      }
      SumScaled(layer.fout, a, oc => MAt(layer.weights, ic, oc) * MAt(g, i, oc), b => f(ic, b));
    }
  }

  lemma RowAdjointRight(layer: Dense, g: Matrix, u: Matrix, uw: Matrix, i: int, f: (int, int) -> real, cols: int -> real)
    requires forall oc :: 0 <= oc < layer.fout ==> MAt(uw, i, oc) == Sum(layer.fin, k => MAt(u, i, k) * MAt(layer.weights, k, oc))
    requires forall ic, oc :: f(ic, oc) == MAt(layer.weights, ic, oc) * MAt(g, i, oc) * MAt(u, i, ic)
    requires forall oc :: cols(oc) == MAt(g, i, oc) * MAt(uw, i, oc)
    ensures forall b :: 0 <= b < layer.fout ==> cols(b) == Sum(layer.fin, a => f(a, b))
  {
    forall oc | 0 <= oc < layer.fout
      ensures cols(oc) == Sum(layer.fin, a => f(a, oc))
    {
      var c := MAt(g, i, oc);
      forall ic | 0 <= ic < layer.fin
        ensures f(ic, oc) == c * (MAt(u, i, ic) * MAt(layer.weights, ic, oc))
      {
      }
      SumScaled(layer.fin, c, k => MAt(u, i, k) * MAt(layer.weights, k, oc), a => f(a, oc));
    }
  }

  /** The weight update direction accumulated one example at a time, the way
      x^T g sums outer products: after n rows, entry (ic, oc) has added
      x[i][ic] * g[i][oc] for every i < n. */
  function OuterSum(x: Matrix, g: Matrix, n: nat, fin: nat, fout: nat): (m: Matrix)
    ensures IsMatrix(m, fin, fout)
    decreases n
  {
    if n == 0 then ZeroMatrix(fin, fout)
    else
      var prev := OuterSum(x, g, n - 1, fin, fout);
      BuildMatrix(fin, fout, (ic, oc) => MAt(prev, ic, oc) + MAt(g, n - 1, oc) * MAt(x, n - 1, ic))
  }

  /** The bias update direction accumulated one example at a time: the sum of
      the first n gradient rows. */
  function RowSum(g: Matrix, n: nat, fout: nat): (v: seq<real>)
    ensures |v| == fout
    decreases n
  {
    if n == 0 then seq(fout, oc => 0.0)
    else
      var prev := RowSum(g, n - 1, fout);
      seq(fout, oc => VAt(prev, oc) + MAt(g, n - 1, oc))
  }

  lemma {:induction false} OuterSumEntry(x: Matrix, g: Matrix, n: nat, fin: nat, fout: nat, ic: int, oc: int)
    requires 0 <= ic < fin && 0 <= oc < fout
    ensures MAt(OuterSum(x, g, n, fin, fout), ic, oc) == Sum(n, i => MAt(g, i, oc) * MAt(x, i, ic))
    decreases n
  {
    if n > 0 {
      OuterSumEntry(x, g, n - 1, fin, fout, ic, oc);
    }
  }

  lemma {:induction false} RowSumEntry(g: Matrix, n: nat, fout: nat, oc: int)
    requires 0 <= oc < fout
    ensures VAt(RowSum(g, n, fout), oc) == Sum(n, i => MAt(g, i, oc))
    decreases n
  {
    if n > 0 {
      RowSumEntry(g, n - 1, fout, oc);
    }
  }

  /** The step backward takes is lr times the batch average of the outer
      products x[i] (x) g[i] for the weights and of the rows g[i] for the
      biases, each accumulated example by example. */
  lemma BackwardStepIsAveragedAccumulation(layer: Dense, cache: DenseCache, g: Matrix, lr: real)
    requires layer.Valid() && |cache.input| > 0
    requires IsMatrix(cache.input, |cache.input|, layer.fin) && IsMatrix(g, |cache.input|, layer.fout)
    ensures forall ic, oc :: 0 <= ic < layer.fin && 0 <= oc < layer.fout ==>
      Backward(layer, cache, g, lr).0.weights[ic][oc]
        == layer.weights[ic][oc] - lr * (MAt(OuterSum(cache.input, g, |cache.input|, layer.fin, layer.fout), ic, oc) / (|cache.input| as real))
    ensures forall oc :: 0 <= oc < layer.fout ==>
      Backward(layer, cache, g, lr).0.biases[oc]
        == layer.biases[oc] - lr * (VAt(RowSum(g, |cache.input|, layer.fout), oc) / (|cache.input| as real))
  {
    forall ic, oc | 0 <= ic < layer.fin && 0 <= oc < layer.fout {
      OuterSumEntry(cache.input, g, |cache.input|, layer.fin, layer.fout, ic, oc);
    }
    forall oc | 0 <= oc < layer.fout {
      RowSumEntry(g, |cache.input|, layer.fout, oc);
    }
  }
}
