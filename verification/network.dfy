/** The network (main.py:255-354): a chain of convolution and pooling stages,
    the flatten bridge, and a chain of dense layers. A forward pass returns
    every layer's cache and the shape the last stage produced, which the
    original keeps in the layer objects and in last_conv_output_shape; a
    backward pass consumes them in reverse order and returns the updated
    network. */
module Network {
  import opened Tensors
  import opened Outcomes
  import opened Reshape
  import Conv2dLayer
  import MaxPoolLayer
  import DenseLayer

  /** One entry of conv_pool_layers. */
  datatype Stage = Conv(conv: Conv2dLayer.Conv2d) | Pool

  /** What a stage's forward left behind, and the shape it produced. */
  datatype StageCache =
    | ConvTrace(convCache: Conv2dLayer.ConvCache, out: Shape)
    | PoolTrace(poolCache: MaxPoolLayer.PoolCache, out: Shape)
  {
    /** The input the stage received (self.input in either layer). */
    function Input(): Tensor4 {
      if ConvTrace? then convCache.input else poolCache.input
    }

    function InputShape(): Shape {
      if ConvTrace? then convCache.inShape else poolCache.inShape
    }
  }

  predicate StageValid(st: Stage) {
    st.Conv? ==> st.conv.Valid()
  }

  /** Same kind of stage with the same configuration. */
  predicate SameStage(a: Stage, b: Stage) {
    match a
    case Conv(c) => b.Conv? && c.SameConfig(b.conv)
    case Pool => b.Pool?
  }

  datatype Sequential = Sequential(stages: seq<Stage>, dense: seq<DenseLayer.Dense>) {

    predicate Valid() {
      && (forall k :: 0 <= k < |stages| ==> StageValid(stages[k]))
      && (forall k :: 0 <= k < |dense| ==> dense[k].Valid())
    }

    /** Same layers with the same configuration, possibly other parameters. */
    predicate SameConfig(other: Sequential) {
      && |stages| == |other.stages| && |dense| == |other.dense|
      && (forall k :: 0 <= k < |stages| ==> SameStage(stages[k], other.stages[k]))
      && (forall k :: 0 <= k < |dense| ==> dense[k].SameConfig(other.dense[k]))
    }
  }

  /** Everything one forward pass records for the backward pass. */
  datatype Trace = Trace(stageCaches: seq<StageCache>, lastShape: Shape, denseCaches: seq<DenseLayer.DenseCache>)

  datatype Pass = Pass(trace: Trace, output: Matrix)

  /** The cache is one the stage's forward left for an input of shape s. */
  predicate StageFits(st: Stage, c: StageCache, s: Shape) {
    match st
    case Conv(layer) =>
      && c.ConvTrace? && Conv2dLayer.CacheFits(layer, c.convCache) && c.convCache.inShape == s
      && c.out == Conv2dLayer.OutShape(layer, s)
    case Pool =>
      && c.PoolTrace? && HasShape(c.poolCache.input, c.poolCache.inShape) && c.poolCache.inShape == s
      && c.out == MaxPoolLayer.OutShape(s)
  }

  /** The caches chain from shape s to shape last through the stages. */
  predicate StagesFit(stages: seq<Stage>, caches: seq<StageCache>, s: Shape, last: Shape)
    decreases |stages|
  {
    && |caches| == |stages|
    && if |stages| == 0 then last == s
       else StageFits(stages[0], caches[0], s) && StagesFit(stages[1..], caches[1..], caches[0].out, last)
  }

  /** The dense caches chain from rows x cols to rows x outCols. */
  predicate DenseFit(layers: seq<DenseLayer.Dense>, caches: seq<DenseLayer.DenseCache>, rows: nat, cols: nat, outCols: nat)
    decreases |layers|
  {
    && |caches| == |layers|
    && if |layers| == 0 then outCols == cols
       else
         && layers[0].Valid() && layers[0].fin == cols && IsMatrix(caches[0].input, rows, cols)
         && DenseFit(layers[1..], caches[1..], rows, layers[0].fout, outCols)
  }

  /** The trace is one a forward pass of the model on shape s left, with
      outputs `classes` wide. */
  predicate TraceFits(model: Sequential, trace: Trace, s: Shape, classes: nat) {
    && StagesFit(model.stages, trace.stageCaches, s, trace.lastShape)
    && trace.lastShape.n == s.n
    && DenseFit(model.dense, trace.denseCaches, s.n, FlatSize(trace.lastShape), classes)
  }

  /** The stage's forward succeeds on an input of shape s: a convolution
      needs a non-negative output extent and no more input channels than its
      kernels have, once its loops are entered; pooling always succeeds. */
  predicate StageAccepts(st: Stage, s: Shape) {
    match st
    case Conv(layer) => Conv2dLayer.Fits(layer, s) && !Conv2dLayer.ChannelOverrun(layer, s)
    case Pool => true
  }

  /** The shape the stage produces from an input of shape s. */
  function StageOutShape(st: Stage, s: Shape): Shape
    requires StageAccepts(st, s)
  {
    match st
    case Conv(layer) => Conv2dLayer.OutShape(layer, s)
    case Pool => MaxPoolLayer.OutShape(s)
  }

  /** Every stage accepts the shape the stages before it produce from s. */
  predicate StagesAccept(stages: seq<Stage>, s: Shape)
    decreases |stages|
  {
    |stages| > 0 ==> StageAccepts(stages[0], s) && StagesAccept(stages[1..], StageOutShape(stages[0], s))
  }

  /** The shape the stages produce from an input of shape s. */
  function StagesOutShape(stages: seq<Stage>, s: Shape): Shape
    requires StagesAccept(stages, s)
    decreases |stages|
  {
    if |stages| == 0 then s else StagesOutShape(stages[1..], StageOutShape(stages[0], s))
  }

  /** Every dense layer accepts rows x cols, where cols is the width the
      layers before it produce: numpy's dot needs the width to be fin when
      there are rows, the activation must be one of the two supported, and
      softmax needs a row maximum. */
  predicate DenseAccepts(layers: seq<DenseLayer.Dense>, rows: nat, cols: nat)
    decreases |layers|
  {
    |layers| > 0 ==>
      && (rows > 0 ==> cols == layers[0].fin)
      && DenseLayer.Supported(layers[0].activation)
      && !DenseLayer.ReductionEmpty(layers[0].activation, rows, layers[0].fout)
      && DenseAccepts(layers[1..], rows, layers[0].fout)
  }

  /** Every layer of the model accepts what reaches it from a batch of
      shape s. */
  predicate Accepts(model: Sequential, s: Shape) {
    && StagesAccept(model.stages, s)
    && DenseAccepts(model.dense, s.n, FlatSize(StagesOutShape(model.stages, s)))
  }

  /** The width of the rows the model produces from a batch of shape s. */
  function OutWidth(model: Sequential, s: Shape): nat
    requires StagesAccept(model.stages, s)
  {
    DenseOutWidth(model.dense, FlatSize(StagesOutShape(model.stages, s)))
  }

  /** Whether a model accepts a batch depends on its configuration and on the
      shape of one image, not on its parameters or the number of images;
      and so does the width of what it produces. */
  lemma AcceptsSameConfig(a: Sequential, b: Sequential, s: Shape, s': Shape)
    requires a.SameConfig(b) && s.n > 0 && s'.n > 0 && s.h == s'.h && s.w == s'.w && s.c == s'.c
    ensures Accepts(a, s) <==> Accepts(b, s')
    ensures Accepts(a, s) ==> OutWidth(a, s) == OutWidth(b, s')
  {
    StagesAcceptSame(a.stages, b.stages, s, s');
    if StagesAccept(a.stages, s) {
      var o := StagesOutShape(a.stages, s);
      assert FlatSize(o) == FlatSize(StagesOutShape(b.stages, s'));
      DenseAcceptsSame(a.dense, b.dense, s.n, s'.n, FlatSize(o));
    }
  }

  lemma {:induction false} StagesAcceptSame(a: seq<Stage>, b: seq<Stage>, s: Shape, s': Shape)
    requires |a| == |b| && forall k :: 0 <= k < |a| ==> SameStage(a[k], b[k])
    requires s.n > 0 && s'.n > 0 && s.h == s'.h && s.w == s'.w && s.c == s'.c
    ensures StagesAccept(a, s) <==> StagesAccept(b, s')
    ensures StagesAccept(a, s) ==>
      var o := StagesOutShape(a, s);
      var o' := StagesOutShape(b, s');
      o.n > 0 && o'.n > 0 && o.h == o'.h && o.w == o'.w && o.c == o'.c
    decreases |a|
  {
    if |a| > 0 {
      assert SameStage(a[0], b[0]);
      if StageAccepts(a[0], s) {
        assert StageAccepts(b[0], s');
        forall k | 0 <= k < |a| - 1
          ensures SameStage(a[1..][k], b[1..][k])
        {
          assert a[1..][k] == a[k + 1] && b[1..][k] == b[k + 1];
        }
        StagesAcceptSame(a[1..], b[1..], StageOutShape(a[0], s), StageOutShape(b[0], s'));
      }
    }
  }

  lemma {:induction false} DenseAcceptsSame(a: seq<DenseLayer.Dense>, b: seq<DenseLayer.Dense>, rows: nat, rows': nat, cols: nat)
    requires |a| == |b| && forall k :: 0 <= k < |a| ==> a[k].SameConfig(b[k])
    requires rows > 0 && rows' > 0
    ensures DenseAccepts(a, rows, cols) <==> DenseAccepts(b, rows', cols)
    ensures DenseOutWidth(a, cols) == DenseOutWidth(b, cols)
    decreases |a|
  {
    if |a| > 0 {
      assert a[0].SameConfig(b[0]) && a[|a| - 1].SameConfig(b[|b| - 1]);
      forall k | 0 <= k < |a| - 1
        ensures a[1..][k].SameConfig(b[1..][k])
      {
        assert a[1..][k] == a[k + 1] && b[1..][k] == b[k + 1];
      }
      DenseAcceptsSame(a[1..], b[1..], rows, rows', a[0].fout);
    }
  }

  function StageForward(st: Stage, x: Tensor4, s: Shape): (r: Result<StageCache>)
    requires StageValid(st) && HasShape(x, s)
    ensures r.Success? <==> StageAccepts(st, s)
    ensures r.Success? ==> r.value.out == StageOutShape(st, s)
    ensures r.Success? ==> StageFits(st, r.value, s) && r.value.out.n == s.n
    ensures r.Success? ==> r.value.Input() == x && r.value.InputShape() == s
  {
    match st
    case Conv(layer) =>
      var step :- Conv2dLayer.Forward(layer, x, s);
      Success(ConvTrace(step.cache, Conv2dLayer.OutShape(layer, s)))
    case Pool =>
      Success(PoolTrace(MaxPoolLayer.Forward(x, s).0, MaxPoolLayer.OutShape(s)))
  }

  /** The output the stage produced alongside its cache. */
  function StageOutput(st: Stage, x: Tensor4, s: Shape): (y: Tensor4)
    requires StageValid(st) && HasShape(x, s) && StageForward(st, x, s).Success?
    ensures HasShape(y, StageForward(st, x, s).value.out)
  {
    match st
    case Conv(layer) => Conv2dLayer.Forward(layer, x, s).value.output
    case Pool => MaxPoolLayer.Forward(x, s).1
  }

  /** The loop over conv_pool_layers in forward (main.py:305-308). */
  function StagesForward(stages: seq<Stage>, x: Tensor4, s: Shape): (r: Result<(seq<StageCache>, Tensor4, Shape)>)
    requires forall k :: 0 <= k < |stages| ==> StageValid(stages[k])
    requires HasShape(x, s)
    ensures r.Success? <==> StagesAccept(stages, s)
    ensures r.Success? ==> r.value.2 == StagesOutShape(stages, s)
    ensures r.Success? ==> StagesFit(stages, r.value.0, s, r.value.2) && HasShape(r.value.1, r.value.2) && r.value.2.n == s.n
    decreases |stages|
  {
    if |stages| == 0 then Success(([], x, s))
    else
      var c :- StageForward(stages[0], x, s);
      var y := StageOutput(stages[0], x, s);
      var rest :- StagesForward(stages[1..], y, c.out);
      Success(([c] + rest.0, rest.1, rest.2))
  }

  /** Width of the rows the dense chain produces from rows cols wide. */
  function DenseOutWidth(layers: seq<DenseLayer.Dense>, cols: nat): nat {
    if |layers| == 0 then cols else layers[|layers| - 1].fout
  }

  /** The loop over dense_layers in forward (main.py:315-319). */
  function DenseForward(layers: seq<DenseLayer.Dense>, x: Matrix, cols: nat, exp: real -> real): (r: Result<(seq<DenseLayer.DenseCache>, Matrix, nat)>)
    requires forall k :: 0 <= k < |layers| ==> layers[k].Valid()
    requires |x| > 0 && IsMatrix(x, |x|, cols)
    requires forall t :: exp(t) > 0.0
    ensures r.Success? <==> DenseAccepts(layers, |x|, cols)
    ensures r.Success? ==> DenseFit(layers, r.value.0, |x|, cols, r.value.2) && IsMatrix(r.value.1, |x|, r.value.2)
    ensures r.Success? ==> r.value.2 == DenseOutWidth(layers, cols)
    ensures r.Success? && |layers| > 0 && layers[|layers| - 1].activation == "softmax" ==>
      forall i :: 0 <= i < |x| ==> Sums.Sum(r.value.2, j => VAt(r.value.1[i], j)) == 1.0
    decreases |layers|
  {
    if |layers| == 0 then Success(([], x, cols))
    else
      var step :- DenseLayer.Forward(layers[0], x, cols, exp);
      var rest :- DenseForward(layers[1..], step.output, layers[0].fout, exp);
      assert |layers| == 1 ==> rest.1 == step.output && rest.2 == layers[0].fout;
      assert |layers| > 1 ==> layers[1..][|layers[1..]| - 1] == layers[|layers| - 1];
      Success(([step.cache] + rest.0, rest.1, rest.2))
  }

  /** forward (main.py:299-321). The batch is not empty: numpy turns an
      empty list of flattened samples into a one-dimensional array. */
  function Forward(model: Sequential, x: Tensor4, s: Shape, exp: real -> real): (r: Result<Pass>)
    requires model.Valid() && HasShape(x, s) && s.n > 0
    requires forall t :: exp(t) > 0.0
    ensures r.Success? ==>
      var classes := DenseOutWidth(model.dense, FlatSize(r.value.trace.lastShape));
      TraceFits(model, r.value.trace, s, classes) && IsMatrix(r.value.output, s.n, classes)
    ensures r.Success? && |model.dense| > 0 && model.dense[|model.dense| - 1].activation == "softmax" ==>
      forall i :: 0 <= i < s.n ==> Sums.Sum(|r.value.output[i]|, j => VAt(r.value.output[i], j)) == 1.0
  {
    var st :- StagesForward(model.stages, x, s);
    var flat := FlattenBatch(st.1);
    FlattenBatchShape(st.1, st.2);
    var d :- DenseForward(model.dense, flat, FlatSize(st.2), exp);
    Success(Pass(Trace(st.0, st.2, d.0), d.1))
  }

  /** A forward pass succeeds exactly when every layer accepts what reaches
      it; the stages leave the shape they produce from s. */
  lemma ForwardSucceeds(model: Sequential, x: Tensor4, s: Shape, exp: real -> real)
    requires model.Valid() && HasShape(x, s) && s.n > 0
    requires forall t :: exp(t) > 0.0
    ensures Forward(model, x, s, exp).Success? <==> Accepts(model, s)
    ensures Forward(model, x, s, exp).Success? ==>
      Forward(model, x, s, exp).value.trace.lastShape == StagesOutShape(model.stages, s)
  {
    var st := StagesForward(model.stages, x, s);
    if st.Success? {
      FlattenBatchShape(st.value.1, st.value.2);
    }
  }

  /** The cache is the one the stage's forward leaves for the input recorded
      in it. */
  predicate StageRan(st: Stage, c: StageCache) {
    && StageValid(st) && HasShape(c.Input(), c.InputShape())
    && StageForward(st, c.Input(), c.InputShape()) == Success(c)
  }

  /** What the stage produced on the run that left cache c. */
  function RanOutput(st: Stage, c: StageCache): Tensor4
    requires StageRan(st, c)
  {
    StageOutput(st, c.Input(), c.InputShape())
  }

  /** The caches record a forward run of the stages that began at x and
      produced y: every cache is what its stage's forward left, the first
      stage received x, every later stage the output of the one before it,
      and y is the output of the last (x itself when there is no stage). */
  predicate StagesRan(stages: seq<Stage>, caches: seq<StageCache>, x: Tensor4, y: Tensor4) {
    && |caches| == |stages|
    && (forall k :: 0 <= k < |stages| ==> StageRan(stages[k], caches[k]))
    && (|stages| == 0 ==> y == x)
    && (|stages| > 0 ==> caches[0].Input() == x && y == RanOutput(stages[|stages| - 1], caches[|stages| - 1]))
    && (forall k :: 0 <= k < |stages| - 1 ==> caches[k + 1].Input() == RanOutput(stages[k], caches[k]))
  }

  /** The caches StagesForward returns record the run it made. */
  lemma {:induction false} StagesForwardRuns(stages: seq<Stage>, x: Tensor4, s: Shape)
    requires forall k :: 0 <= k < |stages| ==> StageValid(stages[k])
    requires HasShape(x, s) && StagesForward(stages, x, s).Success?
    ensures
      var r := StagesForward(stages, x, s).value;
      StagesRan(stages, r.0, x, r.1)
    decreases |stages|
  {
    if |stages| > 0 {
      var c := StageForward(stages[0], x, s).value;
      var y := StageOutput(stages[0], x, s);
      var rest := StagesForward(stages[1..], y, c.out).value;
      StagesForwardRuns(stages[1..], y, c.out);
      assert StageRan(stages[0], c);
      var caches := [c] + rest.0;
      assert caches[1..] == rest.0;
      StagesRanCons(stages, caches, x, y, rest.1);
    }
  }

  /** A stage that ran on x and produced y, followed by stages that ran from
      y to z, is a run from x to z. */
  lemma StagesRanCons(stages: seq<Stage>, caches: seq<StageCache>, x: Tensor4, y: Tensor4, z: Tensor4)
    requires |stages| > 0 && |caches| == |stages|
    requires StageRan(stages[0], caches[0]) && caches[0].Input() == x && RanOutput(stages[0], caches[0]) == y
    requires StagesRan(stages[1..], caches[1..], y, z)
    ensures StagesRan(stages, caches, x, z)
  {
    forall k | 0 <= k < |stages|
      ensures StageRan(stages[k], caches[k])
    {
      if k > 0 {
        assert stages[k] == stages[1..][k - 1] && caches[k] == caches[1..][k - 1];
      }
    }
    forall k | 0 <= k < |stages| - 1
      ensures caches[k + 1].Input() == RanOutput(stages[k], caches[k])
    {
      if k > 0 {
        assert stages[k] == stages[1..][k - 1] && caches[k] == caches[1..][k - 1] && caches[k + 1] == caches[1..][k];
      }
    }
    if |stages| > 1 {
      assert stages[|stages| - 1] == stages[1..][|stages| - 2] && caches[|stages| - 1] == caches[1..][|stages| - 2];
    }
  }

  /** The cache is the one the dense layer's forward leaves for the input
      recorded in it. */
  predicate DenseStepRan(layer: DenseLayer.Dense, c: DenseLayer.DenseCache, exp: real -> real)
    requires forall t :: exp(t) > 0.0
  {
    && layer.Valid() && IsMatrix(c.input, |c.input|, layer.fin)
    && DenseLayer.Forward(layer, c.input, layer.fin, exp).Success?
    && DenseLayer.Forward(layer, c.input, layer.fin, exp).value.cache == c
  }

  /** What the dense layer produced on the run that left cache c. */
  function DenseRanOutput(layer: DenseLayer.Dense, c: DenseLayer.DenseCache, exp: real -> real): Matrix
    requires forall t :: exp(t) > 0.0
    requires DenseStepRan(layer, c, exp)
  {
    DenseLayer.Forward(layer, c.input, layer.fin, exp).value.output
  }

  /** The caches record a forward run of the dense layers that began at x and
      produced y, in the sense of StagesRan. */
  predicate DenseRan(layers: seq<DenseLayer.Dense>, caches: seq<DenseLayer.DenseCache>, x: Matrix, y: Matrix, exp: real -> real)
    requires forall t :: exp(t) > 0.0
  {
    && |caches| == |layers|
    && (forall k :: 0 <= k < |layers| ==> DenseStepRan(layers[k], caches[k], exp))
    && (|layers| == 0 ==> y == x)
    && (|layers| > 0 ==> caches[0].input == x && y == DenseRanOutput(layers[|layers| - 1], caches[|layers| - 1], exp))
    && (forall k :: 0 <= k < |layers| - 1 ==> caches[k + 1].input == DenseRanOutput(layers[k], caches[k], exp))
  }

  /** The caches DenseForward returns record the run it made. */
  lemma {:induction false} DenseForwardRuns(layers: seq<DenseLayer.Dense>, x: Matrix, cols: nat, exp: real -> real)
    requires forall k :: 0 <= k < |layers| ==> layers[k].Valid()
    requires |x| > 0 && IsMatrix(x, |x|, cols)
    requires forall t :: exp(t) > 0.0
    requires DenseForward(layers, x, cols, exp).Success?
    ensures
      var r := DenseForward(layers, x, cols, exp).value;
      DenseRan(layers, r.0, x, r.1, exp)
    decreases |layers|
  {
    if |layers| > 0 {
      var step := DenseLayer.Forward(layers[0], x, cols, exp).value;
      var rest := DenseForward(layers[1..], step.output, layers[0].fout, exp).value;
      DenseForwardRuns(layers[1..], step.output, layers[0].fout, exp);
      assert layers[0].fin == cols;
      assert DenseStepRan(layers[0], step.cache, exp);
      var caches := [step.cache] + rest.0;
      assert caches[1..] == rest.0;
      DenseRanCons(layers, caches, x, step.output, rest.1, exp);
    }
  }

  /** A dense layer that ran on x and produced y, followed by layers that ran
      from y to z, is a run from x to z. */
  lemma DenseRanCons(layers: seq<DenseLayer.Dense>, caches: seq<DenseLayer.DenseCache>, x: Matrix, y: Matrix, z: Matrix, exp: real -> real)
    requires forall t :: exp(t) > 0.0
    requires |layers| > 0 && |caches| == |layers|
    requires DenseStepRan(layers[0], caches[0], exp) && caches[0].input == x && DenseRanOutput(layers[0], caches[0], exp) == y
    requires DenseRan(layers[1..], caches[1..], y, z, exp)
    ensures DenseRan(layers, caches, x, z, exp)
  {
    forall k | 0 <= k < |layers|
      ensures DenseStepRan(layers[k], caches[k], exp)
    {
      if k > 0 {
        assert layers[k] == layers[1..][k - 1] && caches[k] == caches[1..][k - 1];
      }
    }
    forall k | 0 <= k < |layers| - 1
      ensures caches[k + 1].input == DenseRanOutput(layers[k], caches[k], exp)
    {
      if k > 0 {
        assert layers[k] == layers[1..][k - 1] && caches[k] == caches[1..][k - 1] && caches[k + 1] == caches[1..][k];
      }
    }
    if |layers| > 1 {
      assert layers[|layers| - 1] == layers[1..][|layers| - 2] && caches[|layers| - 1] == caches[1..][|layers| - 2];
    }
  }

  /** A successful forward pass records one run: the stages ran on the images
      and produced some y, and the dense layers ran on the flattened rows of y
      and produced the output. */
  lemma ForwardRuns(model: Sequential, x: Tensor4, s: Shape, exp: real -> real)
    requires model.Valid() && HasShape(x, s) && s.n > 0
    requires forall t :: exp(t) > 0.0
    requires Forward(model, x, s, exp).Success?
    ensures
      var p := Forward(model, x, s, exp).value;
      exists y :: StagesRan(model.stages, p.trace.stageCaches, x, y)
                  && DenseRan(model.dense, p.trace.denseCaches, FlattenBatch(y), p.output, exp)
  {
    var st := StagesForward(model.stages, x, s).value;
    StagesForwardRuns(model.stages, x, s);
    FlattenBatchShape(st.1, st.2);
    DenseForwardRuns(model.dense, FlattenBatch(st.1), FlatSize(st.2), exp);
    var p := Forward(model, x, s, exp).value;
    assert StagesRan(model.stages, p.trace.stageCaches, x, st.1);
  }

  function StageBackward(st: Stage, c: StageCache, s: Shape, g: Tensor4, lr: real): (r: (Stage, Tensor4))
    requires StageValid(st) && StageFits(st, c, s) && HasShape(g, c.out)
    ensures StageValid(r.0) && SameStage(st, r.0) && HasShape(r.1, s)
  {
    match st
    case Conv(layer) =>
      var step := Conv2dLayer.Backward(layer, c.convCache, g, lr);
      (Conv(step.0), step.1)
    case Pool =>
      (Pool, MaxPoolLayer.Backward(c.poolCache, g))
  }

  /** The reverse loop over conv_pool_layers in backward (main.py:333-334):
      the last stage is stepped first, and its input gradient feeds the one
      before it. */
  function StagesBackward(stages: seq<Stage>, caches: seq<StageCache>, s: Shape, last: Shape, g: Tensor4, lr: real): (r: (seq<Stage>, Tensor4))
    requires forall k :: 0 <= k < |stages| ==> StageValid(stages[k])
    requires StagesFit(stages, caches, s, last) && HasShape(g, last)
    ensures |r.0| == |stages| && HasShape(r.1, s)
    ensures forall k :: 0 <= k < |stages| ==> StageValid(r.0[k]) && SameStage(stages[k], r.0[k])
    decreases |stages|
  {
    if |stages| == 0 then ([], g)
    else
      var rest := StagesBackward(stages[1..], caches[1..], caches[0].out, last, g, lr);
      var first := StageBackward(stages[0], caches[0], s, rest.1, lr);
      ([first.0] + rest.0, first.1)
  }

  /** The reverse loop over dense_layers in backward (main.py:326-328). */
  function DenseBackward(layers: seq<DenseLayer.Dense>, caches: seq<DenseLayer.DenseCache>, rows: nat, cols: nat, outCols: nat, g: Matrix, lr: real): (r: (seq<DenseLayer.Dense>, Matrix))
    requires rows > 0 && DenseFit(layers, caches, rows, cols, outCols) && IsMatrix(g, rows, outCols)
    ensures |r.0| == |layers| && IsMatrix(r.1, rows, cols)
    ensures forall k :: 0 <= k < |layers| ==> r.0[k].Valid() && layers[k].SameConfig(r.0[k])
    decreases |layers|
  {
    if |layers| == 0 then ([], g)
    else
      var rest := DenseBackward(layers[1..], caches[1..], rows, layers[0].fout, outCols, g, lr);
      var first := DenseLayer.Backward(layers[0], caches[0], rest.1, lr);
      ([first.0] + rest.0, first.1)
  }

  /** backward (main.py:323-334): dense layers in reverse, unflatten into the
      recorded shape, then the stages in reverse. The gradient with respect
      to the network input is computed and dropped. */
  function Backward(model: Sequential, trace: Trace, s: Shape, classes: nat, g: Matrix, lr: real): (r: Sequential)
    requires model.Valid() && s.n > 0
    requires TraceFits(model, trace, s, classes) && IsMatrix(g, s.n, classes)
    ensures r.Valid() && model.SameConfig(r)
  {
    var d := DenseBackward(model.dense, trace.denseCaches, s.n, FlatSize(trace.lastShape), classes, g, lr);
    var st := StagesBackward(model.stages, trace.stageCaches, s, trace.lastShape, StagesGradient(model, trace, s, classes, g, lr), lr);
    Sequential(st.0, d.0)
  }

  /** The gradient backward hands to the stages (main.py:330): the input
      gradient of the dense chain unflattened into the recorded shape. */
  function StagesGradient(model: Sequential, trace: Trace, s: Shape, classes: nat, g: Matrix, lr: real): (gt: Tensor4)
    requires model.Valid() && s.n > 0
    requires TraceFits(model, trace, s, classes) && IsMatrix(g, s.n, classes)
    ensures HasShape(gt, trace.lastShape)
  {
    var d := DenseBackward(model.dense, trace.denseCaches, s.n, FlatSize(trace.lastShape), classes, g, lr);
    assert RowsCover(d.1, trace.lastShape);
    Unflatten(d.1, trace.lastShape).value
  }

  /** The last dense layer and its cache fit rows x outCols. */
  predicate LastDenseFits(layers: seq<DenseLayer.Dense>, caches: seq<DenseLayer.DenseCache>, rows: nat, outCols: nat) {
    |layers| > 0 ==>
      && |caches| == |layers| && layers[|layers| - 1].Valid() && layers[|layers| - 1].fout == outCols
      && IsMatrix(caches[|layers| - 1].input, rows, layers[|layers| - 1].fin)
  }

  /** The last stage fits the input recorded in its cache and produced shape last. */
  predicate LastStageFits(stages: seq<Stage>, caches: seq<StageCache>, last: Shape) {
    |stages| > 0 ==>
      && |caches| == |stages| && caches[|stages| - 1].out == last
      && StageFits(stages[|stages| - 1], caches[|stages| - 1], caches[|stages| - 1].InputShape())
  }

  /** Every dense layer is stepped with the input gradient of the layers
      above it, which for the top layer is the gradient the loop was given,
      and the layers from k on pass down the input gradient layer k's
      backward returns for it. */
  lemma {:induction false} DenseBackwardSteps(layers: seq<DenseLayer.Dense>, caches: seq<DenseLayer.DenseCache>, rows: nat, cols: nat, outCols: nat, g: Matrix, lr: real)
    requires rows > 0 && DenseFit(layers, caches, rows, cols, outCols) && IsMatrix(g, rows, outCols)
    ensures forall k :: 0 <= k < |layers| ==>
      && layers[k].Valid() && IsMatrix(caches[k].input, rows, layers[k].fin)
      && DenseFit(layers[k + 1..], caches[k + 1..], rows, layers[k].fout, outCols)
      && DenseBackward(layers, caches, rows, cols, outCols, g, lr).0[k]
         == DenseLayer.Backward(layers[k], caches[k], DenseBackward(layers[k + 1..], caches[k + 1..], rows, layers[k].fout, outCols, g, lr).1, lr).0
      && DenseFit(layers[k..], caches[k..], rows, layers[k].fin, outCols)
      && DenseBackward(layers[k..], caches[k..], rows, layers[k].fin, outCols, g, lr).1
         == DenseLayer.Backward(layers[k], caches[k], DenseBackward(layers[k + 1..], caches[k + 1..], rows, layers[k].fout, outCols, g, lr).1, lr).1
  {
    forall k | 0 <= k < |layers|
      ensures && layers[k].Valid() && IsMatrix(caches[k].input, rows, layers[k].fin)
              && DenseFit(layers[k + 1..], caches[k + 1..], rows, layers[k].fout, outCols)
              && DenseBackward(layers, caches, rows, cols, outCols, g, lr).0[k]
                 == DenseLayer.Backward(layers[k], caches[k], DenseBackward(layers[k + 1..], caches[k + 1..], rows, layers[k].fout, outCols, g, lr).1, lr).0
              && DenseFit(layers[k..], caches[k..], rows, layers[k].fin, outCols)
              && DenseBackward(layers[k..], caches[k..], rows, layers[k].fin, outCols, g, lr).1
                 == DenseLayer.Backward(layers[k], caches[k], DenseBackward(layers[k + 1..], caches[k + 1..], rows, layers[k].fout, outCols, g, lr).1, lr).1
    {
      DenseBackwardStep(layers, caches, rows, cols, outCols, g, lr, k);
      DenseSuffixStep(layers, caches, rows, outCols, g, lr, k);
    }
  }

  lemma {:induction false} DenseBackwardStep(layers: seq<DenseLayer.Dense>, caches: seq<DenseLayer.DenseCache>, rows: nat, cols: nat, outCols: nat, g: Matrix, lr: real, k: nat)
    requires rows > 0 && DenseFit(layers, caches, rows, cols, outCols) && IsMatrix(g, rows, outCols)
    requires k < |layers|
    ensures layers[k].Valid() && IsMatrix(caches[k].input, rows, layers[k].fin)
    ensures DenseFit(layers[k + 1..], caches[k + 1..], rows, layers[k].fout, outCols)
    ensures DenseBackward(layers, caches, rows, cols, outCols, g, lr).0[k]
      == DenseLayer.Backward(layers[k], caches[k], DenseBackward(layers[k + 1..], caches[k + 1..], rows, layers[k].fout, outCols, g, lr).1, lr).0
    decreases k
  {
    if k == 0 {
      assert layers[1..] == layers[0 + 1..] && caches[1..] == caches[0 + 1..];
    } else {
      DenseBackwardStep(layers[1..], caches[1..], rows, layers[0].fout, outCols, g, lr, k - 1);
      assert layers[1..][k - 1] == layers[k] && caches[1..][k - 1] == caches[k];
      assert layers[1..][k..] == layers[k + 1..] && caches[1..][k..] == caches[k + 1..];
    }
  }

  /** The layers from k on pass down what layer k's backward returns for the
      gradient the layers above it passed down. */
  lemma DenseSuffixStep(layers: seq<DenseLayer.Dense>, caches: seq<DenseLayer.DenseCache>, rows: nat, outCols: nat, g: Matrix, lr: real, k: nat)
    requires rows > 0 && k < |layers| == |caches| && IsMatrix(g, rows, outCols)
    requires layers[k].Valid() && IsMatrix(caches[k].input, rows, layers[k].fin)
    requires DenseFit(layers[k + 1..], caches[k + 1..], rows, layers[k].fout, outCols)
    ensures DenseFit(layers[k..], caches[k..], rows, layers[k].fin, outCols)
    ensures DenseBackward(layers[k..], caches[k..], rows, layers[k].fin, outCols, g, lr).1
      == DenseLayer.Backward(layers[k], caches[k], DenseBackward(layers[k + 1..], caches[k + 1..], rows, layers[k].fout, outCols, g, lr).1, lr).1
  {
    assert layers[k..][0] == layers[k] && caches[k..][0] == caches[k];
    assert layers[k..][1..] == layers[k + 1..] && caches[k..][1..] == caches[k + 1..];
  }

  /** Every stage is stepped with the input gradient of the stages above it,
      which for the last stage is the gradient the loop was given, and the
      stages from k on pass down the input gradient stage k's backward
      returns for it. */
  lemma {:induction false} StagesBackwardSteps(stages: seq<Stage>, caches: seq<StageCache>, s: Shape, last: Shape, g: Tensor4, lr: real)
    requires forall k :: 0 <= k < |stages| ==> StageValid(stages[k])
    requires StagesFit(stages, caches, s, last) && HasShape(g, last)
    ensures forall k :: 0 <= k < |stages| ==>
      && StageFits(stages[k], caches[k], caches[k].InputShape())
      && StagesFit(stages[k + 1..], caches[k + 1..], caches[k].out, last)
      && StagesBackward(stages, caches, s, last, g, lr).0[k]
         == StageBackward(stages[k], caches[k], caches[k].InputShape(), StagesBackward(stages[k + 1..], caches[k + 1..], caches[k].out, last, g, lr).1, lr).0
      && StagesFit(stages[k..], caches[k..], caches[k].InputShape(), last)
      && StagesBackward(stages[k..], caches[k..], caches[k].InputShape(), last, g, lr).1
         == StageBackward(stages[k], caches[k], caches[k].InputShape(), StagesBackward(stages[k + 1..], caches[k + 1..], caches[k].out, last, g, lr).1, lr).1
  {
    forall k | 0 <= k < |stages|
      ensures && StageFits(stages[k], caches[k], caches[k].InputShape())
              && StagesFit(stages[k + 1..], caches[k + 1..], caches[k].out, last)
              && StagesBackward(stages, caches, s, last, g, lr).0[k]
                 == StageBackward(stages[k], caches[k], caches[k].InputShape(), StagesBackward(stages[k + 1..], caches[k + 1..], caches[k].out, last, g, lr).1, lr).0
              && StagesFit(stages[k..], caches[k..], caches[k].InputShape(), last)
              && StagesBackward(stages[k..], caches[k..], caches[k].InputShape(), last, g, lr).1
                 == StageBackward(stages[k], caches[k], caches[k].InputShape(), StagesBackward(stages[k + 1..], caches[k + 1..], caches[k].out, last, g, lr).1, lr).1
    {
      StagesBackwardStep(stages, caches, s, last, g, lr, k);
      StagesSuffixStep(stages, caches, last, g, lr, k);
    }
  }

  lemma {:induction false} StagesBackwardStep(stages: seq<Stage>, caches: seq<StageCache>, s: Shape, last: Shape, g: Tensor4, lr: real, k: nat)
    requires forall k :: 0 <= k < |stages| ==> StageValid(stages[k])
    requires StagesFit(stages, caches, s, last) && HasShape(g, last)
    requires k < |stages|
    ensures StageFits(stages[k], caches[k], caches[k].InputShape())
    ensures StagesFit(stages[k + 1..], caches[k + 1..], caches[k].out, last)
    ensures StagesBackward(stages, caches, s, last, g, lr).0[k]
      == StageBackward(stages[k], caches[k], caches[k].InputShape(), StagesBackward(stages[k + 1..], caches[k + 1..], caches[k].out, last, g, lr).1, lr).0
    decreases k
  {
    if k == 0 {
      assert caches[0].InputShape() == s;
      assert stages[1..] == stages[0 + 1..] && caches[1..] == caches[0 + 1..];
    } else {
      StagesBackwardStep(stages[1..], caches[1..], caches[0].out, last, g, lr, k - 1);
      assert stages[1..][k - 1] == stages[k] && caches[1..][k - 1] == caches[k];
      assert stages[1..][k..] == stages[k + 1..] && caches[1..][k..] == caches[k + 1..];
    }
  }

  /** The stages from k on pass down what stage k's backward returns for the
      gradient the stages above it passed down. */
  lemma StagesSuffixStep(stages: seq<Stage>, caches: seq<StageCache>, last: Shape, g: Tensor4, lr: real, k: nat)
    requires k < |stages| == |caches| && HasShape(g, last)
    requires forall j :: k <= j < |stages| ==> StageValid(stages[j])
    requires StageFits(stages[k], caches[k], caches[k].InputShape())
    requires StagesFit(stages[k + 1..], caches[k + 1..], caches[k].out, last)
    ensures StagesFit(stages[k..], caches[k..], caches[k].InputShape(), last)
    ensures StagesBackward(stages[k..], caches[k..], caches[k].InputShape(), last, g, lr).1
      == StageBackward(stages[k], caches[k], caches[k].InputShape(), StagesBackward(stages[k + 1..], caches[k + 1..], caches[k].out, last, g, lr).1, lr).1
  {
    assert stages[k..][0] == stages[k] && caches[k..][0] == caches[k];
    assert stages[k..][1..] == stages[k + 1..] && caches[k..][1..] == caches[k + 1..];
  }

  /** Backward starts at the top: the last dense layer is stepped with the
      loss gradient itself, and the last stage with the input gradient of the
      dense chain unflattened into the recorded shape, which without dense
      layers is the loss gradient. */
  lemma BackwardStepsLast(model: Sequential, trace: Trace, s: Shape, classes: nat, g: Matrix, lr: real)
    requires model.Valid() && s.n > 0
    requires TraceFits(model, trace, s, classes) && IsMatrix(g, s.n, classes)
    ensures
      var r := Backward(model, trace, s, classes, g, lr);
      var nd := |model.dense|;
      var ns := |model.stages|;
      && LastDenseFits(model.dense, trace.denseCaches, s.n, classes)
      && LastStageFits(model.stages, trace.stageCaches, trace.lastShape)
      && (nd > 0 ==> r.dense[nd - 1] == DenseLayer.Backward(model.dense[nd - 1], trace.denseCaches[nd - 1], g, lr).0)
      && (nd == 0 ==> RowsCover(g, trace.lastShape))
      && (nd == 0 && ns > 0 ==>
            var c := trace.stageCaches[ns - 1];
            r.stages[ns - 1] == StageBackward(model.stages[ns - 1], c, c.InputShape(), Unflatten(g, trace.lastShape).value, lr).0)
    ensures
      var d := DenseBackward(model.dense, trace.denseCaches, s.n, FlatSize(trace.lastShape), classes, g, lr).1;
      && RowsCover(d, trace.lastShape)
      && StagesGradient(model, trace, s, classes, g, lr) == Unflatten(d, trace.lastShape).value
    ensures
      var r := Backward(model, trace, s, classes, g, lr);
      var ns := |model.stages|;
      ns > 0 ==>
        var c := trace.stageCaches[ns - 1];
        r.stages[ns - 1] == StageBackward(model.stages[ns - 1], c, c.InputShape(), StagesGradient(model, trace, s, classes, g, lr), lr).0
  {
    var nd := |model.dense|;
    var ns := |model.stages|;
    var d := DenseBackward(model.dense, trace.denseCaches, s.n, FlatSize(trace.lastShape), classes, g, lr);
    if nd > 0 {
      DenseBackwardStep(model.dense, trace.denseCaches, s.n, FlatSize(trace.lastShape), classes, g, lr, nd - 1);
      assert model.dense[nd..] == [] && trace.denseCaches[nd..] == [];
    }
    assert RowsCover(d.1, trace.lastShape);
    var gt := StagesGradient(model, trace, s, classes, g, lr);
    if ns > 0 {
      StagesBackwardStep(model.stages, trace.stageCaches, s, trace.lastShape, gt, lr, ns - 1);
      assert model.stages[ns..] == [] && trace.stageCaches[ns..] == [];
    }
  }

  /** Backward steps every dense layer of the network with the gradient the
      layers above it pass down, starting from the loss gradient. */
  lemma BackwardStepsDense(model: Sequential, trace: Trace, s: Shape, classes: nat, g: Matrix, lr: real)
    requires model.Valid() && s.n > 0
    requires TraceFits(model, trace, s, classes) && IsMatrix(g, s.n, classes)
    ensures
      var r := Backward(model, trace, s, classes, g, lr);
      var cs := trace.denseCaches;
      forall k :: 0 <= k < |model.dense| ==>
        && model.dense[k].Valid() && IsMatrix(cs[k].input, s.n, model.dense[k].fin)
        && DenseFit(model.dense[k + 1..], cs[k + 1..], s.n, model.dense[k].fout, classes)
        && r.dense[k]
           == DenseLayer.Backward(model.dense[k], cs[k], DenseBackward(model.dense[k + 1..], cs[k + 1..], s.n, model.dense[k].fout, classes, g, lr).1, lr).0
  {
    DenseBackwardSteps(model.dense, trace.denseCaches, s.n, FlatSize(trace.lastShape), classes, g, lr);
  }

  /** Backward steps every stage of the network with the gradient the stages
      above it pass down, starting from the input gradient of the dense chain
      unflattened into the recorded shape. */
  lemma BackwardStepsStages(model: Sequential, trace: Trace, s: Shape, classes: nat, g: Matrix, lr: real)
    requires model.Valid() && s.n > 0
    requires TraceFits(model, trace, s, classes) && IsMatrix(g, s.n, classes)
    ensures
      var r := Backward(model, trace, s, classes, g, lr);
      var gt := StagesGradient(model, trace, s, classes, g, lr);
      var cs := trace.stageCaches;
      var last := trace.lastShape;
      forall k :: 0 <= k < |model.stages| ==>
        && StageFits(model.stages[k], cs[k], cs[k].InputShape())
        && StagesFit(model.stages[k + 1..], cs[k + 1..], cs[k].out, last)
        && r.stages[k]
           == StageBackward(model.stages[k], cs[k], cs[k].InputShape(), StagesBackward(model.stages[k + 1..], cs[k + 1..], cs[k].out, last, gt, lr).1, lr).0
  {
    StagesBackwardSteps(model.stages, trace.stageCaches, s, trace.lastShape, StagesGradient(model, trace, s, classes, g, lr), lr);
  }

  /** A zero loss gradient changes no parameter of the network. */
  lemma BackwardZero(model: Sequential, trace: Trace, s: Shape, classes: nat, lr: real)
    requires model.Valid() && s.n > 0 && TraceFits(model, trace, s, classes)
    ensures Backward(model, trace, s, classes, ZeroMatrix(s.n, classes), lr) == model
  {
    var cols := FlatSize(trace.lastShape);
    DenseBackwardZero(model.dense, trace.denseCaches, s.n, cols, classes, lr);
    UnflattenZero(trace.lastShape);
    StagesBackwardZero(model.stages, trace.stageCaches, s, trace.lastShape, lr);
  }

  /** With a zero learning rate, backward returns the network it was given,
      whatever the loss gradient. */
  lemma BackwardNoRate(model: Sequential, trace: Trace, s: Shape, classes: nat, g: Matrix)
    requires model.Valid() && s.n > 0
    requires TraceFits(model, trace, s, classes) && IsMatrix(g, s.n, classes)
    ensures Backward(model, trace, s, classes, g, 0.0) == model
  {
    var d := DenseBackward(model.dense, trace.denseCaches, s.n, FlatSize(trace.lastShape), classes, g, 0.0);
    DenseBackwardNoRate(model.dense, trace.denseCaches, s.n, FlatSize(trace.lastShape), classes, g);
    StagesBackwardNoRate(model.stages, trace.stageCaches, s, trace.lastShape, StagesGradient(model, trace, s, classes, g, 0.0));
  }

  lemma {:induction false} DenseBackwardNoRate(layers: seq<DenseLayer.Dense>, caches: seq<DenseLayer.DenseCache>, rows: nat, cols: nat, outCols: nat, g: Matrix)
    requires rows > 0 && DenseFit(layers, caches, rows, cols, outCols) && IsMatrix(g, rows, outCols)
    ensures DenseBackward(layers, caches, rows, cols, outCols, g, 0.0).0 == layers
    decreases |layers|
  {
    if |layers| > 0 {
      var rest := DenseBackward(layers[1..], caches[1..], rows, layers[0].fout, outCols, g, 0.0);
      DenseBackwardNoRate(layers[1..], caches[1..], rows, layers[0].fout, outCols, g);
      DenseLayer.BackwardNoRate(layers[0], caches[0], rest.1);
      assert [layers[0]] + layers[1..] == layers;
    }
  }

  lemma {:induction false} StagesBackwardNoRate(stages: seq<Stage>, caches: seq<StageCache>, s: Shape, last: Shape, g: Tensor4)
    requires forall k :: 0 <= k < |stages| ==> StageValid(stages[k])
    requires StagesFit(stages, caches, s, last) && HasShape(g, last)
    ensures StagesBackward(stages, caches, s, last, g, 0.0).0 == stages
    decreases |stages|
  {
    if |stages| > 0 {
      var rest := StagesBackward(stages[1..], caches[1..], caches[0].out, last, g, 0.0);
      StagesBackwardNoRate(stages[1..], caches[1..], caches[0].out, last, g);
      assert [stages[0]] + stages[1..] == stages;
      match stages[0]
      case Conv(layer) =>
        Conv2dLayer.BackwardNoRate(layer, caches[0].convCache, rest.1);
      case Pool =>
    }
  }

  lemma {:induction false} DenseBackwardZero(layers: seq<DenseLayer.Dense>, caches: seq<DenseLayer.DenseCache>, rows: nat, cols: nat, outCols: nat, lr: real)
    requires rows > 0 && DenseFit(layers, caches, rows, cols, outCols)
    ensures DenseBackward(layers, caches, rows, cols, outCols, ZeroMatrix(rows, outCols), lr) == (layers, ZeroMatrix(rows, cols))
    decreases |layers|
  {
    if |layers| > 0 {
      DenseBackwardZero(layers[1..], caches[1..], rows, layers[0].fout, outCols, lr);
      DenseLayer.BackwardZero(layers[0], caches[0], ZeroMatrix(rows, layers[0].fout), lr);
      assert [layers[0]] + layers[1..] == layers;
    }
  }

  /** Unflattening zero rows gives the zero tensor. */
  lemma UnflattenZero(s: Shape)
    ensures Unflatten(ZeroMatrix(s.n, FlatSize(s)), s) == Success(Zeros(s))
  {
    var r := Unflatten(ZeroMatrix(s.n, FlatSize(s)), s).value;
    forall i, y, x, l | InShape(s, i, y, x, l)
      ensures At(r, i, y, x, l) == 0.0
    {
      BuildEntry(s, (i, j, k, l) => MAt(ZeroMatrix(s.n, FlatSize(s)), i, FlatIndex(s, j, k, l)), i, y, x, l);
    }
    AllZeroIsZeros(r, s);
  }

  lemma {:induction false} StagesBackwardZero(stages: seq<Stage>, caches: seq<StageCache>, s: Shape, last: Shape, lr: real)
    requires forall k :: 0 <= k < |stages| ==> StageValid(stages[k])
    requires StagesFit(stages, caches, s, last)
    ensures StagesBackward(stages, caches, s, last, Zeros(last), lr) == (stages, Zeros(s))
    decreases |stages|
  {
    ZerosAllZero(last);
    if |stages| > 0 {
      StagesBackwardZero(stages[1..], caches[1..], caches[0].out, last, lr);
      StageBackwardZero(stages[0], caches[0], s, lr);
      assert [stages[0]] + stages[1..] == stages;
    }
  }

  lemma StageBackwardZero(st: Stage, c: StageCache, s: Shape, lr: real)
    requires StageValid(st) && StageFits(st, c, s)
    ensures StageBackward(st, c, s, Zeros(c.out), lr) == (st, Zeros(s))
  {
    ZerosAllZero(c.out);
    match st
    case Conv(layer) =>
      Conv2dLayer.BackwardZero(layer, c.convCache, Zeros(c.out), lr);
    case Pool =>
      MaxPoolLayer.BackwardZero(c.poolCache, Zeros(c.out));
  }
}
