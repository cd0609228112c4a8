/** The convolutional layer: a valid (unpadded) cross-correlation with bias,
    followed by ReLU, and its hand-written backward pass with a plain SGD
    step on the raw (not batch-averaged) gradient sums. */
module Conv2dLayer {
  import opened Sums
  import opened Tensors
  import opened Outcomes

  /** A bank of cout kernels, each cin x kh x kw, stored (cout, cin, kh, kw),
      and one bias per output channel. */
  datatype Conv2d = Conv2d(cin: nat, cout: nat, kh: nat, kw: nat, weights: Tensor4, biases: seq<real>) {

    function WeightShape(): Shape {
      Shape(cout, cin, kh, kw)
    }

    predicate Valid() {
      HasShape(weights, WeightShape()) && |biases| == cout
    }

    /** Same configuration, possibly different parameter values. */
    predicate SameConfig(other: Conv2d) {
      cin == other.cin && cout == other.cout && kh == other.kh && kw == other.kw
    }
  }

  /** What forward leaves behind for the matching backward call: the input it
      saw and where the pre-activation was positive. */
  datatype ConvCache = ConvCache(input: Tensor4, inShape: Shape, mask: Tensor<bool>)

  datatype ConvStep = ConvStep(cache: ConvCache, output: Tensor4)

  /** The output extent H - kh + 1 (resp. W - kw + 1) is not negative. */
  predicate Fits(layer: Conv2d, s: Shape) {
    layer.kh <= s.h + 1 && layer.kw <= s.w + 1
  }

  function OutShape(layer: Conv2d, s: Shape): Shape
    requires Fits(layer, s)
  {
    Shape(s.n, s.h + 1 - layer.kh, s.w + 1 - layer.kw, layer.cout)
  }

  /** The kernel of output channel oc laid over input sample i at (h, w),
      over the c channels of the input. */
  function Correlate(layer: Conv2d, x: Tensor4, c: nat, i: int, h: int, w: int, oc: int): real {
    Sum3(c, layer.kh, layer.kw, (ic, a, b) => At(x, i, h + a, w + b, ic) * At(layer.weights, oc, ic, a, b))
  }

  function PreActivation(layer: Conv2d, x: Tensor4, s: Shape, i: int, h: int, w: int, oc: int): real {
    Correlate(layer, x, s.c, i, h, w, oc) + VAt(layer.biases, oc)
  }

  /** The kernel index ic reaches past the kernel bank: the input has more
      channels than the layer was built for and the loops are entered. */
  predicate ChannelOverrun(layer: Conv2d, s: Shape)
    requires Fits(layer, s)
  {
    var o := OutShape(layer, s);
    s.c > layer.cin && o.n > 0 && o.h > 0 && o.w > 0 && o.c > 0 && layer.kh > 0 && layer.kw > 0
  }

  /** Forward pass (main.py:57-94). */
  function Forward(layer: Conv2d, x: Tensor4, s: Shape): (r: Result<ConvStep>)
    requires layer.Valid() && HasShape(x, s)
    ensures r.Failure? <==> !Fits(layer, s) || ChannelOverrun(layer, s)
    ensures r.Failure? ==> (r.error == NegativeDimension <==> !Fits(layer, s))
    ensures r.Success? ==> Fits(layer, s) && CacheFits(layer, r.value.cache) && r.value.cache.input == x && r.value.cache.inShape == s
    ensures r.Success? ==> HasShape(r.value.output, OutShape(layer, s))
    ensures r.Success? ==> forall i, h, w, oc :: InShape(OutShape(layer, s), i, h, w, oc) ==>
      var pre := PreActivation(layer, x, s, i, h, w, oc);
      && r.value.output[i][h][w][oc] >= 0.0
      && (r.value.cache.mask[i][h][w][oc] <==> pre > 0.0)
      && r.value.output[i][h][w][oc] == (if r.value.cache.mask[i][h][w][oc] then pre else 0.0)
  {
    if !Fits(layer, s) then Failure(NegativeDimension)
    else if ChannelOverrun(layer, s) then Failure(ChannelMismatch)
    else
      var o := OutShape(layer, s);
      var mask := Build(o, (i, h, w, oc) => PreActivation(layer, x, s, i, h, w, oc) > 0.0);
      var out := Build(o, (i, h, w, oc) => Relu(PreActivation(layer, x, s, i, h, w, oc)));
      Success(ConvStep(ConvCache(x, s, mask), out))
  }

  /** The cache is one a successful forward of this layer could have left. */
  predicate CacheFits(layer: Conv2d, cache: ConvCache) {
    && HasShape(cache.input, cache.inShape)
    && Fits(layer, cache.inShape)
    && !ChannelOverrun(layer, cache.inShape)
    && HasShape(cache.mask, OutShape(layer, cache.inShape))
  }

  function MaskAt(mask: Tensor<bool>, i: int, h: int, w: int, oc: int): bool {
    0 <= i < |mask| && 0 <= h < |mask[i]| && 0 <= w < |mask[i][h]| && 0 <= oc < |mask[i][h][w]| && mask[i][h][w][oc]
  }

  /** The upstream gradient with the positions ReLU clipped zeroed. */
  function Masked(cache: ConvCache, g: Tensor4, i: int, h: int, w: int, oc: int): real {
    if MaskAt(cache.mask, i, h, w, oc) then At(g, i, h, w, oc) else 0.0
  }

  /** Sum of the masked gradient of channel oc over batch and positions. */
  function BiasGrad(layer: Conv2d, cache: ConvCache, g: Tensor4, oc: int): real
    requires CacheFits(layer, cache)
  {
    var o := OutShape(layer, cache.inShape);
    Sum3(o.n, o.h, o.w, (i, h, w) => Masked(cache, g, i, h, w, oc))
  }

  /** Sum over batch and positions of input value times masked gradient. */
  function WeightGrad(layer: Conv2d, cache: ConvCache, g: Tensor4, oc: int, ic: int, a: int, b: int): real
    requires CacheFits(layer, cache)
  {
    var o := OutShape(layer, cache.inShape);
    Sum3(o.n, o.h, o.w, (i, h, w) => At(cache.input, i, h + a, w + b, ic) * Masked(cache, g, i, h, w, oc))
  }

  /** The transposed convolution: input position (y, x) collects, from every
      output position (y - a, x - b) its kernel offset (a, b) reaches it from,
      the kernel coefficient times the masked gradient there. Positions
      outside the output read as zero. */
  function InputGrad(layer: Conv2d, cache: ConvCache, g: Tensor4, i: int, y: int, x: int, ic: int): real {
    Sum3(layer.cout, layer.kh, layer.kw, (oc, a, b) => At(layer.weights, oc, ic, a, b) * Masked(cache, g, i, y - a, x - b, oc))
  }

  /** Backward pass (main.py:97-131): the gradient for the previous layer,
      computed with the weights as they were before this call, and the layer
      after one step of size lr along the raw gradient sums. */
  function Backward(layer: Conv2d, cache: ConvCache, g: Tensor4, lr: real): (r: (Conv2d, Tensor4))
    requires layer.Valid() && CacheFits(layer, cache)
    requires HasShape(g, OutShape(layer, cache.inShape))
    ensures r.0.Valid() && r.0.SameConfig(layer)
    ensures HasShape(r.1, cache.inShape)
    ensures forall i, y, x, ic :: InShape(cache.inShape, i, y, x, ic) ==>
      r.1[i][y][x][ic] == InputGrad(layer, cache, g, i, y, x, ic)
    ensures forall oc :: 0 <= oc < layer.cout ==>
      r.0.biases[oc] == layer.biases[oc] - lr * BiasGrad(layer, cache, g, oc)
    ensures forall oc, ic, a, b :: InShape(layer.WeightShape(), oc, ic, a, b) ==>
      r.0.weights[oc][ic][a][b] == layer.weights[oc][ic][a][b] - lr * WeightGrad(layer, cache, g, oc, ic, a, b)
  {
    (layer.(weights := StepWeights(layer, cache, g, lr), biases := StepBiases(layer, cache, g, lr)), InputGradTensor(layer, cache, g))
  }

  function InputGradTensor(layer: Conv2d, cache: ConvCache, g: Tensor4): Tensor4 {
    Build(cache.inShape, (i, y, x, ic) => InputGrad(layer, cache, g, i, y, x, ic))
  }

  function StepWeights(layer: Conv2d, cache: ConvCache, g: Tensor4, lr: real): Tensor4
    requires CacheFits(layer, cache)
  {
    Build(layer.WeightShape(), (oc, ic, a, b) => At(layer.weights, oc, ic, a, b) - lr * WeightGrad(layer, cache, g, oc, ic, a, b))
  }

  function StepBiases(layer: Conv2d, cache: ConvCache, g: Tensor4, lr: real): seq<real>
    requires CacheFits(layer, cache)
  {
    seq(layer.cout, oc => VAt(layer.biases, oc) - lr * BiasGrad(layer, cache, g, oc))
  }

  /** The upstream gradient vanishes wherever ReLU let the value through. */
  ghost predicate MaskedZero(layer: Conv2d, cache: ConvCache, g: Tensor4)
    requires CacheFits(layer, cache)
  {
    forall i, h, w, oc :: InShape(OutShape(layer, cache.inShape), i, h, w, oc) ==>
      !cache.mask[i][h][w][oc] || At(g, i, h, w, oc) == 0.0
  }

  lemma MaskedVanishes(layer: Conv2d, cache: ConvCache, g: Tensor4)
    requires CacheFits(layer, cache) && MaskedZero(layer, cache, g)
    ensures forall i, h, w, oc :: Masked(cache, g, i, h, w, oc) == 0.0
  {
    var o := OutShape(layer, cache.inShape);
    forall i, h, w, oc
      ensures Masked(cache, g, i, h, w, oc) == 0.0
    {
      if MaskAt(cache.mask, i, h, w, oc) {
        assert InShape(o, i, h, w, oc);
      }
    }
  }

  /** A zero learning rate changes no parameter, whatever the gradient. */
  lemma BackwardNoRate(layer: Conv2d, cache: ConvCache, g: Tensor4)
    requires layer.Valid() && CacheFits(layer, cache)
    requires HasShape(g, OutShape(layer, cache.inShape))
    ensures Backward(layer, cache, g, 0.0).0 == layer
  {
    var r := Backward(layer, cache, g, 0.0).0;
    TensorExt(r.weights, layer.weights, layer.WeightShape());
    assert r.biases == layer.biases;
  }

  /** A zero masked gradient changes no parameter and sends back zeros. */
  lemma BackwardZero(layer: Conv2d, cache: ConvCache, g: Tensor4, lr: real)
    requires layer.Valid() && CacheFits(layer, cache)
    requires HasShape(g, OutShape(layer, cache.inShape))
    requires MaskedZero(layer, cache, g)
    ensures Backward(layer, cache, g, lr) == (layer, Zeros(cache.inShape))
  {
    MaskedVanishes(layer, cache, g);
    InputGradZero(layer, cache, g);
    StepWeightsZero(layer, cache, g, lr);
    StepBiasesZero(layer, cache, g, lr);
  }

  lemma InputGradZero(layer: Conv2d, cache: ConvCache, g: Tensor4)
    requires forall i, h, w, oc :: Masked(cache, g, i, h, w, oc) == 0.0
    ensures InputGradTensor(layer, cache, g) == Zeros(cache.inShape)
  {
    forall i, y, x, ic | InShape(cache.inShape, i, y, x, ic)
      ensures InputGrad(layer, cache, g, i, y, x, ic) == 0.0
    {
      Sum3Zero(layer.cout, layer.kh, layer.kw, (oc, a, b) => At(layer.weights, oc, ic, a, b) * Masked(cache, g, i, y - a, x - b, oc));
    }
    BuildExt(cache.inShape, (i, y, x, ic) => InputGrad(layer, cache, g, i, y, x, ic), (i, y, x, l) => 0.0);
  }

  lemma StepWeightsZero(layer: Conv2d, cache: ConvCache, g: Tensor4, lr: real)
    requires layer.Valid() && CacheFits(layer, cache)
    requires forall i, h, w, oc :: Masked(cache, g, i, h, w, oc) == 0.0
    ensures StepWeights(layer, cache, g, lr) == layer.weights
  {
    var o := OutShape(layer, cache.inShape);
    forall oc, ic, a, b | InShape(layer.WeightShape(), oc, ic, a, b)
      ensures WeightGrad(layer, cache, g, oc, ic, a, b) == 0.0
    {
      Sum3Zero(o.n, o.h, o.w, (i, h, w) => At(cache.input, i, h + a, w + b, ic) * Masked(cache, g, i, h, w, oc));
    }
    BuildExt(layer.WeightShape(),
      (oc, ic, a, b) => At(layer.weights, oc, ic, a, b) - lr * WeightGrad(layer, cache, g, oc, ic, a, b),
      (oc, ic, a, b) => At(layer.weights, oc, ic, a, b));
    BuildAt(layer.weights, layer.WeightShape());
  }

  lemma StepBiasesZero(layer: Conv2d, cache: ConvCache, g: Tensor4, lr: real)
    requires layer.Valid() && CacheFits(layer, cache)
    requires forall i, h, w, oc :: Masked(cache, g, i, h, w, oc) == 0.0
    ensures StepBiases(layer, cache, g, lr) == layer.biases
  {
    var o := OutShape(layer, cache.inShape);
    forall oc | 0 <= oc < layer.cout
      ensures BiasGrad(layer, cache, g, oc) == 0.0
    {
      Sum3Zero(o.n, o.h, o.w, (i, h, w) => Masked(cache, g, i, h, w, oc));
    }
  }

  /** Gradient entries where the forward output was clipped are never read:
      two upstream gradients that agree where the mask is set give the same
      parameters and the same input gradient. */
  lemma BackwardIgnoresClipped(layer: Conv2d, cache: ConvCache, g1: Tensor4, g2: Tensor4, lr: real)
    requires layer.Valid() && CacheFits(layer, cache)
    requires HasShape(g1, OutShape(layer, cache.inShape)) && HasShape(g2, OutShape(layer, cache.inShape))
    requires forall i, h, w, oc :: InShape(OutShape(layer, cache.inShape), i, h, w, oc) && cache.mask[i][h][w][oc] ==>
      g1[i][h][w][oc] == g2[i][h][w][oc]
    ensures Backward(layer, cache, g1, lr) == Backward(layer, cache, g2, lr)
  {
    var o := OutShape(layer, cache.inShape);
    forall i, h, w, oc
      ensures Masked(cache, g1, i, h, w, oc) == Masked(cache, g2, i, h, w, oc)
    {
      if MaskAt(cache.mask, i, h, w, oc) {
        assert InShape(o, i, h, w, oc);
      }
    }
    SameMaskedSameGrads(layer, cache, g1, g2, lr);
  }

  lemma SameMaskedSameGrads(layer: Conv2d, cache: ConvCache, g1: Tensor4, g2: Tensor4, lr: real)
    requires layer.Valid() && CacheFits(layer, cache)
    requires forall i, h, w, oc :: Masked(cache, g1, i, h, w, oc) == Masked(cache, g2, i, h, w, oc)
    ensures InputGradTensor(layer, cache, g1) == InputGradTensor(layer, cache, g2)
    ensures StepWeights(layer, cache, g1, lr) == StepWeights(layer, cache, g2, lr)
    ensures StepBiases(layer, cache, g1, lr) == StepBiases(layer, cache, g2, lr)
  {
    SameMaskedSameInputGrad(layer, cache, g1, g2);
    SameMaskedSameWeights(layer, cache, g1, g2, lr);
    var o := OutShape(layer, cache.inShape);
    forall oc | 0 <= oc < layer.cout
      ensures BiasGrad(layer, cache, g1, oc) == BiasGrad(layer, cache, g2, oc)
    {
      Sum3Ext(o.n, o.h, o.w, (i, h, w) => Masked(cache, g1, i, h, w, oc), (i, h, w) => Masked(cache, g2, i, h, w, oc));
    }
    assert forall oc :: 0 <= oc < layer.cout ==> StepBiases(layer, cache, g1, lr)[oc] == StepBiases(layer, cache, g2, lr)[oc];
  }

  lemma SameMaskedSameInputGrad(layer: Conv2d, cache: ConvCache, g1: Tensor4, g2: Tensor4)
    requires forall i, h, w, oc :: Masked(cache, g1, i, h, w, oc) == Masked(cache, g2, i, h, w, oc)
    ensures InputGradTensor(layer, cache, g1) == InputGradTensor(layer, cache, g2)
  {
    forall i, y, x, ic | InShape(cache.inShape, i, y, x, ic)
      ensures InputGrad(layer, cache, g1, i, y, x, ic) == InputGrad(layer, cache, g2, i, y, x, ic)
    {
      Sum3Ext(layer.cout, layer.kh, layer.kw,
        (oc, a, b) => At(layer.weights, oc, ic, a, b) * Masked(cache, g1, i, y - a, x - b, oc),
        (oc, a, b) => At(layer.weights, oc, ic, a, b) * Masked(cache, g2, i, y - a, x - b, oc));
    }
    BuildExt(cache.inShape, (i, y, x, ic) => InputGrad(layer, cache, g1, i, y, x, ic), (i, y, x, ic) => InputGrad(layer, cache, g2, i, y, x, ic));
  }

  lemma SameMaskedSameWeights(layer: Conv2d, cache: ConvCache, g1: Tensor4, g2: Tensor4, lr: real)
    requires CacheFits(layer, cache)
    requires forall i, h, w, oc :: Masked(cache, g1, i, h, w, oc) == Masked(cache, g2, i, h, w, oc)
    ensures StepWeights(layer, cache, g1, lr) == StepWeights(layer, cache, g2, lr)
  {
    var o := OutShape(layer, cache.inShape);
    forall oc, ic, a, b | InShape(layer.WeightShape(), oc, ic, a, b)
      ensures WeightGrad(layer, cache, g1, oc, ic, a, b) == WeightGrad(layer, cache, g2, oc, ic, a, b)
    {
      Sum3Ext(o.n, o.h, o.w,
        (i, h, w) => At(cache.input, i, h + a, w + b, ic) * Masked(cache, g1, i, h, w, oc),
        (i, h, w) => At(cache.input, i, h + a, w + b, ic) * Masked(cache, g2, i, h, w, oc));
    }
    BuildExt(layer.WeightShape(),
      (oc, ic, a, b) => At(layer.weights, oc, ic, a, b) - lr * WeightGrad(layer, cache, g1, oc, ic, a, b),
      (oc, ic, a, b) => At(layer.weights, oc, ic, a, b) - lr * WeightGrad(layer, cache, g2, oc, ic, a, b));
  }

  /** A single-channel kernel with one coefficient 1 at (a0, b0), all others
      0, and zero bias. */
  function PointKernel(kh: nat, kw: nat, a0: nat, b0: nat): Conv2d {
    Conv2d(1, 1, kh, kw, Build(Shape(1, 1, kh, kw), (oc, ic, a, b) => if a == a0 && b == b0 then 1.0 else 0.0), [0.0])
  }

  /** Forward with a point kernel copies the input window shifted by
      (a0, b0), ReLU-clipped: with a0, b0 at the kernel centre this is the
      cropped input. */
  lemma PointKernelCrops(kh: nat, kw: nat, a0: nat, b0: nat, x: Tensor4, s: Shape)
    requires a0 < kh && b0 < kw
    requires s.c == 1 && HasShape(x, s) && kh <= s.h + 1 && kw <= s.w + 1
    ensures Forward(PointKernel(kh, kw, a0, b0), x, s).Success?
    ensures forall i, h, w :: InShape(OutShape(PointKernel(kh, kw, a0, b0), s), i, h, w, 0) ==>
      Forward(PointKernel(kh, kw, a0, b0), x, s).value.output[i][h][w][0] == Relu(x[i][h + a0][w + b0][0])
  {
    var k := PointKernel(kh, kw, a0, b0);
    var o := OutShape(k, s);
    forall i, h, w | InShape(o, i, h, w, 0)
      ensures PreActivation(k, x, s, i, h, w, 0) == x[i][h + a0][w + b0][0]
    {
      PointKernelPre(kh, kw, a0, b0, x, s, i, h, w);
    }
  }

  lemma PointKernelPre(kh: nat, kw: nat, a0: nat, b0: nat, x: Tensor4, s: Shape, i: int, h: int, w: int)
    requires a0 < kh && b0 < kw
    requires s.c == 1 && HasShape(x, s) && kh <= s.h + 1 && kw <= s.w + 1
    requires InShape(OutShape(PointKernel(kh, kw, a0, b0), s), i, h, w, 0)
    ensures PreActivation(PointKernel(kh, kw, a0, b0), x, s, i, h, w, 0) == x[i][h + a0][w + b0][0]
  {
    var k := PointKernel(kh, kw, a0, b0);
    var f := (ic, a, b) => At(x, i, h + a, w + b, ic) * At(k.weights, 0, ic, a, b);
    Sum3Single(1, kh, kw, 0, a0, b0, f);
  }
}
