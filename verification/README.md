# A verified model of a from-scratch NumPy CNN

This project models, in Dafny, the core of a small convolutional neural
network written in Python and NumPy (`main.py`). The core has five parts:

- the two loss functions, cross-entropy and its gradient;
- the three layer kinds: a valid 2-D convolution with ReLU, 2x2 max pooling
  and a dense layer with ReLU or softmax, each with its forward pass and its
  hand-written backward pass and SGD step;
- the `Sequential` container, which chains the stages, flattens into the
  dense part and unflattens the gradient on the way back;
- the mini-batch loop of `fit`;
- the epoch loss that `fit` reports.

Everything is a pure function over immutable values.

- Tensors are `seq<seq<seq<seq<real>>>>`, each paired with an explicit
  `Shape(n, h, w, c)`.
- A layer's backward pass returns the updated layer together with the
  gradient for the layer before it. The original updates the layer in place
  instead.
- What a forward pass stores on the layer object (its input, the ReLU mask,
  the pre-activation `z`, the last convolutional shape) is an explicit cache
  value (`ConvCache`, `PoolCache`, `DenseCache`, `Network.Trace`). The
  matching backward pass takes that cache as an argument.
- NumPy's runtime errors are values of a `Result` type. These errors are:
  - a negative output dimension;
  - a kernel bank too small for the input's channels;
  - a feature row of the wrong width;
  - an unknown activation tag;
  - a softmax over an empty matrix;
  - a label outside the class range;
  - an unflatten that reads past a row.
- `exp` and `log` are parameters. The model assumes only that `exp` is
  positive, and that `exp` or `log` is monotone where a lemma says so.

Modules:

| module | file | contents |
|---|---|---|
| `Outcomes` | outcomes.dfy | `Error`, `Result` |
| `Loops` | loops.dfy | the loop shape of `fit`: steps in order, stop at the first failure, one figure per step |
| `Sums` | sums.dfy | finite sums `Sum(n, f)` and their algebra |
| `Arith` | arith.dfy | monotonicity of multiplication, Euclidean division facts |
| `Tensors` | tensors.dfy | shapes, total accessors, builders, zero tensors, extensionality |
| `Extrema` | extrema.dfy | maximum and first argmax of a sequence |
| `Conv2dLayer` | conv2d.dfy | `Conv2d.forward` / `backward` |
| `MaxPoolLayer` | maxpool.dfy | `MaxPooling2D.forward` / `backward` |
| `DenseLayer` | dense.dfy | `Dense.forward` / `backward` / `activation_function` |
| `Loss` | loss.dfy | `cross_entropy_loss`, `cross_entropy_gradient` |
| `Reshape` | reshape.dfy | `flatten`, the flattened batch, `unflatten` |
| `Network` | network.dfy | `Sequential.forward` / `backward` |
| `Batching` | batching.dfy | the batch schedule of `fit` and the epoch loss |
| `Training` | training.dfy | a batch step, an epoch, `fit` |

Two things the code does are easy to miss, and the model keeps them as
written:

- `Dense.backward` never reads the stored pre-activation `z`. No ReLU
  derivative is applied to the gradient that reaches a ReLU dense layer, so
  that gradient is treated as the gradient with respect to the
  pre-activation. `Dense.forward` stores `z` (main.py:154);
  `Dense.backward` (main.py:158-179) never reads it.
- The convolution's weight and bias steps are raw sums over the batch. The
  dense layer divides its sums by the batch size.

The epoch loss is not kept as written. `fit` weights every batch by
`end - start + 1` (see Findings). `Training` returns the corrected,
size-weighted figure `Batching.EpochLoss`. The figure `fit` prints is
`Batching.EpochLossAsWritten` of the same batch losses.

## Model

| member | source | states |
|---|---|---|
| Loss.CrossEntropyGradient | main.py:30-40 | Succeeds exactly when every label lies in [-C, C), where numpy accepts a negative index and counts it from the end. Otherwise it fails with LabelOutOfRange. Each entry times the batch size, plus 1 at the row's label column, gives back the prediction. |
| Loss.GradientRowsSumToZero | main.py:30-40 | When a prediction row sums to 1, as a softmax row does, the matching gradient row sums to 0. |
| Loss.GradientSigns | main.py:30-40 | For probabilities in [0, 1], the gradient is at most 0 at the label column and at least 0 everywhere else. |
| Loss.GradientExample | main.py:30-40 | The row (0.7, 0.1, 0.2) with label 0, and with label -3, gives (-0.3, 0.1, 0.2). Label 3 is rejected. |
| Loss.CrossEntropyLoss | main.py:17-28 | Fails exactly when some label is out of range. Otherwise the loss times the batch size is minus the sum of log(p[label] + 1e-15). |
| Loss.LossBoundedByConfidence | main.py:17-28 | If log is non-decreasing and every label gets probability at least q, the loss is at most -log(q + 1e-15). |
| Conv2dLayer.Forward | main.py:57-94 | Fails with NegativeDimension when the kernel is larger than the input plus one. Fails with ChannelMismatch when the input has more channels than the kernel bank and the loops run. Otherwise: output shape (n, H-kh+1, W-kw+1, cout); every output is non-negative; the mask holds exactly where the pre-activation is positive; the output is the pre-activation there and 0 elsewhere. |
| Conv2dLayer.PointKernelCrops | main.py:57-94 | Independent check of forward: a kernel with a single coefficient 1 at (a0, b0) and bias 0 outputs the input shifted by (a0, b0), ReLU-clipped. |
| Conv2dLayer.Backward | main.py:97-131 | Keeps the configuration. Computes the input gradient as the transposed correlation of the masked upstream gradient with the old weights. Each weight and bias moves by lr times its unaveraged gradient sum. |
| Conv2dLayer.BackwardIgnoresClipped | main.py:107-108 | Two upstream gradients that agree wherever the ReLU mask is set give the same layer and the same input gradient. |
| Conv2dLayer.BackwardZero | main.py:97-131 | A gradient that is zero wherever the mask is set leaves the layer unchanged and sends back zeros. |
| Conv2dLayer.BackwardNoRate | main.py:128-130 | With learning rate 0, every parameter is unchanged, whatever the gradient. |
| MaxPoolLayer.Forward | main.py:203-230 | Output shape (n, H div 2, W div 2, C). Each output bounds the four entries of its 2x2 window and equals one of them. |
| MaxPoolLayer.RoutedToMaximum | main.py:203-252 | The window entry that backward selects is the value forward reported as the window's maximum. |
| MaxPoolLayer.Backward | main.py:233-252 | The input gradient has the input's shape. What it holds is stated by BackwardRoutesToFirstMax, BackwardOutsideZero and BackwardConservesSum. |
| MaxPoolLayer.BackwardRoutesToFirstMax | main.py:233-252 | Inside each window, the input gradient is the upstream value at the first maximum in row-major order, as argmax picks it, and 0 at the other three entries. |
| MaxPoolLayer.BackwardOutsideZero | main.py:233-252 | An odd trailing row or column lies in no window and gets gradient 0. |
| MaxPoolLayer.BackwardConservesSum | main.py:233-252 | The entries of the input gradient sum to the entries of the upstream gradient. |
| MaxPoolLayer.BackwardZero | main.py:233-252 | A zero upstream gradient gives a zero input gradient. |
| DenseLayer.Softmax | main.py:189-191 | Every entry of a softmax row is positive and the row sums to 1. |
| DenseLayer.SoftmaxShiftInvariant | main.py:189-191 | Adding a constant to every entry of a row leaves its softmax unchanged. This is why subtracting the row maximum is harmless. |
| DenseLayer.SoftmaxMonotone | main.py:189-191 | With an increasing exp, softmax keeps the strict order of a row's entries. |
| DenseLayer.Activate | main.py:183-193 | An unknown tag fails with UnsupportedActivation. A softmax over no rows or no columns fails with EmptyReduction. ReLU keeps positive entries and zeroes the others. Softmax rows are positive and sum to 1. |
| DenseLayer.Forward | main.py:145-156 | Fails with FeatureMismatch when the rows are not fin wide. Otherwise it stores the input and the pre-activation z, where z[i][oc] is row i times weight column oc plus the bias. The output is the activation of z. |
| DenseLayer.Backward | main.py:158-179 | Keeps the configuration. The input gradient uses the old weights and is not averaged. Weights and biases move by lr times the batch-averaged gradients. |
| DenseLayer.InputGradIsAdjoint | main.py:165-170 | The input gradient is the adjoint of the layer's linear part: <dIn, u> = <g, u W> for every u. |
| DenseLayer.BackwardStepIsAveragedAccumulation | main.py:164-178 | The weight step is lr times the sum over examples of the outer products x[i] (x) g[i], accumulated one example at a time, divided by B. The bias step is the same for the rows g[i]. |
| DenseLayer.BackwardZero | main.py:158-179 | A zero upstream gradient leaves the layer unchanged and sends back zeros. |
| DenseLayer.BackwardNoRate | main.py:175-178 | With learning rate 0, every parameter is unchanged, whatever the gradient. |
| Reshape.FlattenImageAt | main.py:336-337 | The flattened sample holds entry (j, k, l) at position (j W + k) C + l. |
| Reshape.FlattenImageLength | main.py:336-337 | A flattened sample has H W C entries. |
| Reshape.FlattenBatchShape | main.py:312-316 | The flattened batch has one row of H W C entries per sample, and row i holds entry (i, j, k, l) at position (j W + k) C + l. |
| Reshape.IndexSplits | main.py:347-353 | Every position of a row is the flat index of exactly the (j, k, l) that division recovers, so the running index of unflatten visits every position once. |
| Reshape.Unflatten | main.py:339-354 | Fails with RowTooShort exactly when H W C > 0 and either there are fewer rows than samples or some row is shorter than H W C; when H W C = 0 no row is read and it succeeds. Otherwise the result has the recorded shape. |
| Reshape.UnflattenFlatten | main.py:310-354 | Unflattening the flattened batch gives the batch back. |
| Reshape.FlattenUnflatten | main.py:310-354 | Rows of exactly H W C entries survive unflatten followed by flatten. |
| Network.StagesForward | main.py:305-308 | Succeeds exactly when every stage accepts the shape the stages before it produce (StagesAccept): a convolution needs a non-negative output extent and, once its loops run, no more input channels than its kernels have. Each stage's cache fits the shape it received, and the output has the shape StagesOutShape, with the same batch size. |
| Network.DenseForward | main.py:315-319 | Succeeds exactly when every layer accepts what reaches it (DenseAccepts): the rows are fin wide, the activation is relu or softmax, and a softmax has a row and a column to reduce. The output width is the last layer's fout, or the input width when there is no dense layer. With a softmax last layer, every output row sums to 1. |
| Network.Forward | main.py:299-321 | On success, the trace fits the network, the output is an n x classes matrix, and with a softmax last layer every prediction row sums to 1. |
| Network.ForwardSucceeds | main.py:299-321 | A forward pass succeeds exactly when the model accepts the batch shape (Accepts): the stages accept it and the dense layers accept the flattened rows. The recorded last shape is the one the stages produce. |
| Network.AcceptsSameConfig | main.py:299-321 | Whether a model accepts a batch, and the width it produces, depend only on its configuration and on the shape of one image, not on its parameters or the number of images. So training, which keeps the configuration, never changes whether a batch is accepted. |
| Network.StagesForwardRuns | main.py:305-308 | The stage caches record one run: each is what its stage's forward leaves for the input recorded in it, the first stage received the images, every later stage the output of the one before, and the result is the last stage's output. |
| Network.DenseForwardRuns | main.py:315-319 | The dense caches record one run in the same sense: the first layer received the flattened rows, every later layer the output of the one before, and the result is the last layer's output. |
| Network.ForwardRuns | main.py:299-321 | A successful forward pass is one run: the stages ran on the images and produced some y, and the dense layers ran on the flattened rows of y and produced the predictions. |
| Network.Backward | main.py:323-334 | The result is a valid network with the same configuration: the same stages and the same layer sizes and activations. |
| Network.DenseBackwardSteps | main.py:326-328 | Dense layer k is stepped, with its own cache, by the input gradient that the layers above it pass down; the top layer gets the loss gradient itself. What the layers from k on pass down is the input gradient that layer k's own backward returns for that gradient. |
| Network.StagesBackwardSteps | main.py:333-334 | Stage k is stepped, with its own cache and input shape, by the input gradient that the stages above it pass down; the last stage gets the gradient the loop was given. What the stages from k on pass down is the input gradient that stage k's own backward returns for that gradient. |
| Network.BackwardStepsLast | main.py:323-334 | The last dense layer is stepped with the loss gradient. The gradient handed to the stages is the input gradient of the whole dense chain unflattened into the recorded shape, and the last stage is stepped with it; without dense layers, that is the loss gradient unflattened. |
| Network.BackwardStepsDense | main.py:326-328 | In the network, dense layer k is stepped, with its own cache, by the input gradient the dense layers above it pass down from the loss gradient. |
| Network.BackwardStepsStages | main.py:330-334 | In the network, stage k is stepped, with its own cache and input shape, by the input gradient the stages above it pass down from the dense chain's unflattened input gradient. |
| Network.BackwardZero | main.py:323-334 | A zero loss gradient leaves every parameter of the network unchanged. |
| Network.BackwardNoRate | main.py:323-334 | With learning rate 0, backward returns the network it was given, whatever the gradient. |
| Batching.Batches | main.py:277-281 | There are ceil(n / bs) batches; BatchesPartition and Schedule state which. |
| Batching.BatchBounds | main.py:278-279 | Batch k starts at k bs and ends at k bs + bs, or at n when that is smaller. |
| Batching.CountBounds | main.py:276-280 | Batch i exists exactly when its start i * bs is below n. |
| Batching.Schedule | main.py:276-281 | The loop over range(n), with its break, produces exactly the batch list Batches(n, bs). |
| Batching.CountAtMost | main.py:276-280 | There are at most n batches, so range(n) never cuts the schedule short. |
| Batching.BatchesPartition | main.py:276-281 | The batches are non-empty, in order and contiguous from 0 to n, and all but the last hold exactly bs samples. There are none exactly when n is 0. |
| Batching.SampleInOneBatch | main.py:276-281 | Every sample j < n lies in batch j div bs and in no other. |
| Batching.EpochLossAsWritten | main.py:285-290 | The printed figure exceeds the size-weighted epoch loss EpochLoss by the sum of the batch losses divided by n. |
| Batching.AsWrittenCounterexample | main.py:285 | One sample, batch size 1, loss 1: the source prints 2, while the size-weighted loss is 1. |
| Batching.EpochLossIsSampleMean | main.py:285-290 | With size weights, the epoch loss EpochLoss of the batch means is the mean of the per-sample losses over all n samples, whatever the batch size. |
| Loops.Fold | main.py:271-285 | A successful loop ends in a state every step preserves and records one figure per element. |
| Loops.FoldSteps | main.py:271-285 | Step k starts from the state the first k steps left, leads to the state the first k + 1 steps leave, and records the figure in place k; the first k figures are those of the first k steps. |
| Loops.FoldSucceeds | main.py:271-285 | A loop whose every step succeeds from every state the steps preserve runs to the end. |
| Loops.FoldCountSteps | main.py:271 | FoldSteps for a loop over 1, ..., n, as range(1, epochs + 1) is. |
| Training.TrainBatch | main.py:282-285 | A forward error propagates unchanged. Otherwise the step succeeds exactly when the batch's labels are in range. The loss is the cross-entropy of the predictions the model made before the step, and the new network is backward applied to the cross-entropy gradient of those predictions. It keeps validity and configuration, and with learning rate 0 the network is unchanged. |
| Training.TrainBatchSucceeds | main.py:282-285 | A batch step, from any network with the model's configuration, succeeds exactly when the model accepts the images and every label of the batch lies in the range of classes it produces. |
| Training.StepOnPass | main.py:283-285 | Given the forward pass, the step succeeds exactly when the labels are in range. It reports the cross-entropy of the pass's predictions and steps the network with backward on their gradient. |
| Training.LossIsBatchMean | main.py:17-28 | The loss a step reports is the mean over the batch of the per-sample losses -log(p[label] + 1e-15). |
| Training.BatchGradientRowsSumToZero | main.py:282-284 | With a softmax last layer, every row of the gradient that starts a backward pass sums to 0. |
| Training.RunBatches | main.py:276-285 | The batch loop gives one loss per batch and keeps the configuration. With learning rate 0 it leaves the network unchanged. |
| Training.RunBatchesSteps | main.py:276-285 | Batch k is trained on the network the first k batches left. It yields the network the first k + 1 batches leave and the loss recorded in place k, and the first k losses are those of the first k batches. |
| Training.Epoch | main.py:271-290 | An epoch runs the batch loop over Batches(n, bs) and returns its network and its batch losses, one per batch, and the epoch loss EpochLoss of those losses. It keeps the configuration, and with learning rate 0 the network. |
| Training.EpochSucceeds | main.py:276-285 | An epoch, from any network with the model's configuration, succeeds exactly when the model accepts the images and every label lies in the range of classes it produces. |
| Training.EpochLossIsMeanOfSamples | main.py:285-290 | When each batch loss of an epoch is the mean of per-sample losses over its batch, the epoch loss is their mean over all n samples. |
| Training.RunEpochs | main.py:271-290 | There is one loss per epoch and the configuration is kept. With learning rate 0 the network is unchanged. |
| Training.RunEpochsSucceeds | main.py:271-285 | The epochs succeed exactly when there are none, or when the model accepts the images and every label is in range. |
| Training.RunEpochsSteps | main.py:271-290 | Epoch k + 1 runs on the network the first k epochs left, succeeds, leaves the network of the first k + 1 epochs, and its epoch loss is the one recorded in place k. |
| Training.Fit | main.py:269-297 | Succeeds exactly when the model accepts the images and, if any epoch runs, every label is in range. Returns the epochs' final network and losses, and the predictions are a forward pass of that trained network over every image. With a softmax last layer every prediction row sums to 1. With learning rate 0 the predictions are those of the untrained network. |

## Left out

- Random initialisation (`np.random.normal` in the constructors) is left out: a layer is given with its parameter values.
- The driver under `__main__` is left out: the demo topology, the trainable-parameter count, timing, argmax accuracy and printing.
- Console output is left out, and so is the `sys.stdout` juggling. `Training` returns the size-weighted epoch loss, not the figure `fit` prints. That figure is `Batching.EpochLossAsWritten` of the same batch losses (see Findings). The printed predictions are returned as a value.
- `exp` and `log` are abstract parameters. The model has no floating point: reals are exact, so there is no rounding, overflow or NaN.
- The `conv_pool_outputs` and `dense_outputs` lists are not modelled: nothing in the core reads them.
- `add_conv_pool_layer` and `add_dense_layer` are not modelled: a `Sequential` is built directly from its lists.
- Aliasing is not modelled. `Conv2d.backward` multiplies the caller's gradient array by the mask in place, and numpy slices share memory. The model passes values.
- MaxPoolLayer.Backward: the unused `learning_rate` argument is dropped.
- DenseLayer.Backward requires a non-empty batch, because the source divides by the batch size and an empty batch gives NaN.
- Loss.CrossEntropyLoss requires a non-empty batch, because the source divides by the batch size and an empty batch gives NaN.
- Network.Forward requires a non-empty batch. numpy turns an empty list of flattened samples into a one-dimensional array. ReLU-only dense layers then return empty arrays of shapes the model does not represent, and a softmax layer fails because `np.max(..., axis=1)` gets a one-dimensional array (main.py:190).
- Training.Fit requires a positive batch size. With batch size 0 every batch of the source is empty, and the model does not represent empty batches.
- Training.Fit requires one label per image. numpy broadcasting of mismatched label arrays is not modelled.
- Training.Epoch reports the size-weighted loss, not the `end - start + 1` weighting of the source. The as-written figure is modelled separately in `Batching` (see Findings).
- Training.RunBatches: its contract speaks only of counts, configuration and learning rate 0. RunBatchesSteps states the losses in order, each tied to its TrainBatch. It is a separate lemma so that every proof that mentions the loop does not have to carry it.
- Training.RunEpochs: for the same reason, the per-epoch networks and losses are stated by RunEpochsSteps, and the condition for success by RunEpochsSucceeds.
- Training.TrainBatch: for the same reason, the condition for success in terms of the model's configuration is stated by TrainBatchSucceeds.
- Training.Epoch: for the same reason, the condition for success is stated by EpochSucceeds.
- Network.Backward: for the same reason, the step each layer receives is stated by BackwardStepsDense, BackwardStepsStages and BackwardStepsLast, and the gradient each passes down by DenseBackwardSteps and StagesBackwardSteps.
- Network.StagesForward: for the same reason, the input each stage's cache holds, threaded from the stage before, is stated by StagesForwardRuns.
- Network.DenseForward: for the same reason, the input each dense cache holds, threaded from the layer before, is stated by DenseForwardRuns.
- Network.Forward: for the same reason, the link from the last stage's output through FlattenBatch to the first dense layer is stated by ForwardRuns, and the condition for success by ForwardSucceeds.

## Findings

| source | as written | input that shows it | evidently intended | confidence | as-written member | corrected member |
|---|---|---|---|---|---|---|
| main.py:285 | each batch's mean loss is weighted by `end_index - start_index + 1` before the total is divided by the number of images | one image, batch size 1, predicted probability of the label such that the loss is 1: the printed epoch loss is 2 | weight `end_index - start_index`, so the printed figure is the mean per-sample loss | not executed | Batching.AsWrittenCounterexample | Batching.EpochLossIsSampleMean |
