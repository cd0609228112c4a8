/** fit (main.py:269-297): epochs of mini-batch steps over the training
    images, each step a forward pass, the loss gradient, a backward pass and
    the batch loss; then one forward pass over all images. */
module Training {
  import opened Sums
  import opened Tensors
  import opened Outcomes
  import opened Batching
  import Loss
  import Network
  import Reshape
  import Loops
  import Arith

  /** The shape of the images of one batch. */
  function BatchShape(s: Shape, bt: Batch): Shape
    requires bt.start <= bt.end
  {
    Shape(bt.end - bt.start, s.h, s.w, s.c)
  }

  /** The images of batch bt, in order. */
  function BatchImages(x: Tensor4, s: Shape, bt: Batch): (y: Tensor4)
    requires HasShape(x, s) && bt.start <= bt.end <= s.n
    ensures HasShape(y, BatchShape(s, bt))
    ensures forall i :: 0 <= i < bt.Size() ==> y[i] == x[bt.start + i]
  {
    x[bt.start..bt.end]
  }

  /** The forward pass of the model before the step, on one batch. */
  function BatchPass(model: Network.Sequential, x: Tensor4, s: Shape, bt: Batch, exp: real -> real): Result<Network.Pass>
    requires model.Valid() && HasShape(x, s) && bt.start < bt.end <= s.n
    requires forall t :: exp(t) > 0.0
  {
    Network.Forward(model, BatchImages(x, s, bt), BatchShape(s, bt), exp)
  }

  /** The number of classes a pass produced. */
  function Classes(model: Network.Sequential, p: Network.Pass): nat {
    Network.DenseOutWidth(model.dense, Reshape.FlatSize(p.trace.lastShape))
  }

  /** One iteration of the batch loop of fit (main.py:282-285): forward, the
      loss gradient, backward, then the loss of the predictions the model made
      before it was stepped. A forward error or a label outside the class
      range stops the step. */
  function TrainBatch(model: Network.Sequential, x: Tensor4, s: Shape, labels: seq<int>, bt: Batch,
                      lr: real, exp: real -> real, log: real -> real): (r: Result<(Network.Sequential, real)>)
    requires model.Valid() && HasShape(x, s) && |labels| == s.n && bt.start < bt.end <= s.n
    requires forall t :: exp(t) > 0.0
    ensures BatchPass(model, x, s, bt, exp).Failure? ==> r == Failure(BatchPass(model, x, s, bt, exp).error)
    ensures BatchPass(model, x, s, bt, exp).Success? ==>
      var p := BatchPass(model, x, s, bt, exp).value;
      r.Success? <==> Loss.LabelsInRange(labels[bt.start..bt.end], Classes(model, p))
    ensures r.Failure? && BatchPass(model, x, s, bt, exp).Success? ==> r.error == LabelOutOfRange
    ensures r.Success? ==> r.value.0.Valid() && model.SameConfig(r.value.0)
    ensures r.Success? && lr == 0.0 ==> r.value.0 == model
    ensures r.Success? ==>
      var p := BatchPass(model, x, s, bt, exp).value;
      var ys := labels[bt.start..bt.end];
      var classes := Classes(model, p);
      && r.value.1 == Loss.CrossEntropyLoss(p.output, ys, classes, log).value
      && r.value.0 == Network.Backward(model, p.trace, BatchShape(s, bt), classes, Loss.CrossEntropyGradient(p.output, ys, classes).value, lr)
  {
    var p :- BatchPass(model, x, s, bt, exp);
    StepOnPass(model, p, BatchShape(s, bt), labels[bt.start..bt.end], lr, log)
  }

  /** The part of a training step after the forward pass p. */
  function StepOnPass(model: Network.Sequential, p: Network.Pass, bs: Shape, ys: seq<int>,
                      lr: real, log: real -> real): (r: Result<(Network.Sequential, real)>)
    requires model.Valid() && bs.n > 0 && |ys| == bs.n
    requires Network.TraceFits(model, p.trace, bs, Classes(model, p)) && IsMatrix(p.output, bs.n, Classes(model, p))
    ensures r.Success? <==> Loss.LabelsInRange(ys, Classes(model, p))
    ensures r.Failure? ==> r.error == LabelOutOfRange
    ensures r.Success? ==> r.value.0.Valid() && model.SameConfig(r.value.0)
    ensures r.Success? && lr == 0.0 ==> r.value.0 == model
    ensures r.Success? ==>
      var classes := Classes(model, p);
      && r.value.1 == Loss.CrossEntropyLoss(p.output, ys, classes, log).value
      && r.value.0 == Network.Backward(model, p.trace, bs, classes, Loss.CrossEntropyGradient(p.output, ys, classes).value, lr)
  {
    var classes := Classes(model, p);
    var g :- Loss.CrossEntropyGradient(p.output, ys, classes);
    Network.BackwardNoRate(model, p.trace, bs, classes, g);
    var stepped := Network.Backward(model, p.trace, bs, classes, g, lr);
    var loss := Loss.CrossEntropyLoss(p.output, ys, classes, log).value;
    Success((stepped, loss))
  }

  /** The cross-entropy of a batch, the loss a step reports, is the mean over
      the batch of the per-sample losses -log(p[label] + 1e-15). */
  lemma LossIsBatchMean(p: Matrix, ys: seq<int>, classes: nat, log: real -> real, l: seq<real>, bt: Batch)
    requires |ys| == bt.Size() > 0 && IsMatrix(p, |ys|, classes) && Loss.LabelsInRange(ys, classes)
    requires forall t :: 0 <= t < bt.Size() ==> VAt(l, bt.start + t) == -Loss.LogTarget(p, ys, classes, log, t)
    ensures Loss.CrossEntropyLoss(p, ys, classes, log).value == BatchMean(l, bt)
  {
    var size := bt.Size();
    var loss := Loss.CrossEntropyLoss(p, ys, classes, log).value;
    SumScaled(size, -1.0, i => Loss.LogTarget(p, ys, classes, log, i), t => VAt(l, bt.start + t));
    assert loss * (size as real) == Sum(size, t => VAt(l, bt.start + t));
    MeanTimesSize(l, bt);
    Arith.Cancel(loss, BatchMean(l, bt), size as real);
  }

  /** Every batch lies inside the data and is not empty. */
  predicate BatchesInside(b: seq<Batch>, n: nat) {
    forall k :: 0 <= k < |b| ==> b[k].start < b[k].end <= n
  }

  /** What every network a training loop reaches keeps: validity, the
      configuration of the network it started from, and with learning rate 0
      that network itself. */
  function Kept(model: Network.Sequential, lr: real): Network.Sequential -> bool {
    (m: Network.Sequential) => m.Valid() && model.SameConfig(m) && (lr == 0.0 ==> m == model)
  }

  /** One batch step as a function of the network and the batch. */
  function BatchStep(x: Tensor4, s: Shape, labels: seq<int>, lr: real, exp: real -> real, log: real -> real)
    : (Network.Sequential, Batch) --> Result<(Network.Sequential, real)>
    requires HasShape(x, s) && |labels| == s.n && forall t :: exp(t) > 0.0
  {
    (m: Network.Sequential, bt: Batch) requires m.Valid() && bt.start < bt.end <= s.n =>
      TrainBatch(m, x, s, labels, bt, lr, exp, log)
  }

  lemma BatchStepClosed(model: Network.Sequential, x: Tensor4, s: Shape, labels: seq<int>, b: seq<Batch>,
                        lr: real, exp: real -> real, log: real -> real)
    requires HasShape(x, s) && |labels| == s.n && BatchesInside(b, s.n)
    requires forall t :: exp(t) > 0.0
    ensures Loops.Closed(BatchStep(x, s, labels, lr, exp, log), Kept(model, lr), b)
  {
    var step := BatchStep(x, s, labels, lr, exp, log);
    forall m, i | Kept(model, lr)(m) && 0 <= i < |b|
      ensures step.requires(m, b[i]) && (step(m, b[i]).Success? ==> Kept(model, lr)(step(m, b[i]).value.0))
    {
      var r := TrainBatch(m, x, s, labels, b[i], lr, exp, log);
      if r.Success? {
        SameConfigTransitive(model, m, r.value.0);
      }
    }
  }

  /** The batch loop of one epoch (main.py:276-285): the batches in order,
      each step starting from the model the previous one left, collecting
      the batch losses. */
  function RunBatches(model: Network.Sequential, x: Tensor4, s: Shape, labels: seq<int>, b: seq<Batch>,
                      lr: real, exp: real -> real, log: real -> real): (r: Result<(Network.Sequential, seq<real>)>)
    requires model.Valid() && HasShape(x, s) && |labels| == s.n && BatchesInside(b, s.n)
    requires forall t :: exp(t) > 0.0
    ensures r.Success? ==> r.value.0.Valid() && model.SameConfig(r.value.0) && |r.value.1| == |b|
    ensures r.Success? && lr == 0.0 ==> r.value.0 == model
  {
    BatchStepClosed(model, x, s, labels, b, lr, exp, log);
    Loops.Fold(BatchStep(x, s, labels, lr, exp, log), Kept(model, lr), model, b)
  }

  lemma SameConfigTransitive(a: Network.Sequential, b: Network.Sequential, c: Network.Sequential)
    requires a.SameConfig(b) && b.SameConfig(c)
    ensures a.SameConfig(c)
  {
  }

  lemma InsidePrefix(b: seq<Batch>, n: nat, k: nat)
    requires BatchesInside(b, n) && k <= |b|
    ensures BatchesInside(b[..k], n)
  {
    assert forall j :: 0 <= j < k ==> b[..k][j] == b[j];
  }

  /** Step k of the batch loop starts from the network the first k batches
      left. It returns the network the first k + 1 batches leave, and the
      loss the loop records in place k. */
  lemma RunBatchesSteps(model: Network.Sequential, x: Tensor4, s: Shape, labels: seq<int>, b: seq<Batch>,
                        lr: real, exp: real -> real, log: real -> real, k: nat)
    requires model.Valid() && HasShape(x, s) && |labels| == s.n && BatchesInside(b, s.n)
    requires forall t :: exp(t) > 0.0
    requires RunBatches(model, x, s, labels, b, lr, exp, log).Success? && k < |b|
    ensures BatchesInside(b[..k], s.n) && BatchesInside(b[..k + 1], s.n)
    ensures RunBatches(model, x, s, labels, b[..k], lr, exp, log).Success?
    ensures RunBatches(model, x, s, labels, b[..k + 1], lr, exp, log).Success?
    ensures
      var before := RunBatches(model, x, s, labels, b[..k], lr, exp, log).value;
      var after := RunBatches(model, x, s, labels, b[..k + 1], lr, exp, log).value;
      var all := RunBatches(model, x, s, labels, b, lr, exp, log).value;
      && before.1 == all.1[..k]
      && TrainBatch(before.0, x, s, labels, b[k], lr, exp, log) == Success((after.0, all.1[k]))
  {
    InsidePrefix(b, s.n, k);
    InsidePrefix(b, s.n, k + 1);
    BatchStepClosed(model, x, s, labels, b, lr, exp, log);
    Loops.FoldSteps(BatchStep(x, s, labels, lr, exp, log), Kept(model, lr), model, b, k);
  }

  /** One epoch of fit: the batch loop over the schedule of main.py:277-281,
      its batch losses, and the epoch loss with each batch weighted by its
      size. */
  function Epoch(model: Network.Sequential, x: Tensor4, s: Shape, labels: seq<int>, batchSize: nat,
                 lr: real, exp: real -> real, log: real -> real): (r: Result<(Network.Sequential, seq<real>, real)>)
    requires model.Valid() && HasShape(x, s) && |labels| == s.n && s.n > 0 && batchSize > 0
    requires forall t :: exp(t) > 0.0
    ensures r.Success? ==> r.value.0.Valid() && model.SameConfig(r.value.0)
    ensures r.Success? && lr == 0.0 ==> r.value.0 == model
    ensures r.Success? ==>
      && |r.value.1| == |Batches(s.n, batchSize)|
      && r.value.2 == EpochLoss(Batches(s.n, batchSize), r.value.1, s.n)
    ensures BatchesInside(Batches(s.n, batchSize), s.n)
    ensures r.Success? <==> RunBatches(model, x, s, labels, Batches(s.n, batchSize), lr, exp, log).Success?
    ensures r.Success? ==> RunBatches(model, x, s, labels, Batches(s.n, batchSize), lr, exp, log).value == (r.value.0, r.value.1)
  {
    var b := Batches(s.n, batchSize);
    BatchesPartition(s.n, batchSize);
    var run :- RunBatches(model, x, s, labels, b, lr, exp, log);
    Success((run.0, run.1, EpochLoss(b, run.1, s.n)))
  }

  /** When every batch loss of an epoch is the mean of per-sample losses l
      over its batch, the epoch loss is the mean of l over all n samples. */
  lemma EpochLossIsMeanOfSamples(model: Network.Sequential, x: Tensor4, s: Shape, labels: seq<int>, batchSize: nat,
                                 lr: real, exp: real -> real, log: real -> real, l: seq<real>)
    requires model.Valid() && HasShape(x, s) && |labels| == s.n && s.n > 0 && batchSize > 0
    requires forall t :: exp(t) > 0.0
    requires Epoch(model, x, s, labels, batchSize, lr, exp, log).Success? && |l| == s.n
    requires
      var r := Epoch(model, x, s, labels, batchSize, lr, exp, log).value;
      forall k :: 0 <= k < |r.1| ==> r.1[k] == BatchMean(l, Batches(s.n, batchSize)[k])
    ensures Epoch(model, x, s, labels, batchSize, lr, exp, log).value.2 == Sum(s.n, j => VAt(l, j)) / (s.n as real)
  {
    var r := Epoch(model, x, s, labels, batchSize, lr, exp, log).value;
    var b := Batches(s.n, batchSize);
    assert r.1 == BatchMeans(l, b);
    EpochLossIsSampleMean(s.n, batchSize, l);
  }

  /** One epoch as a step of the epoch loop: the network it leaves and its
      epoch loss. */
  function EpochStep(x: Tensor4, s: Shape, labels: seq<int>, batchSize: nat, lr: real, exp: real -> real, log: real -> real)
    : (Network.Sequential, nat) --> Result<(Network.Sequential, real)>
    requires HasShape(x, s) && |labels| == s.n && s.n > 0 && batchSize > 0 && forall t :: exp(t) > 0.0
  {
    (m: Network.Sequential, epoch: nat) requires m.Valid() =>
      var e := Epoch(m, x, s, labels, batchSize, lr, exp, log);
      if e.Failure? then Failure(e.error) else Success((e.value.0, e.value.2))
  }

  lemma EpochStepClosed(model: Network.Sequential, epochs: nat, x: Tensor4, s: Shape, labels: seq<int>, batchSize: nat,
                        lr: real, exp: real -> real, log: real -> real)
    requires HasShape(x, s) && |labels| == s.n && s.n > 0 && batchSize > 0
    requires forall t :: exp(t) > 0.0
    ensures Loops.Closed(EpochStep(x, s, labels, batchSize, lr, exp, log), Kept(model, lr), Loops.Counting(epochs))
  {
    var step := EpochStep(x, s, labels, batchSize, lr, exp, log);
    var es := Loops.Counting(epochs);
    forall m, i | Kept(model, lr)(m) && 0 <= i < |es|
      ensures step.requires(m, es[i]) && (step(m, es[i]).Success? ==> Kept(model, lr)(step(m, es[i]).value.0))
    {
      var r := Epoch(m, x, s, labels, batchSize, lr, exp, log);
      if r.Success? {
        SameConfigTransitive(model, m, r.value.0);
      }
    }
  }

  /** The epochs of fit, each starting from the model the previous one left;
      the epoch losses in order. */
  function RunEpochs(model: Network.Sequential, epochs: nat, x: Tensor4, s: Shape, labels: seq<int>, batchSize: nat,
                     lr: real, exp: real -> real, log: real -> real): (r: Result<(Network.Sequential, seq<real>)>)
    requires model.Valid() && HasShape(x, s) && |labels| == s.n && s.n > 0 && batchSize > 0
    requires forall t :: exp(t) > 0.0
    ensures r.Success? ==> r.value.0.Valid() && model.SameConfig(r.value.0) && |r.value.1| == epochs
    ensures r.Success? && lr == 0.0 ==> r.value.0 == model
  {
    EpochStepClosed(model, epochs, x, s, labels, batchSize, lr, exp, log);
    Loops.Fold(EpochStep(x, s, labels, batchSize, lr, exp, log), Kept(model, lr), model, Loops.Counting(epochs))
  }

  /** Epoch k starts from the network the first k epochs left, ends with the
      network the first k + 1 epochs leave, and its epoch loss is the one
      recorded in place k. */
  lemma RunEpochsSteps(model: Network.Sequential, epochs: nat, x: Tensor4, s: Shape, labels: seq<int>,
                       batchSize: nat, lr: real, exp: real -> real, log: real -> real, k: nat)
    requires model.Valid() && HasShape(x, s) && |labels| == s.n && s.n > 0 && batchSize > 0
    requires forall t :: exp(t) > 0.0
    requires RunEpochs(model, epochs, x, s, labels, batchSize, lr, exp, log).Success? && k < epochs
    ensures RunEpochs(model, k, x, s, labels, batchSize, lr, exp, log).Success?
    ensures RunEpochs(model, k + 1, x, s, labels, batchSize, lr, exp, log).Success?
    ensures
      var before := RunEpochs(model, k, x, s, labels, batchSize, lr, exp, log).value;
      var all := RunEpochs(model, epochs, x, s, labels, batchSize, lr, exp, log).value;
      var next := Epoch(before.0, x, s, labels, batchSize, lr, exp, log);
      && before.1 == all.1[..k]
      && next.Success?
      && next.value.0 == RunEpochs(model, k + 1, x, s, labels, batchSize, lr, exp, log).value.0
      && next.value.2 == all.1[k]
  {
    RunEpochsFold(model, epochs, x, s, labels, batchSize, lr, exp, log, k);
    var before := RunEpochs(model, k, x, s, labels, batchSize, lr, exp, log).value;
    var after := RunEpochs(model, k + 1, x, s, labels, batchSize, lr, exp, log).value;
    var all := RunEpochs(model, epochs, x, s, labels, batchSize, lr, exp, log).value;
    EpochStepApplied(x, s, labels, batchSize, lr, exp, log, before.0, k + 1, after.0, all.1[k]);
  }

  /** RunEpochsSteps as the epoch loop sees it. */
  lemma RunEpochsFold(model: Network.Sequential, epochs: nat, x: Tensor4, s: Shape, labels: seq<int>,
                      batchSize: nat, lr: real, exp: real -> real, log: real -> real, k: nat)
    requires model.Valid() && HasShape(x, s) && |labels| == s.n && s.n > 0 && batchSize > 0
    requires forall t :: exp(t) > 0.0
    requires RunEpochs(model, epochs, x, s, labels, batchSize, lr, exp, log).Success? && k < epochs
    ensures RunEpochs(model, k, x, s, labels, batchSize, lr, exp, log).Success?
    ensures RunEpochs(model, k + 1, x, s, labels, batchSize, lr, exp, log).Success?
    ensures
      var before := RunEpochs(model, k, x, s, labels, batchSize, lr, exp, log).value;
      var after := RunEpochs(model, k + 1, x, s, labels, batchSize, lr, exp, log).value;
      var all := RunEpochs(model, epochs, x, s, labels, batchSize, lr, exp, log).value;
      && before.1 == all.1[..k]
      && EpochStep(x, s, labels, batchSize, lr, exp, log)(before.0, k + 1) == Success((after.0, all.1[k]))
  {
    RunEpochsIsFold(model, epochs, x, s, labels, batchSize, lr, exp, log);
    RunEpochsIsFold(model, k, x, s, labels, batchSize, lr, exp, log);
    RunEpochsIsFold(model, k + 1, x, s, labels, batchSize, lr, exp, log);
    Loops.FoldCountSteps(EpochStep(x, s, labels, batchSize, lr, exp, log), Kept(model, lr), model, epochs, k);
  }

  lemma RunEpochsIsFold(model: Network.Sequential, epochs: nat, x: Tensor4, s: Shape, labels: seq<int>,
                        batchSize: nat, lr: real, exp: real -> real, log: real -> real)
    requires model.Valid() && HasShape(x, s) && |labels| == s.n && s.n > 0 && batchSize > 0
    requires forall t :: exp(t) > 0.0
    ensures Kept(model, lr)(model)
    ensures Loops.Closed(EpochStep(x, s, labels, batchSize, lr, exp, log), Kept(model, lr), Loops.Counting(epochs))
    ensures
      RunEpochs(model, epochs, x, s, labels, batchSize, lr, exp, log)
      == Loops.Fold(EpochStep(x, s, labels, batchSize, lr, exp, log), Kept(model, lr), model, Loops.Counting(epochs))
  {
    EpochStepClosed(model, epochs, x, s, labels, batchSize, lr, exp, log);
  }

  /** A successful epoch step is the epoch, reduced to its network and loss. */
  lemma EpochStepApplied(x: Tensor4, s: Shape, labels: seq<int>, batchSize: nat, lr: real, exp: real -> real, log: real -> real,
                         m: Network.Sequential, epoch: nat, m': Network.Sequential, loss: real)
    requires HasShape(x, s) && |labels| == s.n && s.n > 0 && batchSize > 0 && forall t :: exp(t) > 0.0
    requires m.Valid() && EpochStep(x, s, labels, batchSize, lr, exp, log)(m, epoch) == Success((m', loss))
    ensures
      var e := Epoch(m, x, s, labels, batchSize, lr, exp, log);
      e.Success? && e.value.0 == m' && e.value.2 == loss
  {
  }

  /** A batch step from any network with the configuration of model succeeds
      exactly when model accepts the images and the labels of the batch lie
      in the range of classes it produces: the parameters play no part. */
  lemma TrainBatchSucceeds(model: Network.Sequential, m: Network.Sequential, x: Tensor4, s: Shape, labels: seq<int>, bt: Batch,
                           lr: real, exp: real -> real, log: real -> real)
    requires model.SameConfig(m) && m.Valid() && HasShape(x, s) && |labels| == s.n && bt.start < bt.end <= s.n
    requires forall t :: exp(t) > 0.0
    ensures TrainBatch(m, x, s, labels, bt, lr, exp, log).Success? <==>
      Network.Accepts(model, s) && Loss.LabelsInRange(labels[bt.start..bt.end], Network.OutWidth(model, s))
  {
    Network.AcceptsSameConfig(model, m, s, BatchShape(s, bt));
    Network.ForwardSucceeds(m, BatchImages(x, s, bt), BatchShape(s, bt), exp);
  }

  /** An epoch from any network with the configuration of model succeeds
      exactly when model accepts the images and every label lies in the
      range of classes it produces. */
  lemma EpochSucceeds(model: Network.Sequential, m: Network.Sequential, x: Tensor4, s: Shape, labels: seq<int>, batchSize: nat,
                      lr: real, exp: real -> real, log: real -> real)
    requires model.SameConfig(m) && m.Valid() && HasShape(x, s) && |labels| == s.n && s.n > 0 && batchSize > 0
    requires forall t :: exp(t) > 0.0
    ensures Epoch(m, x, s, labels, batchSize, lr, exp, log).Success? <==>
      Network.Accepts(model, s) && Loss.LabelsInRange(labels, Network.OutWidth(model, s))
  {
    if Network.Accepts(model, s) && Loss.LabelsInRange(labels, Network.OutWidth(model, s)) {
      EpochRuns(model, m, x, s, labels, batchSize, lr, exp, log);
    }
    if Epoch(m, x, s, labels, batchSize, lr, exp, log).Success? {
      EpochNeeds(model, m, x, s, labels, batchSize, lr, exp, log);
    }
  }

  lemma EpochRuns(model: Network.Sequential, m: Network.Sequential, x: Tensor4, s: Shape, labels: seq<int>, batchSize: nat,
                  lr: real, exp: real -> real, log: real -> real)
    requires model.SameConfig(m) && m.Valid() && HasShape(x, s) && |labels| == s.n && s.n > 0 && batchSize > 0
    requires forall t :: exp(t) > 0.0
    requires Network.Accepts(model, s) && Loss.LabelsInRange(labels, Network.OutWidth(model, s))
    ensures Epoch(m, x, s, labels, batchSize, lr, exp, log).Success?
  {
    var b := Batches(s.n, batchSize);
    ScheduleInside(s.n, batchSize);
    var step := BatchStep(x, s, labels, lr, exp, log);
    BatchStepClosed(m, x, s, labels, b, lr, exp, log);
    forall m', i | Kept(m, lr)(m') && 0 <= i < |b|
      ensures step.requires(m', b[i]) && step(m', b[i]).Success?
    {
      SameConfigTransitive(model, m, m');
      BatchRuns(model, m', x, s, labels, b[i], lr, exp, log);
    }
    Loops.FoldSucceeds(step, Kept(m, lr), m, b);
  }

  lemma ScheduleInside(n: nat, batchSize: nat)
    requires batchSize > 0
    ensures BatchesInside(Batches(n, batchSize), n)
  {
    BatchesPartition(n, batchSize);
  }

  lemma BatchRuns(model: Network.Sequential, m: Network.Sequential, x: Tensor4, s: Shape, labels: seq<int>, bt: Batch,
                  lr: real, exp: real -> real, log: real -> real)
    requires model.SameConfig(m) && m.Valid() && HasShape(x, s) && |labels| == s.n && bt.start < bt.end <= s.n
    requires forall t :: exp(t) > 0.0
    requires Network.Accepts(model, s) && Loss.LabelsInRange(labels, Network.OutWidth(model, s))
    ensures TrainBatch(m, x, s, labels, bt, lr, exp, log).Success?
  {
    var classes := Network.OutWidth(model, s);
    var ys := labels[bt.start..bt.end];
    forall t | 0 <= t < |ys|
      ensures -(classes as int) <= ys[t] < classes
    {
      assert ys[t] == labels[bt.start + t];
    }
    TrainBatchSucceeds(model, m, x, s, labels, bt, lr, exp, log);
  }

  lemma EpochNeeds(model: Network.Sequential, m: Network.Sequential, x: Tensor4, s: Shape, labels: seq<int>, batchSize: nat,
                   lr: real, exp: real -> real, log: real -> real)
    requires model.SameConfig(m) && m.Valid() && HasShape(x, s) && |labels| == s.n && s.n > 0 && batchSize > 0
    requires forall t :: exp(t) > 0.0
    requires Epoch(m, x, s, labels, batchSize, lr, exp, log).Success?
    ensures Network.Accepts(model, s) && Loss.LabelsInRange(labels, Network.OutWidth(model, s))
  {
    LabelStepped(model, m, x, s, labels, batchSize, lr, exp, log, 0);
    var classes := Network.OutWidth(model, s);
    forall j | 0 <= j < s.n
      ensures -(classes as int) <= labels[j] < classes
    {
      LabelStepped(model, m, x, s, labels, batchSize, lr, exp, log, j);
    }
  }

  /** The label of sample j was checked by the step of the batch holding j. */
  lemma LabelStepped(model: Network.Sequential, m: Network.Sequential, x: Tensor4, s: Shape, labels: seq<int>, batchSize: nat,
                     lr: real, exp: real -> real, log: real -> real, j: nat)
    requires model.SameConfig(m) && m.Valid() && HasShape(x, s) && |labels| == s.n && s.n > 0 && batchSize > 0
    requires forall t :: exp(t) > 0.0
    requires Epoch(m, x, s, labels, batchSize, lr, exp, log).Success? && j < s.n
    ensures Network.Accepts(model, s)
    ensures -(Network.OutWidth(model, s) as int) <= labels[j] < Network.OutWidth(model, s)
  {
    var k := BatchHolding(s.n, batchSize, j);
    var bt := Batches(s.n, batchSize)[k];
    BatchStepped(model, m, x, s, labels, batchSize, lr, exp, log, k);
    LabelInSlice(labels, bt.start, bt.end, Network.OutWidth(model, s), j);
  }

  lemma LabelInSlice(labels: seq<int>, a: nat, b: nat, classes: nat, j: nat)
    requires a <= j < b <= |labels| && Loss.LabelsInRange(labels[a..b], classes)
    ensures -(classes as int) <= labels[j] < classes
  {
    assert labels[j] == labels[a..b][j - a];
  }

  /** Batch k of a successful epoch succeeded. */
  lemma BatchStepped(model: Network.Sequential, m: Network.Sequential, x: Tensor4, s: Shape, labels: seq<int>, batchSize: nat,
                     lr: real, exp: real -> real, log: real -> real, k: nat)
    requires model.SameConfig(m) && m.Valid() && HasShape(x, s) && |labels| == s.n && s.n > 0 && batchSize > 0
    requires forall t :: exp(t) > 0.0
    requires Epoch(m, x, s, labels, batchSize, lr, exp, log).Success? && k < |Batches(s.n, batchSize)|
    ensures Network.Accepts(model, s)
    ensures
      var bt := Batches(s.n, batchSize)[k];
      Loss.LabelsInRange(labels[bt.start..bt.end], Network.OutWidth(model, s))
  {
    var b := Batches(s.n, batchSize);
    RunBatchesSteps(m, x, s, labels, b, lr, exp, log, k);
    var before := RunBatches(m, x, s, labels, b[..k], lr, exp, log).value;
    SameConfigTransitive(model, m, before.0);
    TrainBatchSucceeds(model, before.0, x, s, labels, b[k], lr, exp, log);
  }

  /** The epochs succeed exactly when there are none, or the model accepts the
      images and every label lies in the range of classes it produces. */
  lemma RunEpochsSucceeds(model: Network.Sequential, epochs: nat, x: Tensor4, s: Shape, labels: seq<int>, batchSize: nat,
                          lr: real, exp: real -> real, log: real -> real)
    requires model.Valid() && HasShape(x, s) && |labels| == s.n && s.n > 0 && batchSize > 0
    requires forall t :: exp(t) > 0.0
    ensures RunEpochs(model, epochs, x, s, labels, batchSize, lr, exp, log).Success? <==>
      epochs == 0 || (Network.Accepts(model, s) && Loss.LabelsInRange(labels, Network.OutWidth(model, s)))
  {
    RunEpochsIsFold(model, epochs, x, s, labels, batchSize, lr, exp, log);
    var step := EpochStep(x, s, labels, batchSize, lr, exp, log);
    if epochs == 0 {
      assert Loops.Counting(0) == [];
    } else if RunEpochs(model, epochs, x, s, labels, batchSize, lr, exp, log).Success? {
      RunEpochsSteps(model, epochs, x, s, labels, batchSize, lr, exp, log, 0);
      var before := RunEpochs(model, 0, x, s, labels, batchSize, lr, exp, log).value;
      EpochSucceeds(model, before.0, x, s, labels, batchSize, lr, exp, log);
    } else if Network.Accepts(model, s) && Loss.LabelsInRange(labels, Network.OutWidth(model, s)) {
      var es := Loops.Counting(epochs);
      forall m', i | Kept(model, lr)(m') && 0 <= i < |es|
        ensures step.requires(m', es[i]) && step(m', es[i]).Success?
      {
        EpochSucceeds(model, m', x, s, labels, batchSize, lr, exp, log);
      }
      Loops.FoldSucceeds(step, Kept(model, lr), model, es);
    }
  }

  /** What fit leaves: the trained model, the loss of every epoch and the
      final predictions. */
  datatype Fitted = Fitted(model: Network.Sequential, losses: seq<real>, predictions: Matrix)

  /** fit (main.py:269-297): the epochs, then a forward pass over every
      image with the trained model. */
  function Fit(model: Network.Sequential, epochs: nat, x: Tensor4, s: Shape, labels: seq<int>, batchSize: nat,
               lr: real, exp: real -> real, log: real -> real): (r: Result<Fitted>)
    requires model.Valid() && HasShape(x, s) && |labels| == s.n && s.n > 0 && batchSize > 0
    requires forall t :: exp(t) > 0.0
    ensures r.Success? ==> r.value.model.Valid() && model.SameConfig(r.value.model)
    ensures r.Success? ==> |r.value.losses| == epochs && |r.value.predictions| == s.n
    ensures r.Success? && |model.dense| > 0 && model.dense[|model.dense| - 1].activation == "softmax" ==>
      forall i :: 0 <= i < s.n ==> Sum(|r.value.predictions[i]|, j => VAt(r.value.predictions[i], j)) == 1.0
    ensures r.Success? && lr == 0.0 ==>
      && r.value.model == model
      && Network.Forward(model, x, s, exp).Success?
      && r.value.predictions == Network.Forward(model, x, s, exp).value.output
    ensures r.Success? ==>
      && RunEpochs(model, epochs, x, s, labels, batchSize, lr, exp, log) == Success((r.value.model, r.value.losses))
      && Network.Forward(r.value.model, x, s, exp).Success?
      && r.value.predictions == Network.Forward(r.value.model, x, s, exp).value.output
    ensures r.Success? <==>
      Network.Accepts(model, s) && (epochs > 0 ==> Loss.LabelsInRange(labels, Network.OutWidth(model, s)))
  {
    RunEpochsSucceeds(model, epochs, x, s, labels, batchSize, lr, exp, log);
    var trained :- RunEpochs(model, epochs, x, s, labels, batchSize, lr, exp, log);
    Network.AcceptsSameConfig(model, trained.0, s, s);
    Network.ForwardSucceeds(trained.0, x, s, exp);
    var pass :- Network.Forward(trained.0, x, s, exp);
    LastActivationKept(model, trained.0);
    Success(Fitted(trained.0, trained.1, pass.output))
  }

  /** Training keeps the activation of the last dense layer. */
  lemma LastActivationKept(a: Network.Sequential, b: Network.Sequential)
    requires a.SameConfig(b)
    ensures |a.dense| > 0 ==> b.dense[|b.dense| - 1].activation == a.dense[|a.dense| - 1].activation
  {
  }

  /** The gradient that starts every backward pass of fit has rows summing to
      zero when the last dense layer is a softmax. */
  lemma BatchGradientRowsSumToZero(model: Network.Sequential, x: Tensor4, s: Shape, labels: seq<int>, bt: Batch,
                                   exp: real -> real, i: int)
    requires model.Valid() && HasShape(x, s) && |labels| == s.n && bt.start < bt.end <= s.n
    requires forall t :: exp(t) > 0.0
    requires |model.dense| > 0 && model.dense[|model.dense| - 1].activation == "softmax"
    requires BatchPass(model, x, s, bt, exp).Success?
    requires Loss.LabelsInRange(labels[bt.start..bt.end], Classes(model, BatchPass(model, x, s, bt, exp).value))
    requires 0 <= i < bt.Size()
    ensures
      var p := BatchPass(model, x, s, bt, exp).value;
      var classes := Classes(model, p);
      Sum(classes, j => MAt(Loss.CrossEntropyGradient(p.output, labels[bt.start..bt.end], classes).value, i, j)) == 0.0
  {
    var p := BatchPass(model, x, s, bt, exp).value;
    var classes := Classes(model, p);
    assert |p.output[i]| == classes;
    SumExt(classes, j => VAt(p.output[i], j), j => MAt(p.output, i, j));
    Loss.GradientRowsSumToZero(p.output, labels[bt.start..bt.end], classes, i);
  }
}
