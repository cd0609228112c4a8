/** The training objective: mean cross-entropy of the softmax outputs against
    integer labels, and the gradient that starts the backward pass
    (main.py:17-40). */
module Loss {
  import opened Sums
  import opened Tensors
  import opened Outcomes

  /** The 1e-15 added to each probability before its logarithm. */
  const Epsilon: real := 0.000000000000001

  /** numpy accepts an integer index into a row of `classes` entries when it
      lies in [-classes, classes); negative indices count from the end. */
  predicate LabelsInRange(labels: seq<int>, classes: nat) {
    forall i :: 0 <= i < |labels| ==> -(classes as int) <= labels[i] < classes
  }

  /** The column a label selects. */
  function Target(truth: int, classes: nat): int {
    if truth < 0 then truth + classes else truth
  }

  /** Row i of the one-hot encoding of the labels. */
  function OneHot(labels: seq<int>, classes: nat, i: int, j: int): real {
    if 0 <= i < |labels| && j == Target(labels[i], classes) then 1.0 else 0.0
  }

  /** The probability row i assigns to its label. */
  function TargetProb(p: Matrix, labels: seq<int>, classes: nat, i: int): real
    requires 0 <= i < |labels|
  {
    MAt(p, i, Target(labels[i], classes))
  }

  /** cross_entropy_gradient (main.py:30-40): the predictions with one
      subtracted at each row's label, all divided by the batch size. An
      empty batch gives an empty gradient. */
  function CrossEntropyGradient(p: Matrix, labels: seq<int>, classes: nat): (r: Result<Matrix>)
    requires IsMatrix(p, |labels|, classes)
    ensures r.Success? <==> LabelsInRange(labels, classes)
    ensures r.Failure? ==> r.error == LabelOutOfRange
    ensures r.Success? ==> IsMatrix(r.value, |labels|, classes)
    ensures r.Success? ==> forall i, j :: 0 <= i < |labels| && 0 <= j < classes ==>
      r.value[i][j] * (|labels| as real) + OneHot(labels, classes, i, j) == p[i][j]
  {
    if !LabelsInRange(labels, classes) then Failure(LabelOutOfRange)
    else if |labels| == 0 then Success([])
    else
      var b := |labels| as real;
      Success(BuildMatrix(|labels|, classes, (i, j) => (MAt(p, i, j) - OneHot(labels, classes, i, j)) / b))
  }

  /** cross_entropy_loss (main.py:17-28): minus the mean logarithm of the
      probability each row gives its label, with Epsilon added before the
      logarithm. The logarithm is a parameter. */
  function CrossEntropyLoss(p: Matrix, labels: seq<int>, classes: nat, log: real -> real): (r: Result<real>)
    requires |labels| > 0 && IsMatrix(p, |labels|, classes)
    ensures r.Success? <==> LabelsInRange(labels, classes)
    ensures r.Failure? ==> r.error == LabelOutOfRange
    ensures r.Success? ==> r.value * (|labels| as real) == -Sum(|labels|, i => LogTarget(p, labels, classes, log, i))
  {
    if !LabelsInRange(labels, classes) then Failure(LabelOutOfRange)
    else Success(-Sum(|labels|, i => LogTarget(p, labels, classes, log, i)) / (|labels| as real))
  }

  function LogTarget(p: Matrix, labels: seq<int>, classes: nat, log: real -> real, i: int): real {
    if 0 <= i < |labels| then log(TargetProb(p, labels, classes, i) + Epsilon) else 0.0
  }

  /** When every row of the predictions sums to one (a softmax output), every
      row of the gradient sums to zero. */
  lemma GradientRowsSumToZero(p: Matrix, labels: seq<int>, classes: nat, i: int)
    requires IsMatrix(p, |labels|, classes) && LabelsInRange(labels, classes)
    requires 0 <= i < |labels|
    requires Sum(classes, j => MAt(p, i, j)) == 1.0
    ensures Sum(classes, j => MAt(CrossEntropyGradient(p, labels, classes).value, i, j)) == 0.0
  {
    GradientRowScaled(p, labels, classes, i);
    ResidualRowZero(p, labels, classes, i);
  }

  /** p[i][j] minus the one-hot label. */
  function Residual(p: Matrix, labels: seq<int>, classes: nat, i: int, j: int): real {
    MAt(p, i, j) - OneHot(labels, classes, i, j)
  }

  lemma GradientRowScaled(p: Matrix, labels: seq<int>, classes: nat, i: int)
    requires IsMatrix(p, |labels|, classes) && LabelsInRange(labels, classes)
    requires 0 <= i < |labels|
    ensures Sum(classes, j => MAt(CrossEntropyGradient(p, labels, classes).value, i, j))
      == (1.0 / (|labels| as real)) * Sum(classes, j => Residual(p, labels, classes, i, j))
  {
    var g := CrossEntropyGradient(p, labels, classes).value;
    forall j | 0 <= j < classes
      ensures MAt(g, i, j) == (1.0 / (|labels| as real)) * Residual(p, labels, classes, i, j)
    {
      GradientEntry(p, labels, classes, i, j);
    }
    SumScaled(classes, 1.0 / (|labels| as real), j => Residual(p, labels, classes, i, j), j => MAt(g, i, j));
  }

  lemma ResidualRowZero(p: Matrix, labels: seq<int>, classes: nat, i: int)
    requires LabelsInRange(labels, classes) && 0 <= i < |labels|
    requires Sum(classes, j => MAt(p, i, j)) == 1.0
    ensures Sum(classes, j => Residual(p, labels, classes, i, j)) == 0.0
  {
    SumTwo(classes, j => Residual(p, labels, classes, i, j), j => OneHot(labels, classes, i, j), j => MAt(p, i, j));
    SumSingle(classes, Target(labels[i], classes), j => OneHot(labels, classes, i, j));
  }

  lemma GradientEntry(p: Matrix, labels: seq<int>, classes: nat, i: int, j: int)
    requires IsMatrix(p, |labels|, classes) && LabelsInRange(labels, classes)
    requires 0 <= i < |labels| && 0 <= j < classes
    ensures MAt(CrossEntropyGradient(p, labels, classes).value, i, j)
      == (1.0 / (|labels| as real)) * Residual(p, labels, classes, i, j)
  {
    DivideAsScale(Residual(p, labels, classes, i, j), |labels| as real);
  }

  lemma DivideAsScale(x: real, b: real)
    requires b != 0.0
    ensures x / b == (1.0 / b) * x
  {
  }

  /** With probabilities in [0, 1], the gradient pulls the label's column
      down and every other column up. */
  lemma GradientSigns(p: Matrix, labels: seq<int>, classes: nat, i: int, j: int)
    requires IsMatrix(p, |labels|, classes) && LabelsInRange(labels, classes)
    requires 0 <= i < |labels| && 0 <= j < classes
    requires 0.0 <= p[i][j] <= 1.0
    ensures j == Target(labels[i], classes) ==> CrossEntropyGradient(p, labels, classes).value[i][j] <= 0.0
    ensures j != Target(labels[i], classes) ==> CrossEntropyGradient(p, labels, classes).value[i][j] >= 0.0
  {
    var g := CrossEntropyGradient(p, labels, classes).value;
    ScaledSign(g[i][j], |labels| as real, p[i][j] - OneHot(labels, classes, i, j));
  }

  lemma ScaledSign(v: real, b: real, d: real)
    requires b > 0.0 && v * b == d
    ensures d <= 0.0 ==> v <= 0.0
    ensures d >= 0.0 ==> v >= 0.0
  {
  }

  /** One row (0.7, 0.1, 0.2) with label 0, and the same row with label -3,
      which numpy reads as 0. */
  lemma GradientExample()
    ensures CrossEntropyGradient([[0.7, 0.1, 0.2]], [0], 3) == Success([[-0.3, 0.1, 0.2]])
    ensures CrossEntropyGradient([[0.7, 0.1, 0.2]], [-3], 3) == Success([[-0.3, 0.1, 0.2]])
    ensures CrossEntropyGradient([[0.7, 0.1, 0.2]], [3], 3) == Failure(LabelOutOfRange)
  {
    var p := [[0.7, 0.1, 0.2]];
    var g := CrossEntropyGradient(p, [0], 3).value;
    assert g[0][0] == -0.3 && g[0][1] == 0.1 && g[0][2] == 0.2;
    assert |g| == 1 && g[0] == [-0.3, 0.1, 0.2];
    assert g == [[-0.3, 0.1, 0.2]];
    var h := CrossEntropyGradient(p, [-3], 3).value;
    assert h[0][0] == -0.3 && h[0][1] == 0.1 && h[0][2] == 0.2;
    assert |h| == 1 && h[0] == [-0.3, 0.1, 0.2];
    assert h == [[-0.3, 0.1, 0.2]];
  }

  /** With a non-decreasing logarithm, a batch that gives every label at
      least probability q has a loss of at most -log(q + Epsilon). */
  lemma LossBoundedByConfidence(p: Matrix, labels: seq<int>, classes: nat, log: real -> real, q: real)
    requires |labels| > 0 && IsMatrix(p, |labels|, classes) && LabelsInRange(labels, classes)
    requires forall a, b :: 0.0 < a <= b ==> log(a) <= log(b)
    requires q >= 0.0
    requires forall i :: 0 <= i < |labels| ==> TargetProb(p, labels, classes, i) >= q
    ensures CrossEntropyLoss(p, labels, classes, log).value <= -log(q + Epsilon)
  {
    var n := |labels|;
    var f := i => LogTarget(p, labels, classes, log, i);
    forall i | 0 <= i < n
      ensures f(i) >= log(q + Epsilon)
    {
      assert 0.0 < q + Epsilon <= TargetProb(p, labels, classes, i) + Epsilon;
    }
    SumAtLeast(n, f, log(q + Epsilon));
    MeanBound(CrossEntropyLoss(p, labels, classes, log).value, Sum(n, f), n as real, log(q + Epsilon));
  }

  lemma MeanBound(v: real, s: real, n: real, c: real)
    requires n > 0.0 && v * n == -s && s >= n * c
    ensures v <= -c
  {
  }
}
