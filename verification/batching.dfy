/** The mini-batch schedule of fit (main.py:276-285) and the loss it reports
    for an epoch. */
module Batching {
  import opened Sums
  import opened Arith
  import opened Tensors

  /** The half-open sample range [start, end) of one batch. */
  datatype Batch = Batch(start: nat, end: nat) {
    function Size(): int {
      end - start
    }
  }

  /** Batch i: it starts at i * bs and is cut short by the end of the data. */
  function BatchAt(n: nat, bs: nat, i: nat): Batch {
    Batch(i * bs, if i * bs + bs < n then i * bs + bs else n)
  }

  /** The number of batches: bs-sized steps until the start reaches n. */
  function BatchCount(n: nat, bs: nat): nat
    requires bs > 0
  {
    (n + bs - 1) / bs
  }

  function Batches(n: nat, bs: nat): (b: seq<Batch>)
    requires bs > 0
    ensures |b| == BatchCount(n, bs)
  {
    seq(BatchCount(n, bs), i requires 0 <= i => BatchAt(n, bs, i))
  }

  /** Batch i exists exactly when its start lies inside the data. */
  lemma CountBounds(n: nat, bs: nat, i: nat)
    requires bs > 0
    ensures i < BatchCount(n, bs) <==> i * bs < n
  {
    var c := BatchCount(n, bs);
    assert c * bs <= n + bs - 1 < (c + 1) * bs;
    if i < c {
      MulMono(i, c - 1, bs);
    } else {
      MulMono(c, i, bs);
    }
  }

  /** The batch loop of fit (main.py:277-281): i runs over range(n), the
      batch is [i * bs, min(i * bs + bs, n)) and the loop breaks once the
      start reaches n. */
  method Schedule(n: nat, bs: nat) returns (b: seq<Batch>)
    requires bs > 0
    ensures b == Batches(n, bs)
  {
    b := [];
    var i := 0;
    while i < n
      invariant i <= n && i <= BatchCount(n, bs)
      invariant |b| == i && forall k :: 0 <= k < i ==> b[k] == BatchAt(n, bs, k)
    {
      var start := i * bs;
      var end := if start + bs < n then start + bs else n;
      if start >= n {
        break;
      }
      CountBounds(n, bs, i);
      b := b + [Batch(start, end)];
      i := i + 1;
    }
    CountBounds(n, bs, i);
    if i == n {
      CountBounds(n, bs, n);
      MulMono(1, bs, n);
    }
  }

  /** The range(n) of the loop never cuts the schedule short: there are at
      most n batches. */
  lemma CountAtMost(n: nat, bs: nat)
    requires bs > 0
    ensures BatchCount(n, bs) <= n
  {
    if BatchCount(n, bs) > n {
      CountBounds(n, bs, n);
      MulMono(1, bs, n);
    }
  }

  /** The batches are non-empty, in order, contiguous from 0 to n, and all
      but the last hold exactly bs samples. */
  lemma BatchesPartition(n: nat, bs: nat)
    requires bs > 0
    ensures |Batches(n, bs)| == 0 <==> n == 0
    ensures forall k :: 0 <= k < |Batches(n, bs)| ==>
      Batches(n, bs)[k].start == k * bs && Batches(n, bs)[k].start < Batches(n, bs)[k].end <= n
    ensures |Batches(n, bs)| > 0 ==> Batches(n, bs)[0].start == 0 && Batches(n, bs)[|Batches(n, bs)| - 1].end == n
    ensures forall k :: 0 <= k < |Batches(n, bs)| - 1 ==>
      Batches(n, bs)[k].end == Batches(n, bs)[k + 1].start && Batches(n, bs)[k].Size() == bs
  {
    var b := Batches(n, bs);
    CountBounds(n, bs, 0);
    forall k | 0 <= k < |b|
      ensures b[k].start == k * bs && b[k].start < b[k].end <= n
    {
      CountBounds(n, bs, k);
    }
    if |b| > 0 {
      var last := |b| - 1;
      CountBounds(n, bs, last + 1);
      assert (last + 1) * bs == last * bs + bs;
    }
    forall k | 0 <= k < |b| - 1
      ensures b[k].end == b[k + 1].start && b[k].Size() == bs
    {
      CountBounds(n, bs, k + 1);
      assert (k + 1) * bs == k * bs + bs;
    }
  }

  /** Batch k of the schedule, for k below the count. */
  lemma BatchBounds(n: nat, bs: nat, k: nat)
    requires bs > 0 && k < |Batches(n, bs)|
    ensures Batches(n, bs)[k].start == k * bs
    ensures Batches(n, bs)[k].end == if k * bs + bs < n then k * bs + bs else n
  {
  }

  /** Every sample j < n lies in batch j / bs, and in no other. */
  lemma SampleInOneBatch(n: nat, bs: nat, j: nat, k: nat)
    requires bs > 0 && j < n
    ensures j / bs < |Batches(n, bs)|
    ensures Batches(n, bs)[j / bs].start <= j < Batches(n, bs)[j / bs].end
    ensures k < |Batches(n, bs)| && Batches(n, bs)[k].start <= j < Batches(n, bs)[k].end ==> k == j / bs
  {
    var q := j / bs;
    DivBounds(j, bs);
    SampleInBatch(n, bs, j, q);
    if k < |Batches(n, bs)| && k != q {
      SampleNotInBatch(n, bs, j, q, k);
    }
  }

  /** The batch that holds sample j. */
  lemma BatchHolding(n: nat, bs: nat, j: nat) returns (k: nat)
    requires bs > 0 && j < n
    ensures k < |Batches(n, bs)| && Batches(n, bs)[k].start <= j < Batches(n, bs)[k].end
  {
    SampleInOneBatch(n, bs, j, 0);
    k := j / bs;
  }

  lemma SampleInBatch(n: nat, bs: nat, j: nat, q: nat)
    requires bs > 0 && j < n && q * bs <= j < q * bs + bs
    ensures q < |Batches(n, bs)|
    ensures Batches(n, bs)[q].start <= j < Batches(n, bs)[q].end
  {
    CountBounds(n, bs, q);
    BatchBounds(n, bs, q);
  }

  lemma SampleNotInBatch(n: nat, bs: nat, j: nat, q: nat, k: nat)
    requires bs > 0 && q * bs <= j < q * bs + bs
    requires k < |Batches(n, bs)| && k != q
    ensures !(Batches(n, bs)[k].start <= j < Batches(n, bs)[k].end)
  {
    BatchBounds(n, bs, k);
    if k < q {
      MulMono(k + 1, q, bs);
      assert (k + 1) * bs == k * bs + bs;
    } else {
      MulMono(q + 1, k, bs);
      assert (q + 1) * bs == q * bs + bs;
    }
  }

  lemma DivBounds(j: nat, bs: nat)
    requires bs > 0
    ensures (j / bs) * bs <= j < (j / bs) * bs + bs
  {
  }

  /** The epoch loss fit prints (main.py:285, 290): each batch's mean loss
      weighted by end - start + 1, the total divided by n. It exceeds the
      size-weighted epoch loss by the sum of the batch losses over n. */
  function EpochLossAsWritten(b: seq<Batch>, losses: seq<real>, n: nat): (r: real)
    requires |losses| == |b| && n > 0
    ensures r == EpochLoss(b, losses, n) + Total(losses) / (n as real)
  {
    OneMoreWeight(b, losses, n);
    Sum(|b|, k => if 0 <= k < |b| then VAt(losses, k) * ((b[k].Size() + 1) as real) else 0.0) / (n as real)
  }

  /** The sum of the batch losses. */
  function Total(losses: seq<real>): real {
    Sum(|losses|, k => VAt(losses, k))
  }

  /** The epoch loss with each batch's mean weighted by its size. */
  function EpochLoss(b: seq<Batch>, losses: seq<real>, n: nat): real
    requires |losses| == |b| && n > 0
  {
    Sum(|b|, k => if 0 <= k < |b| then VAt(losses, k) * (b[k].Size() as real) else 0.0) / (n as real)
  }

  lemma OneMoreWeight(b: seq<Batch>, losses: seq<real>, n: nat)
    requires |losses| == |b| && n > 0
    ensures
      Sum(|b|, k => if 0 <= k < |b| then VAt(losses, k) * ((b[k].Size() + 1) as real) else 0.0) / (n as real)
      == EpochLoss(b, losses, n) + Total(losses) / (n as real)
  {
    var w1 := k => if 0 <= k < |b| then VAt(losses, k) * ((b[k].Size() + 1) as real) else 0.0;
    var w0 := k => if 0 <= k < |b| then VAt(losses, k) * (b[k].Size() as real) else 0.0;
    forall k | 0 <= k < |b|
      ensures w1(k) == w0(k) + VAt(losses, k)
    {
      OneMore(VAt(losses, k), b[k].Size() as real);
    }
    SumTwo(|b|, w0, k => VAt(losses, k), w1);
    SplitQuotient(Sum(|b|, w0), Sum(|b|, k => VAt(losses, k)), n as real);
  }

  /** Mean of the per-sample values l over one batch. */
  function BatchMean(l: seq<real>, bt: Batch): real {
    if bt.Size() <= 0 then 0.0 else Sum(bt.Size(), t => VAt(l, bt.start + t)) / (bt.Size() as real)
  }

  /** The per-batch mean losses of a schedule. */
  function BatchMeans(l: seq<real>, b: seq<Batch>): (m: seq<real>)
    ensures |m| == |b|
  {
    seq(|b|, k requires 0 <= k < |b| => BatchMean(l, b[k]))
  }

  lemma OneMore(v: real, s: real)
    ensures v * (s + 1.0) == v * s + v
  {
  }

  lemma SplitQuotient(a: real, c: real, n: real)
    requires n != 0.0
    ensures (a + c) / n == a / n + c / n
  {
  }

  /** One sample, batch size one, loss 1: the printed loss is 2. */
  lemma AsWrittenCounterexample()
    ensures Batches(1, 1) == [Batch(0, 1)]
    ensures EpochLossAsWritten(Batches(1, 1), [1.0], 1) == 2.0
    ensures EpochLoss(Batches(1, 1), [1.0], 1) == 1.0
  {
    assert BatchCount(1, 1) == 1;
    BatchBounds(1, 1, 0);
    var b := Batches(1, 1);
    assert b == [Batch(0, 1)];
    assert b[0].Size() == 1;
    SingleBatchLoss(b, [1.0]);
  }

  lemma SingleBatchLoss(b: seq<Batch>, losses: seq<real>)
    requires |b| == 1 && |losses| == 1
    ensures EpochLoss(b, losses, 1) == losses[0] * (b[0].Size() as real)
    ensures Total(losses) == losses[0]
    ensures EpochLossAsWritten(b, losses, 1) == losses[0] * (b[0].Size() as real) + losses[0]
  {
  }

  /** Weight of batch k in the size-weighted total. */
  function WeightedMean(l: seq<real>, b: seq<Batch>, k: int): real {
    if 0 <= k < |b| then BatchMean(l, b[k]) * (b[k].Size() as real) else 0.0
  }

  /** Where the first m batches end. */
  function EndOf(b: seq<Batch>, m: nat): int
    requires m <= |b|
  {
    if m == 0 then 0 else b[m - 1].end
  }

  /** With size weights, the epoch loss is the mean over all n samples of
      the per-sample losses, whatever the batch size. */
  lemma EpochLossIsSampleMean(n: nat, bs: nat, l: seq<real>)
    requires bs > 0 && n > 0 && |l| == n
    ensures EpochLoss(Batches(n, bs), BatchMeans(l, Batches(n, bs)), n) == Sum(n, j => VAt(l, j)) / (n as real)
  {
    var b := Batches(n, bs);
    BatchesPartition(n, bs);
    PrefixTotals(b, l, |b|);
    assert EndOf(b, |b|) == n;
    EpochLossOfMeans(b, l, n);
  }

  lemma EpochLossOfMeans(b: seq<Batch>, l: seq<real>, n: nat)
    requires n > 0
    ensures EpochLoss(b, BatchMeans(l, b), n) == Sum(|b|, k => WeightedMean(l, b, k)) / (n as real)
  {
    var means := BatchMeans(l, b);
    forall k | 0 <= k < |b|
      ensures VAt(means, k) * (b[k].Size() as real) == WeightedMean(l, b, k)
    {
      assert means[k] == BatchMean(l, b[k]);
    }
    SumExt(|b|, k => if 0 <= k < |b| then VAt(means, k) * (b[k].Size() as real) else 0.0, k => WeightedMean(l, b, k));
  }

  /** The weighted means of the first m batches of a contiguous schedule add
      up to the samples they cover. */
  lemma {:induction false} PrefixTotals(b: seq<Batch>, l: seq<real>, m: nat)
    requires m <= |b|
    requires forall k :: 0 <= k < |b| ==> b[k].start < b[k].end
    requires |b| > 0 ==> b[0].start == 0
    requires forall k :: 0 <= k < |b| - 1 ==> b[k].end == b[k + 1].start
    ensures Sum(m, k => WeightedMean(l, b, k)) == Sum(EndOf(b, m), j => VAt(l, j))
  {
    if m > 0 {
      PrefixTotals(b, l, m - 1);
      var bt := b[m - 1];
      assert bt.start == EndOf(b, m - 1);
      AppendBatch(l, b, m - 1);
      assert EndOf(b, m) == bt.end;
      assert Sum(m, k => WeightedMean(l, b, k)) == Sum(m - 1, k => WeightedMean(l, b, k)) + WeightedMean(l, b, m - 1);
    }
  }

  /** The samples up to the end of a batch are those before it plus the
      batch's weighted mean. */
  lemma AppendBatch(l: seq<real>, b: seq<Batch>, k: nat)
    requires k < |b| && b[k].start < b[k].end
    ensures Sum(b[k].end, j => VAt(l, j)) == Sum(b[k].start, j => VAt(l, j)) + WeightedMean(l, b, k)
  {
    var bt := b[k];
    MeanTimesSize(l, bt);
    SumSplit(l, bt.start, bt.end);
    assert bt.end - bt.start == bt.Size();
    assert WeightedMean(l, b, k) == BatchMean(l, bt) * (bt.Size() as real);
  }

  lemma MeanTimesSize(l: seq<real>, bt: Batch)
    requires bt.Size() > 0
    ensures BatchMean(l, bt) * (bt.Size() as real) == Sum(bt.Size(), t => VAt(l, bt.start + t))
  {
  }

  /** Splitting a prefix sum of l at a. */
  lemma {:induction false} SumSplit(l: seq<real>, a: nat, e: nat)
    requires a <= e
    ensures Sum(e, j => VAt(l, j)) == Sum(a, j => VAt(l, j)) + Sum(e - a, t => VAt(l, a + t))
    decreases e
  {
    if e > a {
      SumSplit(l, a, e - 1);
    }
  }
}
