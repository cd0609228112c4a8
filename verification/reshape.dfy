/** The bridge between the convolutional and the dense part of the network:
    each sample's (H, W, C) block read out row-major into one feature row,
    and a batch of feature rows written back into blocks
    (main.py:310-354). */
module Reshape {
  import opened Tensors
  import opened Outcomes
  import opened Arith

  /** The sequences of s one after another. */
  function Concat<T>(s: seq<seq<T>>): seq<T>
    decreases |s|
  {
    if |s| == 0 then [] else Concat(s[..|s| - 1]) + s[|s| - 1]
  }

  /** flatten (main.py:336-337): every value of every row of every matrix
      of the block, in that nesting order. */
  function FlattenImage(img: seq<seq<seq<real>>>): seq<real> {
    Concat(seq(|img|, j requires 0 <= j < |img| => Concat(img[j])))
  }

  /** The feature rows the dense part receives (main.py:312-316). */
  function FlattenBatch(x: Tensor4): (m: Matrix)
    ensures |m| == |x|
  {
    seq(|x|, i requires 0 <= i < |x| => FlattenImage(x[i]))
  }

  /** Where entry (j, k, l) of an H x W x C block lands in its row. */
  function FlatIndex(s: Shape, j: int, k: int, l: int): int {
    (j * s.w + k) * s.c + l
  }

  function FlatSize(s: Shape): nat {
    s.h * s.w * s.c
  }

  /** unflatten (main.py:339-354) reads past the end of a row or of the batch
      exactly when the shape has entries and some sample's row is missing or
      shorter than H * W * C; entries beyond that are ignored. */
  predicate RowsCover(flat: Matrix, s: Shape) {
    FlatSize(s) == 0 || (|flat| >= s.n && forall i :: 0 <= i < s.n ==> |flat[i]| >= FlatSize(s))
  }

  /** unflatten (main.py:339-354): a zero tensor of the recorded shape whose
      entry (i, j, k, l) is filled from flat[i] at the running index, which
      the three nested loops advance once per entry. */
  function Unflatten(flat: Matrix, s: Shape): (r: Result<Tensor4>)
    ensures r.Success? <==> RowsCover(flat, s)
    ensures r.Failure? ==> r.error == RowTooShort
    ensures r.Success? ==> HasShape(r.value, s)
  {
    if !RowsCover(flat, s) then Failure(RowTooShort)
    else Success(Build(s, (i, j, k, l) => MAt(flat, i, FlatIndex(s, j, k, l))))
  }

  /** A concatenation of n sequences of length c has length n * c ... */
  lemma {:induction false} ConcatLength<T>(s: seq<seq<T>>, c: nat)
    requires forall t :: 0 <= t < |s| ==> |s[t]| == c
    ensures |Concat(s)| == |s| * c
    decreases |s|
  {
    if |s| > 0 {
      ConcatLength(s[..|s| - 1], c);
      PlacePart(0, 0, c, |s|);
    }
  }

  /** ... and holds element l of part t at t * c + l. */
  lemma {:induction false} ConcatAt<T>(s: seq<seq<T>>, c: nat, t: int, l: int)
    requires forall t :: 0 <= t < |s| ==> |s[t]| == c
    requires 0 <= t < |s| && 0 <= l < c
    ensures 0 <= t * c + l < |Concat(s)| && Concat(s)[t * c + l] == s[t][l]
    decreases |s|
  {
    var init := s[..|s| - 1];
    ConcatLength(init, c);
    PlacePart(t, l, c, |s|);
    if t < |s| - 1 {
      ConcatAt(init, c, t, l);
      assert init[t] == s[t];
    }
  }

  /** Index arithmetic for ConcatUniform: part t starts at t * c, after the
      first n - 1 parts only when t is the last. */
  lemma PlacePart(t: nat, l: nat, c: nat, n: nat)
    requires t < n && l <= c
    ensures (n - 1) * c + c == n * c
    ensures t < n - 1 && l < c ==> t * c + l < (n - 1) * c
    ensures t == n - 1 ==> t * c + l - (n - 1) * c == l
  {
    if t < n - 1 && l < c {
      MulMono(t + 1, n - 1, c);
    }
  }

  /** One image of a batch has shape H x W x C; HasShape is the same
      condition for a whole batch. */
  predicate IsBlock(img: seq<seq<seq<real>>>, s: Shape) {
    && |img| == s.h
    && (forall j :: 0 <= j < s.h ==> |img[j]| == s.w)
    && (forall j, k :: 0 <= j < s.h && 0 <= k < s.w ==> |img[j][k]| == s.c)
  }

  /** The row of an H x W x C block has H * W * C entries ... */
  lemma FlattenImageLength(img: seq<seq<seq<real>>>, s: Shape)
    requires IsBlock(img, s)
    ensures |FlattenImage(img)| == FlatSize(s)
  {
    var planes := seq(|img|, j requires 0 <= j < |img| => Concat(img[j]));
    forall j | 0 <= j < s.h
      ensures |planes[j]| == s.w * s.c
    {
      ConcatLength(img[j], s.c);
    }
    ConcatLength(planes, s.w * s.c);
    assert s.h * (s.w * s.c) == FlatSize(s);
  }

  /** ... and entry (j, k, l) is element FlatIndex of it. */
  lemma FlattenImageAt(img: seq<seq<seq<real>>>, s: Shape, j: int, k: int, l: int)
    requires IsBlock(img, s)
    requires 0 <= j < s.h && 0 <= k < s.w && 0 <= l < s.c
    ensures 0 <= FlatIndex(s, j, k, l) < |FlattenImage(img)| && FlattenImage(img)[FlatIndex(s, j, k, l)] == img[j][k][l]
  {
    var planes := seq(|img|, j requires 0 <= j < |img| => Concat(img[j]));
    forall t | 0 <= t < s.h
      ensures |planes[t]| == s.w * s.c
    {
      ConcatLength(img[t], s.c);
    }
    ConcatAt(img[j], s.c, k, l);
    SplitIndex(s, j, k, l);
    ConcatAt(planes, s.w * s.c, j, k * s.c + l);
  }

  /** The flattened batch has one row of H W C entries per sample, and row i
      holds entry (i, j, k, l) of the batch at position FlatIndex(j, k, l). */
  lemma FlattenBatchShape(x: Tensor4, s: Shape)
    requires HasShape(x, s)
    ensures IsMatrix(FlattenBatch(x), s.n, FlatSize(s))
    ensures forall i, j, k, l :: InShape(s, i, j, k, l) ==> MAt(FlattenBatch(x), i, FlatIndex(s, j, k, l)) == At(x, i, j, k, l)
  {
    forall i | 0 <= i < s.n
      ensures |FlattenBatch(x)[i]| == FlatSize(s)
    {
      FlattenImageLength(x[i], s);
    }
    forall i, j, k, l | InShape(s, i, j, k, l)
      ensures MAt(FlattenBatch(x), i, FlatIndex(s, j, k, l)) == At(x, i, j, k, l)
    {
      FlattenImageAt(x[i], s, j, k, l);
    }
  }

  /** FlatIndex(j, k, l) is element k * C + l of the j-th plane of W * C. */
  lemma SplitIndex(s: Shape, j: nat, k: nat, l: nat)
    requires j < s.h && k < s.w && l < s.c
    ensures FlatIndex(s, j, k, l) == j * (s.w * s.c) + (k * s.c + l)
    ensures 0 <= k * s.c + l < s.w * s.c
    ensures FlatSize(s) == s.h * (s.w * s.c)
  {
    MulMono(k + 1, s.w, s.c);
  }

  /** Every position n of a row of FlatSize entries is the FlatIndex of the
      (j, k, l) that division by C and then by W recovers. */
  lemma IndexSplits(s: Shape, n: int)
    requires 0 <= n < FlatSize(s)
    ensures s.c > 0 && s.w > 0
    ensures 0 <= (n / s.c) / s.w < s.h && 0 <= (n / s.c) % s.w < s.w && 0 <= n % s.c < s.c
    ensures FlatIndex(s, (n / s.c) / s.w, (n / s.c) % s.w, n % s.c) == n
  {
    assert s.c > 0 && s.w > 0;
    var m := n / s.c;
    DivMod(n, s.c);
    DivMod(m, s.w);
    QuotientBelow(n, s.c, s.h * s.w);
    QuotientBelow(m, s.w, s.h);
  }

  /** Unflattening the flattened batch gives the batch back. */
  lemma UnflattenFlatten(x: Tensor4, s: Shape)
    requires HasShape(x, s)
    ensures Unflatten(FlattenBatch(x), s) == Success(x)
  {
    var flat := FlattenBatch(x);
    forall i | 0 <= i < s.n
      ensures |flat[i]| == FlatSize(s)
    {
      FlattenImageLength(x[i], s);
    }
    assert RowsCover(flat, s);
    var r := Unflatten(flat, s).value;
    forall i, j, k, l | InShape(s, i, j, k, l)
      ensures At(r, i, j, k, l) == At(x, i, j, k, l)
    {
      FlattenImageAt(x[i], s, j, k, l);
      BuildEntry(s, (i, j, k, l) => MAt(flat, i, FlatIndex(s, j, k, l)), i, j, k, l);
    }
    TensorExt(r, x, s);
  }

  /** Flattening an unflattened batch of rows of exactly FlatSize entries
      gives the rows back. */
  lemma FlattenUnflatten(flat: Matrix, s: Shape)
    requires IsMatrix(flat, s.n, FlatSize(s))
    ensures Unflatten(flat, s).Success?
    ensures FlattenBatch(Unflatten(flat, s).value) == flat
  {
    var r := Unflatten(flat, s).value;
    var back := FlattenBatch(r);
    forall i | 0 <= i < s.n
      ensures back[i] == flat[i]
    {
      FlattenImageLength(r[i], s);
      forall n | 0 <= n < FlatSize(s)
        ensures back[i][n] == flat[i][n]
      {
        IndexSplits(s, n);
        var j, k, l := (n / s.c) / s.w, (n / s.c) % s.w, n % s.c;
        FlattenImageAt(r[i], s, j, k, l);
        BuildEntry(s, (i, j, k, l) => MAt(flat, i, FlatIndex(s, j, k, l)), i, j, k, l);
      }
    }
  }
}
