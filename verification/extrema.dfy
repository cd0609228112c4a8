/** Maximum and first-maximum position of a non-empty vector, shared by
    max pooling and the numerically stabilised softmax. */
module Extrema {
  /** Largest element of v. */
  function Max(v: seq<real>): (m: real)
    requires |v| > 0
    ensures forall j :: 0 <= j < |v| ==> v[j] <= m
    ensures exists j :: 0 <= j < |v| && v[j] == m
  {
    MaxOfPrefix(v, |v|)
  }

  function MaxOfPrefix(v: seq<real>, n: nat): (m: real)
    requires 0 < n <= |v|
    ensures forall j :: 0 <= j < n ==> v[j] <= m
    ensures exists j :: 0 <= j < n && v[j] == m
  {
    if n == 1 then v[0]
    else
      var m := MaxOfPrefix(v, n - 1);
      if v[n - 1] > m then v[n - 1] else m
  }

  /** Position of the first largest element of v, the index numpy's argmax
      returns: scanning in order, a later element replaces the candidate only
      when strictly larger. */
  function FirstMaxIndex(v: seq<real>): (k: nat)
    requires |v| > 0
    ensures k < |v|
    ensures forall j :: 0 <= j < |v| ==> v[j] <= v[k]
    ensures forall j :: 0 <= j < k ==> v[j] < v[k]
  {
    FirstMaxOfPrefix(v, |v|)
  }

  function FirstMaxOfPrefix(v: seq<real>, n: nat): (k: nat)
    requires 0 < n <= |v|
    ensures k < n
    ensures forall j :: 0 <= j < n ==> v[j] <= v[k]
    ensures forall j :: 0 <= j < k ==> v[j] < v[k]
  {
    if n == 1 then 0
    else
      var k := FirstMaxOfPrefix(v, n - 1);
      if v[n - 1] > v[k] then n - 1 else k
  }

  /** The maximum is the only upper bound attained, so adding a constant to
      every element adds it to the maximum. */
  lemma MaxShift(v: seq<real>, w: seq<real>, c: real)
    requires |v| == |w| > 0
    requires forall j :: 0 <= j < |v| ==> w[j] == v[j] + c
    ensures Max(w) == Max(v) + c
  {
    var a :| 0 <= a < |v| && v[a] == Max(v);
    var b :| 0 <= b < |w| && w[b] == Max(w);
    assert Max(w) >= w[a];
    assert Max(v) >= v[b];
  }
}
