/** The loop shape fit uses twice, for the batches of an epoch and for the
    epochs (main.py:271-285): steps applied in order, each to the state the
    previous one left, stopping at the first failure and recording one
    figure per step. */
module Loops {
  import opened Outcomes

  /** The step is defined on every state ok admits and every element of es,
      and a successful step leads to a state ok admits. */
  ghost predicate Closed<S(!new), E>(step: (S, E) --> Result<(S, real)>, ok: S -> bool, es: seq<E>) {
    forall m, i :: ok(m) && 0 <= i < |es| ==>
      && step.requires(m, es[i])
      && (step(m, es[i]).Success? ==> ok(step(m, es[i]).value.0))
  }

  /** The steps over es in order, from init; the figures in order. */
  function Fold<S(!new), E>(step: (S, E) --> Result<(S, real)>, ok: S -> bool, init: S, es: seq<E>): (r: Result<(S, seq<real>)>)
    requires Closed(step, ok, es) && ok(init)
    ensures r.Success? ==> ok(r.value.0) && |r.value.1| == |es|
    decreases |es|
  {
    if |es| == 0 then Success((init, []))
    else
      ClosedPrefix(step, ok, es, |es| - 1);
      var prev :- Fold(step, ok, init, es[..|es| - 1]);
      var next :- step(prev.0, es[|es| - 1]);
      Success((next.0, prev.1 + [next.1]))
  }

  lemma ClosedPrefix<S(!new), E>(step: (S, E) --> Result<(S, real)>, ok: S -> bool, es: seq<E>, k: nat)
    requires Closed(step, ok, es) && k <= |es|
    ensures Closed(step, ok, es[..k])
  {
    forall m, i | ok(m) && 0 <= i < k
      ensures step.requires(m, es[..k][i]) && (step(m, es[..k][i]).Success? ==> ok(step(m, es[..k][i]).value.0))
    {
      assert es[..k][i] == es[i];
    }
  }

  /** Every step succeeds from every state ok admits. */
  ghost predicate Total<S(!new), E>(step: (S, E) --> Result<(S, real)>, ok: S -> bool, es: seq<E>) {
    forall m, i :: ok(m) && 0 <= i < |es| ==> step.requires(m, es[i]) && step(m, es[i]).Success?
  }

  /** A loop whose steps all succeed from every state ok admits succeeds. */
  lemma {:induction false} FoldSucceeds<S(!new), E>(step: (S, E) --> Result<(S, real)>, ok: S -> bool, init: S, es: seq<E>)
    requires Closed(step, ok, es) && ok(init) && Total(step, ok, es)
    ensures Fold(step, ok, init, es).Success?
    decreases |es|
  {
    if |es| > 0 {
      var k := |es| - 1;
      ClosedPrefix(step, ok, es, k);
      forall m, i | ok(m) && 0 <= i < k
        ensures step.requires(m, es[..k][i]) && step(m, es[..k][i]).Success?
      {
        assert es[..k][i] == es[i];
      }
      FoldSucceeds(step, ok, init, es[..k]);
    }
  }

  /** Step k starts from the state the first k steps left. It returns the
      state the first k + 1 steps leave, and the figure recorded in place k. */
  lemma {:induction false} FoldSteps<S(!new), E>(step: (S, E) --> Result<(S, real)>, ok: S -> bool, init: S, es: seq<E>, k: nat)
    requires Closed(step, ok, es) && ok(init)
    requires Fold(step, ok, init, es).Success? && k < |es|
    ensures Closed(step, ok, es[..k]) && Closed(step, ok, es[..k + 1])
    ensures Fold(step, ok, init, es[..k]).Success? && Fold(step, ok, init, es[..k + 1]).Success?
    ensures
      var before := Fold(step, ok, init, es[..k]).value;
      var all := Fold(step, ok, init, es).value;
      && before.1 == all.1[..k]
      && step(before.0, es[k]) == Success((Fold(step, ok, init, es[..k + 1]).value.0, all.1[k]))
    decreases |es|
  {
    ClosedPrefix(step, ok, es, k);
    ClosedPrefix(step, ok, es, k + 1);
    var init' := es[..|es| - 1];
    ClosedPrefix(step, ok, es, |es| - 1);
    var prev := Fold(step, ok, init, init').value;
    var all := Fold(step, ok, init, es).value;
    if k == |es| - 1 {
      assert es[..k + 1] == es;
    } else {
      assert init'[..k] == es[..k] && init'[..k + 1] == es[..k + 1] && init'[k] == es[k];
      FoldSteps(step, ok, init, init', k);
      assert all.1[..k] == prev.1[..k] && all.1[k] == prev.1[k];
    }
  }
  /** FoldSteps with the two prefixes given by the caller. */
  lemma FoldStepsOn<S(!new), E>(step: (S, E) --> Result<(S, real)>, ok: S -> bool, init: S, es: seq<E>, k: nat,
                                pre: seq<E>, pre1: seq<E>)
    requires Closed(step, ok, es) && ok(init)
    requires Fold(step, ok, init, es).Success? && k < |es|
    requires pre == es[..k] && pre1 == es[..k + 1]
    ensures Closed(step, ok, pre) && Closed(step, ok, pre1)
    ensures Fold(step, ok, init, pre).Success? && Fold(step, ok, init, pre1).Success?
    ensures
      var before := Fold(step, ok, init, pre).value;
      var all := Fold(step, ok, init, es).value;
      && ok(before.0)
      && before.1 == all.1[..k]
      && step(before.0, es[k]) == Success((Fold(step, ok, init, pre1).value.0, all.1[k]))
  {
    FoldSteps(step, ok, init, es, k);
  }

  /** The numbers 1, ..., n, the elements of a loop counted from 1. */
  function Counting(n: nat): (e: seq<nat>)
    ensures |e| == n
  {
    seq(n, i => i + 1)
  }

  lemma CountingPrefix(n: nat, k: nat)
    requires k <= n
    ensures Counting(n)[..k] == Counting(k)
    ensures k < n ==> Counting(n)[k] == k + 1
  {
  }

  /** FoldSteps for a loop over 1, ..., n: step k + 1 starts from the state
      the first k steps left. */
  lemma FoldCountSteps<S(!new)>(step: (S, nat) --> Result<(S, real)>, ok: S -> bool, init: S, n: nat, k: nat)
    requires Closed(step, ok, Counting(n)) && ok(init)
    requires Fold(step, ok, init, Counting(n)).Success? && k < n
    ensures Closed(step, ok, Counting(k)) && Closed(step, ok, Counting(k + 1))
    ensures Fold(step, ok, init, Counting(k)).Success? && Fold(step, ok, init, Counting(k + 1)).Success?
    ensures
      var before := Fold(step, ok, init, Counting(k)).value;
      var all := Fold(step, ok, init, Counting(n)).value;
      && ok(before.0)
      && before.1 == all.1[..k]
      && step(before.0, k + 1) == Success((Fold(step, ok, init, Counting(k + 1)).value.0, all.1[k]))
  {
    CountingPrefix(n, k);
    CountingPrefix(n, k + 1);
    FoldStepsOn(step, ok, init, Counting(n), k, Counting(k), Counting(k + 1));
  }
}
