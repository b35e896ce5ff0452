/**
 The L1 criterion of both detectors: channels ordered by falling norm, and prefixes of that
 order kept. Channels of equal norm may come in any order.
*/
module L1Order {
  import opened Arithmetic
  import opened Sums
  import opened Masking
  import Greedy

  function Norm(weights: seq<real>): (norm: real)
    ensures norm >= 0.0
  {
    if weights == [] then 0.0 else Norm(weights[..|weights| - 1]) + Abs(weights[|weights| - 1])
  }

  ghost function AbsAt(weights: seq<real>): int -> real
  {
    k => if 0 <= k < |weights| then (if weights[k] < 0.0 then -weights[k] else weights[k]) else 0.0
  }

  /** The norm is the sum of the absolute weights. */
  lemma {:induction false} NormIsSum(weights: seq<real>)
    ensures Norm(weights) == Sum(AbsAt(weights), 0, |weights|)
  {
    if weights != [] {
      var front := weights[..|weights| - 1];
      NormIsSum(front);
      SumSame(AbsAt(front), AbsAt(weights), 0, |front|);
    }
  }

  /** One norm per output channel of the kernel. */
  function NormsOf(kernel: seq<seq<real>>): (norms: seq<real>)
    ensures |norms| == |kernel|
  {
    seq(|kernel|, c requires 0 <= c < |kernel| => Norm(kernel[c]))
  }

  method Norms(kernel: seq<seq<real>>) returns (norms: seq<real>)
    ensures norms == NormsOf(kernel)
  {
    norms := [];
    for channel := 0 to |kernel|
      invariant |norms| == channel && forall c :: 0 <= c < channel ==> norms[c] == Norm(kernel[c])
    {
      norms := norms + [Norm(kernel[channel])];
    }
  }

  /** `argsort(-norms)`: all channels, norms falling. */
  ghost predicate IsOrder(norms: seq<real>, order: seq<nat>)
  {
    && |order| == |norms| && InRange(order, |norms|) && NoDuplicates(order)
    && (forall c: nat :: c < |norms| ==> c in order)
    && forall i, j :: 0 <= i < j < |order| ==> norms[order[i]] >= norms[order[j]]
  }

  ghost function NormAt(norms: seq<real>, offset: real): int -> real
  {
    c => if 0 <= c < |norms| then norms[c] - offset else 0.0
  }

  lemma {:induction false} SumMonotone(f: int -> real, g: int -> real, lo: int, hi: int)
    requires forall t :: lo <= t < hi ==> f(t) <= g(t)
    ensures Sum(f, lo, hi) <= Sum(g, lo, hi)
    decreases hi - lo
  {
    if lo < hi {
      SumMonotone(f, g, lo, hi - 1);
    }
  }

  lemma {:induction false} OffsetListSum(norms: seq<real>, offset: real, s: seq<nat>)
    requires InRange(s, |norms|)
    ensures ListSum(NormAt(norms, offset), s) == ListSum(NormAt(norms, 0.0), s) - offset * |s| as real
  {
    if s != [] {
      OffsetListSum(norms, offset, s[..|s| - 1]);
      assert offset * |s| as real == offset * (|s| - 1) as real + offset;
    }
  }

  /** Against the norm of the last kept channel, kept channels only add and all others only subtract. */
  lemma KeptSide(norms: seq<real>, order: seq<nat>, m: nat, c: nat)
    requires IsOrder(norms, order) && 0 < m <= |order| && c < |norms|
    ensures c in order[..m] ==> norms[c] >= norms[order[m - 1]]
    ensures c !in order[..m] ==> norms[c] <= norms[order[m - 1]]
  {
    assert c in order;
    var i :| 0 <= i < |order| && order[i] == c;
    if i < m {
      assert order[..m][i] == c;
    } else {
      assert forall k :: 0 <= k < m ==> order[..m][k] == order[k] != c;
    }
  }

  lemma KeptTerm(norms: seq<real>, order: seq<nat>, m: nat, s: seq<nat>, c: nat)
    requires IsOrder(norms, order) && 0 < m <= |order| && c < |norms|
    ensures var g := NormAt(norms, norms[order[m - 1]]);
            MaskedTerm(g, s)(c) <= MaskedTerm(g, order[..m])(c)
  {
    KeptSide(norms, order, m, c);
  }

  lemma NothingWeighsNothing(norms: seq<real>)
    ensures ListSum(NormAt(norms, 0.0), []) == 0.0
  {
  }

  /** The kept prefix is the heaviest choice: no other m channels have a larger total norm. */
  lemma PrefixIsHeaviest(norms: seq<real>, order: seq<nat>, m: nat, s: seq<nat>)
    requires IsOrder(norms, order) && m <= |order|
    requires InRange(s, |norms|) && NoDuplicates(s) && |s| == m
    ensures ListSum(NormAt(norms, 0.0), s) <= ListSum(NormAt(norms, 0.0), order[..m])
  {
    hide IsOrder, MaskedTerm, NormAt, ListSum, Sum;
    NothingWeighsNothing(norms);
    PrefixIsList(norms, order, m);
    if m > 0 {
      var n, kept := |norms|, order[..m];
      var least := norms[order[m - 1]];
      var g := NormAt(norms, least);
      forall c | 0 <= c < n ensures MaskedTerm(g, s)(c) <= MaskedTerm(g, kept)(c) {
        KeptTerm(norms, order, m, s, c);
      }
      ListSumIsMaskedSum(g, s, n);
      ListSumIsMaskedSum(g, kept, n);
      SumMonotone(MaskedTerm(g, s), MaskedTerm(g, kept), 0, n);
      OffsetListSum(norms, least, s);
      OffsetListSum(norms, least, kept);
    }
  }

  lemma PrefixIsList(norms: seq<real>, order: seq<nat>, m: nat)
    requires IsOrder(norms, order) && m <= |order|
    ensures |order| == |norms| && InRange(order, |norms|) && InRange(order[..m], |norms|) && NoDuplicates(order[..m])
  {
  }

  /** No other choice of as many channels has a larger total norm. */
  ghost predicate Heaviest(norms: seq<real>, kept: seq<nat>)
  {
    forall s: seq<nat> :: InRange(s, |norms|) && NoDuplicates(s) && |s| == |kept| ==>
      ListSum(NormAt(norms, 0.0), s) <= ListSum(NormAt(norms, 0.0), kept)
  }

  /** Whatever prefix of the order is kept is a list of channels, and the heaviest one of its size. */
  lemma PrefixIsHeaviestList(norms: seq<real>, order: seq<nat>, m: nat)
    requires IsOrder(norms, order) && m <= |order|
    ensures InRange(order[..m], |norms|) && NoDuplicates(order[..m]) && Heaviest(norms, order[..m])
  {
    PrefixIsList(norms, order, m);
    forall s: seq<nat> | InRange(s, |norms|) && NoDuplicates(s) && |s| == |order[..m]|
      ensures ListSum(NormAt(norms, 0.0), s) <= ListSum(NormAt(norms, 0.0), order[..m])
    {
      PrefixIsHeaviest(norms, order, m, s);
    }
  }

  /** The L1 trials of the SRNet detector on a layer: rates that keep no channel are skipped. */
  method L1Trials(kernel: seq<seq<real>>, argsort: seq<real> -> seq<nat>) returns (trials: seq<(nat, seq<nat>)>)
    requires IsOrder(NormsOf(kernel), argsort(NormsOf(kernel)))
    ensures forall t :: 0 <= t < |trials| ==>
              && 1 <= trials[t].0 <= 19 && |trials[t].1| == Greedy.KeptLength(|kernel|, trials[t].0) >= 1
              && InRange(trials[t].1, |kernel|) && NoDuplicates(trials[t].1) && Heaviest(NormsOf(kernel), trials[t].1)
    ensures forall ratio: nat :: 1 <= ratio <= 19 && Greedy.KeptLength(|kernel|, ratio) >= 1 ==>
              exists t :: 0 <= t < |trials| && trials[t].0 == ratio
  {
    var norms := Norms(kernel);
    var order := argsort(norms);
    trials := Greedy.SrnetTrials(order);
    forall t | 0 <= t < |trials|
      ensures InRange(trials[t].1, |kernel|) && NoDuplicates(trials[t].1) && Heaviest(norms, trials[t].1)
    {
      PrefixIsHeaviestList(norms, order, Greedy.KeptLength(|order|, trials[t].0));
    }
  }

  /** A trial at a rate keeps the heaviest list of the rate's length. */
  ghost predicate KeepsHeaviest(trial: (nat, seq<nat>), ratio: nat, norms: seq<real>)
    requires ratio <= 20
  {
    && trial.0 == ratio && |trial.1| == Greedy.KeptLength(|norms|, ratio)
    && InRange(trial.1, |norms|) && NoDuplicates(trial.1) && Heaviest(norms, trial.1)
  }

  /** The L1 trials of the XuNet detector: all nineteen rates, on an empty list if need be. */
  method XunetL1Trials(kernel: seq<seq<real>>, argsort: seq<real> -> seq<nat>) returns (trials: seq<(nat, seq<nat>)>)
    requires IsOrder(NormsOf(kernel), argsort(NormsOf(kernel)))
    ensures |trials| == 19
    ensures forall t :: 0 <= t < 19 ==> KeepsHeaviest(trials[t], t + 1, NormsOf(kernel))
  {
    hide IsOrder, Heaviest;
    var norms := Norms(kernel);
    var order := argsort(norms);
    PrefixIsList(norms, order, 0);
    trials := [];
    for ratio := 1 to 20
      invariant |trials| == ratio - 1
      invariant forall t :: 0 <= t < |trials| ==> KeepsHeaviest(trials[t], t + 1, norms)
    {
      var lens := Greedy.KeptLength(|order|, ratio);
      PrefixIsHeaviestList(norms, order, lens);
      trials := trials + [(ratio, order[..lens])];
    }
  }
}
