/** The greedy ThiNet search of both detectors and the channel lists they try. */
module Greedy {
  import opened Common
  import opened Arithmetic
  import opened Sums
  import opened Masking

  const MAX_SIZE := 9223372036854775807   // sys.maxsize, where every search for a minimum starts

  /** Mean square of the copied convolution on the selected kernel and input slices. */
  type Cost<!K, !A> = (seq<K>, seq<A>) -> real

  /** The channels not yet removed, in ascending order. */
  function Remaining(n: nat, removed: seq<nat>): (s: seq<nat>)
  {
    if n == 0 then []
    else if n - 1 in removed then Remaining(n - 1, removed)
    else Remaining(n - 1, removed) + [n - 1]
  }

  lemma {:induction false} RemainingIs(n: nat, removed: seq<nat>)
    ensures var s := Remaining(n, removed);
            && (forall c: nat :: c in s <==> c < n && c !in removed)
            && (forall i, j :: 0 <= i < j < |s| ==> s[i] < s[j])
  {
    if n > 0 {
      RemainingIs(n - 1, removed);
      var s, front := Remaining(n, removed), Remaining(n - 1, removed);
      forall i, j | 0 <= i < j < |s| ensures s[i] < s[j] {
        if j == |front| { assert s[i] in front; }
      }
    }
  }

  function Score<K, A>(kernel: seq<K>, input: seq<A>, cost: Cost<K, A>, removed: seq<nat>, c: nat): real
    requires |kernel| == |input| && InRange(removed, |kernel|) && c < |kernel|
  {
    cost(Gather(kernel, removed + [c]), Gather(input, removed + [c]))
  }

  /** Inserting a slice at the end gives the gather by the longer list. */
  lemma ScoreOfSlices<K, A>(kernel: seq<K>, input: seq<A>, cost: Cost<K, A>, removed: seq<nat>, c: nat)
    requires |kernel| == |input| && InRange(removed, |kernel|) && c < |kernel|
    ensures Gather(kernel, removed) + [kernel[c]] == Gather(kernel, removed + [c])
    ensures Gather(input, removed) + [input[c]] == Gather(input, removed + [c])
    ensures Score(kernel, input, cost, removed, c) ==
            cost(Gather(kernel, removed) + [kernel[c]], Gather(input, removed) + [input[c]])
  {
  }

  /** c is the first of the remaining channels whose score is least, and the score is below MAX_SIZE. */
  ghost predicate FirstMinimiser<K, A>(kernel: seq<K>, input: seq<A>, cost: Cost<K, A>, removed: seq<nat>, c: nat)
    requires |kernel| == |input| && InRange(removed, |kernel|)
  {
    var n := |kernel|;
    && c < n && c !in removed
    && Score(kernel, input, cost, removed, c) < 9223372036854775807.0
    && (forall d: nat :: d < n && d !in removed ==>
          Score(kernel, input, cost, removed, c) <= Score(kernel, input, cost, removed, d))
    && (forall d: nat :: d < c && d !in removed ==>
          Score(kernel, input, cost, removed, c) < Score(kernel, input, cost, removed, d))
  }

  ghost predicate NoMinimiser<K, A>(kernel: seq<K>, input: seq<A>, cost: Cost<K, A>, removed: seq<nat>)
    requires |kernel| == |input| && InRange(removed, |kernel|)
  {
    forall d: nat :: d < |kernel| && d !in removed ==> Score(kernel, input, cost, removed, d) >= 9223372036854775807.0
  }

  /** Every removal picked the first minimiser of what was left. */
  ghost predicate GreedyRun<K, A>(kernel: seq<K>, input: seq<A>, cost: Cost<K, A>, removed: seq<nat>)
    requires |kernel| == |input|
  {
    && InRange(removed, |kernel|)
    && forall p :: 0 <= p < |removed| ==> FirstMinimiser(kernel, input, cost, removed[..p], removed[p])
  }

  /** The running minimum and its index after the candidates s. */
  ghost predicate BestOf(score: nat -> real, s: seq<nat>, min: real, best: Option<nat>)
  {
    match best
    case None => min == MAX_SIZE as real && forall c <- s :: score(c) >= min
    case Some(b) =>
      && b in s && min == score(b) < MAX_SIZE as real
      && forall c <- s :: min <= score(c) && (c < b ==> min < score(c))
  }

  lemma BestOfLonger(score: nat -> real, s: seq<nat>, c: nat, min: real, best: Option<nat>)
    requires BestOf(score, s, min, best) && forall d <- s :: d < c
    ensures if score(c) < min then BestOf(score, s + [c], score(c), Some(c)) else BestOf(score, s + [c], min, best)
  {
  }

  function Scores<K, A>(kernel: seq<K>, input: seq<A>, cost: Cost<K, A>, removed: seq<nat>): (score: nat -> real)
    requires |kernel| == |input| && InRange(removed, |kernel|)
  {
    (c: nat) => if c < |kernel| then Score(kernel, input, cost, removed, c) else 0.0
  }

  lemma BestOfAll<K, A>(kernel: seq<K>, input: seq<A>, cost: Cost<K, A>, removed: seq<nat>, min: real,
                        best: Option<nat>)
    requires |kernel| == |input| && InRange(removed, |kernel|)
    requires BestOf(Scores(kernel, input, cost, removed), Remaining(|kernel|, removed), min, best)
    ensures best.Some? ==> FirstMinimiser(kernel, input, cost, removed, best.value)
    ensures best.None? ==> NoMinimiser(kernel, input, cost, removed)
  {
    hide Score;
    RemainingIs(|kernel|, removed);
    var s := Remaining(|kernel|, removed);
    assert forall d: nat :: d < |kernel| && d !in removed ==>
      d in s && Scores(kernel, input, cost, removed)(d) == Score(kernel, input, cost, removed, d);
  }

  /** The inner loop: the slices of a candidate are appended to the slices selected so far. */
  method PickChannel<K, A>(kernel: seq<K>, input: seq<A>, cost: Cost<K, A>, removed: seq<nat>, s: seq<nat>,
                           kernelSelected: seq<K>, inputSelected: seq<A>) returns (minIndex: Option<nat>)
    requires |kernel| == |input| && InRange(removed, |kernel|)
    requires s == Remaining(|kernel|, removed)
    requires kernelSelected == Gather(kernel, removed) && inputSelected == Gather(input, removed)
    ensures minIndex.Some? ==> FirstMinimiser(kernel, input, cost, removed, minIndex.value)
    ensures minIndex.None? ==> NoMinimiser(kernel, input, cost, removed)
  {
    hide Remaining, Score, BestOf, FirstMinimiser, NoMinimiser;
    var min := MAX_SIZE as real;
    minIndex := None;
    ghost var score := Scores(kernel, input, cost, removed);
    RemainingIs(|kernel|, removed);
    assert BestOf(score, s[..0], min, minIndex) by { BestOfNone(score); }
    for k := 0 to |s|
      invariant BestOf(score, s[..k], min, minIndex)
    {
      var i := s[k];
      assert i in s;
      var curOutput := cost(kernelSelected + [kernel[i]], inputSelected + [input[i]]);
      ScoreOfSlices(kernel, input, cost, removed, i);
      assert s[..k + 1] == s[..k] + [i];
      BestOfLonger(score, s[..k], i, min, minIndex);
      if curOutput < min {
        min, minIndex := curOutput, Some(i);
      }
    }
    assert s[..|s|] == s;
    BestOfAll(kernel, input, cost, removed, min, minIndex);
  }

  lemma BestOfNone(score: nat -> real)
    ensures BestOf(score, [], MAX_SIZE as real, None)
  {
  }

  lemma EmptyRun<K, A>(kernel: seq<K>, input: seq<A>, cost: Cost<K, A>)
    requires |kernel| == |input|
    ensures GreedyRun(kernel, input, cost, [])
  {
  }

  /** Removing a value from a list without duplicates. */
  function Without(s: seq<nat>, c: nat): (r: seq<nat>)
  {
    if s == [] then []
    else if s[|s| - 1] == c then s[..|s| - 1]
    else Without(s[..|s| - 1], c) + [s[|s| - 1]]
  }

  lemma {:induction false} RemainingWithout(n: nat, removed: seq<nat>, longer: seq<nat>, c: nat)
    requires c < n && c !in removed && longer == removed + [c]
    ensures Remaining(n, longer) == Without(Remaining(n, removed), c)
  {
    hide Without;
    var front := Remaining(n - 1, removed);
    if c == n - 1 {
      WithoutLast(front, c, c);
      SameRemaining(n - 1, removed, longer);
    } else {
      RemainingWithout(n - 1, removed, longer, c);
      assert n - 1 in longer <==> n - 1 in removed;
      WithoutLast(front, n - 1, c);
    }
  }

  lemma WithoutLast(front: seq<nat>, last: nat, c: nat)
    ensures Without(front + [last], c) == if last == c then front else Without(front, c) + [last]
  {
    assert (front + [last])[..|front|] == front;
  }

  lemma {:induction false} SameRemaining(n: nat, a: seq<nat>, b: seq<nat>)
    requires forall d: nat :: d < n ==> (d in a <==> d in b)
    ensures Remaining(n, a) == Remaining(n, b)
  {
    if n > 0 {
      SameRemaining(n - 1, a, b);
      assert n - 1 in a <==> n - 1 in b;
    }
  }

  /** One pass of the outer loop keeps the run greedy. */
  lemma GreedyStep<K, A>(kernel: seq<K>, input: seq<A>, cost: Cost<K, A>, removed: seq<nat>, c: nat)
    requires |kernel| == |input| && GreedyRun(kernel, input, cost, removed)
    requires FirstMinimiser(kernel, input, cost, removed, c)
    ensures GreedyRun(kernel, input, cost, removed + [c])
  {
    var longer := removed + [c];
    forall p | 0 <= p < |longer| ensures FirstMinimiser(kernel, input, cost, longer[..p], longer[p]) {
      assert longer[..p] == removed[..p];
      if p == |removed| { assert removed[..p] == removed; }
    }
  }

  /** One pass of the outer loop: the next channel is chosen, moved, and its slices inserted. */
  method RemoveNext<K, A>(kernel: seq<K>, input: seq<A>, cost: Cost<K, A>, removed: seq<nat>, s: seq<nat>,
                          kernelSelected: seq<K>, inputSelected: seq<A>)
    returns (ok: bool, removed': seq<nat>, s': seq<nat>, kernelSelected': seq<K>, inputSelected': seq<A>)
    requires |kernel| == |input| && GreedyRun(kernel, input, cost, removed)
    requires s == Remaining(|kernel|, removed)
    requires kernelSelected == Gather(kernel, removed) && inputSelected == Gather(input, removed)
    ensures !ok ==> NoMinimiser(kernel, input, cost, removed) && removed' == removed
    ensures ok ==> |removed'| == |removed| + 1 && removed' == removed + [removed'[|removed|]]
    ensures InRange(removed', |kernel|)
    ensures ok ==> GreedyRun(kernel, input, cost, removed') && s' == Remaining(|kernel|, removed')
    ensures ok ==> kernelSelected' == Gather(kernel, removed') && inputSelected' == Gather(input, removed')
  {
    hide Remaining, Without, NoMinimiser, Score;
    ok, removed', s', kernelSelected', inputSelected' := false, removed, s, kernelSelected, inputSelected;
    var minIndex := PickChannel(kernel, input, cost, removed, s, kernelSelected, inputSelected);
    if minIndex.Some? {
      var c := minIndex.value;
      GreedyStep(kernel, input, cost, removed, c);
      ScoreOfSlices(kernel, input, cost, removed, c);
      removed' := removed + [c];
      RemainingWithout(|kernel|, removed, removed', c);
      s' := Without(s, c);
      kernelSelected' := kernelSelected + [kernel[c]];
      inputSelected' := inputSelected + [input[c]];
      ok := true;
    }
  }

  /** A greedy run never removes a channel twice; a full one is a permutation of all channels. */
  lemma GreedyRunIsInjective<K, A>(kernel: seq<K>, input: seq<A>, cost: Cost<K, A>, removed: seq<nat>)
    requires |kernel| == |input| && GreedyRun(kernel, input, cost, removed)
    ensures NoDuplicates(removed)
    ensures |removed| <= |kernel|
    ensures |removed| == |kernel| ==> forall c: nat :: c < |kernel| ==> c in removed
  {
    forall i, j | 0 <= i < j < |removed| ensures removed[i] != removed[j] {
      assert FirstMinimiser(kernel, input, cost, removed[..j], removed[j]);
      assert removed[..j][i] == removed[i];
    }
    Counting(|kernel|, removed);
  }

  lemma {:induction false} Counting(n: nat, s: seq<nat>)
    requires InRange(s, n) && NoDuplicates(s)
    ensures |s| + |Remaining(n, s)| == n
    ensures |s| == n ==> forall c: nat :: c < n ==> c in s
  {
    if s == [] {
      AllRemain(n);
    } else {
      var front, c := s[..|s| - 1], s[|s| - 1];
      Counting(n, front);
      assert s == front + [c];
      RemainingIs(n, front);
      RemainingWithout(n, front, s, c);
      WithoutLength(Remaining(n, front), c);
    }
    RemainingIs(n, s);
    assert |s| == n ==> Remaining(n, s) == [];
  }

  lemma {:induction false} AllRemain(n: nat)
    ensures |Remaining(n, [])| == n
  {
    if n > 0 { AllRemain(n - 1); }
  }

  lemma {:induction false} WithoutLength(s: seq<nat>, c: nat)
    requires c in s
    ensures |Without(s, c)| == |s| - 1
  {
    if s[|s| - 1] != c {
      WithoutLength(s[..|s| - 1], c);
    }
  }

  /** The removal order is determined: two greedy runs of one length are the same. */
  lemma {:induction false} GreedyRunIsUnique<K, A>(kernel: seq<K>, input: seq<A>, cost: Cost<K, A>, a: seq<nat>,
                                                   b: seq<nat>)
    requires |kernel| == |input| && GreedyRun(kernel, input, cost, a) && GreedyRun(kernel, input, cost, b)
    requires |a| == |b|
    ensures a == b
  {
    if a != [] {
      var n := |a| - 1;
      forall p | 0 <= p < n
        ensures FirstMinimiser(kernel, input, cost, a[..n][..p], a[..n][p])
        ensures FirstMinimiser(kernel, input, cost, b[..n][..p], b[..n][p])
      {
        assert a[..n][..p] == a[..p] && b[..n][..p] == b[..p];
      }
      GreedyRunIsUnique(kernel, input, cost, a[..n], b[..n]);
      assert FirstMinimiser(kernel, input, cost, a[..n], a[n]) && FirstMinimiser(kernel, input, cost, b[..n], b[n]);
      assert a == a[..n] + [a[n]] && b == b[..n] + [b[n]];
    }
  }

  // --- SRNet -------------------------------------------------------------------

  function Reversed(s: seq<nat>): (r: seq<nat>)
    ensures |r| == |s| && forall i :: 0 <= i < |s| ==> r[i] == s[|s| - 1 - i]
  {
    seq(|s|, i requires 0 <= i < |s| => s[|s| - 1 - i])
  }

  /** `int((20 - ratio) * step)` with step = 0.05 * n, exactly. */
  function KeptLength(n: nat, ratio: nat): (length: nat)
    requires ratio <= 20
    ensures length <= n
  {
    (20 - ratio) * n / 20
  }

  /** None stands for the ValueError of `S.remove(-1)`. */
  method SrnetOrder<K, A>(kernel: seq<K>, input: seq<A>, cost: Cost<K, A>)
    returns (sorted: Option<seq<nat>>, removed: seq<nat>)
    requires |kernel| == |input|
    ensures GreedyRun(kernel, input, cost, removed)
    ensures sorted.Some? ==> |removed| == |kernel| && sorted.value == Reversed(removed)
    ensures sorted.None? ==> |removed| < |kernel| && NoMinimiser(kernel, input, cost, removed)
  {
    hide GreedyRun, NoMinimiser, Remaining;
    var channelToRemove: seq<nat> := [];
    EmptyRun(kernel, input, cost);
    var s := Remaining(|kernel|, channelToRemove);
    var kernelSelected, inputSelected := Gather(kernel, channelToRemove), Gather(input, channelToRemove);
    for count := 0 to |input|
      invariant |channelToRemove| == count && GreedyRun(kernel, input, cost, channelToRemove)
      invariant InRange(channelToRemove, |kernel|) && s == Remaining(|kernel|, channelToRemove)
      invariant kernelSelected == Gather(kernel, channelToRemove) && inputSelected == Gather(input, channelToRemove)
    {
      var ok;
      ok, channelToRemove, s, kernelSelected, inputSelected :=
        RemoveNext(kernel, input, cost, channelToRemove, s, kernelSelected, inputSelected);
      if !ok {
        return None, channelToRemove;
      }
    }
    return Some(Reversed(channelToRemove)), channelToRemove;
  }

  /** The trials of the SRNet detector: for each ratio the prefix it keeps, empty ones skipped. */
  method SrnetTrials(sorted: seq<nat>) returns (trials: seq<(nat, seq<nat>)>)
    ensures forall t :: 0 <= t < |trials| ==>
              1 <= trials[t].0 <= 19 && trials[t].1 == sorted[..KeptLength(|sorted|, trials[t].0)] != []
    ensures forall ratio :: 1 <= ratio <= 19 && KeptLength(|sorted|, ratio) >= 1 ==>
              (ratio, sorted[..KeptLength(|sorted|, ratio)]) in trials
    ensures forall t, u :: 0 <= t < u < |trials| ==> trials[t].0 < trials[u].0 && trials[u].1 <= trials[t].1
  {
    trials := [];
    for ratio := 1 to 20
      invariant forall t :: 0 <= t < |trials| ==>
                  1 <= trials[t].0 < ratio && trials[t].1 == sorted[..KeptLength(|sorted|, trials[t].0)] != []
      invariant forall r :: 1 <= r < ratio && KeptLength(|sorted|, r) >= 1 ==>
                  (r, sorted[..KeptLength(|sorted|, r)]) in trials
      invariant forall t, u :: 0 <= t < u < |trials| ==> trials[t].0 < trials[u].0 && trials[u].1 <= trials[t].1
    {
      var length := KeptLength(|sorted|, ratio);
      var s := sorted[..length];
      forall t | 0 <= t < |trials| ensures s <= trials[t].1 {
        KeptShrinks(|sorted|, trials[t].0, ratio);
      }
      if |s| >= 1 {
        trials := trials + [(ratio, s)];
      }
    }
  }

  lemma KeptShrinks(n: nat, a: nat, b: nat)
    requires a <= b <= 20
    ensures KeptLength(n, b) <= KeptLength(n, a)
  {
    assert (20 - b) * n <= (20 - a) * n by { assert (20 - a) * n == (20 - b) * n + (b - a) * n; }
  }

  // --- XuNet -------------------------------------------------------------------

  /** How many trials have been run once `length` channels are removed. */
  function TrialsDone(n: nat, length: nat): nat
  {
    if n >= 20 then 20 * length / n else length
  }

  /** How many channels are removed when trial k is run. */
  function TrialLength(n: nat, k: nat): nat
  {
    if n >= 20 then (n * k + 19) / 20 else k
  }

  /** The loop with the step counter: at most one trial per removal, S rebuilt for it. */
  method XunetTrials<K, A>(kernel: seq<K>, input: seq<A>, cost: Cost<K, A>)
    returns (ok: bool, trials: seq<(nat, seq<nat>)>, removed: seq<nat>)
    requires |kernel| == |input|
    ensures GreedyRun(kernel, input, cost, removed)
    ensures if ok then |removed| == |kernel| else |removed| < |kernel| && NoMinimiser(kernel, input, cost, removed)
    ensures |trials| == TrialsDone(|kernel|, |removed|)
    ensures forall k: nat :: 1 <= k <= |trials| ==>
              TrialLength(|kernel|, k) <= |removed| &&
              trials[k - 1] == (k, Remaining(|kernel|, removed[..TrialLength(|kernel|, k)]))
  {
    hide GreedyRun, NoMinimiser, Remaining, TrialsDone, TrialLength;
    var n := |input|;
    var channelToRemove: seq<nat> := [];
    EmptyRun(kernel, input, cost);
    var s := Remaining(n, channelToRemove);
    var kernelSelected, inputSelected := Gather(kernel, channelToRemove), Gather(input, channelToRemove);
    var stepCount := 1;
    assert TrialsDone(n, 0) == 0 by { NoTrialYet(n); }
    trials := [];
    while |channelToRemove| < n
      invariant |channelToRemove| <= n && GreedyRun(kernel, input, cost, channelToRemove)
      invariant InRange(channelToRemove, n) && s == Remaining(n, channelToRemove)
      invariant kernelSelected == Gather(kernel, channelToRemove) && inputSelected == Gather(input, channelToRemove)
      invariant stepCount == |trials| + 1 && |trials| == TrialsDone(n, |channelToRemove|)
      invariant forall k: nat :: 1 <= k <= |trials| ==>
                  TrialLength(n, k) <= |channelToRemove| &&
                  trials[k - 1] == (k, Remaining(n, channelToRemove[..TrialLength(n, k)]))
    {
      ghost var before := channelToRemove;
      ok, channelToRemove, s, kernelSelected, inputSelected :=
        RemoveNext(kernel, input, cost, channelToRemove, s, kernelSelected, inputSelected);
      if !ok {
        return false, trials, channelToRemove;
      }
      assert forall m :: 0 <= m <= |before| ==> channelToRemove[..m] == before[..m];
      TrialArithmetic(n, |before|);
      if 20 * |channelToRemove| >= n * stepCount {
        s := Remaining(n, channelToRemove);
        assert channelToRemove[..|channelToRemove|] == channelToRemove;
        trials := trials + [(stepCount, s)];
        stepCount := stepCount + 1;
      }
    }
    return true, trials, channelToRemove;
  }

  lemma LastMultiple(a: nat, n: nat, k: nat)
    requires n > 0 && k == a / n + 1
    ensures n * k - n <= a < n * k
  {
    assert a == n * (a / n) + a % n;
    assert n * k == n * (a / n) + n;
  }

  lemma NoTrialYet(n: nat)
    ensures TrialsDone(n, 0) == 0
  {
  }

  /** One more removal runs the next trial exactly when the counter says so, and never two. */
  lemma TrialArithmetic(n: nat, length: nat)
    requires length < n
    ensures var k := TrialsDone(n, length) + 1;
            if 20 * (length + 1) >= n * k then TrialsDone(n, length + 1) == k && TrialLength(n, k) == length + 1
            else TrialsDone(n, length + 1) == k - 1
  {
    var k := TrialsDone(n, length) + 1;
    if n >= 20 {
      var product := n * k;
      LastMultiple(20 * length, n, k);
      assert n * (k + 1) == product + n && n * (k - 1) == product - n;
      if 20 * (length + 1) >= product {
        QuotientIs(20 * (length + 1), n, k);
        QuotientIs(product + 19, 20, length + 1);
      } else {
        QuotientIs(20 * (length + 1), n, k - 1);
      }
    } else {
      assert n * k <= 20 * (length + 1) by {
        assert n * (length + 1) <= 20 * (length + 1);
      }
    }
  }

  /** A later trial keeps only channels the earlier ones kept. */
  lemma XunetKeptShrinks(order: seq<nat>, j: nat, k: nat)
    requires j <= k && TrialLength(|order|, k) <= |order|
    ensures TrialLength(|order|, j) <= TrialLength(|order|, k)
    ensures forall c :: c in Remaining(|order|, order[..TrialLength(|order|, k)]) ==>
                        c in Remaining(|order|, order[..TrialLength(|order|, j)])
  {
    var n := |order|;
    Multiple(n, j, k);
    var shorter, longer := order[..TrialLength(n, j)], order[..TrialLength(n, k)];
    RemainingIs(n, shorter);
    RemainingIs(n, longer);
    assert forall i :: 0 <= i < |shorter| ==> shorter[i] == longer[i];
  }

  lemma QuotientIs(a: nat, b: nat, q: nat)
    requires b > 0 && b * q <= a < b * (q + 1)
    ensures a / b == q
  {
    DivisionIs(a, b, q, a - b * q);
  }

  lemma Multiple(b: nat, q: nat, r: nat)
    requires q <= r
    ensures b * q <= b * r
  {
    assert b * r == b * q + b * (r - q);
  }

  /** The SRNet detector runs a trial at rate k: prefixes without a channel are skipped. */
  predicate SrnetTries(n: nat, k: nat)
    requires k <= 20
  {
    KeptLength(n, k) >= 1
  }

  /** The XuNet detector runs a trial at rate k, even when no channel is left. */
  predicate XunetTries(n: nat, k: nat)
  {
    1 <= k <= TrialsDone(n, n)
  }

  /** At rate k both detectors run a trial or neither does, and both keep the same channels in it. */
  ghost predicate SameTrial(order: seq<nat>, k: nat)
    requires k <= 20
  {
    var n := |order|;
    && (SrnetTries(n, k) <==> XunetTries(n, k))
    && (XunetTries(n, k) ==>
         && TrialLength(n, k) <= n
         && forall c :: c in Remaining(n, order[..TrialLength(n, k)]) <==> c in Reversed(order)[..KeptLength(n, k)])
  }

  /** The last K of a permutation, reversed or complemented, are the same channels. */
  lemma TailIsComplement(order: seq<nat>, m: nat)
    requires InRange(order, |order|) && NoDuplicates(order)
    requires m <= |order|
    ensures forall c :: c in Remaining(|order|, order[..m]) <==> c in Reversed(order)[..|order| - m]
  {
    hide Remaining, Reversed;
    var n, head, tail := |order|, order[..m], Reversed(order)[..|order| - m];
    Counting(n, order);
    RemainingIs(n, head);
    forall c: nat ensures c in Remaining(n, head) <==> c in tail {
      if c in tail {
        var i :| 0 <= i < |tail| && tail[i] == c;
        assert order[n - 1 - i] == c;
        NotInHead(order, m, n - 1 - i);
      } else if c < n {
        assert c in order;
        var i :| 0 <= i < n && order[i] == c;
        if i < m {
          assert head[i] == c;
        } else {
          InTail(order, m, i);
        }
      }
    }
  }

  lemma InTail(order: seq<nat>, m: nat, i: nat)
    requires m <= i < |order|
    ensures order[i] in Reversed(order)[..|order| - m]
  {
    assert Reversed(order)[..|order| - m][|order| - 1 - i] == order[i];
  }

  lemma NotInHead(order: seq<nat>, m: nat, i: nat)
    requires NoDuplicates(order)
    requires m <= i < |order|
    ensures order[i] !in order[..m]
  {
  }

  lemma KeptIsRest(n: nat, k: nat)
    requires n >= 20 && 1 <= k <= 19
    ensures TrialLength(n, k) <= n && 1 <= KeptLength(n, k) == n - TrialLength(n, k) && k <= TrialsDone(n, n)
  {
    var m := (n * k + 19) / 20;
    assert 20 * m <= n * k + 19 < 20 * (m + 1);
    Multiple(n, k, 19);
    assert (20 - k) * n == 20 * n - n * k;
    QuotientIs((20 - k) * n, 20, n - m);
    QuotientIs(20 * n, n, 20);
  }

  /** On a small layer the XuNet detector's last trial keeps no channel, which the SRNet detector never tries. */
  lemma SmallLayersDiffer(order: seq<nat>)
    requires 1 <= |order| < 20 && InRange(order, |order|)
    requires NoDuplicates(order)
    ensures !SameTrial(order, |order|)
  {
    var n := |order|;
    assert XunetTries(n, n) && TrialLength(n, n) == n && order[..n] == order;
    if SrnetTries(n, n) {
      Counting(n, order);
      RemainingIs(n, order);
      var c := Reversed(order)[0];
      assert c in Reversed(order)[..KeptLength(n, n)] && c == order[n - 1];
      assert c !in Remaining(n, order);
    }
  }

  /**
   Given one removal order, the step-counter loop and the reversed-prefix rule run the same
   trials at all nineteen rates and keep the same channels in them, if and only if the layer
   has no channel or at least 20.
  */
  lemma DetectorsAgreeIff(order: seq<nat>)
    requires InRange(order, |order|) && NoDuplicates(order)
    ensures (forall k: nat :: 1 <= k <= 19 ==> SameTrial(order, k)) <==> |order| == 0 || |order| >= 20
  {
    hide SameTrial;
    var n := |order|;
    if 1 <= n < 20 {
      SmallLayersDiffer(order);
    } else {
      forall k: nat | 1 <= k <= 19 ensures SameTrial(order, k) {
        LargeLayersAgree(order, k);
      }
    }
  }

  lemma LargeLayersAgree(order: seq<nat>, k: nat)
    requires InRange(order, |order|) && NoDuplicates(order)
    requires (|order| == 0 || |order| >= 20) && 1 <= k <= 19
    ensures SameTrial(order, k)
  {
    if |order| >= 20 {
      KeptIsRest(|order|, k);
      hide Remaining, Reversed, KeptLength, TrialLength, TrialsDone;
      TailIsComplement(order, TrialLength(|order|, k));
    }
  }

  /** The trial after the last rate: the step counter always ends on the empty list. */
  lemma LastTrialIsEmpty(order: seq<nat>)
    requires |order| >= 1 && InRange(order, |order|)
    requires NoDuplicates(order)
    ensures var n := |order|;
            var last := TrialsDone(n, n);
            last == (if n >= 20 then 20 else n) && TrialLength(n, last) == n && Remaining(n, order[..n]) == []
  {
    var n := |order|;
    if n >= 20 {
      QuotientIs(20 * n, n, 20);
      QuotientIs(n * 20 + 19, 20, n);
    }
    assert order[..n] == order;
    Counting(n, order);
  }
}
