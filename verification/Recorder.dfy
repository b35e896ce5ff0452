/**
 The recorder of pruning trials: five configuration files, one per tolerated loss of
 accuracy. A file maps section and option (detection type and layer) to the recorded
 accuracy and rate.
*/
module Recorder {
  import opened Common
  import opened Arithmetic

  const TOLERANCES: seq<real> := [0.02, 0.05, 0.10, 0.20, 0.50]

  datatype Trial = Trial(detectType: string, layer: string, acc: real, rate: string)
  datatype File = File(accs: map<string, map<string, real>>, rates: map<string, map<string, string>>)

  predicate Known(detectType: string)
  {
    detectType == "Thinet" || detectType == "L1"
  }

  predicate Within(tol: real, testAcc: real, acc: real)
  {
    Abs(testAcc - acc) <= tol
  }

  predicate Accepts(lastAcc: real, tol: real, testAcc: real, acc: real)
  {
    lastAcc <= acc || Within(tol, testAcc, acc)
  }

  predicate HasAcc(file: File, detectType: string, layer: string)
  {
    detectType in file.accs && layer in file.accs[detectType]
  }

  function Written(file: File, t: Trial): File
    requires HasAcc(file, t.detectType, t.layer) && t.detectType in file.rates
  {
    File(file.accs[t.detectType := file.accs[t.detectType][t.layer := t.acc]],
         file.rates[t.detectType := file.rates[t.detectType][t.layer := t.rate]])
  }

  /** One file after a trial; None for the exceptions of a missing section or option. */
  function Offer(file: File, t: Trial, tol: real, testAcc: real): (r: Option<File>)
    ensures r.Some? ==> HasAcc(r.value, t.detectType, t.layer)
  {
    if !HasAcc(file, t.detectType, t.layer) then None
    else if !Accepts(file.accs[t.detectType][t.layer], tol, testAcc, t.acc) then Some(file)
    else if t.detectType !in file.rates then None
    else Some(Written(file, t))
  }

  /** How many files are updated before the first exception. */
  function Served(files: seq<File>, tols: seq<real>, t: Trial, testAcc: real): (n: nat)
    requires |files| == |tols|
    ensures n <= |files|
  {
    if files == [] || Offer(files[0], t, tols[0], testAcc).None? then 0
    else 1 + Served(files[1..], tols[1..], t, testAcc)
  }

  lemma {:induction false} ServedIs(files: seq<File>, tols: seq<real>, t: Trial, testAcc: real, n: nat)
    requires |files| == |tols| && n <= |files|
    requires forall i :: 0 <= i < n ==> Offer(files[i], t, tols[i], testAcc).Some?
    requires n < |files| ==> Offer(files[n], t, tols[n], testAcc).None?
    ensures Served(files, tols, t, testAcc) == n
  {
    if n > 0 {
      ServedIs(files[1..], tols[1..], t, testAcc, n - 1);
    }
  }

  /** The five tolerated losses of accuracy. */
  function ToleranceOf(i: int): real
  {
    if i == 0 then 0.02 else if i == 1 then 0.05 else if i == 2 then 0.1 else if i == 3 then 0.2 else 0.5
  }

  /** The trial is no worse than the entry, or its accuracy is between testAcc - tol and testAcc + tol. */
  predicate Takes(file: File, t: Trial, tol: real, testAcc: real)
    requires HasAcc(file, t.detectType, t.layer)
  {
    file.accs[t.detectType][t.layer] <= t.acc || -tol <= testAcc - t.acc <= tol
  }

  /** The entry of the trial holds it iff the file takes it; every other entry is as before. */
  ghost predicate EntryRecorded(before: File, after: File, t: Trial, tol: real, testAcc: real)
  {
    && HasAcc(before, t.detectType, t.layer) && HasAcc(after, t.detectType, t.layer)
    && (if Takes(before, t, tol, testAcc)
        then && after.accs[t.detectType][t.layer] == t.acc
             && t.detectType in after.rates && t.layer in after.rates[t.detectType]
             && after.rates[t.detectType][t.layer] == t.rate
        else after == before)
    && (forall d, l :: d != t.detectType || l != t.layer ==>
          && (HasAcc(after, d, l) <==> HasAcc(before, d, l))
          && (HasAcc(before, d, l) ==> after.accs[d][l] == before.accs[d][l]))
    && (forall d, l :: d != t.detectType || l != t.layer ==>
          && (HasRate(after, d, l) <==> HasRate(before, d, l))
          && (HasRate(before, d, l) ==> after.rates[d][l] == before.rates[d][l]))
  }

  predicate HasRate(file: File, detectType: string, layer: string)
  {
    detectType in file.rates && layer in file.rates[detectType]
  }

  lemma OfferTakes(file: File, t: Trial, tol: real, testAcc: real)
    ensures var r := Offer(file, t, tol, testAcc);
            && (r.Some? <==> HasAcc(file, t.detectType, t.layer) &&
                             (Takes(file, t, tol, testAcc) ==> t.detectType in file.rates))
            && (r.Some? ==> EntryRecorded(file, r.value, t, tol, testAcc))
  {
  }

  class Recorder {
    const testAcc: real
    const files: array<File>

    constructor (files: array<File>, testAcc: real)
      requires files.Length == 5
      ensures this.files == files && this.testAcc == testAcc
    {
      this.files, this.testAcc := files, testAcc;
    }

    method WriteOne(i: nat, t: Trial) returns (ok: bool)
      requires i < 5 == files.Length
      modifies files
      ensures forall j :: 0 <= j < 5 && j != i ==> files[j] == old(files[j])
      ensures ok <==> Offer(old(files[i]), t, TOLERANCES[i], testAcc).Some?
      ensures files[i] == if ok then Offer(old(files[i]), t, TOLERANCES[i], testAcc).value else old(files[i])
      ensures ok ==> EntryRecorded(old(files[i]), files[i], t, ToleranceOf(i), testAcc)
    {
      OfferTakes(files[i], t, ToleranceOf(i), testAcc);
      if t.detectType !in files[i].accs || t.layer !in files[i].accs[t.detectType] {
        return false;
      }
      var lastAcc := files[i].accs[t.detectType][t.layer];
      if lastAcc <= t.acc || Abs(testAcc - t.acc) <= TOLERANCES[i] {
        if t.detectType !in files[i].rates {
          return false;
        }
        files[i] := files[i].(rates := files[i].rates[t.detectType := files[i].rates[t.detectType][t.layer := t.rate]]);
        files[i] := files[i].(accs := files[i].accs[t.detectType := files[i].accs[t.detectType][t.layer := t.acc]]);
      }
      return true;
    }

    /** The files before the first one that raises are written, the rest are not. */
    method Record(t: Trial) returns (ok: bool)
      requires files.Length == 5
      modifies files
      ensures t.detectType != "Thinet" && t.detectType != "L1" ==> ok && files[..] == old(files[..])
      ensures t.detectType == "Thinet" || t.detectType == "L1" ==>
                var n := Served(old(files[..]), TOLERANCES, t, testAcc);
                && (ok <==> n == 5)
                && (forall i :: 0 <= i < n ==> Some(files[i]) == Offer(old(files[i]), t, TOLERANCES[i], testAcc))
                && (forall i :: n <= i < 5 ==> files[i] == old(files[i]))
      ensures ok <==> t.detectType == "Thinet" || t.detectType == "L1" ==> forall i :: 0 <= i < 5 ==>
                HasAcc(old(files[i]), t.detectType, t.layer) &&
                (Takes(old(files[i]), t, ToleranceOf(i), testAcc) ==> t.detectType in old(files[i]).rates)
      ensures ok && (t.detectType == "Thinet" || t.detectType == "L1") ==> forall i :: 0 <= i < 5 ==>
                EntryRecorded(old(files[i]), files[i], t, ToleranceOf(i), testAcc)
    {
      ok := true;
      forall i | 0 <= i < 5
        ensures TOLERANCES[i] == ToleranceOf(i)
        ensures Offer(files[i], t, TOLERANCES[i], testAcc).Some? <==>
                HasAcc(files[i], t.detectType, t.layer) &&
                (Takes(files[i], t, ToleranceOf(i), testAcc) ==> t.detectType in files[i].rates)
        ensures Offer(files[i], t, TOLERANCES[i], testAcc).Some? ==>
                EntryRecorded(files[i], Offer(files[i], t, TOLERANCES[i], testAcc).value, t, ToleranceOf(i), testAcc)
      {
        OfferTakes(files[i], t, ToleranceOf(i), testAcc);
      }
      if !Known(t.detectType) {
        return;
      }
      for i := 0 to 5
        invariant ok
        invariant forall j :: 0 <= j < i ==> Some(files[j]) == Offer(old(files[j]), t, TOLERANCES[j], testAcc)
        invariant forall j :: i <= j < 5 ==> files[j] == old(files[j])
      {
        ok := WriteOne(i, t);
        if !ok {
          ServedIs(old(files[..]), TOLERANCES, t, testAcc, i);
          return;
        }
      }
      ServedIs(old(files[..]), TOLERANCES, t, testAcc, 5);
    }

    /** A whole detection over files that have every section: each file ends as its own fold. */
    method RecordAll(trials: seq<Trial>) returns (ok: bool)
      requires files.Length == 5
      requires forall t <- trials :: Known(t.detectType) && forall i :: 0 <= i < 5 ==>
                 Ready(files[i], t.detectType, t.layer)
      modifies files
      ensures ok
      ensures forall i :: 0 <= i < 5 ==> files[i] == After(old(files[i]), trials, TOLERANCES[i], testAcc)
    {
      ok := true;
      for k := 0 to |trials|
        invariant ok
        invariant forall i :: 0 <= i < 5 ==> files[i] == After(old(files[i]), trials[..k], TOLERANCES[i], testAcc)
      {
        var t := trials[k];
        assert trials[..k + 1][..k] == trials[..k];
        forall i | 0 <= i < 5 ensures Ready(files[i], t.detectType, t.layer) {
          ReadyAfter(old(files[i]), trials[..k], TOLERANCES[i], testAcc, t.detectType, t.layer);
        }
        ghost var before := files[..];
        if Served(files[..], TOLERANCES, t, testAcc) != 5 {
          ServedIs(files[..], TOLERANCES, t, testAcc, 5);
        }
        ok := Record(t);
      }
      assert trials[..|trials|] == trials;
    }
  }

  predicate Ready(file: File, detectType: string, layer: string)
  {
    HasAcc(file, detectType, layer) && detectType in file.rates
  }

  /** One file over a run of trials; a trial that raises leaves it as it was. */
  function After(file: File, trials: seq<Trial>, tol: real, testAcc: real): File
  {
    if trials == [] then file
    else
      var before := After(file, trials[..|trials| - 1], tol, testAcc);
      var r := Offer(before, trials[|trials| - 1], tol, testAcc);
      if r.Some? then r.value else before
  }

  lemma {:induction false} ReadyAfter(file: File, trials: seq<Trial>, tol: real, testAcc: real, detectType: string,
                                      layer: string)
    requires Ready(file, detectType, layer)
    ensures Ready(After(file, trials, tol, testAcc), detectType, layer)
  {
    if trials != [] {
      ReadyAfter(file, trials[..|trials| - 1], tol, testAcc, detectType, layer);
    }
  }

  // --- What one entry of one file holds ------------------------------------------------

  /** The index of the trial an entry holds: 0 for what the file held before, k for the k-th trial. */
  function Recorded(accs: seq<real>, tol: real, testAcc: real): (at: nat)
    requires |accs| > 0
    ensures at < |accs|
  {
    if |accs| == 1 then 0
    else
      var last := |accs| - 1;
      var at := Recorded(accs[..last], tol, testAcc);
      if Accepts(accs[at], tol, testAcc, accs[last]) then last else at
  }

  /** The trials of one detection type and layer. */
  function Mine(trials: seq<Trial>, detectType: string, layer: string): (mine: seq<Trial>)
  {
    if trials == [] then []
    else
      var last := trials[|trials| - 1];
      var own := last.detectType == detectType && last.layer == layer;
      Mine(trials[..|trials| - 1], detectType, layer) + if own then [last] else []
  }

  function Accs(file: File, mine: seq<Trial>, detectType: string, layer: string): (accs: seq<real>)
    requires HasAcc(file, detectType, layer)
    ensures |accs| == |mine| + 1
  {
    [file.accs[detectType][layer]] + seq(|mine|, i requires 0 <= i < |mine| => mine[i].acc)
  }

  ghost predicate Holds(before: File, after: File, mine: seq<Trial>, at: nat, detectType: string, layer: string)
  {
    && at <= |mine| && Ready(before, detectType, layer) && Ready(after, detectType, layer)
    && if at == 0 then
         && after.accs[detectType][layer] == before.accs[detectType][layer]
         && (layer in after.rates[detectType] <==> layer in before.rates[detectType])
         && (layer in before.rates[detectType] ==> after.rates[detectType][layer] == before.rates[detectType][layer])
       else
         && after.accs[detectType][layer] == mine[at - 1].acc
         && layer in after.rates[detectType] && after.rates[detectType][layer] == mine[at - 1].rate
  }

  lemma OtherEntry(file: File, before: File, mine: seq<Trial>, at: nat, t: Trial, tol: real, testAcc: real,
                   detectType: string, layer: string)
    requires Holds(file, before, mine, at, detectType, layer)
    requires t.detectType != detectType || t.layer != layer
    ensures var r := Offer(before, t, tol, testAcc);
            Holds(file, if r.Some? then r.value else before, mine, at, detectType, layer)
  {
  }

  lemma OwnEntry(file: File, before: File, mine: seq<Trial>, at: nat, t: Trial, tol: real, testAcc: real,
                 detectType: string, layer: string)
    requires Holds(file, before, mine, at, detectType, layer)
    requires t.detectType == detectType && t.layer == layer
    ensures var r := Offer(before, t, tol, testAcc);
            r.Some? && Holds(file, r.value, mine + [t],
                             if Accepts(before.accs[detectType][layer], tol, testAcc, t.acc) then |mine| + 1 else at,
                             detectType, layer)
  {
    assert at > 0 ==> (mine + [t])[at - 1] == mine[at - 1];
    assert (mine + [t])[|mine|] == t;
  }

  lemma RecordedLonger(file: File, mine: seq<Trial>, t: Trial, tol: real, testAcc: real, detectType: string,
                       layer: string)
    requires HasAcc(file, detectType, layer)
    ensures var accs, longer := Accs(file, mine, detectType, layer), Accs(file, mine + [t], detectType, layer);
            var at := Recorded(accs, tol, testAcc);
            Recorded(longer, tol, testAcc) == if Accepts(accs[at], tol, testAcc, t.acc) then |mine| + 1 else at
  {
    hide Accepts;
    var accs, longer := Accs(file, mine, detectType, layer), Accs(file, mine + [t], detectType, layer);
    assert longer[..|accs|] == accs;
    assert longer[|accs|] == t.acc;
  }

  /** Accuracy and rate of an entry come from one trial, and trials of other entries do not touch it. */
  lemma {:induction false} RateAndAccuracyTogether(file: File, trials: seq<Trial>, tol: real, testAcc: real,
                                                   detectType: string, layer: string)
    requires Ready(file, detectType, layer)
    ensures var mine := Mine(trials, detectType, layer);
            Holds(file, After(file, trials, tol, testAcc), mine,
                  Recorded(Accs(file, mine, detectType, layer), tol, testAcc), detectType, layer)
  {
    if trials != [] {
      hide Holds, Offer, Accepts, Recorded, Accs;
      var front, last := trials[..|trials| - 1], trials[|trials| - 1];
      RateAndAccuracyTogether(file, front, tol, testAcc, detectType, layer);
      var mine, before := Mine(front, detectType, layer), After(file, front, tol, testAcc);
      var accs := Accs(file, mine, detectType, layer);
      var at := Recorded(accs, tol, testAcc);
      if last.detectType == detectType && last.layer == layer {
        HoldsAcc(file, before, mine, at, detectType, layer);
        OwnEntry(file, before, mine, at, last, tol, testAcc, detectType, layer);
        RecordedLonger(file, mine, last, tol, testAcc, detectType, layer);
      } else {
        assert Mine(trials, detectType, layer) == mine;
        OtherEntry(file, before, mine, at, last, tol, testAcc, detectType, layer);
      }
    }
  }

  lemma HoldsAcc(before: File, after: File, mine: seq<Trial>, at: nat, detectType: string, layer: string)
    requires Holds(before, after, mine, at, detectType, layer)
    ensures at <= |mine| && Ready(after, detectType, layer)
            && after.accs[detectType][layer] == Accs(before, mine, detectType, layer)[at]
  {
  }

  predicate ReadyBoth(a: File, b: File, detectType: string, layer: string)
  {
    Ready(a, detectType, layer) && Ready(b, detectType, layer)
  }

  // --- Theorems over any sequence of trials ----------------------------------------------

  /** The last trial within the tolerance, or 0. */
  function LastWithin(accs: seq<real>, tol: real, testAcc: real): (j: nat)
    requires |accs| > 0
    ensures j < |accs|
  {
    if |accs| == 1 then 0
    else if Within(tol, testAcc, accs[|accs| - 1]) then |accs| - 1
    else LastWithin(accs[..|accs| - 1], tol, testAcc)
  }

  /** The entry holds the latest of the best trials since the last one within the tolerance. */
  lemma {:induction false} RecordedIsLatestBest(accs: seq<real>, tol: real, testAcc: real)
    requires |accs| > 0
    ensures var at, from := Recorded(accs, tol, testAcc), LastWithin(accs, tol, testAcc);
            && from <= at
            && (forall i :: from <= i < |accs| ==> accs[i] <= accs[at])
            && (forall i :: at < i < |accs| ==> accs[i] < accs[at])
  {
    if |accs| > 1 {
      var front := accs[..|accs| - 1];
      RecordedIsLatestBest(front, tol, testAcc);
      assert forall i :: 0 <= i < |front| ==> front[i] == accs[i];
    }
  }

  /** After a history the entry is at least the last trial whose loss was tolerated, and no earlier. */
  lemma {:induction false} AtLeastLastTolerated(accs: seq<real>, tol: real, testAcc: real, k: nat)
    requires 0 < k < |accs| && -tol <= testAcc - accs[k] <= tol
    requires forall j :: k < j < |accs| ==> !(-tol <= testAcc - accs[j] <= tol)
    ensures Recorded(accs, tol, testAcc) >= k && accs[Recorded(accs, tol, testAcc)] >= accs[k]
  {
    if k < |accs| - 1 {
      AtLeastLastTolerated(accs[..|accs| - 1], tol, testAcc, k);
    }
  }

  /** A larger tolerance records the same trial or a later one, whose accuracy is no higher. */
  lemma {:induction false} LargerToleranceIsLater(accs: seq<real>, a: real, b: real, testAcc: real)
    requires |accs| > 0 && a <= b
    ensures var atA, atB := Recorded(accs, a, testAcc), Recorded(accs, b, testAcc);
            atA <= atB && accs[atB] <= accs[atA]
  {
    if |accs| > 1 {
      LargerToleranceIsLater(accs[..|accs| - 1], a, b, testAcc);
    }
  }

  /** Once at or above test accuracy less the tolerance, the entry never falls below it. */
  lemma {:induction false} FloorIsKept(accs: seq<real>, k: nat, tol: real, testAcc: real)
    requires 0 < k <= |accs|
    requires accs[..k][Recorded(accs[..k], tol, testAcc)] >= testAcc - tol
    ensures accs[Recorded(accs, tol, testAcc)] >= testAcc - tol
  {
    if k == |accs| {
      assert accs[..k] == accs;
    } else {
      var front := accs[..|accs| - 1];
      assert front[..k] == accs[..k];
      FloorIsKept(front, k, tol, testAcc);
    }
  }

  /** The five files, started equal, are ordered: each records a trial no earlier and no better than the one before. */
  lemma FilesAreOrdered(file: File, trials: seq<Trial>, testAcc: real, detectType: string, layer: string, i: nat,
                        j: nat)
    requires Ready(file, detectType, layer) && i <= j < 5
    ensures var mine := Mine(trials, detectType, layer);
            var accs := Accs(file, mine, detectType, layer);
            var fileI, fileJ := After(file, trials, TOLERANCES[i], testAcc),
              After(file, trials, TOLERANCES[j], testAcc);
            var atI, atJ := Recorded(accs, TOLERANCES[i], testAcc), Recorded(accs, TOLERANCES[j], testAcc);
            && Holds(file, fileI, mine, atI, detectType, layer)
            && Holds(file, fileJ, mine, atJ, detectType, layer)
            && ReadyBoth(fileI, fileJ, detectType, layer)
            && atI <= atJ && fileJ.accs[detectType][layer] <= fileI.accs[detectType][layer]
  {
    hide Recorded, Holds, Accs, After, Mine;
    var mine := Mine(trials, detectType, layer);
    var accs := Accs(file, mine, detectType, layer);
    var a, b := TOLERANCES[i], TOLERANCES[j];
    RateAndAccuracyTogether(file, trials, a, testAcc, detectType, layer);
    RateAndAccuracyTogether(file, trials, b, testAcc, detectType, layer);
    HoldsAcc(file, After(file, trials, a, testAcc), mine, Recorded(accs, a, testAcc), detectType, layer);
    HoldsAcc(file, After(file, trials, b, testAcc), mine, Recorded(accs, b, testAcc), detectType, layer);
    LargerToleranceIsLater(accs, a, b, testAcc);
  }
}
