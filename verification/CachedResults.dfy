/**
 What the cache is for, in runs of the protocol with its store: every result but an error
 is stored before its event is written, under the digest of its payload, and a later
 payload with the same digest is answered from the store.
*/
module CachedResults {
  import opened Common
  import opened RouterState
  import opened Protocol
  import opened Replies
  import opened Provenance
  import HashCache
  import Ledger

  /** The store is what its commands made of it. */
  ghost predicate HistoryKept(c: Config, w: World)
  {
    w.store == HashCache.StoreAfter(c.ttl, w.commands)
  }

  /** Put i is the analysis of generation g, stored under the hash of its payload. */
  ghost predicate PutFrom(c: Config, w: World, g: nat, r: Analysis, i: nat)
  {
    && g < |w.s.router.claimed| && i < |w.puts|
    && var put := w.puts[i];
       && put.origin == Some(g) && put.sha == c.hash(RawOf(w.s, g)) && c.show(put.score) == r.score
       && put.at < |w.commands| && w.commands[put.at].RouterResult?
       && w.commands[put.at].sha == put.sha && w.commands[put.at].verdict == r.verdict
       && w.commands[put.at].score == put.score
  }

  /** The processing has come to the event. */
  predicate PastStoring(phase: Phase)
  {
    phase.Persisting? || phase.Writing? || phase.Finished? || (phase.Raised? && phase.leftover.Some?)
  }

  ghost predicate ResultStored(c: Config, w: World, g: nat)
    requires g < |w.s.phases| && g < |w.s.replies|
  {
    var source := SourceOf(w.s.replies[g]);
    PastStoring(w.s.phases[g]) && source.Judged? && source.result.verdict != "ERROR" ==>
      exists i :: PutFrom(c, w, g, source.result, i)
  }

  ghost predicate ResultsStored(c: Config, w: World)
    requires |w.s.phases| == |w.s.replies|
  {
    forall g :: 0 <= g < |w.s.phases| ==> ResultStored(c, w, g)
  }

  /** The hash in an event is that of the payload. */
  ghost predicate DigestsKnown(c: Config, s: State)
    requires |s.replies| == |s.router.claimed|
  {
    forall g, b :: 0 <= g < |s.replies| && Captured(b) in s.replies[g] ==> b.sha256 == c.hash(RawOf(s, g))
  }

  ghost predicate Kept(c: Config, w: World)
  {
    && Inv(w.s) && Told(w.s) && |w.s.phases| == |w.s.replies| == |w.s.router.claimed|
    && HistoryKept(c, w) && ResultsStored(c, w) && DigestsKnown(c, w.s)
  }

  /** The processing gets past storing with a result only by storing it, or was past it with the same result. */
  lemma OnlyByStoring(s: State, g: nat, reply: Outcome)
    requires g < |s.phases| && g < |s.router.claimed| && g < |s.replies| && Fits(s.phases[g], reply)
    requires PhaseTold(s.phases[g], s.replies[g], RawOf(s, g)) && UnderWay(s.phases[g])
    requires PastStoring(ReplyStep(s, g, reply).phases[g])
    requires SourceOf(s.replies[g] + [reply]).Judged?
    requires SourceOf(s.replies[g] + [reply]).result.verdict != "ERROR"
    ensures SourceOf(s.replies[g]) == SourceOf(s.replies[g] + [reply])
    ensures PastStoring(s.phases[g]) ||
            (s.phases[g].Storing? && s.phases[g].result == SourceOf(s.replies[g]).result && reply == Return)
  {
    hide SourceOf, BuiltIn, EventOf, Ledger.AddStep;
    OneMoreReply(s.replies[g], reply);
  }

  lemma PutStays(c: Config, w: World, w': World, g: nat, r: Analysis, i: nat)
    requires PutFrom(c, w, g, r, i) && w.puts <= w'.puts && w.commands <= w'.commands
    requires w.s.router.claimed <= w'.s.router.claimed
    ensures PutFrom(c, w', g, r, i)
  {
  }

  /** What an action leaves of the other generations, and what it makes of the one it replies to. */
  lemma ActShape(s: State, a: Action)
    requires Enabled(s, a) && |s.phases| == |s.router.claimed| == |s.replies|
    ensures var s' := Next(s, a);
            && |s.phases| <= |s'.phases|
            && (forall g :: 0 <= g < |s.phases| ==>
                  || (&& s'.replies[..|s.replies|][g] == s.replies[g]
                      && PastStoring(s'.phases[g]) == PastStoring(s.phases[g]))
                  || Replied(s, a, g))
            && (forall g :: |s.phases| <= g < |s'.phases| ==> s'.phases[g] == Waiting)
  {
    hide ReplyStep, Fits, Ledger.Inv, Ledger.Apply;
    NextGrows(s, a);
    match a
    case Progress(g, reply) => Replying(s, g, reply);
    case Cancel(id, reply) => Replying(s, s.rpcs[id].current.value, reply);
    case _ =>
  }

  ghost predicate Replied(s: State, a: Action, g: nat)
  {
    ReplyIn(s, a).Some? && ReplyIn(s, a).value.0 == g
  }

  lemma Replying(s: State, g: nat, reply: Outcome)
    requires g < |s.phases| && g < |s.router.claimed| && g < |s.replies|
    ensures var s' := ProgressStep(s, g, reply);
            && s'.replies == s.replies[g := s.replies[g] + [reply]] && |s'.phases| == |s.phases|
            && forall h :: 0 <= h < |s.phases| && h != g ==> s'.phases[h] == s.phases[h]
  {
    hide EventOf, Ledger.AddStep;
  }

  lemma ActKeepsResults(c: Config, w: World, step: Step)
    requires Kept(c, w) && Possible(c, w, step) && step.Act?
    ensures |After(c, w, step).s.phases| == |After(c, w, step).s.replies|
    ensures ResultsStored(c, After(c, w, step))
  {
    hide Inv, Enabled, Next, ResultStored, HistoryKept, DigestsKnown, Told;
    var a, w' := step.a, After(c, w, step);
    NextKeepsInv(w.s, a);
    SameLengths(w'.s);
    NextGrows(w.s, a);
    ActShape(w.s, a);
    forall g: nat | g < |w'.s.phases| ensures ResultStored(c, w', g) {
      if g >= |w.s.phases| {
        NothingPast(c, w', g);
      } else if Replied(w.s, a, g) {
        RepliedKeepsResult(c, w, step, g);
      } else {
        OthersKeepResult(c, w, w', g);
      }
    }
  }

  lemma SameLengths(s: State)
    requires Inv(s)
    ensures |s.phases| == |s.replies| == |s.router.claimed|
  {
  }

  lemma NothingPast(c: Config, w: World, g: nat)
    requires g < |w.s.phases| && g < |w.s.replies| && !PastStoring(w.s.phases[g])
    ensures ResultStored(c, w, g)
  {
  }

  lemma OthersKeepResult(c: Config, w: World, w': World, g: nat)
    requires g < |w.s.phases| && g < |w.s.replies| && ResultStored(c, w, g)
    requires g < |w'.s.phases| && g < |w'.s.replies| && w'.s.replies[g] == w.s.replies[g]
    requires PastStoring(w'.s.phases[g]) == PastStoring(w.s.phases[g])
    requires w.puts <= w'.puts && w.commands <= w'.commands && w.s.router.claimed <= w'.s.router.claimed
    ensures ResultStored(c, w', g)
  {
    var source := SourceOf(w.s.replies[g]);
    if PastStoring(w.s.phases[g]) && source.Judged? && source.result.verdict != "ERROR" {
      var i :| PutFrom(c, w, g, source.result, i);
      PutStays(c, w, w', g, source.result, i);
    }
  }

  lemma ReplyHappens(s: State, a: Action, g: nat)
    requires Enabled(s, a) && Replied(s, a, g)
    ensures Awaiting(s, g) && Fits(s.phases[g], ReplyIn(s, a).value.1)
    ensures var s' := Next(s, a);
            var r' := ProgressStep(s, g, ReplyIn(s, a).value.1);
            s'.phases == r'.phases && s'.replies == r'.replies && s'.router == r'.router
  {
    hide ReplyStep, Fits, Ledger.Inv, Ledger.Apply;
  }

  lemma RepliedKeepsResult(c: Config, w: World, step: Step, g: nat)
    requires Kept(c, w) && Possible(c, w, step) && step.Act? && Replied(w.s, step.a, g) && g < |w.s.phases|
    requires HistoryGrows(w.s, After(c, w, step).s, ReplyIn(w.s, step.a))
    requires g < |After(c, w, step).s.phases| && g < |After(c, w, step).s.replies|
    ensures ResultStored(c, After(c, w, step), g)
  {
    hide Inv, Enabled, Next, HistoryKept, DigestsKnown, PutFrom, Fits, SourceOf;
    var w', reply := After(c, w, step), ReplyIn(w.s, step.a).value.1;
    ReplyHappens(w.s, step.a, g);
    var source := SourceOf(w'.s.replies[g]);
    if PastStoring(w'.s.phases[g]) && source.Judged? && source.result.verdict != "ERROR" {
      assert PhaseTold(w.s.phases[g], w.s.replies[g], RawOf(w.s, g));
      OnlyByStoring(w.s, g, reply);
      hide PhaseTold, ReplyStep;
      if PastStoring(w.s.phases[g]) {
        assert ResultStored(c, w, g);
        var i :| PutFrom(c, w, g, source.result, i);
        PutStays(c, w, w', g, source.result, i);
      } else {
        StoringPuts(c, w, step, g, source.result);
      }
    }
  }

  /** A store that returned is a put. */
  lemma StoringPuts(c: Config, w: World, step: Step, g: nat, r: Analysis)
    requires Possible(c, w, step) && step.Act? && Replied(w.s, step.a, g) && g < |w.s.phases|
    requires w.s.phases[g].Storing? && w.s.phases[g].result == r && r.verdict != "ERROR"
    requires ReplyIn(w.s, step.a).value.1 == Return
    requires w.s.router.claimed <= After(c, w, step).s.router.claimed
    ensures PutFrom(c, After(c, w, step), g, r, |w.puts|)
  {
    hide Enabled, Next, HashCache.After;
    var w' := After(c, w, step);
    assert w'.puts[|w.puts|].at == |w.commands|;
    assert w'.commands[|w.commands|] == HashCache.RouterResult(c.hash(RawOf(w.s, g)), r.verdict, step.score, step.now);
  }

  lemma ActKeepsDigests(c: Config, w: World, step: Step)
    requires Kept(c, w) && Possible(c, w, step) && step.Act?
    requires |After(c, w, step).s.replies| == |After(c, w, step).s.router.claimed|
    ensures DigestsKnown(c, After(c, w, step).s)
  {
    hide Inv, Told, Enabled, Next, HistoryKept, ResultsStored;
    var s, s' := w.s, After(c, w, step).s;
    NextGrows(s, step.a);
    forall g, b | 0 <= g < |s'.replies| && Captured(b) in s'.replies[g] ensures b.sha256 == c.hash(RawOf(s', g)) {
      if g < |s.replies| && Captured(b) in s.replies[g] {
        assert s'.router.claimed[g] == s.router.claimed[g];
      } else {
        assert ReplyIn(s, step.a) == Some((g, Captured(b)));
        assert s'.router.claimed[g] == s.router.claimed[g];
      }
    }
  }

  lemma HistoryLonger(c: Config, w: World, op: HashCache.Op, origin: Option<nat>)
    requires HistoryKept(c, w)
    ensures HistoryKept(c, Commanded(c, w, op, origin))
  {
    hide HashCache.After;
    var longer := w.commands + [op];
    assert longer[..|longer| - 1] == w.commands;
  }

  lemma ActKeepsHistory(c: Config, w: World, step: Step)
    requires HistoryKept(c, w) && Possible(c, w, step) && step.Act?
    ensures HistoryKept(c, After(c, w, step))
  {
    hide Enabled, Next, HistoryKept;
    if ReplyIn(w.s, step.a).Some? {
      var (g, reply) := ReplyIn(w.s, step.a).value;
      var command := CommandOf(c, w, g, reply, step.now, step.score, step.performed);
      if command.Some? {
        HistoryLonger(c, w, command.value, Some(g));
        SameHistory(c, Commanded(c, w, command.value, Some(g)), Next(w.s, step.a));
      } else {
        SameHistory(c, w, Next(w.s, step.a));
      }
    } else {
      SameHistory(c, w, Next(w.s, step.a));
    }
  }

  lemma SameHistory(c: Config, w: World, s: State)
    requires HistoryKept(c, w)
    ensures HistoryKept(c, w.(s := s))
  {
  }

  lemma IngestKeeps(c: Config, w: World, step: Step)
    requires Kept(c, w) && step.Ingest?
    ensures Kept(c, After(c, w, step))
  {
    hide Inv, Told, ResultStored, DigestsKnown, HistoryKept, HashCache.After;
    var op, w' := HashCache.IngestResult(step.sha, step.predicted, step.score, step.now), After(c, w, step);
    HistoryLonger(c, w, op, None);
    forall g: nat | g < |w'.s.phases| ensures ResultStored(c, w', g) {
      OthersKeepResult(c, w, w', g);
    }
  }

  lemma StepKeeps(c: Config, w: World, step: Step)
    requires Kept(c, w) && Possible(c, w, step)
    ensures Kept(c, After(c, w, step))
  {
    if step.Ingest? {
      IngestKeeps(c, w, step);
    } else {
      hide Inv, Told, Enabled, Next, HistoryKept, ResultsStored, DigestsKnown;
      NextKeepsInv(w.s, step.a);
      NextKeepsTold(w.s, step.a);
      SameLengths(After(c, w, step).s);
      ActKeepsHistory(c, w, step);
      ActKeepsResults(c, w, step);
      ActKeepsDigests(c, w, step);
    }
  }

  lemma StartKept(c: Config)
    ensures Kept(c, Start)
  {
    hide Inv;
    InitKept();
    SameLengths(Init);
  }

  lemma {:induction false} RunKeeps(c: Config, w: World, steps: seq<Step>)
    requires Kept(c, w)
    ensures Kept(c, RunWorld(c, w, steps))
    decreases |steps|
  {
    hide Kept, Possible, After;
    if steps != [] {
      if Possible(c, w, steps[0]) {
        StepKeeps(c, w, steps[0]);
        RunKeeps(c, After(c, w, steps[0]), steps[1..]);
      } else {
        RunKeeps(c, w, steps[1..]);
      }
    }
  }

  /** In every run, a generation that finished with a result other than ERROR has stored it under its payload's hash. */
  lemma FinishedIsCached(c: Config, steps: seq<Step>, g: nat)
    ensures var w := RunWorld(c, Start, steps);
            g < |w.s.phases| && w.s.phases[g].Finished? ==>
              && g < |w.s.replies|
              && var source := SourceOf(w.s.replies[g]);
                 source.Judged? && source.result.verdict != "ERROR" ==> exists i :: PutFrom(c, w, g, source.result, i)
  {
    StartKept(c);
    RunKeeps(c, Start, steps);
    var w := RunWorld(c, Start, steps);
    if g < |w.s.phases| && w.s.phases[g].Finished? {
      assert ResultStored(c, w, g);
    }
  }

  /**
   As long as the shorter of the writers' lifetimes has not passed since that put, the store
   answers for the hash: a payload with the same bytes cannot miss, and is not analysed again.
  */
  lemma CachedIsAnswered(c: Config, steps: seq<Step>, g: nat, r: Analysis, i: nat, now: int)
    requires c.ttl > 0 && HashCache.Monotone(RunWorld(c, Start, steps).commands)
    requires PutFrom(c, RunWorld(c, Start, steps), g, r, i) && r.verdict != "ERROR"
    requires var w := RunWorld(c, Start, steps);
             var stored := w.commands[w.puts[i].at].now;
             now < stored + 1000 * c.ttl && now < stored + 604_800_000
    ensures var w := RunWorld(c, Start, steps);
            && HashCache.Answer(w.store, c.hash(RawOf(w.s, g)), now).Some?
            && forall h: nat, score: real ::
                 h < |w.s.router.claimed| && c.hash(RawOf(w.s, h)) == c.hash(RawOf(w.s, g)) ==>
                   !CacheAllows(c, w, Progress(h, Miss), now, score)
  {
    hide Kept, RunWorld, PutFrom, CacheAllows;
    StartKept(c);
    RunKeeps(c, Start, steps);
    StoreAnswers(c, RunWorld(c, Start, steps), g, r, i, now);
  }

  lemma StoreAnswers(c: Config, w: World, g: nat, r: Analysis, i: nat, now: int)
    requires Kept(c, w) && c.ttl > 0 && HashCache.Monotone(w.commands)
    requires PutFrom(c, w, g, r, i) && r.verdict != "ERROR"
    requires now < w.commands[w.puts[i].at].now + 1000 * c.ttl && now < w.commands[w.puts[i].at].now + 604_800_000
    ensures HashCache.Answer(w.store, c.hash(RawOf(w.s, g)), now).Some?
    ensures forall h: nat, score: real ::
              h < |w.s.router.claimed| && c.hash(RawOf(w.s, h)) == c.hash(RawOf(w.s, g)) ==>
                !CacheAllows(c, w, Progress(h, Miss), now, score)
  {
    hide Inv, Told, ResultsStored, DigestsKnown, HashCache.Answer, HashCache.Monotone;
    HashCache.StoredIsAnswered(c.ttl, w.commands, w.puts[i].at, w.puts[i].sha, now);
  }

  /** In every run the hash in a queued entry is that of its generation's payload. */
  lemma EventHasPayloadHash(c: Config, steps: seq<Step>, id: nat)
    ensures var w := RunWorld(c, Start, steps);
            id < |w.s.queue.added| && w.s.queue.added[id].source.Some? ==>
              var g := w.s.queue.added[id].source.value;
              && g < |w.s.router.claimed|
              && Ledger.Get(w.s.queue.added[id].entry, Ledger.Sha256) == Some(c.hash(RawOf(w.s, g)))
  {
    hide Kept, RunWorld, Ledger.Get;
    StartKept(c);
    RunKeeps(c, Start, steps);
    var w := RunWorld(c, Start, steps);
    if id < |w.s.queue.added| && w.s.queue.added[id].source.Some? {
      EntryHasPayloadHash(c, w, id);
    }
  }

  lemma EntryHasPayloadHash(c: Config, w: World, id: nat)
    requires Kept(c, w) && id < |w.s.queue.added| && w.s.queue.added[id].source.Some?
    ensures var g := w.s.queue.added[id].source.value;
            && g < |w.s.router.claimed|
            && Ledger.Get(w.s.queue.added[id].entry, Ledger.Sha256) == Some(c.hash(RawOf(w.s, g)))
  {
    hide Inv, PhasesTold, HistoryKept, ResultsStored;
    var g := w.s.queue.added[id].source.value;
    assert EntryTold(w.s.queue.added[id].entry, w.s.router.claimed[g], w.s.replies[g]);
    BuiltIsReply(w.s.replies[g]);
  }

  lemma {:induction false} BuiltIsReply(replies: seq<Outcome>)
    ensures BuiltIn(replies).Some? ==> Captured(BuiltIn(replies).value) in replies
  {
    if replies != [] {
      BuiltIsReply(replies[..|replies| - 1]);
    }
  }
}
