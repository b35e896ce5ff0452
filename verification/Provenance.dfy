/**
 The routing protocol together with the store behind its cache. The hash of a payload and
 the printing of a score are any functions; the replies of the cache are those of the store.
*/
module Provenance {
  import opened Common
  import opened RouterState
  import opened Protocol
  import opened Replies
  import HashCache
  import Ledger

  datatype Config = Config(ttl: int, hash: seq<byte> -> string, show: real -> string)

  /** History: a score put under a hash, by the analysis of a generation or by an ingest job, in which command. */
  datatype Put = Put(sha: string, score: real, origin: Option<nat>, at: nat)

  datatype World = World(s: State, store: HashCache.Store, puts: seq<Put>, commands: seq<HashCache.Op>)

  const Start := World(Init, map[], [], [])

  /**
   An action of the protocol at a time, with the number behind the printed score of a result
   being stored, and whether a command that raises was performed; or an ingest job.
  */
  datatype Step =
    | Act(a: Action, now: int, score: real, performed: bool)
    | Ingest(sha: string, predicted: string, score: real, now: int)

  function RawOf(s: State, g: nat): seq<byte>
    requires g < |s.router.claimed|
  {
    Join(s.router.claimed[g].1.chunks)
  }

  /** The generation that takes a reply in an action, and the reply. */
  function ReplyIn(s: State, a: Action): Option<(nat, Outcome)>
  {
    match a
    case Progress(g, reply) => Some((g, reply))
    case Cancel(id, reply) =>
      if id in s.rpcs && s.rpcs[id].Flushing? && s.rpcs[id].current.Some? then Some((s.rpcs[id].current.value, reply))
      else None
    case _ => None
  }

  /** The digest is that of the payload, the cache answers what its store holds, and a stored result was analysed. */
  ghost predicate CacheAllows(c: Config, w: World, a: Action, now: int, score: real)
  {
    match ReplyIn(w.s, a)
    case None => true
    case Some((g, reply)) =>
      && g < |w.s.router.claimed| && g < |w.s.phases|
      && var answer := HashCache.Answer(w.store, c.hash(RawOf(w.s, g)), now);
         && (reply.Captured? ==> reply.built.sha256 == c.hash(RawOf(w.s, g)))
         && (reply == Miss ==> answer.None?)
         && (reply.Hit? ==> answer.Some? && reply.score == c.show(answer.value.score))
         && (w.s.phases[g].Storing? ==> w.s.phases[g].result.score == c.show(score))
  }

  /** The cache command behind a reply, when it was performed. */
  function CommandOf(c: Config, w: World, g: nat, reply: Outcome, now: int, score: real,
                     performed: bool): Option<HashCache.Op>
    requires g < |w.s.router.claimed| && g < |w.s.phases|
  {
    var sha := c.hash(RawOf(w.s, g));
    match w.s.phases[g]
    case LookingUp(_) => if reply != Raise || performed then Some(HashCache.Lookup(sha, now)) else None
    case Storing(_, r) =>
      if reply != Raise || performed then Some(HashCache.RouterResult(sha, r.verdict, score, now)) else None
    case _ => None
  }

  /** What a command puts into the store, for the history. */
  function PutsOf(op: HashCache.Op, origin: Option<nat>, at: nat): (puts: seq<Put>)
  {
    match op
    case Lookup(_, _) => []
    case RouterResult(sha, verdict, score, _) => if verdict == "ERROR" then [] else [Put(sha, score, origin, at)]
    case IngestResult(sha, _, score, _) => if sha == "" then [] else [Put(sha, score, origin, at)]
  }

  function Commanded(c: Config, w: World, op: HashCache.Op, origin: Option<nat>): World
  {
    w.(store := HashCache.After(c.ttl, w.store, op), puts := w.puts + PutsOf(op, origin, |w.commands|),
       commands := w.commands + [op])
  }

  ghost predicate Possible(c: Config, w: World, step: Step)
  {
    match step
    case Act(a, now, score, _) => Enabled(w.s, a) && CacheAllows(c, w, a, now, score)
    case Ingest(_, _, _, _) => true
  }

  ghost function After(c: Config, w: World, step: Step): World
    requires Possible(c, w, step)
  {
    match step
    case Ingest(sha, predicted, score, now) => Commanded(c, w, HashCache.IngestResult(sha, predicted, score, now), None)
    case Act(a, now, score, performed) =>
      var command :=
        match ReplyIn(w.s, a)
        case None => None
        case Some((g, reply)) => CommandOf(c, w, g, reply, now, score, performed);
      var origin := if ReplyIn(w.s, a).Some? then Some(ReplyIn(w.s, a).value.0) else None;
      (if command.Some? then Commanded(c, w, command.value, origin) else w).(s := Next(w.s, a))
  }

  ghost function RunWorld(c: Config, w: World, steps: seq<Step>): World
    decreases |steps|
  {
    if steps == [] then w
    else RunWorld(c, if Possible(c, w, steps[0]) then After(c, w, steps[0]) else w, steps[1..])
  }

  // --- Where the scores come from ---------------------------------------------------

  ghost predicate PutUnder(puts: seq<Put>, sha: string, score: real)
  {
    exists i :: 0 <= i < |puts| && puts[i].sha == sha && puts[i].score == score
  }

  /**
   Every score in the store was put there under its hash; a hash without one needs a
   lifetime that is not positive.
  */
  ghost predicate StoreKnown(c: Config, store: HashCache.Store, puts: seq<Put>)
  {
    forall sha <- store ::
      (store[sha].score.Some? ==> PutUnder(puts, sha, store[sha].score.value))
        && (store[sha].score.None? ==> c.ttl <= 0)
  }

  /** The analyser reported the score in the processing of generation g, and no error. */
  ghost predicate Reported(c: Config, s: State, g: nat, score: real)
  {
    && g < |s.replies|
    && exists r: Analysis :: Analysed(r) in s.replies[g] && r.score == c.show(score) && r.verdict != "ERROR"
  }

  ghost predicate PutsKnown(c: Config, s: State, puts: seq<Put>)
  {
    forall i :: 0 <= i < |puts| && puts[i].origin.Some? ==>
      var g := puts[i].origin.value;
      g < |s.router.claimed| && puts[i].sha == c.hash(RawOf(s, g)) && Reported(c, s, g, puts[i].score)
  }

  /** The printed score was put under the hash; or the store had a hash without a score. */
  ghost predicate HitKnown(c: Config, puts: seq<Put>, sha: string, text: string)
  {
    || (exists i :: 0 <= i < |puts| && puts[i].sha == sha && c.show(puts[i].score) == text)
    || (c.ttl <= 0 && text == c.show(0.0))
  }

  ghost predicate HitsKnown(c: Config, s: State, puts: seq<Put>)
  {
    forall g, text :: 0 <= g < |s.replies| && g < |s.router.claimed| && Hit(text) in s.replies[g] ==>
      HitKnown(c, puts, c.hash(RawOf(s, g)), text)
  }

  ghost predicate Known(c: Config, w: World)
  {
    && Inv(w.s) && Told(w.s)
    && StoreKnown(c, w.store, w.puts) && PutsKnown(c, w.s, w.puts) && HitsKnown(c, w.s, w.puts)
  }

  lemma StartKnown(c: Config)
    ensures Known(c, Start)
  {
    hide Partitioned, CallsKept, SlotsCounted, Ownership;
    assert Inv(Init) by { InitKept(); }
  }

  lemma InitKept()
    ensures Inv(Init)
  {
  }

  /** One command on the store. */
  lemma CommandKeepsStore(c: Config, store: HashCache.Store, puts: seq<Put>, op: HashCache.Op, origin: Option<nat>,
                          at: nat)
    requires StoreKnown(c, store, puts)
    ensures StoreKnown(c, HashCache.After(c.ttl, store, op), puts + PutsOf(op, origin, at))
  {
    var store', puts' := HashCache.After(c.ttl, store, op), puts + PutsOf(op, origin, at);
    forall sha | sha in store'
      ensures store'[sha].score.Some? ==> PutUnder(puts', sha, store'[sha].score.value)
      ensures store'[sha].score.None? ==> c.ttl <= 0
    {
      if sha in store && store'[sha].score == store[sha].score {
        PutsGrow(puts, puts', sha);
      } else if store'[sha].score.Some? {
        assert puts'[|puts|].sha == sha && puts'[|puts|].score == store'[sha].score.value;
      }
    }
  }

  lemma PutsGrow(puts: seq<Put>, puts': seq<Put>, sha: string)
    requires puts <= puts'
    ensures forall score: real :: PutUnder(puts, sha, score) ==> PutUnder(puts', sha, score)
  {
    forall score: real | PutUnder(puts, sha, score) ensures PutUnder(puts', sha, score) {
      var i :| 0 <= i < |puts| && puts[i].sha == sha && puts[i].score == score;
      assert puts'[i] == puts[i];
    }
  }

  /** An action keeps what was claimed and what was replied, and adds at most its own reply. */
  ghost predicate HistoryGrows(s: State, s': State, reply: Option<(nat, Outcome)>)
  {
    && s.router.claimed <= s'.router.claimed && |s.replies| <= |s'.replies|
    && (forall g :: 0 <= g < |s.replies| ==> s.replies[g] <= s'.replies[g])
    && (forall g, x :: 0 <= g < |s'.replies| && x in s'.replies[g] ==>
          (g < |s.replies| && x in s.replies[g]) || reply == Some((g, x)))
  }

  lemma NextGrows(s: State, a: Action)
    requires Enabled(s, a) && |s.replies| == |s.router.claimed|
    ensures HistoryGrows(s, Next(s, a), ReplyIn(s, a))
  {
    hide ReplyStep, Fits, Ledger.Inv, Ledger.Apply;
    match a
    case Progress(g, reply) => ReplyGrows(s, g, reply);
    case Cancel(id, reply) => ReplyGrows(s, s.rpcs[id].current.value, reply);
    case _ =>
  }

  lemma ReplyGrows(s: State, g: nat, reply: Outcome)
    requires g < |s.phases| && g < |s.router.claimed| && g < |s.replies|
    ensures HistoryGrows(s, ProgressStep(s, g, reply), Some((g, reply)))
  {
    assert ReplyStep(s, g, reply).router == s.router;
    hide ReplyStep;
  }

  lemma {:induction false} JudgedIsReply(replies: seq<Outcome>)
    ensures SourceOf(replies).Judged? ==> Analysed(SourceOf(replies).result) in replies
    ensures SourceOf(replies).Cached? ==> Hit(SourceOf(replies).score) in replies
  {
    if replies != [] {
      JudgedIsReply(replies[..|replies| - 1]);
    }
  }

  /** What is known of the puts and hits stays known as the history grows. */
  lemma GrowthKeepsPuts(c: Config, s: State, s': State, puts: seq<Put>, reply: Option<(nat, Outcome)>)
    requires PutsKnown(c, s, puts) && HistoryGrows(s, s', reply)
    ensures PutsKnown(c, s', puts)
  {
    forall i | 0 <= i < |puts| && puts[i].origin.Some?
      ensures var g := puts[i].origin.value;
              g < |s'.router.claimed| && puts[i].sha == c.hash(RawOf(s', g)) && Reported(c, s', g, puts[i].score)
    {
      var g := puts[i].origin.value;
      var r: Analysis :| Analysed(r) in s.replies[g] && r.score == c.show(puts[i].score) && r.verdict != "ERROR";
      assert Analysed(r) in s'.replies[g];
      assert s'.router.claimed[g] == s.router.claimed[g];
    }
  }

  lemma HitStaysKnown(c: Config, puts: seq<Put>, puts': seq<Put>, sha: string, text: string)
    requires puts <= puts' && HitKnown(c, puts, sha, text)
    ensures HitKnown(c, puts', sha, text)
  {
    if i :| 0 <= i < |puts| && puts[i].sha == sha && c.show(puts[i].score) == text {
      assert puts'[i] == puts[i];
    }
  }

  lemma GrowthKeepsHits(c: Config, w: World, s': State, puts': seq<Put>, a: Action, now: int, score: real)
    requires Known(c, w) && Enabled(w.s, a) && CacheAllows(c, w, a, now, score) && w.puts <= puts'
    requires HistoryGrows(w.s, s', ReplyIn(w.s, a))
    ensures HitsKnown(c, s', puts')
  {
    hide Inv, Told, Enabled, HitKnown;
    var s := w.s;
    forall g, text | 0 <= g < |s'.replies| && g < |s'.router.claimed| && Hit(text) in s'.replies[g]
      ensures HitKnown(c, puts', c.hash(RawOf(s', g)), text)
    {
      if g < |s.replies| && Hit(text) in s.replies[g] {
        SameLength(w);
        assert s'.router.claimed[g] == s.router.claimed[g];
        HitStaysKnown(c, w.puts, puts', c.hash(RawOf(s, g)), text);
      } else {
        assert s'.router.claimed[g] == s.router.claimed[g];
        AnswerIsKnown(c, w, c.hash(RawOf(s, g)), now);
        HitStaysKnown(c, w.puts, puts', c.hash(RawOf(s, g)), text);
      }
    }
  }

  lemma SameLength(w: World)
    requires Inv(w.s)
    ensures |w.s.replies| == |w.s.router.claimed| == |w.s.phases|
  {
  }

  /** The store only answers scores that were put under the hash. */
  lemma AnswerIsKnown(c: Config, w: World, sha: string, now: int)
    requires StoreKnown(c, w.store, w.puts)
    ensures var answer := HashCache.Answer(w.store, sha, now);
            answer.Some? ==> HitKnown(c, w.puts, sha, c.show(answer.value.score))
  {
    var answer := HashCache.Answer(w.store, sha, now);
    if answer.Some? && w.store[sha].score.Some? {
      assert PutUnder(w.puts, sha, answer.value.score);
    }
  }

  lemma ActKeepsKnown(c: Config, w: World, step: Step)
    requires Known(c, w) && Possible(c, w, step) && step.Act?
    ensures Known(c, After(c, w, step))
  {
    hide Inv, Told, Enabled, Next, StoreKnown, HitsKnown, Reported;
    var a, w' := step.a, After(c, w, step);
    SameLength(w);
    NextKeepsInv(w.s, a);
    NextKeepsTold(w.s, a);
    NextGrows(w.s, a);
    GrowthKeepsPuts(c, w.s, w'.s, w.puts, ReplyIn(w.s, a));
    GrowthKeepsHits(c, w, w'.s, w'.puts, a, step.now, step.score);
    if ReplyIn(w.s, a).Some? {
      var (g, reply) := ReplyIn(w.s, a).value;
      var command := CommandOf(c, w, g, reply, step.now, step.score, step.performed);
      if command.Some? {
        CommandKeepsStore(c, w.store, w.puts, command.value, Some(g), |w.commands|);
        if w.s.phases[g].Storing? {
          StoredWasReported(c, w, w'.s, g, step.score);
        }
      }
    }
  }

  /** A result being stored is what the analyser reported on the payload. */
  lemma StoredWasReported(c: Config, w: World, s': State, g: nat, score: real)
    requires Told(w.s) && g < |w.s.phases| && w.s.phases[g].Storing? && w.s.phases[g].result.score == c.show(score)
    requires g < |s'.replies| && w.s.replies[g] <= s'.replies[g]
    ensures Reported(c, s', g, score)
  {
    JudgedIsReply(w.s.replies[g]);
    assert PhaseTold(w.s.phases[g], w.s.replies[g], Join(w.s.router.claimed[g].1.chunks));
    assert Analysed(w.s.phases[g].result) in s'.replies[g];
  }

  lemma IngestKeepsKnown(c: Config, w: World, step: Step)
    requires Known(c, w) && step.Ingest?
    ensures Known(c, After(c, w, step))
  {
    hide Inv, Told, StoreKnown, HitKnown, Reported, HashCache.After;
    var op := HashCache.IngestResult(step.sha, step.predicted, step.score, step.now);
    CommandKeepsStore(c, w.store, w.puts, op, None, |w.commands|);
    var puts' := w.puts + PutsOf(op, None, |w.commands|);
    forall g, text | 0 <= g < |w.s.replies| && g < |w.s.router.claimed| && Hit(text) in w.s.replies[g]
      ensures HitKnown(c, puts', c.hash(RawOf(w.s, g)), text)
    {
      HitStaysKnown(c, w.puts, puts', c.hash(RawOf(w.s, g)), text);
    }
  }

  lemma {:induction false} RunKeepsKnown(c: Config, w: World, steps: seq<Step>)
    requires Known(c, w)
    ensures Known(c, RunWorld(c, w, steps))
    decreases |steps|
  {
    hide Known, Possible, After;
    if steps != [] {
      if Possible(c, w, steps[0]) {
        if steps[0].Act? {
          ActKeepsKnown(c, w, steps[0]);
        } else {
          IngestKeepsKnown(c, w, steps[0]);
        }
        RunKeepsKnown(c, After(c, w, steps[0]), steps[1..]);
      } else {
        RunKeepsKnown(c, w, steps[1..]);
      }
    }
  }

  /** The score was reported by the analyser, without error, for a payload with the same hash. */
  ghost predicate FromAnalysis(c: Config, s: State, g: nat, text: string)
    requires g < |s.router.claimed|
  {
    exists h: nat, r: Analysis ::
      && h < |s.replies| && h < |s.router.claimed| && Analysed(r) in s.replies[h]
      && r.score == text && r.verdict != "ERROR" && c.hash(RawOf(s, h)) == c.hash(RawOf(s, g))
  }

  ghost predicate FromIngest(c: Config, w: World, g: nat, text: string)
    requires g < |w.s.router.claimed|
  {
    exists i :: 0 <= i < |w.puts| && w.puts[i].origin.None? && w.puts[i].sha == c.hash(RawOf(w.s, g))
                && c.show(w.puts[i].score) == text
  }

  /**
   In every run of protocol, cache and ingest jobs: an event under CACHE_HIT carries a score
   that the analyser reported for a payload with the same hash, or that was ingested under
   it; but for a cache whose lifetime is not positive, which can also answer 0.
  */
  lemma CacheHitIsEarlierResult(c: Config, steps: seq<Step>, id: nat)
    ensures var w := RunWorld(c, Start, steps);
            id < |w.s.queue.added| && w.s.queue.added[id].source.Some? ==>
              var g := w.s.queue.added[id].source.value;
              && g < |w.s.router.claimed| && g < |w.s.replies|
              && EntryTold(w.s.queue.added[id].entry, w.s.router.claimed[g], w.s.replies[g])
              && (SourceOf(w.s.replies[g]).Cached? ==>
                   var text := SourceOf(w.s.replies[g]).score;
                   FromAnalysis(c, w.s, g, text) || FromIngest(c, w, g, text) || (c.ttl <= 0 && text == c.show(0.0)))
  {
    StartKnown(c);
    RunKeepsKnown(c, Start, steps);
    var w := RunWorld(c, Start, steps);
    if id < |w.s.queue.added| && w.s.queue.added[id].source.Some? {
      hide RunWorld, Inv, EntryTold, PhasesTold;
      var g := w.s.queue.added[id].source.value;
      assert g < |w.s.router.claimed| && EntryTold(w.s.queue.added[id].entry, w.s.router.claimed[g], w.s.replies[g]);
      if SourceOf(w.s.replies[g]).Cached? {
        JudgedIsReply(w.s.replies[g]);
        HitHasOrigin(c, w, g, SourceOf(w.s.replies[g]).score);
      }
    }
  }

  lemma HitHasOrigin(c: Config, w: World, g: nat, text: string)
    requires PutsKnown(c, w.s, w.puts) && g < |w.s.router.claimed| && HitKnown(c, w.puts, c.hash(RawOf(w.s, g)), text)
    ensures FromAnalysis(c, w.s, g, text) || FromIngest(c, w, g, text) || (c.ttl <= 0 && text == c.show(0.0))
  {
    if i :| 0 <= i < |w.puts| && w.puts[i].sha == c.hash(RawOf(w.s, g)) && c.show(w.puts[i].score) == text {
      if w.puts[i].origin.Some? {
        var h := w.puts[i].origin.value;
        assert Reported(c, w.s, h, w.puts[i].score);
      }
    }
  }

  /** If the hash tells payloads apart, the analysed payload was the very same. */
  lemma CacheHitIsSameBytes(c: Config, w: World, g: nat, text: string)
    requires forall a: seq<byte>, b: seq<byte> :: c.hash(a) == c.hash(b) ==> a == b
    requires g < |w.s.router.claimed| && FromAnalysis(c, w.s, g, text)
    ensures exists h: nat, r: Analysis ::
              && h < |w.s.replies| && h < |w.s.router.claimed| && Analysed(r) in w.s.replies[h]
              && r.score == text && r.verdict != "ERROR" && RawOf(w.s, h) == RawOf(w.s, g)
  {
  }
}
