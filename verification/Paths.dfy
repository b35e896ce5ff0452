/**
 The order of the foreign calls in the processing of a generation: every run awaits them
 one after the other, and leaves none out.
*/
module Paths {
  import opened Common
  import opened RouterState
  import opened Protocol
  import Ledger
  import Carving

  function Polls(n: nat): (polls: seq<Outcome>)
  {
    if n == 0 then [] else Polls(n - 1) + [SlotPoll]
  }

  /** The registry answered, the capture was built, the cache missed, and a slot was asked for, at least so often. */
  ghost predicate Searched(log: seq<Outcome>, b: Built, least: nat)
  {
    exists n: nat :: least <= n && log == [Return, Captured(b), Miss] + Polls(n)
  }

  /** After that, the analyser answered. */
  ghost predicate Judged(log: seq<Outcome>, b: Built, r: Analysis)
  {
    log != [] && log[|log| - 1] == Analysed(r) && Searched(log[..|log| - 1], b, 1)
  }

  /** After that, the result was stored in the cache and in the registry. */
  ghost predicate StoredTwice(log: seq<Outcome>, b: Built, r: Analysis)
  {
    |log| >= 2 && log[|log| - 2..] == [Return, Return] && Judged(log[..|log| - 2], b, r)
  }

  /** What is sent to the analyser: the payload itself when it is an image, else what was carved. */
  predicate IsSent(image: seq<byte>, raw: seq<byte>, b: Built)
  {
    image == (if Carving.Sniff(raw) then raw else b.carved)
  }

  predicate Says(event: Ledger.Event, b: Built, verdict: string, score: string, latencyMs: int, modelType: string)
  {
    && event.verdict == verdict && event.score == score && event.latencyMs == latencyMs && event.modelType == modelType
    && event.sha256 == b.sha256 && event.pcapUri == b.pcapUri && event.imageUri == b.imageUri
  }

  ghost predicate AfterHit(log: seq<Outcome>, b: Built, score: string, event: Ledger.Event)
  {
    log == [Return, Captured(b), Hit(score), Return] && Says(event, b, "CACHE_HIT", score, 0, "srnet")
  }

  ghost predicate WithoutImage(log: seq<Outcome>, raw: seq<byte>, b: Built, event: Ledger.Event)
  {
    log == [Return, Captured(b), Miss] && IsSent([], raw, b) && Says(event, b, "NO_IMAGE", "0.0", 0, "srnet")
  }

  ghost predicate AfterResult(log: seq<Outcome>, raw: seq<byte>, b: Built, r: Analysis, event: Ledger.Event)
  {
    && (if r.verdict == "ERROR" then Judged(log, b, r) else StoredTwice(log, b, r)) && !IsSent([], raw, b)
    && Says(event, b, r.verdict, r.score, r.latencyMs, r.modelType)
  }

  /** The four ways to an event: a cached score, nothing to analyse, an error, or a stored result. */
  ghost predicate ReadyToWrite(log: seq<Outcome>, raw: seq<byte>, event: Ledger.Event)
  {
    || (exists b: Built, score: string :: AfterHit(log, b, score, event))
    || (exists b: Built :: WithoutImage(log, raw, b, event))
    || (exists b: Built, r: Analysis :: AfterResult(log, raw, b, r, event))
  }

  ghost predicate OnPath(phase: Phase, log: seq<Outcome>, raw: seq<byte>)
  {
    match phase
    case Waiting => log == []
    case Registering => log == []
    case Building => log == [Return]
    case LookingUp(b) => log == [Return, Captured(b)]
    case PersistingHit(b, score) => log == [Return, Captured(b), Hit(score)]
    case AwaitingSlot(b, image) => Searched(log, b, 0) && IsSent(image, raw, b) && image != []
    case Dispatching(b, image) => Searched(log, b, 1) && IsSent(image, raw, b) && image != []
    case Storing(b, r) => Judged(log, b, r) && r.verdict != "ERROR" && !IsSent([], raw, b)
    case Persisting(b, r) =>
      && log != [] && log[|log| - 1] == Return && Judged(log[..|log| - 1], b, r)
      && r.verdict != "ERROR" && !IsSent([], raw, b)
    case Writing(event) => ReadyToWrite(log, raw, event)
    case Finished(_) => log != [] && log[|log| - 1].Queued? && Written(log[..|log| - 1], raw)
    case Raised(leftover) =>
      log != [] && if leftover.Some? then log[|log| - 1].QueuedButRaised? && Written(log[..|log| - 1], raw)
                   else log[|log| - 1] == Raise
  }

  ghost predicate Written(log: seq<Outcome>, raw: seq<byte>)
  {
    exists event :: ReadyToWrite(log, raw, event)
  }

  ghost predicate AllOnPath(s: State)
  {
    && |s.phases| == |s.router.claimed| == |s.replies|
    && forall g :: 0 <= g < |s.phases| ==> OnPath(s.phases[g], s.replies[g], Join(s.router.claimed[g].1.chunks))
  }

  lemma PollOnce(log: seq<Outcome>, b: Built, least: nat)
    requires Searched(log, b, least)
    ensures Searched(log + [SlotPoll], b, least) && Searched(log + [SlotPoll], b, least + 1)
  {
    var n: nat :| least <= n && log == [Return, Captured(b), Miss] + Polls(n);
    assert log + [SlotPoll] == [Return, Captured(b), Miss] + Polls(n + 1);
  }

  lemma FirstSearch(b: Built)
    ensures Searched([Return, Captured(b), Miss], b, 0)
  {
    assert [Return, Captured(b), Miss] == [Return, Captured(b), Miss] + Polls(0);
  }

  lemma AnsweredIsJudged(log: seq<Outcome>, b: Built, r: Analysis)
    requires Searched(log, b, 1)
    ensures Judged(log + [Analysed(r)], b, r)
  {
    assert (log + [Analysed(r)])[..|log|] == log;
  }

  /** Both stores have returned. */
  lemma ReturnedIsStored(log: seq<Outcome>, b: Built, r: Analysis)
    requires log != [] && log[|log| - 1] == Return && Judged(log[..|log| - 1], b, r)
    ensures StoredTwice(log + [Return], b, r)
  {
    var longer := log + [Return];
    assert longer[..|longer| - 2] == log[..|log| - 1];
    assert longer[|longer| - 2..] == [Return, Return];
  }

  predicate BeforeTheSlot(phase: Phase)
  {
    phase.Registering? || phase.Building? || phase.LookingUp? || phase.PersistingHit? || phase.AwaitingSlot?
  }

  lemma EarlyReply(s: State, g: nat, reply: Outcome)
    requires g < |s.phases| && g < |s.router.claimed| && g < |s.replies|
    requires Fits(s.phases[g], reply) && UnderWay(s.phases[g])
    requires OnPath(s.phases[g], s.replies[g], Join(s.router.claimed[g].1.chunks))
    requires reply != Raise && BeforeTheSlot(s.phases[g])
    ensures OnPath(ReplyStep(s, g, reply).phases[g], s.replies[g] + [reply], Join(s.router.claimed[g].1.chunks))
  {
    hide Join, Carving.Sniff, Searched, Judged, StoredTwice, Ledger.AddStep;
    var log, longer := s.replies[g], s.replies[g] + [reply];
    var raw, phase' := Join(s.router.claimed[g].1.chunks), ReplyStep(s, g, reply).phases[g];
    match s.phases[g]
    case Registering => assert longer == [Return];
    case Building => assert longer == [Return, reply];
    case LookingUp(b) =>
      assert longer == [Return, Captured(b), reply];
      FirstSearch(b);
      if phase'.Writing? { assert WithoutImage(longer, raw, b, phase'.event); }
    case PersistingHit(b, score) =>
      assert longer == [Return, Captured(b), Hit(score), Return];
      assert AfterHit(longer, b, score, phase'.event);
    case AwaitingSlot(b, _) => PollOnce(log, b, 0);
  }

  lemma LateReply(s: State, g: nat, reply: Outcome)
    requires g < |s.phases| && g < |s.router.claimed| && g < |s.replies|
    requires Fits(s.phases[g], reply) && UnderWay(s.phases[g])
    requires OnPath(s.phases[g], s.replies[g], Join(s.router.claimed[g].1.chunks))
    requires reply != Raise && !BeforeTheSlot(s.phases[g])
    ensures OnPath(ReplyStep(s, g, reply).phases[g], s.replies[g] + [reply], Join(s.router.claimed[g].1.chunks))
  {
    hide Join, Carving.Sniff, Searched, Judged, StoredTwice, Ledger.AddStep, Ledger.PrintEntry, IsSent;
    var log, longer := s.replies[g], s.replies[g] + [reply];
    assert longer[..|longer| - 1] == log && longer[|log|] == reply;
    var raw, phase' := Join(s.router.claimed[g].1.chunks), ReplyStep(s, g, reply).phases[g];
    match s.phases[g]
    case Dispatching(b, image) =>
      NonemptyIsSent(image, raw, b);
      AnsweredIsJudged(log, b, reply.result);
      if phase'.Writing? { assert AfterResult(longer, raw, b, reply.result, phase'.event); }
    case Storing(_, _) =>
    case Persisting(b, r) =>
      ReturnedIsStored(log, b, r);
      assert AfterResult(longer, raw, b, r, phase'.event);
    case Writing(event) => assert Written(log, raw);
  }

  lemma NonemptyIsSent(image: seq<byte>, raw: seq<byte>, b: Built)
    requires IsSent(image, raw, b) && image != []
    ensures !IsSent([], raw, b)
  {
  }

  /** Each reply takes the phase one call further along. */
  lemma ReplyStaysOnPath(s: State, g: nat, reply: Outcome)
    requires g < |s.phases| && g < |s.router.claimed| && g < |s.replies|
    requires Fits(s.phases[g], reply) && UnderWay(s.phases[g])
    requires OnPath(s.phases[g], s.replies[g], Join(s.router.claimed[g].1.chunks))
    ensures OnPath(ReplyStep(s, g, reply).phases[g], s.replies[g] + [reply], Join(s.router.claimed[g].1.chunks))
  {
    if reply == Raise {
      var longer := s.replies[g] + [Raise];
      assert longer[|longer| - 1] == Raise;
      RaiseRaises(s, g);
    } else if BeforeTheSlot(s.phases[g]) {
      EarlyReply(s, g, reply);
    } else {
      LateReply(s, g, reply);
    }
  }

  lemma RaiseRaises(s: State, g: nat)
    requires g < |s.phases| && g < |s.router.claimed|
    ensures ReplyStep(s, g, Raise).phases[g] == Raised(None)
  {
  }

  lemma ProgressStaysOnPath(s: State, g: nat, reply: Outcome)
    requires AllOnPath(s) && Awaiting(s, g) && Fits(s.phases[g], reply)
    ensures AllOnPath(ProgressStep(s, g, reply))
  {
    hide OnPath, Fits;
    ReplyStaysOnPath(s, g, reply);
    OtherPhasesStay(s, g, reply);
    hide ReplyStep;
  }

  lemma OtherPhasesStay(s: State, g: nat, reply: Outcome)
    requires g < |s.phases| && g < |s.router.claimed|
    ensures var s' := ReplyStep(s, g, reply);
            s'.router == s.router && s'.phases == s.phases[g := s'.phases[g]]
  {
    hide EventOf, Ledger.AddStep;
  }

  lemma NextStaysOnPath(s: State, a: Action)
    requires AllOnPath(s) && Enabled(s, a)
    ensures AllOnPath(Next(s, a))
  {
    hide ProgressStep, Fits, Ledger.Inv, Ledger.Apply;
    match a
    case Progress(g, reply) => ProgressStaysOnPath(s, g, reply);
    case Cancel(id, reply) => ProgressStaysOnPath(s, s.rpcs[id].current.value, reply);
    case _ =>
  }

  lemma {:induction false} RunStaysOnPath(s: State, schedule: seq<Action>)
    requires AllOnPath(s)
    ensures AllOnPath(Run(s, schedule))
    decreases |schedule|
  {
    hide AllOnPath, Enabled, Next;
    if schedule != [] {
      if Enabled(s, schedule[0]) {
        NextStaysOnPath(s, schedule[0]);
        RunStaysOnPath(Next(s, schedule[0]), schedule[1..]);
      } else {
        RunStaysOnPath(s, schedule[1..]);
      }
    }
  }

  /**
   In every run, the calls awaited for a generation that finished are one of four
   sequences, ended by the queue: the registry and the builder; then a cache hit persisted,
   a miss without an image, or a miss, a slot, and the analyser; and after any result but an
   error, both stores.
  */
  lemma FinishedAwaitedEveryCall(schedule: seq<Action>, g: nat)
    ensures var s := Run(Init, schedule);
            g < |s.phases| && s.phases[g].Finished? ==>
              && g < |s.replies| && g < |s.router.claimed| && s.replies[g] != []
              && s.replies[g][|s.replies[g]| - 1].Queued?
              && Written(s.replies[g][..|s.replies[g]| - 1], Join(s.router.claimed[g].1.chunks))
  {
    RunStaysOnPath(Init, schedule);
  }

  /** While a payload is at the analyser, it is the payload itself if that is an image, else what was carved. */
  lemma DispatchedIsTheImage(schedule: seq<Action>, g: nat)
    ensures var s := Run(Init, schedule);
            g < |s.phases| && s.phases[g].Dispatching? ==>
              && g < |s.router.claimed| && s.phases[g].image != []
              && IsSent(s.phases[g].image, Join(s.router.claimed[g].1.chunks), s.phases[g].built)
  {
    RunStaysOnPath(Init, schedule);
  }
}
