/**
 What an event says, judged by the replies its processing got: the analyser's result, the
 cached score, or neither. The replies are those of the foreign calls, in order.
*/
module Replies {
  import opened Common
  import opened RouterState
  import opened Protocol
  import Ledger
  import Carving

  datatype Source = Nothing | Cached(score: string) | Judged(result: Analysis)

  /** The last result among the replies. */
  function SourceOf(replies: seq<Outcome>): Source
  {
    if replies == [] then Nothing
    else
      match replies[|replies| - 1]
      case Hit(score) => Cached(score)
      case Analysed(result) => Judged(result)
      case _ => SourceOf(replies[..|replies| - 1])
  }

  /** What the capture builder gave. */
  function BuiltIn(replies: seq<Outcome>): Option<Built>
  {
    if replies == [] then None
    else
      match replies[|replies| - 1]
      case Captured(built) => Some(built)
      case _ => BuiltIn(replies[..|replies| - 1])
  }

  /** The verdict, score, latency and model that go with a source. */
  predicate Says(source: Source, verdict: string, score: string, latencyMs: int, modelType: string)
  {
    match source
    case Nothing => verdict == "NO_IMAGE" && score == "0.0" && latencyMs == 0 && modelType == "srnet"
    case Cached(cached) => verdict == "CACHE_HIT" && score == cached && latencyMs == 0 && modelType == "srnet"
    case Judged(r) => verdict == r.verdict && score == r.score && latencyMs == r.latencyMs && modelType == r.modelType
  }

  /** The payload was analysed only if there was an image in it, and passed over only if there was none. */
  predicate Warranted(replies: seq<Outcome>, raw: seq<byte>)
  {
    match SourceOf(replies)
    case Nothing => BuiltIn(replies).Some? && Carving.ImageToAnalyze(raw, BuiltIn(replies).value.carved) == []
    case Cached(_) => true
    case Judged(_) => BuiltIn(replies).Some? && Carving.ImageToAnalyze(raw, BuiltIn(replies).value.carved) != []
  }

  /** The event carries the URIs and the hash that were given. */
  predicate Carries(event: Ledger.Event, built: Option<Built>)
  {
    && built.Some? && event.sha256 == built.value.sha256
    && event.pcapUri == built.value.pcapUri && event.imageUri == built.value.imageUri
  }

  predicate Tells(event: Ledger.Event, replies: seq<Outcome>, raw: seq<byte>)
  {
    && Says(SourceOf(replies), event.verdict, event.score, event.latencyMs, event.modelType) && Warranted(replies, raw)
    && Carries(event, BuiltIn(replies))
  }

  /** Between two awaits the phase remembers what the replies have told. */
  predicate PhaseTold(phase: Phase, replies: seq<Outcome>, raw: seq<byte>)
  {
    var source, built := SourceOf(replies), BuiltIn(replies);
    match phase
    case Waiting => source == Nothing
    case Registering => source == Nothing
    case Building => source == Nothing
    case LookingUp(b) => source == Nothing && built == Some(b)
    case PersistingHit(b, score) => source == Cached(score) && built == Some(b)
    case AwaitingSlot(b, image) =>
      source == Nothing && built == Some(b) && image == Carving.ImageToAnalyze(raw, b.carved) != []
    case Dispatching(b, image) =>
      source == Nothing && built == Some(b) && image == Carving.ImageToAnalyze(raw, b.carved) != []
    case Storing(b, r) => source == Judged(r) && built == Some(b) && r.verdict != "ERROR" && Warranted(replies, raw)
    case Persisting(b, r) => source == Judged(r) && built == Some(b) && r.verdict != "ERROR" && Warranted(replies, raw)
    case Writing(event) => Tells(event, replies, raw)
    case Finished(_) => true
    case Raised(_) => true
  }

  ghost predicate EntryTold(entry: Ledger.Entry, claim: (StreamId, Record), replies: seq<Outcome>)
  {
    exists event, nowMs :: Describes(event, claim) && Tells(event, replies, Join(claim.1.chunks))
                           && entry == Ledger.PrintEntry(event, nowMs)
  }

  ghost predicate PhasesTold(claimed: seq<(StreamId, Record)>, phases: seq<Phase>, replies: seq<seq<Outcome>>)
    requires |phases| == |claimed| == |replies|
  {
    forall g :: 0 <= g < |phases| ==> PhaseTold(phases[g], replies[g], Join(claimed[g].1.chunks))
  }

  ghost predicate EntriesTold(claimed: seq<(StreamId, Record)>, added: seq<Ledger.Message>, replies: seq<seq<Outcome>>)
    requires |claimed| == |replies|
  {
    forall id :: 0 <= id < |added| && added[id].source.Some? ==>
      var g := added[id].source.value;
      g < |claimed| && EntryTold(added[id].entry, claimed[g], replies[g])
  }

  ghost predicate Told(s: State)
  {
    && |s.phases| == |s.router.claimed| == |s.replies|
    && PhasesTold(s.router.claimed, s.phases, s.replies)
    && EntriesTold(s.router.claimed, s.queue.added, s.replies)
  }

  lemma OneMoreReply(replies: seq<Outcome>, reply: Outcome)
    ensures SourceOf(replies + [reply]) ==
            if reply.Hit? then Cached(reply.score)
            else if reply.Analysed? then Judged(reply.result)
            else SourceOf(replies)
    ensures BuiltIn(replies + [reply]) == if reply.Captured? then Some(reply.built) else BuiltIn(replies)
  {
    assert (replies + [reply])[..|replies|] == replies;
  }

  /** A reply that fits the phase moves both on together. */
  lemma ReplyKeepsTold(s: State, g: nat, reply: Outcome)
    requires g < |s.phases| && g < |s.router.claimed| && g < |s.replies| && Fits(s.phases[g], reply)
    requires PhaseTold(s.phases[g], s.replies[g], Join(s.router.claimed[g].1.chunks))
    ensures PhaseTold(ReplyStep(s, g, reply).phases[g], s.replies[g] + [reply],
              Join(s.router.claimed[g].1.chunks))
  {
    hide Carving.ImageToAnalyze, Join, SourceOf, BuiltIn, Ledger.AddStep;
    OneMoreReply(s.replies[g], reply);
  }

  ghost predicate WritesEvent(s: State, s': State, g: nat)
    requires g < |s.phases| && s.phases[g].Writing?
  {
    exists nowMs ::
      s'.queue.added == s.queue.added + [Ledger.Message(Some(g), Ledger.PrintEntry(s.phases[g].event, nowMs))]
  }

  lemma ReplyKeepsOthers(s: State, g: nat, reply: Outcome)
    requires g < |s.phases| && g < |s.router.claimed|
    ensures var s' := ReplyStep(s, g, reply);
            && s'.router == s.router && |s'.phases| == |s.phases|
            && (forall h :: 0 <= h < |s.phases| && h != g ==> s'.phases[h] == s.phases[h])
            && (s'.queue.added == s.queue.added || (s.phases[g].Writing? && WritesEvent(s, s', g)))
  {
    hide Ledger.PrintEntry;
    if s.phases[g].Writing? && reply.Queued? {
      assert ReplyStep(s, g, reply).queue.added ==
             s.queue.added + [Ledger.Message(Some(g), Ledger.PrintEntry(s.phases[g].event, reply.nowMs))];
    } else if s.phases[g].Writing? && reply.QueuedButRaised? {
      assert ReplyStep(s, g, reply).queue.added ==
             s.queue.added + [Ledger.Message(Some(g), Ledger.PrintEntry(s.phases[g].event, reply.nowMs))];
    }
  }

  /** A generation still being processed has no message yet, so its new reply changes no told entry. */
  lemma ProgressKeepsTold(s: State, g: nat, reply: Outcome)
    requires Inv(s) && Told(s) && Awaiting(s, g) && Fits(s.phases[g], reply)
    ensures Told(ProgressStep(s, g, reply))
  {
    hide ReplyStep, Partitioned, Ownership, SlotsCounted, CallsKept, Ledger.Inv, PhaseTold, Tells, Fits,
      Ledger.PrintEntry;
    var s' := ReplyStep(s, g, reply);
    ReplyKeepsTold(s, g, reply);
    ReplyKeepsOthers(s, g, reply);
    var replies' := s.replies[g := s.replies[g] + [reply]];
    forall id | 0 <= id < |s'.queue.added| && s'.queue.added[id].source.Some?
      ensures var h := s'.queue.added[id].source.value;
              h < |s.router.claimed| && EntryTold(s'.queue.added[id].entry, s.router.claimed[h], replies'[h])
    {
      if id < |s.queue.added| {
        assert s'.queue.added[id] == s.queue.added[id];
      } else {
        WritingTells(s, g, reply);
      }
    }
  }

  /** The queue's reply is no result: what the event tells stays true. */
  lemma WritingTells(s: State, g: nat, reply: Outcome)
    requires Inv(s) && Told(s) && Awaiting(s, g) && Fits(s.phases[g], reply) && s.phases[g].Writing?
    ensures Describes(s.phases[g].event, s.router.claimed[g])
    ensures Tells(s.phases[g].event, s.replies[g] + [reply], Join(s.router.claimed[g].1.chunks))
  {
    hide Partitioned, Ownership, SlotsCounted, CallsKept, Ledger.Inv, SourceOf, BuiltIn;
    OneMoreReply(s.replies[g], reply);
    assert PhaseTold(s.phases[g], s.replies[g], Join(s.router.claimed[g].1.chunks));
  }

  lemma NextKeepsTold(s: State, a: Action)
    requires Inv(s) && Told(s) && Enabled(s, a)
    ensures Told(Next(s, a))
  {
    hide ProgressStep, Partitioned, Ownership, SlotsCounted, CallsKept, EventsMatch, Ledger.Inv, Ledger.Apply,
      EntryTold, Tells;
    match a
    case Progress(g, reply) => ProgressKeepsTold(s, g, reply);
    case Cancel(id, reply) => ProgressKeepsTold(s, s.rpcs[id].current.value, reply);
    case Consume(op) => ConsumeAddsNone(s, op);
    case _ =>
  }

  lemma ConsumeAddsNone(s: State, op: Ledger.Op)
    requires Enabled(s, Consume(op))
    ensures var added' := Ledger.Apply(s.queue, op).added;
            added' == s.queue.added || (op.Add? && added' == s.queue.added + [op.message])
  {
    hide Ledger.Inv;
  }

  lemma {:induction false} RunKeepsTold(s: State, schedule: seq<Action>)
    requires Inv(s) && Told(s)
    ensures Told(Run(s, schedule))
    decreases |schedule|
  {
    hide Inv, Told, Enabled, Next;
    if schedule != [] {
      if Enabled(s, schedule[0]) {
        NextKeepsInv(s, schedule[0]);
        NextKeepsTold(s, schedule[0]);
        RunKeepsTold(Next(s, schedule[0]), schedule[1..]);
      } else {
        RunKeepsTold(s, schedule[1..]);
      }
    }
  }
}
