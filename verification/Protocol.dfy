/**
 The routing system as a state machine.  Every action is the code between two
 await points; any task may take the next one.  Foreign calls are outcomes of
 the action that awaits them, and each may raise.
*/
module Protocol {
  import opened Common
  import opened RouterState
  import Ledger
  import Carving

  datatype Analysis = Analysis(verdict: string, score: string, latencyMs: nat, modelType: string)

  /** What the capture builder and the digest give: the carved image, the URIs, and the hash of the payload. */
  datatype Built = Built(carved: seq<byte>, pcapUri: string, imageUri: string, sha256: string)

  /** Where the processing of one claimed generation stands: the call it awaits. */
  datatype Phase =
    | Waiting
    | Registering
    | Building
    | LookingUp(built: Built)
    | PersistingHit(built: Built, score: string)
    | AwaitingSlot(built: Built, image: seq<byte>)
    | Dispatching(built: Built, image: seq<byte>)
    | Storing(built: Built, result: Analysis)
    | Persisting(built: Built, result: Analysis)
    | Writing(event: Ledger.Event)
    | Finished(message: nat)
    | Raised(leftover: Option<nat>)

  datatype Outcome =
    | Return
    | Raise
    | Captured(built: Built)
    | Hit(score: string)
    | Miss
    | SlotPoll
    | Analysed(result: Analysis)
    | Queued(nowMs: int, trimTo: nat)
    | QueuedButRaised(nowMs: int, trimTo: nat)

  datatype Tally = Tally(received: nat, accepted: nat, dropped: nat)

  /** One StreamPayload call, by the await it is suspended at. */
  datatype Rpc =
    | Receiving(touched: set<StreamId>, tally: Tally)
    | Limiting(chunk: Chunk, touched: set<StreamId>, tally: Tally)
    | Flushing(todo: set<StreamId>, current: Option<nat>, tally: Tally)
    | Answered(tally: Tally)
    | Aborted

  datatype Owner = Reaper | Call(rpc: nat)

  datatype State = State(
    router: Router,
    phases: seq<Phase>,       // of each claimed generation
    owners: seq<Owner>,       // who claimed it
    replies: seq<seq<Outcome>>,   // history: every reply its processing has got
    sweep: seq<nat>,          // the reaper's to_process, without what it has done
    rpcs: map<nat, Rpc>,
    active: int,
    limit: int,
    highest: int,             // history: the largest limit so far
    queue: Ledger.Queue)

  const DEFAULT_LIMIT := 10

  const Init := State(EmptyRouter, [], [], [], [], map[], 0, DEFAULT_LIMIT, DEFAULT_LIMIT, Ledger.EmptyQueue)

  datatype Action =
    | Open(rpc: nat)
    | Receive(rpc: nat, chunk: Chunk)
    | Decide(rpc: nat, allowed: bool, now: real)
    | Close(rpc: nat)
    | Flush(rpc: nat, sid: StreamId)
    | Answer(rpc: nat)
    | Abort(rpc: nat)
    | Cancel(rpc: nat, reply: Outcome)
    | Sweep(order: seq<StreamId>, now: real)
    | SweepNext
    | Begin(generation: nat)
    | Progress(generation: nat, outcome: Outcome)
    | SetLimit(limit: int)
    | Consume(op: Ledger.Op)

  predicate Over(phase: Phase)
  {
    phase.Finished? || phase.Raised?
  }

  predicate UnderWay(phase: Phase)
  {
    phase != Waiting && !Over(phase)
  }

  // --- RPC handlers --------------------------------------------------------

  function SetRpc(s: State, id: nat, rpc: Rpc): State
  {
    s.(rpcs := s.rpcs[id := rpc])
  }

  function DecideStep(s: State, id: nat, allowed: bool, now: real): State
    requires id in s.rpcs && s.rpcs[id].Limiting?
  {
    var Limiting(c, touched, t) := s.rpcs[id];
    if allowed then
      SetRpc(s.(router := Accept(s.router, c, now)), id,
             Receiving(touched + {c.sid}, t.(accepted := t.accepted + 1)))
    else
      SetRpc(s, id, Receiving(touched, t.(dropped := t.dropped + 1)))
  }

  predicate Idle(s: State, rpc: Rpc)
  {
    && rpc.Flushing?
    && (rpc.current.None? || (rpc.current.value < |s.phases| && Over(s.phases[rpc.current.value])))
  }

  function FlushStep(s: State, id: nat, sid: StreamId): State
    requires id in s.rpcs && s.rpcs[id].Flushing?
  {
    var Flushing(todo, _, t) := s.rpcs[id];
    if sid in s.router.streams then
      SetRpc(s.(router := RouterState.Claim(s.router, sid), phases := s.phases + [Waiting],
                  owners := s.owners + [Call(id)],
                  replies := s.replies + [[]]),
             id, Flushing(todo - {sid}, Some(|s.phases|), t))
    else
      SetRpc(s, id, Flushing(todo - {sid}, None, t))
  }

  // --- The reaper ----------------------------------------------------------

  ghost predicate SweepReady(s: State, order: seq<StreamId>, now: real)
  {
    && s.sweep == []
    && AllLive(s.router, order)
    && (forall sid :: sid in s.router.streams ==> (sid in order <==> now - s.router.streams[sid].lastSeen > 5.0))
  }

  ghost function SweepStep(s: State, order: seq<StreamId>): State
    requires AllLive(s.router, order)
  {
    s.(router := ClaimAll(s.router, order),
       phases := s.phases + AllWaiting(|order|),
       owners := s.owners + seq(|order|, i => Reaper),
       replies := s.replies + seq(|order|, i => []),
       sweep := seq(|order|, i => |s.phases| + i))
  }

  // --- Processing one generation -------------------------------------------

  /** Generation g is what its claimant is working on. */
  predicate HoldsTurn(owners: seq<Owner>, sweep: seq<nat>, rpcs: map<nat, Rpc>, g: nat)
  {
    g < |owners| &&
    match owners[g]
    case Reaper => sweep != [] && sweep[0] == g
    case Call(id) => id in rpcs && rpcs[id].Flushing? && rpcs[id].current == Some(g)
  }

  predicate OnTurn(s: State, g: nat)
  {
    g < |s.phases| && HoldsTurn(s.owners, s.sweep, s.rpcs, g)
  }

  function SetPhase(s: State, g: nat, phase: Phase): State
    requires g < |s.phases|
  {
    s.(phases := s.phases[g := phase])
  }

  function EventOf(s: State, g: nat, built: Built, verdict: string, score: string, latencyMs: nat,
                   modelType: string): Ledger.Event
    requires g < |s.router.claimed|
  {
    var (sid, record) := s.router.claimed[g];
    Ledger.Event(sid, record.endpoint, built.sha256, verdict, score, record.metadata.srcIp, record.metadata.dstIp,
                 |Join(record.chunks)|, latencyMs, modelType, built.pcapUri, built.imageUri)
  }

  function WriteEvent(s: State, g: nat, nowMs: int, trimTo: nat): State
    requires g < |s.phases| && s.phases[g].Writing?
  {
    var message := Ledger.Message(Some(g), Ledger.PrintEntry(s.phases[g].event, nowMs));
    s.(queue := Ledger.AddStep(s.queue, message, trimTo))
  }

  /** The replies the awaited call can give; every await can raise. */
  predicate Fits(phase: Phase, reply: Outcome)
  {
    reply == Raise ||
    match phase
    case Registering => reply == Return
    case Building => reply.Captured?
    case LookingUp(_) => reply.Hit? || reply == Miss
    case PersistingHit(_, _) => reply == Return
    case AwaitingSlot(_, _) => reply == SlotPoll
    case Dispatching(_, _) => reply.Analysed?
    case Storing(_, _) => reply == Return
    case Persisting(_, _) => reply == Return
    case Writing(_) => reply.Queued? || reply.QueuedButRaised?
    case _ => false
  }

  /** The code from one await of `_process_stream` to the next. */
  function ProgressStep(s: State, g: nat, outcome: Outcome): State
    requires g < |s.phases| && g < |s.router.claimed| && g < |s.replies|
  {
    ReplyStep(s, g, outcome).(replies := s.replies[g := s.replies[g] + [outcome]])
  }

  function ReplyStep(s: State, g: nat, outcome: Outcome): State
    requires g < |s.phases| && g < |s.router.claimed|
  {
    match (s.phases[g], outcome)
    case (Registering, Return) => SetPhase(s, g, Building)
    case (Building, Captured(built)) => SetPhase(s, g, LookingUp(built))
    case (LookingUp(built), Hit(score)) => SetPhase(s, g, PersistingHit(built, score))
    case (LookingUp(built), Miss) =>
      var image := Carving.ImageToAnalyze(Join(s.router.claimed[g].1.chunks), built.carved);
      if image == [] then SetPhase(s, g, Writing(EventOf(s, g, built, "NO_IMAGE", "0.0", 0, "srnet")))
      else SetPhase(s, g, AwaitingSlot(built, image))
    case (PersistingHit(built, score), Return) =>
      SetPhase(s, g, Writing(EventOf(s, g, built, "CACHE_HIT", score, 0, "srnet")))
    case (AwaitingSlot(built, image), SlotPoll) =>
      if s.active >= s.limit then s else SetPhase(s, g, Dispatching(built, image)).(active := s.active + 1)
    case (Dispatching(built, _), Analysed(r)) =>
      SetPhase(s, g,
        if r.verdict == "ERROR" then Writing(EventOf(s, g, built, r.verdict, r.score, r.latencyMs, r.modelType))
        else Storing(built, r)).(active := s.active - 1)
    case (Dispatching(_, _), Raise) => SetPhase(s, g, Raised(None)).(active := s.active - 1)
    case (Storing(built, r), Return) => SetPhase(s, g, Persisting(built, r))
    case (Persisting(built, r), Return) =>
      SetPhase(s, g, Writing(EventOf(s, g, built, r.verdict, r.score, r.latencyMs, r.modelType)))
    case (Writing(_), Queued(nowMs, trimTo)) =>
      SetPhase(WriteEvent(s, g, nowMs, trimTo), g, Finished(|s.queue.added|))
    case (Writing(_), QueuedButRaised(nowMs, trimTo)) =>
      SetPhase(WriteEvent(s, g, nowMs, trimTo), g, Raised(Some(|s.queue.added|)))
    case (_, Raise) => SetPhase(s, g, Raised(None))
    case _ => s
  }

  /** A generation that can take a reply: on its turn and between two awaits. */
  predicate Awaiting(s: State, g: nat)
  {
    OnTurn(s, g) && g < |s.router.claimed| && g < |s.replies| && UnderWay(s.phases[g])
  }

  /**
   The client of a call goes away while the call processes a stream: the exception of the
   cancelled await is not caught there, so the call ends with it.
  */
  predicate Cancellable(s: State, id: nat, reply: Outcome)
  {
    && id in s.rpcs && s.rpcs[id].Flushing? && s.rpcs[id].current.Some?
    && Awaiting(s, s.rpcs[id].current.value) && Fits(s.phases[s.rpcs[id].current.value], reply)
    && (reply == Raise || reply.QueuedButRaised?)
  }

  function CancelStep(s: State, id: nat, reply: Outcome): State
    requires Cancellable(s, id, reply)
  {
    SetRpc(ProgressStep(s, s.rpcs[id].current.value, reply), id, Aborted)
  }

  // --- All actions ---------------------------------------------------------

  ghost predicate Enabled(s: State, a: Action)
  {
    match a
    case Open(id) => id !in s.rpcs
    case Receive(id, c) => id in s.rpcs && s.rpcs[id].Receiving? && c.rpc == id
    case Decide(id, _, _) => id in s.rpcs && s.rpcs[id].Limiting?
    case Close(id) => id in s.rpcs && s.rpcs[id].Receiving?
    case Flush(id, sid) => id in s.rpcs && Idle(s, s.rpcs[id]) && sid in s.rpcs[id].todo
    case Answer(id) => id in s.rpcs && Idle(s, s.rpcs[id]) && s.rpcs[id].todo == {}
    case Abort(id) => id in s.rpcs && !s.rpcs[id].Answered? && (s.rpcs[id].Flushing? ==> Idle(s, s.rpcs[id]))
    case Cancel(id, reply) => Cancellable(s, id, reply)
    case Sweep(order, now) => SweepReady(s, order, now)
    case SweepNext => s.sweep != [] && s.sweep[0] < |s.phases| && Over(s.phases[s.sweep[0]])
    case Begin(g) => OnTurn(s, g) && s.phases[g] == Waiting
    case Progress(g, reply) => Awaiting(s, g) && Fits(s.phases[g], reply)
    case SetLimit(_) => true
    case Consume(op) => Ledger.Inv(s.queue) && (op.Add? ==> op.message.source.None?)
  }

  ghost function Next(s: State, a: Action): State
    requires Enabled(s, a)
  {
    match a
    case Open(id) => SetRpc(s, id, Receiving({}, Tally(0, 0, 0)))
    case Receive(id, c) =>
      var Receiving(touched, t) := s.rpcs[id];
      SetRpc(s, id, Limiting(c, touched, t.(received := t.received + 1)))
    case Decide(id, allowed, now) => DecideStep(s, id, allowed, now)
    case Close(id) => SetRpc(s, id, Flushing(s.rpcs[id].touched, None, s.rpcs[id].tally))
    case Flush(id, sid) => FlushStep(s, id, sid)
    case Answer(id) => SetRpc(s, id, Answered(s.rpcs[id].tally))
    case Abort(id) => SetRpc(s, id, Aborted)
    case Cancel(id, reply) => CancelStep(s, id, reply)
    case Sweep(order, _) => SweepStep(s, order)
    case SweepNext => s.(sweep := s.sweep[1..])
    case Begin(g) => SetPhase(s, g, Registering)
    case Progress(g, outcome) => ProgressStep(s, g, outcome)
    case SetLimit(limit) => s.(limit := limit, highest := Max(s.highest, limit))
    case Consume(op) => s.(queue := Ledger.Apply(s.queue, op))
  }

  /** A run takes the enabled actions of a schedule; one that is not enabled does nothing. */
  ghost function Run(s: State, schedule: seq<Action>): State
    decreases |schedule|
  {
    if schedule == [] then s
    else Run(if Enabled(s, schedule[0]) then Next(s, schedule[0]) else s, schedule[1..])
  }

  // --- Invariants ----------------------------------------------------------

  /** Generation g is still to be processed by its claimant. */
  predicate InHands(owners: seq<Owner>, sweep: seq<nat>, rpcs: map<nat, Rpc>, g: nat)
  {
    g < |owners| &&
    match owners[g]
    case Reaper => g in sweep
    case Call(id) => id in rpcs && rpcs[id].Flushing? && rpcs[id].current == Some(g)
  }

  /**
   Each claimed generation has one claimant, is in its hands until it is over, and is under
   way only on the claimant's turn.
  */
  ghost predicate Ownership(phases: seq<Phase>, owners: seq<Owner>, sweep: seq<nat>, rpcs: map<nat, Rpc>)
  {
    && |phases| == |owners|
    && (forall i :: 0 <= i < |sweep| ==> sweep[i] < |owners| && owners[sweep[i]] == Reaper)
    && (forall i :: 0 < i < |sweep| ==> phases[sweep[i]] == Waiting)
    && (forall i, j :: 0 <= i < j < |sweep| ==> sweep[i] != sweep[j])
    && (forall id :: id in rpcs && rpcs[id].Flushing? && rpcs[id].current.Some? ==>
          rpcs[id].current.value < |owners| && owners[rpcs[id].current.value] == Call(id))
    && (forall g: nat :: g < |phases| && UnderWay(phases[g]) ==> HoldsTurn(owners, sweep, rpcs, g))
    && (forall g: nat :: g < |phases| && !Over(phases[g]) ==> InHands(owners, sweep, rpcs, g))
  }

  function InDispatch(phases: seq<Phase>): (n: nat)
  {
    if phases == [] then 0
    else InDispatch(phases[..|phases| - 1]) + (if phases[|phases| - 1].Dispatching? then 1 else 0)
  }

  ghost predicate SlotsCounted(phases: seq<Phase>, active: int, limit: int, highest: int)
  {
    && active == InDispatch(phases)
    && limit <= highest
    && active <= Max(0, highest)
  }

  function CountRpc(log: seq<Chunk>, id: nat): (n: nat)
  {
    if log == [] then 0
    else CountRpc(log[..|log| - 1], id) + (if log[|log| - 1].rpc == id then 1 else 0)
  }

  /** Streams that may still hold a chunk accepted by this call. */
  ghost function Unflushed(rpc: Rpc): set<StreamId>
  {
    match rpc
    case Receiving(touched, _) => touched
    case Limiting(_, touched, _) => touched
    case Flushing(todo, _, _) => todo
    case Answered(_) => {}
    case Aborted => {}
  }

  /** The counters of a call are right, and its chunks that are still live are in streams it will flush. */
  ghost predicate CallKept(log: seq<Chunk>, home: seq<Place>, id: nat, rpc: Rpc)
    requires |home| == |log|
  {
    rpc.Aborted? || (
      && (rpc.Limiting? ==> rpc.chunk.rpc == id)
      && rpc.tally.accepted == CountRpc(log, id)
      && rpc.tally.received == rpc.tally.accepted + rpc.tally.dropped + (if rpc.Limiting? then 1 else 0)
      && (forall k :: 0 <= k < |log| && log[k].rpc == id && home[k].Live? ==> home[k].sid in Unflushed(rpc)))
  }

  ghost predicate CallsKept(log: seq<Chunk>, home: seq<Place>, rpcs: map<nat, Rpc>)
    requires |home| == |log|
  {
    && (forall id :: id in rpcs ==> CallKept(log, home, id, rpcs[id]))
    && (forall k :: 0 <= k < |log| ==> log[k].rpc in rpcs)
  }

  /** The event names the stream, the endpoint, the addresses and the byte count of a claimed record. */
  ghost predicate Describes(event: Ledger.Event, claim: (StreamId, Record))
  {
    && event.streamId == claim.0
    && event.endpoint == claim.1.endpoint
    && event.srcIp == claim.1.metadata.srcIp && event.dstIp == claim.1.metadata.dstIp
    && event.bytesTotal == |Join(claim.1.chunks)|
  }

  ghost predicate PrintedFor(entry: Ledger.Entry, claim: (StreamId, Record))
  {
    exists event, nowMs :: Describes(event, claim) && entry == Ledger.PrintEntry(event, nowMs)
  }

  /** The message a generation left in the queue, if any. */
  function Wrote(phase: Phase): Option<nat>
  {
    match phase
    case Finished(message) => Some(message)
    case Raised(leftover) => leftover
    case _ => None
  }

  /** Generations that wrote a message and messages written by a generation correspond. */
  ghost predicate EventsMatch(claimed: seq<(StreamId, Record)>, phases: seq<Phase>, added: seq<Ledger.Message>)
    requires |phases| == |claimed|
  {
    && (forall g :: 0 <= g < |phases| && phases[g].Writing? ==> Describes(phases[g].event, claimed[g]))
    && (forall g: nat :: g < |phases| && Wrote(phases[g]).Some? ==>
          Wrote(phases[g]).value < |added| && added[Wrote(phases[g]).value].source == Some(g))
    && (forall id :: 0 <= id < |added| && added[id].source.Some? ==>
          var g := added[id].source.value;
          g < |phases| && Wrote(phases[g]) == Some(id) && PrintedFor(added[id].entry, claimed[g]))
  }

  ghost predicate Inv(s: State)
  {
    && Partitioned(s.router) && RecordsDescribed(s.router)
    && |s.phases| == |s.router.claimed| == |s.replies|
    && Ownership(s.phases, s.owners, s.sweep, s.rpcs)
    && SlotsCounted(s.phases, s.active, s.limit, s.highest)
    && CallsKept(s.router.log, s.router.home, s.rpcs)
    && EventsMatch(s.router.claimed, s.phases, s.queue.added)
    && Ledger.Inv(s.queue)
  }

  // --- Every action keeps the invariant -------------------------------------

  lemma {:induction false} InDispatchUpdate(phases: seq<Phase>, g: nat, phase: Phase)
    requires g < |phases|
    ensures InDispatch(phases[g := phase]) ==
            InDispatch(phases) - (if phases[g].Dispatching? then 1 else 0) + (if phase.Dispatching? then 1 else 0)
  {
    var n := |phases| - 1;
    if g < n {
      InDispatchUpdate(phases[..n], g, phase);
      assert phases[g := phase][..n] == phases[..n][g := phase];
    } else {
      assert phases[g := phase][..n] == phases[..n];
    }
  }

  function AllWaiting(k: nat): (phases: seq<Phase>)
    ensures |phases| == k && forall i :: 0 <= i < k ==> phases[i] == Waiting
  {
    if k == 0 then [] else AllWaiting(k - 1) + [Waiting]
  }

  lemma {:induction false} InDispatchWaiting(phases: seq<Phase>, k: nat)
    ensures InDispatch(phases + AllWaiting(k)) == InDispatch(phases)
  {
    if k == 0 {
      assert phases + AllWaiting(k) == phases;
    } else {
      InDispatchWaiting(phases, k - 1);
      var shorter := phases + AllWaiting(k - 1);
      assert AllWaiting(k) == AllWaiting(k - 1) + [Waiting];
      assert phases + AllWaiting(k) == shorter + [Waiting];
      assert (shorter + [Waiting])[..|shorter|] == shorter;
    }
  }

  /** Claiming only ever takes chunks out of live records. */
  lemma CallsKeptByClaiming(log: seq<Chunk>, home: seq<Place>, home': seq<Place>, rpcs: map<nat, Rpc>)
    requires |home| == |log| == |home'| && CallsKept(log, home, rpcs)
    requires forall k :: 0 <= k < |home| && home'[k].Live? ==> home'[k] == home[k]
    ensures CallsKept(log, home', rpcs)
  {
    forall id | id in rpcs ensures CallKept(log, home', id, rpcs[id]) {
      assert CallKept(log, home, id, rpcs[id]);
    }
  }

  lemma CallsKeptByCall(log: seq<Chunk>, home: seq<Place>, rpcs: map<nat, Rpc>, id: nat, rpc: Rpc)
    requires |home| == |log| && CallsKept(log, home, rpcs)
    requires CallKept(log, home, id, rpc)
    ensures CallsKept(log, home, rpcs[id := rpc])
  {
  }

  lemma CallsKeptByAccept(log: seq<Chunk>, home: seq<Place>, rpcs: map<nat, Rpc>, id: nat)
    requires |home| == |log| && CallsKept(log, home, rpcs)
    requires id in rpcs && rpcs[id].Limiting?
    ensures var Limiting(c, touched, t) := rpcs[id];
            CallsKept(log + [c], home + [Live(c.sid)],
                      rpcs[id := Receiving(touched + {c.sid}, t.(accepted := t.accepted + 1))])
  {
    var Limiting(c, touched, t) := rpcs[id];
    var log', home' := log + [c], home + [Live(c.sid)];
    var rpcs' := rpcs[id := Receiving(touched + {c.sid}, t.(accepted := t.accepted + 1))];
    assert CallKept(log, home, id, rpcs[id]);
    assert log'[..|log|] == log;
    forall j | j in rpcs' ensures CallKept(log', home', j, rpcs'[j]) {
      assert CallKept(log, home, j, rpcs[j]);
    }
  }

  lemma CallsKeptByFlush(log: seq<Chunk>, home: seq<Place>, home': seq<Place>, rpcs: map<nat, Rpc>,
                         id: nat, sid: StreamId, current: Option<nat>)
    requires |home| == |log| == |home'| && CallsKept(log, home, rpcs)
    requires forall k :: 0 <= k < |home| && home'[k].Live? ==> home'[k] == home[k]
    requires Live(sid) !in home'
    requires id in rpcs && rpcs[id].Flushing?
    ensures CallsKept(log, home', rpcs[id := Flushing(rpcs[id].todo - {sid}, current, rpcs[id].tally)])
  {
    CallsKeptByClaiming(log, home, home', rpcs);
    assert CallKept(log, home', id, rpcs[id]);
  }

  lemma OwnershipAfterFlush(phases: seq<Phase>, owners: seq<Owner>, sweep: seq<nat>, rpcs: map<nat, Rpc>, id: nat,
                            rpc: Rpc)
    requires Ownership(phases, owners, sweep, rpcs)
    requires id in rpcs && rpcs[id].Flushing? && (rpcs[id].current.Some? ==> Over(phases[rpcs[id].current.value]))
    requires rpc.Flushing? && rpc.current == Some(|phases|)
    ensures Ownership(phases + AllWaiting(1), owners + [Call(id)], sweep, rpcs[id := rpc])
  {
  }

  lemma OwnershipAfterSweep(phases: seq<Phase>, owners: seq<Owner>, rpcs: map<nat, Rpc>, k: nat)
    requires Ownership(phases, owners, [], rpcs)
    ensures Ownership(phases + AllWaiting(k), owners + seq(k, i => Reaper), seq(k, i => |phases| + i), rpcs)
  {
    var sweep := seq(k, i => |phases| + i);
    forall g | |phases| <= g < |phases| + k ensures g in sweep {
      assert sweep[g - |phases|] == g;
    }
  }

  lemma OwnershipAfterCall(phases: seq<Phase>, owners: seq<Owner>, sweep: seq<nat>, rpcs: map<nat, Rpc>, id: nat,
                           rpc: Rpc)
    requires Ownership(phases, owners, sweep, rpcs)
    requires id in rpcs && rpcs[id].Flushing? && rpcs[id].current.Some? ==> Over(phases[rpcs[id].current.value])
    requires rpc.Flushing? ==> rpc.current.None?
    ensures Ownership(phases, owners, sweep, rpcs[id := rpc])
  {
  }

  lemma OwnershipAfterPhase(phases: seq<Phase>, owners: seq<Owner>, sweep: seq<nat>, rpcs: map<nat, Rpc>, g: nat,
                            phase: Phase)
    requires Ownership(phases, owners, sweep, rpcs) && g < |phases| && HoldsTurn(owners, sweep, rpcs, g)
    ensures Ownership(phases[g := phase], owners, sweep, rpcs)
  {
  }

  lemma EventsAfterClaims(claimed: seq<(StreamId, Record)>, phases: seq<Phase>, added: seq<Ledger.Message>,
                          claimed': seq<(StreamId, Record)>, k: nat)
    requires |phases| == |claimed| && EventsMatch(claimed, phases, added)
    requires claimed <= claimed' && |claimed'| == |phases| + k
    ensures EventsMatch(claimed', phases + AllWaiting(k), added)
  {
  }

  lemma EventsAfterPhase(claimed: seq<(StreamId, Record)>, phases: seq<Phase>, added: seq<Ledger.Message>, g: nat,
                         phase: Phase)
    requires |phases| == |claimed| && EventsMatch(claimed, phases, added)
    requires g < |phases| && !Over(phases[g])
    requires phase.Writing? ==> Describes(phase.event, claimed[g])
    requires Wrote(phase).None?
    ensures EventsMatch(claimed, phases[g := phase], added)
  {
  }

  lemma EventsAfterWrite(claimed: seq<(StreamId, Record)>, phases: seq<Phase>, added: seq<Ledger.Message>,
                         g: nat, phase: Phase, nowMs: int)
    requires |phases| == |claimed| && EventsMatch(claimed, phases, added)
    requires g < |phases| && phases[g].Writing?
    requires Wrote(phase) == Some(|added|)
    ensures var message := Ledger.Message(Some(g), Ledger.PrintEntry(phases[g].event, nowMs));
            EventsMatch(claimed, phases[g := phase], added + [message])
  {
    assert Describes(phases[g].event, claimed[g]);
  }

  lemma FlushKeepsInv(s: State, id: nat, sid: StreamId)
    requires Inv(s) && Enabled(s, Flush(id, sid))
    ensures Inv(FlushStep(s, id, sid))
  {
    hide Inv, FlushStep;
    if sid in s.router.streams {
      FlushLiveKeepsInv(s, id, sid);
    } else {
      FlushGoneKeepsInv(s, id, sid);
    }
  }

  lemma FlushLiveKeepsInv(s: State, id: nat, sid: StreamId)
    requires Inv(s) && Enabled(s, Flush(id, sid)) && sid in s.router.streams
    ensures Inv(FlushStep(s, id, sid))
  {
    hide Partitioned, RecordsDescribed, CallsKept, SlotsCounted, Ownership, EventsMatch, Ledger.Inv;
    var Flushing(todo, _, t) := s.rpcs[id];
    var r' := RouterState.Claim(s.router, sid);
    ClaimKeepsPartition(s.router, sid);
    ClaimKeepsDescribed(s.router, sid);
    assert [Waiting] == AllWaiting(1);
    SlotsAfterClaims(s, 1);
    assert |s.router.home| == |s.router.log| by { PartitionSizes(s.router); }
    CallsKeptByFlush(s.router.log, s.router.home, r'.home, s.rpcs, id, sid, Some(|s.phases|));
    EventsAfterClaims(s.router.claimed, s.phases, s.queue.added, r'.claimed, 1);
    OwnershipAfterFlush(s.phases, s.owners, s.sweep, s.rpcs, id, Flushing(todo - {sid}, Some(|s.phases|), t));
  }

  lemma SlotsAfterClaims(s: State, k: nat)
    requires SlotsCounted(s.phases, s.active, s.limit, s.highest)
    ensures SlotsCounted(s.phases + AllWaiting(k), s.active, s.limit, s.highest)
  {
    InDispatchWaiting(s.phases, k);
  }

  lemma PartitionSizes(r: Router)
    requires Partitioned(r)
    ensures |r.home| == |r.log|
  {
  }

  lemma FlushGoneKeepsInv(s: State, id: nat, sid: StreamId)
    requires Inv(s) && Enabled(s, Flush(id, sid)) && sid !in s.router.streams
    ensures Inv(FlushStep(s, id, sid))
  {
    hide RecordsDescribed, CallsKept, SlotsCounted, Ownership, EventsMatch, Ledger.Inv;
    var Flushing(todo, _, t) := s.rpcs[id];
    assert Live(sid) !in s.router.home by {
      assert forall k :: 0 <= k < |s.router.home| ==> Exists(s.router, s.router.home[k]);
    }
    CallsKeptByFlush(s.router.log, s.router.home, s.router.home, s.rpcs, id, sid, None);
    OwnershipAfterCall(s.phases, s.owners, s.sweep, s.rpcs, id, Flushing(todo - {sid}, None, t));
  }

  lemma SweepKeepsInv(s: State, order: seq<StreamId>, now: real)
    requires Inv(s) && SweepReady(s, order, now)
    ensures Inv(SweepStep(s, order))
  {
    hide RecordsDescribed, Ownership, EventsMatch, Ledger.Inv;
    var s' := SweepStep(s, order);
    ClaimAllKeepsPartition(s.router, order);
    ClaimAllKeepsDescribed(s.router, order);
    InDispatchWaiting(s.phases, |order|);
    CallsKeptByClaiming(s.router.log, s.router.home, s'.router.home, s.rpcs);
    EventsAfterClaims(s.router.claimed, s.phases, s.queue.added, s'.router.claimed, |order|);
    OwnershipAfterSweep(s.phases, s.owners, s.rpcs, |order|);
  }

  /** A phase change that writes no message, towards a phase whose event, if any, is right. */
  lemma PhaseChangeKeepsInv(s: State, g: nat, phase: Phase, active: int)
    requires Inv(s) && OnTurn(s, g) && !Over(s.phases[g])
    requires phase.Writing? ==> Describes(phase.event, s.router.claimed[g])
    requires Wrote(phase).None?
    requires phase.Dispatching? ==> s.active < s.limit
    requires active == s.active - (if s.phases[g].Dispatching? then 1 else 0) + (if phase.Dispatching? then 1 else 0)
    ensures Inv(SetPhase(s, g, phase).(active := active))
  {
    hide Partitioned, RecordsDescribed, CallsKept, Ledger.Inv;
    InDispatchUpdate(s.phases, g, phase);
    OwnershipAfterPhase(s.phases, s.owners, s.sweep, s.rpcs, g, phase);
    EventsAfterPhase(s.router.claimed, s.phases, s.queue.added, g, phase);
  }

  lemma WriteKeepsInv(s: State, g: nat, nowMs: int, trimTo: nat, phase: Phase)
    requires Inv(s) && OnTurn(s, g) && s.phases[g].Writing?
    requires Wrote(phase) == Some(|s.queue.added|)
    ensures Inv(SetPhase(WriteEvent(s, g, nowMs, trimTo), g, phase))
  {
    var message := Ledger.Message(Some(g), Ledger.PrintEntry(s.phases[g].event, nowMs));
    Ledger.ApplyKeepsInv(s.queue, Ledger.Add(message, trimTo));
    InDispatchUpdate(s.phases, g, phase);
    OwnershipAfterPhase(s.phases, s.owners, s.sweep, s.rpcs, g, phase);
    EventsAfterWrite(s.router.claimed, s.phases, s.queue.added, g, phase, nowMs);
  }

  lemma ReplyShape(s: State, g: nat, outcome: Outcome)
    requires g < |s.phases| && g < |s.router.claimed|
    requires !(s.phases[g].Writing? && (outcome.Queued? || outcome.QueuedButRaised?))
    ensures var s' := ReplyStep(s, g, outcome);
            var phase := s'.phases[g];
            && s' == SetPhase(s, g, phase).(active := s'.active)
            && (phase == s.phases[g] ==> s' == s)
            && (phase != s.phases[g] ==>
                 && (phase.Writing? ==> Describes(phase.event, s.router.claimed[g]))
                 && Wrote(phase).None?
                 && (phase.Dispatching? ==> s.active < s.limit)
                 && s'.active ==
                    s.active - (if s.phases[g].Dispatching? then 1 else 0) + (if phase.Dispatching? then 1 else 0))
  {
    assert s == SetPhase(s, g, s.phases[g]);
  }

  /** The history takes no part in the invariant but for its length. */
  lemma RepliesAreHistory(s: State, replies: seq<seq<Outcome>>)
    requires Inv(s) && |replies| == |s.replies|
    ensures Inv(s.(replies := replies))
  {
  }

  lemma ProgressKeepsInv(s: State, g: nat, outcome: Outcome)
    requires Inv(s) && Awaiting(s, g)
    ensures Inv(ProgressStep(s, g, outcome))
  {
    hide Partitioned, RecordsDescribed, Ownership, SlotsCounted, CallsKept, EventsMatch, Ledger.Inv;
    var s' := ReplyStep(s, g, outcome);
    if s.phases[g].Writing? && outcome.Queued? {
      WriteKeepsInv(s, g, outcome.nowMs, outcome.trimTo, Finished(|s.queue.added|));
    } else if s.phases[g].Writing? && outcome.QueuedButRaised? {
      WriteKeepsInv(s, g, outcome.nowMs, outcome.trimTo, Raised(Some(|s.queue.added|)));
    } else {
      ReplyShape(s, g, outcome);
      if s' != s {
        PhaseChangeKeepsInv(s, g, s'.phases[g], s'.active);
      }
    }
    RepliesAreHistory(s', s.replies[g := s.replies[g] + [outcome]]);
  }

  /** A call that is cancelled leaves its generation over and its other streams to the reaper. */
  lemma CancelKeepsInv(s: State, id: nat, reply: Outcome)
    requires Inv(s) && Cancellable(s, id, reply)
    ensures Inv(CancelStep(s, id, reply))
  {
    hide RecordsDescribed, Ownership, SlotsCounted, EventsMatch, Ledger.Inv;
    var g := s.rpcs[id].current.value;
    var s' := ProgressStep(s, g, reply);
    ProgressKeepsInv(s, g, reply);
    CancelIsOver(s, g, reply);
    CallsKeptByCall(s'.router.log, s'.router.home, s'.rpcs, id, Aborted);
    OwnershipAfterCall(s'.phases, s'.owners, s'.sweep, s'.rpcs, id, Aborted);
  }

  lemma CancelIsOver(s: State, g: nat, reply: Outcome)
    requires Awaiting(s, g) && Fits(s.phases[g], reply) && (reply == Raise || reply.QueuedButRaised?)
    ensures Over(ProgressStep(s, g, reply).phases[g])
    ensures ProgressStep(s, g, reply).rpcs == s.rpcs && ProgressStep(s, g, reply).router == s.router
  {
  }

  lemma ConsumeKeepsInv(s: State, op: Ledger.Op)
    requires Inv(s) && Enabled(s, Consume(op))
    ensures Inv(Next(s, Consume(op)))
  {
    Ledger.ApplyKeepsInv(s.queue, op);
    var added' := Ledger.Apply(s.queue, op).added;
    assert added' == s.queue.added || (op.Add? && added' == s.queue.added + [op.message]);
  }

  /** Actions that only move one call from one await to the next. */
  lemma CallStepKeepsInv(s: State, id: nat, rpc: Rpc)
    requires Inv(s) && (id in s.rpcs && s.rpcs[id].Flushing? ==> Idle(s, s.rpcs[id]))
    requires CallKept(s.router.log, s.router.home, id, rpc)
    requires rpc.Flushing? ==> rpc.current.None?
    ensures Inv(SetRpc(s, id, rpc))
  {
    CallsKeptByCall(s.router.log, s.router.home, s.rpcs, id, rpc);
    OwnershipAfterCall(s.phases, s.owners, s.sweep, s.rpcs, id, rpc);
  }

  lemma {:induction false} UnknownCallAcceptedNothing(log: seq<Chunk>, id: nat)
    requires forall k :: 0 <= k < |log| ==> log[k].rpc != id
    ensures CountRpc(log, id) == 0
  {
    if log != [] {
      UnknownCallAcceptedNothing(log[..|log| - 1], id);
    }
  }

  lemma AllowKeepsInv(s: State, id: nat, now: real)
    requires Inv(s) && Enabled(s, Decide(id, true, now))
    ensures Inv(DecideStep(s, id, true, now))
  {
    hide Ownership, EventsMatch, Ledger.Inv, CallsKept, Partitioned, RecordsDescribed, SlotsCounted;
    var Limiting(c, touched, t) := s.rpcs[id];
    AcceptKeepsPartition(s.router, c, now);
    AcceptKeepsDescribed(s.router, c, now);
    CallsKeptByAccept(s.router.log, s.router.home, s.rpcs, id);
    OwnershipAfterCall(s.phases, s.owners, s.sweep, s.rpcs, id,
      Receiving(touched + {c.sid}, t.(accepted := t.accepted + 1)));
  }

  /** The actions of one call that neither accept nor claim. */
  lemma QuietCallKeepsInv(s: State, a: Action)
    requires Inv(s) && Enabled(s, a)
    requires a.Open? || a.Receive? || a.Close? || a.Answer? || a.Abort? || (a.Decide? && !a.allowed)
    ensures Inv(Next(s, a))
  {
    hide RecordsDescribed, Ownership, SlotsCounted, EventsMatch, Ledger.Inv;
    var id, rpc := a.rpc, Next(s, a).rpcs[a.rpc];
    assert CallKept(s.router.log, s.router.home, id, rpc) by {
      if a.Open? {
        UnknownCallAcceptedNothing(s.router.log, id);
      } else {
        assert CallKept(s.router.log, s.router.home, id, s.rpcs[id]);
      }
    }
    CallStepKeepsInv(s, id, rpc);
  }

  lemma NextKeepsInv(s: State, a: Action)
    requires Inv(s) && Enabled(s, a)
    ensures Inv(Next(s, a))
  {
    hide Partitioned, RecordsDescribed, Ownership, SlotsCounted, CallsKept, EventsMatch, Ledger.Inv;
    match a
    case Decide(id, allowed, now) =>
      if allowed { AllowKeepsInv(s, id, now); } else { QuietCallKeepsInv(s, a); }
    case Flush(id, sid) => FlushKeepsInv(s, id, sid);
    case Cancel(id, reply) => CancelKeepsInv(s, id, reply);
    case Sweep(order, now) => SweepKeepsInv(s, order, now);
    case SweepNext => SweepNextKeepsInv(s);
    case Begin(g) => PhaseChangeKeepsInv(s, g, Registering, s.active);
    case Progress(g, outcome) => ProgressKeepsInv(s, g, outcome);
    case SetLimit(limit) => SetLimitKeepsInv(s, limit);
    case Consume(op) => ConsumeKeepsInv(s, op);
    case _ => QuietCallKeepsInv(s, a);
  }

  lemma SweepNextKeepsInv(s: State)
    requires Inv(s) && Enabled(s, SweepNext)
    ensures Inv(Next(s, SweepNext))
  {
    hide Partitioned, RecordsDescribed, SlotsCounted, CallsKept, EventsMatch, Ledger.Inv;
  }

  lemma SetLimitKeepsInv(s: State, limit: int)
    requires Inv(s)
    ensures Inv(Next(s, SetLimit(limit)))
  {
  }

  lemma {:induction false} RunKeepsInv(s: State, schedule: seq<Action>)
    requires Inv(s)
    ensures Inv(Run(s, schedule))
    decreases |schedule|
  {
    if schedule != [] {
      if Enabled(s, schedule[0]) {
        NextKeepsInv(s, schedule[0]);
        RunKeepsInv(Next(s, schedule[0]), schedule[1..]);
      } else {
        RunKeepsInv(s, schedule[1..]);
      }
    }
  }
}
