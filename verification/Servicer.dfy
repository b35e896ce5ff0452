/**
 The servicer itself: the code between two awaits, on the dictionary of live
 record objects that RPC handlers and the reaper share.  Each method does to the
 shared state what the matching function of RouterState says, and leaves every
 claimed record object untouched although the objects themselves are mutable.
*/
module Servicer {
  import opened Common
  import opened RouterState
  import Decimal
  import Protocol

  class StreamRecord {
    var chunks: seq<seq<byte>>
    const metadata: Chunk
    const endpoint: string
    var lastSeen: real

    constructor (c: Chunk, now: real)
      ensures Value() == Record([], c, c.endpoint, now)
    {
      chunks, metadata, endpoint, lastSeen := [], c, c.endpoint, now;
    }

    ghost function Value(): Record
      reads this
    {
      Record(chunks, metadata, endpoint, lastSeen)
    }
  }

  /** In the protocol, generation g waits for a slot with this counter and limit. */
  ghost predicate AtSlot(s: Protocol.State, g: nat, active: int, limit: int)
  {
    g < |s.phases| && g < |s.router.claimed| && s.phases[g].AwaitingSlot? && s.active == active
      && s.limit == limit
  }

  ghost predicate Polled(s: Protocol.State, g: nat, active: int, got: bool)
    requires g < |s.phases| && g < |s.router.claimed|
  {
    var s' := Protocol.ReplyStep(s, g, Protocol.SlotPoll);
    s'.active == active && (s'.phases[g].Dispatching? <==> got)
  }

  /** In the protocol, the dispatch of generation g returns or raises with this counter. */
  ghost predicate AtDispatch(s: Protocol.State, g: nat, reply: Protocol.Outcome, active: int)
  {
    && g < |s.phases| && g < |s.router.claimed| && s.phases[g].Dispatching? && s.active == active
    && Protocol.Fits(s.phases[g], reply)
  }

  ghost predicate Left(s: Protocol.State, g: nat, reply: Protocol.Outcome, active: int)
    requires g < |s.phases| && g < |s.router.claimed|
  {
    var s' := Protocol.ReplyStep(s, g, reply);
    s'.active == active && !s'.phases[g].Dispatching?
  }

  /** The reaper has dealt with every live stream but the remaining ones. */
  ghost predicate Swept(start: Router, r: Router, order: seq<StreamId>, remaining: set<StreamId>, now: real)
  {
    && AllLive(start, order) && r == ClaimAll(start, order)
    && (forall sid <- remaining :: sid in start.streams && sid !in order)
    && (forall sid <- start.streams :: sid !in remaining ==>
         (sid in order <==> now - start.streams[sid].lastSeen > 5.0))
  }

  lemma NothingSwept(start: Router, now: real)
    ensures Swept(start, start, [], start.streams.Keys, now)
  {
    ClaimNone(start);
  }

  lemma SweepOne(start: Router, r: Router, order: seq<StreamId>, remaining: set<StreamId>, sid: StreamId, now: real)
    requires Swept(start, r, order, remaining, now) && sid in remaining
    ensures sid in r.streams && sid in start.streams && r.streams[sid] == start.streams[sid]
    ensures if now - r.streams[sid].lastSeen > 5.0
            then Swept(start, Claim(r, sid), order + [sid], remaining - {sid}, now)
            else Swept(start, r, order, remaining - {sid}, now)
  {
    hide ClaimAll, Claim, AllLive;
    if now - start.streams[sid].lastSeen > 5.0 {
      ClaimOneMore(start, order, sid);
    }
  }

  lemma AllSwept(start: Router, r: Router, order: seq<StreamId>, now: real)
    requires Swept(start, r, order, {}, now)
    ensures AllLive(start, order) && r == ClaimAll(start, order)
    ensures forall sid <- start.streams :: sid in order <==> now - start.streams[sid].lastSeen > 5.0
  {
  }

  class RouterServicer {
    var streams: map<StreamId, StreamRecord>
    var activeScans: int
    var maxScans: int
    ghost var dispatching: set<nat>     // the tasks between the increment and the decrement
    ghost var claimed: seq<(StreamId, StreamRecord)>
    ghost var log: seq<Chunk>
    ghost var home: seq<Place>
    ghost var times: seq<real>
    ghost var Repr: set<StreamRecord>

    /** Live records are distinct objects, and none of them is a claimed one. */
    ghost predicate Valid()
      reads this
    {
      && streams.Values <= Repr
      && (forall g :: 0 <= g < |claimed| ==> claimed[g].1 in Repr && claimed[g].1 !in streams.Values)
      && (forall a, b :: a in streams && b in streams && a != b ==> streams[a] != streams[b])
      && |home| == |log|
    }

    /** The shared state as a value. */
    ghost function View(): Router
      reads this, Repr
      requires Valid()
    {
      Router(map sid | sid in streams :: streams[sid].Value(), ClaimedValues(), log, home, times)
    }

    ghost function ClaimedValues(): seq<(StreamId, Record)>
      reads this, Repr
      requires Valid()
    {
      seq(|claimed|, g requires 0 <= g < |claimed| && claimed[g].1 in Repr reads this, Repr =>
        (claimed[g].0, claimed[g].1.Value()))
    }

    constructor ()
      ensures Valid() && Repr == {} && View() == EmptyRouter
      ensures SlotsCounted() && dispatching == {} && maxScans == 10
    {
      streams, activeScans, maxScans, dispatching := map[], 0, 10, {};
      claimed, log, home, times, Repr := [], [], [], [], {};
    }

    /** A stream seen for the first time gets an empty record. */
    method Register(c: Chunk, now: real)
      requires Valid() && c.sid !in streams
      modifies this`streams, this`Repr
      ensures Valid() && fresh(Repr - old(Repr)) && old(Repr) <= Repr
      ensures View() == old(View()).(streams := old(View()).streams[c.sid := Record([], c, c.endpoint, now)])
      ensures c.sid in streams && streams.Values <= old(streams.Values) + (Repr - old(Repr))
    {
      var record := new StreamRecord(c, now);
      Repr := Repr + {record};
      streams := streams[c.sid := record];
      assert View().streams == old(View()).streams[c.sid := Record([], c, c.endpoint, now)];
      assert View().claimed == old(View()).claimed;
    }

    method Append(c: Chunk, now: real)
      requires Valid() && c.sid in streams
      modifies this`log, this`home, this`times, streams[c.sid]
      ensures Valid() && View() == Accept(old(View()), c, now)
      ensures forall g :: 0 <= g < |claimed| ==> unchanged(claimed[g].1)
    {
      var record := streams[c.sid];
      assert record in streams.Values && forall g :: 0 <= g < |claimed| ==> claimed[g].1 != record;
      assert forall sid :: sid in streams && sid != c.sid ==> streams[sid] != record;
      record.chunks := record.chunks + [c.payload];
      record.lastSeen := now;
      log, home, times := log + [c], home + [Live(c.sid)], times + [now];
      assert View().streams == Accept(old(View()), c, now).streams;
      assert View().claimed == old(View()).claimed;
    }

    /** The body of the StreamPayload loop once the limiter has allowed the chunk. */
    method AcceptChunk(c: Chunk, now: real)
      requires Valid()
      modifies this`streams, this`log, this`home, this`times, this`Repr, streams.Values
      ensures Valid() && fresh(Repr - old(Repr))
      ensures View() == Accept(old(View()), c, now)
      ensures c.sid in streams && streams[c.sid].lastSeen == now
      ensures streams[c.sid].chunks == (if c.sid in old(streams) then old(streams[c.sid].chunks) else []) + [c.payload]
      ensures forall g :: 0 <= g < |claimed| ==> unchanged(claimed[g].1)
    {
      if c.sid !in streams {
        Register(c, now);
      }
      assert streams[c.sid] in streams.Values;
      Append(c, now);
    }

    /** `pop`, or `del` after the pair was appended to to_process: the record is the claimant's now. */
    method PopStream(sid: StreamId) returns (data: StreamRecord)
      requires Valid() && sid in streams
      modifies this`streams, this`claimed, this`home
      ensures Valid() && data == old(streams[sid])
      ensures View() == Claim(old(View()), sid)
      ensures claimed == old(claimed) + [(sid, data)]
      ensures Repr == old(Repr) && streams == old(streams) - {sid}
    {
      data := streams[sid];
      home := Rehome(home, sid, |claimed|);
      claimed := claimed + [(sid, data)];
      streams := streams - {sid};
      assert View().streams == Claim(old(View()), sid).streams;
      assert View().claimed == Claim(old(View()), sid).claimed;
    }

    /** The flush loop of StreamPayload, one iteration: a touched stream may be gone already. */
    method FlushTouched(sid: StreamId) returns (data: Option<StreamRecord>)
      requires Valid()
      modifies this`streams, this`claimed, this`home
      ensures Valid() && Repr == old(Repr)
      ensures data.Some? <==> sid in old(streams)
      ensures data.Some? ==> data.value == old(streams[sid]) && View() == Claim(old(View()), sid)
      ensures data.None? ==> View() == old(View()) && claimed == old(claimed)
    {
      data := None;
      if sid in streams {
        var popped := PopStream(sid);
        data := Some(popped);
      }
    }

    /** The reaper's test of one record, and the deletion that goes with it. */
    method TakeIfIdle(sid: StreamId, now: real) returns (data: Option<StreamRecord>)
      requires Valid() && sid in streams
      modifies this`streams, this`claimed, this`home
      ensures Valid() && Repr == old(Repr)
      ensures data.Some? <==> now - old(View()).streams[sid].lastSeen > 5.0
      ensures data.Some? ==> data.value == old(streams[sid]) && View() == Claim(old(View()), sid)
      ensures data.Some? ==> claimed == old(claimed) + [(sid, data.value)] && streams == old(streams) - {sid}
      ensures data.None? ==> View() == old(View()) && claimed == old(claimed) && streams == old(streams)
    {
      var record := streams[sid];
      var age := now - record.lastSeen;
      data := None;
      if age > 5.0 {
        var popped := PopStream(sid);
        data := Some(popped);
      }
    }

    /** One reaper pass up to its first await: every record idle for more than 5 s is claimed. */
    method Sweep(now: real) returns (toProcess: seq<(StreamId, StreamRecord)>, ghost order: seq<StreamId>)
      requires Valid()
      modifies this`streams, this`claimed, this`home
      ensures Valid() && Repr == old(Repr)
      ensures |order| == |toProcess| && AllLive(old(View()), order)
      ensures forall i :: 0 <= i < |order| ==>
                order[i] in old(streams) && toProcess[i] == (order[i], old(streams)[order[i]])
      ensures forall sid :: sid in old(View()).streams ==>
                (sid in order <==> now - old(View()).streams[sid].lastSeen > 5.0)
      ensures View() == ClaimAll(old(View()), order)
      ensures claimed == old(claimed) + toProcess
    {
      hide *;
      toProcess, order := [], [];
      var remaining := streams.Keys;
      ghost var start := View();
      NothingSwept(start, now);
      LiveKeys();
      while remaining != {}
        invariant Valid() && Repr == old(Repr)
        invariant Swept(start, View(), order, remaining, now)
        invariant forall sid <- remaining :: sid in streams && sid in old(streams) && streams[sid] == old(streams)[sid]
        invariant |order| == |toProcess|
        invariant forall i :: 0 <= i < |order| ==>
                    order[i] in old(streams) && toProcess[i] == (order[i], old(streams)[order[i]])
        invariant claimed == old(claimed) + toProcess
        decreases remaining
      {
        var sid :| sid in remaining;
        SweepOne(start, View(), order, remaining, sid, now);
        remaining := remaining - {sid};
        var data := TakeIfIdle(sid, now);
        if data.Some? {
          toProcess := toProcess + [(sid, data.value)];
          order := order + [sid];
        }
      }
      AllSwept(start, View(), order, now);
    }

    lemma LiveKeys()
      requires Valid()
      ensures View().streams.Keys == streams.Keys
    {
    }

    /** The counter is the number of tasks inside the dispatch. */
    ghost predicate SlotsCounted()
      reads this
    {
      activeScans == |dispatching|
    }

    /**
     One turn of a task's polling loop: it enters the dispatch iff fewer tasks than the limit
     are inside, as in the slot poll of the protocol; test and increment have no await
     between them.
    */
    method TryAcquire(task: nat) returns (got: bool)
      requires SlotsCounted() && task !in dispatching
      modifies this`activeScans, this`dispatching
      ensures SlotsCounted() && dispatching == old(dispatching) + (if got then {task} else {})
      ensures got <==> |old(dispatching)| < maxScans
      ensures got ==> |dispatching| <= maxScans
      ensures forall s: Protocol.State, g: nat :: AtSlot(s, g, old(activeScans), maxScans) ==>
                Polled(s, g, activeScans, got)
    {
      got := false;
      if !(activeScans >= maxScans) {
        activeScans := activeScans + 1;
        dispatching := dispatching + {task};
        got := true;
      }
    }

    /** The `finally` block after the dispatch, as in the protocol's step for a result and for an exception alike. */
    method Release(task: nat)
      requires SlotsCounted() && task in dispatching
      modifies this`activeScans, this`dispatching
      ensures SlotsCounted() && dispatching == old(dispatching) - {task}
      ensures forall s: Protocol.State, g: nat, reply: Protocol.Outcome ::
                AtDispatch(s, g, reply, old(activeScans)) ==> Left(s, g, reply, activeScans)
    {
      activeScans := activeScans - 1;
      dispatching := dispatching - {task};
    }

    /** One turn of the settings task: a missing, empty or malformed setting changes nothing. */
    method SyncSettings(setting: Option<string>)
      modifies this`maxScans
      ensures maxScans ==
                if setting.Some? && Decimal.Parse(setting.value).Some? then Decimal.Parse(setting.value).value
                else old(maxScans)
    {
      if setting.Some? && setting.value != "" {
        match Decimal.Parse(setting.value)
        case Some(n) => maxScans := n;
        case None =>
      }
    }
  }
}
