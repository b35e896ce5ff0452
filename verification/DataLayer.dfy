/**
 The consumer of the data layer over the stream and the table it changes in place:
 every round of its loop is a run of the ledger's steps. Each reply of a server is a
 parameter: the command was done, done with its reply lost, or refused.
*/
module DataLayer {
  import opened Common
  import opened Ledger

  function Elements(ids: seq<nat>): set<nat>
  {
    set id | id in ids
  }

  class Stream {
    var added: seq<Message>
    var first: nat
    var cursor: nat
    var pending: set<nat>
    var acked: set<nat>

    constructor ()
      ensures added == [] && first == 0 && cursor == 0 && pending == {} && acked == {}
    {
      added, first, cursor, pending, acked := [], 0, 0, {}, {};
    }

    /** The stream's part of the ledger's state. */
    ghost function Value(): Queue
      reads this
    {
      Queue(added, first, cursor, pending, acked, [], Fetched, [])
    }

    /** XADD with an approximate cap: the ledger's add step, which spares the newest MAX_LEN entries. */
    method Add(message: Message, trimTo: nat) returns (id: nat)
      modifies this
      ensures Value() == AddStep(old(Value()), message, trimTo)
      ensures id == |old(added)| && added[..id] == old(added) && added[id..] == [message]
      ensures old(first) <= first <= Max(old(first), |added| - 10_000)
    {
      id := |added|;
      added := added + [message];
      if first <= trimTo && trimTo + MAX_LEN <= |added| {
        first := trimTo;
      }
    }

    /** `QueueWriter.write_event`: what the data layer parses under the new id is the event it was given. */
    method WriteEvent(event: Event, source: nat, nowMs: int, trimTo: nat) returns (id: nat)
      modifies this
      ensures Value() == AddStep(old(Value()), Message(Some(source), PrintEntry(event, nowMs)), trimTo)
      ensures id == |old(added)| < |added|
      ensures var row := ParseEntry(added[id].entry);
              && (row.Some? <==> IsDate(nowMs))
              && (row.Some? ==>
                   && row.value.endpoint == Some(event.endpoint) && row.value.streamId == Some(event.streamId)
                   && row.value.srcIp == Some(event.srcIp) && row.value.dstIp == Some(event.dstIp)
                   && row.value.bytesTotal == event.bytesTotal && row.value.latencyMs == event.latencyMs
                   && row.value.verdict == Some(event.verdict) && row.value.score == event.score)
      ensures old(first) <= first <= Max(old(first), |added| - 10_000)
    {
      var entry := PrintEntry(event, nowMs);
      EntryRoundTrip(event, nowMs);
      hide PrintEntry, ParseEntry, IsDate;
      id := Add(Message(Some(source), entry), trimTo);
      assert added[id] == added[id..][0];
    }

    /** XREADGROUP with `>`; None for an exception in the caller. */
    method ReadGroup(count: nat, reply: Reply) returns (ids: Option<seq<nat>>)
      modifies this
      ensures added == old(added) && first == old(first) && acked == old(acked)
      ensures var lo := Max(old(cursor), first);
              if reply == Refused || count > 50 || lo + count > |added| || count == 0 then
                cursor == old(cursor) && pending == old(pending) && (ids == None || ids == Some([]))
              else
                && cursor == lo + count
                && pending == old(pending) + Elements(Range(lo, lo + count))
                && ids == if reply == Done then Some(Range(lo, lo + count)) else None
    {
      if reply == Refused {
        return None;
      }
      var lo := Max(cursor, first);
      if count > BATCH || lo + count > |added| || count == 0 {
        return Some([]);
      }
      var range := Range(lo, lo + count);
      cursor := lo + count;
      pending := pending + Elements(range);
      return if reply == Done then Some(range) else None;
    }

    method Acknowledge(id: nat, reply: Reply) returns (ok: bool)
      modifies this
      ensures added == old(added) && first == old(first) && cursor == old(cursor)
      ensures reply == Refused ==> pending == old(pending) && acked == old(acked)
      ensures reply != Refused ==> pending == old(pending) - {id} && acked == old(acked) + {id}
      ensures ok <==> reply == Done
    {
      if reply != Refused {
        pending, acked := pending - {id}, acked + {id};
      }
      return reply == Done;
    }
  }

  class Table {
    var rows: seq<(nat, Row)>

    constructor ()
      ensures rows == []
    {
      rows := [];
    }

    /** `insert_event`: false for an exception, raised by parsing or by the server. */
    method InsertEvent(id: nat, entry: Entry, reply: Reply) returns (ok: bool)
      modifies this
      ensures var row := ParseEntry(entry);
              && rows == old(rows) + (if row.Some? && reply != Refused then [(id, row.value)] else [])
              && (ok <==> row.Some? && reply == Done)
    {
      var row := ParseEntry(entry);
      if row.None? {
        return false;
      }
      if reply != Refused {
        rows := rows + [(id, row.value)];
      }
      return reply == Done;
    }
  }

  /** One XADD by another process: an event of the router, or any other entry. */
  datatype Write =
    | Event(event: Ledger.Event, source: nat, nowMs: int, trimTo: nat)
    | Other(entry: Entry, trimTo: nat)

  function AddOf(w: Write): Op
  {
    match w
    case Event(event, source, nowMs, trimTo) => Add(Message(Some(source), PrintEntry(event, nowMs)), trimTo)
    case Other(entry, trimTo) => Add(Message(None, entry), trimTo)
  }

  function AddOps(writes: seq<Write>): (ops: seq<Op>)
  {
    if writes == [] then [] else AddOps(writes[..|writes| - 1]) + [AddOf(writes[|writes| - 1])]
  }

  /** How one message is handled, and what is written to the stream meanwhile. */
  datatype Handling = Handling(beforeInsert: seq<Write>, insert: Reply, beforeAck: seq<Write>, ack: Reply)

  function HandlingOps(h: Handling): (ops: seq<Op>)
  {
    AddOps(h.beforeInsert) + [Insert(h.insert)] + AddOps(h.beforeAck) + [Ack(h.ack)]
  }

  /** One round of the loop: what is written before it, how many messages are read, and how each is handled. */
  datatype Round = Round(before: seq<Write>, count: nat, read: Reply, handlings: seq<Handling>)

  function HandlingAt(r: Round, i: nat): Handling
  {
    if i < |r.handlings| then r.handlings[i] else Handling([], Done, [], Done)
  }

  /** The first n messages of a batch. */
  function BatchOps(r: Round, n: nat): (ops: seq<Op>)
  {
    if n == 0 then [] else BatchOps(r, n - 1) + HandlingOps(HandlingAt(r, n - 1))
  }

  function ReadOps(r: Round): (ops: seq<Op>)
  {
    AddOps(r.before) + [Deliver(r.count, r.read)]
  }

  /** The steps of a round: as many messages are handled as were delivered. */
  ghost function RoundOps(q: Queue, r: Round): (ops: seq<Op>)
    requires Inv(q)
  {
    ReadOps(r) + BatchOps(r, |Run(q, ReadOps(r)).batch|)
  }

  ghost function LoopOps(q: Queue, rounds: seq<Round>): (ops: seq<Op>)
    requires Inv(q)
    decreases |rounds|
  {
    if rounds == [] then []
    else RoundOps(q, rounds[0]) + LoopOps(Run(q, RoundOps(q, rounds[0])), rounds[1..])
  }

  lemma RunNothing(q: Queue)
    requires Inv(q)
    ensures Run(q, []) == q
  {
  }

  /** One message after the other: its steps come after those before it. */
  lemma RunHandling(q: Queue, h: Handling)
    requires Inv(q)
    ensures var q1 := Run(q, AddOps(h.beforeInsert));
            && Inv(Apply(q1, Insert(h.insert)))
            && var q3 := Run(Apply(q1, Insert(h.insert)), AddOps(h.beforeAck));
               Inv(Apply(q3, Ack(h.ack))) && Run(q, HandlingOps(h)) == Apply(q3, Ack(h.ack))
  {
    hide Inv, Apply, AddOps;
    var a, b := AddOps(h.beforeInsert), AddOps(h.beforeAck);
    RunOneMore(q, a, Insert(h.insert));
    RunAppended(q, a + [Insert(h.insert)], b);
    RunOneMore(q, a + [Insert(h.insert)] + b, Ack(h.ack));
  }

  /** An XADD touches neither the consumer nor the table. */
  lemma AddStepOf(q: Queue, stream: Queue, message: Message, trimTo: nat)
    requires stream == q.(batch := [], stage := Fetched, rows := [])
    ensures AddStep(q, message, trimTo) ==
              AddStep(stream, message, trimTo).(batch := q.batch, stage := q.stage, rows := q.rows)
  {
  }

  lemma DeliveredView(q: Queue, count: nat, reply: Reply)
    requires Inv(q) && q.batch == [] && q.stage == Fetched
    ensures var lo := Max(q.cursor, q.first);
            Apply(q, Deliver(count, reply)) ==
            if reply == Refused || count > BATCH || lo + count > |q.added| || count == 0 then q
            else q.(cursor := lo + count, pending := q.pending + Elements(Range(lo, lo + count)),
                    batch := if reply == Done then Range(lo, lo + count) else [])
  {
  }

  lemma BatchIsAdded(q: Queue, id: nat)
    requires Inv(q) && id in q.batch
    ensures id < |q.added|
  {
  }

  /** The row of one message: there iff its entry parses and its own insert was not refused. */
  function RowsFor(id: nat, entry: Entry, insert: Reply): (rows: seq<(nat, Row)>)
  {
    var row := ParseEntry(entry);
    if row.Some? && insert != Refused then [(id, row.value)] else []
  }

  /** Acknowledged iff the entry parses, the insert returned, and the acknowledgement was performed. */
  predicate Acknowledged(entry: Entry, h: Handling)
  {
    ParseEntry(entry).Some? && h.insert == Done && h.ack != Refused
  }

  /** Every reply of the round is that the command was done. */
  predicate AllDone(r: Round)
  {
    r.read == Done && forall i :: 0 <= i < |r.handlings| ==> r.handlings[i].insert == r.handlings[i].ack == Done
  }

  /** The rows of the n messages from lo on. */
  function BatchRows(r: Round, added: seq<Message>, lo: nat, n: nat): (rows: seq<(nat, Row)>)
    requires lo + n <= |added|
  {
    if n == 0 then []
    else
      BatchRows(r, added, lo, n - 1) + RowsFor(lo + n - 1, added[lo + n - 1].entry, HandlingAt(r, n - 1).insert)
  }

  function BatchAcked(r: Round, added: seq<Message>, lo: nat, n: nat): (acked: set<nat>)
    requires lo + n <= |added|
  {
    if n == 0 then {}
    else
      BatchAcked(r, added, lo, n - 1) +
      (if Acknowledged(added[lo + n - 1].entry, HandlingAt(r, n - 1)) then {lo + n - 1} else {})
  }

  predicate RowIn(rows: seq<(nat, Row)>, id: nat)
  {
    exists k :: 0 <= k < |rows| && rows[k].0 == id
  }

  /** Each message from lo on has its own handling. */
  lemma {:induction false} RowsOfRange(r: Round, added: seq<Message>, lo: nat, n: nat, id: nat)
    requires lo + n <= |added|
    ensures RowIn(BatchRows(r, added, lo, n), id) <==>
            lo <= id < lo + n && ParseEntry(added[id].entry).Some? && HandlingAt(r, id - lo).insert != Refused
  {
    hide RowIn, RowsFor, ParseEntry;
    if n > 0 {
      RowsOfRange(r, added, lo, n - 1, id);
      var last := lo + n - 1;
      RowInBoth(BatchRows(r, added, lo, n - 1), RowsFor(last, added[last].entry, HandlingAt(r, n - 1).insert), id);
      OneRow(last, added[last].entry, HandlingAt(r, n - 1).insert, id);
    } else {
      NoRow(id);
    }
  }

  lemma NoRow(id: nat)
    ensures !RowIn([], id)
  {
  }

  lemma {:induction false} AcksOfRange(r: Round, added: seq<Message>, lo: nat, n: nat, id: nat)
    requires lo + n <= |added|
    ensures id in BatchAcked(r, added, lo, n) <==>
            lo <= id < lo + n && Acknowledged(added[id].entry, HandlingAt(r, id - lo))
  {
    hide Acknowledged;
    if n > 0 {
      AcksOfRange(r, added, lo, n - 1, id);
    }
  }

  lemma OneRow(id: nat, entry: Entry, insert: Reply, other: nat)
    ensures RowIn(RowsFor(id, entry, insert), other) <==>
            other == id && ParseEntry(entry).Some? && insert != Refused
  {
    hide ParseEntry;
    var rows := RowsFor(id, entry, insert);
    if rows != [] {
      assert rows[0].0 == id;
    }
  }

  lemma RowInBoth(a: seq<(nat, Row)>, b: seq<(nat, Row)>, id: nat)
    ensures RowIn(a + b, id) <==> RowIn(a, id) || RowIn(b, id)
  {
    if RowIn(a, id) {
      var k :| 0 <= k < |a| && a[k].0 == id;
      assert (a + b)[k].0 == id;
    }
    if RowIn(b, id) {
      var k :| 0 <= k < |b| && b[k].0 == id;
      assert (a + b)[|a| + k].0 == id;
    }
  }

  lemma RowsAreRows(q: Queue, id: nat)
    ensures HasRow(q, id) <==> RowIn(q.rows, id)
  {
  }

  lemma InvBounds(q: Queue)
    requires Inv(q)
    ensures q.cursor <= |q.added| && q.first <= |q.added|
  {
  }

  /**
   What a round made of the stream and the table. It delivered the n messages from lo on.
   When its read returned, each of them has a row iff its entry parses and its own insert
   was not refused, and is acknowledged iff moreover that insert returned and its own
   acknowledgement was performed; no other message is touched.
  */
  ghost predicate RoundHandled(r: Round, before: Queue, after: Queue, lo: nat, n: nat)
  {
    && before.added <= after.added && lo + n <= |after.added| && n <= 50 && (r.read == Refused ==> n == 0)
    && after.pending + after.acked == before.pending + before.acked + Elements(Range(lo, lo + n))
    && (forall id: nat :: lo <= id < lo + n ==> HandledNow(r, before, after, lo, id))
    && (forall id: nat :: !(lo <= id < lo + n) ==> NotHandled(before, after, id))
  }

  ghost predicate HandledNow(r: Round, before: Queue, after: Queue, lo: nat, id: nat)
    requires lo <= id < |after.added|
  {
    var row, h := ParseEntry(after.added[id].entry), HandlingAt(r, id - lo);
    && id !in before.pending + before.acked && !HasRow(before, id)
    && (HasRow(after, id) <==> r.read == Done && row.Some? && h.insert != Refused)
    && (id in after.acked <==> r.read == Done && row.Some? && h.insert == Done && h.ack != Refused)
  }

  ghost predicate NotHandled(before: Queue, after: Queue, id: nat)
  {
    (HasRow(after, id) <==> HasRow(before, id)) && (id in after.acked <==> id in before.acked)
  }

  /** What the round adds to the table and the acknowledged ids: nothing when the reply to its read was lost. */
  ghost predicate RoundAdds(r: Round, before: Queue, after: Queue, lo: nat, n: nat, added: seq<Message>)
    requires lo + n <= |added|
  {
    var m := if r.read == Done then n else 0;
    && after.rows == before.rows + BatchRows(r, added, lo, m)
    && after.acked == before.acked + BatchAcked(r, added, lo, m)
    && after.pending == before.pending + Elements(Range(lo, lo + n)) - BatchAcked(r, added, lo, m)
  }

  lemma RoundForOne(r: Round, before: Queue, after: Queue, lo: nat, n: nat, added: seq<Message>, id: nat)
    requires lo + n <= |added| && RoundAdds(r, before, after, lo, n, added)
    ensures HasRow(after, id) <==>
            HasRow(before, id) || (r.read == Done && lo <= id < lo + n
                                   && ParseEntry(added[id].entry).Some? && HandlingAt(r, id - lo).insert != Refused)
    ensures id in after.acked <==>
            id in before.acked || (r.read == Done && lo <= id < lo + n
                                   && Acknowledged(added[id].entry, HandlingAt(r, id - lo)))
  {
    hide ParseEntry, BatchRows, BatchAcked, HasRow, RowIn, Acknowledged;
    var m := if r.read == Done then n else 0;
    RowsAreRows(before, id);
    RowsAreRows(after, id);
    RowInBoth(before.rows, BatchRows(r, added, lo, m), id);
    RowsOfRange(r, added, lo, m, id);
    AcksOfRange(r, added, lo, m, id);
  }

  lemma RoundKeepsAll(r: Round, before: Queue, after: Queue, lo: nat, n: nat, added: seq<Message>)
    requires lo + n <= |added| && RoundAdds(r, before, after, lo, n, added)
    ensures after.pending + after.acked == before.pending + before.acked + Elements(Range(lo, lo + n))
  {
    hide ParseEntry, BatchRows, BatchAcked, Acknowledged;
    var m := if r.read == Done then n else 0;
    forall id: nat | id in BatchAcked(r, added, lo, m) ensures id in Elements(Range(lo, lo + n)) {
      AcksOfRange(r, added, lo, m, id);
    }
  }

  lemma RoundIsHandled(r: Round, before: Queue, after: Queue, lo: nat, n: nat, added: seq<Message>)
    requires Inv(before) && before.cursor <= lo && n <= 50 && (r.read == Refused ==> n == 0)
    requires before.added <= added <= after.added && lo + n <= |added|
    requires RoundAdds(r, before, after, lo, n, added)
    ensures RoundHandled(r, before, after, lo, n)
  {
    NotYet(before, lo, n);
    RoundKeepsAll(r, before, after, lo, n, added);
    hide Inv, ParseEntry, HasRow, RoundAdds, HandledNow, NotHandled;
    forall id: nat
      ensures lo <= id < lo + n ==> HandledNow(r, before, after, lo, id)
      ensures !(lo <= id < lo + n) ==> NotHandled(before, after, id)
    {
      RoundOne(r, before, after, lo, n, added, id);
    }
  }

  lemma RoundOne(r: Round, before: Queue, after: Queue, lo: nat, n: nat, added: seq<Message>, id: nat)
    requires added <= after.added && lo + n <= |added| && RoundAdds(r, before, after, lo, n, added)
    requires lo <= id < lo + n ==> id !in before.pending + before.acked && !HasRow(before, id)
    ensures lo <= id < lo + n ==> HandledNow(r, before, after, lo, id)
    ensures !(lo <= id < lo + n) ==> NotHandled(before, after, id)
  {
    RoundForOne(r, before, after, lo, n, added, id);
    hide ParseEntry, HasRow, RoundAdds;
  }

  /** The message was delivered before and is no worse off, or now has all it can have. */
  ghost predicate DoneOrBefore(before: Queue, after: Queue, id: nat)
  {
    || (id in before.pending + before.acked && (HasRow(before, id) ==> HasRow(after, id))
        && (id in before.acked ==> id in after.acked))
    || (id < |after.added| && (ParseEntry(after.added[id].entry).Some? ==> id in after.acked && HasRow(after, id)))
  }

  lemma RoundAddsOn(r: Round, before: Queue, after: Queue, lo: nat, n: nat)
    requires RoundHandled(r, before, after, lo, n)
    ensures before.added <= after.added
  {
  }

  lemma AllDoneOnce(r: Round, before: Queue, after: Queue, lo: nat, n: nat, id: nat)
    requires RoundHandled(r, before, after, lo, n) && AllDone(r) && id in after.pending + after.acked
    ensures DoneOrBefore(before, after, id)
  {
    hide ParseEntry, HasRow;
    if lo <= id < lo + n {
      assert HandledNow(r, before, after, lo, id);
    } else {
      assert NotHandled(before, after, id);
    }
  }

  /** What the read will deliver has no row, and is neither pending nor acknowledged. */
  lemma NotYet(q: Queue, lo: nat, n: nat)
    requires Inv(q) && lo >= q.cursor
    ensures forall id: nat :: lo <= id < lo + n ==> id !in q.pending + q.acked && !HasRow(q, id)
  {
  }

  class Consumer {
    const stream: Stream
    const table: Table

    constructor (stream: Stream, table: Table)
      ensures this.stream == stream && this.table == table
    {
      this.stream, this.table := stream, table;
    }

    /** The ledger's state, with the rest of a batch in the consumer's memory. */
    ghost function View(batch: seq<nat>, stage: Stage): Queue
      reads stream, table
    {
      stream.Value().(batch := batch, stage := stage, rows := table.rows)
    }

    /** What other processes write while the consumer waits. */
    method Meanwhile(writes: seq<Write>, ghost batch: seq<nat>, ghost stage: Stage)
      requires Inv(View(batch, stage))
      modifies stream
      ensures Inv(View(batch, stage)) && View(batch, stage) == Run(old(View(batch, stage)), AddOps(writes))
      ensures old(stream.added) <= stream.added
      ensures stream.cursor == old(stream.cursor) && stream.pending == old(stream.pending)
      ensures stream.acked == old(stream.acked)
      ensures writes == [] ==> stream.first == old(stream.first) && stream.added == old(stream.added)
    {
      hide Inv, Run;
      ghost var q := View(batch, stage);
      RunNothing(q);
      for i := 0 to |writes|
        invariant Inv(View(batch, stage)) && View(batch, stage) == Run(q, AddOps(writes[..i]))
        invariant old(stream.added) <= stream.added
        invariant stream.cursor == old(stream.cursor) && stream.pending == old(stream.pending)
        invariant stream.acked == old(stream.acked)
      {
        assert writes[..i + 1][..i] == writes[..i];
        ghost var message, trimTo := AddOf(writes[i]).message, writes[i].trimTo;
        RunOneMore(q, AddOps(writes[..i]), AddOf(writes[i]));
        AddStepOf(View(batch, stage), stream.Value(), message, trimTo);
        match writes[i] {
          case Event(event, source, nowMs, to) =>
            var _ := stream.WriteEvent(event, source, nowMs, to);
          case Other(entry, to) =>
            var _ := stream.Add(Message(None, entry), to);
        }
      }
      assert writes[..|writes|] == writes;
    }

    /** The insert of one message: it stays in hand only when the insert returned. */
    method InsertFirst(id: nat, rest: seq<nat>, insert: Reply) returns (ok: bool)
      requires Inv(View([id] + rest, Fetched))
      modifies table
      ensures var q := Apply(old(View([id] + rest, Fetched)), Insert(insert));
              Inv(q) && q == if ok then View([id] + rest, Inserted) else View(rest, Fetched)
      ensures id < |stream.added|
      ensures var row := ParseEntry(stream.added[id].entry);
              && table.rows == old(table.rows) + (if row.Some? && insert != Refused then [(id, row.value)] else [])
              && (ok <==> row.Some? && insert == Done)
    {
      ApplyKeepsInv(View([id] + rest, Fetched), Insert(insert));
      assert ([id] + rest)[0] == id && ([id] + rest)[1..] == rest;
      BatchIsAdded(View([id] + rest, Fetched), id);
      ok := table.InsertEvent(id, stream.added[id].entry, insert);
    }

    method AcknowledgeFirst(id: nat, rest: seq<nat>, ack: Reply)
      requires Inv(View([id] + rest, Inserted))
      modifies stream
      ensures View(rest, Fetched) == Apply(old(View([id] + rest, Inserted)), Ack(ack))
      ensures stream.added == old(stream.added) && stream.cursor == old(stream.cursor)
      ensures stream.acked == old(stream.acked) + (if ack == Refused then {} else {id})
      ensures stream.pending == old(stream.pending) - (if ack == Refused then {} else {id})
    {
      assert ([id] + rest)[0] == id && ([id] + rest)[1..] == rest;
      var _ := stream.Acknowledge(id, ack);
    }

    /** An acknowledge step without an inserted message does nothing. */
    lemma NothingToAcknowledge(rest: seq<nat>, ack: Reply)
      requires Inv(View(rest, Fetched))
      ensures Apply(View(rest, Fetched), Ack(ack)) == View(rest, Fetched)
    {
    }

    /** The body of the loop for one message; an exception skips what is left of it. */
    method HandleMessage(id: nat, rest: seq<nat>, h: Handling)
      requires Inv(View([id] + rest, Fetched))
      modifies stream, table
      ensures Inv(View(rest, Fetched)) && View(rest, Fetched) == Run(old(View([id] + rest, Fetched)), HandlingOps(h))
      ensures id < |stream.added| && old(stream.added) <= stream.added && stream.cursor == old(stream.cursor)
      ensures table.rows == old(table.rows) + RowsFor(id, stream.added[id].entry, h.insert)
      ensures stream.acked == old(stream.acked) + (if Acknowledged(stream.added[id].entry, h) then {id} else {})
      ensures stream.pending == old(stream.pending) - (if Acknowledged(stream.added[id].entry, h) then {id} else {})
    {
      hide Inv, Apply, Run, HandlingOps, AddOps;
      RunHandling(View([id] + rest, Fetched), h);
      Meanwhile(h.beforeInsert, [id] + rest, Fetched);
      var ok := InsertFirst(id, rest, h.insert);
      if ok {
        Meanwhile(h.beforeAck, [id] + rest, Inserted);
        AcknowledgeFirst(id, rest, h.ack);
      } else {
        Meanwhile(h.beforeAck, rest, Fetched);
        NothingToAcknowledge(rest, h.ack);
      }
    }

    /** The loop over the messages of one reply: each is handled, whatever became of those before it. */
    method HandleBatch(r: Round, messages: seq<nat>, ghost lo: nat)
      requires Inv(View(messages, Fetched))
      requires lo + |messages| <= |stream.added| && forall i :: 0 <= i < |messages| ==> messages[i] == lo + i
      modifies stream, table
      ensures Inv(View([], Fetched)) && View([], Fetched) == Run(old(View(messages, Fetched)), BatchOps(r, |messages|))
      ensures old(stream.added) <= stream.added && stream.cursor == old(stream.cursor)
      ensures table.rows == old(table.rows) + BatchRows(r, old(stream.added), lo, |messages|)
      ensures stream.acked == old(stream.acked) + BatchAcked(r, old(stream.added), lo, |messages|)
      ensures stream.pending == old(stream.pending) - BatchAcked(r, old(stream.added), lo, |messages|)
    {
      hide Inv, Run, HandlingOps, RowsFor, Acknowledged;
      ghost var delivered := View(messages, Fetched);
      assert messages[0..] == messages;
      RunNothing(delivered);
      for i := 0 to |messages|
        invariant View(messages[i..], Fetched) == Run(delivered, BatchOps(r, i)) && Inv(View(messages[i..], Fetched))
        invariant old(stream.added) <= stream.added && stream.cursor == old(stream.cursor)
        invariant table.rows == old(table.rows) + BatchRows(r, old(stream.added), lo, i)
        invariant stream.acked == old(stream.acked) + BatchAcked(r, old(stream.added), lo, i)
        invariant stream.pending == old(stream.pending) - BatchAcked(r, old(stream.added), lo, i)
      {
        assert messages[i..] == [messages[i]] + messages[i + 1..];
        RunAppended(delivered, BatchOps(r, i), HandlingOps(HandlingAt(r, i)));
        HandleMessage(messages[i], messages[i + 1..], HandlingAt(r, i));
      }
      assert messages[|messages|..] == [];
    }

    /** One read of the group: the next messages after the last one delivered, at most 50. */
    method Read(r: Round) returns (messages: seq<nat>, ghost lo: nat, ghost n: nat)
      requires Inv(View([], Fetched))
      modifies stream
      ensures Inv(View(messages, Fetched)) && View(messages, Fetched) == Run(old(View([], Fetched)), ReadOps(r))
      ensures table.rows == old(table.rows) && stream.acked == old(stream.acked) && old(stream.added) <= stream.added
      ensures lo + n <= |stream.added| && n <= 50 && (r.read == Refused ==> n == 0) && lo >= old(stream.cursor)
      ensures stream.pending == old(stream.pending) + Elements(Range(lo, lo + n))
      ensures messages == if r.read == Done then Range(lo, lo + n) else []
      ensures r.before == [] && r.read != Refused && 0 < r.count <= 50 ==>
                lo == Max(old(stream.cursor), old(stream.first)) &&
                (lo + r.count <= |old(stream.added)| ==> n == r.count)
    {
      hide Inv, Run, DeliverStep;
      RunOneMore(View([], Fetched), AddOps(r.before), Deliver(r.count, r.read));
      Meanwhile(r.before, [], Fetched);
      DeliveredView(View([], Fetched), r.count, r.read);
      lo, n := Max(stream.cursor, stream.first), 0;
      InvBounds(View([], Fetched));
      if r.read != Refused && 0 < r.count <= BATCH && lo + r.count <= |stream.added| {
        n := r.count;
      }
      var streams := stream.ReadGroup(r.count, r.read);
      messages := if streams.Some? then streams.value else [];
      assert Elements(Range(lo, lo)) == {};
    }

    /** One round of `consume_loop`: a run of the ledger that handles exactly what it delivers. */
    method ConsumeOnce(r: Round) returns (ghost lo: nat, ghost n: nat)
      requires Inv(View([], Fetched))
      modifies stream, table
      ensures Inv(View([], Fetched))
      ensures View([], Fetched) == Run(old(View([], Fetched)), RoundOps(old(View([], Fetched)), r))
      ensures RoundHandled(r, old(View([], Fetched)), View([], Fetched), lo, n)
      ensures r.before == [] && r.read != Refused && 0 < r.count <= 50 ==>
                lo == Max(old(stream.cursor), old(stream.first)) &&
                (lo + r.count <= |old(stream.added)| ==> n == r.count)
    {
      hide Inv, Run, ReadOps, BatchOps, RoundHandled, BatchRows, BatchAcked;
      ghost var q := View([], Fetched);
      var messages;
      messages, lo, n := Read(r);
      ghost var added := stream.added;
      RunAppended(q, ReadOps(r), BatchOps(r, |messages|));
      HandleBatch(r, messages, lo);
      RoundIsHandled(r, q, View([], Fetched), lo, n, added);
    }

    /**
     The loop, up to the stop event, while other processes write to the stream: a run of the
     ledger, so all that holds of runs holds of it. If no reply is refused or lost, every
     well-formed message it delivered is acknowledged and has its row.
    */
    method ConsumeLoop(rounds: seq<Round>)
      requires Inv(View([], Fetched))
      modifies stream, table
      ensures Inv(View([], Fetched))
      ensures View([], Fetched) == Run(old(View([], Fetched)), LoopOps(old(View([], Fetched)), rounds))
      ensures (forall i :: 0 <= i < |rounds| ==> AllDone(rounds[i])) ==>
                forall id: nat :: id in stream.pending + stream.acked && id !in old(stream.pending + stream.acked) ==>
                  id < |stream.added| &&
                  (ParseEntry(stream.added[id].entry).Some? ==> id in stream.acked && HasRow(View([], Fetched), id))
    {
      hide Inv, Run, RoundOps, HasRow, ParseEntry, RoundHandled, AllDone;
      ghost var start := View([], Fetched);
      assert rounds[0..] == rounds;
      for i := 0 to |rounds|
        invariant Inv(View([], Fetched)) && old(stream.added) <= stream.added
        invariant Run(start, LoopOps(start, rounds)) == Run(View([], Fetched), LoopOps(View([], Fetched), rounds[i..]))
        invariant (forall k :: 0 <= k < i ==> AllDone(rounds[k])) ==>
                    forall id: nat
                      | id in stream.pending + stream.acked && id !in old(stream.pending + stream.acked)
                      ::
                      id < |stream.added| &&
                      (ParseEntry(stream.added[id].entry).Some? ==> id in stream.acked && HasRow(View([], Fetched), id))
      {
        ghost var q := View([], Fetched);
        assert rounds[i..][0] == rounds[i] && rounds[i..][1..] == rounds[i + 1..];
        var lo, n := ConsumeOnce(rounds[i]);
        RoundAddsOn(rounds[i], q, View([], Fetched), lo, n);
        forall id: nat | id in stream.pending + stream.acked
          ensures AllDone(rounds[i]) ==> DoneOrBefore(q, View([], Fetched), id)
        {
          if AllDone(rounds[i]) {
            AllDoneOnce(rounds[i], q, View([], Fetched), lo, n, id);
          }
        }
        RunAppended(q, RoundOps(q, rounds[i]), LoopOps(View([], Fetched), rounds[i + 1..]));
      }
      RunNothing(View([], Fetched));
    }
  }
}
