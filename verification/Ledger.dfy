/**
 The Redis stream `stegnar:db_queue`, its consumer group, the consumer of the
 data layer and the table `network_events`.  Message ids are positions in the
 history of added entries; trimming removes a prefix of the stream.
*/
module Ledger {
  import opened Common
  import Decimal

  /** The fields of an entry, named after the keys on the stream. */
  datatype Field =
    | StreamId | EndpointId | Sha256 | Verdict | StegScore | SrcIp | DstIp | BytesTotal | LatencyMs
    | ModelType | PcapUri | ImageUri | TsEpochMs

  type Entry = map<Field, string>

  // --- Field printing and parsing -----------------------------------------

  /** What the servicer passes to the queue writer; the score is kept as printed. */
  datatype Event = Event(
    streamId: string, endpoint: string, sha256: string, verdict: string, score: string, srcIp: string, dstIp: string,
    bytesTotal: int, latencyMs: int, modelType: string, pcapUri: string, imageUri: string)

  /** One ledger row.  A timestamp of None stands for the database clock. */
  datatype Row = Row(
    timestamp: Option<int>, endpoint: Option<string>, streamId: Option<string>,
    srcIp: Option<string>, dstIp: Option<string>, sha256: Option<string>,
    bytesTotal: int, score: string, verdict: Option<string>, latencyMs: int, modelType: string,
    pcapUri: Option<string>, imageUri: Option<string>)

  function PrintEntry(event: Event, nowMs: int): Entry
  {
    map[
      StreamId := event.streamId,
      EndpointId := event.endpoint,
      Sha256 := event.sha256,
      Verdict := event.verdict,
      StegScore := event.score,
      SrcIp := event.srcIp,
      DstIp := event.dstIp,
      BytesTotal := Decimal.Print(event.bytesTotal),
      LatencyMs := Decimal.Print(event.latencyMs),
      ModelType := event.modelType,
      PcapUri := event.pcapUri,
      ImageUri := event.imageUri,
      TsEpochMs := Decimal.Print(nowMs)
    ]
  }

  function Get(entry: Entry, field: Field): Option<string>
  {
    if field in entry then Some(entry[field]) else None
  }

  function IntField(entry: Entry, field: Field): Option<int>
  {
    if field in entry then Decimal.Parse(entry[field]) else Some(0)
  }

  /** Milliseconds of the years 1 to 9999, outside which no datetime can be made. */
  predicate IsDate(ms: int)
  {
    -62_135_596_800_000 <= ms < 253_402_300_800_000
  }

  /** None stands for the ValueError raised before the INSERT is sent. */
  function ParseEntry(entry: Entry): Option<Row>
  {
    match (IntField(entry, TsEpochMs), IntField(entry, BytesTotal), IntField(entry, LatencyMs))
    case (Some(ts), Some(total), Some(latency)) =>
      if !IsDate(ts) then None
      else Some(Row(
        if ts == 0 then None else Some(ts),
        Get(entry, EndpointId), Get(entry, StreamId), Get(entry, SrcIp), Get(entry, DstIp), Get(entry, Sha256), total,
        if StegScore in entry then entry[StegScore] else "0.0",
        Get(entry, Verdict), latency,
        if ModelType in entry then entry[ModelType] else "srnet",
        Get(entry, PcapUri), Get(entry, ImageUri)))
    case _ => None
  }

  /** The row parsed from a printed event carries the event's own values; there is one iff the timestamp is a date. */
  lemma EntryRoundTrip(event: Event, nowMs: int)
    ensures ParseEntry(PrintEntry(event, nowMs)) ==
            if !IsDate(nowMs) then None
            else Some(Row(if nowMs == 0 then None else Some(nowMs), Some(event.endpoint), Some(event.streamId),
                          Some(event.srcIp), Some(event.dstIp), Some(event.sha256),
                          event.bytesTotal, event.score, Some(event.verdict), event.latencyMs, event.modelType,
                          Some(event.pcapUri), Some(event.imageUri)))
  {
    hide Decimal.Print, Decimal.Parse;
    Decimal.RoundTrip(event.bytesTotal);
    Decimal.RoundTrip(event.latencyMs);
    Decimal.RoundTrip(nowMs);
  }

  /** Days from the first of January of year 1 to that of another year. */
  function DaysBefore(year: nat): nat
    requires year >= 1
  {
    365 * (year - 1) + (year - 1) / 4 - (year - 1) / 100 + (year - 1) / 400
  }

  /** The dates that can be made are those of the years 1 to 9999. */
  lemma DatesAreFourDigitYears(ms: int)
    ensures IsDate(ms) <==> 0 <= ms / 86_400_000 + DaysBefore(1970) < DaysBefore(10_000)
  {
  }

  /** Each key of the stream fills the column of its name and no other. */
  lemma KeyIsItsColumn(event: Event, nowMs: int, text: string, n: int)
    requires IsDate(nowMs) && IsDate(n) && n != 0
    ensures var entry := PrintEntry(event, nowMs);
            ParseEntry(entry).Some? && var row := ParseEntry(entry).value;
            && ParseEntry(entry[StreamId := text]) == Some(row.(streamId := Some(text)))
            && ParseEntry(entry[EndpointId := text]) == Some(row.(endpoint := Some(text)))
            && ParseEntry(entry[Sha256 := text]) == Some(row.(sha256 := Some(text)))
            && ParseEntry(entry[Verdict := text]) == Some(row.(verdict := Some(text)))
            && ParseEntry(entry[StegScore := text]) == Some(row.(score := text))
            && ParseEntry(entry[SrcIp := text]) == Some(row.(srcIp := Some(text)))
            && ParseEntry(entry[DstIp := text]) == Some(row.(dstIp := Some(text)))
            && ParseEntry(entry[ModelType := text]) == Some(row.(modelType := text))
            && ParseEntry(entry[PcapUri := text]) == Some(row.(pcapUri := Some(text)))
            && ParseEntry(entry[ImageUri := text]) == Some(row.(imageUri := Some(text)))
            && ParseEntry(entry[BytesTotal := Decimal.Print(n)]) == Some(row.(bytesTotal := n))
            && ParseEntry(entry[LatencyMs := Decimal.Print(n)]) == Some(row.(latencyMs := n))
            && ParseEntry(entry[TsEpochMs := Decimal.Print(n)]) == Some(row.(timestamp := Some(n)))
  {
    hide Decimal.Print, Decimal.Parse, IsDate;
    EntryRoundTrip(event, nowMs);
    Decimal.RoundTrip(event.bytesTotal);
    Decimal.RoundTrip(event.latencyMs);
    Decimal.RoundTrip(nowMs);
    Decimal.RoundTrip(n);
  }

  /** What a row holds for a missing key: nothing, or 0, "0.0" and "srnet". */
  lemma EmptyEntryIsDefaultRow()
    ensures ParseEntry(map[]) ==
            Some(Row(None, None, None, None, None, None, 0, "0.0", None, 0, "srnet", None, None))
  {
  }

  // --- The consumer group protocol ----------------------------------------

  const MAX_LEN := 10_000
  const BATCH := 50

  /** source names the generation an entry comes from; other producers have none. */
  datatype Message = Message(source: Option<nat>, entry: Entry)

  datatype Stage = Fetched | Inserted

  datatype Queue = Queue(
    added: seq<Message>,          // every entry ever added
    first: nat,                   // ids below this one were trimmed away
    cursor: nat,                  // the group's last-delivered id, plus one
    pending: set<nat>,            // delivered and not acknowledged
    acked: set<nat>,
    batch: seq<nat>,              // ids in the consumer's memory, in order
    stage: Stage,                 // of the first id of the batch
    rows: seq<(nat, Row)>)        // the table, each row with the id it came from

  const EmptyQueue := Queue([], 0, 0, {}, {}, [], Fetched, [])

  datatype Reply = Done | Lost | Refused   // Lost: the server did it, the caller saw an exception

  datatype Op =
    | Add(message: Message, trimTo: nat)
    | Deliver(count: nat, reply: Reply)
    | Insert(reply: Reply)
    | Ack(reply: Reply)
    | Restart

  function Range(lo: nat, hi: nat): (ids: seq<nat>)
    requires lo <= hi
    ensures |ids| == hi - lo && forall i :: 0 <= i < |ids| ==> ids[i] == lo + i
    ensures forall id :: id in ids <==> lo <= id < hi
  {
    if lo == hi then [] else Range(lo, hi - 1) + [hi - 1]
  }

  function DropHead(q: Queue): Queue
    requires q.batch != []
  {
    q.(batch := q.batch[1..], stage := Fetched)
  }

  /** The approximate cap never trims below the newest MAX_LEN entries. */
  function AddStep(q: Queue, m: Message, trimTo: nat): Queue
  {
    var q' := q.(added := q.added + [m]);
    if q.first <= trimTo && trimTo + MAX_LEN <= |q'.added| then q'.(first := trimTo) else q'
  }

  /** XREADGROUP with `>`: the next entries that are still in the stream, up to a batch. */
  function DeliverStep(q: Queue, count: nat, reply: Reply): Queue
  {
    var lo := Max(q.cursor, q.first);
    if q.batch != [] || reply == Refused || count > BATCH || lo + count > |q.added| || count == 0 then q
    else
      var ids := Range(lo, lo + count);
      q.(cursor := lo + count,
         pending := q.pending + (set id | id in ids),
         batch := if reply == Done then ids else [],
         stage := Fetched)
  }

  /** `insert_event`: parse, then INSERT.  Any exception skips the acknowledgement. */
  function InsertStep(q: Queue, reply: Reply): Queue
    requires forall i :: 0 <= i < |q.batch| ==> q.batch[i] < |q.added|
  {
    if q.batch == [] || q.stage != Fetched then q
    else
      match ParseEntry(q.added[q.batch[0]].entry)
      case None => DropHead(q)
      case Some(row) =>
        if reply == Refused then DropHead(q)
        else
          var q' := q.(rows := q.rows + [(q.batch[0], row)]);
          if reply == Lost then DropHead(q') else q'.(stage := Inserted)
  }

  function AckStep(q: Queue, reply: Reply): Queue
  {
    if q.batch == [] || q.stage != Inserted then q
    else if reply == Refused then DropHead(q)
    else DropHead(q.(pending := q.pending - {q.batch[0]}, acked := q.acked + {q.batch[0]}))
  }

  ghost function Apply(q: Queue, op: Op): Queue
    requires Inv(q)
  {
    match op
    case Add(m, trimTo) => AddStep(q, m, trimTo)
    case Deliver(count, reply) => DeliverStep(q, count, reply)
    case Insert(reply) => InsertStep(q, reply)
    case Ack(reply) => AckStep(q, reply)
    case Restart => q.(batch := [], stage := Fetched)
  }

  ghost predicate HasRow(q: Queue, id: int)
  {
    exists i :: 0 <= i < |q.rows| && q.rows[i].0 == id
  }

  ghost predicate Inv(q: Queue)
  {
    && q.first <= |q.added| && q.cursor <= |q.added|
    // every id below the cursor was delivered, unless it was trimmed first
    && (forall id :: id in q.pending || id in q.acked ==> id < q.cursor)
    && q.pending !! q.acked
    && (forall id :: 0 <= id < q.cursor && id !in q.pending && id !in q.acked ==> id < q.first)
    // the batch is pending and not inserted, but for its first id
    && (forall i :: 0 <= i < |q.batch| ==>
         q.batch[i] in q.pending && (HasRow(q, q.batch[i]) <==> i == 0 && q.stage == Inserted))
    && (forall i, j :: 0 <= i < j < |q.batch| ==> q.batch[i] != q.batch[j])
    // the table
    && (forall i :: 0 <= i < |q.rows| ==>
         q.rows[i].0 < |q.added| && ParseEntry(q.added[q.rows[i].0].entry) == Some(q.rows[i].1))
    && (forall i, j :: 0 <= i < j < |q.rows| ==> q.rows[i].0 != q.rows[j].0)
    && (forall i :: 0 <= i < |q.rows| ==> q.rows[i].0 in q.pending || q.rows[i].0 in q.acked)
    && (forall id :: id in q.acked ==> HasRow(q, id))
  }

  lemma RowsExtend(q: Queue, q': Queue)
    requires q.rows <= q'.rows
    ensures forall id :: HasRow(q, id) ==> HasRow(q', id)
    ensures forall id :: HasRow(q', id) ==> HasRow(q, id) || exists i :: |q.rows| <= i < |q'.rows| && q'.rows[i].0 == id
  {
    forall id | HasRow(q, id) ensures HasRow(q', id) {
      var i :| 0 <= i < |q.rows| && q.rows[i].0 == id;
      assert q'.rows[i].0 == id;
    }
    forall id | HasRow(q', id)
      ensures HasRow(q, id) || exists i :: |q.rows| <= i < |q'.rows| && q'.rows[i].0 == id
    {
      var i :| 0 <= i < |q'.rows| && q'.rows[i].0 == id;
      if i < |q.rows| { assert q.rows[i].0 == id; }
    }
  }

  lemma NewRow(q: Queue, row: Row)
    requires Inv(q) && q.batch != [] && q.stage == Fetched
    ensures forall i :: 0 <= i < |q.rows| ==> q.rows[i].0 != q.batch[0]
    ensures forall id :: HasRow(WithRow(q, row), id) <==> HasRow(q, id) || id == q.batch[0]
  {
    var q' := WithRow(q, row);
    assert !HasRow(q, q.batch[0]);
    RowsExtend(q, q');
    assert q'.rows[|q.rows|].0 == q.batch[0];
  }

  lemma DropKeepsInv(q: Queue, q': Queue)
    requires Inv(q) && q.batch != [] && q'.rows == q.rows
    requires q' == DropHead(q)
    ensures Inv(q')
  {
    RowsExtend(q, q');
  }

  function WithRow(q: Queue, row: Row): Queue
    requires q.batch != []
  {
    q.(rows := q.rows + [(q.batch[0], row)], stage := Inserted)
  }

  lemma RowKeepsInv(q: Queue, row: Row)
    requires Inv(q) && q.batch != [] && q.stage == Fetched
    requires ParseEntry(q.added[q.batch[0]].entry) == Some(row)
    ensures Inv(WithRow(q, row))
  {
    NewRow(q, row);
  }

  lemma InsertKeepsInv(q: Queue, reply: Reply)
    requires Inv(q)
    ensures Inv(InsertStep(q, reply))
  {
    var q' := InsertStep(q, reply);
    if q' != q {
      if q'.rows == q.rows {
        DropKeepsInv(q, q');
      } else {
        var row := q'.rows[|q.rows|].1;
        RowKeepsInv(q, row);
        if reply == Lost {
          DropKeepsInv(WithRow(q, row), q');
        }
      }
    }
  }

  lemma DeliverKeepsInv(q: Queue, count: nat, reply: Reply)
    requires Inv(q)
    ensures Inv(DeliverStep(q, count, reply))
  {
    var q' := DeliverStep(q, count, reply);
    if q' != q {
      assert forall id :: HasRow(q, id) ==> id < q.cursor;
      RowsExtend(q, q');
    }
  }

  lemma AckKeepsInv(q: Queue, reply: Reply)
    requires Inv(q)
    ensures Inv(AckStep(q, reply))
  {
    var q' := AckStep(q, reply);
    RowsExtend(q, q');
    if q.batch != [] {
      assert forall i :: 0 <= i < |q'.batch| ==> q'.batch == q.batch || q'.batch[i] == q.batch[i + 1];
    }
  }

  lemma ApplyKeepsInv(q: Queue, op: Op)
    requires Inv(q)
    ensures Inv(Apply(q, op))
  {
    match op
    case Insert(reply) => InsertKeepsInv(q, reply);
    case Deliver(count, reply) => DeliverKeepsInv(q, count, reply);
    case Ack(reply) => AckKeepsInv(q, reply);
    case Add(m, trimTo) => RowsExtend(q, AddStep(q, m, trimTo));
    case Restart => RowsExtend(q, q.(batch := [], stage := Fetched));
  }

  ghost function Run(q: Queue, ops: seq<Op>): (q': Queue)
    requires Inv(q)
    ensures Inv(q')
    decreases |ops|
  {
    if ops == [] then q
    else
      ApplyKeepsInv(q, ops[0]);
      Run(Apply(q, ops[0]), ops[1..])
  }

  // --- Properties of whole runs -------------------------------------------

  ghost predicate Undelivered(q: Queue, id: nat) { q.cursor <= id && q.first <= id < |q.added| }
  ghost predicate Trimmed(q: Queue, id: nat) { id < q.first && id !in q.pending && id !in q.acked }

  /**
   In every run, with any mix of refused and lost replies and restarts: an added id is in
   exactly one of four states, has at most one row, and has one if it was acknowledged.
  */
  lemma LedgerSafety(ops: seq<Op>, id: nat)
    ensures Inv(EmptyQueue)
    ensures var q := Run(EmptyQueue, ops);
            && (id < |q.added| ==>
                 multiset([Undelivered(q, id), Trimmed(q, id), id in q.pending, id in q.acked])[true] == 1)
            && (forall i, j :: 0 <= i < |q.rows| && 0 <= j < |q.rows| && q.rows[i].0 == id == q.rows[j].0 ==> i == j)
            && (id in q.acked ==> HasRow(q, id))
  {
    var q := Run(EmptyQueue, ops);
    assert Inv(q);
  }

  /** The consumer will not come back to the message: it was delivered and dropped, or trimmed before delivery. */
  ghost predicate Abandoned(q: Queue, id: nat)
  {
    id < |q.added| && id !in q.acked && id !in q.batch && !Undelivered(q, id)
  }

  lemma AbandonedStep(q: Queue, op: Op, id: nat)
    requires Inv(q) && Abandoned(q, id)
    ensures var q' := Apply(q, op);
            Abandoned(q', id) && (id in q'.pending <==> id in q.pending) && (HasRow(q', id) <==> HasRow(q, id))
  {
    hide ParseEntry;
    var q' := Apply(q, op);
    RowsExtend(q, q');
  }

  /**
   The consumer only ever asks for new messages.  A message that has left the consumer's
   memory without being acknowledged, or was trimmed before it was read, is never
   acknowledged later, and its row, present or missing, stays as it is.
  */
  lemma {:induction false} AbandonedForever(q: Queue, ops: seq<Op>, id: nat)
    requires Inv(q) && Abandoned(q, id)
    ensures var q' := Run(q, ops);
            Abandoned(q', id) && (id in q'.pending <==> id in q.pending) && (HasRow(q', id) <==> HasRow(q, id))
    decreases |ops|
  {
    if ops != [] {
      hide Inv, Apply, Abandoned, HasRow;
      AbandonedStep(q, ops[0], id);
      ApplyKeepsInv(q, ops[0]);
      AbandonedForever(Apply(q, ops[0]), ops[1..], id);
    }
  }

  /** A message trimmed before the group read it never gets a row, and is never acknowledged. */
  lemma TrimmedNeverGetsRow(q: Queue, ops: seq<Op>, id: nat)
    requires Inv(q) && id < |q.added| && Trimmed(q, id)
    ensures !HasRow(Run(q, ops), id) && id !in Run(q, ops).acked
  {
    assert !HasRow(q, id);
    AbandonedForever(q, ops, id);
  }

  lemma {:induction false} AddedIsHistory(q: Queue, ops: seq<Op>)
    requires Inv(q)
    ensures q.added <= Run(q, ops).added
    decreases |ops|
  {
    if ops != [] {
      hide Inv, Apply;
      ApplyKeepsInv(q, ops[0]);
      AddedOnce(q, ops[0]);
      AddedIsHistory(Apply(q, ops[0]), ops[1..]);
    }
  }

  lemma AddedOnce(q: Queue, op: Op)
    requires Inv(q)
    ensures q.added <= Apply(q, op).added
  {
    hide ParseEntry;
  }

  /** One unfolding of a run. */
  lemma Step(q: Queue, op: Op, rest: seq<Op>) returns (next: Queue)
    requires Inv(q)
    ensures next == Apply(q, op) && Inv(next)
    ensures Run(q, [op] + rest) == Run(next, rest)
  {
    next := Apply(q, op);
    ApplyKeepsInv(q, op);
    assert ([op] + rest)[1..] == rest;
  }

  /** The next step on a batch that leaves one of its messages insertable, until it is acknowledged. */
  function WorkOn(q: Queue, id: nat): Op
    requires q.batch != []
  {
    var reply := if q.batch[0] == id then Done else Refused;
    if q.stage == Fetched then Insert(reply) else Ack(reply)
  }

  lemma WorkAdvances(q: Queue, id: nat)
    requires Inv(q) && id in q.batch && ParseEntry(q.added[id].entry).Some?
    ensures var next := Apply(q, WorkOn(q, id));
            || (q.stage == Inserted && id in next.acked)
            || (&& id in next.batch && next.added == q.added
                && (|next.batch| < |q.batch|
                     || (next.batch == q.batch && q.stage == Fetched && next.stage == Inserted)))
  {
    hide ParseEntry;
  }

  lemma {:induction false} BatchMemberCanBeAcked(q: Queue, id: nat) returns (ops: seq<Op>)
    requires Inv(q) && id in q.batch && id < |q.added| && ParseEntry(q.added[id].entry).Some?
    ensures id in Run(q, ops).acked
    decreases |q.batch|, q.stage == Fetched
  {
    hide Inv, Apply, ParseEntry;
    WorkAdvances(q, id);
    var op := WorkOn(q, id);
    var next := Step(q, op, []);
    if id in next.acked {
      ops := [op] + [];
    } else {
      var rest := BatchMemberCanBeAcked(next, id);
      ops := [op] + rest;
      var _ := Step(q, op, rest);
    }
  }

  ghost predicate CanBeAcked(q: Queue, id: nat)
    requires Inv(q)
  {
    exists ops :: id in Run(q, ops).acked
  }

  /** Reading on, one message at a time, brings an undelivered one into memory. */
  lemma {:induction false} UndeliveredCanBeRead(q: Queue, id: nat) returns (ops: seq<Op>)
    requires Inv(q) && Undelivered(q, id)
    ensures id in Run(q, ops).batch && Run(q, ops).added == q.added
    decreases id - Max(q.cursor, q.first)
  {
    hide Inv, Apply;
    ReadOn(q, id);
    var q1 := Step(q, Restart, [Deliver(1, Done)] + []);
    var next := Step(q1, Deliver(1, Done), []);
    ops := [Restart] + ([Deliver(1, Done)] + []);
    if id !in next.batch {
      var rest := UndeliveredCanBeRead(next, id);
      ops := [Restart] + ([Deliver(1, Done)] + rest);
      var q2 := Step(q, Restart, [Deliver(1, Done)] + rest);
      var q3 := Step(q2, Deliver(1, Done), rest);
    }
  }

  lemma ReadOn(q: Queue, id: nat)
    requires Inv(q) && Undelivered(q, id)
    ensures Inv(Apply(q, Restart))
    ensures var next := Apply(Apply(q, Restart), Deliver(1, Done));
            && next.added == q.added
            && (id in next.batch || (Undelivered(next, id) && Max(next.cursor, next.first) > Max(q.cursor, q.first)))
  {
    ApplyKeepsInv(q, Restart);
    hide Inv;
  }

  /** Whether a message is, or can still be brought, where the consumer acts on it. */
  ghost predicate InReach(q: Queue, id: nat)
    requires id < |q.added|
  {
    ParseEntry(q.added[id].entry).Some? && (id in q.batch || Undelivered(q, id))
  }

  lemma ReachableCanBeAcked(q: Queue, id: nat)
    requires Inv(q) && id < |q.added| && InReach(q, id)
    ensures CanBeAcked(q, id)
  {
    hide Inv, Apply, ParseEntry, Undelivered;
    if id in q.batch {
      var ops := BatchMemberCanBeAcked(q, id);
    } else {
      var read := UndeliveredCanBeRead(q, id);
      var ops := BatchMemberCanBeAcked(Run(q, read), id);
      RunAppended(q, read, ops);
      assert id in Run(q, read + ops).acked;
    }
  }

  lemma {:induction false} RunAppended(q: Queue, ops: seq<Op>, more: seq<Op>)
    requires Inv(q)
    ensures Run(q, ops + more) == Run(Run(q, ops), more)
    decreases |ops|
  {
    hide Inv, Apply;
    if ops == [] {
      assert ops + more == more;
    } else {
      ApplyKeepsInv(q, ops[0]);
      RunAppended(Apply(q, ops[0]), ops[1..], more);
      assert (ops + more)[1..] == ops[1..] + more;
    }
  }

  ghost predicate CanGetRow(q: Queue, id: nat)
    requires Inv(q)
  {
    exists ops :: HasRow(Run(q, ops), id)
  }

  /** A row that appears in some continuation was there, or came from a well-formed message in reach. */
  lemma RowCameFromReach(q: Queue, ops: seq<Op>, id: nat)
    requires Inv(q) && id < |q.added| && HasRow(Run(q, ops), id)
    ensures HasRow(q, id) || InReach(q, id)
    ensures id in Run(q, ops).acked ==> id in q.acked || InReach(q, id)
  {
    AddedIsHistory(q, ops);
    var q' := Run(q, ops);
    var i :| 0 <= i < |q'.rows| && q'.rows[i].0 == id;
    assert ParseEntry(q.added[id].entry).Some?;
    hide ParseEntry, HasRow;
    if Abandoned(q, id) {
      AbandonedForever(q, ops, id);
    }
  }

  /**
   Which of all messages ever added can still be acknowledged: those that are, and the well
   formed ones that are in the consumer's memory or still in the stream unread.
  */
  lemma CanBeAckedIff(q: Queue, id: nat)
    requires Inv(q) && id < |q.added|
    ensures CanBeAcked(q, id) <==> id in q.acked || InReach(q, id)
  {
    if InReach(q, id) {
      ReachableCanBeAcked(q, id);
    } else if id in q.acked {
      assert Run(q, []) == q;
    }
    if CanBeAcked(q, id) {
      var ops :| id in Run(q, ops).acked;
      assert HasRow(Run(q, ops), id);
      RowCameFromReach(q, ops, id);
    }
  }

  /** Which can still be in the table: those that are, and the same ones. */
  lemma CanGetRowIff(q: Queue, id: nat)
    requires Inv(q) && id < |q.added|
    ensures CanGetRow(q, id) <==> HasRow(q, id) || InReach(q, id)
  {
    if InReach(q, id) {
      ReachableCanBeAcked(q, id);
      var ops :| id in Run(q, ops).acked;
      assert HasRow(Run(q, ops), id);
    } else if HasRow(q, id) {
      assert Run(q, []) == q;
    }
    if CanGetRow(q, id) {
      var ops :| HasRow(Run(q, ops), id);
      RowCameFromReach(q, ops, id);
    }
  }

  // --- Losing a message to the cap ---------------------------------------------

  ghost function Flood(m: Message, n: nat): (ops: seq<Op>)
  {
    if n == 0 then [] else Flood(m, n - 1) + [Add(m, 0)]
  }

  lemma {:induction false} FloodFills(m: Message, n: nat)
    ensures Inv(EmptyQueue)
    ensures Run(EmptyQueue, Flood(m, n)) == EmptyQueue.(added := seq(n, i => m))
  {
    hide Inv, Apply;
    EmptyInv();
    if n > 0 {
      FloodFills(m, n - 1);
      RunOneMore(EmptyQueue, Flood(m, n - 1), Add(m, 0));
      FloodStep(m, n);
    } else {
      assert Run(EmptyQueue, []) == EmptyQueue;
      assert EmptyQueue.(added := seq(0, i => m)) == EmptyQueue by { assert seq(0, i => m) == []; }
    }
  }

  lemma FloodStep(m: Message, n: nat)
    requires n > 0
    requires Inv(EmptyQueue.(added := seq(n - 1, i => m)))
    ensures Apply(EmptyQueue.(added := seq(n - 1, i => m)), Add(m, 0)) == EmptyQueue.(added := seq(n, i => m))
  {
    assert seq(n - 1, i => m) + [m] == seq(n, i => m);
  }

  lemma RunOneMore(q: Queue, ops: seq<Op>, op: Op)
    requires Inv(q)
    ensures Inv(Apply(Run(q, ops), op)) && Run(q, ops + [op]) == Apply(Run(q, ops), op)
  {
    hide Inv, Apply;
    RunAppended(q, ops, [op]);
    assert [op] == [op] + [];
    var next := Step(Run(q, ops), op, []);
    assert Run(next, []) == next;
  }

  /** Enough writes before the group reads, and the oldest event is lost without a crash or a failure. */
  lemma CapLosesMessage(m: Message, later: seq<Op>)
    ensures Inv(EmptyQueue)
    ensures var q := Run(EmptyQueue, Flood(m, 10_000) + [Add(m, 1)]);
            Inv(q) && !HasRow(Run(q, later), 0) && 0 !in Run(q, later).acked
  {
    hide Inv, Apply, HasRow, Flood;
    EmptyInv();
    FloodFills(m, 10_000);
    RunOneMore(EmptyQueue, Flood(m, 10_000), Add(m, 1));
    CapStep(m);
    TrimmedNeverGetsRow(Run(EmptyQueue, Flood(m, 10_000) + [Add(m, 1)]), later, 0);
  }

  lemma CapStep(m: Message)
    requires Inv(EmptyQueue.(added := seq(10_000, i => m)))
    ensures var q := Apply(EmptyQueue.(added := seq(10_000, i => m)), Add(m, 1));
            0 < |q.added| && Trimmed(q, 0)
  {
  }

  /** A crash between delivery and insertion loses the message: a row can be missing for good. */
  lemma CrashLosesMessage(m: Message, later: seq<Op>)
    ensures Inv(EmptyQueue)
    ensures var q := Run(EmptyQueue, [Add(m, 0), Deliver(1, Done), Restart]);
            Inv(q) && !HasRow(Run(q, later), 0)
  {
    hide Inv, Apply, HasRow;
    assert [Add(m, 0), Deliver(1, Done), Restart] == [Add(m, 0)] + ([Deliver(1, Done)] + ([Restart] + []));
    EmptyInv();
    var q1 := Step(EmptyQueue, Add(m, 0), [Deliver(1, Done)] + ([Restart] + []));
    var q2 := Step(q1, Deliver(1, Done), [Restart] + []);
    var q3 := Step(q2, Restart, []);
    CrashSteps(m);
    AbandonedForever(q3, later, 0);
  }

  lemma EmptyInv()
    ensures Inv(EmptyQueue)
  {
  }

  lemma CrashSteps(m: Message)
    ensures Inv(EmptyQueue)
    ensures var q1 := Apply(EmptyQueue, Add(m, 0));
            && Inv(q1) && q1 == Queue([m], 0, 0, {}, {}, [], Fetched, [])
            && var q2 := Apply(q1, Deliver(1, Done));
               && Inv(q2) && q2 == Queue([m], 0, 1, {0}, {}, [0], Fetched, [])
               && Apply(q2, Restart) == Queue([m], 0, 1, {0}, {}, [], Fetched, [])
               && !HasRow(Apply(q2, Restart), 0)
  {
    ApplyKeepsInv(EmptyQueue, Add(m, 0));
    ApplyKeepsInv(Apply(EmptyQueue, Add(m, 0)), Deliver(1, Done));
    assert Range(0, 1) == [0];
  }
}
