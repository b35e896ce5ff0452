/**
 The part of the routing servicer that RPC handlers and the reaper share: the
 dictionary of live stream records, as a value.  `log`, `home` and `times` are history:
 every rate-allowed chunk in order of acceptance, where each one is now, and when it was
 accepted.
*/
module RouterState {
  import opened Common

  type StreamId = string

  datatype Chunk = Chunk(rpc: nat, sid: StreamId, endpoint: string, srcIp: string, dstIp: string, payload: seq<byte>)

  datatype Record = Record(chunks: seq<seq<byte>>, metadata: Chunk, endpoint: string, lastSeen: real)

  datatype Place = Live(sid: StreamId) | Claimed(generation: nat)

  datatype Router = Router(
    streams: map<StreamId, Record>,
    claimed: seq<(StreamId, Record)>,
    log: seq<Chunk>,
    home: seq<Place>,
    times: seq<real>)

  const EmptyRouter := Router(map[], [], [], [], [])

  /** A rate-allowed chunk joins the record of its stream, which is created on demand. */
  function Accept(r: Router, c: Chunk, now: real): Router
  {
    var record := if c.sid in r.streams then r.streams[c.sid] else Record([], c, c.endpoint, now);
    r.(streams := r.streams[c.sid := record.(chunks := record.chunks + [c.payload], lastSeen := now)],
       log := r.log + [c],
       home := r.home + [Live(c.sid)],
       times := r.times + [now])
  }

  /** A record leaves the dictionary and becomes the next claimed generation. */
  function Claim(r: Router, sid: StreamId): Router
    requires sid in r.streams
  {
    r.(streams := r.streams - {sid},
       claimed := r.claimed + [(sid, r.streams[sid])],
       home := Rehome(r.home, sid, |r.claimed|))
  }

  function Rehome(home: seq<Place>, sid: StreamId, generation: nat): (moved: seq<Place>)
    ensures |moved| == |home|
  {
    seq(|home|, i requires 0 <= i < |home| => if home[i] == Live(sid) then Claimed(generation) else home[i])
  }

  ghost predicate AllLive(r: Router, sids: seq<StreamId>)
  {
    && (forall i :: 0 <= i < |sids| ==> sids[i] in r.streams)
    && (forall i, j :: 0 <= i < j < |sids| ==> sids[i] != sids[j])
  }

  /** The reaper claims a whole list of streams in one go. */
  ghost function ClaimAll(r: Router, sids: seq<StreamId>): (after: Router)
    requires AllLive(r, sids)
    ensures after.streams == r.streams - (set sid | sid in sids)
    ensures |after.claimed| == |r.claimed| + |sids| && r.claimed <= after.claimed
    ensures after.log == r.log && after.times == r.times
    ensures forall i :: 0 <= i < |sids| ==> after.claimed[|r.claimed| + i] == (sids[i], r.streams[sids[i]])
    decreases |sids|
  {
    if sids == [] then
      assert r.streams - (set sid | sid in sids) == r.streams;
      r
    else
      var front := sids[..|sids| - 1];
      var before := ClaimAll(r, front);
      var after := Claim(before, sids[|sids| - 1]);
      assert after.streams == r.streams - (set sid | sid in sids);
      after
  }

  lemma ClaimNone(r: Router)
    ensures AllLive(r, []) && ClaimAll(r, []) == r
  {
  }

  lemma ClaimOneMore(r: Router, sids: seq<StreamId>, sid: StreamId)
    requires AllLive(r, sids) && sid in r.streams && sid !in sids
    ensures AllLive(r, sids + [sid])
    ensures ClaimAll(r, sids + [sid]) == Claim(ClaimAll(r, sids), sid)
  {
    assert (sids + [sid])[..|sids|] == sids;
  }

  /** The payloads of the accepted chunks that are at place p, in acceptance order. */
  ghost function Select(log: seq<Chunk>, home: seq<Place>, p: Place): seq<seq<byte>>
    requires |log| == |home|
  {
    if log == [] then []
    else
      var n := |log| - 1;
      Select(log[..n], home[..n], p) + (if home[n] == p then [log[n].payload] else [])
  }

  ghost predicate Exists(r: Router, p: Place)
  {
    match p
    case Live(sid) => sid in r.streams
    case Claimed(g) => g < |r.claimed|
  }

  ghost function Contents(r: Router, p: Place): seq<seq<byte>>
    requires Exists(r, p)
  {
    match p
    case Live(sid) => r.streams[sid].chunks
    case Claimed(g) => r.claimed[g].1.chunks
  }

  ghost function StreamOf(r: Router, p: Place): StreamId
    requires Exists(r, p)
  {
    match p
    case Live(sid) => sid
    case Claimed(g) => r.claimed[g].0
  }

  /** The records partition the accepted chunks: each holds exactly its share, in order. */
  ghost predicate Partitioned(r: Router)
  {
    && |r.home| == |r.log|
    && (forall k :: 0 <= k < |r.log| ==> Exists(r, r.home[k]) && StreamOf(r, r.home[k]) == r.log[k].sid)
    && (forall p :: Exists(r, p) ==> Contents(r, p) == Select(r.log, r.home, p))
  }

  lemma {:induction false} SelectNone(log: seq<Chunk>, home: seq<Place>, p: Place)
    requires |log| == |home|
    requires p !in home
    ensures Select(log, home, p) == []
  {
    if log != [] {
      SelectNone(log[..|log| - 1], home[..|log| - 1], p);
    }
  }

  lemma {:induction false} SelectRehomed(log: seq<Chunk>, home: seq<Place>, sid: StreamId, g: nat)
    requires |log| == |home| && Claimed(g) !in home
    ensures Live(sid) !in Rehome(home, sid, g)
    ensures Select(log, Rehome(home, sid, g), Claimed(g)) == Select(log, home, Live(sid))
    ensures forall p :: p != Live(sid) && p != Claimed(g) ==>
              Select(log, Rehome(home, sid, g), p) == Select(log, home, p)
  {
    if log != [] {
      var n := |log| - 1;
      SelectRehomed(log[..n], home[..n], sid, g);
      assert Rehome(home, sid, g)[..n] == Rehome(home[..n], sid, g);
    }
  }

  /** Accepting a chunk keeps the partition. */
  lemma AcceptKeepsPartition(r: Router, c: Chunk, now: real)
    requires Partitioned(r)
    ensures Partitioned(Accept(r, c, now))
  {
    var after := Accept(r, c, now);
    assert after.log[..|r.log|] == r.log && after.home[..|r.home|] == r.home;
    if c.sid !in r.streams {
      SelectNone(r.log, r.home, Live(c.sid));
    }
    forall p | Exists(after, p)
      ensures Contents(after, p) == Select(after.log, after.home, p)
    {
      if p != Live(c.sid) {
        assert Exists(r, p) && Contents(after, p) == Contents(r, p);
      }
    }
  }

  /** Claiming a record keeps the partition: its chunks move, together and in order. */
  lemma ClaimKeepsPartition(r: Router, sid: StreamId)
    requires Partitioned(r) && sid in r.streams
    ensures Partitioned(Claim(r, sid))
    ensures Live(sid) !in Claim(r, sid).home
    ensures forall k :: 0 <= k < |r.home| && r.home[k] != Live(sid) ==> Claim(r, sid).home[k] == r.home[k]
  {
    var g, after := |r.claimed|, Claim(r, sid);
    assert Claimed(g) !in r.home;
    SelectRehomed(r.log, r.home, sid, g);
    assert Exists(r, Live(sid));
    forall p | Exists(after, p)
      ensures Contents(after, p) == Select(after.log, after.home, p)
    {
      if p != Claimed(g) {
        assert Exists(r, p) && p != Live(sid) && Contents(after, p) == Contents(r, p);
      }
    }
  }

  lemma {:induction false} ClaimAllKeepsPartition(r: Router, sids: seq<StreamId>)
    requires Partitioned(r) && AllLive(r, sids)
    ensures Partitioned(ClaimAll(r, sids))
    ensures forall k :: 0 <= k < |r.home| && r.home[k].Claimed? ==> ClaimAll(r, sids).home[k] == r.home[k]
    ensures forall k :: 0 <= k < |r.home| && ClaimAll(r, sids).home[k].Live? ==> ClaimAll(r, sids).home[k] == r.home[k]
    decreases |sids|
  {
    if sids != [] {
      var front := sids[..|sids| - 1];
      ClaimAllKeepsPartition(r, front);
      ClaimKeepsPartition(ClaimAll(r, front), sids[|sids| - 1]);
    }
  }

  // --- What the records say of their chunks -------------------------------

  /** Chunk k is the first at place p. */
  ghost predicate FirstAt(home: seq<Place>, p: Place, k: nat)
  {
    k < |home| && home[k] == p && p !in home[..k]
  }

  /** Chunk k is the last at place p. */
  ghost predicate LastAt(home: seq<Place>, p: Place, k: nat)
  {
    k < |home| && home[k] == p && p !in home[k + 1..]
  }

  ghost function RecordAt(r: Router, p: Place): Record
    requires Exists(r, p)
  {
    match p
    case Live(sid) => r.streams[sid]
    case Claimed(g) => r.claimed[g].1
  }

  /** The record at p names the first chunk there, and when the last one was accepted. */
  ghost predicate Described(r: Router, p: Place)
    requires Exists(r, p) && |r.home| == |r.log| == |r.times|
  {
    var record := RecordAt(r, p);
    && (exists k: nat :: FirstAt(r.home, p, k) && record.metadata == r.log[k])
    && record.endpoint == record.metadata.endpoint
    && (exists k: nat :: LastAt(r.home, p, k) && record.lastSeen == r.times[k])
  }

  ghost predicate RecordsDescribed(r: Router)
  {
    |r.home| == |r.log| == |r.times| && forall p :: Exists(r, p) ==> Described(r, p)
  }

  lemma AcceptKeepsDescribed(r: Router, c: Chunk, now: real)
    requires Partitioned(r) && RecordsDescribed(r)
    ensures RecordsDescribed(Accept(r, c, now))
  {
    var after, n := Accept(r, c, now), |r.home|;
    assert after.home[..n] == r.home;
    forall p | Exists(after, p) ensures Described(after, p) {
      if p == Live(c.sid) {
        assert LastAt(after.home, p, n) && after.times[n] == now;
        if c.sid in r.streams {
          assert Exists(r, p);
          var k: nat :| FirstAt(r.home, p, k) && r.streams[c.sid].metadata == r.log[k];
          assert after.home[..k] == r.home[..k] && FirstAt(after.home, p, k) && after.log[k] == r.log[k];
        } else {
          assert FirstAt(after.home, p, n) && after.log[n] == c;
        }
      } else {
        OtherPlaceDescribed(r, c, now, p);
      }
    }
  }

  lemma OtherPlaceDescribed(r: Router, c: Chunk, now: real, p: Place)
    requires RecordsDescribed(r) && p != Live(c.sid) && Exists(r, p)
    ensures Described(Accept(r, c, now), p)
  {
    var after := Accept(r, c, now);
    assert RecordAt(after, p) == RecordAt(r, p);
    var k: nat :| FirstAt(r.home, p, k) && RecordAt(r, p).metadata == r.log[k];
    assert after.home[..k] == r.home[..k] && FirstAt(after.home, p, k) && after.log[k] == r.log[k];
    var l: nat :| LastAt(r.home, p, l) && RecordAt(r, p).lastSeen == r.times[l];
    assert after.home[l + 1..] == r.home[l + 1..] + [Live(c.sid)];
    assert LastAt(after.home, p, l) && after.times[l] == r.times[l];
  }

  lemma RehomedFirstAndLast(home: seq<Place>, sid: StreamId, g: nat, p: Place, q: Place, k: nat)
    requires Claimed(g) !in home
    requires p != Claimed(g) && q == if p == Live(sid) then Claimed(g) else p
    ensures FirstAt(home, p, k) ==> FirstAt(Rehome(home, sid, g), q, k)
    ensures LastAt(home, p, k) ==> LastAt(Rehome(home, sid, g), q, k)
  {
    var moved := Rehome(home, sid, g);
    if k < |home| && home[k] == p {
      assert forall i :: 0 <= i < |home| && moved[i] == q ==> home[i] == p;
      if p !in home[..k] {
        forall i | 0 <= i < k ensures moved[i] != q { assert home[..k][i] == home[i]; }
      }
      if p !in home[k + 1..] {
        forall i | k < i < |home| ensures moved[i] != q { assert home[k + 1..][i - k - 1] == home[i]; }
      }
    }
  }

  lemma ClaimKeepsDescribed(r: Router, sid: StreamId)
    requires Partitioned(r) && RecordsDescribed(r) && sid in r.streams
    ensures RecordsDescribed(Claim(r, sid))
  {
    var g, after := |r.claimed|, Claim(r, sid);
    assert Claimed(g) !in r.home;
    forall q | Exists(after, q) ensures Described(after, q) {
      var p := if q == Claimed(g) then Live(sid) else q;
      assert Exists(r, p) && RecordAt(after, q) == RecordAt(r, p) && p != Claimed(g) && q != Live(sid);
      var k: nat :| FirstAt(r.home, p, k) && RecordAt(r, p).metadata == r.log[k];
      RehomedFirstAndLast(r.home, sid, g, p, q, k);
      var l: nat :| LastAt(r.home, p, l) && RecordAt(r, p).lastSeen == r.times[l];
      RehomedFirstAndLast(r.home, sid, g, p, q, l);
    }
  }

  lemma {:induction false} ClaimAllKeepsDescribed(r: Router, sids: seq<StreamId>)
    requires Partitioned(r) && RecordsDescribed(r) && AllLive(r, sids)
    ensures RecordsDescribed(ClaimAll(r, sids))
    decreases |sids|
  {
    if sids != [] {
      var front := sids[..|sids| - 1];
      ClaimAllKeepsPartition(r, front);
      ClaimAllKeepsDescribed(r, front);
      ClaimKeepsDescribed(ClaimAll(r, front), sids[|sids| - 1]);
    }
  }

  // --- What the partition means -------------------------------------------

  /** How many chunks accepted before chunk k are at the same place as chunk k. */
  ghost function Rank(home: seq<Place>, k: nat): nat
    requires k < |home|
  {
    Count(home[..k], home[k])
  }

  ghost function Count(home: seq<Place>, p: Place): nat
  {
    if home == [] then 0
    else Count(home[..|home| - 1], p) + (if home[|home| - 1] == p then 1 else 0)
  }

  lemma {:induction false} SelectAt(log: seq<Chunk>, home: seq<Place>, k: nat)
    requires |log| == |home| && k < |log|
    ensures Rank(home, k) < |Select(log, home, home[k])|
    ensures Select(log, home, home[k])[Rank(home, k)] == log[k].payload
  {
    var n := |log| - 1;
    if k == n {
      SelectLength(log[..n], home[..n], home[n]);
    } else {
      SelectAt(log[..n], home[..n], k);
      assert home[..n][..k] == home[..k];
    }
  }

  lemma {:induction false} SelectLength(log: seq<Chunk>, home: seq<Place>, p: Place)
    requires |log| == |home|
    ensures |Select(log, home, p)| == Count(home, p)
  {
    if log != [] {
      SelectLength(log[..|log| - 1], home[..|log| - 1], p);
    }
  }

  lemma {:induction false} RankIncreases(home: seq<Place>, k: nat, l: nat)
    requires k < l < |home| && home[k] == home[l]
    ensures Rank(home, k) < Rank(home, l)
    decreases l
  {
    CountGrows(home, k + 1, l, home[k]);
    assert home[..k + 1][..k] == home[..k];
  }

  lemma {:induction false} CountGrows(home: seq<Place>, a: nat, b: nat, p: Place)
    requires a <= b <= |home|
    ensures Count(home[..a], p) <= Count(home[..b], p)
    decreases b
  {
    if a < b {
      CountGrows(home, a, b - 1, p);
      assert home[..b][..b - 1] == home[..b - 1];
    }
  }

  lemma {:induction false} RankReached(home: seq<Place>, p: Place, i: nat) returns (k: nat)
    requires i < Count(home, p)
    ensures k < |home| && home[k] == p && Rank(home, k) == i
  {
    var n := |home| - 1;
    if home[n] == p && i == Count(home[..n], p) {
      k := n;
    } else {
      k := RankReached(home[..n], p, i);
      assert home[..n][..k] == home[..k];
    }
  }

  /** Slot i of place p holds an accepted chunk. */
  ghost predicate FilledFromLog(r: Router, p: Place, i: nat)
    requires |r.home| == |r.log|
  {
    exists k :: 0 <= k < |r.log| && r.home[k] == p && Rank(r.home, k) == i
  }

  /**
   Conservation.  Accepted chunks and filled slots of records correspond one to one:
   every accepted chunk sits in one slot of one place, two chunks never share a slot,
   acceptance order is slot order, and no slot holds anything else.
  */
  lemma EveryChunkInExactlyOnePlace(r: Router)
    requires Partitioned(r)
    ensures forall k :: 0 <= k < |r.log| ==>
              && Exists(r, r.home[k])
              && Rank(r.home, k) < |Contents(r, r.home[k])|
              && Contents(r, r.home[k])[Rank(r.home, k)] == r.log[k].payload
    ensures forall k, l :: 0 <= k < l < |r.log| && r.home[k] == r.home[l] ==> Rank(r.home, k) < Rank(r.home, l)
    ensures forall p, i: nat :: Exists(r, p) && i < |Contents(r, p)| ==> FilledFromLog(r, p, i)
  {
    forall k | 0 <= k < |r.log|
      ensures Rank(r.home, k) < |Contents(r, r.home[k])|
      ensures Contents(r, r.home[k])[Rank(r.home, k)] == r.log[k].payload
    {
      SelectAt(r.log, r.home, k);
    }
    forall k, l | 0 <= k < l < |r.log| && r.home[k] == r.home[l]
      ensures Rank(r.home, k) < Rank(r.home, l)
    {
      RankIncreases(r.home, k, l);
    }
    forall p, i: nat | Exists(r, p) && i < |Contents(r, p)|
      ensures FilledFromLog(r, p, i)
    {
      SelectLength(r.log, r.home, p);
      var k := RankReached(r.home, p, i);
    }
  }
}
