/**
 The TCP session synthesised for a payload without packets, and what a receiver that
 orders segments by sequence number (section 3.4 of RFC 9293) makes of it.
*/
module Pcap {
  import opened Common

  const CHUNK_SIZE := 1300
  const SEQUENCE_LIMIT := 0x1_0000_0000

  datatype Address = Address(ip: string, port: int)
  datatype Packet = Packet(src: Address, dst: Address, flags: string, number: nat, ack: nat, data: seq<byte>)

  function Segment(src: Address, dst: Address, raw: seq<byte>, offset: nat, number: nat): Packet
    requires offset < |raw|
  {
    var end := if offset + CHUNK_SIZE <= |raw| then offset + CHUNK_SIZE else |raw|;
    Packet(src, dst, "PA", number, 2001, raw[offset..end])
  }

  function Segments(src: Address, dst: Address, raw: seq<byte>, offset: nat, number: nat): (segments: seq<Packet>)
    decreases |raw| - offset
  {
    if offset >= |raw| then []
    else
      var s := Segment(src, dst, raw, offset, number);
      [s] + Segments(src, dst, raw, offset + CHUNK_SIZE, number + |s.data|)
  }

  function Handshake(src: Address, dst: Address): seq<Packet>
  {
    [Packet(src, dst, "S", 1000, 0, []), Packet(dst, src, "SA", 2000, 1001, []), Packet(src, dst, "A", 1001, 2001, [])]
  }

  function Session(src: Address, dst: Address, raw: seq<byte>): seq<Packet>
  {
    Handshake(src, dst) + Segments(src, dst, raw, 0, 1001) + [Packet(src, dst, "FA", 1001 + |raw|, 2001, [])]
  }

  /** None when the capture cannot be written: a sequence number does not fit its 32-bit field. */
  method BuildSession(src: Address, dst: Address, raw: seq<byte>) returns (written: Option<seq<Packet>>)
    ensures written == if 1001 + |raw| < 4_294_967_296 then Some(Session(src, dst, raw)) else None
  {
    var packets: seq<Packet> := [];
    packets := packets + [Packet(src, dst, "S", 1000, 0, [])];
    packets := packets + [Packet(dst, src, "SA", 2000, 1001, [])];
    packets := packets + [Packet(src, dst, "A", 1001, 2001, [])];
    var number := 1001;
    var offset := 0;
    while offset < |raw|
      invariant number == 1001 + if offset < |raw| then offset else |raw|
      invariant packets + Segments(src, dst, raw, offset, number) ==
                  Handshake(src, dst) + Segments(src, dst, raw, 0, 1001)
      invariant forall k :: 0 <= k < |packets| ==> packets[k].number <= Max(2000, number)
    {
      var s := Segment(src, dst, raw, offset, number);
      packets := packets + [s];
      number := number + |s.data|;
      offset := offset + CHUNK_SIZE;
    }
    packets := packets + [Packet(src, dst, "FA", number, 2001, [])];
    assert packets == Session(src, dst, raw);
    if number >= SEQUENCE_LIMIT {
      return None;
    }
    return Some(packets);
  }

  /** Segment k carries bytes 1300k up to 1300(k+1) under sequence number 1001 + 1300k. */
  lemma {:induction false} SegmentIs(src: Address, dst: Address, raw: seq<byte>, offset: nat, number: nat, k: nat)
    requires offset + CHUNK_SIZE * k < |raw|
    ensures k < |Segments(src, dst, raw, offset, number)|
    ensures Segments(src, dst, raw, offset, number)[k] ==
              Segment(src, dst, raw, offset + CHUNK_SIZE * k, number + CHUNK_SIZE * k)
    decreases k
  {
    if k > 0 {
      SegmentIs(src, dst, raw, offset + CHUNK_SIZE, number + CHUNK_SIZE, k - 1);
    }
  }

  lemma {:induction false} SegmentCount(src: Address, dst: Address, raw: seq<byte>, offset: nat, number: nat, k: nat)
    requires k < |Segments(src, dst, raw, offset, number)|
    ensures offset + CHUNK_SIZE * k < |raw|
    decreases k
  {
    if k > 0 {
      var s := Segment(src, dst, raw, offset, number);
      SegmentCount(src, dst, raw, offset + CHUNK_SIZE, number + |s.data|, k - 1);
    }
  }

  /** Segments are non-empty, at most 1300 bytes, contiguous from 1001, and the FIN follows the last byte. */
  lemma SegmentsAreContiguous(src: Address, dst: Address, raw: seq<byte>, k: nat)
    requires k < |Segments(src, dst, raw, 0, 1001)|
    ensures var segments := Segments(src, dst, raw, 0, 1001);
            && 0 < |segments[k].data| <= 1300
            && (k + 1 < |segments| ==> |segments[k].data| == 1300)
            && (k == 0 ==> segments[k].number == 1001)
            && segments[k].number + |segments[k].data| ==
               (if k + 1 < |segments| then segments[k + 1].number else 1001 + |raw|)
  {
    var segments := Segments(src, dst, raw, 0, 1001);
    SegmentCount(src, dst, raw, 0, 1001, k);
    SegmentIs(src, dst, raw, 0, 1001, k);
    if k + 1 < |segments| {
      SegmentCount(src, dst, raw, 0, 1001, k + 1);
      SegmentIs(src, dst, raw, 0, 1001, k + 1);
    } else if CHUNK_SIZE * (k + 1) < |raw| {
      SegmentIs(src, dst, raw, 0, 1001, k + 1);
    }
  }

  /** The handshake numbers follow one another, and every later packet continues from it in both directions. */
  lemma HandshakeIsConsistent(src: Address, dst: Address, raw: seq<byte>, k: nat)
    requires k < |Session(src, dst, raw)|
    ensures var p := Session(src, dst, raw);
            && p[0].number == 1000 && p[0].ack == 0 && p[1].number == 2000
            && p[1].ack == p[0].number + 1 && p[2].number == p[1].ack && p[2].ack == p[1].number + 1
            && p[0].flags == "S" && p[1].flags == "SA" && p[2].flags == "A" && p[0].src == src && p[0].dst == dst
            && (3 <= k ==> p[k].flags == if k + 1 < |p| then "PA" else "FA")
            && p[1].src == p[0].dst && p[1].dst == p[0].src
            && (k >= 2 ==> p[k].src == p[0].src && p[k].dst == p[0].dst)
            && (k >= 2 ==> p[k].ack == p[2].ack && p[k].number >= p[2].number)
  {
    var segments := Segments(src, dst, raw, 0, 1001);
    if 3 <= k < 3 + |segments| {
      SegmentCount(src, dst, raw, 0, 1001, k - 3);
      SegmentIs(src, dst, raw, 0, 1001, k - 3);
    }
  }

  // --- The receiver ------------------------------------------------------------------------

  predicate InSpan(p: Packet, n: nat)
  {
    p.number <= n < p.number + |p.data|
  }

  /** The bytes of one packet by sequence number. */
  function Bytes(p: Packet): map<nat, byte>
  {
    map n: nat | p.number <= n < p.number + |p.data| && InSpan(p, n) :: p.data[n - p.number]
  }

  /** Everything received, in whatever order it came. */
  function Received(arrivals: seq<Packet>): map<nat, byte>
  {
    if arrivals == [] then map[] else Received(arrivals[..|arrivals| - 1]) + Bytes(arrivals[|arrivals| - 1])
  }

  /** The bytes from a sequence number on, up to the first gap. */
  function Delivered(received: map<nat, byte>, next: nat): (data: seq<byte>)
    decreases |received|
  {
    if next in received then
      assert |received - {next}| < |received| by { Smaller(received, next); }
      [received[next]] + Delivered(received - {next}, next + 1)
    else []
  }

  lemma Smaller(m: map<nat, byte>, n: nat)
    requires n in m
    ensures |m - {n}| < |m|
  {
    assert (m - {n}).Keys == m.Keys - {n};
    assert |m.Keys| == |(m - {n}).Keys| + 1;
  }

  ghost predicate Carries(m: map<nat, byte>, raw: seq<byte>)
  {
    forall n <- m :: 1001 <= n < 1001 + |raw| && m[n] == raw[n - 1001]
  }

  lemma {:induction false} OnlyPayload(src: Address, dst: Address, raw: seq<byte>, arrivals: seq<Packet>)
    requires forall p <- arrivals :: p in Session(src, dst, raw)
    ensures Carries(Received(arrivals), raw)
  {
    if arrivals != [] {
      var p := arrivals[|arrivals| - 1];
      OnlyPayload(src, dst, raw, arrivals[..|arrivals| - 1]);
      PacketCarries(src, dst, raw, p);
    }
  }

  lemma PacketCarries(src: Address, dst: Address, raw: seq<byte>, p: Packet)
    requires p in Session(src, dst, raw)
    ensures Carries(Bytes(p), raw)
  {
    hide Segment;
    var segments := Segments(src, dst, raw, 0, 1001);
    if p in segments {
      var k: nat :| k < |segments| && segments[k] == p;
      SegmentCount(src, dst, raw, 0, 1001, k);
      SegmentIs(src, dst, raw, 0, 1001, k);
      SegmentCarries(src, dst, raw, CHUNK_SIZE * k);
    } else {
      assert p.data == [];
    }
  }

  lemma SegmentCarries(src: Address, dst: Address, raw: seq<byte>, offset: nat)
    requires offset < |raw|
    ensures Carries(Bytes(Segment(src, dst, raw, offset, 1001 + offset)), raw)
  {
    var p := Segment(src, dst, raw, offset, 1001 + offset);
    forall n <- Bytes(p) ensures 1001 <= n < 1001 + |raw| && Bytes(p)[n] == raw[n - 1001] {
      assert p.data[n - p.number] == raw[offset + (n - p.number)];
    }
  }

  lemma {:induction false} Contains(arrivals: seq<Packet>, p: Packet, n: nat)
    requires p in arrivals && n in Bytes(p)
    ensures n in Received(arrivals)
  {
    if p != arrivals[|arrivals| - 1] {
      Contains(arrivals[..|arrivals| - 1], p, n);
    }
  }

  lemma {:induction false} DeliversAll(received: map<nat, byte>, raw: seq<byte>, i: nat)
    requires Carries(received, raw) && i <= |raw|
    requires forall n: nat :: 1001 + i <= n < 1001 + |raw| ==> n in received
    ensures Delivered(received, 1001 + i) == raw[i..]
    decreases |raw| - i
  {
    if i < |raw| {
      DeliversAll(received - {1001 + i}, raw, i + 1);
    }
  }

  /**
   Whatever order the packets of the session arrive in, and however often each is
   repeated, once all have arrived the receiver has exactly the payload, and the FIN has
   the number that follows it.
  */
  lemma ReassemblyIsPayload(src: Address, dst: Address, raw: seq<byte>, arrivals: seq<Packet>)
    requires forall p :: p in arrivals <==> p in Session(src, dst, raw)
    ensures Delivered(Received(arrivals), 1001) == raw
    ensures exists fin <- arrivals :: fin.flags == "FA" && fin.number == 1001 + |Delivered(Received(arrivals), 1001)|
  {
    OnlyPayload(src, dst, raw, arrivals);
    var segments := Segments(src, dst, raw, 0, 1001);
    forall n: nat | 1001 <= n < 1001 + |raw| ensures n in Received(arrivals) {
      var k := (n - 1001) / CHUNK_SIZE;
      SegmentIs(src, dst, raw, 0, 1001, k);
      var p := segments[k];
      assert p in Session(src, dst, raw);
      Contains(arrivals, p, n);
    }
    DeliversAll(Received(arrivals), raw, 0);
    var session := Session(src, dst, raw);
    assert session[|session| - 1] in arrivals;
  }
}
