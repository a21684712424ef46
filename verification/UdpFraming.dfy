/** UDP packets on a byte stream: `UdpTraffic` of `protocol.rs`, with the fixed-width
    little-endian layout of bincode 1, and the loops that feed and drain the stream. */
module UdpFraming {
  import opened Basics

  const UDP_BUFFER_SIZE: nat := 2048
  const U16_SPAN: nat := 65536

  datatype RawAddr = V4(ip: Bytes, port: nat) | V6(ip: Bytes, port: nat)

  predicate IsAddr(a: RawAddr) {
    |a.ip| == (if a.V4? then 4 else 16) && a.port < U16_SPAN
  }

  /** IPv6 flow labels and scope ids are not on the wire. */
  type SocketAddr = a: RawAddr | IsAddr(a) witness V4([0, 0, 0, 0], 0)

  datatype UdpTraffic = UdpTraffic(from: SocketAddr, data: Bytes)

  function U16Le(n: nat): (b: Bytes)
    requires n < U16_SPAN
  {
    [n % 256, n / 256]
  }

  function FromU16Le(b: Bytes): (n: nat)
    requires |b| == 2
    ensures n < U16_SPAN
  {
    b[0] as int + (b[1] as int) * 256
  }

  const V4_TAG: Bytes := [0, 0, 0, 0]
  const V6_TAG: Bytes := [1, 0, 0, 0]

  /** The serialised header: address family, address, port, payload length. */
  function EncodeHeader(from: SocketAddr, len: nat): Bytes
    requires len < U16_SPAN
  {
    (if from.V4? then V4_TAG else V6_TAG) + from.ip + U16Le(from.port) + U16Le(len)
  }

  /** Deserialising ignores bytes after the header and fails if there are too few or the
      family is unknown. */
  function DecodeHeader(b: Bytes): Option<(SocketAddr, nat)> {
    if |b| >= 12 && b[..4] == V4_TAG then
      Some((V4(b[4..8], FromU16Le(b[8..10])), FromU16Le(b[10..12])))
    else if |b| >= 24 && b[..4] == V6_TAG then
      Some((V6(b[4..20], FromU16Le(b[20..22])), FromU16Le(b[22..24])))
    else
      None
  }

  /** One frame as the writers produce it: the payload length is cast to 16 bits, the
      payload itself is not cut. */
  function Frame(t: UdpTraffic): Bytes {
    var v := EncodeHeader(t.from, |t.data| % U16_SPAN);
    [|v|] + v + t.data
  }

  function Frames(ts: seq<UdpTraffic>): Bytes {
    if ts == [] then [] else Frame(ts[0]) + Frames(ts[1..])
  }

  /** What the reader takes off the front of a stream, given the header length it has
      already read, and what it leaves; None if the stream ends early or the header is bad. */
  function ParseBody(b: Bytes, hdrLen: Byte): (r: Option<(UdpTraffic, Bytes)>)
    ensures r.Some? ==> |r.value.1| <= |b|
  {
    if |b| < hdrLen then None
    else
      match DecodeHeader(b[..hdrLen])
      case None => None
      case Some((from, len)) =>
        if |b| < hdrLen + len then None
        else Some((UdpTraffic(from, b[hdrLen..hdrLen + len]), b[hdrLen + len..]))
  }

  function ParseFrame(b: Bytes): (r: Option<(UdpTraffic, Bytes)>)
    ensures r.Some? ==> |r.value.1| < |b|
  {
    if b == [] then None else ParseBody(b[1..], b[0])
  }

  function ParseAll(b: Bytes): Option<seq<UdpTraffic>>
    decreases |b|
  {
    if b == [] then Some([])
    else
      match ParseFrame(b)
      case None => None
      case Some((t, rest)) =>
        match ParseAll(rest)
        case None => None
        case Some(ts) => Some([t] + ts)
  }

  lemma HeaderRoundTrip(from: SocketAddr, len: nat)
    requires len < U16_SPAN
    ensures var v := EncodeHeader(from, len);
      |v| == (if from.V4? then 12 else 24) && DecodeHeader(v) == Some((from, len))
  {
    var v := EncodeHeader(from, len);
    assert v[..4] == if from.V4? then V4_TAG else V6_TAG;
    var n := 4 + |from.ip|;
    assert v[4..n] == from.ip;
    assert v[n..n + 2] == U16Le(from.port);
    assert v[n + 2..n + 4] == U16Le(len);
  }

  /** The layout, spelled out for 127.0.0.1:8080 and a two-byte payload. */
  lemma LayoutExample(a: Byte, b: Byte)
    ensures Frame(UdpTraffic(V4([127, 0, 0, 1], 8080), [a, b])) ==
      [12, 0, 0, 0, 0, 127, 0, 0, 1, 0x90, 0x1F, 2, 0, a, b]
  {
  }

  /** And for [::1]:8080 with an empty payload. */
  lemma LayoutExampleV6()
    ensures Frame(UdpTraffic(V6([0, 0, 0, 0, 0, 0, 0, 0, 0, 0, 0, 0, 0, 0, 0, 1], 8080), [])) ==
      [24, 1, 0, 0, 0, 0, 0, 0, 0, 0, 0, 0, 0, 0, 0, 0, 0, 0, 0, 0, 1, 0x90, 0x1F, 0, 0]
  {
  }

  /** A header decodes exactly if it is long enough for the family its first bytes name, and
      bytes after it make no difference. */
  lemma DecodesExactly(b: Bytes, tail: Bytes)
    ensures DecodeHeader(b).Some? <==>
      || (|b| >= 12 && b[0] == 0 && b[1] == 0 && b[2] == 0 && b[3] == 0)
      || (|b| >= 24 && b[0] == 1 && b[1] == 0 && b[2] == 0 && b[3] == 0)
    ensures DecodeHeader(b).Some? ==> DecodeHeader(b + tail) == DecodeHeader(b)
  {
    if |b| >= 12 {
      assert (b + tail)[..4] == b[..4] && (b + tail)[4..8] == b[4..8];
      assert (b + tail)[8..10] == b[8..10] && (b + tail)[10..12] == b[10..12];
      assert b[..4] == [b[0], b[1], b[2], b[3]];
    }
    if |b| >= 24 {
      assert (b + tail)[4..20] == b[4..20];
      assert (b + tail)[20..22] == b[20..22] && (b + tail)[22..24] == b[22..24];
    }
  }

  lemma ParseFrameOf(v: Bytes, from: SocketAddr, n: nat, tail: Bytes)
    requires |v| < 256 && DecodeHeader(v) == Some((from, n)) && n <= |tail|
    ensures ParseFrame([|v|] + v + tail) == Some((UdpTraffic(from, tail[..n]), tail[n..]))
  {
    var b := v + tail;
    assert ([|v|] + v + tail)[1..] == b;
    assert b[..|v|] == v;
    assert b[|v|..|v| + n] == tail[..n];
    assert b[|v| + n..] == tail[n..];
  }

  /** What a reader makes of any frame: the payload cut to its length modulo 65536, with
      the rest of it left on the stream. */
  lemma ParseOfFrame(t: UdpTraffic, n: nat, rest: Bytes)
    requires n == |t.data| % U16_SPAN
    ensures ParseFrame(Frame(t) + rest) == Some((UdpTraffic(t.from, t.data[..n]), t.data[n..] + rest))
  {
    var v := EncodeHeader(t.from, n);
    var tail := t.data + rest;
    HeaderRoundTrip(t.from, n);
    ParseFrameOf(v, t.from, n, tail);
    assert Frame(t) + rest == [|v|] + v + tail;
    assert tail[..n] == t.data[..n];
    assert tail[n..] == t.data[n..] + rest;
  }

  lemma ShortBodyFails(v: Bytes, from: SocketAddr, len: nat, b: Bytes)
    requires |v| < 256 && DecodeHeader(v) == Some((from, len))
    requires |b| < |v| + len && (|b| >= |v| ==> b[..|v|] == v)
    ensures ParseBody(b, |v|) == None
  {
  }

  lemma CutBodyFails(v: Bytes, from: SocketAddr, data: Bytes, n: nat)
    requires |v| < 256 && DecodeHeader(v) == Some((from, |data|)) && n < |v + data|
    ensures ParseBody((v + data)[..n], |v|) == None
  {
    var b := (v + data)[..n];
    if n >= |v| {
      assert b[..|v|] == v;
    }
    ShortBodyFails(v, from, |data|, b);
  }

  lemma TailOfPrefix(x: Byte, body: Bytes, n: nat)
    requires 0 < n <= |body| + 1
    ensures ([x] + body)[..n][0] == x && ([x] + body)[..n][1..] == body[..n - 1]
  {
  }

  /** A connection that ends in the middle of a frame yields no packet for it. */
  lemma CutFrameFails(t: UdpTraffic, n: nat)
    requires |t.data| < U16_SPAN && n < |Frame(t)|
    ensures ParseFrame(Frame(t)[..n]) == None
  {
    var v := EncodeHeader(t.from, |t.data|);
    HeaderRoundTrip(t.from, |t.data|);
    assert Frame(t) == [|v|] + (v + t.data);
    if n > 0 {
      TailOfPrefix(|v|, v + t.data, n);
      CutBodyFails(v, t.from, t.data, n - 1);
    }
  }

  lemma ParseAllStep(b: Bytes, t: UdpTraffic, rest: Bytes, ts: seq<UdpTraffic>, head: UdpTraffic)
    requires ParseFrame(b) == Some((t, rest))
    ensures ParseAll(b) == Some([head] + ts) <==> head == t && ParseAll(rest) == Some(ts)
  {
    if ParseAll(rest).Some? && [t] + ParseAll(rest).value == [head] + ts {
      assert ([t] + ParseAll(rest).value)[0] == ([head] + ts)[0];
      assert ([t] + ParseAll(rest).value)[1..] == ([head] + ts)[1..];
    }
  }

  /** A good first frame reads back whatever follows it; an oversized one never does. */
  lemma ParseAllOfFrame(t: UdpTraffic, rest: Bytes, ts: seq<UdpTraffic>)
    ensures ParseAll(Frame(t) + rest) == Some([t] + ts) <==> |t.data| < U16_SPAN && ParseAll(rest) == Some(ts)
  {
    var n := |t.data| % U16_SPAN;
    ParseOfFrame(t, n, rest);
    ParseAllStep(Frame(t) + rest, UdpTraffic(t.from, t.data[..n]), t.data[n..] + rest, ts, t);
    if |t.data| < U16_SPAN {
      assert t.data[..n] == t.data && t.data[n..] + rest == rest;
    } else {
      assert |t.data[..n]| < |t.data|;
    }
  }

  /** The exact bound: reading back a stream of frames returns the packets written, and
      consumes every byte, if and only if every payload is shorter than 65536 bytes. */
  lemma {:induction false} FramesRoundTripExactly(ts: seq<UdpTraffic>)
    ensures ParseAll(Frames(ts)) == Some(ts) <==> forall t :: t in ts ==> |t.data| < U16_SPAN
  {
    if ts != [] {
      FramesRoundTripExactly(ts[1..]);
      ParseAllOfFrame(ts[0], Frames(ts[1..]), ts[1..]);
      assert [ts[0]] + ts[1..] == ts;
      assert forall x :: x in ts <==> x == ts[0] || x in ts[1..];
    }
  }

  // ----- Streams -----

  /** A connection in one direction: the bytes written to it and not yet read. */
  class Stream {
    var pending: Bytes

    constructor ()
      ensures pending == []
    {
      pending := [];
    }

    method WriteAll(b: Bytes)
      modifies this
      ensures pending == old(pending) + b
    {
      pending := pending + b;
    }

    /** Fails, having used up the stream, if it ends too soon. */
    method ReadExact(n: nat) returns (r: Option<Bytes>)
      modifies this
      ensures n <= |old(pending)| ==> r == Some(old(pending)[..n]) && pending == old(pending)[n..]
      ensures n > |old(pending)| ==> r.None? && pending == []
    {
      if |pending| < n {
        pending := [];
        return None;
      }
      r := Some(pending[..n]);
      pending := pending[n..];
    }

    /** `UdpTraffic::write_slice`; `write` is the same with a packet in hand. */
    method WriteSlice(from: SocketAddr, data: Bytes)
      modifies this
      ensures pending == old(pending) + Frame(UdpTraffic(from, data))
    {
      var v := EncodeHeader(from, |data| % U16_SPAN);
      WriteAll([|v|]);
      WriteAll(v);
      WriteAll(data);
      assert pending == old(pending) + ([|v|] + v + data);
    }

    /** `UdpTraffic::read`. */
    method ReadTraffic(hdrLen: Byte) returns (r: Option<UdpTraffic>)
      modifies this
      ensures match ParseBody(old(pending), hdrLen)
              case None => r.None?
              case Some((t, rest)) => r == Some(t) && pending == rest
    {
      var buf := ReadExact(hdrLen);
      if buf.None? {
        return None;
      }
      var hdr := DecodeHeader(buf.value);
      if hdr.None? {
        return None;
      }
      var data := ReadExact(hdr.value.1);
      if data.None? {
        return None;
      }
      ghost var b, end := old(pending), hdrLen + hdr.value.1;
      assert b[hdrLen..][..hdr.value.1] == b[hdrLen..end] && b[hdrLen..][hdr.value.1..] == b[end..];
      r := Some(UdpTraffic(hdr.value.0, data.value));
    }

    /** The reading side of both relay loops, until the stream is used up or turns out bad. */
    method ReadAllTraffic() returns (r: Option<seq<UdpTraffic>>)
      modifies this
      ensures r == ParseAll(old(pending))
      ensures r.Some? ==> pending == []
    {
      var got := [];
      assert forall ts: seq<UdpTraffic> :: got + ts == ts;
      while pending != []
        invariant ParseAll(old(pending)) == match ParseAll(pending) case None => None case Some(ts) => Some(got + ts)
        decreases |pending|
      {
        ghost var before := pending;
        var hdrLen := ReadExact(1);
        var t := ReadTraffic(hdrLen.value[0]);
        if t.None? {
          return None;
        }
        assert ParseFrame(before) == Some((t.value, pending));
        assert forall ts: seq<UdpTraffic> :: got + ([t.value] + ts) == got + [t.value] + ts;
        got := got + [t.value];
      }
      assert got + [] == got;
      r := Some(got);
    }
  }

  /** What a receive buffer keeps of a datagram. */
  function Cut(data: Bytes): Bytes {
    if |data| <= UDP_BUFFER_SIZE then data else data[..UDP_BUFFER_SIZE]
  }

  /** The first 2048 bytes of it, which is all of it if it is no longer. */
  lemma CutExactly(data: Bytes)
    ensures Cut(data) <= data && |Cut(data)| == if |data| <= 2048 then |data| else 2048
  {
  }

  /** A datagram as it is received into the fixed buffer: the excess is discarded. */
  function Received(d: (SocketAddr, Bytes)): UdpTraffic {
    UdpTraffic(d.0, Cut(d.1))
  }

  function AllReceived(ds: seq<(SocketAddr, Bytes)>): (ts: seq<UdpTraffic>)
    ensures |ts| == |ds| && forall i :: 0 <= i < |ds| ==> ts[i] == Received(ds[i])
  {
    seq(|ds|, i requires 0 <= i < |ds| => Received(ds[i]))
  }

  lemma {:induction false} FramesAppend(ts: seq<UdpTraffic>, t: UdpTraffic)
    ensures Frames(ts + [t]) == Frames(ts) + Frame(t)
  {
    if ts == [] {
      assert [t][1..] == [];
    } else {
      assert (ts + [t])[1..] == ts[1..] + [t];
      FramesAppend(ts[1..], t);
    }
  }

  lemma FramesOneMore(ts: seq<UdpTraffic>, n: nat, before: Bytes)
    requires n < |ts|
    ensures before + Frames(ts[..n]) + Frame(ts[n]) == before + Frames(ts[..n + 1])
  {
    FramesAppend(ts[..n], ts[n]);
    assert ts[..n + 1] == ts[..n] + [ts[n]];
  }

  /** The inbound half of `run_udp_connection_pool`. */
  method ForwardInbound(conn: Stream, datagrams: seq<(SocketAddr, Bytes)>)
    modifies conn
    ensures conn.pending == old(conn.pending) + Frames(AllReceived(datagrams))
  {
    ghost var ts := AllReceived(datagrams);
    assert ts[..0] == [];
    for n := 0 to |datagrams|
      invariant conn.pending == old(conn.pending) + Frames(ts[..n])
    {
      var (from, data) := datagrams[n];
      var len := if |data| <= UDP_BUFFER_SIZE then |data| else UDP_BUFFER_SIZE;
      assert ts[n] == UdpTraffic(from, data[..len]);
      FramesOneMore(ts, n, old(conn.pending));
      conn.WriteSlice(from, data[..len]);
    }
    assert ts[..|datagrams|] == ts;
  }

  /** From the visitors' socket to the client: whatever datagrams come in, the client
      reads exactly them, each with its sender and cut only by the receive buffer, and
      the stream is left empty. */
  method Relay(datagrams: seq<(SocketAddr, Bytes)>) returns (got: Option<seq<UdpTraffic>>)
    ensures got == Some(AllReceived(datagrams)) && |got.value| == |datagrams|
    ensures forall i :: 0 <= i < |datagrams| ==>
      && got.value[i].from == datagrams[i].0 && got.value[i].data <= datagrams[i].1
      && |got.value[i].data| == if |datagrams[i].1| <= 2048 then |datagrams[i].1| else 2048
  {
    var conn := new Stream();
    ForwardInbound(conn, datagrams);
    var ts := AllReceived(datagrams);
    assert conn.pending == Frames(ts);
    FramesRoundTripExactly(ts);
    got := conn.ReadAllTraffic();
  }
}
