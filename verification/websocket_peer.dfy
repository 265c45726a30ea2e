/**
 The WebSocket test peer of `tests/ws_protocol_faults.py`: a frame printer and reader
 (sections 5.2 to 5.4 of RFC 6455) and the re-segmentation of masked binary frames
 into MQTT packets.
 */
module WebSocketPeer {
  import opened Optional
  import opened MqttFraming

  const MOST := 65536

  datatype Failure = PeerClosed | Unmasked | Unbounded | NonBinary

  datatype Result<T> = Ok(value: T) | Err(failure: Failure)

  // ---------- masking ----------

  /** Bitwise exclusive or of two numbers below `2^bits`. */
  function Xor(a: nat, b: nat, bits: nat): nat
    decreases bits
  {
    if bits == 0 then 0 else (if a % 2 != b % 2 then 1 else 0) + 2 * Xor(a / 2, b / 2, bits - 1)
  }

  function TwoTo(k: nat): nat { if k == 0 then 1 else 2 * TwoTo(k - 1) }

  lemma {:induction false} XorTwice(a: nat, b: nat, bits: nat)
    requires a < TwoTo(bits)
    ensures Xor(a, b, bits) < TwoTo(bits) && Xor(Xor(a, b, bits), b, bits) == a
    decreases bits
  {
    if bits > 0 {
      XorTwice(a / 2, b / 2, bits - 1);
      var x := Xor(a, b, bits);
      assert x / 2 == Xor(a / 2, b / 2, bits - 1);
    }
  }

  lemma ByteBits()
    ensures TwoTo(8) == 256
  {
    assert TwoTo(4) == 16;
  }

  function XorByte(a: Byte, m: Byte): Byte {
    ByteBits();
    XorTwice(a, m, 8);
    Xor(a, m, 8)
  }

  function Mask(data: seq<Byte>, mask: seq<Byte>): (s: seq<Byte>)
    requires |mask| == 4
    ensures |s| == |data|
  {
    seq(|data|, i requires 0 <= i < |data| => XorByte(data[i], mask[i % 4]))
  }

  /** The same mask takes itself off again. */
  lemma MaskTwice(data: seq<Byte>, mask: seq<Byte>)
    requires |mask| == 4
    ensures Mask(Mask(data, mask), mask) == data
  {
    forall i | 0 <= i < |data| ensures Mask(Mask(data, mask), mask)[i] == data[i] {
      ByteBits();
      XorTwice(data[i], mask[i % 4], 8);
    }
  }

  // ---------- lengths ----------

  function Power256(k: nat): nat { if k == 0 then 1 else 256 * Power256(k - 1) }

  /** `struct.pack('!H', n)` and `'!Q'`: big-endian in `width` bytes. */
  function Pack(n: nat, width: nat): (s: seq<Byte>)
    ensures |s| == width
  {
    if width == 0 then [] else Pack(n / 256, width - 1) + [n % 256]
  }

  function Unpack(s: seq<Byte>): nat { if s == [] then 0 else Unpack(s[..|s| - 1]) * 256 + s[|s| - 1] }

  lemma {:induction false} UnpackPack(n: nat, width: nat)
    requires n < Power256(width)
    ensures Unpack(Pack(n, width)) == n
    decreases width
  {
    if width > 0 {
      UnpackPack(n / 256, width - 1);
      assert Pack(n, width)[..width - 1] == Pack(n / 256, width - 1);
    }
  }

  // ---------- frames ----------

  /** A masking key; a client picks one for each frame (section 5.3 of RFC 6455). */
  type Key = k: seq<Byte> | |k| == 4 witness [0, 0, 0, 0]

  const MASK: Key := [97, 98, 99, 100]   // b'abcd'

  /** The head of a frame: FIN and opcode, mask bit and the shortest length form. */
  function Head(length: nat, opcode: nat, fin: bool, masked: bool): seq<Byte>
    requires opcode < 16
  {
    var flag := if masked then 128 else 0;
    [(if fin then 128 else 0) + opcode]
    + if length < 126 then [flag + length]
      else if length < 65536 then [flag + 126] + Pack(length, 2)
      else [flag + 127] + Pack(length, 8)
  }

  function MaskedFrame(data: seq<Byte>, opcode: nat, fin: bool, key: Key): seq<Byte>
    requires opcode < 16
  {
    Head(|data|, opcode, fin, true) + key + Mask(data, key)
  }

  /** `frame`, which masks with one key of its own. */
  function Frame(data: seq<Byte>, opcode: nat, fin: bool, masked: bool): seq<Byte>
    requires opcode < 16
  {
    if masked then MaskedFrame(data, opcode, fin, MASK) else Head(|data|, opcode, fin, false) + data
  }

  datatype Parsed = Parsed(opcode: nat, data: seq<Byte>, rest: seq<Byte>)

  function Cut(s: seq<Byte>, n: nat): Result<(seq<Byte>, seq<Byte>)> {
    if |s| < n then Err(PeerClosed) else Ok((s[..n], s[n..]))
  }

  /** The extended length, if the 7-bit one says there is one. */
  function ReadSize(short: nat, s: seq<Byte>): Result<(nat, seq<Byte>)> {
    if short != 126 && short != 127 then Ok((short, s))
    else
      match Cut(s, if short == 126 then 2 else 8)
      case Err(e) => Err(e)
      case Ok(cut) => Ok((Unpack(cut.0), cut.1))
  }

  /** What `read_frame` does with everything the connection will ever deliver. */
  function ParseFrame(s: seq<Byte>): (r: Result<Parsed>)
    ensures r.Ok? ==> |r.value.rest| < |s|
  {
    match Cut(s, 2)
    case Err(e) => Err(e)
    case Ok(head) =>
      if head.0[1] < 128 then Err(Unmasked)
      else
        match ReadSize(head.0[1] % 128, head.1)
        case Err(e) => Err(e)
        case Ok(size) => ReadBody(head.0[0] % 16, size.0, size.1)
  }

  /** The mask and the masked payload. */
  function ReadBody(opcode: nat, size: nat, s: seq<Byte>): (r: Result<Parsed>)
    ensures r.Ok? ==> |r.value.rest| < |s|
  {
    if size > MOST then Err(Unbounded)
    else
      match Cut(s, 4)
      case Err(e) => Err(e)
      case Ok(mask) =>
        match Cut(mask.1, size)
        case Err(e) => Err(e)
        case Ok(body) => Ok(Parsed(opcode, Mask(body.0, mask.0), body.1))
  }

  lemma BodyParses(opcode: nat, data: seq<Byte>, key: Key, rest: seq<Byte>)
    ensures ReadBody(opcode, |data|, key + Mask(data, key) + rest)
         == if |data| <= MOST then Ok(Parsed(opcode, data, rest)) else Err(Unbounded)
  {
    var s := key + Mask(data, key) + rest;
    MaskTwice(data, key);
    assert s[..4] == key && s[4..] == Mask(data, key) + rest;
    assert s[4..][..|data|] == Mask(data, key) && s[4..][|data|..] == rest;
  }

  lemma Powers()
    ensures Power256(2) == 65536 && Power256(8) == 0x1_0000_0000_0000_0000
  {
    assert Power256(4) == 0x1_0000_0000;
    assert Power256(6) == 0x1_0000_0000_0000;
  }

  lemma {:induction false} Extended(width: nat, length: nat, tail: seq<Byte>)
    requires length < Power256(width) && (width == 2 || width == 8)
    ensures ReadSize(if width == 2 then 126 else 127, Pack(length, width) + tail) == Ok((length, tail))
  {
    UnpackPack(length, width);
    var s := Pack(length, width) + tail;
    assert s[..width] == Pack(length, width) && s[width..] == tail;
  }

  lemma AfterTwo(a: Byte, b: Byte, more: seq<Byte>, tail: seq<Byte>)
    ensures var s := [a] + ([b] + more) + tail; |s| >= 2 && s[0] == a && s[1] == b && s[2..] == more + tail
  {
  }

  lemma HeadParses(length: nat, opcode: nat, fin: bool, tail: seq<Byte>)
    requires opcode < 16 && length < 0x1_0000_0000_0000_0000
    ensures var s := Head(length, opcode, fin, true) + tail;
            && |s| >= 2 && s[1] >= 128 && s[0] % 16 == opcode
            && ReadSize(s[1] % 128, s[2..]) == Ok((length, tail))
  {
    Powers();
    var first: Byte := (if fin then 128 else 0) + opcode;
    if length < 126 {
      AfterTwo(first, 128 + length, [], tail);
      assert [128 + length] + [] == [128 + length] && [] + tail == tail;
    } else if length < 65536 {
      AfterTwo(first, 254, Pack(length, 2), tail);
      Extended(2, length, tail);
    } else {
      AfterTwo(first, 255, Pack(length, 8), tail);
      Extended(8, length, tail);
    }
  }

  /**
   `read_frame` inverts masked `frame` over all three length forms up to 65536 bytes and
   for every masking key, leaves what follows untouched, and refuses anything longer.
   */
  lemma FrameRoundTrip(data: seq<Byte>, opcode: nat, fin: bool, key: Key, rest: seq<Byte>)
    requires opcode < 16 && |data| < 0x1_0000_0000_0000_0000
    ensures ParseFrame(MaskedFrame(data, opcode, fin, key) + rest)
         == if |data| <= MOST then Ok(Parsed(opcode, data, rest)) else Err(Unbounded)
    ensures key == MASK ==> MaskedFrame(data, opcode, fin, key) == Frame(data, opcode, fin, true)
  {
    var tail := key + Mask(data, key) + rest;
    assert MaskedFrame(data, opcode, fin, key) + rest == Head(|data|, opcode, fin, true) + tail;
    HeadParses(|data|, opcode, fin, tail);
    BodyParses(opcode, data, key, rest);
  }

  /** An unmasked frame is refused, whatever it carries. */
  lemma UnmaskedRefused(data: seq<Byte>, opcode: nat, fin: bool, rest: seq<Byte>)
    requires opcode < 16 && |data| < 0x1_0000_0000_0000_0000
    ensures ParseFrame(Frame(data, opcode, fin, false) + rest) == Err(Unmasked)
  {
    var s := Frame(data, opcode, fin, false) + rest;
    assert |s| >= 2 && s[1] < 128;
  }

  // ---------- the peer ----------

  /** A connected socket: the bytes not yet received, delivered in pieces of any size. */
  class Connection {
    var incoming: seq<Byte>

    constructor (incoming: seq<Byte>)
      ensures this.incoming == incoming
    {
      this.incoming := incoming;
    }

    method Recv(most: nat) returns (chunk: seq<Byte>)
      requires most > 0
      modifies this
      ensures chunk + incoming == old(incoming) && |chunk| <= most
      ensures old(incoming) != [] ==> chunk != []
    {
      if incoming == [] { return []; }
      assert 1 <= 1 <= most && 1 <= |incoming|;
      var k: nat :| 1 <= k <= most && k <= |incoming|;
      chunk, incoming := incoming[..k], incoming[k..];
    }
  }

  /** `exact`: exactly `n` bytes, however they arrive, or the peer has closed. */
  method Exact(conn: Connection, n: nat) returns (r: Result<seq<Byte>>)
    modifies conn
    ensures match Cut(old(conn.incoming), n)
            case Ok(cut) => r == Ok(cut.0) && conn.incoming == cut.1
            case Err(e) => r == Err(e)
  {
    var data: seq<Byte> := [];
    while |data| < n
      invariant |data| <= n && data + conn.incoming == old(conn.incoming)
      decreases n - |data|
    {
      var chunk := conn.Recv(n - |data|);
      if chunk == [] { return Err(PeerClosed); }
      data := data + chunk;
    }
    r := Ok(data);
  }

  datatype Taken = Taken(packet: seq<Byte>, mqtt: seq<Byte>, pongs: seq<seq<Byte>>, incoming: seq<Byte>)

  /** One call of `packet`: cut a whole packet off the buffer, or read another frame and look again. */
  function Next(mqtt: seq<Byte>, pongs: seq<seq<Byte>>, incoming: seq<Byte>): Result<Taken>
    decreases |incoming|
  {
    var n := Whole(mqtt);
    if n >= 0 then Ok(Taken(mqtt[..n], mqtt[n..], pongs, incoming))
    else
      match ParseFrame(incoming)
      case Err(e) => Err(e)
      case Ok(p) =>
        if p.opcode == 10 then Next(mqtt, pongs + [p.data], p.rest)
        else if p.opcode == 0 || p.opcode == 2 then Next(mqtt + p.data, pongs, p.rest)
        else Err(NonBinary)
  }

  /** What the decoded header says about the first packet of the buffer. */
  lemma WholeIs(mqtt: seq<Byte>, last: bool, size: nat, index: nat)
    requires last ==> ReadHeader(mqtt) == Header(index, size)
    requires !last ==> !ReadHeader(mqtt).Header?
    ensures Whole(mqtt) == if last && |mqtt| >= index + size then index + size else -1
  {
  }

  class Peer {
    const conn: Connection
    var mqtt: seq<Byte>
    var pongs: seq<seq<Byte>>

    constructor (conn: Connection)
      ensures this.conn == conn && mqtt == [] && pongs == []
    {
      this.conn, mqtt, pongs := conn, [], [];
    }

    /** `read_frame`. */
    method ReadFrame() returns (r: Result<(nat, seq<Byte>)>)
      modifies conn
      ensures match ParseFrame(old(conn.incoming))
              case Ok(p) => r == Ok((p.opcode, p.data)) && conn.incoming == p.rest
              case Err(e) => r == Err(e)
    {
      var head := Exact(conn, 2);
      if head.Err? { return Err(head.failure); }
      if head.value[1] < 128 { return Err(Unmasked); }
      var size: nat := head.value[1] % 128;
      if size == 126 || size == 127 {
        var extended := Exact(conn, if size == 126 then 2 else 8);
        if extended.Err? { return Err(extended.failure); }
        size := Unpack(extended.value);
      }
      if size > MOST { return Err(Unbounded); }
      var mask := Exact(conn, 4);
      if mask.Err? { return Err(mask.failure); }
      var data := Exact(conn, size);
      if data.Err? { return Err(data.failure); }
      r := Ok((head.value[0] % 16, Mask(data.value, mask.value)));
    }

    /** `packet`. */
    method Packet() returns (r: Result<seq<Byte>>)
      requires this as object != conn
      modifies this, conn
      ensures match Next(old(mqtt), old(pongs), old(conn.incoming))
              case Ok(t) => r == Ok(t.packet) && mqtt == t.mqtt && pongs == t.pongs && conn.incoming == t.incoming
              case Err(e) => r == Err(e)
    {
      while true
        invariant Next(mqtt, pongs, conn.incoming) == Next(old(mqtt), old(pongs), old(conn.incoming))
        decreases |conn.incoming|
      {
        if |mqtt| >= 2 {
          var last, size, index := DecodeHeader(mqtt);
          WholeIs(mqtt, last, size, index);
          if last && |mqtt| >= index + size {
            r := Ok(mqtt[..index + size]);
            mqtt := mqtt[index + size..];
            return;
          }
        }
        assert Whole(mqtt) < 0;
        var frame := ReadFrame();
        if frame.Err? { return Err(frame.failure); }
        var (opcode, data) := frame.value;
        if opcode == 10 {
          pongs := pongs + [data];
        } else {
          if opcode != 0 && opcode != 2 { return Err(NonBinary); }
          mqtt := mqtt + data;
        }
      }
    }
  }

  // ---------- reassembly ----------

  /** A client frame, under a key of its own. */
  datatype Sent =
    | Data(chunk: seq<Byte>, continued: bool, fin: bool, key: Key)
    | Pong(payload: seq<Byte>, final: bool, key: Key)

  predicate Fits(f: Sent) { if f.Data? then |f.chunk| <= MOST else |f.payload| <= MOST }

  function BytesOf(f: Sent): seq<Byte> {
    match f
    case Data(chunk, continued, fin, key) => MaskedFrame(chunk, if continued then 0 else 2, fin, key)
    case Pong(payload, final, key) => MaskedFrame(payload, 10, final, key)
  }

  /** What the client puts on the wire. */
  function OnWire(frames: seq<Sent>): seq<Byte> {
    if frames == [] then [] else BytesOf(frames[0]) + OnWire(frames[1..])
  }

  function Payload(frames: seq<Sent>): seq<Byte> {
    if frames == [] then [] else DataOf(frames[0]) + Payload(frames[1..])
  }

  function Pongs(frames: seq<Sent>): seq<seq<Byte>> {
    if frames == [] then [] else PongOf(frames[0]) + Pongs(frames[1..])
  }

  function Stream(packets: seq<Packet>): seq<Byte> {
    if packets == [] then [] else Encode(packets[0]) + Stream(packets[1..])
  }

  function DataOf(f: Sent): seq<Byte> { if f.Data? then f.chunk else [] }

  function PongOf(f: Sent): seq<seq<Byte>> { if f.Pong? then [f.payload] else [] }

  /** While no whole packet is buffered, a call consumes one more frame. */
  lemma {:induction false} OneFrame(mqtt: seq<Byte>, pongs: seq<seq<Byte>>, f: Sent, tail: seq<Byte>)
    requires Whole(mqtt) < 0 && Fits(f)
    ensures Next(mqtt, pongs, BytesOf(f) + tail) == Next(mqtt + DataOf(f), pongs + PongOf(f), tail)
  {
    if f.Data? {
      FrameRoundTrip(f.chunk, if f.continued then 0 else 2, f.fin, f.key, tail);
      assert pongs + PongOf(f) == pongs;
    } else {
      FrameRoundTrip(f.payload, 10, f.final, f.key, tail);
      assert mqtt + DataOf(f) == mqtt;
    }
  }

  /** Either the first packet has arrived whole, and can be cut off, or more payload is to come. */
  lemma Arrival(mqtt: seq<Byte>, payload: seq<Byte>, p: Packet, more: seq<Byte>)
    requires Encodable(p) && mqtt + payload == Encode(p) + more
    ensures |mqtt| >= |Encode(p)| ==>
      Whole(mqtt) == |Encode(p)| && mqtt[..|Encode(p)|] == Encode(p) && mqtt[|Encode(p)|..] + payload == more
    ensures |mqtt| < |Encode(p)| ==> Whole(mqtt) < 0 && payload != []
  {
    var all, size := Encode(p) + more, |Encode(p)|;
    assert mqtt == all[..|mqtt|];
    WholeEncoded(p, more, |mqtt|);
    if |mqtt| >= size {
      assert mqtt[..size] == all[..size] == Encode(p);
      assert mqtt[size..] + payload == (mqtt + payload)[size..] == more;
    } else {
      assert |payload| > 0;
    }
  }

  lemma Regroup<T>(a: seq<T>, b: seq<T>, c: seq<T>)
    ensures a + (b + c) == (a + b) + c
  {
  }

  lemma {:induction false} Unroll(mqtt: seq<Byte>, pongs: seq<seq<Byte>>, frames: seq<Sent>)
    requires frames != []
    ensures OnWire(frames) == BytesOf(frames[0]) + OnWire(frames[1..])
    ensures mqtt + Payload(frames) == (mqtt + DataOf(frames[0])) + Payload(frames[1..])
    ensures pongs + Pongs(frames) == (pongs + PongOf(frames[0])) + Pongs(frames[1..])
  {
    var f, rest := frames[0], frames[1..];
    Regroup(mqtt, DataOf(f), Payload(rest));
    Regroup(pongs, PongOf(f), Pongs(rest));
  }

  /** One call finds the packet at the front of the stream, wherever the frames cut it. */
  lemma {:induction false} NextPacket(mqtt: seq<Byte>, pongs: seq<seq<Byte>>, frames: seq<Sent>, p: Packet,
      more: seq<Byte>)
    returns (left: seq<Sent>, buffer: seq<Byte>, heard: seq<seq<Byte>>)
    requires Encodable(p) && mqtt + Payload(frames) == Encode(p) + more
    requires forall i :: 0 <= i < |frames| ==> Fits(frames[i])
    ensures Next(mqtt, pongs, OnWire(frames)) == Ok(Taken(Encode(p), buffer, heard, OnWire(left)))
    ensures buffer + Payload(left) == more && heard + Pongs(left) == pongs + Pongs(frames)
    ensures forall i :: 0 <= i < |left| ==> Fits(left[i])
    decreases |frames|
  {
    Arrival(mqtt, Payload(frames), p, more);
    if |mqtt| >= |Encode(p)| {
      left, buffer, heard := frames, mqtt[|Encode(p)|..], pongs;
    } else {
      var f, rest := frames[0], frames[1..];
      Unroll(mqtt, pongs, frames);
      OneFrame(mqtt, pongs, f, OnWire(rest));
      left, buffer, heard := NextPacket(mqtt + DataOf(f), pongs + PongOf(f), rest, p, more);
    }
  }

  datatype Calls = Calls(packets: seq<seq<Byte>>, end: Result<Taken>)

  /** The results of up to `n` successive calls of `packet`, and the state after the last. */
  function CallAll(t: Taken, n: nat): Calls
    decreases n
  {
    if n == 0 then Calls([], Ok(t))
    else
      match Next(t.mqtt, t.pongs, t.incoming)
      case Err(e) => Calls([], Err(e))
      case Ok(u) =>
        var later := CallAll(u, n - 1);
        Calls([u.packet] + later.packets, later.end)
  }

  /** What is buffered and on its way is this stream of packets, in frames within the peer's bound. */
  predicate Carries(t: Taken, frames: seq<Sent>, packets: seq<Packet>) {
    && t.incoming == OnWire(frames) && t.mqtt + Payload(frames) == Stream(packets)
    && (forall i :: 0 <= i < |packets| ==> Encodable(packets[i]))
    && (forall i :: 0 <= i < |frames| ==> Fits(frames[i]))
  }

  /**
   Stream reassembly: however a sequence of MQTT packets is cut into frames, each masked
   with a key of its own, with pongs anywhere in between, successive calls return exactly those packets, in order,
   and no pong is lost: each is recorded or still to come.
   */
  lemma {:induction false} Reassembly(t: Taken, frames: seq<Sent>, packets: seq<Packet>) returns (left: seq<Sent>)
    requires Carries(t, frames, packets)
    ensures var calls := CallAll(t, |packets|);
            calls.packets == Encoded(packets) && calls.end.Ok? && AtEnd(calls.end.value, left, t.pongs + Pongs(frames))
    decreases |packets|
  {
    if packets == [] {
      NoneLeft(t, frames);
      left := frames;
    } else {
      var rest, u := TakeFirst(t, frames, packets);
      left := Reassembly(u, rest, packets[1..]);
      OneMore(t, u, packets);
    }
  }

  lemma NoneLeft(t: Taken, frames: seq<Sent>)
    requires t.incoming == OnWire(frames) && t.mqtt + Payload(frames) == []
    ensures CallAll(t, 0) == Calls([], Ok(t)) && AtEnd(t, frames, t.pongs + Pongs(frames))
  {
    Exhausted(t.mqtt, Payload(frames));
  }

  /** The packets of the later calls stand behind the one of the first. */
  lemma OneMore(t: Taken, u: Taken, packets: seq<Packet>)
    requires Next(t.mqtt, t.pongs, t.incoming) == Ok(u) && packets != [] && u.packet == Encode(packets[0])
    requires CallAll(u, |packets| - 1).packets == Encoded(packets[1..])
    ensures CallAll(t, |packets|).packets == Encoded(packets)
    ensures CallAll(t, |packets|).end == CallAll(u, |packets| - 1).end
  {
  }

  lemma FirstOf(packets: seq<Packet>)
    requires packets != [] && forall i :: 0 <= i < |packets| ==> Encodable(packets[i])
    ensures var others := packets[1..];
            && Stream(packets) == Encode(packets[0]) + Stream(others)
            && Encoded(packets) == [Encode(packets[0])] + Encoded(others)
            && forall i :: 0 <= i < |others| ==> Encodable(others[i])
  {
  }

  lemma TakeFirst(t: Taken, frames: seq<Sent>, packets: seq<Packet>) returns (rest: seq<Sent>, u: Taken)
    requires Carries(t, frames, packets) && packets != []
    ensures Next(t.mqtt, t.pongs, t.incoming) == Ok(u) && u.packet == Encode(packets[0])
    ensures Carries(u, rest, packets[1..]) && u.pongs + Pongs(rest) == t.pongs + Pongs(frames)
  {
    FirstOf(packets);
    rest, u := TakeOne(t, frames, packets[0], Stream(packets[1..]));
  }

  lemma TakeOne(t: Taken, frames: seq<Sent>, first: Packet, more: seq<Byte>) returns (rest: seq<Sent>, u: Taken)
    requires t.incoming == OnWire(frames) && t.mqtt + Payload(frames) == Encode(first) + more
    requires Encodable(first) && forall i :: 0 <= i < |frames| ==> Fits(frames[i])
    ensures Next(t.mqtt, t.pongs, t.incoming) == Ok(u) && u.packet == Encode(first) && u.incoming == OnWire(rest)
    ensures u.mqtt + Payload(rest) == more && u.pongs + Pongs(rest) == t.pongs + Pongs(frames)
    ensures forall i :: 0 <= i < |rest| ==> Fits(rest[i])
  {
    var buffer, heard;
    rest, buffer, heard := NextPacket(t.mqtt, t.pongs, frames, first, more);
    u := Taken(Encode(first), buffer, heard, OnWire(rest));
  }

  lemma Exhausted(a: seq<Byte>, b: seq<Byte>)
    requires a + b == []
    ensures a == [] && b == []
  {
    assert |a + b| == |a| + |b|;
  }

  function Encoded(packets: seq<Packet>): seq<seq<Byte>> {
    if packets == [] then [] else [Encode(packets[0])] + Encoded(packets[1..])
  }

  /** Nothing of the stream is left, and every pong has been recorded or is still to come. */
  predicate AtEnd(t: Taken, left: seq<Sent>, pongs: seq<seq<Byte>>) {
    t.mqtt == [] && t.incoming == OnWire(left) && Payload(left) == [] && t.pongs + Pongs(left) == pongs
  }
}
