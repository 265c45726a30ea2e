/**
 The MQTT fixed header (section 2.2 of MQTT 3.1.1): one type byte, then a remaining
 length of one to four base-128 digits, least significant first. On a byte, `& 127`
 is the remainder by 128, `& 128` asks whether it is at least 128.
 */
module MqttFraming {
  type Byte = x: int | 0 <= x < 256

  datatype Header = Wait | Malformed | Header(offset: nat, remaining: nat)

  /** The digit loop, from `offset` on. */
  function Digits(buffer: seq<Byte>, offset: nat, remaining: nat, multiplier: nat): Header
    requires 1 <= offset <= 5
    decreases 5 - offset
  {
    if offset == 5 then Malformed
    else if offset >= |buffer| then Wait
    else
      var more := remaining + buffer[offset] % 128 * multiplier;
      if buffer[offset] < 128 then Header(offset + 1, more) else Digits(buffer, offset + 1, more, multiplier * 128)
  }

  function ReadHeader(buffer: seq<Byte>): Header { Digits(buffer, 1, 0, 1) }

  /** A header that is decided stays decided, whatever follows. */
  lemma {:induction false} DigitsStable(buffer: seq<Byte>, more: seq<Byte>, offset: nat, remaining: nat,
      multiplier: nat)
    requires 1 <= offset <= 5 && buffer <= more
    ensures Digits(buffer, offset, remaining, multiplier) != Wait ==>
              Digits(more, offset, remaining, multiplier) == Digits(buffer, offset, remaining, multiplier)
    ensures Digits(buffer, offset, remaining, multiplier).Header? ==>
              offset < Digits(buffer, offset, remaining, multiplier).offset <= |buffer|
    decreases 5 - offset
  {
    if offset < 5 && offset < |buffer| {
      DigitsStable(buffer, more, offset + 1, remaining + buffer[offset] % 128 * multiplier, multiplier * 128);
    }
  }

  /** The length of the first whole packet of a buffer, once it is there. */
  function Whole(buffer: seq<Byte>): (n: int)
    ensures n == -1 || 2 <= n <= |buffer|
  {
    DigitsStable(buffer, buffer, 1, 0, 1);
    var h := ReadHeader(buffer);
    if h.Header? && h.offset + h.remaining <= |buffer| then h.offset + h.remaining else -1
  }

  /** The decoding loop; it ends at the last digit, after four digits, or at the end of the buffer. */
  method DecodeHeader(buffer: seq<Byte>) returns (last: bool, remaining: nat, offset: nat)
    requires |buffer| >= 1
    ensures last ==> ReadHeader(buffer) == Header(offset, remaining)
    ensures !last ==> ReadHeader(buffer) == if offset > 4 then Malformed else Wait
  {
    var multiplier: nat := 1;
    last, remaining, offset := false, 0, 1;
    while offset < |buffer| && offset <= 4
      invariant 1 <= offset <= 5 && offset <= |buffer|
      invariant !last && ReadHeader(buffer) == Digits(buffer, offset, remaining, multiplier)
      decreases 5 - offset
    {
      var digit := buffer[offset];
      remaining := remaining + digit % 128 * multiplier;
      offset := offset + 1;
      if digit < 128 {
        return true, remaining, offset;
      }
      multiplier := multiplier * 128;
    }
  }

  // ---------- the printer ----------

  const LIMIT := 268435456

  /** The encoding of a remaining length. */
  function Varint(n: nat): (s: seq<Byte>)
    ensures |s| >= 1
  {
    if n < 128 then [n] else [n % 128 + 128] + Varint(n / 128)
  }

  function Power(k: nat): nat { if k == 0 then 1 else 128 * Power(k - 1) }

  lemma VarintDigits(n: nat, k: nat, before: seq<Byte>, rest: seq<Byte>, remaining: nat, multiplier: nat)
    requires 1 <= k <= 4 && n < Power(k) && |before| + k <= 5 && |before| >= 1
    ensures |Varint(n)| <= k
    ensures Digits(before + Varint(n) + rest, |before|, remaining, multiplier)
         == Header(|before| + |Varint(n)|, remaining + n * multiplier)
  {
    var all := before + Varint(n) + rest;
    assert all[|before|..|before| + |Varint(n)|] == Varint(n);
    VarintAt(n, k, all, |before|, remaining, multiplier);
  }

  /** The digits of an encoding, wherever they stand. */
  lemma {:induction false} VarintAt(n: nat, k: nat, all: seq<Byte>, offset: nat, remaining: nat, multiplier: nat)
    requires 1 <= k <= 4 && n < Power(k) && 1 <= offset <= 5 - k
    requires offset + |Varint(n)| <= |all| && all[offset..offset + |Varint(n)|] == Varint(n)
    ensures |Varint(n)| <= k
    ensures Digits(all, offset, remaining, multiplier) == Header(offset + |Varint(n)|, remaining + n * multiplier)
    decreases k
  {
    FirstDigit(n, all, offset);
    if n < 128 {
      OnlyDigit(all, offset, remaining, multiplier);
    } else {
      Quotient(n, k);
      VarintAt(n / 128, k - 1, all, offset + 1, remaining + n % 128 * multiplier, multiplier * 128);
      VarintMore(n, all, offset, remaining, multiplier, |Varint(n / 128)|);
    }
  }

  /** The digits after the first have been read. */
  lemma {:induction false} VarintMore(n: nat, all: seq<Byte>, offset: nat, remaining: nat, multiplier: nat, others: nat)
    requires n >= 128 && 1 <= offset <= 4 && offset < |all| && all[offset] == n % 128 + 128
    requires Digits(all, offset + 1, remaining + n % 128 * multiplier, multiplier * 128)
          == Header(offset + 1 + others, remaining + n % 128 * multiplier + n / 128 * (multiplier * 128))
    ensures Digits(all, offset, remaining, multiplier) == Header(offset + 1 + others, remaining + n * multiplier)
  {
    Distribute(n, remaining, multiplier);
    MoreDigits(all, offset, remaining, multiplier);
  }

  /** A digit without its top bit is the last. */
  lemma {:induction false} OnlyDigit(all: seq<Byte>, offset: nat, remaining: nat, multiplier: nat)
    requires 1 <= offset <= 4 && offset < |all| && all[offset] < 128
    ensures Digits(all, offset, remaining, multiplier) == Header(offset + 1, remaining + all[offset] * multiplier)
  {
  }

  lemma FirstDigit(n: nat, all: seq<Byte>, offset: nat)
    requires offset + |Varint(n)| <= |all| && all[offset..offset + |Varint(n)|] == Varint(n)
    ensures all[offset] == if n < 128 then n else n % 128 + 128
    ensures n >= 128 ==> |Varint(n)| == 1 + |Varint(n / 128)|
    ensures n >= 128 ==> all[offset + 1..offset + 1 + |Varint(n / 128)|] == Varint(n / 128)
  {
    var s := all[offset..offset + |Varint(n)|];
    assert s[0] == all[offset];
    if n >= 128 {
      assert s[1..] == Varint(n / 128);
      assert s[1..] == all[offset + 1..offset + |s|];
    }
  }

  lemma {:induction false} Quotient(n: nat, k: nat)
    requires k >= 1 && 128 <= n < Power(k)
    ensures n / 128 < Power(k - 1) && k >= 2
  {
  }

  /** A digit with its top bit set is one of several. */
  lemma {:induction false} MoreDigits(all: seq<Byte>, offset: nat, remaining: nat, multiplier: nat)
    requires 1 <= offset <= 4 && offset < |all| && all[offset] >= 128
    ensures Digits(all, offset, remaining, multiplier)
         == Digits(all, offset + 1, remaining + all[offset] % 128 * multiplier, multiplier * 128)
  {
  }

  lemma Distribute(n: nat, r: nat, m: nat)
    ensures r + n * m == (r + n % 128 * m) + n / 128 * (m * 128)
  {
    var a, b := n % 128, n / 128;
    assert n == a + b * 128;
    assert (b * 128) * m == b * (m * 128);
  }

  /** One packet: its type byte and flags, and its variable header and payload. */
  datatype Packet = Packet(kind: Byte, body: seq<Byte>)

  predicate Encodable(p: Packet) { |p.body| < LIMIT }

  function Encode(p: Packet): (s: seq<Byte>)
    ensures |s| >= 2
  {
    [p.kind] + Varint(|p.body|) + p.body
  }

  lemma EncodedHeader(p: Packet, rest: seq<Byte>)
    requires Encodable(p)
    ensures ReadHeader(Encode(p) + rest) == Header(1 + |Varint(|p.body|)|, |p.body|)
    ensures |Varint(|p.body|)| <= 4
  {
    assert Power(4) == LIMIT by { assert Power(1) == 128 && Power(2) == 16384 && Power(3) == 2097152; }
    VarintDigits(|p.body|, 4, [p.kind], p.body + rest, 0, 1);
    assert Encode(p) + rest == [p.kind] + Varint(|p.body|) + (p.body + rest);
  }

  /** Cutting finds a packet exactly when all of it has arrived, and then finds its end. */
  lemma WholeEncoded(p: Packet, rest: seq<Byte>, arrived: nat)
    requires Encodable(p) && arrived <= |Encode(p) + rest|
    ensures Whole((Encode(p) + rest)[..arrived]) == if arrived >= |Encode(p)| then |Encode(p)| else -1
  {
    var all := Encode(p) + rest;
    var some := all[..arrived];
    EncodedHeader(p, rest);
    DigitsStable(some, all, 1, 0, 1);
    if arrived >= |Encode(p)| {
      var tail := some[|Encode(p)|..];
      assert some == Encode(p) + tail;
      EncodedHeader(p, tail);
    }
  }
}

/**
 `FirstPacket` of `tests/closure/dial_evidence.py`: it keeps only the first MQTT frame
 of one direction of a connection, however the bytes are delivered.
 */
module FirstPackets {
  import opened MqttFraming

  const BOUND := 65536

  datatype Direction = FromClient | FromBroker

  datatype Event =
    | Connect(protocol: Byte, flags: Byte, packetBytes: nat)
    | Connack(sessionPresent: Byte, reason: Byte, wire: seq<Byte>)

  datatype Outcome = Pending | Refused | Logged(event: Event)

  /** What the first frame of a buffer says. */
  function Decide(direction: Direction, buffer: seq<Byte>): Outcome {
    var h := ReadHeader(buffer);
    if |buffer| < 2 || h.Wait? then Pending
    else if h.Malformed? then Refused
    else if |buffer| < h.offset + h.remaining then Pending
    else
      DigitsStable(buffer, buffer, 1, 0, 1);
      Read(direction, buffer[..h.offset + h.remaining], h.offset)
  }

  function Read(direction: Direction, packet: seq<Byte>, offset: nat): Outcome
    requires 2 <= offset <= |packet|
  {
    var body := packet[offset..];
    match direction
    case FromClient => if packet[0] == 0x10 && |body| >= 10 then Logged(Connect(body[6], body[7], |packet|))
        else Refused
    case FromBroker => if packet[0] == 0x20 && |body| >= 2 then Logged(Connack(body[0] % 2, body[1], packet))
        else Refused
  }

  /** A decision depends on the first frame only. */
  lemma Stable(direction: Direction, buffer: seq<Byte>, more: seq<Byte>)
    requires buffer <= more && Decide(direction, buffer) != Pending
    ensures Decide(direction, more) == Decide(direction, buffer)
  {
    DigitsStable(buffer, more, 1, 0, 1);
    var h := ReadHeader(buffer);
    if h.Header? {
      assert more[..h.offset + h.remaining] == buffer[..h.offset + h.remaining];
    }
  }

  class FirstPacket {
    const direction: Direction
    var buffer: seq<Byte>
    var done: bool
    var ledger: seq<Event>

    constructor (direction: Direction)
      ensures this.direction == direction && buffer == [] && !done && ledger == []
    {
      this.direction, buffer, done, ledger := direction, [], false, [];
    }

    /** One delivery of bytes. A refusal raises, and nothing more is fed. */
    method Feed(data: seq<Byte>) returns (refused: bool)
      modifies this
      ensures var step := Fed(direction, State(old(buffer), old(done), old(ledger), false), data);
              step == State(buffer, done, ledger, refused)
    {
      if done { return false; }
      buffer := buffer + data;
      if |buffer| > BOUND { return true; }
      if |buffer| < 2 { return false; }
      var last, remaining, offset := DecodeHeader(buffer);
      if !last { return offset > 4; }
      if |buffer| < offset + remaining { return false; }
      DigitsStable(buffer, buffer, 1, 0, 1);
      refused := Emit(buffer[..offset + remaining], offset);
    }

    /** The frame is whole: log it, or refuse it. */
    method Emit(packet: seq<Byte>, offset: nat) returns (refused: bool)
      requires 2 <= offset <= |packet| && !done
      modifies this
      ensures var what := Read(direction, packet, offset);
              if what.Logged? then State(buffer, done, ledger, refused) == State([], true, old(ledger) + [what.event],
                  false)
              else State(buffer, done, ledger, refused) == State(old(buffer), false, old(ledger), true)
    {
      var body := packet[offset..];
      match direction {
        case FromClient =>
          if packet[0] != 0x10 || |body| < 10 { return true; }
          ledger := ledger + [Connect(body[6], body[7], |packet|)];
        case FromBroker =>
          if packet[0] != 0x20 || |body| < 2 { return true; }
          ledger := ledger + [Connack(body[0] % 2, body[1], packet)];
      }
      buffer, done := [], true;
      refused := false;
    }
  }

  // ---------- a whole stream in pieces ----------

  datatype State = State(buffer: seq<Byte>, done: bool, ledger: seq<Event>, refused: bool)

  function Fed(direction: Direction, s: State, data: seq<Byte>): State {
    var buffer := s.buffer + data;
    if s.done || s.refused then s
    else if |buffer| > BOUND then s.(buffer := buffer, refused := true)
    else
      match Decide(direction, buffer)
      case Pending => s.(buffer := buffer)
      case Refused => s.(buffer := buffer, refused := true)
      case Logged(event) => State([], true, s.ledger + [event], false)
  }

  function FedAll(direction: Direction, s: State, chunks: seq<seq<Byte>>): State
    decreases |chunks|
  {
    if chunks == [] then s else FedAll(direction, Fed(direction, s, chunks[0]), chunks[1..])
  }

  function Joined(chunks: seq<seq<Byte>>): seq<Byte> { if chunks == [] then [] else chunks[0] + Joined(chunks[1..]) }

  function Start(): State { State([], false, [], false) }

  /** The observable result: the logged event, or a refusal, or nothing yet. */
  function Result(s: State): Outcome {
    if s.refused then Refused else if s.done && |s.ledger| == 1 then Logged(s.ledger[0]) else Pending
  }

  /** A finished recorder reads nothing more. */
  lemma {:induction false} Settled(direction: Direction, s: State, chunks: seq<seq<Byte>>)
    requires s.done || s.refused
    ensures FedAll(direction, s, chunks) == s
    decreases |chunks|
  {
    if chunks != [] {
      Settled(direction, s, chunks[1..]);
    }
  }

  lemma {:induction false} FromBuffer(direction: Direction, buffer: seq<Byte>, chunks: seq<seq<Byte>>)
    requires |buffer + Joined(chunks)| <= BOUND && Decide(direction, buffer) == Pending
    ensures Result(FedAll(direction, State(buffer, false, [], false), chunks)) == Decide(direction,
        buffer + Joined(chunks))
    ensures |FedAll(direction, State(buffer, false, [], false), chunks).ledger| <= 1
    decreases |chunks|
  {
    var s := State(buffer, false, [], false);
    if chunks == [] {
      assert buffer + Joined(chunks) == buffer;
    } else {
      var more := buffer + chunks[0];
      assert more + Joined(chunks[1..]) == buffer + Joined(chunks);
      var t := Fed(direction, s, chunks[0]);
      if Decide(direction, more) == Pending {
        FromBuffer(direction, more, chunks[1..]);
      } else {
        Settled(direction, t, chunks[1..]);
        Stable(direction, more, buffer + Joined(chunks));
      }
    }
  }

  /**
   Chunking invariance: a stream within the bound gives one and the same event, or the
   same refusal, however it is split; and it gives what its first frame alone says.
   */
  lemma {:induction false} ChunkingInvariance(direction: Direction, chunks: seq<seq<Byte>>)
    requires |Joined(chunks)| <= BOUND
    ensures Result(FedAll(direction, Start(), chunks)) == Decide(direction, Joined(chunks))
    ensures |FedAll(direction, Start(), chunks).ledger| <= 1
  {
    assert Decide(direction, []) == Pending;
    FromBuffer(direction, [], chunks);
    assert [] + Joined(chunks) == Joined(chunks);
  }

  lemma StillPending(direction: Direction, more: seq<Byte>, all: seq<Byte>, n: nat)
    requires more <= all && Whole(all) == n && |more| < n
    ensures Decide(direction, more) == Pending
  {
    DigitsStable(more, all, 1, 0, 1);
  }

  lemma JustDecided(direction: Direction, more: seq<Byte>, all: seq<Byte>, n: nat)
    requires more <= all && Whole(all) == n <= |more|
    ensures Decide(direction, more) == Decide(direction, all[..n]) != Pending
  {
    var first := all[..n];
    DigitsStable(first, all, 1, 0, 1);
    DigitsStable(all, all, 1, 0, 1);
    HeaderWithin(all, n);
    assert first <= more;
    Stable(direction, first, more);
  }

  lemma HeaderWithin(all: seq<Byte>, n: nat)
    requires Whole(all) == n
    ensures ReadHeader(all[..n]) == ReadHeader(all)
  {
    SameDigits(all[..n], all, 1, 0, 1);
  }

  /** The header of a whole packet lies inside it. */
  lemma {:induction false} SameDigits(first: seq<Byte>, all: seq<Byte>, offset: nat, remaining: nat, multiplier: nat)
    requires first <= all && 1 <= offset <= 5
    requires Digits(all, offset, remaining, multiplier).Header?
        && Digits(all, offset, remaining, multiplier).offset <= |first|
    ensures Digits(first, offset, remaining, multiplier) == Digits(all, offset, remaining, multiplier)
    decreases 5 - offset
  {
    DigitsStable(all, all, offset, remaining, multiplier);
    if all[offset] >= 128 {
      SameDigits(first, all, offset + 1, remaining + all[offset] % 128 * multiplier, multiplier * 128);
    }
  }

  /**
   Beyond the bound the split matters, in exactly one way: with a whole frame of `n`
   bytes at the front of the stream, it is refused for size exactly when the chunk
   that completes the frame carries the buffer past the bound.
   */
  lemma {:induction false} BeyondTheBound(direction: Direction, buffer: seq<Byte>, chunks: seq<seq<Byte>>, n: nat)
    requires Whole(buffer + Joined(chunks)) == n && |buffer| < n <= BOUND
    ensures Result(FedAll(direction, State(buffer, false, [], false), chunks))
         == if Completes(|buffer|, chunks, n) <= BOUND then Decide(direction, (buffer + Joined(chunks))[..n])
             else Refused
    decreases |chunks|
  {
    if chunks != [] {
      var all, more := buffer + Joined(chunks), buffer + chunks[0];
      assert more + Joined(chunks[1..]) == all;
      if |more| >= n {
        JustDecided(direction, more, all, n);
        Settled(direction, Fed(direction, State(buffer, false, [], false), chunks[0]), chunks[1..]);
      } else {
        StillPending(direction, more, all, n);
        BeyondTheBound(direction, more, chunks[1..], n);
      }
    }
  }

  /** How many bytes have been fed when the first `n` are there. */
  function Completes(fed: nat, chunks: seq<seq<Byte>>, n: nat): nat
    decreases |chunks|
  {
    if fed >= n || chunks == [] then fed else Completes(fed + |chunks[0]|, chunks[1..], n)
  }

  /** A buffer is logged only when a whole frame is in it, and that frame is the whole stream's first. */
  lemma NothingLogged(direction: Direction, more: seq<Byte>, all: seq<Byte>)
    requires more <= all && (Whole(all) < 0 || Whole(all) > |more|)
    ensures !Decide(direction, more).Logged?
  {
    DigitsStable(more, all, 1, 0, 1);
  }

  lemma {:induction false} TooLong(direction: Direction, buffer: seq<Byte>, chunks: seq<seq<Byte>>)
    requires |buffer + Joined(chunks)| > BOUND >= |buffer| && Decide(direction, buffer) == Pending
    requires var n := Whole(buffer + Joined(chunks)); n < 0 || n > BOUND
    ensures Result(FedAll(direction, State(buffer, false, [], false), chunks)) == Refused
    decreases |chunks|
  {
    if chunks != [] {
      var all, more := buffer + Joined(chunks), buffer + chunks[0];
      assert more + Joined(chunks[1..]) == all;
      var t := Fed(direction, State(buffer, false, [], false), chunks[0]);
      if |more| <= BOUND && Decide(direction, more) == Pending {
        TooLong(direction, more, chunks[1..]);
      } else {
        if |more| <= BOUND {
          NothingLogged(direction, more, all);
        }
        assert t.refused;
        Settled(direction, t, chunks[1..]);
      }
    }
  }

  /**
   Every stream and every split. Within the bound the split does not matter. Beyond it
   the first frame is logged or refused for what it says exactly when it ends within the
   bound and the chunk that completes it does not carry the buffer past the bound; a
   longer frame, a malformed header and an unfinished frame are refused however they come.
   */
  lemma {:induction false} AnyStream(direction: Direction, chunks: seq<seq<Byte>>)
    ensures var all := Joined(chunks);
            var n := Whole(all);
            Result(FedAll(direction, Start(), chunks))
            == if |all| <= BOUND then Decide(direction, all)
               else if 0 <= n <= BOUND && Completes(0, chunks, n) <= BOUND then Decide(direction, all[..n])
               else Refused
  {
    var all := Joined(chunks);
    assert [] + all == all && Decide(direction, []) == Pending;
    if |all| <= BOUND {
      ChunkingInvariance(direction, chunks);
    } else if 0 <= Whole(all) <= BOUND {
      BeyondTheBound(direction, [], chunks, Whole(all));
    } else {
      TooLong(direction, [], chunks);
    }
  }

  /** A minimal CONNECT: ten bytes of variable header, nothing else. */
  const CONNECT: seq<Byte> := [0x10, 10, 0, 4, 77, 81, 84, 84, 4, 2, 0, 60]

  /** One stream of one byte more than the bound, cut after the CONNECT or not at all, gives two results. */
  lemma SplitMatters(padding: seq<Byte>)
    requires |padding| == BOUND + 1 - |CONNECT|
    ensures Joined([CONNECT, padding]) == Joined([CONNECT + padding])
    ensures Result(FedAll(FromClient, Start(), [CONNECT, padding])) == Logged(Connect(4, 2, 12))
    ensures Result(FedAll(FromClient, Start(), [CONNECT + padding])) == Refused
  {
    assert [CONNECT, padding][1..] == [padding] && [padding][1..] == [] && [CONNECT + padding][1..] == [];
    assert Joined([padding]) == padding && Joined([CONNECT + padding]) == CONNECT + padding;
    assert Digits(CONNECT, 1, 0, 1) == Header(2, 10);
    assert CONNECT[..12] == CONNECT && CONNECT[2..][6] == CONNECT[8] && CONNECT[2..][7] == CONNECT[9];
    var s := Fed(FromClient, Start(), CONNECT);
    assert [] + CONNECT == CONNECT;
    assert s == State([], true, [] + [Connect(4, 2, 12)], false);
    assert FedAll(FromClient, s, [padding]) == s by { Settled(FromClient, s, [padding]); }
    Settled(FromClient, Fed(FromClient, Start(), CONNECT + padding), []);
  }
}
