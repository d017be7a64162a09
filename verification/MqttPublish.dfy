// PUBLISH packets (section 3.3 of MQTT 3.1.1): what is written, what is read back.
module MqttPublish {
  import opened Octets
  import opened Wrappers
  import opened MqttWire

  /** mqtt_message_t; an empty payload is the NULL payload. */
  datatype Message = Message(topic: Bytes, payload: Bytes, qos: nat, retain: bool, dup: bool)

  const PUBLISH := 3
  const TOPIC_ROOM := 256

  function Bit(b: bool): nat { if b then 1 else 0 }

  /** The values an mqtt_message_t can hold: qos is one of the three levels, the topic a C string. */
  predicate Sendable(m: Message) { m.qos <= 2 && IsCString(m.topic) }

  function Header(m: Message): byte
    requires m.qos <= 2
  {
    PUBLISH * 16 + 8 * Bit(m.dup) + 2 * m.qos + Bit(m.retain)
  }

  /** The announced remaining length. */
  function Remaining(m: Message): nat {
    2 + |m.topic| + (if m.qos > 0 then 2 else 0) + |m.payload|
  }

  function Body(m: Message, packetId: nat): Bytes {
    EncodeString(m.topic) + (if m.qos > 0 then U16(packetId) else []) + m.payload
  }

  /** mqtt_encode_publish. */
  function Encode(m: Message, packetId: nat): Bytes
    requires m.qos <= 2
  {
    [Header(m)] + EncodeLength(Remaining(m)) + Body(m, packetId)
  }

  // ---------------------------------------------------------------- decoding

  datatype FixedHeader = FixedHeader(kind: nat, dup: bool, qos: nat, retain: bool, remaining: nat)

  /** mqtt_decode_fixed_header: the header and its length. */
  function DecodeHeader(buf: Bytes): (r: Option<(FixedHeader, nat)>)
    ensures r.Some? ==> 2 <= r.value.1 <= |buf|
  {
    if |buf| < 2 then None else
      match DecodeLength(buf[1..])
      case None => None
      case Some((remaining, used)) =>
        var b: int := buf[0];
        Some((FixedHeader(b / 16, b / 8 % 2 == 1, b / 2 % 4, b % 2 == 1, remaining), used + 1))
  }

  /** The buffer holds the whole packet its fixed header announces. */
  predicate Whole(buf: Bytes) {
    DecodeHeader(buf).Some? ==> DecodeHeader(buf).value.1 + DecodeHeader(buf).value.0.remaining <= |buf|
  }

  /** What strdup keeps of the topic buffer. */
  function UpToNul(s: Bytes): Bytes {
    if s == [] || s[0] == 0 then [] else [s[0]] + UpToNul(s[1..])
  }

  /** Packet holds the message and the offset after it, Refused stands for -1. PastEnd: the source copies the payload
      from behind the buffer. */
  datatype Decoded = Packet(message: Message, next: nat) | Refused | PastEnd

  /** mqtt_decode_publish; granted is malloc's answer. */
  function Decode(buf: Bytes, granted: bool): Decoded {
    if |buf| < 4 || DecodeHeader(buf).None? then Refused else
      var (h, start) := DecodeHeader(buf).value;
      if h.kind != PUBLISH then Refused
      else DecodeBody(buf, h, start, granted)
  }

  /** The part behind the fixed header. */
  function DecodeBody(buf: Bytes, h: FixedHeader, start: nat, granted: bool): Decoded
    requires start <= |buf|
  {
    match DecodeString(buf[start..], TOPIC_ROOM)
    case None => Refused
    case Some((topic, topicLength)) =>
      var afterTopic := start + topicLength;
      if h.qos > 0 && |buf| - afterTopic < 2 then Refused else
        var pos := if h.qos > 0 then afterTopic + 2 else afterTopic;
        DecodePayload(buf, h, pos, start + h.remaining, UpToNul(topic), granted)
  }

  /** The payload from pos up to next. */
  function DecodePayload(buf: Bytes, h: FixedHeader, pos: nat, next: nat, topic: Bytes, granted: bool): Decoded {
    if next <= pos then Packet(Message(topic, [], h.qos, h.retain, h.dup), next)
    else if !granted then Refused
    else if next > |buf| then PastEnd
    else Packet(Message(topic, buf[pos..next], h.qos, h.retain, h.dup), next)
  }

  // ---------------------------------------------------------------- what is accepted

  /** The remaining length in at most three digits, the lowest first, and the offset behind it. */
  function Announced(buf: Bytes): Option<(nat, nat)>
    requires |buf| >= 4
  {
    var a, b, c: int := buf[1], buf[2], buf[3];
    if a < 128 then Some((a, 2))
    else if b < 128 then Some((a - 128 + 128 * b, 3))
    else if c < 128 then Some((a - 128 + 128 * (b - 128) + 16384 * c, 4))
    else None
  }

  lemma AnnouncedIs(buf: Bytes)
    requires |buf| >= 4
    ensures DecodeHeader(buf) ==
      match Announced(buf)
      case None => None
      case Some((n, at)) =>
        var b: int := buf[0];
        Some((FixedHeader(b / 16, b / 8 % 2 == 1, b / 2 % 4, b % 2 == 1, n), at))
  {
    var tail := buf[1..];
    assert tail[0] == buf[1] && tail[1] == buf[2] && tail[2] == buf[3];
    if tail[0] < 128 {
      DecodeEnd(tail, 0, 1, 0);
    } else if tail[1] < 128 {
      TwoDigits(tail);
    } else {
      ThreeDigits(tail);
    }
  }

  lemma TwoDigits(tail: Bytes)
    requires |tail| >= 2 && tail[0] >= 128 && tail[1] < 128
    ensures DecodeLength(tail) == Some((tail[0] - 128 + 128 * tail[1] as int, 2))
  {
    DecodeStep(tail, 0, 1, 0);
    DecodeEnd(tail, 1, 128, tail[0] % 128);
  }

  lemma ThreeDigits(tail: Bytes)
    requires |tail| >= 3 && tail[0] >= 128 && tail[1] >= 128
    ensures DecodeLength(tail) == if tail[2] >= 128 then None
                                  else Some((tail[0] - 128 + 128 * (tail[1] as int - 128) + 16384 * tail[2] as int, 3))
  {
    var first: nat := tail[0] % 128;
    var length: nat := first + (tail[1] as int % 128) * 128;
    DecodeStep(tail, 0, 1, 0);
    DecodeStep(tail, 1, 128, first);
    if tail[2] < 128 {
      DecodeEnd(tail, 2, 128 * 128, length);
    } else {
      DecodeStep(tail, 2, 128 * 128, length);
      if |tail| > 3 { DecodeTooLong(tail, 3, length + (tail[2] as int % 128) * (128 * 128)); }
    }
  }

  /** A PUBLISH type, a length in three digits, a topic of at most 255 bytes and, for QoS above 0, two bytes more. */
  predicate Readable(buf: Bytes) {
    && |buf| >= 4 && buf[0] as int / 16 == 3 && Announced(buf).Some?
    && var at := Announced(buf).value.1;
       && at + 2 <= |buf|
       && var length := buf[at] as int * 256 + buf[at + 1] as int;
          length <= 255 && at + 2 + length + (if buf[0] as int / 2 % 4 > 0 then 2 else 0) <= |buf|
  }

  /** What the decoder makes of any bytes at all: refused unless readable; then, unless the announced bytes are not all
      there, the fields of the header, the topic up to its first NUL, the rest of the announced bytes as the payload,
      and the offset behind them. Without memory only a packet without payload is accepted. */
  lemma DecodeExact(buf: Bytes)
    ensures Decode(buf, true) ==
      if !Readable(buf) then Refused else
        var b: int := buf[0];
        var (n, at) := Announced(buf).value;
        var behind := at + 2 + (buf[at] as int * 256 + buf[at + 1] as int);
        var from := if b / 2 % 4 > 0 then behind + 2 else behind;
        if at + n > |buf| then PastEnd
        else Packet(Message(UpToNul(buf[at + 2..behind]), if at + n <= from then [] else buf[from..at + n],
                            b / 2 % 4, b % 2 == 1, b / 8 % 2 == 1), at + n)
    ensures Decode(buf, false) ==
      if Decode(buf, true).Packet? && Decode(buf, true).message.payload == [] then Decode(buf, true) else Refused
  {
    if |buf| >= 4 {
      AnnouncedIs(buf);
      if Announced(buf).Some? {
        var at := Announced(buf).value.1;
        StringAt(buf, at);
      }
    }
  }

  lemma StringAt(buf: Bytes, at: nat)
    requires at <= |buf|
    ensures DecodeString(buf[at..], 256) ==
      if at + 2 > |buf| then None else
        var length := buf[at] as int * 256 + buf[at + 1] as int;
        if length > 255 || at + 2 + length > |buf| then None else Some((buf[at + 2..at + 2 + length], length + 2))
  {
    if at + 2 <= |buf| {
      var length := buf[at] as int * 256 + buf[at + 1] as int;
      if length <= 255 && at + 2 + length <= |buf| {
        assert buf[at..][2..length + 2] == buf[at + 2..at + 2 + length];
      }
    }
  }

  /** strdup stops at the first NUL. */
  lemma {:induction false} FirstNul(s: Bytes)
    ensures var r := UpToNul(s);
      r <= s && 0 !in r && (r == s || s[|r|] == 0)
  {
    if s != [] && s[0] != 0 {
      FirstNul(s[1..]);
      assert s == [s[0]] + s[1..];
    }
  }

  // ---------------------------------------------------------------- truncated packets

  /** All that the decoder itself checks: a PUBLISH header and, behind it, a topic and any packet identifier. */
  predicate Checked(buf: Bytes) {
    && |buf| >= 4 && DecodeHeader(buf).Some?
    && var (h, start) := DecodeHeader(buf).value;
       && h.kind == PUBLISH
       && DecodeString(buf[start..], TOPIC_ROOM).Some?
       && (h.qos > 0 ==> start + DecodeString(buf[start..], TOPIC_ROOM).value.1 + 2 <= |buf|)
  }

  /** The decoder reads behind the buffer exactly when these checks pass and the packet is not all there. */
  lemma PastEndIff(buf: Bytes)
    ensures Decode(buf, true).PastEnd? <==> Checked(buf) && !Whole(buf)
    ensures Decode(buf, false) != PastEnd
  {
  }

  /** Four bytes that announce three more. */
  lemma PastEndReached()
    ensures Decode([0x30, 5, 0, 0], true) == PastEnd
  {
    var buf: Bytes := [0x30, 5, 0, 0];
    DecodeEnd(buf[1..], 0, 1, 0);
    assert DecodeHeader(buf) == Some((FixedHeader(PUBLISH, false, 0, false, 5), 2));
    assert buf[2..] == [0, 0];
    assert DecodeString([0, 0], TOPIC_ROOM) == Some(([0, 0][2..2], 2));
  }

  // ---------------------------------------------------------------- where a packet ends

  /** Topic and any packet identifier lie within the announced length. */
  predicate Enclosed(buf: Bytes)
    requires Decode(buf, true).Packet?
  {
    var (h, start) := DecodeHeader(buf).value;
    DecodeString(buf[start..], TOPIC_ROOM).value.1 + (if h.qos > 0 then 2 else 0) <= h.remaining
  }

  /** A header is read from its own bytes. */
  lemma HeaderCut(a: Bytes, b: Bytes)
    requires DecodeHeader(a).Some? && DecodeHeader(a).value.1 <= |b|
    requires forall i | 0 <= i < DecodeHeader(a).value.1 :: b[i] == a[i]
    ensures DecodeHeader(b) == DecodeHeader(a)
  {
    assert a[0] == b[0];
    LengthCut(a[1..], b[1..], 0, 1, 0);
  }

  lemma {:induction false} LengthCut(a: Bytes, b: Bytes, used: nat, multiplier: nat, length: nat)
    requires used <= |a| && used <= |b| && DecodeFrom(a, used, multiplier, length).Some?
    requires DecodeFrom(a, used, multiplier, length).value.1 <= |b|
    requires forall i | 0 <= i < DecodeFrom(a, used, multiplier, length).value.1 :: b[i] == a[i]
    ensures DecodeFrom(b, used, multiplier, length) == DecodeFrom(a, used, multiplier, length)
    decreases |a| - used
  {
    assert a[used] == b[used];
    if a[used] >= 128 { LengthCut(a, b, used + 1, multiplier * 128, length + a[used] % 128 * multiplier); }
  }

  lemma StringCut(a: Bytes, b: Bytes, room: nat)
    requires DecodeString(a, room).Some? && DecodeString(a, room).value.1 <= |b|
    requires forall i | 0 <= i < DecodeString(a, room).value.1 :: b[i] == a[i]
    ensures DecodeString(b, room) == DecodeString(a, room)
  {
    var used := DecodeString(a, room).value.1;
    assert a[0] == b[0] && a[1] == b[1];
    assert a[2..used] == b[2..used];
  }

  /** An enclosed packet is read from the bytes it announces. */
  lemma EnclosedCut(buf: Bytes, other: Bytes)
    requires Decode(buf, true).Packet? && Enclosed(buf)
    requires Decode(buf, true).next <= |other| && Decode(buf, true).next <= |buf|
    requires other[..Decode(buf, true).next] == buf[..Decode(buf, true).next]
    ensures Decode(other, true) == Decode(buf, true)
  {
    var n := Decode(buf, true).next;
    var (h, start) := DecodeHeader(buf).value;
    forall i | 0 <= i < n ensures other[i] == buf[i] {
      assert other[i] == other[..n][i] && buf[i] == buf[..n][i];
    }
    HeaderCut(buf, other);
    StringCut(buf[start..], other[start..], TOPIC_ROOM);
    var pos := start + DecodeString(buf[start..], TOPIC_ROOM).value.1 + (if h.qos > 0 then 2 else 0);
    assert other[pos..n] == buf[pos..n];
  }

  /** The offset behind a packet is never outside the buffer. */
  lemma NextInside(buf: Bytes)
    ensures Decode(buf, true).Packet? ==> Decode(buf, true).next <= |buf|
  {
  }

  /** Cut short, a packet is not read: the header is the same, and what it announces is not there. */
  lemma CutShort(buf: Bytes, k: nat)
    requires Decode(buf, true).Packet? && k <= |buf|
    requires k < Decode(buf, true).next || (k == Decode(buf, true).next && !Enclosed(buf))
    ensures !Decode(buf[..k], true).Packet?
  {
    var (h, start) := DecodeHeader(buf).value;
    var cut := buf[..k];
    if start <= k {
      HeaderCut(buf, cut);
      if DecodeString(cut[start..], TOPIC_ROOM).Some? {
        StringCut(cut[start..], buf[start..], TOPIC_ROOM);
      }
    } else if DecodeHeader(cut).Some? {
      HeaderCut(cut, buf);
    }
  }

  /** The same message and offset whatever follows the announced bytes. */
  ghost predicate SelfDelimiting(buf: Bytes)
    requires Decode(buf, true).Packet? && Decode(buf, true).next <= |buf|
  {
    forall rest: Bytes :: Decode(buf[..Decode(buf, true).next] + rest, true) == Decode(buf, true)
  }

  /** A decoded packet is self-delimiting exactly when its topic and packet identifier lie within the length it
      announces; then no proper prefix of it is a packet. */
  lemma SelfDelimitingIff(buf: Bytes)
    requires Decode(buf, true).Packet?
    ensures Decode(buf, true).next <= |buf|
    ensures SelfDelimiting(buf) <==> Enclosed(buf)
    ensures forall k | 0 <= k < Decode(buf, true).next :: !Decode(buf[..k], true).Packet?
  {
    NextInside(buf);
    var n := Decode(buf, true).next;
    forall k | 0 <= k < n ensures !Decode(buf[..k], true).Packet? { CutShort(buf, k); }
    if Enclosed(buf) {
      forall rest: Bytes ensures Decode(buf[..n] + rest, true) == Decode(buf, true) {
        assert (buf[..n] + rest)[..n] == buf[..n];
        EnclosedCut(buf, buf[..n] + rest);
      }
    } else {
      CutShort(buf, n);
      assert buf[..n] + [] == buf[..n];
      assert Decode(buf[..n] + [], true) != Decode(buf, true);
    }
  }

  /** A packet that announces nothing and takes its topic from behind itself. */
  lemma BorrowedTopic()
    ensures Decode([0x30, 0, 0, 1, 65], true) == Packet(Message([65], [], 0, false, false), 2)
    ensures !Enclosed([0x30, 0, 0, 1, 65])
  {
    var buf: Bytes := [0x30, 0, 0, 1, 65];
    DecodeEnd(buf[1..], 0, 1, 0);
    assert DecodeHeader(buf) == Some((FixedHeader(PUBLISH, false, 0, false, 0), 2));
    assert buf[2..] == [0, 1, 65];
    var tail: Bytes := [0, 1, 65];
    assert tail[2..3] == [65];
    assert DecodeString(tail, TOPIC_ROOM) == Some(([65], 3));
    var topic: Bytes := [65];
    assert topic[1..] == [];
    assert UpToNul(topic) == topic;
  }

  // ---------------------------------------------------------------- round trips

  lemma {:induction false} NoNulKeepsAll(s: Bytes)
    requires IsCString(s)
    ensures UpToNul(s) == s
  {
    if s != [] { NoNulKeepsAll(s[1..]); }
  }

  /** The header byte carries kind, dup, qos and retain apart. */
  lemma HeaderFields(m: Message)
    requires m.qos <= 2
    ensures var b: int := Header(m);
      b / 16 == 3 && (b / 8 % 2 == 1 <==> m.dup) && b / 2 % 4 == m.qos && (b % 2 == 1 <==> m.retain)
  {
  }

  lemma EncodedHeader(m: Message, packetId: nat, rest: Bytes)
    requires m.qos <= 2
    ensures var buf := Encode(m, packetId) + rest;
      && |buf| >= 2
      && (Remaining(m) < Pow128(3) ==>
            DecodeHeader(buf) == Some((FixedHeader(PUBLISH, m.dup, m.qos, m.retain, Remaining(m)),
                                       |EncodeLength(Remaining(m))| + 1)))
      && (Remaining(m) >= Pow128(3) ==> DecodeHeader(buf) == None)
  {
    var buf := Encode(m, packetId) + rest;
    var digits := EncodeLength(Remaining(m));
    assert buf[1..] == digits + (Body(m, packetId) + rest);
    LengthRoundTrip(Remaining(m), Body(m, packetId) + rest);
    HeaderFields(m);
  }

  /** What follows the fixed header in the buffer. */
  function Tail(m: Message, packetId: nat, rest: Bytes): Bytes {
    (if m.qos > 0 then U16(packetId) else []) + m.payload + rest
  }

  lemma AfterHeader(m: Message, packetId: nat, rest: Bytes)
    requires m.qos <= 2
    ensures var buf := Encode(m, packetId) + rest;
            var start := |EncodeLength(Remaining(m))| + 1;
            start <= |buf| && buf[start..] == EncodeString(m.topic) + Tail(m, packetId, rest)
  {
  }

  lemma PayloadAt(m: Message, packetId: nat, rest: Bytes)
    requires m.qos <= 2 && |m.topic| < UINT16_MOD
    ensures var all := Encode(m, packetId);
      && |all| == |EncodeLength(Remaining(m))| + 1 + Remaining(m)
      && (all + rest)[|all| - |m.payload|..|all|] == m.payload
  {
    StringRoundTrip(m.topic, [], UINT16_MOD);
  }

  /** The body decodes to the message once topic and payload lie where they should. */
  lemma BodyDecoded(buf: Bytes, h: FixedHeader, start: nat, m: Message)
    requires Sendable(m) && start + Remaining(m) <= |buf|
    requires h == FixedHeader(PUBLISH, m.dup, m.qos, m.retain, Remaining(m))
    requires DecodeString(buf[start..], TOPIC_ROOM) == Some((m.topic, |m.topic| + 2))
    requires buf[start + Remaining(m) - |m.payload|..start + Remaining(m)] == m.payload
    ensures DecodeBody(buf, h, start, true) == Packet(m, start + Remaining(m))
  {
    NoNulKeepsAll(m.topic);
  }

  /** The first byte is 3 in its upper half, then DUP, two bits of QoS and RETAIN. */
  lemma PublishBytes(m: Message, packetId: nat)
    requires m.qos <= 2 && packetId < 0x1_0000 && |m.topic| < 0x1_0000
    ensures Encode(m, packetId) ==
            [0x30 + (if m.dup then 8 else 0) + 2 * m.qos + (if m.retain then 1 else 0)]
            + EncodeLength(2 + |m.topic| + (if m.qos > 0 then 2 else 0) + |m.payload|)
            + (([|m.topic| / 256, |m.topic| % 256] + m.topic)
               + (if m.qos > 0 then [packetId / 256, packetId % 256] else []) + m.payload)
  {
    StringBytes(m.topic);
  }

  /** A message in range is read back unchanged, whatever follows it in the buffer. */
  lemma PublishRoundTrip(m: Message, packetId: nat, rest: Bytes)
    requires Sendable(m) && |m.topic| < TOPIC_ROOM && Remaining(m) < Pow128(3)
    ensures var buf := Encode(m, packetId) + rest;
      Decode(buf, true) == Packet(m, |Encode(m, packetId)|)
  {
    var buf, start := Encode(m, packetId) + rest, |EncodeLength(Remaining(m))| + 1;
    EncodedHeader(m, packetId, rest);
    AfterHeader(m, packetId, rest);
    StringRoundTrip(m.topic, Tail(m, packetId, rest), TOPIC_ROOM);
    PayloadAt(m, packetId, rest);
    BodyDecoded(buf, FixedHeader(PUBLISH, m.dup, m.qos, m.retain, Remaining(m)), start, m);
  }

  /** Outside that range the decoder refuses what the encoder wrote: a longer topic, or a four-byte length. */
  lemma PublishRefused(m: Message, packetId: nat, rest: Bytes, granted: bool)
    requires Sendable(m) && |m.topic| < UINT16_MOD
    requires |m.topic| >= TOPIC_ROOM || Remaining(m) >= Pow128(3)
    ensures var buf := Encode(m, packetId) + rest;
      Decode(buf, granted) == Refused
  {
    EncodedHeader(m, packetId, rest);
    if Remaining(m) < Pow128(3) {
      AfterHeader(m, packetId, rest);
      PayloadAt(m, packetId, rest);
      StringRoundTrip(m.topic, Tail(m, packetId, rest), TOPIC_ROOM);
    }
  }

  lemma {:induction false} UpToNulShorter(s: Bytes)
    ensures |UpToNul(s)| <= |s|
  {
    if s != [] { UpToNulShorter(s[1..]); }
  }

  /** No topic the decoder hands out exceeds its buffer. */
  lemma DecodedTopicFits(buf: Bytes, granted: bool)
    ensures Decode(buf, granted).Packet? ==> |Decode(buf, granted).message.topic| < TOPIC_ROOM
  {
    if Decode(buf, granted).Packet? {
      var (h, start) := DecodeHeader(buf).value;
      UpToNulShorter(DecodeString(buf[start..], TOPIC_ROOM).value.0);
    }
  }

  /** Encoding then decoding gives the message back if and only if topic and packet are short enough. */
  lemma PublishRoundTripIff(m: Message, packetId: nat, rest: Bytes)
    requires Sendable(m)
    ensures var buf := Encode(m, packetId) + rest;
      Decode(buf, true) == Packet(m, |Encode(m, packetId)|) <==>
        |m.topic| < TOPIC_ROOM && Remaining(m) < Pow128(3)
  {
    var buf := Encode(m, packetId) + rest;
    if |m.topic| >= TOPIC_ROOM {
      DecodedTopicFits(buf, true);
    } else if Remaining(m) < Pow128(3) {
      PublishRoundTrip(m, packetId, rest);
    } else {
      PublishRefused(m, packetId, rest, true);
    }
  }

  /** The announced digits stand for the bytes written after the fixed header iff the topic fits 16 bits and the
      length four digits. */
  lemma PublishLength(m: Message, packetId: nat)
    requires m.qos <= 2
    ensures var d := EncodeLength(Remaining(m));
      WellFormed(d) && Value(d) == |Body(m, packetId)| <==> |m.topic| < UINT16_MOD && Remaining(m) < Pow128(4)
  {
    StringRoundTrip(m.topic, [], UINT16_MOD);
    LengthAnnounces(Remaining(m), |Body(m, packetId)|);
  }

  // ---------------------------------------------------------------- streams

  /** Packets written one after the other, each with its packet identifier. */
  function EncodeAll(ms: seq<(Message, nat)>): Bytes
    requires forall m | m in ms :: m.0.qos <= 2
  {
    if ms == [] then [] else Encode(ms[0].0, ms[0].1) + EncodeAll(ms[1..])
  }

  /** mqtt_decode_publish called again and again from the offset it returned, until the buffer is used up. */
  predicate Reads(buf: Bytes, ms: seq<Message>)
    decreases |ms|
  {
    if ms == [] then buf == [] else
      && Decode(buf, true).Packet?
      && var Packet(m, next) := Decode(buf, true);
         m == ms[0] && next <= |buf| && Reads(buf[next..], ms[1..])
  }

  predicate InRange(m: Message) { Sendable(m) && |m.topic| < TOPIC_ROOM && Remaining(m) < 128 * 128 * 128 }

  function Messages(ms: seq<(Message, nat)>): (r: seq<Message>)
    ensures |r| == |ms| && forall i | 0 <= i < |ms| :: r[i] == ms[i].0
  {
    seq(|ms|, i requires 0 <= i < |ms| => ms[i].0)
  }

  /** A stream of PUBLISH packets is read back as the list of messages that was written. */
  lemma {:induction false} StreamRoundTrip(ms: seq<(Message, nat)>)
    requires forall m | m in ms :: m.0.qos <= 2 && InRange(m.0)
    ensures Reads(EncodeAll(ms), Messages(ms))
    decreases |ms|
  {
    if ms != [] {
      var (m, id) := ms[0];
      var rest := EncodeAll(ms[1..]);
      assert ms[0] in ms;
      Powers();
      PublishRoundTrip(m, id, rest);
      StreamRoundTrip(ms[1..]);
      var buf := Encode(m, id) + rest;
      assert buf[|Encode(m, id)|..] == rest;
      assert Messages(ms)[1..] == Messages(ms[1..]);
    }
  }
}
