// CONNECT packets (sections 3.1.2 and 3.1.3 of MQTT 3.1.1).
module MqttConnect {
  import opened Octets
  import opened Wrappers
  import opened MqttWire

  /** mqtt_connect_options_t; None is a NULL pointer. */
  datatype Options = Options(clientId: Bytes, username: Option<Bytes>, password: Option<Bytes>, keepAlive: nat,
                             cleanSession: bool, willTopic: Option<Bytes>, willMessage: Option<Bytes>,
                             willQos: nat, willRetain: bool)

  /** What a server learns from the packet. */
  datatype Will = Will(topic: Bytes, message: Bytes, qos: nat, retain: bool)
  datatype Credentials = Credentials(username: Bytes, password: Option<Bytes>)
  datatype Connect = Connect(clientId: Bytes, keepAlive: nat, cleanSession: bool,
                             will: Option<Will>, credentials: Option<Credentials>)

  const CONNECT_FIRST: byte := 0x10
  const PROTOCOL: Bytes := [0, 4, 0x4D, 0x51, 0x54, 0x54, 4]  // "MQTT", level 4

  /** The fields as the C types bound them. */
  predicate Typed(o: Options) { o.keepAlive < UINT16_MOD && o.willQos <= 2 }

  predicate HasWill(o: Options) { o.willTopic.Some? && o.willMessage.Some? }

  /** A will needs topic and message, a password needs a username; the rest is dropped. */
  function Meaning(o: Options): Connect {
    Connect(o.clientId, o.keepAlive, o.cleanSession,
            if HasWill(o) then Some(Will(o.willTopic.value, o.willMessage.value, o.willQos, o.willRetain)) else None,
            if o.username.Some? then Some(Credentials(o.username.value, o.password)) else None)
  }

  function Bit(b: bool, weight: nat): nat { if b then weight else 0 }

  function Flags(o: Options): byte
    requires Typed(o)
  {
    Bit(o.cleanSession, 2)
    + (if HasWill(o) then 4 + 8 * o.willQos + Bit(o.willRetain, 32) else 0)
    + (if o.username.Some? then 128 + Bit(o.password.Some?, 64) else 0)
  }

  /** The strings of the payload, in the order they are written. */
  function Strings(o: Options): seq<Bytes> {
    [o.clientId]
    + (if HasWill(o) then [o.willTopic.value, o.willMessage.value] else [])
    + (if o.username.Some? then [o.username.value] + (if o.password.Some? then [o.password.value] else []) else [])
  }

  function Prefixed(strings: seq<Bytes>): nat {
    if strings == [] then 0 else 2 + |strings[0]| + Prefixed(strings[1..])
  }

  /** The precomputed remaining length. */
  function Remaining(o: Options): nat { 10 + Prefixed(Strings(o)) }

  function EncodeStrings(strings: seq<Bytes>): Bytes {
    if strings == [] then [] else EncodeString(strings[0]) + EncodeStrings(strings[1..])
  }

  function Body(o: Options): Bytes
    requires Typed(o)
  {
    PROTOCOL + [Flags(o)] + U16(o.keepAlive) + EncodeStrings(Strings(o))
  }

  /** mqtt_encode_connect. */
  function Encode(o: Options): Bytes
    requires Typed(o)
  {
    [CONNECT_FIRST] + EncodeLength(Remaining(o)) + Body(o)
  }

  predicate Short(strings: seq<Bytes>) { forall s | s in strings :: |s| < UINT16_MOD }

  // ---------------------------------------------------------------- announced against written

  lemma StringWritten(s: Bytes)
    ensures |EncodeString(s)| <= |s| + 2
    ensures |EncodeString(s)| == |s| + 2 <==> |s| < UINT16_MOD
  {
  }

  lemma {:induction false} StringsWritten(strings: seq<Bytes>)
    ensures |EncodeStrings(strings)| <= Prefixed(strings)
    ensures |EncodeStrings(strings)| == Prefixed(strings) <==> Short(strings)
  {
    if strings != [] {
      StringsWritten(strings[1..]);
      StringWritten(strings[0]);
      assert strings == [strings[0]] + strings[1..];
    }
  }

  lemma {:induction false} ShortBound(strings: seq<Bytes>)
    requires Short(strings)
    ensures Prefixed(strings) <= |strings| * (UINT16_MOD + 1)
  {
    if strings != [] {
      assert strings[0] in strings;
      ShortBound(strings[1..]);
    }
  }

  /** Five strings of 16-bit length never reach the limit of four digits. */
  lemma ConnectFits(o: Options)
    requires Short(Strings(o))
    ensures Remaining(o) < Pow128(4)
  {
    ShortBound(Strings(o));
    Powers();
  }

  /** The announced digits stand for the bytes written after the fixed header iff no string exceeds 65,535 bytes. */
  lemma ConnectLength(o: Options)
    requires Typed(o)
    ensures var d := EncodeLength(Remaining(o));
      WellFormed(d) && Value(d) == |Body(o)| <==> Short(Strings(o))
  {
    StringsWritten(Strings(o));
    LengthAnnounces(Remaining(o), |Body(o)|);
    if Short(Strings(o)) { ConnectFits(o); }
  }

  /** A client identifier of 65,536 bytes: 65,548 bytes are announced and 12 written. */
  lemma LongClientId()
    ensures var o := Options(Letters(UINT16_MOD), None, None, 0, false, None, None, 0, false);
      var d := EncodeLength(Remaining(o));
      WellFormed(d) && Value(d) == 65548 && |Body(o)| == 12
  {
    var o := Options(Letters(UINT16_MOD), None, None, 0, false, None, None, 0, false);
    var s := Letters(UINT16_MOD);
    var one: seq<Bytes> := [s];
    assert Strings(o) == one && one[1..] == [];
    assert Prefixed(one) == 2 + |s| + Prefixed(one[1..]);
    assert EncodeStrings(one) == EncodeString(s) + EncodeStrings(one[1..]);
    assert |EncodeString(s)| == 2;
    Powers();
    LengthAnnounces(Remaining(o), Remaining(o));
  }

  /** n letters A. */
  function Letters(n: nat): (r: Bytes)
    ensures |r| == n && 0 !in r
  {
    seq(n, _ => 65)
  }

  // ---------------------------------------------------------------- what is on the wire

  /** Six fields put together in a byte and taken apart again. */
  lemma Fields(f: nat, clean: nat, will: nat, qos: nat, retain: nat, pass: nat, user: nat)
    requires clean <= 1 && will <= 1 && qos <= 3 && retain <= 1 && pass <= 1 && user <= 1
    requires f == 2 * clean + 4 * will + 8 * qos + 32 * retain + 64 * pass + 128 * user
    ensures f % 2 == 0 && f / 2 % 2 == clean && f / 4 % 2 == will && f / 8 % 4 == qos
    ensures f / 32 % 2 == retain && f / 64 % 2 == pass && f / 128 == user
  {
    assert f / 4 == will + 2 * qos + 8 * retain + 16 * pass + 32 * user;
    assert f / 8 == qos + 4 * retain + 8 * pass + 16 * user;
    assert f / 32 == retain + 2 * pass + 4 * user;
  }

  /** Section 3.1.2.3 of MQTT 3.1.1, bit by bit: no reserved bit, and will QoS and retain only with a will. */
  lemma FlagBits(o: Options)
    requires Typed(o)
    ensures var f: int := Flags(o);
      && f % 2 == 0
      && (f / 2 % 2 == 1 <==> o.cleanSession)
      && (f / 4 % 2 == 1 <==> o.willTopic.Some? && o.willMessage.Some?)
      && f / 8 % 4 == (if o.willTopic.Some? && o.willMessage.Some? then o.willQos else 0)
      && (f / 32 % 2 == 1 <==> o.willTopic.Some? && o.willMessage.Some? && o.willRetain)
      && (f / 64 % 2 == 1 <==> o.username.Some? && o.password.Some?)
      && (f / 128 == 1 <==> o.username.Some?)
  {
    var will, user := HasWill(o), o.username.Some?;
    Fields(Flags(o), Bit(o.cleanSession, 1), Bit(will, 1), if will then o.willQos else 0, Bit(will && o.willRetain, 1),
           Bit(user && o.password.Some?, 1), Bit(user, 1));
  }

  /** Every byte of the packet: 0x10 and the digits of the length, "MQTT" behind its length, level 4, the flags, the
      keep-alive time with its high byte first, then client identifier, will topic, will message, username, password. */
  lemma ConnectBytes(o: Options)
    requires Typed(o)
    ensures var packet, at := Encode(o), 1 + |EncodeLength(Remaining(o))|;
      && |packet| >= at + 10
      && packet[0] == 0x10 && packet[1..at] == EncodeLength(Remaining(o))
      && packet[at..at + 7] == [0, 4, 0x4D, 0x51, 0x54, 0x54, 4]
      && packet[at + 7] == Flags(o)
      && packet[at + 8] as int * 256 + packet[at + 9] as int == o.keepAlive
      && packet[at + 10..] ==
           EncodeString(o.clientId)
           + (if o.willTopic.Some? && o.willMessage.Some? then
                EncodeString(o.willTopic.value) + EncodeString(o.willMessage.value) else [])
           + (if o.username.Some? then
                EncodeString(o.username.value)
                + (if o.password.Some? then EncodeString(o.password.value) else []) else [])
  {
    var digits, body := EncodeLength(Remaining(o)), Body(o);
    BodyFields(o);
    assert Encode(o) == [0x10] + digits + body;
    assert Encode(o)[1 + |digits|..] == body;
    assert body[10..] == EncodeStrings(Strings(o));
    OneByOne(o);
  }

  /** The strings as they follow each other. */
  lemma OneByOne(o: Options)
    ensures EncodeStrings(Strings(o)) ==
           EncodeString(o.clientId)
           + (if o.willTopic.Some? && o.willMessage.Some? then
                EncodeString(o.willTopic.value) + EncodeString(o.willMessage.value) else [])
           + (if o.username.Some? then
                EncodeString(o.username.value)
                + (if o.password.Some? then EncodeString(o.password.value) else []) else [])
  {
    var will := if HasWill(o) then [o.willTopic.value, o.willMessage.value] else [];
    var user := if o.username.Some? then [o.username.value] + (if o.password.Some? then [o.password.value] else [])
                else [];
    StringsCat([o.clientId] + will, user);
    StringsCat([o.clientId], will);
    One(o.clientId);
    if HasWill(o) { Two(o.willTopic.value, o.willMessage.value); }
    if o.username.Some? {
      if o.password.Some? { Two(o.username.value, o.password.value); } else { One(o.username.value); }
    }
  }

  lemma One(s: Bytes)
    ensures EncodeStrings([s]) == EncodeString(s)
  {
    assert [s][1..] == [];
  }

  lemma Two(s: Bytes, t: Bytes)
    ensures EncodeStrings([s, t]) == EncodeString(s) + EncodeString(t)
  {
    One(t);
    assert [s, t][1..] == [t];
  }

  lemma {:induction false} StringsCat(a: seq<Bytes>, b: seq<Bytes>)
    ensures EncodeStrings(a + b) == EncodeStrings(a) + EncodeStrings(b)
  {
    if a == [] {
      assert a + b == b;
    } else {
      assert (a + b)[1..] == a[1..] + b;
      StringsCat(a[1..], b);
    }
  }

  // ---------------------------------------------------------------- a reader driven by the flags

  /** The first count length-prefixed strings and what follows them. */
  function ReadStrings(buf: Bytes, count: nat): Option<(seq<Bytes>, Bytes)> {
    if count == 0 then Some(([], buf)) else
      match DecodeString(buf, UINT16_MOD)
      case None => None
      case Some((s, used)) =>
        match ReadStrings(buf[used..], count - 1)
        case None => None
        case Some((more, rest)) => Some(([s] + more, rest))
  }

  function Count(will: bool, user: bool, pass: bool): nat { 1 + Bit(will, 2) + Bit(user, 1) + Bit(pass, 1) }

  /** The connection the strings describe, given the flags. */
  function Assemble(f: byte, keepAlive: nat, strings: seq<Bytes>): Connect
    requires |strings| == Count(HasBit(f, 4), HasBit(f, 128), HasBit(f, 64)) && (HasBit(f, 64) ==> HasBit(f, 128))
  {
    var at := if HasBit(f, 4) then 3 else 1;
    Connect(strings[0], keepAlive, HasBit(f, 2),
            if HasBit(f, 4) then Some(Will(strings[1], strings[2], f as int / 8 % 4, HasBit(f, 32))) else None,
            if HasBit(f, 128) then
              Some(Credentials(strings[at], if HasBit(f, 64) then Some(strings[at + 1]) else None))
            else None)
  }

  predicate HasBit(f: byte, weight: nat)
    requires weight > 0
  {
    f as int / weight % 2 == 1
  }

  /** The body of a CONNECT packet, as section 3.1 lays it out. */
  function Read(body: Bytes): Option<Connect> {
    if |body| < 10 || body[..7] != [0, 4, 0x4D, 0x51, 0x54, 0x54, 4] then None else
      var f := body[7];
      var count := Count(HasBit(f, 4), HasBit(f, 128), HasBit(f, 64));
      match ReadStrings(body[10..], count)
      case None => None
      case Some((strings, rest)) =>
        if rest != [] || |strings| != count || (HasBit(f, 64) && !HasBit(f, 128)) then None
        else Some(Assemble(f, ReadU16(body[8], body[9]), strings))
  }

  /** Reading one string off the front. */
  lemma StringRead(s: Bytes, tail: Bytes, count: nat)
    requires |s| < UINT16_MOD && count > 0
    ensures ReadStrings(EncodeString(s) + tail, count) ==
      match ReadStrings(tail, count - 1)
      case None => None
      case Some((more, rest)) => Some(([s] + more, rest))
  {
    StringRoundTrip(s, tail, UINT16_MOD);
    assert (EncodeString(s) + tail)[|s| + 2..] == tail;
  }

  lemma {:induction false} StringsRead(strings: seq<Bytes>, rest: Bytes)
    requires Short(strings)
    ensures ReadStrings(EncodeStrings(strings) + rest, |strings|) == Some((strings, rest))
  {
    if strings == [] {
      assert [] + rest == rest;
    } else {
      var s, tail := strings[0], EncodeStrings(strings[1..]) + rest;
      assert s in strings;
      assert EncodeStrings(strings) + rest == EncodeString(s) + tail;
      StringRead(s, tail, |strings|);
      StringsRead(strings[1..], rest);
      assert [s] + strings[1..] == strings;
    }
  }

  lemma LowFlags(o: Options)
    requires Typed(o)
    ensures var f := Flags(o);
      && (HasBit(f, 2) <==> o.cleanSession)
      && (HasBit(f, 4) <==> HasWill(o))
      && (HasWill(o) ==> f as int / 8 % 4 == o.willQos)
  {
  }

  lemma HighFlags(o: Options)
    requires Typed(o)
    ensures var f := Flags(o);
      && (HasWill(o) ==> (HasBit(f, 32) <==> o.willRetain))
      && (HasBit(f, 64) <==> o.username.Some? && o.password.Some?)
      && (HasBit(f, 128) <==> o.username.Some?)
  {
  }

  lemma Assembled(o: Options)
    requires Typed(o)
    ensures var f := Flags(o);
      && |Strings(o)| == Count(HasBit(f, 4), HasBit(f, 128), HasBit(f, 64)) && (HasBit(f, 64) ==> HasBit(f, 128))
      && Assemble(f, o.keepAlive, Strings(o)) == Meaning(o)
  {
    LowFlags(o);
    HighFlags(o);
  }

  lemma BodyFields(o: Options)
    requires Typed(o)
    ensures var body := Body(o);
      && |body| >= 10 && body[..7] == PROTOCOL && body[7] == Flags(o)
      && ReadU16(body[8], body[9]) == o.keepAlive
      && body[10..] == EncodeStrings(Strings(o)) + []
  {
    var body, written := Body(o), EncodeStrings(Strings(o));
    assert body == PROTOCOL + ([Flags(o)] + U16(o.keepAlive) + written);
    assert U16(o.keepAlive)[0] == body[8] && U16(o.keepAlive)[1] == body[9];
  }

  lemma {:induction false} ReadIsShort(buf: Bytes, count: nat)
    ensures ReadStrings(buf, count).Some? ==> Short(ReadStrings(buf, count).value.0)
    decreases count
  {
    if count > 0 && DecodeString(buf, UINT16_MOD).Some? {
      ReadIsShort(buf[DecodeString(buf, UINT16_MOD).value.1..], count - 1);
    }
  }

  /** The strings are all there in what the packet means. */
  lemma AssembledFrom(o: Options, strings: seq<Bytes>)
    requires Typed(o) && |strings| == |Strings(o)|
    requires var f := Flags(o);
      && |strings| == Count(HasBit(f, 4), HasBit(f, 128), HasBit(f, 64)) && (HasBit(f, 64) ==> HasBit(f, 128))
      && Assemble(f, o.keepAlive, strings) == Meaning(o)
    ensures strings == Strings(o)
  {
    LowFlags(o);
    HighFlags(o);
    forall i | 0 <= i < |strings| ensures strings[i] == Strings(o)[i] {}
  }

  lemma BodyRead(o: Options)
    requires Typed(o)
    ensures Read(Body(o)) == Some(Meaning(o)) <==> Short(Strings(o))
  {
    BodyFields(o);
    Assembled(o);
    if Short(Strings(o)) { StringsRead(Strings(o), []); }
    if Read(Body(o)) == Some(Meaning(o)) {
      ReadIsShort(Body(o)[10..], |Strings(o)|);
      AssembledFrom(o, ReadStrings(Body(o)[10..], |Strings(o)|).value.0);
    }
  }

  /** A CONNECT packet at the front of a buffer, and what follows it. */
  function ReadConnect(buf: Bytes): Option<(Connect, Bytes)> {
    match ReadPacket(0x10, buf)
    case None => None
    case Some((body, rest)) => if Read(body).None? then None else Some((Read(body).value, rest))
  }

  /** What a reader takes from any body has no long string. */
  lemma ReadsShort(body: Bytes, o: Options)
    requires Typed(o) && Read(body) == Some(Meaning(o))
    ensures Short(Strings(o))
  {
    var f := body[7];
    var count := Count(HasBit(f, 4), HasBit(f, 128), HasBit(f, 64));
    var strings := ReadStrings(body[10..], count).value.0;
    ReadIsShort(body[10..], count);
    forall s | s in Strings(o) ensures s in strings {}
  }

  /** For every combination of optional fields and whatever follows the packet, a reader that cuts off the announced
      number of bytes recovers exactly what the options mean, if and only if no string exceeds 65,535 bytes. */
  lemma ConnectRoundTrip(o: Options, rest: Bytes)
    requires Typed(o)
    ensures ReadConnect(Encode(o) + rest) == Some((Meaning(o), rest)) <==> Short(Strings(o))
  {
    PacketRead(CONNECT_FIRST, Remaining(o), Body(o), rest);
    if Short(Strings(o)) {
      ConnectFits(o);
      StringsWritten(Strings(o));
      BodyRead(o);
    } else if ReadConnect(Encode(o) + rest).Some? && ReadConnect(Encode(o) + rest).value.0 == Meaning(o) {
      ReadsShort(ReadPacket(0x10, Encode(o) + rest).value.0, o);
    }
  }
}
