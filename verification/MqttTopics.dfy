// SUBSCRIBE and UNSUBSCRIBE packets (sections 3.8.3 and 3.10.3 of MQTT 3.1.1).
module MqttTopics {
  import opened Octets
  import opened Wrappers
  import opened MqttWire
  import MqttConnect

  /** mqtt_topic_filter_t */
  datatype Filter = Filter(topic: Bytes, qos: nat)

  const SUBSCRIBE_FIRST: byte := 0x82
  const UNSUBSCRIBE_FIRST: byte := 0xA2

  predicate Typed(filters: seq<Filter>) { forall f | f in filters :: f.qos <= 2 }

  function FilterLengths(filters: seq<Filter>): nat {
    if filters == [] then 0 else 2 + |filters[0].topic| + 1 + FilterLengths(filters[1..])
  }

  function EncodeFilters(filters: seq<Filter>): Bytes
    requires Typed(filters)
  {
    if filters == [] then [] else
      assert filters[0] in filters;
      EncodeString(filters[0].topic) + [filters[0].qos] + EncodeFilters(filters[1..])
  }

  /** mqtt_encode_subscribe. */
  function EncodeSubscribe(packetId: nat, filters: seq<Filter>): Bytes
    requires Typed(filters)
  {
    [SUBSCRIBE_FIRST] + EncodeLength(2 + FilterLengths(filters)) + SubscribeBody(packetId, filters)
  }

  function SubscribeBody(packetId: nat, filters: seq<Filter>): Bytes
    requires Typed(filters)
  {
    U16(packetId) + EncodeFilters(filters)
  }

  /** mqtt_encode_unsubscribe. */
  function EncodeUnsubscribe(packetId: nat, topics: seq<Bytes>): Bytes {
    [UNSUBSCRIBE_FIRST] + EncodeLength(2 + MqttConnect.Prefixed(topics)) + UnsubscribeBody(packetId, topics)
  }

  function UnsubscribeBody(packetId: nat, topics: seq<Bytes>): Bytes {
    U16(packetId) + MqttConnect.EncodeStrings(topics)
  }

  /** The bytes of both packets: the type with its reserved bits, the digits of the length, the packet identifier with
      its high byte first, and then each topic, in a SUBSCRIBE with its QoS behind it. */
  lemma FirstBytes(packetId: nat, filters: seq<Filter>, topics: seq<Bytes>)
    requires packetId < 0x1_0000 && Typed(filters)
    ensures EncodeSubscribe(packetId, filters) ==
            [0x82] + EncodeLength(2 + FilterLengths(filters))
            + ([packetId / 256, packetId % 256] + EncodeFilters(filters))
    ensures EncodeUnsubscribe(packetId, topics) ==
            [0xA2] + EncodeLength(2 + MqttConnect.Prefixed(topics))
            + ([packetId / 256, packetId % 256] + MqttConnect.EncodeStrings(topics))
  {
  }

  /** One topic filter: the topic behind its length, then its QoS. */
  lemma FilterBytes(filters: seq<Filter>)
    requires Typed(filters) && filters != [] && |filters[0].topic| < 0x1_0000
    ensures filters[0].qos <= 2
    ensures var f := filters[0];
      EncodeFilters(filters) ==
        ([|f.topic| / 256, |f.topic| % 256] + f.topic) + [f.qos] + EncodeFilters(filters[1..])
  {
    assert filters[0] in filters;
    StringBytes(filters[0].topic);
  }

  predicate Short(filters: seq<Filter>) { forall f | f in filters :: |f.topic| < UINT16_MOD }

  lemma {:induction false} FiltersWritten(filters: seq<Filter>)
    requires Typed(filters)
    ensures |EncodeFilters(filters)| <= FilterLengths(filters)
    ensures |EncodeFilters(filters)| == FilterLengths(filters) <==> Short(filters)
  {
    if filters != [] {
      FiltersWritten(filters[1..]);
      MqttConnect.StringWritten(filters[0].topic);
      assert filters == [filters[0]] + filters[1..];
    }
  }

  /** For topic lists of any length, the digits written after the first loop stand for what the second writes iff
      every topic fits 16 bits and the sum fits four digits. */
  lemma SubscribeLength(packetId: nat, filters: seq<Filter>)
    requires Typed(filters)
    ensures var d := EncodeLength(2 + FilterLengths(filters));
      WellFormed(d) && Value(d) == |SubscribeBody(packetId, filters)| <==>
        Short(filters) && 2 + FilterLengths(filters) < Pow128(4)
  {
    FiltersWritten(filters);
    LengthAnnounces(2 + FilterLengths(filters), |SubscribeBody(packetId, filters)|);
  }

  lemma UnsubscribeLength(packetId: nat, topics: seq<Bytes>)
    ensures var d := EncodeLength(2 + MqttConnect.Prefixed(topics));
      WellFormed(d) && Value(d) == |UnsubscribeBody(packetId, topics)| <==>
        MqttConnect.Short(topics) && 2 + MqttConnect.Prefixed(topics) < Pow128(4)
  {
    MqttConnect.StringsWritten(topics);
    LengthAnnounces(2 + MqttConnect.Prefixed(topics), |UnsubscribeBody(packetId, topics)|);
  }

  function Copies<T>(x: T, n: nat): (r: seq<T>)
    ensures |r| == n && forall y | y in r :: y == x
  {
    if n == 0 then [] else [x] + Copies(x, n - 1)
  }

  lemma {:induction false} CopiesLength(f: Filter, n: nat)
    ensures FilterLengths(Copies(f, n)) == n * (3 + |f.topic|)
    ensures MqttConnect.Prefixed(Copies(f.topic, n)) == n * (2 + |f.topic|)
  {
    if n > 0 {
      CopiesLength(f, n - 1);
      assert Copies(f, n)[1..] == Copies(f, n - 1);
      assert Copies(f.topic, n)[1..] == Copies(f.topic, n - 1);
    }
  }

  /** 4,097 topics of 65,535 bytes: every topic fits, and yet the announced digits never end. */
  lemma TooManyTopics()
    ensures var f := Filter(MqttConnect.Letters(65535), 0);
      var filters, topics := Copies(f, 4097), Copies(f.topic, 4097);
      && Typed(filters) && Short(filters) && MqttConnect.Short(topics)
      && !WellFormed(EncodeLength(2 + FilterLengths(filters)))
      && !WellFormed(EncodeLength(2 + MqttConnect.Prefixed(topics)))
  {
    var f := Filter(MqttConnect.Letters(65535), 0);
    CopiesLength(f, 4097);
    var n, m := 2 + FilterLengths(Copies(f, 4097)), 2 + MqttConnect.Prefixed(Copies(f.topic, 4097));
    Powers();
    LengthAnnounces(n, if WellFormed(EncodeLength(n)) then Value(EncodeLength(n)) else 0);
    LengthAnnounces(m, if WellFormed(EncodeLength(m)) then Value(EncodeLength(m)) else 0);
  }

  // ---------------------------------------------------------------- reading back

  function ReadFilters(buf: Bytes): Option<seq<Filter>>
    decreases |buf|
  {
    if buf == [] then Some([]) else
      match DecodeString(buf, UINT16_MOD)
      case None => None
      case Some((topic, used)) =>
        if |buf| <= used then None else
          match ReadFilters(buf[used + 1..])
          case None => None
          case Some(more) => Some([Filter(topic, buf[used])] + more)
  }

  function ReadSubscribe(body: Bytes): Option<(nat, seq<Filter>)> {
    if |body| < 2 || ReadFilters(body[2..]).None? then None
    else Some((ReadU16(body[0], body[1]), ReadFilters(body[2..]).value))
  }

  function ReadTopics(buf: Bytes): Option<seq<Bytes>>
    decreases |buf|
  {
    if buf == [] then Some([]) else
      match DecodeString(buf, UINT16_MOD)
      case None => None
      case Some((topic, used)) =>
        match ReadTopics(buf[used..])
        case None => None
        case Some(more) => Some([topic] + more)
  }

  function ReadUnsubscribe(body: Bytes): Option<(nat, seq<Bytes>)> {
    if |body| < 2 || ReadTopics(body[2..]).None? then None
    else Some((ReadU16(body[0], body[1]), ReadTopics(body[2..]).value))
  }

  lemma {:induction false} FiltersRead(filters: seq<Filter>)
    requires Typed(filters) && Short(filters)
    ensures ReadFilters(EncodeFilters(filters)) == Some(filters)
  {
    if filters != [] {
      var f := filters[0];
      assert f in filters;
      var more := EncodeFilters(filters[1..]);
      var tail := [f.qos] + more;
      var buf := EncodeFilters(filters);
      assert buf == EncodeString(f.topic) + tail;
      StringRoundTrip(f.topic, tail, UINT16_MOD);
      assert buf[|f.topic| + 2] == f.qos;
      assert buf[|f.topic| + 3..] == more;
      FiltersRead(filters[1..]);
      assert [f] + filters[1..] == filters;
    }
  }

  lemma {:induction false} FiltersReadShort(buf: Bytes)
    ensures ReadFilters(buf).Some? ==> Short(ReadFilters(buf).value)
    decreases |buf|
  {
    if ReadFilters(buf).Some? && buf != [] {
      FiltersReadShort(buf[DecodeString(buf, UINT16_MOD).value.1 + 1..]);
    }
  }

  /** A SUBSCRIBE packet at the front of a buffer, and what follows it. */
  function ReadSubscribePacket(buf: Bytes): Option<((nat, seq<Filter>), Bytes)> {
    match ReadPacket(0x82, buf)
    case None => None
    case Some((body, rest)) => if ReadSubscribe(body).None? then None else Some((ReadSubscribe(body).value, rest))
  }

  lemma SubscribeBodyRead(packetId: nat, filters: seq<Filter>)
    requires packetId < UINT16_MOD && Typed(filters) && Short(filters)
    ensures ReadSubscribe(SubscribeBody(packetId, filters)) == Some((packetId, filters))
  {
    U16Fields(packetId, EncodeFilters(filters));
    FiltersRead(filters);
  }

  /** Whatever follows the packet, a reader that cuts off the announced number of bytes gets packet identifier, topics
      and QoS in order if and only if every topic fits 16 bits and the length four digits. */
  lemma SubscribeRoundTrip(packetId: nat, filters: seq<Filter>, rest: Bytes)
    requires packetId < UINT16_MOD && Typed(filters)
    ensures ReadSubscribePacket(EncodeSubscribe(packetId, filters) + rest) == Some(((packetId, filters), rest)) <==>
            Short(filters) && 2 + FilterLengths(filters) < Pow128(4)
  {
    var n, buf := 2 + FilterLengths(filters), EncodeSubscribe(packetId, filters) + rest;
    PacketRead(SUBSCRIBE_FIRST, n, SubscribeBody(packetId, filters), rest);
    if Short(filters) && n < Pow128(4) {
      FiltersWritten(filters);
      SubscribeBodyRead(packetId, filters);
    } else if ReadSubscribePacket(buf).Some? {
      FiltersReadShort(ReadPacket(0x82, buf).value.0[2..]);
    }
  }

  lemma {:induction false} TopicsRead(topics: seq<Bytes>)
    requires MqttConnect.Short(topics)
    ensures ReadTopics(MqttConnect.EncodeStrings(topics)) == Some(topics)
  {
    if topics != [] {
      var s := topics[0];
      assert s in topics;
      var more := MqttConnect.EncodeStrings(topics[1..]);
      StringRoundTrip(s, more, UINT16_MOD);
      assert (EncodeString(s) + more)[|s| + 2..] == more;
      TopicsRead(topics[1..]);
      assert [s] + topics[1..] == topics;
    }
  }

  lemma {:induction false} TopicsReadShort(buf: Bytes)
    ensures ReadTopics(buf).Some? ==> MqttConnect.Short(ReadTopics(buf).value)
    decreases |buf|
  {
    if ReadTopics(buf).Some? && buf != [] {
      TopicsReadShort(buf[DecodeString(buf, UINT16_MOD).value.1..]);
    }
  }

  function ReadUnsubscribePacket(buf: Bytes): Option<((nat, seq<Bytes>), Bytes)> {
    match ReadPacket(0xA2, buf)
    case None => None
    case Some((body, rest)) => if ReadUnsubscribe(body).None? then None else Some((ReadUnsubscribe(body).value, rest))
  }

  lemma UnsubscribeBodyRead(packetId: nat, topics: seq<Bytes>)
    requires packetId < UINT16_MOD && MqttConnect.Short(topics)
    ensures ReadUnsubscribe(UnsubscribeBody(packetId, topics)) == Some((packetId, topics))
  {
    U16Fields(packetId, MqttConnect.EncodeStrings(topics));
    TopicsRead(topics);
  }

  lemma UnsubscribeRoundTrip(packetId: nat, topics: seq<Bytes>, rest: Bytes)
    requires packetId < UINT16_MOD
    ensures ReadUnsubscribePacket(EncodeUnsubscribe(packetId, topics) + rest) == Some(((packetId, topics), rest)) <==>
            MqttConnect.Short(topics) && 2 + MqttConnect.Prefixed(topics) < Pow128(4)
  {
    var n, buf := 2 + MqttConnect.Prefixed(topics), EncodeUnsubscribe(packetId, topics) + rest;
    PacketRead(UNSUBSCRIBE_FIRST, n, UnsubscribeBody(packetId, topics), rest);
    if MqttConnect.Short(topics) && n < Pow128(4) {
      MqttConnect.StringsWritten(topics);
      UnsubscribeBodyRead(packetId, topics);
    } else if ReadUnsubscribePacket(buf).Some? {
      TopicsReadShort(ReadPacket(0xA2, buf).value.0[2..]);
    }
  }
}
