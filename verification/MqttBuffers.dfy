// mqtt_encoder.c and mqtt_decoder.c in place: bytes written at a moving position, loops over lengths and topics.
module MqttBuffers {
  import opened Octets
  import opened Slices
  import opened Wrappers
  import opened MqttWire
  import MqttPublish
  import MqttConnect
  import MqttTopics

  /** The buffer starts with done; from there on it is as it was. */
  ghost predicate Written(buf: Bytes, was: Bytes, done: Bytes) {
    |done| <= |was| && buf == done + was[|done|..]
  }

  /** buf[pos++] = b */
  method Put(buf: array<byte>, pos: nat, b: byte, ghost was: Bytes, ghost done: Bytes) returns (next: nat)
    requires Written(buf[..], was, done) && pos == |done| < buf.Length
    modifies buf
    ensures Written(buf[..], was, done + [b]) && next == |done + [b]|
  {
    buf[pos] := b;
    next := pos + 1;
  }

  /** memcpy(buf + pos, bytes, length) */
  method Copy(buf: array<byte>, pos: nat, bytes: Bytes, ghost was: Bytes, ghost done: Bytes) returns (next: nat)
    requires Written(buf[..], was, done) && pos == |done| && pos + |bytes| <= buf.Length
    modifies buf
    ensures Written(buf[..], was, done + bytes) && next == |done + bytes|
  {
    forall i | 0 <= i < |bytes| { buf[pos + i] := bytes[i]; }
    next := pos + |bytes|;
  }

  /** Appending the digit b keeps what is written and what is still to come in step. */
  lemma DigitWritten(done: Bytes, written: Bytes, b: byte, more: Bytes)
    ensures done + written + [b] == done + (written + [b])
    ensures written + ([b] + more) == written + [b] + more
  {
  }

  /** encode_remaining_length */
  method PutLength(length: nat, buf: array<byte>, pos: nat, ghost was: Bytes, ghost done: Bytes) returns (next: nat)
    requires Written(buf[..], was, done) && pos == |done| && pos + |EncodeLength(length)| <= buf.Length
    modifies buf
    ensures Written(buf[..], was, done + EncodeLength(length)) && next == |done + EncodeLength(length)|
  {
    ghost var all, written: Bytes := EncodeLength(length), [];
    var encoded, n, more := 0, length, true;
    next := pos;
    assert written + all == all && done + written == done;
    while more
      invariant 0 <= encoded <= 4 && next == |done + written| && encoded == |written| <= |all|
      invariant more ==> encoded < 4 && all == written + Digits(n, 4 - encoded)
      invariant !more ==> all == written
      invariant Written(buf[..], was, done + written)
      decreases 4 - encoded, more
    {
      var b: int := n % 128;
      ghost var rest := Digits(n, 4 - encoded);
      n := n / 128;
      if n > 0 { b := b + 128; }
      encoded := encoded + 1;
      more := n > 0 && encoded < 4;
      ghost var later: Bytes := if more then Digits(n, 4 - encoded) else [];
      assert rest == [b] + later;
      DigitWritten(done, written, b, later);
      next := Put(buf, next, b, was, done + written);
      written := written + [b];
      assert written + later == all;
      assert !more ==> written == all;
    }
  }

  method PutU16(n: nat, buf: array<byte>, pos: nat, ghost was: Bytes, ghost done: Bytes) returns (next: nat)
    requires Written(buf[..], was, done) && pos == |done| && pos + 2 <= buf.Length
    modifies buf
    ensures Written(buf[..], was, done + U16(n)) && next == |done + U16(n)|
  {
    next := Put(buf, pos, n / 256 % 256, was, done);
    next := Put(buf, next, n % 256, was, done + [n / 256 % 256]);
    assert done + [n / 256 % 256] + [n % 256] == done + U16(n);
  }

  /** encode_string */
  method PutString(s: Bytes, buf: array<byte>, pos: nat, ghost was: Bytes, ghost done: Bytes) returns (next: nat)
    requires Written(buf[..], was, done) && pos == |done| && pos + |EncodeString(s)| <= buf.Length
    modifies buf
    ensures Written(buf[..], was, done + EncodeString(s)) && next == |done + EncodeString(s)|
  {
    var length := |s| % UINT16_MOD;
    next := PutU16(length, buf, pos, was, done);
    next := Copy(buf, next, s[..length], was, done + U16(length));
    assert done + U16(length) + s[..length] == done + EncodeString(s);
  }

  // ---------------------------------------------------------------- packets
  // The source checks for a few bytes only and then writes on, also behind the buffer. Sent holds the position it
  // returns, Refused stands for -1, and PastEnd for a packet the buffer cannot hold; nothing is written then.

  datatype Outcome = Sent(size: nat) | Refused | PastEnd

  /** What becomes of a packet in a buffer of which the encoder asks for least bytes. */
  function OutcomeOf(packet: Bytes, least: nat, room: nat): Outcome {
    if room < least then Refused else if room < |packet| then PastEnd else Sent(|packet|)
  }

  /** Fixed header: the first byte and the remaining length. */
  method PutFixedHeader(first: byte, remaining: nat, buf: array<byte>) returns (next: nat)
    requires 1 + |EncodeLength(remaining)| <= buf.Length
    modifies buf
    ensures Written(buf[..], old(buf[..]), [first] + EncodeLength(remaining)) && next == 1 + |EncodeLength(remaining)|
  {
    ghost var was := buf[..];
    next := Put(buf, 0, first, was, []);
    assert [] + [first] == [first];
    next := PutLength(remaining, buf, next, was, [first]);
  }

  /** mqtt_encode_publish */
  method PutPublish(m: MqttPublish.Message, packetId: nat, buf: array<byte>) returns (r: Outcome)
    requires m.qos <= 2
    modifies buf
    ensures r == OutcomeOf(MqttPublish.Encode(m, packetId), 2, buf.Length)
    ensures Written(buf[..], old(buf[..]), if r.Sent? then MqttPublish.Encode(m, packetId) else [])
  {
    if buf.Length < 2 { return Refused; }
    if buf.Length < |MqttPublish.Encode(m, packetId)| { return PastEnd; }
    ghost var was := buf[..];
    var header: int := MqttPublish.PUBLISH * 16;
    if m.dup { header := header + 8; }
    header := header + 2 * m.qos;
    if m.retain { header := header + 1; }

    var remaining := 2 + |m.topic|;
    if m.qos > 0 { remaining := remaining + 2; }
    remaining := remaining + |m.payload|;
    var pos := PutFixedHeader(header, remaining, buf);
    pos := PutPublishBody(m, packetId, buf, pos, was, [header] + EncodeLength(remaining));
    r := Sent(pos);
  }

  method PutPublishBody(m: MqttPublish.Message, packetId: nat, buf: array<byte>, pos: nat,
                        ghost was: Bytes, ghost done: Bytes) returns (next: nat)
    requires Written(buf[..], was, done) && pos == |done|
    requires pos + |MqttPublish.Body(m, packetId)| <= buf.Length
    modifies buf
    ensures Written(buf[..], was, done + MqttPublish.Body(m, packetId))
    ensures next == |done + MqttPublish.Body(m, packetId)|
  {
    ghost var id := if m.qos > 0 then U16(packetId) else [];
    next := PutString(m.topic, buf, pos, was, done);
    ghost var mid := done + EncodeString(m.topic);
    if m.qos > 0 {
      next := PutU16(packetId, buf, next, was, mid);
    } else {
      assert mid + id == mid;
    }
    next := Copy(buf, next, m.payload, was, mid + id);
    assert mid + id + m.payload == done + MqttPublish.Body(m, packetId);
  }

  /** The strings from i on start with the i-th. */
  lemma StringAt(strings: seq<Bytes>, i: nat)
    requires i < |strings|
    ensures MqttConnect.EncodeStrings(strings[i..]) ==
            EncodeString(strings[i]) + MqttConnect.EncodeStrings(strings[i + 1..])
  {
    assert strings[i..][1..] == strings[i + 1..];
  }

  /** The second loop of mqtt_encode_unsubscribe. */
  method PutStrings(strings: seq<Bytes>, buf: array<byte>, pos: nat, ghost was: Bytes, ghost done: Bytes)
    returns (next: nat)
    requires Written(buf[..], was, done) && pos == |done|
    requires pos + |MqttConnect.EncodeStrings(strings)| <= buf.Length
    modifies buf
    ensures Written(buf[..], was, done + MqttConnect.EncodeStrings(strings))
    ensures next == |done + MqttConnect.EncodeStrings(strings)|
  {
    next := pos;
    var i := 0;
    ghost var all: Bytes, written: Bytes := MqttConnect.EncodeStrings(strings), [];
    while i < |strings|
      invariant 0 <= i <= |strings|
      invariant all == written + MqttConnect.EncodeStrings(strings[i..])
      invariant Written(buf[..], was, done + written) && next == |done + written|
    {
      StringAt(strings, i);
      ghost var one := EncodeString(strings[i]);
      Regroup(written, one, MqttConnect.EncodeStrings(strings[i + 1..]));
      Regroup(done, written, one);
      next := PutString(strings[i], buf, next, was, done + written);
      written := written + one;
      i := i + 1;
    }
    assert all == written;
  }

  /** The first loop of mqtt_encode_unsubscribe. */
  method SumStrings(strings: seq<Bytes>) returns (sum: nat)
    ensures sum == MqttConnect.Prefixed(strings)
  {
    sum := 0;
    var i := 0;
    while i < |strings|
      invariant 0 <= i <= |strings|
      invariant sum + MqttConnect.Prefixed(strings[i..]) == MqttConnect.Prefixed(strings)
    {
      assert strings[i..][1..] == strings[i + 1..];
      sum := sum + 2 + |strings[i]|;
      i := i + 1;
    }
  }

  method PutUnsubscribeBody(packetId: nat, topics: seq<Bytes>, buf: array<byte>, pos: nat,
                            ghost was: Bytes, ghost done: Bytes) returns (next: nat)
    requires Written(buf[..], was, done) && pos == |done|
    requires pos + |MqttTopics.UnsubscribeBody(packetId, topics)| <= buf.Length
    modifies buf
    ensures Written(buf[..], was, done + MqttTopics.UnsubscribeBody(packetId, topics))
    ensures next == |done + MqttTopics.UnsubscribeBody(packetId, topics)|
  {
    next := PutU16(packetId, buf, pos, was, done);
    next := PutStrings(topics, buf, next, was, done + U16(packetId));
    Regroup(done, U16(packetId), MqttConnect.EncodeStrings(topics));
  }

  /** mqtt_encode_unsubscribe */
  method PutUnsubscribe(packetId: nat, topics: seq<Bytes>, buf: array<byte>) returns (r: Outcome)
    modifies buf
    ensures r == if topics == [] then Refused
                 else OutcomeOf(MqttTopics.EncodeUnsubscribe(packetId, topics), 2, buf.Length)
    ensures Written(buf[..], old(buf[..]), if r.Sent? then MqttTopics.EncodeUnsubscribe(packetId, topics) else [])
  {
    if buf.Length < 2 || topics == [] { return Refused; }
    if buf.Length < |MqttTopics.EncodeUnsubscribe(packetId, topics)| { return PastEnd; }
    ghost var was := buf[..];
    var sum := SumStrings(topics);
    var pos := PutFixedHeader(MqttTopics.UNSUBSCRIBE_FIRST, 2 + sum, buf);
    pos := PutUnsubscribeBody(packetId, topics, buf, pos, was, [MqttTopics.UNSUBSCRIBE_FIRST] + EncodeLength(2 + sum));
    r := Sent(pos);
  }

  /** Topic and QoS of one filter. */
  method PutFilter(f: MqttTopics.Filter, buf: array<byte>, pos: nat, ghost was: Bytes, ghost done: Bytes)
    returns (next: nat)
    requires f.qos <= 2 && Written(buf[..], was, done) && pos == |done|
    requires pos + |EncodeString(f.topic) + [f.qos]| <= buf.Length
    modifies buf
    ensures Written(buf[..], was, done + (EncodeString(f.topic) + [f.qos]))
    ensures next == |done + (EncodeString(f.topic) + [f.qos])|
  {
    next := PutString(f.topic, buf, pos, was, done);
    next := Put(buf, next, f.qos, was, done + EncodeString(f.topic));
    Regroup(done, EncodeString(f.topic), [f.qos]);
  }

  /** The filters from i on start with the i-th. */
  lemma FilterAt(filters: seq<MqttTopics.Filter>, i: nat)
    requires MqttTopics.Typed(filters) && i < |filters|
    ensures filters[i].qos <= 2
    ensures MqttTopics.EncodeFilters(filters[i..]) ==
            EncodeString(filters[i].topic) + [filters[i].qos] + MqttTopics.EncodeFilters(filters[i + 1..])
  {
    assert filters[i] in filters && filters[i..][1..] == filters[i + 1..];
  }

  /** The second loop of mqtt_encode_subscribe. */
  method PutFilters(filters: seq<MqttTopics.Filter>, buf: array<byte>, pos: nat, ghost was: Bytes, ghost done: Bytes)
    returns (next: nat)
    requires MqttTopics.Typed(filters) && Written(buf[..], was, done) && pos == |done|
    requires pos + |MqttTopics.EncodeFilters(filters)| <= buf.Length
    modifies buf
    ensures Written(buf[..], was, done + MqttTopics.EncodeFilters(filters))
    ensures next == |done + MqttTopics.EncodeFilters(filters)|
  {
    next := pos;
    var i := 0;
    ghost var all: Bytes, written: Bytes := MqttTopics.EncodeFilters(filters), [];
    while i < |filters|
      invariant 0 <= i <= |filters|
      invariant all == written + MqttTopics.EncodeFilters(filters[i..])
      invariant Written(buf[..], was, done + written) && next == |done + written|
    {
      FilterAt(filters, i);
      ghost var one := EncodeString(filters[i].topic) + [filters[i].qos];
      Regroup(written, one, MqttTopics.EncodeFilters(filters[i + 1..]));
      Regroup(done, written, one);
      next := PutFilter(filters[i], buf, next, was, done + written);
      written := written + one;
      i := i + 1;
    }
    assert all == written;
  }

  /** The first loop of mqtt_encode_subscribe. */
  method SumFilters(filters: seq<MqttTopics.Filter>) returns (sum: nat)
    ensures sum == MqttTopics.FilterLengths(filters)
  {
    sum := 0;
    var i := 0;
    while i < |filters|
      invariant 0 <= i <= |filters|
      invariant sum + MqttTopics.FilterLengths(filters[i..]) == MqttTopics.FilterLengths(filters)
    {
      assert filters[i..][1..] == filters[i + 1..];
      sum := sum + 2 + |filters[i].topic| + 1;
      i := i + 1;
    }
  }

  method PutSubscribeBody(packetId: nat, filters: seq<MqttTopics.Filter>, buf: array<byte>, pos: nat,
                          ghost was: Bytes, ghost done: Bytes) returns (next: nat)
    requires MqttTopics.Typed(filters) && Written(buf[..], was, done) && pos == |done|
    requires pos + |MqttTopics.SubscribeBody(packetId, filters)| <= buf.Length
    modifies buf
    ensures Written(buf[..], was, done + MqttTopics.SubscribeBody(packetId, filters))
    ensures next == |done + MqttTopics.SubscribeBody(packetId, filters)|
  {
    next := PutU16(packetId, buf, pos, was, done);
    next := PutFilters(filters, buf, next, was, done + U16(packetId));
    Regroup(done, U16(packetId), MqttTopics.EncodeFilters(filters));
  }

  /** mqtt_encode_subscribe */
  method PutSubscribe(packetId: nat, filters: seq<MqttTopics.Filter>, buf: array<byte>) returns (r: Outcome)
    requires MqttTopics.Typed(filters)
    modifies buf
    ensures r == if filters == [] then Refused
                 else OutcomeOf(MqttTopics.EncodeSubscribe(packetId, filters), 2, buf.Length)
    ensures Written(buf[..], old(buf[..]), if r.Sent? then MqttTopics.EncodeSubscribe(packetId, filters) else [])
  {
    if buf.Length < 2 || filters == [] { return Refused; }
    if buf.Length < |MqttTopics.EncodeSubscribe(packetId, filters)| { return PastEnd; }
    ghost var was := buf[..];
    var sum := SumFilters(filters);
    var pos := PutFixedHeader(MqttTopics.SUBSCRIBE_FIRST, 2 + sum, buf);
    pos := PutSubscribeBody(packetId, filters, buf, pos, was, [MqttTopics.SUBSCRIBE_FIRST] + EncodeLength(2 + sum));
    r := Sent(pos);
  }

  /** The length computation of mqtt_encode_connect. */
  method ConnectRemaining(o: MqttConnect.Options) returns (remaining: nat)
    ensures remaining == MqttConnect.Remaining(o)
  {
    remaining := 10;
    remaining := remaining + 2 + |o.clientId|;
    if o.willTopic.Some? && o.willMessage.Some? {
      remaining := remaining + 2 + |o.willTopic.value|;
      remaining := remaining + 2 + |o.willMessage.value|;
    }
    if o.username.Some? {
      remaining := remaining + 2 + |o.username.value|;
      if o.password.Some? {
        remaining := remaining + 2 + |o.password.value|;
      }
    }
    PrefixedParts(o);
  }

  lemma PrefixedParts(o: MqttConnect.Options)
    ensures MqttConnect.Prefixed(MqttConnect.Strings(o)) ==
      2 + |o.clientId|
      + (if MqttConnect.HasWill(o) then 4 + |o.willTopic.value| + |o.willMessage.value| else 0)
      + (if o.username.Some? then 2 + |o.username.value|
                                  + (if o.password.Some? then 2 + |o.password.value| else 0) else 0)
  {
    var credentials := Credentials(o);
    var will := if MqttConnect.HasWill(o) then [o.willTopic.value, o.willMessage.value] else [];
    assert MqttConnect.Strings(o) == [o.clientId] + (will + credentials);
    PrefixedCat([o.clientId], will + credentials);
    PrefixedCat(will, credentials);
    if MqttConnect.HasWill(o) { PrefixedCat([o.willTopic.value], [o.willMessage.value]); }
    if o.username.Some? && o.password.Some? { PrefixedCat([o.username.value], [o.password.value]); }
  }

  function Credentials(o: MqttConnect.Options): seq<Bytes> {
    if o.username.Some? then [o.username.value] + (if o.password.Some? then [o.password.value] else []) else []
  }

  lemma {:induction false} PrefixedCat(a: seq<Bytes>, b: seq<Bytes>)
    ensures MqttConnect.Prefixed(a + b) == MqttConnect.Prefixed(a) + MqttConnect.Prefixed(b)
  {
    if a == [] {
      assert a + b == b;
    } else {
      assert (a + b)[1..] == a[1..] + b;
      PrefixedCat(a[1..], b);
    }
  }

  /** The flag computation of mqtt_encode_connect; the bits it sets never coincide. */
  method ConnectFlags(o: MqttConnect.Options) returns (flags: byte)
    requires MqttConnect.Typed(o)
    ensures flags == MqttConnect.Flags(o)
  {
    var f: int := 0;
    if o.cleanSession { f := f + 0x02; }
    if o.willTopic.Some? && o.willMessage.Some? {
      f := f + 0x04;
      f := f + o.willQos * 8;
      if o.willRetain { f := f + 0x20; }
    }
    if o.username.Some? {
      f := f + 0x80;
      if o.password.Some? { f := f + 0x40; }
    }
    flags := f;
  }

  method PutConnectBody(o: MqttConnect.Options, buf: array<byte>, pos: nat, ghost was: Bytes, ghost done: Bytes)
    returns (next: nat)
    requires MqttConnect.Typed(o) && Written(buf[..], was, done) && pos == |done|
    requires pos + |MqttConnect.Body(o)| <= buf.Length
    modifies buf
    ensures Written(buf[..], was, done + MqttConnect.Body(o)) && next == |done + MqttConnect.Body(o)|
  {
    next := PutConnectFields(o, buf, pos, was, done);
    next := PutConnectStrings(o, buf, next, was, done + ConnectFields(o));
    Regroup(done, ConnectFields(o), MqttConnect.EncodeStrings(MqttConnect.Strings(o)));
  }

  /** mqtt_encode_connect */
  method PutConnect(o: MqttConnect.Options, buf: array<byte>) returns (r: Outcome)
    requires MqttConnect.Typed(o)
    modifies buf
    ensures r == OutcomeOf(MqttConnect.Encode(o), 10, buf.Length)
    ensures Written(buf[..], old(buf[..]), if r.Sent? then MqttConnect.Encode(o) else [])
  {
    if buf.Length < 10 { return Refused; }
    if buf.Length < |MqttConnect.Encode(o)| { return PastEnd; }
    ghost var was := buf[..];
    var remaining := ConnectRemaining(o);
    var pos := PutFixedHeader(MqttConnect.CONNECT_FIRST, remaining, buf);
    pos := PutConnectBody(o, buf, pos, was, [MqttConnect.CONNECT_FIRST] + EncodeLength(remaining));
    r := Sent(pos);
  }

  ghost function ConnectFields(o: MqttConnect.Options): (r: Bytes)
    requires MqttConnect.Typed(o)
    ensures |r| == 10 && MqttConnect.Body(o) == r + MqttConnect.EncodeStrings(MqttConnect.Strings(o))
  {
    MqttConnect.PROTOCOL + [MqttConnect.Flags(o)] + U16(o.keepAlive)
  }

  /** Protocol name and level, flags, keep-alive. */
  method PutConnectFields(o: MqttConnect.Options, buf: array<byte>, pos: nat, ghost was: Bytes, ghost done: Bytes)
    returns (next: nat)
    requires MqttConnect.Typed(o) && Written(buf[..], was, done) && pos == |done| && pos + 10 <= buf.Length
    modifies buf
    ensures Written(buf[..], was, done + ConnectFields(o)) && next == |done + ConnectFields(o)|
  {
    ghost var d1 := done + MqttConnect.PROTOCOL;
    next := Copy(buf, pos, MqttConnect.PROTOCOL, was, done);
    var flags := ConnectFlags(o);
    next := Put(buf, next, flags, was, d1);
    next := PutU16(o.keepAlive, buf, next, was, d1 + [flags]);
    assert d1 + [flags] + U16(o.keepAlive) == done + ConnectFields(o);
  }

  function WillPart(o: MqttConnect.Options): Bytes {
    if MqttConnect.HasWill(o) then EncodeString(o.willTopic.value) + EncodeString(o.willMessage.value) else []
  }

  function CredentialPart(o: MqttConnect.Options): Bytes {
    if o.username.Some? then
      EncodeString(o.username.value) + (if o.password.Some? then EncodeString(o.password.value) else [])
    else []
  }

  lemma EncodedParts(o: MqttConnect.Options)
    ensures MqttConnect.EncodeStrings(MqttConnect.Strings(o))
         == EncodeString(o.clientId) + WillPart(o) + CredentialPart(o)
  {
    MqttConnect.OneByOne(o);
  }

  /** The payload of CONNECT: client id, then the will if whole, then the credentials if any. */
  method PutConnectStrings(o: MqttConnect.Options, buf: array<byte>, pos: nat, ghost was: Bytes, ghost done: Bytes)
    returns (next: nat)
    requires Written(buf[..], was, done) && pos == |done|
    requires pos + |MqttConnect.EncodeStrings(MqttConnect.Strings(o))| <= buf.Length
    modifies buf
    ensures Written(buf[..], was, done + MqttConnect.EncodeStrings(MqttConnect.Strings(o)))
    ensures next == |done + MqttConnect.EncodeStrings(MqttConnect.Strings(o))|
  {
    ghost var first, will, credentials := EncodeString(o.clientId), WillPart(o), CredentialPart(o);
    EncodedParts(o);
    Regroup(done, first, will);
    Regroup(done, first + will, credentials);
    next := PutString(o.clientId, buf, pos, was, done);
    next := PutWill(o, buf, next, was, done + first);
    next := PutCredentials(o, buf, next, was, done + first + will);
  }

  method PutTwo(first: Bytes, second: Bytes, buf: array<byte>, pos: nat, ghost was: Bytes, ghost done: Bytes)
    returns (next: nat)
    requires Written(buf[..], was, done) && pos == |done|
    requires pos + |EncodeString(first)| + |EncodeString(second)| <= buf.Length
    modifies buf
    ensures Written(buf[..], was, done + (EncodeString(first) + EncodeString(second)))
    ensures next == |done + (EncodeString(first) + EncodeString(second))|
  {
    Regroup(done, EncodeString(first), EncodeString(second));
    next := PutString(first, buf, pos, was, done);
    next := PutString(second, buf, next, was, done + EncodeString(first));
  }

  lemma Nothing(done: Bytes)
    ensures done + [] == done
  {
  }

  method PutWill(o: MqttConnect.Options, buf: array<byte>, pos: nat, ghost was: Bytes, ghost done: Bytes)
    returns (next: nat)
    requires Written(buf[..], was, done) && pos == |done| && pos + |WillPart(o)| <= buf.Length
    modifies buf
    ensures Written(buf[..], was, done + WillPart(o)) && next == |done + WillPart(o)|
  {
    next := pos;
    if o.willTopic.Some? && o.willMessage.Some? {
      next := PutTwo(o.willTopic.value, o.willMessage.value, buf, pos, was, done);
    } else {
      Nothing(done);
    }
  }

  method PutCredentials(o: MqttConnect.Options, buf: array<byte>, pos: nat, ghost was: Bytes, ghost done: Bytes)
    returns (next: nat)
    requires Written(buf[..], was, done) && pos == |done| && pos + |CredentialPart(o)| <= buf.Length
    modifies buf
    ensures Written(buf[..], was, done + CredentialPart(o)) && next == |done + CredentialPart(o)|
  {
    next := pos;
    if o.username.None? {
      Nothing(done);
    } else if o.password.Some? {
      next := PutTwo(o.username.value, o.password.value, buf, pos, was, done);
    } else {
      Nothing(EncodeString(o.username.value));
      next := PutString(o.username.value, buf, pos, was, done);
    }
  }

  // ---------------------------------------------------------------- decoding

  /** decode_remaining_length on buf[from..to) */
  method GetLength(buf: array<byte>, from: nat, to: nat) returns (r: Option<(nat, nat)>)
    requires from <= to <= buf.Length
    ensures r == DecodeLength(buf[from..to])
  {
    if to - from < 1 { return None; }
    ghost var view := buf[from..to];
    var multiplier: nat, length: nat, decoded: nat := 1, 0, 0;
    var more := true;
    while more
      invariant 0 <= decoded <= |view|
      invariant more ==> DecodeLength(view) == DecodeFrom(view, decoded, multiplier, length)
      invariant !more ==> DecodeLength(view) == Some((length, decoded))
      decreases |view| - decoded, more
    {
      if decoded >= to - from { return None; }
      var b := buf[from + decoded];
      assert b == view[decoded];
      decoded := decoded + 1;
      length := length + b % 128 * multiplier;
      multiplier := multiplier * 128;
      if multiplier > 128 * 128 * 128 { return None; }
      more := b >= 128;
    }
    return Some((length, decoded));
  }

  /** mqtt_decode_fixed_header on buf[from..to) */
  method GetHeader(buf: array<byte>, from: nat, to: nat) returns (r: Option<(MqttPublish.FixedHeader, nat)>)
    requires from <= to <= buf.Length
    ensures r == MqttPublish.DecodeHeader(buf[from..to])
  {
    if to - from < 2 { return None; }
    assert buf[from..to][1..] == buf[from + 1..to];
    var length := GetLength(buf, from + 1, to);
    if length.None? { return None; }
    var first: int := buf[from];
    var (remaining, used) := length.value;
    return Some((MqttPublish.FixedHeader(first / 16, first / 8 % 2 == 1, first / 2 % 4, first % 2 == 1, remaining),
                 used + 1));
  }

  /** decode_string on buf[from..to), into a buffer of room bytes */
  method GetString(buf: array<byte>, from: nat, to: nat, room: nat) returns (r: Option<(Bytes, nat)>)
    requires from <= to <= buf.Length
    ensures r == DecodeString(buf[from..to], room)
  {
    if to - from < 2 { return None; }
    var length := ReadU16(buf[from], buf[from + 1]);
    if to - from < length + 2 || room <= length { return None; }
    SliceOfSlice(buf[..], from, to, 2, length + 2);
    return Some((buf[from + 2..from + 2 + length], length + 2));
  }

  /** The part of mqtt_decode_publish behind the fixed header. */
  method GetBody(buf: array<byte>, from: nat, to: nat, h: MqttPublish.FixedHeader, start: nat, granted: bool)
    returns (r: MqttPublish.Decoded)
    requires from <= to <= buf.Length && start <= to - from
    ensures r == MqttPublish.DecodeBody(buf[from..to], h, start, granted)
  {
    assert buf[from..to][start..] == buf[from + start..to];
    var topic := GetString(buf, from + start, to, MqttPublish.TOPIC_ROOM);
    if topic.None? { return MqttPublish.Refused; }
    var (name, topicLength) := topic.value;
    var pos := start + topicLength;
    if h.qos > 0 {
      if to - from - pos < 2 { return MqttPublish.Refused; }
      pos := pos + 2;
    }
    var payloadLength := h.remaining - topicLength;
    if h.qos > 0 { payloadLength := payloadLength - 2; }
    r := GetPayload(buf, from, to, h, pos, payloadLength, MqttPublish.UpToNul(name), granted);
  }

  /** The copy of the payload. The source goes on where this method answers PastEnd. */
  method GetPayload(buf: array<byte>, from: nat, to: nat, h: MqttPublish.FixedHeader, pos: nat, payloadLength: int,
                    topic: Bytes, granted: bool) returns (r: MqttPublish.Decoded)
    requires from <= to <= buf.Length && pos <= to - from && pos + payloadLength >= 0
    ensures r == MqttPublish.DecodePayload(buf[from..to], h, pos, pos + payloadLength, topic, granted)
  {
    var payload: Bytes := [];
    if payloadLength > 0 {
      if !granted { return MqttPublish.Refused; }
      if pos + payloadLength > to - from { return MqttPublish.PastEnd; }
      payload := buf[from + pos..from + pos + payloadLength];
      SliceOfSlice(buf[..], from, to, pos, pos + payloadLength);
    }
    return MqttPublish.Packet(MqttPublish.Message(topic, payload, h.qos, h.retain, h.dup), pos + payloadLength);
  }

  /** mqtt_decode_publish on buf[from..to) */
  method GetPublish(buf: array<byte>, from: nat, to: nat, granted: bool) returns (r: MqttPublish.Decoded)
    requires from <= to <= buf.Length
    ensures r == MqttPublish.Decode(buf[from..to], granted)
  {
    if to - from < 4 { return MqttPublish.Refused; }
    var header := GetHeader(buf, from, to);
    if header.None? { return MqttPublish.Refused; }
    var (h, start) := header.value;
    if h.kind != MqttPublish.PUBLISH { return MqttPublish.Refused; }
    r := GetBody(buf, from, to, h, start, granted);
  }
}
