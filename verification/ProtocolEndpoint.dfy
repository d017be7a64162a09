// protocol_init, protocol_pack_message and protocol_unpack_message working in place on the caller's buffers.
module ProtocolEndpoint {
  import opened Octets
  import opened Slices
  import opened Wrappers
  import opened Crc16
  import opened ShiftRegister
  import opened DeviceProtocol

  /** The first n bytes behind a pointer, none behind NULL. */
  ghost function Behind(p: array?<bv8>, n: nat): BitBytes
    requires p != null ==> n <= p.Length
    reads p
  {
    if p == null then [] else p[..n]
  }

  /** memcpy into a buffer. */
  method Store(buffer: array<bv8>, at: nat, bytes: BitBytes)
    requires at + |bytes| <= buffer.Length
    modifies buffer
    ensures buffer[..] == old(buffer[..at]) + bytes + old(buffer[at + |bytes|..])
  {
    forall i | 0 <= i < |bytes| { buffer[at + i] := bytes[i]; }
  }

  /** The fields in front of the checksum. */
  method StoreHead(buffer: array<bv8>, kind: bv8, length: nat, sequence: nat, timestamp: nat)
    requires buffer.Length >= HEADER
    modifies buffer
    ensures buffer[..] == Checked(kind, length, sequence, timestamp) + old(buffer[CHECKED..])
  {
    ghost var was := buffer[..];
    var size, number, time := PutInt(length % UINT16_MOD, 2), PutInt(sequence, 4), PutInt(timestamp, 4);
    Store(buffer, 0, [VERSION, kind]);
    Store(buffer, 2, size);
    Store(buffer, 4, number);
    Store(buffer, 8, time);
    Joined([VERSION, kind], size, number, time, was, buffer[..]);
  }

  /** Writing the next field behind what is already done. */
  lemma Grown(done: BitBytes, x: BitBytes, was: BitBytes, s: BitBytes, now: BitBytes)
    requires |done| + |x| <= |was| && s == done + was[|done|..]
    requires now == s[..|done|] + x + s[|done| + |x|..]
    ensures now == done + x + was[|done| + |x|..]
  {
    assert s[..|done|] == done;
    assert s[|done| + |x|..] == was[|done| + |x|..];
  }

  /** Four fields written one behind the other. */
  lemma Joined(a: BitBytes, b: BitBytes, c: BitBytes, d: BitBytes, was: BitBytes, now: BitBytes)
    requires |a| == 2 && |b| == 2 && |c| == 4 && |d| == 4 && |was| >= 12
    requires var s1 := was[..0] + a + was[2..];
      var s2 := s1[..2] + b + s1[4..];
      var s3 := s2[..4] + c + s2[8..];
      now == s3[..8] + d + s3[12..]
    ensures now == a + b + c + d + was[12..]
  {
    var s1 := was[..0] + a + was[2..];
    var s2 := s1[..2] + b + s1[4..];
    var s3 := s2[..4] + c + s2[8..];
    assert was[..0] + a == a;
    Grown(a, b, was, s1, s2);
    Grown(a + b, c, was, s2, s3);
    Grown(a + b + c, d, was, s3, now);
  }

  lemma PayloadPlaced(head: BitBytes, data: BitBytes, was: BitBytes, mid: BitBytes, now: BitBytes)
    requires |head| == CHECKED && |was| >= HEADER + |data|
    requires mid == head + was[CHECKED..]
    requires now == mid[..HEADER] + data + mid[HEADER + |data|..]
    ensures now[..CHECKED] == head && now[HEADER..] == data + was[HEADER + |data|..]
  {
  }

  lemma PackedIs(table: Table, kind: bv8, sequence: nat, timestamp: nat, data: BitBytes, head: BitBytes, sum: BitBytes,
                 back: BitBytes)
    requires head == Checked(kind, |data|, sequence, timestamp) && sum == PutWord(Checksum(table, head, data))
    ensures head + sum + (data + back) == Packed(table, kind, sequence, timestamp, data) + back
  {
    Regroup(head + sum, data, back);
  }

  /** memcpy of the payload, if there is any. */
  method StorePayload(payload: array?<bv8>, length: nat, buffer: array<bv8>, ghost head: BitBytes, ghost was: BitBytes)
    requires payload == null ==> length == 0
    requires payload != null ==> length <= payload.Length && payload != buffer
    requires |head| == CHECKED && buffer.Length == |was| >= HEADER + length && buffer[..] == head + was[CHECKED..]
    modifies buffer
    ensures buffer[..CHECKED] == head
    ensures buffer[HEADER..] == Behind(payload, length) + was[HEADER + length..]
  {
    ghost var mid, data := buffer[..], Behind(payload, length);
    if length > 0 { Store(buffer, HEADER, payload[..length]); }
    PayloadPlaced(head, data, was, mid, buffer[..]);
  }

  class Endpoint {
    const table: Table
    var sequenceCounter: nat

    ghost predicate Valid()
      reads this
    {
      sequenceCounter < UINT32_MOD
    }

    /** The counter's static initial value. */
    constructor (table: Table)
      ensures Valid() && this.table == table && sequenceCounter == 0
    {
      this.table := table;
      sequenceCounter := 0;
    }

    /** protocol_init */
    method Init(hasInfo: bool) returns (r: Result<(), Error>)
      requires Valid()
      modifies this
      ensures Valid()
      ensures hasInfo ==> r == Ok(()) && sequenceCounter == 0
      ensures !hasInfo ==> r == Err(InvalidArg) && sequenceCounter == old(sequenceCounter)
    {
      if !hasInfo { return Err(InvalidArg); }
      sequenceCounter := 0;
      r := Ok(());
    }

    /** The checksum over what now lies in the buffer, written behind the header. */
    method Seal(payload: array?<bv8>, length: nat, buffer: array<bv8>)
      requires payload == null ==> length == 0
      requires payload != null ==> length <= payload.Length && payload != buffer
      requires buffer.Length >= HEADER
      modifies buffer
      ensures var head, rest := old(buffer[..CHECKED]), old(buffer[HEADER..]);
        buffer[..] == head + PutWord(Checksum(table, head, Behind(payload, length))) + rest
    {
      ghost var head, rest := buffer[..CHECKED], buffer[HEADER..];
      var sum := Calculate(table, buffer[..CHECKED]);
      if length > 0 {
        var more := Calculate(table, payload[..length]);
        sum := Add(sum, more);
      }
      Store(buffer, CHECKED, PutWord(sum));
    }

    /** Header, payload and checksum, in the order in which they are written. */
    method Fill(kind: bv8, payload: array?<bv8>, length: nat, buffer: array<bv8>, timestamp: nat)
      requires payload == null ==> length == 0
      requires payload != null ==> length <= payload.Length && payload != buffer
      requires buffer.Length >= HEADER + length
      modifies buffer
      ensures buffer[..] ==
        Packed(table, kind, sequenceCounter, timestamp, old(Behind(payload, length))) + old(buffer[HEADER + length..])
    {
      ghost var was, data := buffer[..], Behind(payload, length);
      ghost var head := Checked(kind, length, sequenceCounter, timestamp);
      StoreHead(buffer, kind, length, sequenceCounter, timestamp);
      StorePayload(payload, length, buffer, head, was);
      Seal(payload, length, buffer);
      PackedIs(table, kind, sequenceCounter, timestamp, data, head, PutWord(Checksum(table, head, data)),
               was[HEADER + length..]);
    }

    /** protocol_pack_message with *buffer_len == room, at the given time in microseconds;
        Ok holds the new *buffer_len. */
    method PackMessage(kind: bv8, payload: array?<bv8>, length: nat, buffer: array?<bv8>, room: Option<nat>,
                       micros: nat)
      returns (r: Result<nat, Error>)
      requires Valid()
      requires payload != null ==> length <= payload.Length && payload != buffer
      requires buffer != null && room.Some? ==> room.value <= buffer.Length
      modifies this, buffer
      ensures Valid()
      ensures var valid := !(payload == null && length > 0) && buffer != null && room.Some?;
        var data := old(Behind(payload, length));
        var q := Request(valid, kind, data, if room.Some? then room.value else 0, (micros / 1000) % UINT32_MOD);
        var (counter, packet) := Pack(table, old(sequenceCounter), q);
        && sequenceCounter == counter
        && (packet.Err? ==> r == Err(packet.error) && (buffer != null ==> buffer[..] == old(buffer[..])))
        && (packet.Ok? ==> r == Ok(|packet.value|) && buffer[..] == packet.value + old(buffer[HEADER + |data|..]))
    {
      if (payload == null && length > 0) || buffer == null || room == None { return Err(InvalidArg); }
      if room.value < HEADER + length { return Err(NoMem); }
      sequenceCounter := (sequenceCounter + 1) % UINT32_MOD;
      Fill(kind, payload, length, buffer, (micros / 1000) % UINT32_MOD);
      r := Ok(HEADER + length);
    }

    /** protocol_unpack_message with *payload_len == room; Ok holds the new *payload_len. The header is copied out,
        to *header, as soon as the buffer is long enough for one, and stays there when the message is refused. */
    method UnpackMessage(buffer: array?<bv8>, length: nat, hasHeader: bool, payload: array?<bv8>, room: nat)
      returns (header: Option<Header>, r: Result<nat, Error>)
      requires buffer != null ==> length <= buffer.Length
      requires payload != null ==> room <= payload.Length && payload != buffer
      modifies payload
      ensures buffer == null || !hasHeader ==> r == Err(InvalidArg)
      ensures header.Some? <==> buffer != null && hasHeader && (payload == null ==> room == 0) && length >= HEADER
      ensures header.Some? ==> header.value == HeaderAt(buffer[..length])
      ensures buffer != null && hasHeader ==>
        var u := Unpack(table, buffer[..length], payload == null, room);
        && (u.Err? ==> r == Err(u.error) && (payload != null ==> payload[..] == old(payload[..])))
        && (u.Ok? ==>
              && header == Some(u.value.0) && r == Ok(|u.value.1|)
              && (payload != null ==> payload[..] == u.value.1 + old(payload[|u.value.1|..])))
    {
      header := None;
      if buffer == null || !hasHeader || (payload == null && room > 0) { return None, Err(InvalidArg); }
      if length < HEADER { return None, Err(InvalidSize); }
      var h := HeaderAt(buffer[..length]);
      header := Some(h);
      if h.version != VERSION { return header, Err(InvalidVersion); }
      if length < HEADER + h.length { return header, Err(InvalidSize); }
      var sum := Calculate(table, buffer[..CHECKED]);
      if h.length > 0 {
        var more := Calculate(table, buffer[HEADER..HEADER + h.length]);
        sum := Add(sum, more);
      }
      SliceOfPrefix(buffer[..], length, 0, CHECKED);
      SliceOfPrefix(buffer[..], length, HEADER, HEADER + h.length);
      if sum != h.checksum { return header, Err(InvalidCrc); }
      if h.length > 0 {
        if room < h.length { return header, Err(NoMem); }
        Store(payload, 0, buffer[HEADER..HEADER + h.length]);
      }
      return header, Ok(h.length);
    }
  }
}
