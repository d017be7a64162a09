// device_protocol.c: the packed header, the checksum and the sequence counter.
module DeviceProtocol {
  import opened Wrappers
  import opened Bits
  import opened Octets
  import opened Slices
  import opened ShiftRegister
  import opened Crc16

  const VERSION: bv8 := 1
  const HEADER := 14     // sizeof(protocol_header_t), packed
  const CHECKED := 12    // the header without its checksum

  /** protocol_header_t */
  datatype Header = Header(version: bv8, kind: bv8, length: nat, sequence: nat, timestamp: nat, checksum: bv16)

  datatype Error = InvalidArg | NoMem | InvalidSize | InvalidVersion | InvalidCrc

  // ---------------------------------------------------------------- little-endian fields

  /** The low k bytes of n, least significant first. */
  function PutInt(n: nat, k: nat): (r: BitBytes)
    ensures |r| == k
    decreases k
  {
    if k == 0 then [] else [(n % 256) as bv8] + PutInt(n / 256, k - 1)
  }

  function GetInt(s: BitBytes): nat {
    if s == [] then 0 else s[0] as int + 256 * GetInt(s[1..])
  }

  lemma {:induction false} IntAndBack(n: nat, k: nat)
    requires n < Pow256(k)
    ensures GetInt(PutInt(n, k)) == n
    decreases k
  {
    if k > 0 {
      ByteAndBack(n % 256);
      IntAndBack(n / 256, k - 1);
      assert PutInt(n, k)[1..] == PutInt(n / 256, k - 1);
    }
  }

  function PutWord(x: bv16): (r: BitBytes)
    ensures |r| == 2
  {
    [(x & 0xFF) as bv8, (x >> 8) as bv8]
  }

  function GetWord(low: bv8, high: bv8): bv16 { (low as bv16) | ((high as bv16) << 8) }

  lemma WordAndBack(x: bv16)
    ensures GetWord(PutWord(x)[0], PutWord(x)[1]) == x
  {
  }

  lemma WordInjective(a: bv8, b: bv8, c: bv8, d: bv8)
    requires GetWord(a, b) == GetWord(c, d)
    ensures a == c && b == d
  {
  }

  // ---------------------------------------------------------------- packing

  /** The header up to its checksum; a size_t length is narrowed to 16 bits. */
  function Checked(kind: bv8, length: nat, sequence: nat, timestamp: nat): (r: BitBytes)
    ensures |r| == CHECKED
  {
    [VERSION, kind] + PutInt(length % UINT16_MOD, 2) + PutInt(sequence, 4) + PutInt(timestamp, 4)
  }

  /** The checksum of both parts, combined by exclusive or. */
  function Checksum(table: Table, head: BitBytes, payload: BitBytes): bv16 {
    if payload == [] then Crc(table, head) else Add(Crc(table, head), Crc(table, payload))
  }

  /** The bytes protocol_pack_message leaves in the buffer. */
  function Packed(table: Table, kind: bv8, sequence: nat, timestamp: nat, payload: BitBytes): (r: BitBytes)
    ensures |r| == HEADER + |payload|
  {
    var head := Checked(kind, |payload|, sequence, timestamp);
    head + PutWord(Checksum(table, head, payload)) + payload
  }

  /** The header as memcpy finds it at the front of a buffer. */
  function HeaderAt(buf: BitBytes): Header
    requires |buf| >= HEADER
  {
    Header(buf[0], buf[1], GetInt(buf[2..4]), GetInt(buf[4..8]), GetInt(buf[8..12]), GetWord(buf[12], buf[13]))
  }

  /** The checks that follow the computation of the checksum. */
  function Judge(h: Header, sum: bv16, data: BitBytes, claimed: nat): Result<(Header, BitBytes), Error> {
    if sum != h.checksum then Err(InvalidCrc)
    else if h.length > 0 && claimed < h.length then Err(NoMem)
    else Ok((h, data))
  }

  function UnpackAs(table: Table, buf: BitBytes, h: Header, claimed: nat): Result<(Header, BitBytes), Error>
    requires |buf| >= HEADER
  {
    if h.version != VERSION then Err(InvalidVersion)
    else if |buf| < HEADER + h.length then Err(InvalidSize)
    else
      var data := buf[HEADER..HEADER + h.length];
      Judge(h, Checksum(table, buf[..CHECKED], data), data, claimed)
  }

  /** protocol_unpack_message; there is room for claimed payload bytes, or a NULL payload pointer. */
  function Unpack(table: Table, buf: BitBytes, isNull: bool, claimed: nat): Result<(Header, BitBytes), Error> {
    if isNull && claimed > 0 then Err(InvalidArg)
    else if |buf| < HEADER then Err(InvalidSize)
    else UnpackAs(table, buf, HeaderAt(buf), claimed)
  }

  // ---------------------------------------------------------------- round trip

  /** Each of four fields written one behind the other is where its predecessors end. */
  lemma FourFields<T>(a: seq<T>, b: seq<T>, c: seq<T>, d: seq<T>)
    ensures var s := a + b + c + d;
      var i, j, k := |a|, |a| + |b|, |a| + |b| + |c|;
      s[i..j] == b && s[j..k] == c && s[k..k + |d|] == d
  {
    assert a + b + c + d == a + b + (c + d);
    Middle(a, b, c + d);
    Middle(a + b, c, d);
    Middle(a + b + c, d, []);
    assert a + b + c + d + [] == a + b + c + d;
  }

  lemma CheckedFields(kind: bv8, length: nat, sequence: nat, timestamp: nat)
    requires sequence < UINT32_MOD && timestamp < UINT32_MOD
    ensures var head := Checked(kind, length, sequence, timestamp);
      && head[0] == VERSION && head[1] == kind
      && GetInt(head[2..4]) == length % UINT16_MOD
      && GetInt(head[4..8]) == sequence && GetInt(head[8..12]) == timestamp
  {
    Powers256();
    IntAndBack(length % UINT16_MOD, 2);
    IntAndBack(sequence, 4);
    IntAndBack(timestamp, 4);
    FourFields([VERSION, kind], PutInt(length % UINT16_MOD, 2), PutInt(sequence, 4), PutInt(timestamp, 4));
  }

  /** The header of any buffer that starts with these parts. */
  lemma HeaderOfParts(head: BitBytes, sum: bv16, rest: BitBytes)
    requires |head| == CHECKED
    ensures var buf := head + PutWord(sum) + rest;
      && buf[..CHECKED] == head && buf[HEADER..] == rest
      && HeaderAt(buf) == Header(head[0], head[1], GetInt(head[2..4]), GetInt(head[4..8]), GetInt(head[8..12]), sum)
  {
    var buf := head + PutWord(sum) + rest;
    WordAndBack(sum);
    assert buf[2..4] == head[2..4] && buf[4..8] == head[4..8] && buf[8..12] == head[8..12];
  }

  /** A buffer with header h whose version and length are in order is judged by its checksum alone. */
  lemma ChecksumDecides(table: Table, buf: BitBytes, h: Header, payload: BitBytes, claimed: nat)
    requires |buf| >= HEADER + |payload| && h.version == VERSION && h.length == |payload| <= claimed
    requires buf[HEADER..HEADER + |payload|] == payload
    ensures UnpackAs(table, buf, h, claimed) == Judge(h, Checksum(table, buf[..CHECKED], payload), payload, claimed)
  {
  }

  lemma PackedParts(table: Table, kind: bv8, sequence: nat, timestamp: nat, payload: BitBytes, rest: BitBytes)
    requires sequence < UINT32_MOD && timestamp < UINT32_MOD
    ensures var head := Checked(kind, |payload|, sequence, timestamp);
      var buf := Packed(table, kind, sequence, timestamp, payload) + rest;
      && buf[..CHECKED] == head
      && buf[HEADER..HEADER + |payload|] == payload
      && HeaderAt(buf) ==
           Header(VERSION, kind, |payload| % UINT16_MOD, sequence, timestamp, Checksum(table, head, payload))
  {
    var head := Checked(kind, |payload|, sequence, timestamp);
    var sum := Checksum(table, head, payload);
    assert Packed(table, kind, sequence, timestamp, payload) + rest == head + PutWord(sum) + (payload + rest);
    HeaderOfParts(head, sum, payload + rest);
    CheckedFields(kind, |payload|, sequence, timestamp);
  }

  lemma UnpackOfHeader(table: Table, buf: BitBytes, h: Header, claimed: nat)
    requires |buf| >= HEADER && HeaderAt(buf) == h
    ensures Unpack(table, buf, false, claimed) == UnpackAs(table, buf, h, claimed)
  {
  }

  /** For any table, header and payload come back as packed, whatever follows them. */
  lemma PackedFits(table: Table, kind: bv8, sequence: nat, timestamp: nat, payload: BitBytes, rest: BitBytes, room: nat)
    requires sequence < UINT32_MOD && timestamp < UINT32_MOD && |payload| < UINT16_MOD && |payload| <= room
    ensures var sum := Checksum(table, Checked(kind, |payload|, sequence, timestamp), payload);
      Unpack(table, Packed(table, kind, sequence, timestamp, payload) + rest, false, room) ==
        Ok((Header(VERSION, kind, |payload|, sequence, timestamp, sum), payload))
  {
    PackedParts(table, kind, sequence, timestamp, payload, rest);
    var buf := Packed(table, kind, sequence, timestamp, payload) + rest;
    var sum := Checksum(table, buf[..CHECKED], payload);
    FitsWith(table, buf, Header(VERSION, kind, |payload|, sequence, timestamp, sum), payload, room);
  }

  lemma FitsWith(table: Table, buf: BitBytes, h: Header, payload: BitBytes, room: nat)
    requires |buf| >= HEADER + |payload| && h.version == VERSION && h.length == |payload| <= room
    requires HeaderAt(buf) == h && buf[HEADER..HEADER + |payload|] == payload
    requires h.checksum == Checksum(table, buf[..CHECKED], payload)
    ensures Unpack(table, buf, false, room) == Ok((h, payload))
  {
    UnpackOfHeader(table, buf, h, room);
    ChecksumDecides(table, buf, h, payload, room);
  }

  lemma {:induction false} GetIntBound(s: BitBytes)
    ensures GetInt(s) < Pow256(|s|)
  {
    if s != [] { GetIntBound(s[1..]); }
  }

  lemma UnpackedIsShort(table: Table, buf: BitBytes, room: nat)
    ensures var r := Unpack(table, buf, false, room);
      r.Ok? ==> |r.value.1| == r.value.0.length < UINT16_MOD
  {
    if |buf| >= HEADER {
      GetIntBound(buf[2..4]);
      Powers256();
    }
  }

  /** For any table, unpack after pack returns the payload exactly when its length fits the 16-bit field. */
  lemma PackRoundTrip(table: Table, kind: bv8, sequence: nat, timestamp: nat, payload: BitBytes, rest: BitBytes,
                      room: nat)
    requires sequence < UINT32_MOD && timestamp < UINT32_MOD && |payload| <= room
    ensures var r := Unpack(table, Packed(table, kind, sequence, timestamp, payload) + rest, false, room);
      r.Ok? && r.value.1 == payload <==> |payload| < UINT16_MOD
  {
    if |payload| < UINT16_MOD {
      PackedFits(table, kind, sequence, timestamp, payload, rest, room);
    } else {
      UnpackedIsShort(table, Packed(table, kind, sequence, timestamp, payload) + rest, room);
    }
  }

  /** A payload of 65,536 bytes is packed with length 0 and never comes back. */
  lemma LongPayloadLost(table: Table, payload: BitBytes, room: nat)
    requires |payload| == 65536 <= room
    ensures var packet := Packed(table, 0, 1, 0, payload);
      GetInt(packet[2..4]) == 0 &&
      (Unpack(table, packet, false, room).Ok? ==> Unpack(table, packet, false, room).value.1 == [])
  {
    PackedParts(table, 0, 1, 0, payload, []);
    var packet := Packed(table, 0, 1, 0, payload);
    assert packet + [] == packet;
    UnpackedIsShort(table, packet, room);
  }

  // ---------------------------------------------------------------- byte by byte

  /** Two and four bytes as numbers, the lowest first. */
  function Two(a: bv8, b: bv8): nat { a as int + 256 * b as int }

  function Four(a: bv8, b: bv8, c: bv8, d: bv8): nat { a as int + 256 * (b as int + 256 * (c as int + 256 * d as int)) }

  lemma TwoIs(s: BitBytes)
    requires |s| == 2
    ensures GetInt(s) == Two(s[0], s[1])
  {
    var last := s[1..];
    assert last[1..] == [] && GetInt(last) == last[0] as int + 256 * GetInt(last[1..]);
  }

  lemma FourIs(s: BitBytes)
    requires |s| == 4
    ensures GetInt(s) == Four(s[0], s[1], s[2], s[3])
  {
    assert GetInt(s[2..]) == Two(s[2], s[3]) by { TwoIs(s[2..]); }
    assert s[1..][1..] == s[2..];
  }

  /** The sum over the header up to the checksum and over the payload, if there is one. */
  function SumOf(table: Table, buf: BitBytes, length: nat): bv16
    requires |buf| >= 14 + length
  {
    if length == 0 then Crc(table, buf[..12]) else Crc(table, buf[..12]) ^ Crc(table, buf[14..14 + length])
  }

  lemma SumIs(table: Table, buf: BitBytes, length: nat)
    requires |buf| >= 14 + length
    ensures Checksum(table, buf[..12], buf[14..14 + length]) == SumOf(table, buf, length)
  {
    assert |buf[14..14 + length]| == length;
  }

  lemma JudgedBy(table: Table, buf: BitBytes, h: Header, claimed: nat)
    requires |buf| >= 14
    ensures UnpackAs(table, buf, h, claimed) ==
      if h.version != 1 then Err(InvalidVersion)
      else if |buf| < 14 + h.length then Err(InvalidSize)
      else if SumOf(table, buf, h.length) != h.checksum then Err(InvalidCrc)
      else if claimed < h.length then Err(NoMem)
      else Ok((h, buf[14..14 + h.length]))
  {
    if |buf| >= 14 + h.length { SumIs(table, buf, h.length); }
  }

  /** The header bytes as numbers. */
  function Fields(buf: BitBytes): Header
    requires |buf| >= 14
  {
    Header(buf[0], buf[1], Two(buf[2], buf[3]), Four(buf[4], buf[5], buf[6], buf[7]),
           Four(buf[8], buf[9], buf[10], buf[11]), (buf[12] as bv16) | ((buf[13] as bv16) << 8))
  }

  lemma FieldsAt(buf: BitBytes)
    requires |buf| >= 14
    ensures HeaderAt(buf) == Fields(buf)
  {
    TwoIs(buf[2..4]);
    FourIs(buf[4..8]);
    FourIs(buf[8..12]);
  }

  /** What unpack answers to any bytes at all: the checks in their order, each with the bytes it looks at. */
  lemma UnpackExact(table: Table, buf: BitBytes, isNull: bool, claimed: nat)
    ensures Unpack(table, buf, isNull, claimed) ==
      if isNull && claimed > 0 then Err(InvalidArg)
      else if |buf| < 14 then Err(InvalidSize)
      else
        var h := Fields(buf);
        if h.version != 1 then Err(InvalidVersion)
        else if |buf| < 14 + h.length then Err(InvalidSize)
        else if SumOf(table, buf, h.length) != h.checksum then Err(InvalidCrc)
        else if claimed < h.length then Err(NoMem)
        else Ok((h, buf[14..14 + h.length]))
  {
    if |buf| >= 14 {
      FieldsAt(buf);
      JudgedBy(table, buf, Fields(buf), claimed);
    }
  }

  /** The bytes of a packet: version 1, type, the low 16 bits of the length, sequence number and timestamp with the
      lowest byte first, the checksum likewise, then the payload. */
  lemma PackedBytes(table: Table, kind: bv8, sequence: nat, timestamp: nat, payload: BitBytes)
    requires sequence < 0x1_0000_0000 && timestamp < 0x1_0000_0000
    ensures var p := Packed(table, kind, sequence, timestamp, payload);
      && |p| == 14 + |payload| && p[14..] == payload
      && Fields(p) == Header(1, kind, |payload| % 0x1_0000, sequence, timestamp, SumOf(table, p, |payload|))
  {
    var p := Packed(table, kind, sequence, timestamp, payload);
    PackedParts(table, kind, sequence, timestamp, payload, []);
    assert p + [] == p;
    FieldsAt(p);
    SumIs(table, p, |payload|);
    assert p[14..14 + |payload|] == p[14..];
  }

  // ---------------------------------------------------------------- error detection

  /** The two differ, and only within the n bytes from at. */
  predicate DifferWithin(a: BitBytes, b: BitBytes, at: nat, n: nat) {
    a != b && |a| == |b| && at + n <= |a| && a[..at] == b[..at] && a[at + n..] == b[at + n..]
  }

  lemma CrcTells(table: Table, a: BitBytes, b: BitBytes, at: nat, n: nat)
    requires LowDistinct(table) && DifferWithin(a, b, at, n) && n <= 2
    ensures Crc(table, a) != Crc(table, b)
  {
    assert a == a[..at] + a[at..at + n] + a[at + n..];
    assert b == a[..at] + b[at..at + n] + a[at + n..];
    BurstDetected(table, a[..at], a[at..at + n], b[at..at + n], a[at + n..]);
  }

  lemma HeadTells(table: Table, a: BitBytes, b: BitBytes, at: nat, n: nat, payload: BitBytes)
    requires LowDistinct(table) && DifferWithin(a, b, at, n) && n <= 2
    ensures Checksum(table, a, payload) != Checksum(table, b, payload)
  {
    CrcTells(table, a, b, at, n);
    if Checksum(table, a, payload) == Checksum(table, b, payload) {
      AddCancels(Crc(table, a), Crc(table, b), Crc(table, payload));
    }
  }

  lemma PayloadTells(table: Table, head: BitBytes, a: BitBytes, b: BitBytes, at: nat, n: nat)
    requires LowDistinct(table) && DifferWithin(a, b, at, n) && n <= 2
    ensures Checksum(table, head, a) != Checksum(table, head, b)
  {
    CrcTells(table, a, b, at, n);
    var c := Crc(table, head);
    AddCommutes(c, Crc(table, a));
    AddCommutes(c, Crc(table, b));
    if Checksum(table, head, a) == Checksum(table, head, b) {
      AddCancels(Crc(table, a), Crc(table, b), c);
    }
  }

  /** The type byte, the sequence number and timestamp, the checksum, or the payload; not the length. */
  predicate Guarded(at: nat, n: nat) {
    && n <= 2
    && ((at == 1 && n == 1) || (4 <= at && at + n <= CHECKED) || (CHECKED <= at && at + n <= HEADER) || HEADER <= at)
  }

  lemma WrongSumRejected(table: Table, got: BitBytes, h: Header, payload: BitBytes, claimed: nat)
    requires |got| >= HEADER && HeaderAt(got) == h && h.version == VERSION && h.length == |payload|
    requires got[HEADER..] == payload && h.checksum != Checksum(table, got[..CHECKED], payload)
    ensures Unpack(table, got, false, claimed) == Err(InvalidCrc)
  {
    UnpackOfHeader(table, got, h, claimed);
    assert got[HEADER..HEADER + |payload|] == payload;
  }

  lemma SameBytes(a: BitBytes, b: BitBytes, at: nat, n: nat, i: nat)
    requires DifferWithin(a, b, at, n) && i < |a| && (i < at || at + n <= i)
    ensures a[i] == b[i]
  {
    if i < at {
      assert a[i] == a[..at][i];
    } else {
      assert a[i] == a[at + n..][i - at - n];
    }
  }

  lemma SameSlice(a: BitBytes, b: BitBytes, at: nat, n: nat, lo: nat, hi: nat)
    requires DifferWithin(a, b, at, n) && lo <= hi <= |a| && (hi <= at || at + n <= lo)
    ensures a[lo..hi] == b[lo..hi]
  {
    forall i | lo <= i < hi ensures a[i] == b[i] { SameBytes(a, b, at, n, i); }
  }

  /** Equal outside some bytes and on a slice around them means equal. */
  lemma SameAll(a: BitBytes, b: BitBytes, lo: nat, hi: nat)
    requires |a| == |b| && lo <= hi <= |a|
    requires a[..lo] == b[..lo] && a[hi..] == b[hi..] && a[lo..hi] == b[lo..hi]
    ensures a == b
  {
    forall i | 0 <= i < |a| ensures a[i] == b[i] {
      if i < lo { assert a[i] == a[..lo][i]; }
      else if i < hi { assert a[i] == a[lo..hi][i - lo]; }
      else { assert a[i] == a[hi..][i - hi]; }
    }
  }

  /** A change inside a slice is a change of that slice, within the same bytes. */
  lemma SliceDiffers(a: BitBytes, b: BitBytes, at: nat, n: nat, lo: nat, hi: nat)
    requires DifferWithin(a, b, at, n) && lo <= at && at + n <= hi <= |a|
    ensures DifferWithin(a[lo..hi], b[lo..hi], at - lo, n)
  {
    SameSlice(a, b, at, n, 0, lo);
    SameSlice(a, b, at, n, hi, |a|);
    SameSlice(a, b, at, n, lo, at);
    SameSlice(a, b, at, n, at + n, hi);
    SliceOfSlice(a, lo, hi, 0, at - lo);
    SliceOfSlice(b, lo, hi, 0, at - lo);
    SliceOfSlice(a, lo, hi, at + n - lo, hi - lo);
    SliceOfSlice(b, lo, hi, at + n - lo, hi - lo);
    if a[lo..hi] == b[lo..hi] { SameAll(a, b, lo, hi); }
  }

  /** The fields of a header do not change with bytes outside them. */
  lemma FieldsKept(a: BitBytes, b: BitBytes, at: nat, n: nat)
    requires DifferWithin(a, b, at, n) && |a| >= HEADER && Guarded(at, n)
    ensures HeaderAt(a).version == HeaderAt(b).version && HeaderAt(a).length == HeaderAt(b).length
    ensures at + n <= CHECKED || HEADER <= at ==> HeaderAt(a).checksum == HeaderAt(b).checksum
    ensures CHECKED <= at && at + n <= HEADER ==> HeaderAt(a).checksum != HeaderAt(b).checksum
  {
    SameBytes(a, b, at, n, 0);
    SameSlice(a, b, at, n, 2, 4);
    if at + n <= CHECKED || HEADER <= at {
      SameBytes(a, b, at, n, 12);
      SameBytes(a, b, at, n, 13);
    } else {
      SliceDiffers(a, b, at, n, 12, 14);
      assert a[12..14] == [a[12], a[13]] && b[12..14] == [b[12], b[13]];
      if GetWord(a[12], a[13]) == GetWord(b[12], b[13]) {
        WordInjective(a[12], a[13], b[12], b[13]);
      }
    }
  }

  lemma SumsDiffer(table: Table, sent: BitBytes, got: BitBytes, at: nat, n: nat)
    requires LowDistinct(table) && DifferWithin(sent, got, at, n) && Guarded(at, n) && |sent| >= HEADER
    requires HeaderAt(sent).checksum == Checksum(table, sent[..CHECKED], sent[HEADER..])
    ensures HeaderAt(got).checksum != Checksum(table, got[..CHECKED], got[HEADER..])
  {
    FieldsKept(sent, got, at, n);
    var size := |sent|;
    assert sent[..CHECKED] == sent[0..CHECKED] && got[..CHECKED] == got[0..CHECKED];
    assert sent[HEADER..] == sent[HEADER..size] && got[HEADER..] == got[HEADER..size];
    if at + n > CHECKED { SameSlice(sent, got, at, n, 0, CHECKED); }
    if at < HEADER { SameSlice(sent, got, at, n, HEADER, size); }
    if at + n <= CHECKED {
      SliceDiffers(sent, got, at, n, 0, CHECKED);
      HeadTells(table, sent[..CHECKED], got[..CHECKED], at, n, sent[HEADER..]);
    } else if HEADER <= at {
      SliceDiffers(sent, got, at, n, HEADER, size);
      PayloadTells(table, sent[..CHECKED], sent[HEADER..], got[HEADER..], at - HEADER, n);
    }
  }

  /** A guarded change of any buffer whose header is in order is rejected by the checksum. */
  lemma ChangeRejected(table: Table, sent: BitBytes, got: BitBytes, at: nat, n: nat, claimed: nat)
    requires LowDistinct(table) && DifferWithin(sent, got, at, n) && Guarded(at, n) && |sent| >= HEADER
    requires HeaderAt(sent).version == VERSION && HeaderAt(sent).length == |sent| - HEADER
    requires HeaderAt(sent).checksum == Checksum(table, sent[..CHECKED], sent[HEADER..])
    ensures Unpack(table, got, false, claimed) == Err(InvalidCrc)
  {
    FieldsKept(sent, got, at, n);
    SumsDiffer(table, sent, got, at, n);
    WrongSumRejected(table, got, HeaderAt(got), got[HEADER..], claimed);
  }

  lemma PackedInOrder(table: Table, kind: bv8, sequence: nat, timestamp: nat, payload: BitBytes)
    requires sequence < UINT32_MOD && timestamp < UINT32_MOD && |payload| < UINT16_MOD
    ensures var sent := Packed(table, kind, sequence, timestamp, payload);
      && HeaderAt(sent).version == VERSION && HeaderAt(sent).length == |payload|
      && HeaderAt(sent).checksum == Checksum(table, sent[..CHECKED], sent[HEADER..])
  {
    var sent := Packed(table, kind, sequence, timestamp, payload);
    PackedParts(table, kind, sequence, timestamp, payload, []);
    assert sent + [] == sent;
    assert sent[HEADER..HEADER + |payload|] == sent[HEADER..];
    SmallLength(|payload|);
  }

  lemma SmallLength(n: nat)
    requires n < UINT16_MOD
    ensures n % UINT16_MOD == n
  {
  }

  /** With distinct low bytes in the table, unpack rejects every guarded change of a packed message by its checksum. */
  lemma CorruptionDetected(table: Table, kind: bv8, sequence: nat, timestamp: nat, payload: BitBytes, got: BitBytes,
                           at: nat, n: nat, claimed: nat)
    requires LowDistinct(table) && sequence < UINT32_MOD && timestamp < UINT32_MOD && |payload| < UINT16_MOD
    requires DifferWithin(Packed(table, kind, sequence, timestamp, payload), got, at, n) && Guarded(at, n)
    ensures Unpack(table, got, false, claimed) == Err(InvalidCrc)
  {
    PackedInOrder(table, kind, sequence, timestamp, payload);
    ChangeRejected(table, Packed(table, kind, sequence, timestamp, payload), got, at, n, claimed);
  }

  /** This change, if it is a guarded one of a packed message, is rejected. */
  ghost predicate Rejects(table: Table, kind: bv8, sequence: nat, timestamp: nat, payload: BitBytes, got: BitBytes,
                          at: nat, n: nat, claimed: nat)
  {
    && sequence < UINT32_MOD && timestamp < UINT32_MOD && |payload| < UINT16_MOD
    && DifferWithin(Packed(table, kind, sequence, timestamp, payload), got, at, n) && Guarded(at, n)
    ==> Unpack(table, got, false, claimed) == Err(InvalidCrc)
  }

  ghost predicate DetectsChanges(table: Table) {
    forall kind, sequence, timestamp, payload, got, at, n, claimed ::
      Rejects(table, kind, sequence, timestamp, payload, got, at, n, claimed)
  }

  /** The protocol detects all guarded changes exactly when the low bytes of the table's entries are distinct. */
  lemma DetectionIff(table: Table)
    ensures DetectsChanges(table) <==> LowDistinct(table)
  {
    if LowDistinct(table) {
      forall kind, sequence: nat, timestamp: nat, payload, got, at: nat, n: nat, claimed: nat
        ensures Rejects(table, kind, sequence, timestamp, payload, got, at, n, claimed)
      {
        RejectsAny(table, kind, sequence, timestamp, payload, got, at, n, claimed);
      }
    }
    if DetectsChanges(table) {
      forall i, j | 0 <= i < j < 256 ensures Low(table[i]) != Low(table[j]) {
        if Low(table[i]) == Low(table[j]) { Missed(table, i, j); }
      }
    }
  }

  lemma RejectsAny(table: Table, kind: bv8, sequence: nat, timestamp: nat, payload: BitBytes, got: BitBytes, at: nat,
                   n: nat, claimed: nat)
    requires LowDistinct(table)
    ensures Rejects(table, kind, sequence, timestamp, payload, got, at, n, claimed)
  {
    if && sequence < UINT32_MOD && timestamp < UINT32_MOD && |payload| < UINT16_MOD
       && DifferWithin(Packed(table, kind, sequence, timestamp, payload), got, at, n) && Guarded(at, n)
    {
      CorruptionDetected(table, kind, sequence, timestamp, payload, got, at, n, claimed);
    }
  }

  /** Two payloads of one CRC give packets that differ in them alone. */
  lemma SameSumPackets(table: Table, a: BitBytes, b: BitBytes)
    requires |a| == |b| == 2 && a != b && Crc(table, a) == Crc(table, b)
    ensures DifferWithin(Packed(table, 0, 0, 0, a), Packed(table, 0, 0, 0, b), HEADER, 2)
  {
    var head := Checked(0, 2, 0, 0);
    assert Checksum(table, head, a) == Checksum(table, head, b);
    OnlyTail(head + PutWord(Checksum(table, head, a)), a, b);
  }

  lemma OnlyTail(front: BitBytes, a: BitBytes, b: BitBytes)
    requires |front| == HEADER && |a| == |b| == 2 && a != b
    ensures DifferWithin(front + a, front + b, HEADER, 2)
  {
    assert (front + a)[HEADER..] == a && (front + b)[HEADER..] == b;
    assert (front + a)[..HEADER] == front == (front + b)[..HEADER];
    assert (front + a)[HEADER + 2..] == [] == (front + b)[HEADER + 2..];
  }

  /** With one low byte twice in the table, a change of two payload bytes passes. */
  lemma Missed(table: Table, i: nat, j: nat)
    requires i < j < 256 && Low(table[i]) == Low(table[j])
    ensures !DetectsChanges(table)
  {
    var a, b := Collision(table, i, j);
    SameSumPackets(table, a, b);
    PackedAlone(table, 0, 0, 0, b, 2);
    assert !Rejects(table, 0, 0, 0, a, Packed(table, 0, 0, 0, b), HEADER, 2, 2);
  }

  /** The full table detects them, the table as written does not. */
  lemma FullTableDetects()
    ensures DetectsChanges(FullTable()) && !DetectsChanges(WrittenTable())
  {
    FullTableLowDistinct();
    DetectionIff(FullTable());
    WrittenTableMisses();
    DetectionIff(WrittenTable());
  }

  // ---------------------------------------------------------------- the sequence counter over a run

  /** A call of protocol_pack_message: valid when no pointer it needs is NULL, with room bytes in the buffer. */
  datatype Request = Request(valid: bool, kind: bv8, payload: BitBytes, room: nat, timestamp: nat)

  predicate Fits(q: Request) { q.valid && HEADER + |q.payload| <= q.room }

  function Bumped(counter: nat): nat { (counter + 1) % UINT32_MOD }

  /** protocol_pack_message: the counter afterwards and the packet made, if any. */
  function Serve<P>(make: (nat, Request) -> P, counter: nat, q: Request): (nat, Result<P, Error>) {
    if !q.valid then (counter, Err(InvalidArg))
    else if q.room < HEADER + |q.payload| then (counter, Err(NoMem))
    else (Bumped(counter), Ok(make(Bumped(counter), q)))
  }

  /** The packets made in a run of calls. */
  function Served<P>(make: (nat, Request) -> P, counter: nat, qs: seq<Request>): seq<P>
    decreases |qs|
  {
    if qs == [] then []
    else
      var (after, r) := Serve(make, counter, qs[0]);
      var later := Served(make, after, qs[1..]);
      if r.Ok? then [r.value] + later else later
  }

  function PacketMaker(table: Table): (nat, Request) -> BitBytes {
    (n: nat, q: Request) => Packed(table, q.kind, n, q.timestamp, q.payload)
  }

  function Pack(table: Table, counter: nat, q: Request): (nat, Result<BitBytes, Error>) {
    Serve(PacketMaker(table), counter, q)
  }

  /** A call that lacks a pointer or room is refused in that order and draws no number. */
  lemma PackAnswers(table: Table, counter: nat, q: Request)
    ensures var (after, r) := Pack(table, counter, q);
      && (r == Err(InvalidArg) <==> !q.valid)
      && (r == Err(NoMem) <==> q.valid && q.room < 14 + |q.payload|)
      && (r.Err? ==> after == counter && (r.error == InvalidArg || r.error == NoMem))
      && (r.Ok? ==>
            && after == (counter + 1) % 0x1_0000_0000
            && r.value == Packed(table, q.kind, after, q.timestamp, q.payload))
  {
  }

  function Packets(table: Table, counter: nat, qs: seq<Request>): seq<BitBytes> {
    Served(PacketMaker(table), counter, qs)
  }

  function Fitting(qs: seq<Request>): seq<Request> {
    if qs == [] then [] else if Fits(qs[0]) then [qs[0]] + Fitting(qs[1..]) else Fitting(qs[1..])
  }

  /** Calls that fail consume no sequence number: dropping them from a run changes no packet. */
  lemma {:induction false} FailuresConsumeNone<P>(make: (nat, Request) -> P, counter: nat, qs: seq<Request>)
    ensures Served(make, counter, qs) == Served(make, counter, Fitting(qs))
    decreases |qs|
  {
    if qs != [] {
      FailuresConsumeNone(make, if Fits(qs[0]) then Bumped(counter) else counter, qs[1..]);
    }
  }

  /** The packet of the k-th call that fits is made for that call with the k-th number after the counter. */
  lemma {:induction false} NumberOf<P>(make: (nat, Request) -> P, counter: nat, qs: seq<Request>, k: nat)
    requires counter < UINT32_MOD
    ensures |Served(make, counter, qs)| == |Fitting(qs)|
    ensures k < |Fitting(qs)| ==>
              Served(make, counter, qs)[k] == make((counter + 1 + k) % UINT32_MOD, Fitting(qs)[k])
    decreases |qs|
  {
    if qs != [] {
      if !Fits(qs[0]) {
        NumberOf(make, counter, qs[1..], k);
      } else if k > 0 {
        NumberOf(make, Bumped(counter), qs[1..], k - 1);
        Wraps(counter, k);
      } else {
        NumberOf(make, Bumped(counter), qs[1..], 0);
      }
    }
  }

  lemma Wraps(counter: nat, k: nat)
    requires counter < UINT32_MOD && k > 0
    ensures (Bumped(counter) + k) % UINT32_MOD == (counter + 1 + k) % UINT32_MOD
  {
  }

  /** In a run from protocol_init the k-th packet is made with number k mod 2^32. */
  lemma KthPacket<P>(make: (nat, Request) -> P, qs: seq<Request>, k: nat)
    requires 1 <= k <= |Fitting(qs)|
    ensures |Served(make, 0, qs)| == |Fitting(qs)|
    ensures Served(make, 0, qs)[k - 1] == make(k % UINT32_MOD, Fitting(qs)[k - 1])
  {
    NumberOf(make, 0, qs, k - 1);
  }

  lemma PackedAlone(table: Table, kind: bv8, sequence: nat, timestamp: nat, payload: BitBytes, room: nat)
    requires sequence < UINT32_MOD && timestamp < UINT32_MOD && |payload| < UINT16_MOD && |payload| <= room
    ensures var r := Unpack(table, Packed(table, kind, sequence, timestamp, payload), false, room);
      && r.Ok? && r.value.1 == payload
      && r.value.0.kind == kind && r.value.0.sequence == sequence && r.value.0.timestamp == timestamp
  {
    PackedFits(table, kind, sequence, timestamp, payload, [], room);
    var packet := Packed(table, kind, sequence, timestamp, payload);
    assert packet + [] == packet;
  }

  /** A packet that unpacks to the message and number it was made for. */
  predicate Faithful(table: Table, packet: BitBytes, n: nat, q: Request, room: nat) {
    var r := Unpack(table, packet, false, room);
    && r.Ok? && r.value.1 == q.payload
    && r.value.0.kind == q.kind && r.value.0.sequence == n && r.value.0.timestamp == q.timestamp
  }

  lemma MadeFaithful(table: Table, n: nat, q: Request, room: nat)
    requires n < UINT32_MOD && q.timestamp < UINT32_MOD && |q.payload| < UINT16_MOD && |q.payload| <= room
    ensures Faithful(table, PacketMaker(table)(n, q), n, q, room)
  {
    PackedAlone(table, q.kind, n, q.timestamp, q.payload, room);
  }

  /** From protocol_init on, unpacking the k-th packet gives its message and sequence number k mod 2^32. */
  lemma RunRoundTrip(table: Table, qs: seq<Request>, k: nat, room: nat)
    requires 1 <= k <= |Fitting(qs)|
    requires var q := Fitting(qs)[k - 1]; |q.payload| < UINT16_MOD && |q.payload| <= room && q.timestamp < UINT32_MOD
    ensures |Packets(table, 0, qs)| == |Fitting(qs)|
    ensures Faithful(table, Packets(table, 0, qs)[k - 1], k % UINT32_MOD, Fitting(qs)[k - 1], room)
  {
    KthPacket(PacketMaker(table), qs, k);
    MadeFaithful(table, k % UINT32_MOD, Fitting(qs)[k - 1], room);
  }
}
