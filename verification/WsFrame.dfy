// WebSocket frames (sections 5.2 and 5.3 of RFC 6455) as ws_frame.c writes and reads them.
module WsFrame {
  import opened Octets
  import opened Slices
  import opened Wrappers

  /** ws_message_t; None is the NULL payload. */
  datatype Message = Message(isFinal: bool, opcode: nat, payload: Option<Bytes>, payloadLen: nat)

  datatype Error = InvalidArg | InvalidState | InvalidSize | NoMem

  // ---------------------------------------------------------------- numbers and masks

  /** The low k bytes of n, most significant first. */
  function BigEndian(n: nat, k: nat): (r: Bytes)
    ensures |r| == k
  {
    if k == 0 then [] else BigEndian(n / 256, k - 1) + [n % 256]
  }

  function FromBigEndian(s: Bytes): nat {
    if s == [] then 0 else FromBigEndian(s[..|s| - 1]) * 256 + s[|s| - 1]
  }

  lemma LastDigit(front: Bytes, b: byte)
    ensures FromBigEndian(front + [b]) == FromBigEndian(front) * 256 + b as int
  {
    assert (front + [b])[..|front|] == front;
  }

  lemma {:induction false} BigEndianRoundTrip(n: nat, k: nat)
    requires n < Pow256(k)
    ensures FromBigEndian(BigEndian(n, k)) == n
  {
    if k > 0 {
      assert Pow256(k) == 256 * Pow256(k - 1);
      BigEndianRoundTrip(n / 256, k - 1);
      LastDigit(BigEndian(n / 256, k - 1), n % 256);
    }
  }

  lemma {:induction false} FromBigEndianBound(s: Bytes)
    ensures FromBigEndian(s) < Pow256(|s|)
  {
    if s != [] { FromBigEndianBound(s[..|s| - 1]); }
  }

  function Pow2(k: nat): nat { if k == 0 then 1 else 2 * Pow2(k - 1) }

  /** Exclusive or of the low k bits. */
  function XorBits(a: nat, b: nat, k: nat): (r: nat)
    ensures r < Pow2(k)
  {
    if k == 0 then 0 else (if a % 2 == b % 2 then 0 else 1) + 2 * XorBits(a / 2, b / 2, k - 1)
  }

  lemma {:induction false} XorBitsTwice(a: nat, b: nat, k: nat)
    requires a < Pow2(k)
    ensures XorBits(XorBits(a, b, k), b, k) == a
  {
    if k > 0 {
      var x := XorBits(a, b, k);
      assert x / 2 == XorBits(a / 2, b / 2, k - 1);
      XorBitsTwice(a / 2, b / 2, k - 1);
    }
  }

  lemma PowEight()
    ensures Pow2(8) == 256
  {
    assert Pow2(4) == 16 by { assert Pow2(2) == 4; }
    assert Pow2(6) == 4 * Pow2(4) && Pow2(8) == 4 * Pow2(6);
  }

  function Xor(a: byte, b: byte): byte {
    PowEight();
    XorBits(a, b, 8)
  }

  /** payload[i] ^= mask_key[i % 4] for every i */
  function Mask(payload: Bytes, key: Bytes): (r: Bytes)
    requires |key| == 4
    ensures |r| == |payload|
  {
    seq(|payload|, i requires 0 <= i < |payload| => Xor(payload[i], key[i % 4]))
  }

  lemma MaskTwice(payload: Bytes, key: Bytes)
    requires |key| == 4
    ensures Mask(Mask(payload, key), key) == payload
  {
    PowEight();
    forall i | 0 <= i < |payload| ensures Mask(Mask(payload, key), key)[i] == payload[i] {
      XorBitsTwice(payload[i], key[i % 4], 8);
    }
  }

  // ---------------------------------------------------------------- encoding

  function Extended(n: nat): nat { if n <= 125 then 0 else if n <= 0xFFFF then 2 else 8 }

  function LengthCode(n: nat): nat { if n <= 125 then n else if n <= 0xFFFF then 126 else 127 }

  /** The first two bytes; masked frames set the top bit of the second. */
  function Front(isFinal: bool, opcode: nat, masked: bool, n: nat): (r: Bytes)
    ensures |r| == 2
  {
    [(if isFinal then 128 else 0) + opcode % 16, (if masked then 128 else 0) + LengthCode(n)]
  }

  /** The header of a frame without its mask key. */
  function Head(isFinal: bool, opcode: nat, masked: bool, n: nat): Bytes {
    Front(isFinal, opcode, masked, n) + BigEndian(n, Extended(n))
  }

  /** Written: the buffer now starts with bytes, and *frame_len is length. Overrun: the 64-bit sum of header and
      payload length wraps and the source goes on to write behind the buffer. */
  datatype Encoded = Written(bytes: Bytes, length: nat) | Refused(error: Error) | Overrun

  /** payload_len is a uint64_t. */
  predicate Typed(m: Message) {
    m.payloadLen < UINT64_MOD && (m.payload.Some? ==> |m.payload.value| == m.payloadLen)
  }

  /** ws_encode_frame into a buffer that holds was. */
  function Encode(m: Message, was: Bytes): Encoded
    requires Typed(m)
  {
    var head := Head(m.isFinal, m.opcode, false, m.payloadLen);
    var bytes := if m.payload.Some? then head + m.payload.value else head;
    var sum := (|head| + m.payloadLen) % UINT64_MOD;
    if |was| < sum then Refused(NoMem)
    else if |was| < |bytes| then Overrun
    else Written(bytes, sum)
  }

  // ---------------------------------------------------------------- decoding

  datatype Parsed = Parsed(fin: bool, opcode: nat, key: Option<Bytes>, size: nat, length: nat)

  /** ws_decode_frame up to the check against the buffer: first byte, length and mask. */
  function Parse(buf: Bytes): (r: Result<Parsed, Error>)
    ensures r.Ok? ==> 2 <= r.value.size <= |buf| && r.value.size <= 14 && r.value.opcode < 16
    ensures r.Ok? && r.value.key.Some? ==> |r.value.key.value| == 4
  {
    if |buf| < 2 then Err(InvalidArg)
    else if buf[0] as int / 16 % 8 != 0 then Err(InvalidState)
    else
      var code := buf[1] as int % 128;
      var extra := if code == 126 then 2 else if code == 127 then 8 else 0;
      if |buf| < 2 + extra then Err(InvalidSize) else
        var length := if extra == 0 then code else FromBigEndian(buf[2..2 + extra]);
        var masked := buf[1] >= 128;
        if masked && |buf| < 2 + extra + 4 then Err(InvalidSize) else
          Ok(Parsed(buf[0] >= 128, buf[0] as int % 16,
                    if masked then Some(buf[2 + extra..2 + extra + 4]) else None,
                    2 + extra + (if masked then 4 else 0), length))
  }

  /** PastEnd: the 64-bit sum of header and payload length wraps, so the size check passes although the buffer
      is too short; the copy that follows has no defined result. */
  datatype Decoded = Frame(message: Message, length: nat) | Rejected(error: Error) | PastEnd

  /** ws_decode_frame; granted is malloc's answer. */
  function Decode(buf: Bytes, granted: bool): Decoded {
    match Parse(buf)
    case Err(e) => Rejected(e)
    case Ok(h) =>
      if |buf| < (h.size + h.length) % UINT64_MOD then Rejected(InvalidSize)
      else if |buf| < h.size + h.length then PastEnd
      else if h.length > 0 && !granted then Rejected(NoMem)
      else
        var raw := buf[h.size..h.size + h.length];
        var payload := if h.key.Some? then Mask(raw, h.key.value) else raw;
        Frame(Message(h.fin, h.opcode, if h.length > 0 then Some(payload) else None, h.length), h.size + h.length)
  }

  // ---------------------------------------------------------------- what is accepted

  lemma TwoBytes(s: Bytes)
    requires |s| == 2
    ensures FromBigEndian(s) == s[0] as int * 256 + s[1] as int
  {
    var front := s[..1];
    assert front[..0] == [] && FromBigEndian(front) == FromBigEndian(front[..0]) * 256 + s[0] as int;
  }

  lemma FourMore(s: Bytes)
    requires |s| >= 4
    ensures var n, k := FromBigEndian(s[..|s| - 4]), |s|;
      FromBigEndian(s) ==
        (((n * 256 + s[k - 4] as int) * 256 + s[k - 3] as int) * 256 + s[k - 2] as int) * 256 + s[k - 1] as int
  {
    var k := |s|;
    assert s[..k - 1][..k - 2] == s[..k - 2] && s[..k - 2][..k - 3] == s[..k - 3] && s[..k - 3][..k - 4] == s[..k - 4];
    assert FromBigEndian(s[..k - 2]) == FromBigEndian(s[..k - 3]) * 256 + s[k - 3] as int;
    assert FromBigEndian(s[..k - 1]) == FromBigEndian(s[..k - 2]) * 256 + s[k - 2] as int;
  }

  /** Eight bytes as a number, the first the highest. */
  function Wide(s: Bytes): nat
    requires |s| == 8
  {
    (((((((s[0] as int * 256 + s[1]) * 256 + s[2]) * 256 + s[3]) * 256 + s[4]) * 256 + s[5]) * 256 + s[6]) * 256) + s[7]
  }

  lemma EightBytes(s: Bytes)
    requires |s| == 8
    ensures FromBigEndian(s) == Wide(s)
  {
    var front := s[..4];
    FourMore(s);
    FourMore(front);
    assert front[..0] == [];
  }

  /** The length a header announces: seven bits, two bytes behind the code 126, or eight behind 127. */
  function AnnouncedLength(buf: Bytes): nat
    requires |buf| >= 2 && |buf| >= 2 + Extra(buf[1])
  {
    var code := buf[1] as int % 128;
    if code == 126 then buf[2] as int * 256 + buf[3] as int
    else if code == 127 then Wide(buf[2..10])
    else code
  }

  function Extra(second: byte): nat {
    if second as int % 128 == 126 then 2 else if second as int % 128 == 127 then 8 else 0
  }

  /** The size of the header: two bytes, the length bytes, and four bytes of mask key if the top bit says so. */
  function HeaderSize(second: byte): nat { 2 + Extra(second) + if second >= 128 then 4 else 0 }

  lemma LengthIs(buf: Bytes)
    requires |buf| >= 2 && |buf| >= 2 + Extra(buf[1])
    ensures var extra := Extra(buf[1]);
      AnnouncedLength(buf) == if extra == 0 then buf[1] as int % 128 else FromBigEndian(buf[2..2 + extra])
  {
    var code := buf[1] as int % 128;
    if code == 126 {
      TwoBytes(buf[2..4]);
    } else if code == 127 {
      EightBytes(buf[2..10]);
    }
  }

  lemma ParseExact(buf: Bytes)
    requires |buf| >= 2
    ensures Parse(buf) ==
      if buf[0] as int % 128 >= 16 then Err(InvalidState)
      else if |buf| < HeaderSize(buf[1]) then Err(InvalidSize)
      else
        var size := HeaderSize(buf[1]);
        Ok(Parsed(buf[0] >= 128, buf[0] as int % 16, if buf[1] >= 128 then Some(buf[size - 4..size]) else None, size,
                  AnnouncedLength(buf)))
  {
    if |buf| >= 2 + Extra(buf[1]) { LengthIs(buf); }
  }

  /** One of the bits 4 to 6. */
  predicate Reserved(first: byte) {
    first as int / 16 % 2 == 1 || first as int / 32 % 2 == 1 || first as int / 64 % 2 == 1
  }

  lemma ReservedIs(first: byte)
    ensures Reserved(first) <==> first as int % 128 >= 16
  {
  }

  /** What the decoder makes of any bytes at all: fewer than two, a reserved bit, a header or a payload that is not all
      there, a payload without memory, a size check that wraps, and everything else, which is a frame. */
  lemma DecodeExact(buf: Bytes, granted: bool)
    ensures Decode(buf, granted) == Rejected(InvalidArg) <==> |buf| < 2
    ensures Decode(buf, granted) == Rejected(InvalidState) <==> |buf| >= 2 && Reserved(buf[0])
    ensures |buf| >= 2 && !Reserved(buf[0]) ==>
      var d, size := Decode(buf, granted), HeaderSize(buf[1]);
      if |buf| < size then d == Rejected(InvalidSize) else
        var n := AnnouncedLength(buf);
        if |buf| < (size + n) % 0x1_0000_0000_0000_0000 then d == Rejected(InvalidSize)
        else if |buf| < size + n then d == PastEnd
        else if n > 0 && !granted then d == Rejected(NoMem)
        else
          && d.Frame? && d.length == size + n
          && d.message.isFinal == (buf[0] >= 128) && d.message.opcode == buf[0] as int % 16 && d.message.payloadLen == n
          && (d.message.payload.Some? <==> n > 0)
          && (n > 0 ==> |d.message.payload.value| == n && forall i | 0 <= i < n ::
                d.message.payload.value[i] ==
                  if buf[1] >= 128 then Xor(buf[size + i], buf[size - 4 + i % 4]) else buf[size + i])
  {
    if |buf| >= 2 {
      ParseExact(buf);
      ReservedIs(buf[0]);
    }
  }

  /** Bit k of a number. */
  function BitAt(a: nat, k: nat): nat { if k == 0 then a % 2 else BitAt(a / 2, k - 1) }

  lemma {:induction false} XorBitAt(a: nat, b: nat, n: nat, k: nat)
    requires k < n
    ensures BitAt(XorBits(a, b, n), k) == if BitAt(a, k) == BitAt(b, k) then 0 else 1
  {
    var x := XorBits(a, b, n);
    assert x / 2 == XorBits(a / 2, b / 2, n - 1);
    if k > 0 { XorBitAt(a / 2, b / 2, n - 1, k - 1); }
  }

  /** Masking is exclusive or, bit by bit. */
  lemma MaskBits(payload: Bytes, key: Bytes, i: nat, k: nat)
    requires |key| == 4 && i < |payload| && k < 8
    ensures BitAt(Mask(payload, key)[i], k) == if BitAt(payload[i], k) == BitAt(key[i % 4], k) then 0 else 1
  {
    XorBitAt(payload[i], key[i % 4], 8, k);
  }

  /** The bytes of an unmasked header, length form by length form. */
  lemma HeadBytes(isFinal: bool, opcode: nat, n: nat)
    requires n < 0x1_0000_0000_0000_0000
    ensures var head := Head(isFinal, opcode, false, n);
      && |head| == (if n <= 125 then 2 else if n <= 0xFFFF then 4 else 10)
      && head[0] as int == (if isFinal then 0x80 else 0) + opcode % 16
      && head[1] as int == (if n <= 125 then n else if n <= 0xFFFF then 126 else 127)
      && (125 < n <= 0xFFFF ==> head[2] as int * 256 + head[3] as int == n)
      && (0xFFFF < n ==> Wide(head[2..10]) == n)
  {
    var head, front := Head(isFinal, opcode, false, n), Front(isFinal, opcode, false, n);
    var wide := BigEndian(n, Extended(n));
    assert head == front + wide && head[2..] == wide;
    if n > 125 {
      Powers256();
      BigEndianRoundTrip(n, Extended(n));
      if n <= 0xFFFF { TwoBytes(wide); } else { EightBytes(wide); }
    }
  }

  // ---------------------------------------------------------------- the wrapped size check

  lemma LengthBound(buf: Bytes)
    requires Parse(buf).Ok?
    ensures Parse(buf).value.length < UINT64_MOD
  {
    var code := buf[1] as int % 128;
    if code == 126 { FromBigEndianBound(buf[2..4]); Powers256(); }
    else if code == 127 { FromBigEndianBound(buf[2..10]); Powers256(); }
  }

  /** The size check is sound exactly when header and payload length do not add up to 2^64. */
  lemma PastEndIff(buf: Bytes, granted: bool)
    requires |buf| < UINT64_MOD
    ensures Decode(buf, granted).PastEnd? <==>
              Parse(buf).Ok? && Parse(buf).value.size + Parse(buf).value.length >= UINT64_MOD
  {
    if Parse(buf).Ok? {
      LengthBound(buf);
      var sum := Parse(buf).value.size + Parse(buf).value.length;
      assert sum >= UINT64_MOD ==> sum % UINT64_MOD == sum - UINT64_MOD;
    }
  }

  /** The longest length a frame can announce passes the check with ten bytes at hand. */
  lemma PastEndReached(granted: bool)
    ensures Decode([0x82, 127, 255, 255, 255, 255, 255, 255, 255, 255], granted) == PastEnd
  {
    var buf: Bytes := [0x82, 127, 255, 255, 255, 255, 255, 255, 255, 255];
    assert buf[2..10] == AllOnes(8);
    AllOnesValue(8);
    Powers256();
    PastEndIff(buf, granted);
  }

  function AllOnes(k: nat): (r: Bytes)
    ensures |r| == k
  {
    if k == 0 then [] else AllOnes(k - 1) + [255]
  }

  lemma {:induction false} AllOnesValue(k: nat)
    ensures FromBigEndian(AllOnes(k)) == Pow256(k) - 1
  {
    if k > 0 {
      assert AllOnes(k)[..k - 1] == AllOnes(k - 1);
      AllOnesValue(k - 1);
    }
  }

  /** Section 5.2 requires the top bit of a 64-bit length to be 0; such frames never reach that case. */
  lemma TopBitClear(buf: Bytes, granted: bool)
    requires |buf| < UINT64_MOD && |buf| >= 10 && buf[1] as int % 128 == 127 && buf[2] < 128
    ensures !Decode(buf, granted).PastEnd?
  {
    PastEndIff(buf, granted);
    if Parse(buf).Ok? { TopDigit(buf[2..10]); }
  }

  lemma TopDigit(s: Bytes)
    requires |s| == 8 && s[0] < 128
    ensures FromBigEndian(s) < UINT64_MOD / 2
  {
    FrontDigit(s);
    FromBigEndianBound(s[1..]);
    Powers256();
    assert Pow256(8) == 256 * Pow256(7);
    assert s[0] as int * Pow256(7) <= 127 * Pow256(7);
  }

  lemma {:induction false} FrontDigit(s: Bytes)
    requires s != []
    ensures FromBigEndian(s) == s[0] as int * Pow256(|s| - 1) + FromBigEndian(s[1..])
  {
    if |s| == 1 {
      assert s[..0] == [] && s[1..] == [];
    } else {
      var front := s[..|s| - 1];
      FrontDigit(front);
      assert s[1..][..|s| - 2] == front[1..];
      assert s[0] as int * Pow256(|s| - 2) * 256 == s[0] as int * Pow256(|s| - 1) by {
        assert Pow256(|s| - 1) == 256 * Pow256(|s| - 2);
      }
    }
  }

  // ---------------------------------------------------------------- round trips

  /** What a receiver reports for a message: an empty payload is NULL. */
  function Normal(isFinal: bool, opcode: nat, payload: Bytes): Message {
    Message(isFinal, opcode, if payload == [] then None else Some(payload), |payload|)
  }

  /** The frame for a payload, masked with a key or not. */
  function FrameOf(isFinal: bool, opcode: nat, key: Option<Bytes>, payload: Bytes): Bytes
    requires key.Some? ==> |key.value| == 4
  {
    Head(isFinal, opcode, key.Some?, |payload|)
    + (if key.Some? then key.value + Mask(payload, key.value) else payload)
  }

  lemma HeadSlices(front: Bytes, extended: Bytes, k: Bytes, rest: Bytes)
    requires |front| == 2
    ensures var buf, at := front + extended + k + rest, 2 + |extended|;
      buf[0] == front[0] && buf[1] == front[1] && buf[2..at] == extended && buf[at..at + |k|] == k
  {
    var buf, at := front + extended + k + rest, 2 + |extended|;
    assert forall i | 2 <= i < at :: buf[i] == extended[i - 2];
    assert forall i | at <= i < at + |k| :: buf[i] == k[i - at];
  }

  lemma ExtendedRead(n: nat)
    requires 125 < n < UINT64_MOD
    ensures FromBigEndian(BigEndian(n, Extended(n))) == n
  {
    Powers256();
    BigEndianRoundTrip(n, Extended(n));
  }

  lemma ParseFrom(buf: Bytes, extended: Bytes, k: Bytes, n: nat)
    requires |buf| >= 2 + |extended| + |k| && buf[0] as int / 16 % 8 == 0
    requires buf[2..2 + |extended|] == extended && buf[2 + |extended|..2 + |extended| + |k|] == k
    requires buf[1] as int % 128 == LengthCode(n) && |extended| == Extended(n)
    requires n > 125 ==> FromBigEndian(extended) == n
    requires |k| == if buf[1] >= 128 then 4 else 0
    ensures Parse(buf) == Ok(Parsed(buf[0] >= 128, buf[0] as int % 16, if buf[1] >= 128 then Some(k) else None,
                                    2 + |extended| + |k|, n))
  {
  }

  lemma FrontFields(isFinal: bool, opcode: nat, masked: bool, n: nat)
    requires opcode < 16
    ensures var front := Front(isFinal, opcode, masked, n);
      && front[0] as int / 16 % 8 == 0 && front[0] as int % 16 == opcode && (front[0] >= 128 <==> isFinal)
      && front[1] as int % 128 == LengthCode(n) && (front[1] >= 128 <==> masked)
  {
  }

  lemma ParseHead(isFinal: bool, opcode: nat, key: Option<Bytes>, n: nat, rest: Bytes)
    requires opcode < 16 && n < UINT64_MOD && (key.Some? ==> |key.value| == 4)
    ensures var head := Head(isFinal, opcode, key.Some?, n);
            var k := if key.Some? then key.value else [];
            Parse(head + k + rest) == Ok(Parsed(isFinal, opcode, key, |head| + |k|, n))
  {
    var front, extended := Front(isFinal, opcode, key.Some?, n), BigEndian(n, Extended(n));
    var k := if key.Some? then key.value else [];
    HeadSlices(front, extended, k, rest);
    FrontFields(isFinal, opcode, key.Some?, n);
    if n > 125 { ExtendedRead(n); }
    ParseFrom(front + extended + k + rest, extended, k, n);
  }

  function Payload(raw: Bytes, key: Option<Bytes>): (r: Bytes)
    requires key.Some? ==> |key.value| == 4
    ensures |r| == |raw|
  {
    if key.Some? then Mask(raw, key.value) else raw
  }

  /** A parsed header with its payload behind it is accepted. */
  lemma Accepts(buf: Bytes, h: Parsed, raw: Bytes)
    requires Parse(buf) == Ok(h) && h.length == |raw| && h.size + |raw| < UINT64_MOD
    requires h.size + |raw| <= |buf| && buf[h.size..h.size + |raw|] == raw
    ensures Decode(buf, true) == Frame(Normal(h.fin, h.opcode, Payload(raw, h.key)), h.size + |raw|)
  {
  }

  lemma FrameParsed(isFinal: bool, opcode: nat, key: Option<Bytes>, payload: Bytes, rest: Bytes)
    requires opcode < 16 && |payload| < UINT64_MOD && (key.Some? ==> |key.value| == 4)
    ensures var frame := FrameOf(isFinal, opcode, key, payload);
      var size := |frame| - |payload|;
      && 2 <= size <= 14
      && Parse(frame + rest) == Ok(Parsed(isFinal, opcode, key, size, |payload|))
      && (frame + rest)[size..size + |payload|] == Payload(payload, key)
  {
    var head := Head(isFinal, opcode, key.Some?, |payload|);
    var k := if key.Some? then key.value else [];
    var raw := Payload(payload, key);
    FrameParts(isFinal, opcode, key, payload, rest);
    ParseHead(isFinal, opcode, key, |payload|, raw + rest);
    Regroup(head + k, raw, rest);
    Middle(head + k, raw, rest);
  }

  /** Through all three length forms, masked with any key or not, a frame decodes to its message,
      whatever follows it. */
  lemma FrameRoundTrip(isFinal: bool, opcode: nat, key: Option<Bytes>, payload: Bytes, rest: Bytes)
    requires opcode < 16 && (key.Some? ==> |key.value| == 4)
    requires |payload| + 14 < UINT64_MOD
    ensures var frame := FrameOf(isFinal, opcode, key, payload);
            Decode(frame + rest, true) == Frame(Normal(isFinal, opcode, payload), |frame|)
  {
    var frame := FrameOf(isFinal, opcode, key, payload);
    FrameParsed(isFinal, opcode, key, payload, rest);
    AcceptsMasked(frame + rest, isFinal, opcode, key, |frame| - |payload|, payload);
  }

  lemma AcceptsMasked(buf: Bytes, isFinal: bool, opcode: nat, key: Option<Bytes>, size: nat, payload: Bytes)
    requires key.Some? ==> |key.value| == 4
    requires Parse(buf) == Ok(Parsed(isFinal, opcode, key, size, |payload|))
    requires size + |payload| < UINT64_MOD && size + |payload| <= |buf|
    requires buf[size..size + |payload|] == Payload(payload, key)
    ensures Decode(buf, true) == Frame(Normal(isFinal, opcode, payload), size + |payload|)
  {
    Accepts(buf, Parsed(isFinal, opcode, key, size, |payload|), Payload(payload, key));
    PayloadTwice(payload, key);
  }

  lemma PayloadTwice(payload: Bytes, key: Option<Bytes>)
    requires key.Some? ==> |key.value| == 4
    ensures Payload(Payload(payload, key), key) == payload
  {
    if key.Some? { MaskTwice(payload, key.value); }
  }

  lemma FrameParts(isFinal: bool, opcode: nat, key: Option<Bytes>, payload: Bytes, rest: Bytes)
    requires key.Some? ==> |key.value| == 4
    ensures var head := Head(isFinal, opcode, key.Some?, |payload|);
            var k := if key.Some? then key.value else [];
            var raw := Payload(payload, key);
            && FrameOf(isFinal, opcode, key, payload) + rest == head + k + (raw + rest)
            && |FrameOf(isFinal, opcode, key, payload)| == |head + k| + |payload|
  {
    var head := Head(isFinal, opcode, key.Some?, |payload|);
    var k := if key.Some? then key.value else [];
    var raw := Payload(payload, key);
    if key.None? { assert k + raw == raw; }
    assert FrameOf(isFinal, opcode, key, payload) == head + (k + raw);
    Regroup(head, k, raw);
    Regroup(head + k, raw, rest);
  }

  /** The size check of the encoder is sound exactly when header and payload length do not add up to 2^64. */
  lemma EncodeWrapsIff(m: Message, was: Bytes)
    requires Typed(m) && |was| < UINT64_MOD
    ensures var size := 2 + Extended(m.payloadLen) + m.payloadLen;
      (match Encode(m, was)
       case Written(bytes, length) => length == size
       case Refused(_) => |was| < size
       case Overrun => false)
      <==> size < UINT64_MOD || |was| < size - UINT64_MOD
  {
    var size := 2 + Extended(m.payloadLen) + m.payloadLen;
    if size >= UINT64_MOD { assert size % UINT64_MOD == size - UINT64_MOD; }
  }

  /** A NULL payload announced with 2^64 - 5 bytes is accepted into ten bytes, as a frame of five. */
  lemma EncodeWrapReached(was: Bytes)
    requires |was| == 10
    ensures var m := Message(true, 2, None, UINT64_MOD - 5);
      Encode(m, was) == Written(Head(true, 2, false, UINT64_MOD - 5), 5)
  {
  }

  /** A payload pointer and a payload length that agree: NULL exactly for no payload. */
  predicate Consistent(m: Message) { m.payloadLen > 0 <==> m.payload.Some? }

  /** The frame the encoder reports: the first length bytes of a buffer that held was. */
  function Reported(bytes: Bytes, was: Bytes, length: nat): Bytes
    requires |bytes| <= |was| && length <= |was|
  {
    (bytes + was[|bytes|..])[..length]
  }

  /** Whatever decodes has a NULL payload exactly for length 0, and is longer than its payload. */
  lemma DecodedShape(buf: Bytes)
    ensures var d := Decode(buf, true);
      d.Frame? ==> Consistent(d.message) && d.message.opcode < 16 && d.length > d.message.payloadLen
  {
  }

  /** Decode after encode, with anything behind the reported frame: the message comes back if and only if its payload
      pointer and length agree and its opcode has four bits. The encoder refuses for want of room only, and overruns
      only when the sum of its size check wraps. */
  lemma EncodeRoundTrip(m: Message, was: Bytes, rest: Bytes)
    requires Typed(m) && |was| < UINT64_MOD - 14
    ensures match Encode(m, was)
      case Refused(e) => e == NoMem && |was| < 2 + Extended(m.payloadLen) + m.payloadLen
      case Overrun => m.payloadLen + 14 >= UINT64_MOD
      case Written(bytes, n) =>
        && |bytes| <= |was| && n <= |was|
        && (Decode(Reported(bytes, was, n) + rest, true) == Frame(m, n) <==> Consistent(m) && m.opcode < 16)
  {
    if Encode(m, was).Written? {
      var Written(bytes, n) := Encode(m, was);
      DecodedShape(Reported(bytes, was, n) + rest);
      if Consistent(m) && m.opcode < 16 {
        var payload := if m.payloadLen == 0 then [] else m.payload.value;
        EncodedIsFrame(m, was, payload);
        FrontOf(bytes, was);
        FrameRoundTrip(m.isFinal, m.opcode, None, payload, rest);
      }
    }
  }

  lemma FrontOf(bytes: Bytes, was: Bytes)
    requires |bytes| <= |was|
    ensures Reported(bytes, was, |bytes|) == bytes
  {
  }

  lemma EncodedIsFrame(m: Message, was: Bytes, payload: Bytes)
    requires Typed(m) && |was| < UINT64_MOD - 14 && Encode(m, was).Written?
    requires m.payload == if payload == [] then None else Some(payload)
    requires |payload| == m.payloadLen
    ensures m.payloadLen + 14 < UINT64_MOD
    ensures var frame := FrameOf(m.isFinal, m.opcode, None, payload);
      Encode(m, was) == Written(frame, |frame|)
  {
    var head := Head(m.isFinal, m.opcode, false, m.payloadLen);
    if payload == [] { assert head + payload == head; }
  }

  /** A NULL payload announced with n bytes: the frame is made of what the buffer held before. */
  lemma StalePayload(isFinal: bool, opcode: nat, n: nat, was: Bytes, rest: Bytes)
    requires opcode < 16 && n > 0 && |was| < UINT64_MOD - 14 && 2 + Extended(n) + n <= |was|
    ensures var at := 2 + Extended(n);
      var r := Encode(Message(isFinal, opcode, None, n), was);
      && r.Written? && r.length == at + n && |r.bytes| <= |was|
      && Decode(Reported(r.bytes, was, at + n) + rest, true) ==
           Frame(Message(isFinal, opcode, Some(was[at..at + n]), n), at + n)
  {
    var at, head := 2 + Extended(n), Head(isFinal, opcode, false, n);
    var stale := was[at..at + n];
    assert (head + was[at..])[..at + n] == head + stale;
    assert FrameOf(isFinal, opcode, None, stale) == head + stale;
    FrameRoundTrip(isFinal, opcode, None, stale, rest);
  }

  /** Five bytes announced and none given, into seven: the last five go out as they were. */
  lemma StalePayloadReached(was: Bytes)
    requires |was| == 7
    ensures var head := Head(true, 2, false, 5);
      && Encode(Message(true, 2, None, 5), was) == Written(head, 7)
      && Decode(head + was[2..], true) == Frame(Message(true, 2, Some(was[2..]), 5), 7)
  {
    StalePayload(true, 2, 5, was, []);
    var head := Head(true, 2, false, 5);
    assert Reported(head, was, 7) + [] == head + was[2..];
    assert was[2..7] == was[2..];
  }

  // ---------------------------------------------------------------- self-delimiting

  lemma ParsePrefix(a: Bytes, b: Bytes)
    requires a <= b && Parse(a).Ok?
    ensures Parse(b) == Parse(a)
  {
    var code := a[1] as int % 128;
    var extra := if code == 126 then 2 else if code == 127 then 8 else 0;
    assert a[2..2 + extra] == b[2..2 + extra];
    if a[1] >= 128 { assert a[2 + extra..2 + extra + 4] == b[2 + extra..2 + extra + 4]; }
  }

  /** Parsing looks at no byte behind the header it finds. */
  lemma ParseCut(buf: Bytes, k: nat)
    requires Parse(buf).Ok? && Parse(buf).value.size <= k <= |buf|
    ensures Parse(buf[..k]) == Parse(buf)
  {
    var cut := buf[..k];
    var code := buf[1] as int % 128;
    var extra := if code == 126 then 2 else if code == 127 then 8 else 0;
    SliceOfPrefix(buf, k, 2, 2 + extra);
    if buf[1] >= 128 { SliceOfPrefix(buf, k, 2 + extra, 2 + extra + 4); }
  }

  /** A prefix that ends inside the header is refused for its size. */
  lemma ParseShort(buf: Bytes, k: nat)
    requires Parse(buf).Ok? && k < Parse(buf).value.size
    ensures Parse(buf[..k]) == Err(InvalidArg) || Parse(buf[..k]) == Err(InvalidSize)
  {
  }

  /** An accepted frame decodes the same whatever follows it, and none of its proper prefixes is accepted. */
  lemma SelfDelimiting(buf: Bytes, rest: Bytes)
    requires |buf| < UINT64_MOD && Decode(buf, true).Frame?
    ensures var n := Decode(buf, true).length;
      && n <= |buf|
      && Decode(buf[..n] + rest, true) == Decode(buf, true)
      && forall k | 0 <= k < n :: TooShort(buf, k)
  {
    var h := Parse(buf).value;
    var n := h.size + h.length;
    var raw := buf[h.size..n];
    LengthBound(buf);
    PastEndIff(buf, true);
    Accepts(buf, h, raw);
    ParseCut(buf, n);
    ParsePrefix(buf[..n], buf[..n] + rest);
    SliceOfPrefix(buf[..n] + rest, n, h.size, n);
    SliceOfPrefix(buf, n, h.size, n);
    assert (buf[..n] + rest)[..n] == buf[..n];
    Accepts(buf[..n] + rest, h, raw);
    forall k | 0 <= k < n ensures TooShort(buf, k) {
      if k < h.size { ParseShort(buf, k); } else { ParseCut(buf, k); }
    }
  }

  predicate TooShort(buf: Bytes, k: nat)
    requires k <= |buf|
  {
    Decode(buf[..k], true) == Rejected(InvalidArg) || Decode(buf[..k], true) == Rejected(InvalidSize)
  }

  // ---------------------------------------------------------------- shortest form

  /** The encoder's length form is the shortest that can announce n. */
  lemma ExtendedShortest(buf: Bytes)
    requires Parse(buf).Ok?
    ensures 2 + Extended(Parse(buf).value.length) <= Parse(buf).value.size
  {
    var code := buf[1] as int % 128;
    if code == 126 { FromBigEndianBound(buf[2..4]); Powers256(); }
  }

  /** Encoding what was decoded gives a frame that is no longer and decodes to the same message. */
  lemma ReencodeShortest(buf: Bytes)
    requires |buf| < UINT64_MOD - 14 && Decode(buf, true).Frame?
    ensures var Frame(m, n) := Decode(buf, true);
      && Encode(m, buf).Written?
      && |Encode(m, buf).bytes| <= n
      && Decode(Encode(m, buf).bytes, true) == Frame(m, |Encode(m, buf).bytes|)
  {
    ExtendedShortest(buf);
    var Frame(m, n) := Decode(buf, true);
    EncodeRoundTrip(m, buf, []);
    var frame := Encode(m, buf).bytes;
    assert frame + [] == frame;
  }
}
