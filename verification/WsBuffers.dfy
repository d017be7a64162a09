// ws_frame.c in place: the loops over the length bytes and the payload.
module WsBuffers {
  import opened Octets
  import opened Wrappers
  import opened WsFrame

  lemma DivDiv(n: nat, d: nat)
    requires d > 0
    ensures n / 256 / d == n / (256 * d)
  {
    var q, r := n / 256 / d, n / 256 % d;
    assert n == 256 * (d * q + r) + n % 256;
    assert n == (256 * d) * q + (256 * r + n % 256);
    Quotient(n, 256 * d, q, 256 * r + n % 256);
  }

  lemma Quotient(n: nat, d: nat, q: nat, r: nat)
    requires d > 0 && n == d * q + r && r < d
    ensures n / d == q
  {
    assert n == d * (n / d) + n % d;
    assert d * (q - n / d) == n % d - r;
    Apart(d, q - n / d);
  }

  lemma Apart(d: int, x: int)
    requires d > 0
    ensures x >= 1 ==> d * x >= d
    ensures x <= -1 ==> d * x <= -d
  {
  }

  /** Byte i of the big-endian form is (n >> 8 * (k - 1 - i)) & 0xFF. */
  lemma {:induction false} BigEndianAt(n: nat, k: nat, i: nat)
    requires i < k
    ensures Pow256(k - 1 - i) > 0 && BigEndian(n, k)[i] == n / Pow256(k - 1 - i) % 256
    decreases k
  {
    if i < k - 1 {
      BigEndianAt(n / 256, k - 1, i);
      DivDiv(n, Pow256(k - 2 - i));
    }
  }

  function PowPositive(k: nat): (r: nat)
    ensures r > 0 && r == Pow256(k)
  {
    if k == 0 then 1 else 256 * PowPositive(k - 1)
  }

  /** ws_encode_frame; Written holds what the buffer now starts with. The source goes on where this method
      answers Err(None). */
  method EncodeFrame(m: Message, buffer: array<byte>) returns (r: Result<nat, Option<Error>>)
    requires Typed(m)
    modifies buffer
    ensures match Encode(m, old(buffer[..]))
      case Refused(e) => r == Err(Some(e)) && buffer[..] == old(buffer[..])
      case Overrun => r == Err(None) && buffer[..] == old(buffer[..])
      case Written(bytes, length) => r == Ok(length) && buffer[..] == bytes + old(buffer[..])[|bytes|..]
  {
    var headerLen := 2;
    var n := m.payloadLen;
    if n > 125 {
      if n <= 0xFFFF { headerLen := headerLen + 2; } else { headerLen := headerLen + 8; }
    }
    var sum := (headerLen + n) % UINT64_MOD;
    if buffer.Length < sum { return Err(Some(NoMem)); }
    if buffer.Length < headerLen + (if m.payload.Some? then n else 0) { return Err(None); }
    ghost var was, head := buffer[..], Head(m.isFinal, m.opcode, false, n);
    WriteHead(m, buffer, headerLen);
    WritePayload(m.payload, n, buffer, headerLen, head, was);
    return Ok(sum);
  }

  /** The copy of the payload, if there is one. */
  method WritePayload(payload: Option<Bytes>, n: nat, buffer: array<byte>, from: nat,
                      ghost head: Bytes, ghost was: Bytes)
    requires payload.Some? ==> |payload.value| == n && |head| + n <= |was|
    requires from == |head| <= |was| == buffer.Length && buffer[..] == head + was[|head|..]
    modifies buffer
    ensures var bytes := if payload.Some? then head + payload.value else head;
      buffer[..] == bytes + was[|bytes|..]
  {
    if n > 0 && payload.Some? {
      Laid(head, was, payload.value);
      CopyIn(buffer, from, payload.value);
    }
  }

  /** memcpy(buffer + from, bytes, length) */
  method CopyIn(buffer: array<byte>, from: nat, bytes: Bytes)
    requires from + |bytes| <= buffer.Length
    modifies buffer
    ensures buffer[..] == old(buffer[..])[..from] + bytes + old(buffer[..])[from + |bytes|..]
  {
    forall i | 0 <= i < |bytes| { buffer[from + i] := bytes[i]; }
  }

  /** Header over the old bytes, then the payload over the result. */
  lemma Laid(head: Bytes, was: Bytes, payload: Bytes)
    requires |head| + |payload| <= |was|
    ensures var mid := head + was[|head|..];
      mid[..|head|] + payload + mid[|head| + |payload|..] == head + payload + was[|head| + |payload|..]
  {
    var mid := head + was[|head|..];
    assert mid[|head| + |payload|..] == was[|head| + |payload|..];
  }

  /** The length bytes of the longest form. */
  method WriteWide(n: nat, buffer: array<byte>)
    requires buffer.Length >= 10
    modifies buffer
    ensures buffer[..] == old(buffer[..2]) + BigEndian(n, 8) + old(buffer[10..])
  {
    ghost var was := buffer[..];
    var i := 0;
    while i < 8
      invariant 0 <= i <= 8
      invariant buffer[..2] == was[..2] && buffer[2..2 + i] == BigEndian(n, 8)[..i] && buffer[10..] == was[10..]
    {
      BigEndianAt(n, 8, i);
      buffer[2 + i] := n / PowPositive(7 - i) % 256;
      i := i + 1;
    }
    assert buffer[..] == buffer[..2] + buffer[2..10] + buffer[10..];
  }

  /** The length bytes of the two-byte form. */
  method WriteNarrow(n: nat, buffer: array<byte>)
    requires buffer.Length >= 4
    modifies buffer
    ensures buffer[..] == old(buffer[..2]) + BigEndian(n, 2) + old(buffer[4..])
  {
    buffer[2] := n / 256 % 256;
    buffer[3] := n % 256;
    BigEndianAt(n, 2, 0);
    BigEndianAt(n, 2, 1);
    assert Pow256(1) == 256 && Pow256(0) == 1;
    assert BigEndian(n, 2) == [n / 256 % 256, n % 256];
  }

  method WriteHead(m: Message, buffer: array<byte>, headerLen: nat)
    requires headerLen == 2 + Extended(m.payloadLen) <= buffer.Length
    modifies buffer
    ensures buffer[..] == Head(m.isFinal, m.opcode, false, m.payloadLen) + old(buffer[..])[headerLen..]
  {
    var n := m.payloadLen;
    ghost var was, front := buffer[..], Front(m.isFinal, m.opcode, false, n);
    buffer[0] := (if m.isFinal then 128 else 0) + m.opcode % 16;
    if n <= 125 {
      buffer[1] := n;
      assert buffer[..] == front + [] + was[2..];
    } else if n <= 0xFFFF {
      buffer[1] := 126;
      assert buffer[..2] == front && buffer[4..] == was[4..];
      WriteNarrow(n, buffer);
    } else {
      buffer[1] := 127;
      assert buffer[..2] == front && buffer[10..] == was[10..];
      WriteWide(n, buffer);
    }
  }

  /** The loop that reads a 64-bit length, and the two-byte form. */
  method ReadLength(buffer: array<byte>, extra: nat) returns (length: nat)
    requires (extra == 2 || extra == 8) && 2 + extra <= buffer.Length
    ensures length == FromBigEndian(buffer[2..2 + extra])
  {
    length := 0;
    var i := 0;
    while i < extra
      invariant 0 <= i <= extra
      invariant length == FromBigEndian(buffer[2..2 + i])
    {
      length := length * 256 + buffer[2 + i] as int;
      i := i + 1;
      assert buffer[2..2 + i][..i - 1] == buffer[2..2 + i - 1];
    }
  }

  /** The unmasking loop, in place on the copied payload. */
  method Unmask(payload: array<byte>, key: Bytes)
    requires |key| == 4
    modifies payload
    ensures payload[..] == Mask(old(payload[..]), key)
  {
    ghost var was := payload[..];
    var i := 0;
    while i < payload.Length
      invariant 0 <= i <= payload.Length
      invariant payload[..i] == Mask(was, key)[..i]
      invariant payload[i..] == was[i..]
    {
      assert payload[i] == was[i];
      payload[i] := Xor(payload[i], key[i % 4]);
      i := i + 1;
    }
  }

  /** ws_decode_frame up to its check of the buffer's size. */
  method GetHead(buffer: array<byte>) returns (r: Result<Parsed, Error>)
    ensures r == Parse(buffer[..])
  {
    if buffer.Length < 2 { return Err(InvalidArg); }
    var first, second: int := buffer[0], buffer[1];
    if first / 16 % 8 != 0 { return Err(InvalidState); }
    var headerLen := 2;
    var length: nat := second % 128;
    if length == 126 {
      if buffer.Length < 4 { return Err(InvalidSize); }
      length := ReadLength(buffer, 2);
      headerLen := headerLen + 2;
    } else if length == 127 {
      if buffer.Length < 10 { return Err(InvalidSize); }
      length := ReadLength(buffer, 8);
      headerLen := headerLen + 8;
    }
    assert buffer[..][2..headerLen] == buffer[2..headerLen];
    var key := None;
    if second >= 128 {
      if buffer.Length < headerLen + 4 { return Err(InvalidSize); }
      key := Some(buffer[headerLen..headerLen + 4]);
      assert buffer[..][headerLen..headerLen + 4] == key.value;
      headerLen := headerLen + 4;
    }
    return Ok(Parsed(first >= 128, first % 16, key, headerLen, length));
  }

  /** ws_decode_frame. The source goes on where this method answers PastEnd. */
  method DecodeFrame(buffer: array<byte>, granted: bool) returns (r: Decoded)
    ensures r == Decode(buffer[..], granted)
  {
    var head := GetHead(buffer);
    if head.Err? { return Rejected(head.error); }
    var Parsed(fin, opcode, key, headerLen, length) := head.value;
    if buffer.Length < (headerLen + length) % UINT64_MOD { return Rejected(InvalidSize); }
    if buffer.Length < headerLen + length { return PastEnd; }
    if length == 0 { return Frame(Message(fin, opcode, None, 0), headerLen); }
    if !granted { return Rejected(NoMem); }
    var payload := CopyPayload(buffer, headerLen, length, key);
    r := Frame(Message(fin, opcode, Some(payload), length), headerLen + length);
  }

  method CopyPayload(buffer: array<byte>, from: nat, length: nat, key: Option<Bytes>) returns (payload: Bytes)
    requires from + length <= buffer.Length && (key.Some? ==> |key.value| == 4)
    ensures payload == Payload(buffer[..][from..from + length], key)
  {
    var copy := new byte[length](i requires 0 <= i < length && from + length <= buffer.Length
                                 reads buffer => buffer[from + i]);
    assert copy[..] == buffer[..][from..from + length];
    if key.Some? { Unmask(copy, key.value); }
    payload := copy[..];
  }
}
