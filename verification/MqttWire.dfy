// The two primitive encodings of MQTT packets: base-128 remaining lengths and length-prefixed strings.
module MqttWire {
  import opened Octets
  import opened Slices
  import opened Wrappers

  function Pow128(k: nat): nat { if k == 0 then 1 else 128 * Pow128(k - 1) }

  // ---------------------------------------------------------------- remaining length

  /** encode_remaining_length with this many bytes left: low digit first, continuation bit on all but the last. */
  function Digits(n: nat, room: nat): (r: Bytes)
    requires room > 0
    ensures 1 <= |r| <= room
  {
    if n < 128 then [n]
    else [n % 128 + 128] + (if room > 1 then Digits(n / 128, room - 1) else [])
  }

  function EncodeLength(n: nat): Bytes { Digits(n, 4) }

  /** decode_remaining_length after some bytes: value and number of bytes used, None for -1. */
  function DecodeFrom(buf: Bytes, used: nat, multiplier: nat, length: nat): (r: Option<(nat, nat)>)
    requires used <= |buf|
    ensures r.Some? ==> used < r.value.1 <= |buf|
    decreases |buf| - used
  {
    if used == |buf| then None else
      var length' := length + buf[used] % 128 * multiplier;
      var multiplier' := multiplier * 128;
      if multiplier' > 128 * 128 * 128 then None
      else if buf[used] < 128 then Some((length', used + 1))
      else DecodeFrom(buf, used + 1, multiplier', length')
  }

  function DecodeLength(buf: Bytes): Option<(nat, nat)> { DecodeFrom(buf, 0, 1, 0) }

  /** The number a base-128 string stands for (section 2.2.3 of MQTT 3.1.1), read with no limit on its length. */
  function Value(digits: Bytes): nat {
    if digits == [] then 0 else digits[0] % 128 + 128 * Value(digits[1..])
  }

  /** Continuation bits on all bytes but the last. */
  predicate WellFormed(digits: Bytes) {
    digits != [] && digits[|digits| - 1] < 128 && forall i | 0 <= i < |digits| - 1 :: digits[i] >= 128
  }

  /** One more digit in front. */
  lemma Prepended(d: byte, rest: Bytes)
    requires d >= 128 && WellFormed(rest)
    ensures WellFormed([d] + rest) && Value([d] + rest) == d - 128 + 128 * Value(rest)
  {
    var all := [d] + rest;
    assert all[1..] == rest;
    assert all[|all| - 1] == rest[|rest| - 1];
    assert forall i | 1 <= i < |all| - 1 :: all[i] == rest[i - 1];
  }

  lemma LastDigit(d: byte)
    requires d < 128
    ensures WellFormed([d]) && Value([d]) == d
  {
    assert [d][1..] == [];
  }

  lemma {:induction false} DigitsCorrect(n: nat, room: nat)
    requires room > 0 && n < Pow128(room)
    ensures WellFormed(Digits(n, room)) && Value(Digits(n, room)) == n
    decreases room
  {
    if n >= 128 {
      assert Pow128(room) == 128 * Pow128(room - 1);
      assert Pow128(0) == 1;
      DigitsCorrect(n / 128, room - 1);
      Prepended(n % 128 + 128, Digits(n / 128, room - 1));
    } else {
      LastDigit(n);
    }
  }

  lemma {:induction false} DigitsNeeded(n: nat, room: nat)
    requires room > 0 && n >= 128
    ensures n >= Pow128(|Digits(n, room)| - 1)
    decreases room
  {
    if room > 1 {
      var rest := Digits(n / 128, room - 1);
      assert Pow128(|rest|) == 128 * Pow128(|rest| - 1);
      if n / 128 >= 128 { DigitsNeeded(n / 128, room - 1); } else { assert Pow128(0) == 1; }
    } else {
      assert Pow128(0) == 1;
    }
  }

  lemma {:induction false} ValueBound(digits: Bytes)
    ensures Value(digits) < Pow128(|digits|)
  {
    if digits != [] { ValueBound(digits[1..]); }
  }

  lemma {:induction false} PowMonotone(a: nat, b: nat)
    requires a <= b
    ensures Pow128(a) <= Pow128(b)
  {
    if a < b { PowMonotone(a, b - 1); }
  }

  lemma PowReflects(a: nat, b: nat)
    ensures Pow128(a) < Pow128(b) ==> a < b
  {
    if b <= a { PowMonotone(b, a); }
  }

  /** For every value below 128^4 the encoder writes a well-formed string of that value, and no shorter one exists. */
  lemma EncodeShortest(n: nat, other: Bytes)
    requires n < Pow128(4)
    requires WellFormed(other) && Value(other) == n
    ensures WellFormed(EncodeLength(n)) && Value(EncodeLength(n)) == n
    ensures |EncodeLength(n)| <= |other|
  {
    DigitsCorrect(n, 4);
    ValueBound(other);
    if n >= 128 { DigitsNeeded(n, 4); }
    PowReflects(|EncodeLength(n)| - 1, |other|);
  }

  /** One turn of the decoder on a byte that does not end the number. */
  lemma DecodeStep(buf: Bytes, used: nat, multiplier: nat, length: nat)
    requires used < |buf| && multiplier <= 128 * 128 && buf[used] >= 128
    ensures DecodeFrom(buf, used, multiplier, length) ==
            DecodeFrom(buf, used + 1, multiplier * 128, length + buf[used] % 128 * multiplier)
  {
  }

  lemma DecodeEnd(buf: Bytes, used: nat, multiplier: nat, length: nat)
    requires used < |buf| && multiplier <= 128 * 128 && buf[used] < 128
    ensures DecodeFrom(buf, used, multiplier, length) == Some((length + buf[used] * multiplier, used + 1))
  {
  }

  lemma DecodeTooLong(buf: Bytes, used: nat, length: nat)
    requires used < |buf|
    ensures DecodeFrom(buf, used, 128 * 128 * 128, length) == None
  {
  }

  lemma ValueOf(d: byte, rest: Bytes)
    ensures Value([d] + rest) == d % 128 + 128 * Value(rest)
  {
    assert ([d] + rest)[1..] == rest;
  }

  lemma ShortValue(digits: Bytes)
    requires WellFormed(digits) && |digits| <= 3
    ensures |digits| == 1 ==> Value(digits) == digits[0]
    ensures |digits| == 2 ==> Value(digits) == digits[0] % 128 + 128 * digits[1] as int
    ensures |digits| == 3 ==>
              Value(digits) == digits[0] % 128 + 128 * (digits[1] as int % 128) + 128 * 128 * digits[2] as int
  {
    var n := |digits|;
    assert digits == digits[..n - 1] + [digits[n - 1]];
    LastDigit(digits[n - 1]);
    if n == 2 {
      assert digits == [digits[0]] + [digits[1]];
      ValueOf(digits[0], [digits[1]]);
    } else if n == 3 {
      assert digits == [digits[0]] + ([digits[1]] + [digits[2]]);
      ValueOf(digits[1], [digits[2]]);
      ValueOf(digits[0], [digits[1]] + [digits[2]]);
    }
  }

  /** A buffer that starts with well-formed digits is read as their value, provided they end among the first three. */
  lemma DecodeReads(buf: Bytes, digits: Bytes)
    requires WellFormed(digits) && |digits| <= |buf| && buf[..|digits|] == digits
    ensures DecodeLength(buf) == if |digits| <= 3 then Some((Value(digits), |digits|)) else None
  {
    var n := |digits|;
    assert forall i | 0 <= i < n :: buf[i] == digits[i];
    if n <= 3 { ShortValue(digits); }
    if n == 1 {
      DecodeEnd(buf, 0, 1, 0);
    } else {
      DecodeStep(buf, 0, 1, 0);
      var length: nat := buf[0] % 128;
      if n == 2 {
        DecodeEnd(buf, 1, 128, length);
      } else {
        DecodeStep(buf, 1, 128, length);
        length := length + (buf[1] as int % 128) * 128;
        if n == 3 {
          DecodeEnd(buf, 2, 128 * 128, length);
        } else {
          DecodeStep(buf, 2, 128 * 128, length);
          DecodeTooLong(buf, 3, length + (buf[2] as int % 128) * (128 * 128));
        }
      }
    }
  }

  lemma Powers()
    ensures Pow128(0) == 1 && Pow128(1) == 128 && Pow128(2) == 128 * 128
    ensures Pow128(3) == 128 * 128 * 128 && Pow128(4) == 128 * 128 * 128 * 128
  {
    assert Pow128(2) == 128 * Pow128(1);
    assert Pow128(3) == 128 * Pow128(2);
  }

  /** While no byte ends the number, the decoder reads on until it gives up. */
  lemma {:induction false} NoEndNoValue(buf: Bytes, used: nat, length: nat)
    requires used <= |buf| && used <= 3
    requires forall i | used <= i < 3 && i < |buf| :: buf[i] >= 128
    ensures DecodeFrom(buf, used, Pow128(used), length) == None
    decreases 3 - used
  {
    Powers();
    if used < |buf| && used < 3 {
      NoEndNoValue(buf, used + 1, length + buf[used] % 128 * Pow128(used));
    }
  }

  lemma {:induction false} FirstEnd(buf: Bytes, k: nat) returns (j: nat)
    requires k < |buf| && buf[k] < 128
    ensures j <= k && buf[j] < 128 && forall i | 0 <= i < j :: buf[i] >= 128
    decreases k
  {
    if i :| 0 <= i < k && buf[i] < 128 { j := FirstEnd(buf, i); } else { j := k; }
  }

  /** The decoder accepts exactly the inputs whose terminating byte is among the first three. */
  lemma DecodeAccepts(buf: Bytes)
    ensures DecodeLength(buf).Some? <==> exists k | 0 <= k < 3 && k < |buf| :: buf[k] < 128
    ensures DecodeLength(buf).Some? ==>
      var (n, used) := DecodeLength(buf).value;
      1 <= used <= 3 && used <= |buf| && WellFormed(buf[..used]) && Value(buf[..used]) == n < Pow128(3)
  {
    if k :| 0 <= k < 3 && k < |buf| && buf[k] < 128 {
      var j := FirstEnd(buf, k);
      var digits := buf[..j + 1];
      DecodeReads(buf, digits);
      Powers();
      ValueBound(digits);
      PowMonotone(j + 1, 3);
    } else {
      Powers();
      NoEndNoValue(buf, 0, 0);
    }
  }

  /** The decoder inverts the encoder, under any suffix, for exactly the values below 128^3. */
  lemma LengthRoundTrip(n: nat, rest: Bytes)
    ensures DecodeLength(EncodeLength(n) + rest) == Some((n, |EncodeLength(n)|)) <==> n < Pow128(3)
    ensures n >= Pow128(3) ==> DecodeLength(EncodeLength(n) + rest) == None
  {
    var digits := EncodeLength(n);
    Powers();
    if n < Pow128(3) {
      DigitsCorrect(n, 4);
      DecodeReads(digits + rest, digits);
      ShortEnough(n);
    } else {
      ThreeContinued(n);
      NoEndNoValue(digits + rest, 0, 0);
    }
  }

  lemma ShortEnough(n: nat)
    requires n < Pow128(3)
    ensures |EncodeLength(n)| <= 3
  {
    Powers();
    if n >= 128 { DigitsNeeded(n, 4); }
  }

  lemma ThreeContinued(n: nat)
    requires n >= 128 * 128 * 128
    ensures |EncodeLength(n)| == 4 && forall i | 0 <= i < 3 :: EncodeLength(n)[i] >= 128
  {
    assert EncodeLength(n) == [n % 128 + 128] + Digits(n / 128, 3);
    assert Digits(n / 128, 3) == [n / 128 % 128 + 128] + Digits(n / 128 / 128, 2);
    assert Digits(n / 128 / 128, 2) == [n / 128 / 128 % 128 + 128] + Digits(n / 128 / 128 / 128, 1);
  }

  /** The first value the decoder refuses, although section 2.2.3 of MQTT 3.1.1 allows it. */
  lemma FourByteLengthRefused(rest: Bytes)
    ensures DecodeLength(EncodeLength(2097152) + rest) == None
    ensures WellFormed(EncodeLength(2097152)) && Value(EncodeLength(2097152)) == 2097152
  {
    Powers();
    LengthRoundTrip(2097152, rest);
    DigitsCorrect(2097152, 4);
  }

  /** The digits byte by byte: the lowest seven bits first, 128 added to every byte but the last. */
  lemma LengthBytes(n: nat)
    requires n < 128 * 128 * 128 * 128
    ensures n < 128 ==> EncodeLength(n) == [n]
    ensures 128 <= n < 128 * 128 ==> EncodeLength(n) == [n % 128 + 128, n / 128]
    ensures 128 * 128 <= n < 128 * 128 * 128 ==>
              EncodeLength(n) == [n % 128 + 128, n / 128 % 128 + 128, n / 128 / 128]
    ensures 128 * 128 * 128 <= n ==>
              EncodeLength(n) == [n % 128 + 128, n / 128 % 128 + 128, n / 128 / 128 % 128 + 128, n / 128 / 128 / 128]
  {
    assert Digits(n / 128 / 128, 2) == if n / 128 / 128 < 128 then [n / 128 / 128]
                                       else [n / 128 / 128 % 128 + 128] + Digits(n / 128 / 128 / 128, 1);
    assert Digits(n / 128, 3) == if n / 128 < 128 then [n / 128]
                                 else [n / 128 % 128 + 128] + Digits(n / 128 / 128, 2);
  }

  // ---------------------------------------------------------------- what a packet announces

  /** The digits announce a size exactly when they were made from it and it fits four of them: from 128^4 on the
      encoder stops at a fourth byte that says more follow. */
  lemma LengthAnnounces(n: nat, size: nat)
    ensures WellFormed(EncodeLength(n)) && Value(EncodeLength(n)) == size <==> n == size && n < Pow128(4)
  {
    if n < Pow128(4) { DigitsCorrect(n, 4); } else { NeverEnds(n, 4); }
  }

  lemma {:induction false} NeverEnds(n: nat, room: nat)
    requires room > 0 && n >= Pow128(room)
    ensures |Digits(n, room)| == room && forall i | 0 <= i < room :: Digits(n, room)[i] >= 128
    decreases room
  {
    assert Pow128(room) == 128 * Pow128(room - 1);
    if room > 1 { NeverEnds(n / 128, room - 1); } else { assert Pow128(0) == 1; }
  }

  /** A remaining length as section 2.2.3 of MQTT 3.1.1 has a receiver read it, from at most room bytes. */
  function ReadLength(buf: Bytes, room: nat): Option<(nat, nat)>
    decreases room
  {
    if buf == [] || room == 0 then None
    else if buf[0] < 128 then Some((buf[0] as nat, 1))
    else
      match ReadLength(buf[1..], room - 1)
      case None => None
      case Some((n, used)) => Some((buf[0] as nat - 128 + 128 * n, used + 1))
  }

  lemma {:induction false} LengthRead(n: nat, room: nat, rest: Bytes)
    requires room > 0
    ensures ReadLength(Digits(n, room) + rest, room) ==
            if n < Pow128(room) then Some((n, |Digits(n, room)|)) else None
    decreases room
  {
    var buf := Digits(n, room) + rest;
    assert Pow128(room) == 128 * Pow128(room - 1) && Pow128(room - 1) >= 1 by { PowMonotone(0, room - 1); }
    if n >= 128 && room > 1 {
      assert buf[1..] == Digits(n / 128, room - 1) + rest;
      LengthRead(n / 128, room - 1, rest);
    }
  }

  /** A whole packet: its body, cut off by the announced length, and what follows it. */
  function ReadPacket(first: byte, buf: Bytes): Option<(Bytes, Bytes)> {
    if buf == [] || buf[0] != first then None else
      match ReadLength(buf[1..], 4)
      case None => None
      case Some((n, used)) =>
        if |buf| < 1 + used + n then None else Some((buf[1 + used..1 + used + n], buf[1 + used + n..]))
  }

  lemma PacketRead(first: byte, n: nat, body: Bytes, rest: Bytes)
    ensures var r := ReadPacket(first, [first] + EncodeLength(n) + body + rest);
      && (n == |body| && n < Pow128(4) ==> r == Some((body, rest)))
      && (n >= Pow128(4) ==> r == None)
  {
    var digits := EncodeLength(n);
    var buf := [first] + digits + body + rest;
    assert buf[1..] == digits + (body + rest);
    LengthRead(n, 4, body + rest);
    if n == |body| && n < Pow128(4) { Middle([first] + digits, body, rest); }
  }

  // ---------------------------------------------------------------- strings

  /** A C string: no NUL inside. */
  predicate IsCString(s: Bytes) { 0 !in s }

  function U16(n: nat): Bytes { [n / 256 % 256, n % 256] }

  function ReadU16(high: byte, low: byte): nat { (high as int) * 256 + low as int }

  /** encode_string: the length is narrowed to 16 bits before it is written and used. */
  function EncodeString(s: Bytes): Bytes {
    var length := |s| % UINT16_MOD;
    U16(length) + s[..length]
  }

  /** decode_string into a buffer of room bytes: the string and the bytes used, None for -1. */
  function DecodeString(buf: Bytes, room: nat): Option<(Bytes, nat)> {
    if |buf| < 2 then None else
      var length := ReadU16(buf[0], buf[1]);
      if |buf| < length + 2 || room <= length then None
      else Some((buf[2..length + 2], length + 2))
  }

  lemma U16Fields(n: nat, rest: Bytes)
    requires n < UINT16_MOD
    ensures var buf := U16(n) + rest; ReadU16(buf[0], buf[1]) == n && buf[2..] == rest
  {
  }

  /** A 16-bit number on the wire: the high byte first. */
  lemma U16Bytes(n: nat)
    requires n < 0x1_0000
    ensures |U16(n)| == 2 && U16(n)[0] as int * 256 + U16(n)[1] as int == n
  {
  }

  /** A string on the wire: its length in two bytes, the high one first, and then the string. */
  lemma StringBytes(s: Bytes)
    requires |s| < 0x1_0000
    ensures EncodeString(s) == [|s| / 256, |s| % 256] + s
  {
    assert s[..|s| % UINT16_MOD] == s;
  }

  /** What the reader finds at the front of an encoded string. */
  lemma StringFields(s: Bytes, rest: Bytes)
    ensures var length, buf := |s| % UINT16_MOD, EncodeString(s) + rest;
      |buf| >= length + 2 && ReadU16(buf[0], buf[1]) == length && buf[2..length + 2] == s[..length]
  {
    var length, buf := |s| % UINT16_MOD, EncodeString(s) + rest;
    assert buf == U16(length) + s[..length] + rest;
  }

  /** Reading back a string gives it, under any suffix, exactly when its length fits 16 bits and the room. */
  lemma StringRoundTrip(s: Bytes, rest: Bytes, room: nat)
    ensures DecodeString(EncodeString(s) + rest, room) == Some((s, |s| + 2)) <==> |s| < UINT16_MOD && |s| < room
    ensures |EncodeString(s)| == |s| + 2 <==> |s| < UINT16_MOD
    ensures room <= |s| < UINT16_MOD ==> DecodeString(EncodeString(s) + rest, room) == None
  {
    StringFields(s, rest);
    if |s| < UINT16_MOD { assert s[..|s| % UINT16_MOD] == s; }
  }
}
