// calculate_crc16 of device_protocol.c, for any lookup table and for the full table of polynomial 0x1021.
module Crc16 {
  import opened Bits
  import opened Octets
  import opened ShiftRegister

  predicate IsTable(t: seq<bv16>) { |t| == 256 }

  /** crc16_table */
  type Table = t: seq<bv16> | IsTable(t) witness Zeros(256)

  function Zeros(n: nat): (r: seq<bv16>)
    ensures |r| == n
  {
    if n == 0 then [] else [0] + Zeros(n - 1)
  }

  function Index(crc: bv16, b: bv8): bv8 { ((crc >> 8) as bv8) ^ b }

  /** One turn of the loop. */
  function Step(table: Table, crc: bv16, b: bv8): bv16 {
    Add(crc << 8, table[Index(crc, b) as int])
  }

  function CrcFrom(table: Table, crc: bv16, data: BitBytes): bv16
    decreases |data|
  {
    if data == [] then crc else CrcFrom(table, Step(table, crc, data[0]), data[1..])
  }

  function Crc(table: Table, data: BitBytes): bv16 { CrcFrom(table, 0xFFFF, data) }

  /** calculate_crc16 */
  method Calculate(table: Table, data: BitBytes) returns (crc: bv16)
    ensures crc == Crc(table, data)
  {
    crc := 0xFFFF;
    var i := 0;
    while i < |data|
      invariant 0 <= i <= |data|
      invariant CrcFrom(table, crc, data[i..]) == Crc(table, data)
    {
      assert data[i..][1..] == data[i + 1..];
      crc := Step(table, crc, data[i]);
      i := i + 1;
    }
  }

  // ---------------------------------------------------------------- the full table

  function Entry(i: bv8): bv16 { ByteStep((i as bv16) << 8) }

  function EntryAt(i: nat): bv16
    requires i < 256
  {
    Entry(i as bv8)
  }

  /** The 256 entries the elided table stands for. */
  function FullTable(): (t: Table)
    ensures forall i | 0 <= i < 256 :: t[i] == EntryAt(i)
  {
    seq(256, i requires 0 <= i < 256 => EntryAt(i))
  }

  lemma TableAt(i: bv8)
    ensures FullTable()[i as int] == Entry(i)
  {
    BackAndForth(i);
    assert FullTable()[i as int] == EntryAt(i as int);
  }

  function Low(crc: bv16): bv8 { (crc & 0xFF) as bv8 }

  lemma Recombine(crc: bv16, b: bv8)
    ensures Add(crc, (b as bv16) << 8) == Add((Index(crc, b) as bv16) << 8, Low(crc) as bv16)
  {
  }

  lemma LowShifted(crc: bv16)
    ensures (Low(crc) as bv16) << 8 == crc << 8
  {
  }

  lemma AddCommutes(a: bv16, b: bv16)
    ensures Add(a, b) == Add(b, a)
  {
  }

  lemma StepLooksUp(crc: bv16, b: bv8)
    ensures Step(FullTable(), crc, b) == Add(crc << 8, Entry(Index(crc, b)))
  {
    TableAt(Index(crc, b));
  }

  lemma MovedByte(i: bv8, low: bv8)
    ensures ByteStep(Add((i as bv16) << 8, low as bv16)) == Add(Entry(i), (low as bv16) << 8)
  {
    ByteStepMoves((i as bv16) << 8, low);
  }

  lemma SerialLooksUp(crc: bv16, b: bv8)
    ensures ByteStep(Add(crc, (b as bv16) << 8)) == Add(Entry(Index(crc, b)), crc << 8)
  {
    Recombine(crc, b);
    LowShifted(crc);
    MovedByte(Index(crc, b), Low(crc));
  }

  /** The table-driven step is eight steps of bit-serial division by 0x1021. */
  lemma TableIsSerial(crc: bv16, b: bv8)
    ensures Step(FullTable(), crc, b) == ByteStep(Add(crc, (b as bv16) << 8))
  {
    StepLooksUp(crc, b);
    SerialLooksUp(crc, b);
    AddCommutes(Entry(Index(crc, b)), crc << 8);
  }

  /** Bit-serial division, from the register all ones and the first byte on. */
  function Serial(crc: bv16, data: BitBytes): bv16
    decreases |data|
  {
    if data == [] then crc else Serial(ByteStep(Add(crc, (data[0] as bv16) << 8)), data[1..])
  }

  lemma {:induction false} SerialFrom(crc: bv16, data: BitBytes)
    ensures CrcFrom(FullTable(), crc, data) == Serial(crc, data)
    decreases |data|
  {
    if data != [] {
      TableIsSerial(crc, data[0]);
      SerialFrom(Step(FullTable(), crc, data[0]), data[1..]);
    }
  }

  /** With the full table the checksum of any data is its bit-serial remainder from 0xFFFF on. */
  lemma CrcIsSerial(data: BitBytes)
    ensures Crc(FullTable(), data) == Serial(0xFFFF, data)
  {
    SerialFrom(0xFFFF, data);
  }

  // ---------------------------------------------------------------- error detection

  lemma AddCancels(a: bv16, b: bv16, c: bv16)
    requires Add(a, c) == Add(b, c)
    ensures a == b
  {
  }

  /** The low bytes of the entries are pairwise distinct. */
  predicate LowDistinct(table: Table) { forall i, j | 0 <= i < j < 256 :: Low(table[i]) != Low(table[j]) }

  lemma IntInjective(b: bv8, c: bv8)
    requires b as int == c as int
    ensures b == c
  {
  }

  /** In such a table the low byte of an entry names the entry. */
  lemma EntryNamed(table: Table, i: bv8, j: bv8)
    requires LowDistinct(table) && Low(table[i as int]) == Low(table[j as int])
    ensures i == j
  {
    IntInjective(i, j);
  }

  lemma LowOfSum(s: bv16, e: bv16)
    ensures Low(Add(s << 8, e)) == Low(e)
  {
  }

  lemma ShiftsTell(s: bv16, t: bv16, b: bv8)
    requires s << 8 == t << 8 && Index(s, b) == Index(t, b)
    ensures s == t
  {
  }

  lemma SameLow(s: bv16, t: bv16)
    ensures s << 8 == t << 8 <==> Low(s) == Low(t)
  {
  }

  lemma IndexTells(s: bv16, b: bv8, c: bv8)
    requires Index(s, b) == Index(s, c)
    ensures b == c
  {
  }

  /** The low byte of a step's result tells which entry was used, and so the result tells what was shifted. */
  lemma StepsTell(table: Table, s: bv16, b: bv8, t: bv16, c: bv8)
    requires LowDistinct(table) && Step(table, s, b) == Step(table, t, c)
    ensures Index(s, b) == Index(t, c) && s << 8 == t << 8
  {
    var e, f := table[Index(s, b) as int], table[Index(t, c) as int];
    LowOfSum(s, e);
    LowOfSum(t, f);
    EntryNamed(table, Index(s, b), Index(t, c));
    AddCancels(s << 8, t << 8, e);
  }

  /** A step is injective in the register. */
  lemma StepInjective(table: Table, s: bv16, t: bv16, b: bv8)
    requires LowDistinct(table) && Step(table, s, b) == Step(table, t, b)
    ensures s == t
  {
    StepsTell(table, s, b, t, b);
    ShiftsTell(s, t, b);
  }

  lemma {:induction false} CrcInjective(table: Table, s: bv16, t: bv16, data: BitBytes)
    requires LowDistinct(table) && CrcFrom(table, s, data) == CrcFrom(table, t, data)
    ensures s == t
    decreases |data|
  {
    if data != [] {
      CrcInjective(table, Step(table, s, data[0]), Step(table, t, data[0]), data[1..]);
      StepInjective(table, s, t, data[0]);
    }
  }

  lemma {:induction false} CrcCat(table: Table, s: bv16, a: BitBytes, b: BitBytes)
    ensures CrcFrom(table, s, a + b) == CrcFrom(table, CrcFrom(table, s, a), b)
    decreases |a|
  {
    if a == [] {
      assert a + b == b;
    } else {
      assert (a + b)[1..] == a[1..] + b;
      CrcCat(table, Step(table, s, a[0]), a[1..], b);
    }
  }

  /** Two steps from one register tell both bytes. */
  lemma TwoStepsTell(table: Table, s: bv16, b1: bv8, b2: bv8, c1: bv8, c2: bv8)
    requires LowDistinct(table)
    requires Step(table, Step(table, s, b1), b2) == Step(table, Step(table, s, c1), c2)
    ensures b1 == c1 && b2 == c2
  {
    var u, v := Step(table, s, b1), Step(table, s, c1);
    StepsTell(table, u, b2, v, c2);
    SameLow(u, v);
    LowOfSum(s, table[Index(s, b1) as int]);
    LowOfSum(s, table[Index(s, c1) as int]);
    EntryNamed(table, Index(s, b1), Index(s, c1));
    IndexTells(s, b1, c1);
    IndexTells(u, b2, c2);
  }

  lemma OneStepTells(table: Table, s: bv16, b: bv8, c: bv8)
    requires LowDistinct(table) && Step(table, s, b) == Step(table, s, c)
    ensures b == c
  {
    StepsTell(table, s, b, s, c);
    IndexTells(s, b, c);
  }

  lemma TwoTurns(table: Table, s: bv16, a: BitBytes)
    requires |a| == 2
    ensures CrcFrom(table, s, a) == Step(table, Step(table, s, a[0]), a[1])
  {
    var s' := Step(table, s, a[0]);
    assert a[1..] == [a[1]];
    assert CrcFrom(table, s', [a[1]]) == CrcFrom(table, Step(table, s', a[1]), [a[1]][1..]);
    assert [a[1]][1..] == [];
  }

  lemma ShortTells(table: Table, s: bv16, a: BitBytes, b: BitBytes)
    requires LowDistinct(table) && |a| == |b| <= 2 && CrcFrom(table, s, a) == CrcFrom(table, s, b)
    ensures a == b
  {
    if |a| == 1 {
      OneStepTells(table, s, a[0], b[0]);
    } else if |a| == 2 {
      TwoTurns(table, s, a);
      TwoTurns(table, s, b);
      TwoStepsTell(table, s, a[0], a[1], b[0], b[1]);
    }
  }

  /** Any change confined to at most two adjacent bytes changes the CRC. */
  lemma BurstDetected(table: Table, front: BitBytes, a: BitBytes, b: BitBytes, back: BitBytes)
    requires LowDistinct(table) && |a| == |b| <= 2 && a != b
    ensures Crc(table, front + a + back) != Crc(table, front + b + back)
  {
    CrcCat(table, 0xFFFF, front + a, back);
    CrcCat(table, 0xFFFF, front, a);
    CrcCat(table, 0xFFFF, front + b, back);
    CrcCat(table, 0xFFFF, front, b);
    var s := Crc(table, front);
    if CrcFrom(table, s, a) == CrcFrom(table, s, b) {
      ShortTells(table, s, a, b);
    } else if Crc(table, front + a + back) == Crc(table, front + b + back) {
      CrcInjective(table, CrcFrom(table, s, a), CrcFrom(table, s, b), back);
    }
  }

  // ---------------------------------------------------------------- which tables detect such changes

  function High(crc: bv16): bv8 { (crc >> 8) as bv8 }

  lemma HighIndex(crc: bv16)
    ensures Index(crc, High(crc)) == 0
  {
  }

  function Flip(b: bv8): bv8 { 0xFF ^ b }

  lemma FlipTwice(b: bv8)
    ensures Flip(Flip(b)) == b && Index(0xFFFF, b) == Flip(b)
  {
  }

  function ByteOf(i: nat): bv8
    requires i < 256
  {
    i as bv8
  }

  lemma ByteOfIs(i: nat)
    requires i < 256
    ensures ByteOf(i) as int == i
  {
    ByteAndBack(i);
  }

  /** The byte that looks up entry i from the initial register. */
  lemma FirstByte(i: nat) returns (b: bv8)
    requires i < 256
    ensures Index(0xFFFF, b) as int == i
  {
    b := Flip(ByteOf(i));
    FlipTwice(ByteOf(i));
    FlipTwice(b);
    ByteOfIs(i);
  }

  lemma SameStep(table: Table, u: bv16, v: bv16)
    requires Low(u) == Low(v)
    ensures Step(table, u, High(u)) == Step(table, v, High(v))
  {
    HighIndex(u);
    HighIndex(v);
    SameLow(u, v);
  }

  /** Two entries with one low byte give two messages of two bytes with one CRC. */
  lemma Collision(table: Table, i: nat, j: nat) returns (a: BitBytes, b: BitBytes)
    requires i < j < 256 && Low(table[i]) == Low(table[j])
    ensures |a| == |b| == 2 && a != b && Crc(table, a) == Crc(table, b)
  {
    var b1 := FirstByte(i);
    var c1 := FirstByte(j);
    var u, v := Step(table, 0xFFFF, b1), Step(table, 0xFFFF, c1);
    LowOfSum(0xFFFF, table[i]);
    LowOfSum(0xFFFF, table[j]);
    SameStep(table, u, v);
    a, b := [b1, High(u)], [c1, High(v)];
    TwoTurns(table, 0xFFFF, a);
    TwoTurns(table, 0xFFFF, b);
    assert a[0] != b[0];
  }

  ghost predicate Told(table: Table, front: BitBytes, a: BitBytes, b: BitBytes, back: BitBytes) {
    Crc(table, front + a + back) != Crc(table, front + b + back)
  }

  /** Every change of at most two adjacent bytes, anywhere in any message, changes the CRC. */
  ghost predicate TellsBursts(table: Table) {
    forall front, a, b, back | |a| == |b| <= 2 && a != b :: Told(table, front, a, b, back)
  }

  lemma Bare(a: BitBytes)
    ensures [] + a + [] == a
  {
  }

  /** A table detects every change of two adjacent bytes exactly when the low bytes of its entries are distinct. */
  lemma TellsBurstsIff(table: Table)
    ensures TellsBursts(table) <==> LowDistinct(table)
  {
    if LowDistinct(table) {
      forall front, a, b, back | |a| == |b| <= 2 && a != b ensures Told(table, front, a, b, back) {
        BurstDetected(table, front, a, b, back);
      }
    }
    if TellsBursts(table) {
      forall i, j | 0 <= i < j < 256 ensures Low(table[i]) != Low(table[j]) { LowsDiffer(table, i, j); }
    }
  }

  lemma LowsDiffer(table: Table, i: nat, j: nat)
    requires TellsBursts(table) && i < j < 256
    ensures Low(table[i]) != Low(table[j])
  {
    if Low(table[i]) == Low(table[j]) {
      var a, b := Collision(table, i, j);
      BareTold(table, a, b);
    }
  }

  lemma BareTold(table: Table, a: BitBytes, b: BitBytes)
    requires TellsBursts(table) && |a| == |b| <= 2 && a != b
    ensures Crc(table, a) != Crc(table, b)
  {
    Bare(a);
    Bare(b);
    assert Told(table, [], a, b, []);
  }

  // ---------------------------------------------------------------- the full table is one of them

  function Pair(b1: bv8, b2: bv8): bv16 { Add((b1 as bv16) << 8, b2 as bv16) }

  lemma PairInjective(b1: bv8, b2: bv8, c1: bv8, c2: bv8)
    requires Pair(b1, b2) == Pair(c1, c2)
    ensures b1 == c1 && b2 == c2
  {
  }

  lemma AddRegroups(s: bv16, b1: bv8, b2: bv8)
    ensures Add(Add(s, (b1 as bv16) << 8), b2 as bv16) == Add(Pair(b1, b2), s)
  {
  }

  /** Two bytes in a row act on the register as one 16-bit word. */
  lemma TwoSteps(s: bv16, b1: bv8, b2: bv8)
    ensures Step(FullTable(), Step(FullTable(), s, b1), b2) == ByteStep(ByteStep(Add(Pair(b1, b2), s)))
  {
    TableIsSerial(s, b1);
    TableIsSerial(Step(FullTable(), s, b1), b2);
    ByteStepMoves(Add(s, (b1 as bv16) << 8), b2);
    AddRegroups(s, b1, b2);
  }

  lemma SerialTells(s: bv16, b1: bv8, b2: bv8, c1: bv8, c2: bv8)
    requires Step(FullTable(), Step(FullTable(), s, b1), b2) == Step(FullTable(), Step(FullTable(), s, c1), c2)
    ensures b1 == c1 && b2 == c2
  {
    TwoSteps(s, b1, b2);
    TwoSteps(s, c1, c2);
    ByteStepInjective(ByteStep(Add(Pair(b1, b2), s)), ByteStep(Add(Pair(c1, c2), s)));
    ByteStepInjective(Add(Pair(b1, b2), s), Add(Pair(c1, c2), s));
    AddCancels(Pair(b1, b2), Pair(c1, c2), s);
    PairInjective(b1, b2, c1, c2);
  }

  /** The full table detects such changes. */
  lemma FullTableLowDistinct()
    ensures LowDistinct(FullTable())
  {
    forall i, j | 0 <= i < j < 256 ensures Low(FullTable()[i]) != Low(FullTable()[j]) { FullLowsDiffer(i, j); }
  }

  lemma FullLowsDiffer(i: nat, j: nat)
    requires i < j < 256
    ensures Low(FullTable()[i]) != Low(FullTable()[j])
  {
    if Low(FullTable()[i]) == Low(FullTable()[j]) {
      var a, b := Collision(FullTable(), i, j);
      FullPairsTold(a, b);
    }
  }

  lemma FullPairsTold(a: BitBytes, b: BitBytes)
    requires |a| == |b| == 2 && Crc(FullTable(), a) == Crc(FullTable(), b)
    ensures a == b
  {
    TwoTurns(FullTable(), 0xFFFF, a);
    TwoTurns(FullTable(), 0xFFFF, b);
    SerialTells(0xFFFF, a[0], a[1], b[0], b[1]);
  }

  // ---------------------------------------------------------------- the table as far as it is written out

  const FIRST_ROW: seq<bv16> := [0x0000, 0x1021, 0x2042, 0x3063, 0x4084, 0x50A5, 0x60C6, 0x70E7]
  const SECOND_ROW: seq<bv16> := [0x8108, 0x9129, 0xA14A, 0xB16B, 0xC18C, 0xD1AD, 0xE1CE, 0xF1EF]

  /** The sixteen entries and the zeros C puts in place of the elided rest. */
  function WrittenTable(): Table { FIRST_ROW + SECOND_ROW + Zeros(240) }

  lemma FirstEntries(i: nat)
    requires i < 8
    ensures FIRST_ROW[i] == Entry(i as bv8)
  {
  }

  lemma SecondEntries(i: nat)
    requires i < 8
    ensures SECOND_ROW[i] == Entry((8 + i) as bv8)
  {
  }

  lemma {:induction false} ZerosAreZero(n: nat)
    ensures forall i | 0 <= i < n :: Zeros(n)[i] == 0
  {
    if n > 0 { ZerosAreZero(n - 1); }
  }

  /** The sixteen entries written out are those of polynomial 0x1021, the others are 0. */
  lemma WrittenEntries(i: nat)
    requires i < 256
    ensures WrittenTable()[i] == if i < 16 then Entry(i as bv8) else 0
  {
    if i < 8 { FirstEntries(i); } else if i < 16 { SecondEntries(i - 8); } else { ZerosAreZero(240); }
  }

  // ---------------------------------------------------------------- which tables detect a change of one byte

  predicate Distinct(table: Table) { forall i, j | 0 <= i < j < 256 :: table[i] != table[j] }

  ghost predicate TellsBytes(table: Table) { forall b: bv8, c: bv8 :: Crc(table, [b]) == Crc(table, [c]) ==> b == c }

  lemma CrcOfByte(table: Table, b: bv8)
    ensures Crc(table, [b]) == Add(0xFF00, table[Flip(b) as int])
  {
    FlipTwice(b);
    assert [b][1..] == [];
    assert Crc(table, [b]) == CrcFrom(table, Step(table, 0xFFFF, b), []);
  }

  lemma EqualSums(a: bv16, b: bv16)
    ensures Add(0xFF00, a) == Add(0xFF00, b) <==> a == b
  {
  }

  lemma CrcsOfBytes(table: Table, b: bv8, c: bv8)
    ensures Crc(table, [b]) == Crc(table, [c]) <==> table[Flip(b) as int] == table[Flip(c) as int]
  {
    CrcOfByte(table, b);
    CrcOfByte(table, c);
    EqualSums(table[Flip(b) as int], table[Flip(c) as int]);
  }

  /** A table tells any two one-byte payloads apart exactly when its entries are pairwise distinct. */
  lemma TellsBytesIff(table: Table)
    ensures TellsBytes(table) <==> Distinct(table)
  {
    if TellsBytes(table) {
      forall i, j | 0 <= i < j < 256 ensures table[i] != table[j] { DistinctAt(table, i, j); }
    }
    if Distinct(table) {
      forall b: bv8, c: bv8 | Crc(table, [b]) == Crc(table, [c]) ensures b == c { TellsAt(table, b, c); }
    }
  }

  lemma DistinctAt(table: Table, i: nat, j: nat)
    requires TellsBytes(table) && i < j < 256
    ensures table[i] != table[j]
  {
    var b, c := Flip(ByteOf(i)), Flip(ByteOf(j));
    ByteOfIs(i);
    ByteOfIs(j);
    FlipTwice(ByteOf(i));
    FlipTwice(ByteOf(j));
    CrcsOfBytes(table, b, c);
  }

  lemma TellsAt(table: Table, b: bv8, c: bv8)
    requires Distinct(table) && Crc(table, [b]) == Crc(table, [c])
    ensures b == c
  {
    CrcsOfBytes(table, b, c);
    IntInjective(Flip(b), Flip(c));
    FlipTwice(b);
    FlipTwice(c);
  }

  /** The sixteen entries written out are not enough: two one-byte payloads share a checksum. */
  lemma WrittenTableMisses()
    ensures Crc(WrittenTable(), [0]) == Crc(WrittenTable(), [1])
    ensures !Distinct(WrittenTable()) && !LowDistinct(WrittenTable())
  {
    ZerosAreZero(240);
    assert Flip(0) == 0xFF && Flip(1) == 0xFE;
    CrcsOfBytes(WrittenTable(), 0, 1);
    assert WrittenTable()[16] == WrittenTable()[17];
  }

  lemma FullTableDistinct()
    ensures Distinct(FullTable())
  {
    FullTableLowDistinct();
    assert forall i, j | 0 <= i < j < 256 :: Low(FullTable()[i]) != Low(FullTable()[j]);
  }

  // ---------------------------------------------------------------- distinct entries do not suffice

  function ShiftedAt(i: nat): bv16
    requires i < 256
  {
    (ByteOf(i) as bv16) << 8
  }

  /** Entry i is i moved up by a byte. */
  function ShiftedTable(): (t: Table)
    ensures forall i | 0 <= i < 256 :: t[i] == ShiftedAt(i)
  {
    seq(256, i requires 0 <= i < 256 => ShiftedAt(i))
  }

  lemma ShiftedTells(b: bv8, c: bv8)
    ensures ((b as bv16) << 8 == (c as bv16) << 8 <==> b == c) && Low((b as bv16) << 8) == 0
  {
  }

  /** This table tells single bytes apart and still gives 0, 0 and 1, 1 one checksum. */
  lemma DistinctIsNotEnough()
    ensures TellsBytes(ShiftedTable()) && !LowDistinct(ShiftedTable()) && !TellsBursts(ShiftedTable())
  {
    forall i, j | 0 <= i < j < 256 ensures ShiftedTable()[i] != ShiftedTable()[j] {
      ByteOfIs(i);
      ByteOfIs(j);
      ShiftedTells(ByteOf(i), ByteOf(j));
    }
    TellsBytesIff(ShiftedTable());
    ShiftedTells(ByteOf(0), ByteOf(1));
    ShiftedTells(ByteOf(1), ByteOf(0));
    assert Low(ShiftedTable()[0]) == Low(ShiftedTable()[1]);
    TellsBurstsIff(ShiftedTable());
  }
}
