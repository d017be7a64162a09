// Bit-serial division by the CRC-16 polynomial 0x1021: one byte is eight single-bit steps of a shift register.
module Bits {
  /** The byte reached from 0 in n increments. */
  function Counted(n: nat): bv8
    requires n < 256
  {
    if n == 0 then 0 else Counted(n - 1) + 1
  }

  lemma NextByte(b: bv8)
    requires b != 255
    ensures (b + 1) as int == b as int + 1
  {
  }

  lemma {:induction false} CountedIs(n: nat)
    requires n < 256
    ensures Counted(n) as int == n
  {
    if n > 0 {
      CountedIs(n - 1);
      assert Counted(n - 1) != 255;
      NextByte(Counted(n - 1));
    }
  }

  lemma BackAndForth(b: bv8)
    ensures (b as int) as bv8 == b
  {
  }

  lemma ByteAndBack(n: nat)
    requires n < 256
    ensures (n as bv8) as int == n
  {
    CountedIs(n);
    BackAndForth(Counted(n));
  }
}

module ShiftRegister {

  // ---------------------------------------------------------------- registers in general

  function Iter<W>(f: W -> W, s: W, k: nat): W
    decreases k
  {
    if k == 0 then s else Iter(f, f(s), k - 1)
  }

  ghost predicate Injective<W(!new)>(f: W -> W) { forall s, t :: f(s) == f(t) ==> s == t }

  lemma {:induction false} IterInjective<W(!new)>(f: W -> W, s: W, t: W, k: nat)
    requires Injective(f) && Iter(f, s, k) == Iter(f, t, k)
    ensures s == t
    decreases k
  {
    if k > 0 { IterInjective(f, f(s), f(t), k - 1); }
  }

  /** Adding a clear pattern commutes with a step, which only moves the pattern up. */
  ghost predicate Moves<W(!new)>(f: W -> W, add: (W, W) -> W, clear: W -> bool, up: W -> W) {
    forall s, low | clear(low) :: f(add(s, low)) == add(f(s), up(low))
  }

  /** The pattern stays clear for the next k steps. */
  predicate StaysClear<W>(clear: W -> bool, up: W -> W, low: W, k: nat)
    decreases k
  {
    k == 0 || (clear(low) && StaysClear(clear, up, up(low), k - 1))
  }

  lemma {:induction false} IterMoves<W(!new)>(f: W -> W, add: (W, W) -> W, clear: W -> bool, up: W -> W,
                                              s: W, low: W, k: nat)
    requires Moves(f, add, clear, up) && StaysClear(clear, up, low, k)
    ensures Iter(f, add(s, low), k) == add(Iter(f, s, k), Iter(up, low, k))
    decreases k
  {
    if k > 0 { IterMoves(f, add, clear, up, f(s), up(low), k - 1); }
  }

  // ---------------------------------------------------------------- the 16-bit register of polynomial 0x1021

  function BitStep(s: bv16): bv16 {
    if s & 0x8000 != 0 then (s << 1) ^ 0x1021 else s << 1
  }

  function ByteStep(s: bv16): bv16 { Iter(BitStep, s, 8) }

  /** A step can be undone: the low bit tells whether the polynomial was subtracted. */
  function Undo(r: bv16): bv16 { if r & 1 == 0 then r >> 1 else ((r ^ 0x1021) >> 1) | 0x8000 }

  lemma PlainBit(s: bv16)
    requires s & 0x8000 == 0
    ensures (s << 1) & 1 == 0 && (s << 1) >> 1 == s
  {
  }

  lemma ReducedBit(s: bv16)
    requires s & 0x8000 != 0
    ensures ((s << 1) ^ 0x1021) & 1 == 1 && ((((s << 1) ^ 0x1021) ^ 0x1021) >> 1) | 0x8000 == s
  {
  }

  lemma UndoPlain(s: bv16)
    requires s & 0x8000 == 0
    ensures Undo(BitStep(s)) == s
  {
    PlainBit(s);
  }

  lemma UndoReduced(s: bv16)
    requires s & 0x8000 != 0
    ensures Undo(BitStep(s)) == s
  {
    ReducedBit(s);
  }

  lemma UndoStep(s: bv16)
    ensures Undo(BitStep(s)) == s
  {
    if s & 0x8000 == 0 { UndoPlain(s); } else { UndoReduced(s); }
  }

  lemma BitStepInjective(s: bv16, t: bv16)
    requires BitStep(s) == BitStep(t)
    ensures s == t
  {
    UndoStep(s);
    UndoStep(t);
  }

  lemma ByteStepInjective(s: bv16, t: bv16)
    requires ByteStep(s) == ByteStep(t)
    ensures s == t
  {
    forall x: bv16, y: bv16 | BitStep(x) == BitStep(y) ensures x == y { BitStepInjective(x, y); }
    IterInjective(BitStep, s, t, 8);
  }

  function Add(a: bv16, b: bv16): bv16 { a ^ b }

  predicate TopClear(low: bv16) { low & 0x8000 == 0 }

  function Up(low: bv16): bv16 { low << 1 }

  lemma MovesPlain(s: bv16, low: bv16)
    requires TopClear(low) && s & 0x8000 == 0
    ensures BitStep(Add(s, low)) == Add(BitStep(s), Up(low))
  {
  }

  lemma MovesReduced(s: bv16, low: bv16)
    requires TopClear(low) && s & 0x8000 != 0
    ensures BitStep(Add(s, low)) == Add(BitStep(s), Up(low))
  {
  }

  lemma BitStepMoves(s: bv16, low: bv16)
    requires TopClear(low)
    ensures BitStep(Add(s, low)) == Add(BitStep(s), Up(low))
  {
    if s & 0x8000 == 0 { MovesPlain(s, low); } else { MovesReduced(s, low); }
  }

  lemma ByteIsClear(b: bv8)
    ensures StaysClear(TopClear, Up, b as bv16, 8)
    ensures Iter(Up, b as bv16, 8) == (b as bv16) << 8
  {
  }

  /** A byte added at the bottom of the register arrives at the top unchanged. */
  lemma ByteStepMoves(s: bv16, b: bv8)
    ensures ByteStep(Add(s, b as bv16)) == Add(ByteStep(s), (b as bv16) << 8)
  {
    forall x: bv16, low: bv16 | TopClear(low) ensures BitStep(Add(x, low)) == Add(BitStep(x), Up(low)) {
      BitStepMoves(x, low);
    }
    ByteIsClear(b);
    IterMoves(BitStep, Add, TopClear, Up, s, b as bv16, 8);
  }
}
