// Bytes as buffers hold them, and the machine words made of them.
module Octets {
  const UINT16_MOD := 0x1_0000
  const UINT32_MOD := 0x1_0000_0000
  const UINT64_MOD := 0x1_0000_0000_0000_0000

  type byte = x: int | 0 <= x < 256

  type Bytes = seq<byte>

  /** The same as bit patterns, where the source works on them with exclusive or and shifts. */
  type BitBytes = seq<bv8>

  function Pow256(k: nat): nat { if k == 0 then 1 else 256 * Pow256(k - 1) }

  lemma Powers256()
    ensures Pow256(2) == UINT16_MOD && Pow256(4) == UINT32_MOD && Pow256(8) == UINT64_MOD
  {
    assert Pow256(1) == 256 && Pow256(2) == 256 * Pow256(1);
    assert Pow256(4) == 256 * Pow256(3) && Pow256(3) == 256 * Pow256(2);
    assert Pow256(6) == 256 * Pow256(5) && Pow256(5) == 256 * Pow256(4);
    assert Pow256(8) == 256 * Pow256(7) && Pow256(7) == 256 * Pow256(6);
  }
}
