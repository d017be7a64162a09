// The block list of main/memory_pool.c as a value, and what alloc and free do to it.
module BlockList {
  import opened Wrappers

  /** One block: its header occupies [off, off + h), its payload [off + h, off + h + size). */
  datatype Block = Block(off: nat, size: nat, free: bool)

  /** The mutable part of memory_pool_t. */
  datatype Pool = Pool(blocks: seq<Block>, used: nat, peak: nat)

  /** SIZE_MAX + 1 on the 32-bit target. */
  const SIZE_T_MOD := 0x1_0000_0000

  function End(b: Block, h: nat): nat { b.off + h + b.size }

  /** The blocks follow each other without gap or overlap from lo to hi. */
  ghost predicate Tiles(bs: seq<Block>, h: nat, lo: nat, hi: nat) {
    if bs == [] then lo == hi else
      && bs[0].off == lo
      && End(bs[|bs| - 1], h) == hi
      && forall i, j | 0 <= i < j < |bs| && j == i + 1 :: bs[j].off == End(bs[i], h)
  }

  ghost predicate NoFreePair(bs: seq<Block>) {
    forall i, j | 0 <= i < j < |bs| && j == i + 1 :: !bs[i].free || !bs[j].free
  }

  ghost predicate Canonical(bs: seq<Block>, h: nat, lo: nat, hi: nat) {
    h > 0 && Tiles(bs, h, lo, hi) && NoFreePair(bs)
  }

  ghost function Live(bs: seq<Block>): (s: set<Block>) {
    set b | b in bs && !b.free
  }

  function Used(bs: seq<Block>, h: nat): nat {
    if bs == [] then 0 else (if bs[0].free then 0 else h + bs[0].size) + Used(bs[1..], h)
  }

  ghost predicate Inv(p: Pool, h: nat, total: nat) {
    && Canonical(p.blocks, h, 0, total)
    && p.blocks != []
    && p.used == Used(p.blocks, h)
    && p.used <= p.peak
  }

  /** memory_pool_init: one free block over the whole region. */
  function Init(h: nat, total: nat): (p: Pool)
    requires 0 < h <= total
    ensures Inv(p, h, total) && Live(p.blocks) == {}
  {
    Pool([Block(0, total - h, true)], 0, 0)
  }

  // ---------------------------------------------------------------- alloc

  /** (size + 7) & ~7 in size_t arithmetic. */
  function RoundUp(size: nat): nat {
    (size + 7) % SIZE_T_MOD / 8 * 8
  }

  predicate Fits(b: Block, need: nat) { b.free && b.size >= need }

  /** Among the first n blocks, r is the lowest-address fitting one of least slack; None when nothing fits. */
  ghost predicate IsBestFit(bs: seq<Block>, n: nat, need: nat, r: Option<nat>)
    requires n <= |bs|
  {
    match r
    case None => forall j | 0 <= j < n :: !Fits(bs[j], need)
    case Some(k) =>
      && k < n && Fits(bs[k], need)
      && (forall j | 0 <= j < n && Fits(bs[j], need) :: bs[k].size <= bs[j].size)
      && (forall j | 0 <= j < k && Fits(bs[j], need) :: bs[k].size < bs[j].size)
  }

  function BestFit(bs: seq<Block>, need: nat): (r: Option<nat>)
    ensures IsBestFit(bs, |bs|, need, r)
  {
    if bs == [] then None else
      var rest := BestFit(bs[1..], need);
      assert forall j | 0 < j < |bs| :: bs[j] == bs[1..][j - 1];
      if Fits(bs[0], need) && (rest.None? || bs[0].size <= bs[1 + rest.value].size) then Some(0)
      else if rest.None? then None else Some(1 + rest.value)
  }

  /** What alloc makes of the chosen block: split when header + 8 more bytes are left over. */
  function Carve(b: Block, h: nat, need: nat): (r: seq<Block>)
    requires Fits(b, need)
    ensures r != [] && !r[0].free && r[0].off == b.off && need <= r[0].size < need + h + 8
  {
    var slack := b.size - need;
    if slack >= h + 8 then
      [Block(b.off, need, false), Block(b.off + h + need, slack - h, true)]
    else
      [b.(free := false)]
  }

  function Max(a: nat, b: nat): (r: nat)
    ensures a <= r && b <= r && (r == a || r == b)
  {
    if a > b then a else b
  }

  /** memory_pool_alloc: the new pool and the granted block, None for a NULL result. */
  function Alloc(p: Pool, h: nat, size: nat): (Pool, Option<Block>) {
    var need := RoundUp(size);
    var k := BestFit(p.blocks, need);
    if size == 0 || k.None? then (p, None) else
      var cut := Carve(p.blocks[k.value], h, need);
      var used := p.used + cut[0].size + h;
      (Pool(p.blocks[..k.value] + cut + p.blocks[k.value + 1..], used, Max(p.peak, used)), Some(cut[0]))
  }

  // ---------------------------------------------------------------- free

  function Merge(a: Block, b: Block, h: nat): Block { a.(size := a.size + b.size + h) }

  /** The coalescing sweep. */
  function Coalesce(bs: seq<Block>, h: nat): seq<Block>
    decreases |bs|
  {
    if |bs| < 2 then bs
    else if bs[0].free && bs[1].free then Coalesce([Merge(bs[0], bs[1], h)] + bs[2..], h)
    else [bs[0]] + Coalesce(bs[1..], h)
  }

  /** is_free = true on the header at off. */
  function Release(bs: seq<Block>, off: nat): (r: seq<Block>)
    ensures |r| == |bs|
    ensures forall i | 0 <= i < |bs| :: r[i] == if bs[i].off == off then bs[i].(free := true) else bs[i]
  {
    seq(|bs|, i requires 0 <= i < |bs| => if bs[i].off == off then bs[i].(free := true) else bs[i])
  }

  /** memory_pool_free of the payload of block b. */
  function Free(p: Pool, h: nat, b: Block): Pool {
    Pool(Coalesce(Release(p.blocks, b.off), h),
         (p.used - (h + b.size)) % SIZE_T_MOD,
         p.peak)
  }
}
