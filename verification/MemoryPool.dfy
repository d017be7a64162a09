// main/memory_pool.c in place: headers and payloads share one region of memory.
module MemoryPool {
  import opened Octets
  import opened Wrappers
  import opened BlockList
  import opened PoolTheorems

  /** What one address holds: the start of a header, the rest of a header, or a payload byte. */
  datatype Cell = Header(next: Option<nat>, size: nat, isFree: bool) | Padding | Byte(b: byte)

  /** The header that block k of the list must have in memory. */
  ghost function HeaderOf(bs: seq<Block>, k: nat): Cell
    requires k < |bs|
  {
    Header(if k + 1 < |bs| then Some(bs[k + 1].off) else None, bs[k].size, bs[k].free)
  }

  ghost predicate HasHeader(mem: seq<Cell>, bs: seq<Block>, k: nat)
    requires k < |bs|
  {
    bs[k].off < |mem| && mem[bs[k].off] == HeaderOf(bs, k)
  }

  ghost predicate Linked(mem: seq<Cell>, bs: seq<Block>) {
    forall k | 0 <= k < |bs| :: HasHeader(mem, bs, k)
  }

  ghost predicate SameOutside(m: seq<Cell>, m': seq<Cell>, lo: nat, hi: nat)
    requires |m| == |m'|
  {
    forall a | 0 <= a < |m| && !(lo <= a < hi) :: m'[a] == m[a]
  }

  /** The payload bytes of these blocks are the same in both memories. */
  ghost predicate PayloadsKept(m: seq<Cell>, m': seq<Cell>, h: nat, bs: set<Block>)
    requires |m| == |m'|
  {
    forall b, a | b in bs && b.off + h <= a < End(b, h) && a < |m| :: m'[a] == m[a]
  }

  lemma KeptTwice(m0: seq<Cell>, m1: seq<Cell>, m2: seq<Cell>, h: nat, bs: set<Block>)
    requires |m0| == |m1| == |m2| && PayloadsKept(m0, m1, h, bs) && PayloadsKept(m1, m2, h, bs)
    ensures PayloadsKept(m0, m2, h, bs)
  {
  }

  /** Writes inside one block that is not live reach no live payload. */
  lemma OthersKept(m: seq<Cell>, m': seq<Cell>, bs: seq<Block>, h: nat, k: nat)
    requires h > 0 && Tiles(bs, h, 0, |m|) && |m'| == |m| && k < |bs|
    requires SameOutside(m, m', bs[k].off, End(bs[k], h))
    ensures PayloadsKept(m, m', h, Live(bs) - {bs[k]})
  {
    Apart(bs, h, 0, |m|, k);
  }

  /** Writes inside a payload reach no header. */
  lemma StillLinked(m: seq<Cell>, m': seq<Cell>, bs: seq<Block>, h: nat, k: nat)
    requires h > 0 && Tiles(bs, h, 0, |m|) && |m'| == |m| && k < |bs| && Linked(m, bs)
    requires SameOutside(m, m', bs[k].off + h, End(bs[k], h))
    ensures Linked(m', bs)
  {
    Apart(bs, h, 0, |m|, k);
    forall j | 0 <= j < |bs| ensures HasHeader(m', bs, j) { assert HasHeader(m, bs, j); }
  }

  lemma CarveLinked(m: seq<Cell>, m': seq<Cell>, bs: seq<Block>, h: nat, k: nat, need: nat)
    requires h > 0 && Tiles(bs, h, 0, |m|) && |m'| == |m| && k < |bs| && Fits(bs[k], need)
    requires Linked(m, bs) && HasHeader(m, bs, k) && SameOutside(m, m', bs[k].off, End(bs[k], h))
    requires var cut := Carve(bs[k], h, need);
      if |cut| == 1 then m'[bs[k].off] == m[bs[k].off].(isFree := false)
      else
        && m'[bs[k].off] == Header(Some(cut[1].off), need, false)
        && cut[1].off < |m| && m'[cut[1].off] == Header(m[bs[k].off].next, cut[1].size, true)
    ensures Linked(m', bs[..k] + Carve(bs[k], h, need) + bs[k + 1..])
  {
    Apart(bs, h, 0, |m|, k);
    var cut := Carve(bs[k], h, need);
    var cs := bs[..k] + cut + bs[k + 1..];
    forall j | 0 <= j < |cs| ensures HasHeader(m', cs, j) {
      if j < k {
        assert HasHeader(m, bs, j);
      } else if j >= k + |cut| {
        assert HasHeader(m, bs, j - |cut| + 1);
        assert cs[j] == bs[j - |cut| + 1];
      }
    }
  }

  /** The list the sweep will leave once it has dealt with the first i blocks. */
  ghost function Swept(bs: seq<Block>, i: nat, h: nat): seq<Block>
    requires i <= |bs|
  {
    bs[..i] + Coalesce(bs[i..], h)
  }

  lemma SweptMerge(bs: seq<Block>, i: nat, h: nat)
    requires i + 1 < |bs| && bs[i].free && bs[i + 1].free
    ensures Swept(bs[..i] + [Merge(bs[i], bs[i + 1], h)] + bs[i + 2..], i, h) == Swept(bs, i, h)
  {
    var cs := bs[..i] + [Merge(bs[i], bs[i + 1], h)] + bs[i + 2..];
    assert cs[..i] == bs[..i];
    assert cs[i..] == [Merge(bs[i], bs[i + 1], h)] + bs[i..][2..];
  }

  lemma SweptSkip(bs: seq<Block>, i: nat, h: nat)
    requires i < |bs| && (i + 1 < |bs| ==> !bs[i].free || !bs[i + 1].free)
    ensures Swept(bs, i + 1, h) == Swept(bs, i, h)
  {
    assert bs[i..][1..] == bs[i + 1..];
    assert bs[..i + 1] == bs[..i] + [bs[i]];
    if i + 1 == |bs| {
      assert bs[i..] == [bs[i]];
    }
  }

  // ---------------------------------------------------------------- the search

  /** best and min_diff stand for block b of the list, if any has been found. */
  ghost predicate Chosen(bs: seq<Block>, b: Option<nat>, need: nat, best: Option<nat>, slack: nat) {
    match b
    case None => best.None? && slack == SIZE_T_MOD - 1
    case Some(k) => k < |bs| && bs[k].size >= need && best == Some(bs[k].off) && slack == bs[k].size - need
  }

  function Better(bs: seq<Block>, i: nat, need: nat, b: Option<nat>): Option<nat>
    requires i < |bs| && (b.Some? ==> b.value < |bs|)
  {
    if Fits(bs[i], need) && (b.None? || bs[i].size < bs[b.value].size) then Some(i) else b
  }

  lemma BestSoFar(bs: seq<Block>, i: nat, need: nat, b: Option<nat>)
    requires i < |bs| && IsBestFit(bs, i, need, b)
    ensures IsBestFit(bs, i + 1, need, Better(bs, i, need, b))
  {
  }

  lemma ExactIsBest(bs: seq<Block>, i: nat, need: nat)
    requires i < |bs| && IsBestFit(bs, i + 1, need, Some(i)) && bs[i].size == need
    ensures IsBestFit(bs, |bs|, need, Some(i))
  {
  }

  lemma BestFitUnique(bs: seq<Block>, need: nat, b: Option<nat>)
    requires IsBestFit(bs, |bs|, need, b)
    ensures b == BestFit(bs, need)
  {
    var r := BestFit(bs, need);
    if r.Some? && b.Some? { assert Fits(bs[r.value], need) && Fits(bs[b.value], need); }
  }

  class MemoryPool {
    const header: nat           // sizeof(block_header_t)
    const region: array<Cell>   // pool
    var usedSize: nat
    var peakUse: nat
    ghost var blocks: seq<Block>  // the list reached from first_block, which is address 0

    ghost function State(): Pool
      reads this
    {
      Pool(blocks, usedSize, peakUse)
    }

    ghost predicate Valid()
      reads this, region
    {
      && region.Length < SIZE_T_MOD
      && Inv(State(), header, region.Length)
      && Linked(region[..], blocks)
    }

    /** memory_pool_init, once the region has been obtained. */
    constructor (header: nat, region: array<Cell>)
      requires 0 < header <= region.Length < SIZE_T_MOD
      modifies region
      ensures Valid() && this.header == header && this.region == region
      ensures State() == Init(header, region.Length)
    {
      this.header := header;
      this.region := region;
      usedSize, peakUse := 0, 0;
      blocks := [Block(0, region.Length - header, true)];
      new;
      WriteHeader(0, None, region.Length - header, true);
      assert State() == Init(header, region.Length);
    }

    /** Stores to the fields of the header at off. */
    method WriteHeader(off: nat, next: Option<nat>, size: nat, isFree: bool)
      requires 0 < header && off + header <= region.Length
      modifies region
      ensures region[off] == Header(next, size, isFree)
      ensures SameOutside(old(region[..]), region[..], off, off + header)
    {
      forall a | off < a < off + header { region[a] := Padding; }
      region[off] := Header(next, size, isFree);
    }

    /** memory_pool_alloc: the address of the payload, None for NULL. */
    method Alloc(size: nat) returns (ptr: Option<nat>)
      requires Valid()
      modifies this, region
      ensures Valid()
      ensures var (state, granted) := BlockList.Alloc(old(State()), header, size);
        && State() == state
        && ptr == if granted.None? then None else Some(granted.value.off + header)
      ensures PayloadsKept(old(region[..]), region[..], header, Live(old(blocks)))
    {
      AllocKeeps(State(), header, region.Length, size);
      if size == 0 { return None; }
      ptr := Grant(RoundUp(size), size);
    }

    /** The part of memory_pool_alloc under the mutex. */
    method Grant(need: nat, ghost size: nat) returns (ptr: Option<nat>)
      requires Linked(region[..], blocks) && Canonical(blocks, header, 0, region.Length)
      requires blocks != [] && region.Length < SIZE_T_MOD && size != 0 && need == RoundUp(size)
      modifies this, region
      ensures Linked(region[..], blocks)
      ensures var (state, granted) := BlockList.Alloc(old(State()), header, size);
        && State() == state
        && ptr == if granted.None? then None else Some(granted.value.off + header)
      ensures PayloadsKept(old(region[..]), region[..], header, Live(old(blocks)))
    {
      var best, slack := BestFitSearch(need);
      if best.None? { return None; }
      ghost var k := BestFit(blocks, need).value;
      ghost var cut := Carve(blocks[k], header, need);
      Take(best.value, need, slack, k);
      assert blocks[k] == cut[0];
      Charge(region[best.value].size);
      ptr := Some(best.value + header);
    }

    /** The accounting for a block just taken. */
    method Charge(size: nat)
      modifies this`usedSize, this`peakUse
      ensures usedSize == old(usedSize) + size + header && peakUse == Max(old(peakUse), usedSize)
    {
      usedSize := usedSize + size + header;
      if usedSize > peakUse { peakUse := usedSize; }
    }

    /** Split the chosen block when enough is left over and mark its first part used. */
    method Take(off: nat, need: nat, slack: nat, ghost k: nat)
      requires Linked(region[..], blocks) && Canonical(blocks, header, 0, region.Length)
      requires k < |blocks| && Fits(blocks[k], need)
      requires off == blocks[k].off && slack == blocks[k].size - need
      modifies this`blocks, region
      ensures blocks == old(blocks[..k] + Carve(blocks[k], header, need) + blocks[k + 1..])
      ensures Linked(region[..], blocks)
      ensures off < region.Length && k < |blocks| && region[off] == HeaderOf(blocks, k)
      ensures PayloadsKept(old(region[..]), region[..], header, Live(old(blocks)))
    {
      ghost var was, before := blocks, region[..];
      EndsInside(was, header, 0, region.Length, k);
      assert HasHeader(before, was, k);
      if slack >= header + 8 {
        var next := region[off].next;
        WriteHeader(off + header + need, next, slack - header, true);
        region[off] := Header(Some(off + header + need), need, true);
      }
      region[off] := region[off].(isFree := false);
      assert SameOutside(before, region[..], off, End(was[k], header));
      CarveLinked(before, region[..], was, header, k, need);
      OthersKept(before, region[..], was, header, k);
      blocks := was[..k] + Carve(was[k], header, need) + was[k + 1..];
    }

    /** The search loop: lowest address among the blocks of least slack. */
    method BestFitSearch(need: nat) returns (best: Option<nat>, slack: nat)
      requires Linked(region[..], blocks) && Canonical(blocks, header, 0, region.Length)
      requires blocks != [] && region.Length < SIZE_T_MOD
      ensures var k := BestFit(blocks, need);
        && (k.None? ==> best.None?)
        && (k.Some? ==> best == Some(blocks[k.value].off) && slack == blocks[k.value].size - need)
    {
      var current := Some(0);
      best, slack := None, SIZE_T_MOD - 1;
      ghost var i: nat, b: Option<nat> := 0, None;
      while current.Some?
        invariant 0 <= i <= |blocks|
        invariant current == if i < |blocks| then Some(blocks[i].off) else None
        invariant IsBestFit(blocks, i, need, b)
        invariant Chosen(blocks, b, need, best, slack)
        decreases |blocks| - i
      {
        assert HasHeader(region[..], blocks, i);
        var cell := region[current.value];
        EndsInside(blocks, header, 0, region.Length, i);
        BestSoFar(blocks, i, need, b);
        if cell.isFree && cell.size >= need {
          var diff := cell.size - need;
          if diff < slack {
            best, slack := current, diff;
            b := Some(i);
            if diff == 0 {
              ExactIsBest(blocks, i, need);
              break;
            }
          }
        }
        current := cell.next;
        i := i + 1;
      }
      BestFitUnique(blocks, need, b);
    }

    /** What a caller does with its block: bytes copied into the payload of b, up to its granted size. */
    method Store(ptr: nat, bytes: Bytes, ghost b: Block)
      requires Valid() && b in Live(blocks) && ptr == b.off + header && |bytes| <= b.size
      modifies region
      ensures ptr + |bytes| <= region.Length
      ensures Valid() && State() == old(State())
      ensures forall i | 0 <= i < |bytes| :: region[ptr + i] == Byte(bytes[i])
      ensures PayloadsKept(old(region[..]), region[..], header, Live(blocks) - {b})
    {
      ghost var before := region[..];
      ghost var k := PositionOf(before, blocks, b);
      EndsInside(blocks, header, 0, region.Length, k);
      forall i | 0 <= i < |bytes| { region[ptr + i] := Byte(bytes[i]); }
      OthersKept(before, region[..], blocks, header, k);
      StillLinked(before, region[..], blocks, header, k);
    }

    /** memory_pool_free: ptr is NULL or the payload of the live block b. */
    method Free(ptr: Option<nat>, ghost b: Block)
      requires Valid()
      requires ptr.Some? ==> b in Live(blocks) && ptr.value == b.off + header
      modifies this, region
      ensures Valid()
      ensures State() == if ptr.None? then old(State()) else BlockList.Free(old(State()), header, b)
      ensures ptr.Some? ==> PayloadsKept(old(region[..]), region[..], header, Live(old(blocks)) - {b})
      ensures ptr.None? ==> region[..] == old(region[..])
    {
      if ptr.None? { return; }
      FreeKeeps(State(), header, region.Length, b);
      FreeAt(ptr.value - header, b);
    }

    /** The part of memory_pool_free under the mutex. */
    method FreeAt(off: nat, ghost b: Block)
      requires header > 0 && blocks != [] && Tiles(blocks, header, 0, region.Length) && Linked(region[..], blocks)
      requires b in Live(blocks) && off == b.off
      modifies this, region
      ensures Linked(region[..], blocks) && State() == BlockList.Free(old(State()), header, b)
      ensures PayloadsKept(old(region[..]), region[..], header, Live(old(blocks)) - {b})
    {
      ghost var before, live := region[..], Live(blocks) - {b};
      Mark(off, b);
      ghost var marked := region[..];
      assert Live(blocks) == live;
      Sweep();
      ghost var swept := region[..];
      assert PayloadsKept(before, swept, header, live) by { KeptTwice(before, marked, swept, header, live); }
    }

    /** is_free = true and the accounting. */
    method Mark(off: nat, ghost b: Block)
      requires header > 0 && blocks != [] && Tiles(blocks, header, 0, region.Length) && Linked(region[..], blocks)
      requires b in Live(blocks) && off == b.off
      modifies this, region
      ensures blocks == Release(old(blocks), off) && blocks != []
      ensures Live(blocks) == Live(old(blocks)) - {b}
      ensures usedSize == (old(usedSize) - (header + b.size)) % SIZE_T_MOD && peakUse == old(peakUse)
      ensures Tiles(blocks, header, 0, region.Length) && Linked(region[..], blocks)
      ensures PayloadsKept(old(region[..]), region[..], header, Live(old(blocks)) - {b})
    {
      ghost var was, before := blocks, region[..];
      ghost var k := PositionOf(before, was, b);
      region[off] := region[off].(isFree := true);
      usedSize := (usedSize - (region[off].size + header)) % SIZE_T_MOD;
      blocks := Release(was, off);
      assert region[..] == before[off := before[off].(isFree := true)];
      Marked(before, region[..], was, header, b, k);
    }

    /** The coalescing loop. */
    method Sweep()
      requires header > 0 && blocks != [] && Tiles(blocks, header, 0, region.Length) && Linked(region[..], blocks)
      modifies this`blocks, region
      ensures Linked(region[..], blocks)
      ensures blocks == Coalesce(old(blocks), header)
      ensures PayloadsKept(old(region[..]), region[..], header, Live(old(blocks)))
    {
      var current := Some(0);
      ghost var i := 0;
      while current.Some?
        invariant 0 <= i <= |blocks| && blocks != []
        invariant current == if i < |blocks| then Some(blocks[i].off) else None
        invariant Tiles(blocks, header, 0, region.Length) && Linked(region[..], blocks)
        invariant Swept(blocks, i, header) == Coalesce(old(blocks), header)
        invariant Live(blocks) == Live(old(blocks))
        invariant PayloadsKept(old(region[..]), region[..], header, Live(old(blocks)))
        decreases 2 * |blocks| - i
      {
        var merge := MustMerge(current.value, i);
        if merge {
          SweptMerge(blocks, i, header);
          MergeWithNext(current.value, i);
        } else {
          assert HasHeader(region[..], blocks, i);
          SweptSkip(blocks, i, header);
          current := region[current.value].next;
          i := i + 1;
        }
      }
    }

    method MustMerge(off: nat, ghost i: nat) returns (merge: bool)
      requires i < |blocks| && off == blocks[i].off && Linked(region[..], blocks)
      ensures merge <==> i + 1 < |blocks| && blocks[i].free && blocks[i + 1].free
    {
      assert HasHeader(region[..], blocks, i);
      assert i + 1 < |blocks| ==> HasHeader(region[..], blocks, i + 1);
      var cell := region[off];
      merge := cell.isFree && cell.next.Some? && region[cell.next.value].isFree;
    }

    method MergeWithNext(off: nat, ghost i: nat)
      requires header > 0 && Tiles(blocks, header, 0, region.Length) && Linked(region[..], blocks)
      requires i + 1 < |blocks| && off == blocks[i].off && blocks[i].free && blocks[i + 1].free
      modifies this`blocks, region
      ensures blocks == old(blocks[..i] + [Merge(blocks[i], blocks[i + 1], header)] + blocks[i + 2..])
      ensures Tiles(blocks, header, 0, region.Length) && Linked(region[..], blocks)
      ensures Live(blocks) == Live(old(blocks))
      ensures PayloadsKept(old(region[..]), region[..], header, Live(old(blocks)))
    {
      ghost var was, before := blocks, region[..];
      assert HasHeader(before, was, i) && HasHeader(before, was, i + 1);
      var next := region[region[off].next.value];
      region[off] := Header(next.next, region[off].size + next.size + header, region[off].isFree);
      blocks := was[..i] + [Merge(was[i], was[i + 1], header)] + was[i + 2..];
      OthersKept(before, region[..], was, header, i);
      MergeLinked(before, region[..], was, header, i);
      MergeTiles(was, header, region.Length, i);
    }
  }

  lemma MarkLinked(m: seq<Cell>, m': seq<Cell>, bs: seq<Block>, h: nat, k: nat)
    requires h > 0 && Tiles(bs, h, 0, |m|) && k < |bs| && Linked(m, bs) && HasHeader(m, bs, k)
    requires m' == m[bs[k].off := m[bs[k].off].(isFree := true)]
    ensures Linked(m', Release(bs, bs[k].off))
  {
    Apart(bs, h, 0, |m|, k);
    var rs := Release(bs, bs[k].off);
    forall j | 0 <= j < |rs| ensures HasHeader(m', rs, j) {
      assert HasHeader(m, bs, j);
    }
  }

  lemma PositionOf(m: seq<Cell>, bs: seq<Block>, b: Block) returns (k: nat)
    requires Linked(m, bs) && b in Live(bs)
    ensures k < |bs| && bs[k] == b && !b.free && HasHeader(m, bs, k)
  {
    k :| 0 <= k < |bs| && bs[k] == b;
  }

  lemma Marked(m: seq<Cell>, m': seq<Cell>, bs: seq<Block>, h: nat, b: Block, k: nat)
    requires h > 0 && Tiles(bs, h, 0, |m|) && k < |bs| && Linked(m, bs) && HasHeader(m, bs, k)
    requires bs[k] == b && !b.free && bs != []
    requires m' == m[b.off := m[b.off].(isFree := true)]
    ensures var rs := Release(bs, b.off);
      && rs != [] && Linked(m', rs) && Tiles(rs, h, 0, |m|)
      && Live(rs) == Live(bs) - {b}
      && PayloadsKept(m, m', h, Live(bs) - {b})
  {
    OthersKept(m, m', bs, h, k);
    ReleaseTiles(bs, h, 0, |m|, b.off);
    ReleaseKeeps(bs, h, 0, |m|, b);
    MarkLinked(m, m', bs, h, k);
  }

  lemma MergeLinked(m: seq<Cell>, m': seq<Cell>, bs: seq<Block>, h: nat, i: nat)
    requires h > 0 && Tiles(bs, h, 0, |m|) && |m'| == |m| && Linked(m, bs)
    requires i + 1 < |bs| && bs[i].free && bs[i + 1].free && HasHeader(m, bs, i) && HasHeader(m, bs, i + 1)
    requires m' == m[bs[i].off := Header(m[bs[i + 1].off].next, Merge(bs[i], bs[i + 1], h).size, true)]
    ensures Linked(m', bs[..i] + [Merge(bs[i], bs[i + 1], h)] + bs[i + 2..])
  {
    Apart(bs, h, 0, |m|, i);
    var cs := bs[..i] + [Merge(bs[i], bs[i + 1], h)] + bs[i + 2..];
    forall j | 0 <= j < |cs| ensures HasHeader(m', cs, j) {
      if j < i {
        assert HasHeader(m, bs, j);
      } else if j > i {
        assert HasHeader(m, bs, j + 1);
        assert cs[j] == bs[j + 1];
      }
    }
  }

  lemma MergeTiles(bs: seq<Block>, h: nat, hi: nat, i: nat)
    requires Tiles(bs, h, 0, hi) && i + 1 < |bs| && bs[i].free && bs[i + 1].free
    ensures var cs := bs[..i] + [Merge(bs[i], bs[i + 1], h)] + bs[i + 2..];
            Tiles(cs, h, 0, hi) && Live(cs) == Live(bs)
  {
    var l, r, two, one := bs[..i], bs[i + 2..], [bs[i], bs[i + 1]], [Merge(bs[i], bs[i + 1], h)];
    assert bs == l + two + r;
    LiveCat(l + two, r);
    LiveCat(l, two);
    LiveCat(l + one, r);
    LiveCat(l, one);
    assert Live(one) == {} == Live(two);
  }
}
