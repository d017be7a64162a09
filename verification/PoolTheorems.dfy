// What the allocator of main/memory_pool.c keeps, undoes and refines.
module PoolTheorems {
  import opened BlockList
  import opened Wrappers

  // ---------------------------------------------------------------- tiling

  lemma {:induction false} StartsInside(bs: seq<Block>, h: nat, lo: nat, hi: nat, i: nat)
    requires Tiles(bs, h, lo, hi) && i < |bs|
    ensures lo <= bs[i].off
  {
    if 0 < i { StartsInside(bs, h, lo, hi, i - 1); }
  }

  lemma {:induction false} EndsInside(bs: seq<Block>, h: nat, lo: nat, hi: nat, i: nat)
    requires Tiles(bs, h, lo, hi) && i < |bs|
    ensures End(bs[i], h) <= hi
    decreases |bs| - i
  {
    if i < |bs| - 1 { EndsInside(bs, h, lo, hi, i + 1); }
  }

  /** Blocks lie inside the region, in address order, and do not overlap. */
  lemma {:induction false} InOrder(bs: seq<Block>, h: nat, lo: nat, hi: nat, i: nat, j: nat)
    requires Tiles(bs, h, lo, hi) && i <= j < |bs|
    ensures lo <= bs[i].off && End(bs[j], h) <= hi
    ensures i < j ==> End(bs[i], h) <= bs[j].off
    decreases j - i
  {
    StartsInside(bs, h, lo, hi, i);
    EndsInside(bs, h, lo, hi, j);
    if i < j { InOrder(bs, h, lo, hi, i, j - 1); }
  }

  lemma Apart(bs: seq<Block>, h: nat, lo: nat, hi: nat, k: nat)
    requires Tiles(bs, h, lo, hi) && k < |bs|
    ensures forall j | 0 <= j < k :: End(bs[j], h) <= bs[k].off
    ensures forall j | k < j < |bs| :: End(bs[k], h) <= bs[j].off
  {
    forall j | 0 <= j < k ensures End(bs[j], h) <= bs[k].off { InOrder(bs, h, lo, hi, j, k); }
    forall j | k < j < |bs| ensures End(bs[k], h) <= bs[j].off { InOrder(bs, h, lo, hi, k, j); }
  }

  ghost function Border(bs: seq<Block>, k: nat, hi: nat): nat
    requires k <= |bs|
  {
    if k < |bs| then bs[k].off else hi
  }

  lemma TilesSplit(bs: seq<Block>, h: nat, lo: nat, hi: nat, k: nat)
    requires Tiles(bs, h, lo, hi) && k <= |bs|
    ensures Tiles(bs[..k], h, lo, Border(bs, k, hi)) && Tiles(bs[k..], h, Border(bs, k, hi), hi)
  {
  }

  lemma TilesCat(a: seq<Block>, b: seq<Block>, h: nat, lo: nat, mid: nat, hi: nat)
    requires Tiles(a, h, lo, mid) && Tiles(b, h, mid, hi)
    ensures Tiles(a + b, h, lo, hi)
  {
    if a == [] { assert a + b == b; } else if b == [] { assert a + b == a; }
  }

  lemma {:induction false} UsedCat(a: seq<Block>, b: seq<Block>, h: nat)
    ensures Used(a + b, h) == Used(a, h) + Used(b, h)
  {
    if a == [] {
      assert a + b == b;
    } else {
      assert (a + b)[1..] == a[1..] + b;
      UsedCat(a[1..], b, h);
    }
  }

  lemma LiveCat(a: seq<Block>, b: seq<Block>)
    ensures Live(a + b) == Live(a) + Live(b)
  {
  }

  // ---------------------------------------------------------------- canonical form

  /** The block list is a function of the set of live blocks alone. */
  lemma {:induction false} CanonicalForm(a: seq<Block>, b: seq<Block>, h: nat, lo: nat, hi: nat)
    requires Canonical(a, h, lo, hi) && Canonical(b, h, lo, hi)
    requires Live(a) == Live(b)
    ensures a == b
    decreases |a|
  {
    if a == [] || b == [] {
      EmptyTiling(a, h, lo, hi);
      EmptyTiling(b, h, lo, hi);
    } else {
      SameHead(a, b, h, lo, hi);
      SameHead(b, a, h, lo, hi);
      var mid := End(a[0], h);
      TailCanonical(a, h, lo, hi);
      TailCanonical(b, h, lo, hi);
      CanonicalForm(a[1..], b[1..], h, mid, hi);
      assert a == [a[0]] + a[1..] && b == [b[0]] + b[1..];
    }
  }

  lemma EmptyTiling(a: seq<Block>, h: nat, lo: nat, hi: nat)
    requires h > 0 && Tiles(a, h, lo, hi)
    ensures a == [] <==> lo == hi
    ensures lo <= hi
  {
    if a != [] { InOrder(a, h, lo, hi, 0, 0); }
  }

  lemma TailCanonical(a: seq<Block>, h: nat, lo: nat, hi: nat)
    requires Canonical(a, h, lo, hi) && a != []
    ensures Canonical(a[1..], h, End(a[0], h), hi)
    ensures Live(a[1..]) == Live(a) - {a[0]}
  {
    TilesSplit(a, h, lo, hi, 1);
    assert a == [a[0]] + a[1..];
    forall b | b in a[1..] ensures b != a[0] {
      var j :| 0 <= j < |a[1..]| && a[1..][j] == b;
      InOrder(a, h, lo, hi, 0, j + 1);
    }
  }

  /** A live head of one list is the head of the other; a free head is no longer than the other's. */
  lemma SameHead(a: seq<Block>, b: seq<Block>, h: nat, lo: nat, hi: nat)
    requires Canonical(a, h, lo, hi) && Canonical(b, h, lo, hi) && Live(a) == Live(b)
    requires a != [] && b != []
    ensures !a[0].free ==> a[0] == b[0]
    ensures a[0].free ==> b[0].free && a[0].size >= b[0].size
  {
    if !a[0].free {
      assert a[0] in Live(a);
      OnlyHeadAt(b, h, lo, hi, a[0]);
    } else {
      if !b[0].free {
        assert b[0] in Live(b);
        OnlyHeadAt(a, h, lo, hi, b[0]);
      }
      if a[0].size < b[0].size {
        InOrder(b, h, lo, hi, 0, 0);
        assert |a| > 1;
        assert a[1] in Live(a);
        var j :| 0 <= j < |b| && b[j] == a[1];
        if j > 0 { InOrder(b, h, lo, hi, 0, j); }
      }
    }
  }

  lemma OnlyHeadAt(b: seq<Block>, h: nat, lo: nat, hi: nat, x: Block)
    requires h > 0 && Tiles(b, h, lo, hi) && b != [] && x in b && x.off == lo
    ensures x == b[0]
  {
    var j :| 0 <= j < |b| && b[j] == x;
    if j > 0 { InOrder(b, h, lo, hi, 0, j); }
  }

  // ---------------------------------------------------------------- alloc

  lemma SameOffset(bs: seq<Block>, h: nat, lo: nat, hi: nat, x: Block, y: Block)
    requires h > 0 && Tiles(bs, h, lo, hi) && x in bs && y in bs && x.off == y.off
    ensures x == y
  {
    var i :| 0 <= i < |bs| && bs[i] == x;
    var j :| 0 <= j < |bs| && bs[j] == y;
    if i < j { InOrder(bs, h, lo, hi, i, j); } else if j < i { InOrder(bs, h, lo, hi, j, i); }
  }

  lemma CarveTiles(bs: seq<Block>, h: nat, lo: nat, hi: nat, k: nat, need: nat)
    requires Canonical(bs, h, lo, hi) && k < |bs| && Fits(bs[k], need)
    ensures var cs := bs[..k] + Carve(bs[k], h, need) + bs[k + 1..];
            Canonical(cs, h, lo, hi) && cs != []
  {
    var cut := Carve(bs[k], h, need);
    TilesSplit(bs, h, lo, hi, k);
    TilesSplit(bs[k..], h, bs[k].off, hi, 1);
    assert bs[k..][1..] == bs[k + 1..];
    var mid := End(bs[k], h);
    assert Tiles(cut, h, bs[k].off, mid);
    TilesCat(bs[..k], cut, h, lo, bs[k].off, mid);
    TilesCat(bs[..k] + cut, bs[k + 1..], h, lo, mid, hi);
  }

  lemma CarveLive(bs: seq<Block>, h: nat, lo: nat, hi: nat, k: nat, need: nat)
    requires Canonical(bs, h, lo, hi) && k < |bs| && Fits(bs[k], need)
    ensures var cut := Carve(bs[k], h, need);
            var cs := bs[..k] + cut + bs[k + 1..];
            Live(cs) == Live(bs) + {cut[0]} && cut[0] !in Live(bs)
  {
    var cut := Carve(bs[k], h, need);
    assert bs == bs[..k] + [bs[k]] + bs[k + 1..];
    if cut[0] in Live(bs) { SameOffset(bs, h, lo, hi, cut[0], bs[k]); }
    LiveCat(bs[..k] + [bs[k]], bs[k + 1..]);
    LiveCat(bs[..k], [bs[k]]);
    LiveCat(bs[..k] + cut, bs[k + 1..]);
    LiveCat(bs[..k], cut);
    assert Live(cut) == {cut[0]};
  }

  lemma CarveUsed(bs: seq<Block>, h: nat, k: nat, need: nat)
    requires k < |bs| && Fits(bs[k], need)
    ensures var cut := Carve(bs[k], h, need);
            Used(bs[..k] + cut + bs[k + 1..], h) == Used(bs, h) + h + cut[0].size
  {
    var cut := Carve(bs[k], h, need);
    assert bs == bs[..k] + [bs[k]] + bs[k + 1..];
    UsedCat(bs[..k] + [bs[k]], bs[k + 1..], h);
    UsedCat(bs[..k], [bs[k]], h);
    UsedCat(bs[..k] + cut, bs[k + 1..], h);
    UsedCat(bs[..k], cut, h);
    assert cut == [cut[0]] + cut[1..];
    UsedCat([cut[0]], cut[1..], h);
  }

  /** Every alloc keeps the invariant and adds exactly the granted block to the live set. */
  lemma AllocKeeps(p: Pool, h: nat, total: nat, size: nat)
    requires Inv(p, h, total)
    ensures var (q, r) := Alloc(p, h, size);
      && Inv(q, h, total)
      && q.peak == Max(p.peak, q.used)
      && (r.None? ==> q == p)
      && (r.Some? ==>
            && r.value !in Live(p.blocks) && Live(q.blocks) == Live(p.blocks) + {r.value}
            && q.used == p.used + h + r.value.size
            && RoundUp(size) <= r.value.size < RoundUp(size) + h + 8
            && (forall b | b in Live(p.blocks) :: End(b, h) <= r.value.off || End(r.value, h) <= b.off))
  {
    var need := RoundUp(size);
    var k := BestFit(p.blocks, need);
    if size != 0 && k.Some? {
      CarveTiles(p.blocks, h, 0, total, k.value, need);
      CarveLive(p.blocks, h, 0, total, k.value, need);
      CarveUsed(p.blocks, h, k.value, need);
      var (q, r) := Alloc(p, h, size);
      assert q.blocks[k.value] == r.value;
      forall b | b in Live(p.blocks) ensures End(b, h) <= r.value.off || End(r.value, h) <= b.off {
        assert b in Live(q.blocks);
        var j :| 0 <= j < |q.blocks| && q.blocks[j] == b;
        if j < k.value { InOrder(q.blocks, h, 0, total, j, k.value); }
        else if j > k.value { InOrder(q.blocks, h, 0, total, k.value, j); }
      }
    }
  }

  /** The block a request takes: free and large enough, no such block is smaller, and none as small lies lower. */
  ghost predicate Tightest(bs: seq<Block>, need: nat, k: nat) {
    && k < |bs| && bs[k].free && need <= bs[k].size
    && forall j | 0 <= j < |bs| && bs[j].free && need <= bs[j].size ::
         bs[k].size < bs[j].size || (bs[k].size == bs[j].size && k <= j)
  }

  /** Of the chosen block exactly the rounded size is granted if and only if nothing is left over or a header and 8
      bytes more; then what is left is a free block of its own. Otherwise the whole block is granted. */
  lemma GrantExact(p: Pool, h: nat, size: nat, k: nat)
    requires size > 0 && Tightest(p.blocks, RoundUp(size), k)
    ensures var (q, r) := Alloc(p, h, size);
      var b, slack := p.blocks[k], p.blocks[k].size - RoundUp(size);
      && r.Some? && r.value.off == b.off
      && (r.value.size == RoundUp(size) <==> slack == 0 || slack >= h + 8)
      && (r.value.size == b.size <==> slack < h + 8)
      && (slack >= h + 8 ==>
            q.blocks == p.blocks[..k] + [r.value, Block(End(r.value, h), slack - h, true)] + p.blocks[k + 1..])
      && (slack < h + 8 ==> q.blocks == p.blocks[k := r.value])
  {
    var need := RoundUp(size);
    var best := BestFit(p.blocks, need);
    assert Fits(p.blocks[k], need);
    assert best == Some(k);
    assert Alloc(p, h, size).1 == Some(Carve(p.blocks[k], h, need)[0]);
  }

  lemma TightestTaken(p: Pool, h: nat, size: nat) returns (k: nat)
    requires Alloc(p, h, size).1.Some?
    ensures size > 0 && Tightest(p.blocks, RoundUp(size), k)
  {
    k := BestFit(p.blocks, RoundUp(size)).value;
    forall j | 0 <= j < |p.blocks| && p.blocks[j].free && RoundUp(size) <= p.blocks[j].size
      ensures p.blocks[k].size < p.blocks[j].size || (p.blocks[k].size == p.blocks[j].size && k <= j)
    {
      assert Fits(p.blocks[j], RoundUp(size));
    }
  }

  /** The blocks after alloc: the old ones, the granted one, and at most one of at least 8 bytes more. */
  lemma BlocksAfterAlloc(p: Pool, h: nat, size: nat, b: Block)
    requires b in Alloc(p, h, size).0.blocks
    ensures b in p.blocks || Some(b) == Alloc(p, h, size).1 || b.size >= 8
  {
    var (q, r) := Alloc(p, h, size);
    if r.Some? {
      var k := TightestTaken(p, h, size);
      GrantExact(p, h, size, k);
      if p.blocks[k].size - RoundUp(size) < h + 8 {
        assert forall j | 0 <= j < |q.blocks| && j != k :: q.blocks[j] == p.blocks[j];
      } else {
        assert forall j | 0 <= j < k :: q.blocks[j] == p.blocks[j];
        assert forall j | k + 1 < j < |q.blocks| :: q.blocks[j] == p.blocks[j - 1];
      }
    }
  }

  /** [at, at + len) lies in the region and meets no live block. */
  ghost predicate FreeRun(bs: seq<Block>, h: nat, total: nat, at: nat, len: nat) {
    at + len <= total && forall b | b in Live(bs) :: End(b, h) <= at || at + len <= b.off
  }

  ghost predicate HasFreeRun(bs: seq<Block>, h: nat, total: nat, len: nat) {
    exists at :: FreeRun(bs, h, total, at, len)
  }

  /** NULL is returned exactly when no contiguous free run can hold a header and the rounded size. */
  lemma AllocFailsOnlyWhenFull(p: Pool, h: nat, total: nat, size: nat)
    requires Inv(p, h, total) && size > 0
    ensures Alloc(p, h, size).1.None? <==> !HasFreeRun(p.blocks, h, total, h + RoundUp(size))
  {
    var need := RoundUp(size);
    var bs := p.blocks;
    if HasFreeRun(bs, h, total, h + need) {
      var at :| FreeRun(bs, h, total, at, h + need);
      var i := RunInsideFreeBlock(bs, h, total, at, h + need);
      assert Fits(bs[i], need);
    } else if BestFit(bs, need).Some? {
      var k := BestFit(bs, need).value;
      InOrder(bs, h, 0, total, k, k);
      forall b | b in Live(bs) ensures End(b, h) <= bs[k].off || bs[k].off + h + need <= b.off {
        var j :| 0 <= j < |bs| && bs[j] == b;
        if j < k { InOrder(bs, h, 0, total, j, k); } else if k < j { InOrder(bs, h, 0, total, k, j); }
      }
      assert FreeRun(bs, h, total, bs[k].off, h + need);
    }
  }

  lemma {:induction false} BlockAt(bs: seq<Block>, h: nat, lo: nat, hi: nat, at: nat) returns (i: nat)
    requires Tiles(bs, h, lo, hi) && lo <= at < hi
    ensures i < |bs| && bs[i].off <= at < End(bs[i], h)
    decreases |bs|
  {
    if at < End(bs[0], h) { return 0; }
    TilesSplit(bs, h, lo, hi, 1);
    i := BlockAt(bs[1..], h, End(bs[0], h), hi, at);
    i := i + 1;
  }

  lemma RunInsideFreeBlock(bs: seq<Block>, h: nat, total: nat, at: nat, len: nat) returns (i: nat)
    requires Canonical(bs, h, 0, total) && len > 0 && FreeRun(bs, h, total, at, len)
    ensures i < |bs| && bs[i].free && bs[i].off <= at && at + len <= End(bs[i], h)
  {
    i := BlockAt(bs, h, 0, total, at);
    assert bs[i] in bs;
    EndsInside(bs, h, 0, total, i);
    assert i + 1 < |bs| ==> bs[i + 1] in bs;
  }

  // ---------------------------------------------------------------- free

  /** The sweep leaves no two adjacent free blocks. */
  lemma {:induction false} CoalesceTiles(bs: seq<Block>, h: nat, lo: nat, hi: nat)
    requires h > 0 && Tiles(bs, h, lo, hi)
    ensures Canonical(Coalesce(bs, h), h, lo, hi)
    ensures bs != [] ==> Coalesce(bs, h) != [] && Coalesce(bs, h)[0].free == bs[0].free
    decreases |bs|
  {
    if |bs| >= 2 {
      if bs[0].free && bs[1].free {
        CoalesceTiles([Merge(bs[0], bs[1], h)] + bs[2..], h, lo, hi);
      } else {
        TilesSplit(bs, h, lo, hi, 1);
        CoalesceTiles(bs[1..], h, End(bs[0], h), hi);
        TilesCat([bs[0]], Coalesce(bs[1..], h), h, lo, End(bs[0], h), hi);
      }
    }
  }

  /** The sweep touches no live block. */
  lemma {:induction false} CoalesceLive(bs: seq<Block>, h: nat)
    ensures Live(Coalesce(bs, h)) == Live(bs)
    ensures Used(Coalesce(bs, h), h) == Used(bs, h)
    decreases |bs|
  {
    if |bs| >= 2 {
      var head, tail := [bs[0], bs[1]], bs[2..];
      if bs[0].free && bs[1].free {
        var m := [Merge(bs[0], bs[1], h)];
        assert bs == head + tail;
        CoalesceLive(m + tail, h);
        LiveCat(m, tail);
        LiveCat(head, tail);
        assert Live(m) == {} == Live(head);
        UsedCat(m, tail, h);
        assert bs[1..][1..] == tail;
      } else {
        assert bs == [bs[0]] + bs[1..];
        CoalesceLive(bs[1..], h);
        LiveCat([bs[0]], Coalesce(bs[1..], h));
        LiveCat([bs[0]], bs[1..]);
        UsedCat([bs[0]], Coalesce(bs[1..], h), h);
      }
    }
  }

  /** Exactly one header is changed when only one has that address. */
  lemma OneReleased(bs: seq<Block>, b: Block, k: nat)
    requires k < |bs| && bs[k] == b && forall i | 0 <= i < |bs| && i != k :: bs[i].off != b.off
    ensures Release(bs, b.off) == bs[..k] + [b.(free := true)] + bs[k + 1..]
  {
    var rs, all := Release(bs, b.off), bs[..k] + [b.(free := true)] + bs[k + 1..];
    assert |rs| == |all|;
    assert forall i | 0 <= i < |bs| :: rs[i] == all[i];
  }

  lemma ReleaseSplits(bs: seq<Block>, h: nat, lo: nat, hi: nat, b: Block) returns (k: nat)
    requires h > 0 && Tiles(bs, h, lo, hi) && b in bs
    ensures k < |bs| && bs == bs[..k] + [b] + bs[k + 1..]
    ensures Release(bs, b.off) == bs[..k] + [b.(free := true)] + bs[k + 1..]
  {
    k :| 0 <= k < |bs| && bs[k] == b;
    forall i | 0 <= i < |bs| && i != k ensures bs[i].off != b.off {
      if i < k { InOrder(bs, h, lo, hi, i, k); } else { InOrder(bs, h, lo, hi, k, i); }
    }
    OneReleased(bs, b, k);
  }

  lemma OnlyOnce(bs: seq<Block>, h: nat, lo: nat, hi: nat, k: nat)
    requires h > 0 && Tiles(bs, h, lo, hi) && k < |bs|
    ensures bs[k] !in bs[..k] && bs[k] !in bs[k + 1..]
  {
    forall i | 0 <= i < |bs| && i != k ensures bs[i] != bs[k] {
      if i < k { InOrder(bs, h, lo, hi, i, k); } else { InOrder(bs, h, lo, hi, k, i); }
    }
  }

  lemma ReleaseTiles(bs: seq<Block>, h: nat, lo: nat, hi: nat, off: nat)
    requires Tiles(bs, h, lo, hi)
    ensures Tiles(Release(bs, off), h, lo, hi)
  {
    var rs := Release(bs, off);
    assert forall i | 0 <= i < |bs| :: rs[i].off == bs[i].off && rs[i].size == bs[i].size;
  }

  lemma ReleaseKeeps(bs: seq<Block>, h: nat, lo: nat, hi: nat, b: Block)
    requires h > 0 && Tiles(bs, h, lo, hi) && b in Live(bs)
    ensures Live(Release(bs, b.off)) == Live(bs) - {b}
    ensures Used(Release(bs, b.off), h) + h + b.size == Used(bs, h)
  {
    var k := ReleaseSplits(bs, h, lo, hi, b);
    var l, r, f := bs[..k], bs[k + 1..], [b.(free := true)];
    OnlyOnce(bs, h, lo, hi, k);
    LiveCat(l + [b], r);
    LiveCat(l, [b]);
    LiveCat(l + f, r);
    LiveCat(l, f);
    assert Live([b]) == {b} && Live(f) == {};
    UsedCat(l + [b], r, h);
    UsedCat(l, [b], h);
    UsedCat(l + f, r, h);
    UsedCat(l, f, h);
  }

  lemma SmallMod(x: nat, m: nat)
    requires x < m
    ensures x % m == x
  {
  }

  /** Freeing a live block keeps the invariant and removes exactly that block from the live set. */
  lemma FreeKeeps(p: Pool, h: nat, total: nat, b: Block)
    requires Inv(p, h, total) && total < SIZE_T_MOD && b in Live(p.blocks)
    ensures var q := Free(p, h, b);
      && Inv(q, h, total)
      && Live(q.blocks) == Live(p.blocks) - {b}
      && q.used == p.used - h - b.size && q.peak == p.peak
  {
    FreedBlocks(p.blocks, h, total, b);
    UsedBounded(p.blocks, h, 0, total);
    SmallMod(p.used - (h + b.size), SIZE_T_MOD);
  }

  lemma FreedBlocks(bs: seq<Block>, h: nat, total: nat, b: Block)
    requires h > 0 && Tiles(bs, h, 0, total) && b in Live(bs)
    ensures var cs := Coalesce(Release(bs, b.off), h);
      && cs != [] && Canonical(cs, h, 0, total)
      && Live(cs) == Live(bs) - {b}
      && Used(cs, h) + h + b.size == Used(bs, h)
  {
    var rs := Release(bs, b.off);
    ReleaseTiles(bs, h, 0, total, b.off);
    ReleaseKeeps(bs, h, 0, total, b);
    CoalesceTiles(rs, h, 0, total);
    CoalesceLive(rs, h);
  }

  lemma {:induction false} UsedBounded(bs: seq<Block>, h: nat, lo: nat, hi: nat)
    requires Tiles(bs, h, lo, hi)
    ensures lo + Used(bs, h) <= hi
    decreases |bs|
  {
    if bs != [] {
      TilesSplit(bs, h, lo, hi, 1);
      UsedBounded(bs[1..], h, End(bs[0], h), hi);
    }
  }

  // ---------------------------------------------------------------- what the canonical form gives

  lemma UsedOfLive(p: Pool, q: Pool, h: nat, total: nat)
    requires Inv(p, h, total) && Inv(q, h, total) && Live(p.blocks) == Live(q.blocks)
    ensures p.blocks == q.blocks && p.used == q.used
  {
    CanonicalForm(p.blocks, q.blocks, h, 0, total);
  }

  /** alloc then free of the result restores the block list and used_size, split or not. */
  lemma AllocThenFree(p: Pool, h: nat, total: nat, size: nat)
    requires Inv(p, h, total) && total < SIZE_T_MOD && Alloc(p, h, size).1.Some?
    ensures var (q, r) := Alloc(p, h, size);
            Free(q, h, r.value) == p.(peak := q.peak)
  {
    AllocKeeps(p, h, total, size);
    var (q, r) := Alloc(p, h, size);
    FreeKeeps(q, h, total, r.value);
    UsedOfLive(p, Free(q, h, r.value), h, total);
  }

  /** Two frees commute. */
  lemma FreesCommute(p: Pool, h: nat, total: nat, a: Block, b: Block)
    requires Inv(p, h, total) && total < SIZE_T_MOD && a != b && {a, b} <= Live(p.blocks)
    ensures Free(Free(p, h, a), h, b) == Free(Free(p, h, b), h, a)
  {
    FreeKeeps(p, h, total, a);
    FreeKeeps(p, h, total, b);
    FreeKeeps(Free(p, h, a), h, total, b);
    FreeKeeps(Free(p, h, b), h, total, a);
    UsedOfLive(Free(Free(p, h, a), h, b), Free(Free(p, h, b), h, a), h, total);
  }

  function FreeAll(p: Pool, h: nat, order: seq<Block>): Pool
    decreases |order|
  {
    if order == [] then p else FreeAll(Free(p, h, order[0]), h, order[1..])
  }

  /** Freeing all live blocks, in any order, restores the block list built by init. */
  lemma {:induction false} FreeAllRestoresInit(p: Pool, h: nat, total: nat, order: seq<Block>)
    requires Inv(p, h, total) && h <= total < SIZE_T_MOD
    requires multiset(order) == multiset(Live(p.blocks))
    ensures FreeAll(p, h, order) == Init(h, total).(peak := p.peak)
    decreases |order|
  {
    if order == [] {
      assert forall b :: b in Live(p.blocks) <==> b in multiset(order);
      UsedOfLive(p, Init(h, total), h, total);
    } else {
      var b := order[0];
      assert order == [b] + order[1..];
      assert b in multiset(Live(p.blocks));
      FreeKeeps(p, h, total, b);
      assert multiset(Live(p.blocks) - {b}) == multiset(Live(p.blocks)) - multiset{b};
      FreeAllRestoresInit(Free(p, h, b), h, total, order[1..]);
    }
  }

  // ---------------------------------------------------------------- rounding

  /** The granted size covers the request exactly when the rounding does not wrap, and is 0 when it does. */
  lemma RoundUpCovers(size: nat)
    requires size < 0x1_0000_0000
    ensures size <= RoundUp(size) <==> size <= 0xFFFF_FFF8
    ensures size <= 0xFFFF_FFF8 ==> RoundUp(size) < size + 8
    ensures size > 0xFFFF_FFF8 ==> RoundUp(size) == 0
    ensures RoundUp(size) % 8 == 0
  {
  }

  lemma RoundUpWraps()
    ensures RoundUp(SIZE_T_MOD - 1) == 0
  {
  }

  // ---------------------------------------------------------------- runs

  datatype Op = AllocOp(size: nat) | FreeOp(block: Block)

  function Step(p: Pool, h: nat, op: Op): Pool {
    match op
    case AllocOp(size) => Alloc(p, h, size).0
    case FreeOp(b) => Free(p, h, b)
  }

  /** The states a run passes through, the first one included. */
  function Trace(p: Pool, h: nat, ops: seq<Op>): (t: seq<Pool>)
    ensures |t| == |ops| + 1 && t[0] == p
    decreases |ops|
  {
    if ops == [] then [p] else [p] + Trace(Step(p, h, ops[0]), h, ops[1..])
  }

  /** Callers free live blocks only. */
  ghost predicate LegalRun(p: Pool, h: nat, ops: seq<Op>) {
    var t := Trace(p, h, ops);
    forall i | 0 <= i < |ops| && ops[i].FreeOp? :: ops[i].block in Live(t[i].blocks)
  }

  function MaxUsed(t: seq<Pool>): nat {
    if t == [] then 0 else Max(t[0].used, MaxUsed(t[1..]))
  }

  lemma {:induction false} RunFrom(p: Pool, h: nat, total: nat, ops: seq<Op>)
    requires Inv(p, h, total) && total < SIZE_T_MOD && LegalRun(p, h, ops)
    ensures var t := Trace(p, h, ops);
      && (forall i | 0 <= i < |t| :: Inv(t[i], h, total))
      && t[|ops|].peak == Max(p.peak, MaxUsed(t))
    decreases |ops|
  {
    var t := Trace(p, h, ops);
    if ops != [] {
      var q := Step(p, h, ops[0]);
      if ops[0].FreeOp? {
        assert t[0] == p;
        FreeKeeps(p, h, total, ops[0].block);
      } else {
        AllocKeeps(p, h, total, ops[0].size);
      }
      var u := Trace(q, h, ops[1..]);
      assert t == [p] + u;
      forall i | 0 <= i < |ops[1..]| && ops[1..][i].FreeOp?
        ensures ops[1..][i].block in Live(u[i].blocks)
      {
        assert ops[i + 1].block in Live(t[i + 1].blocks);
      }
      RunFrom(q, h, total, ops[1..]);
      assert t[1..] == u;
      assert MaxUsed(u) >= q.used;
    }
  }

  /** MaxUsed is the largest used_size: none exceeds it, and some state has it. */
  lemma {:induction false} MaxUsedIsMax(t: seq<Pool>) returns (k: nat)
    requires t != []
    ensures k < |t| && t[k].used == MaxUsed(t) && forall i | 0 <= i < |t| :: t[i].used <= MaxUsed(t)
  {
    k := 0;
    if |t| > 1 {
      var j := MaxUsedIsMax(t[1..]);
      assert forall i | 0 < i < |t| :: t[i] == t[1..][i - 1];
      if MaxUsed(t) != t[0].used { k := j + 1; }
    }
  }

  /** In every run from init: each state is canonical and peak_use is the largest used_size so far. */
  lemma EveryRun(h: nat, total: nat, ops: seq<Op>)
    requires 0 < h <= total < SIZE_T_MOD && LegalRun(Init(h, total), h, ops)
    ensures var t := Trace(Init(h, total), h, ops);
      && (forall i | 0 <= i < |t| :: Inv(t[i], h, total))
      && (forall i | 0 <= i < |t| :: t[i].used <= t[|ops|].peak)
      && exists i | 0 <= i < |t| :: t[i].used == t[|ops|].peak
  {
    RunFrom(Init(h, total), h, total, ops);
    var k := MaxUsedIsMax(Trace(Init(h, total), h, ops));
  }

  // ---------------------------------------------------------------- what splitting leaves

  lemma {:induction false} TraceSteps(p: Pool, h: nat, ops: seq<Op>, i: nat)
    requires i < |ops|
    ensures Trace(p, h, ops)[i + 1] == Step(Trace(p, h, ops)[i], h, ops[i])
    decreases |ops|
  {
    var q := Step(p, h, ops[0]);
    assert Trace(p, h, ops) == [p] + Trace(q, h, ops[1..]);
    if i > 0 { TraceSteps(q, h, ops[1..], i - 1); }
  }

  /** In every run: a free block that appears with an allocation holds at least 8 bytes. */
  lemma SplitsLeaveEight(h: nat, total: nat, ops: seq<Op>, i: nat, b: Block)
    requires 0 < h <= total && i < |ops| && ops[i].AllocOp?
    requires var t := Trace(Init(h, total), h, ops);
      b in t[i + 1].blocks && b.free && b !in t[i].blocks
    ensures b.size >= 8
  {
    var p, t := Init(h, total), Trace(Init(h, total), h, ops);
    TraceSteps(p, h, ops, i);
    GrantedIsLive(t[i], h, ops[i].size);
    BlocksAfterAlloc(t[i], h, ops[i].size, b);
  }

  lemma GrantedIsLive(p: Pool, h: nat, size: nat)
    ensures var r := Alloc(p, h, size).1; r.Some? ==> !r.value.free
  {
  }

  ghost predicate Roomy(bs: seq<Block>) { forall b | b in bs :: b.size >= 8 }

  lemma AllocKeepsRoomy(p: Pool, h: nat, size: nat)
    requires Roomy(p.blocks) && size <= 0xFFFF_FFF8
    ensures Roomy(Alloc(p, h, size).0.blocks)
  {
    var (q, r) := Alloc(p, h, size);
    if r.Some? {
      var k := TightestTaken(p, h, size);
      GrantExact(p, h, size, k);
      RoundUpCovers(size);
      assert r.value.size >= 8;
    }
    forall b | b in q.blocks ensures b.size >= 8 { BlocksAfterAlloc(p, h, size, b); }
  }

  lemma {:induction false} CoalesceKeepsRoomy(bs: seq<Block>, h: nat)
    requires Roomy(bs)
    ensures Roomy(Coalesce(bs, h))
    decreases |bs|
  {
    if |bs| >= 2 {
      if bs[0].free && bs[1].free {
        CoalesceKeepsRoomy([Merge(bs[0], bs[1], h)] + bs[2..], h);
      } else {
        CoalesceKeepsRoomy(bs[1..], h);
      }
    }
  }

  lemma FreeKeepsRoomy(p: Pool, h: nat, b: Block)
    requires Roomy(p.blocks)
    ensures Roomy(Free(p, h, b).blocks)
  {
    var rs := Release(p.blocks, b.off);
    forall r | r in rs ensures r.size >= 8 {
      var i :| 0 <= i < |rs| && rs[i] == r;
      assert p.blocks[i] in p.blocks;
    }
    CoalesceKeepsRoomy(rs, h);
  }

  lemma {:induction false} RoomyRun(p: Pool, h: nat, ops: seq<Op>, i: nat)
    requires Roomy(p.blocks) && i <= |ops|
    requires forall j | 0 <= j < |ops| && ops[j].AllocOp? :: ops[j].size <= 0xFFFF_FFF8
    ensures Roomy(Trace(p, h, ops)[i].blocks)
  {
    if i > 0 {
      RoomyRun(p, h, ops, i - 1);
      TraceSteps(p, h, ops, i - 1);
      match ops[i - 1] {
        case AllocOp(size) => AllocKeepsRoomy(Trace(p, h, ops)[i - 1], h, size);
        case FreeOp(b) => FreeKeepsRoomy(Trace(p, h, ops)[i - 1], h, b);
      }
    }
  }

  /** As long as no request wraps, no block of any run, live or free, is too small to hold 8 bytes. */
  lemma NoTinyBlocks(h: nat, total: nat, ops: seq<Op>, i: nat, b: Block)
    requires 0 < h && h + 8 <= total && i <= |ops|
    requires forall j | 0 <= j < |ops| && ops[j].AllocOp? :: ops[j].size <= 0xFFFF_FFF8
    requires b in Trace(Init(h, total), h, ops)[i].blocks
    ensures b.size >= 8
  {
    InitRoomy(h, total);
    RoomyRun(Init(h, total), h, ops, i);
  }

  lemma InitRoomy(h: nat, total: nat)
    requires 0 < h && h + 8 <= total
    ensures Roomy(Init(h, total).blocks)
  {
  }

  lemma FirstBlock()
    ensures Alloc(Init(12, 12800), 12, 32).0.blocks == [Block(0, 32, false), Block(44, 12744, true)]
    ensures Alloc(Init(12, 12800), 12, 32).0.used == 44
  {
    GrantExact(Init(12, 12800), 12, 32, 0);
  }

  lemma SecondBlock(p: Pool)
    requires p.blocks == [Block(0, 32, false), Block(44, 12744, true)] && p.used == 44
    ensures Alloc(p, 12, 8).0.blocks == [Block(0, 32, false), Block(44, 8, false), Block(64, 12724, true)]
    ensures Alloc(p, 12, 8).0.used == 64
  {
    GrantExact(p, 12, 8, 1);
  }

  lemma FirstFreed(p: Pool)
    requires p.blocks == [Block(0, 32, false), Block(44, 8, false), Block(64, 12724, true)] && p.used == 64
    ensures Free(p, 12, p.blocks[0]).blocks == [Block(0, 32, true), Block(44, 8, false), Block(64, 12724, true)]
    ensures Free(p, 12, p.blocks[0]).used == 20
  {
    var rs := [Block(0, 32, true), Block(44, 8, false), Block(64, 12724, true)];
    assert Release(p.blocks, 0) == rs;
    assert rs[1..] == [rs[1], rs[2]] && [rs[1], rs[2]][1..] == [rs[2]];
    assert Coalesce([rs[2]], 12) == [rs[2]];
    assert Coalesce(rs[1..], 12) == [rs[1], rs[2]];
  }

  lemma WholeBlock(p: Pool)
    requires p.blocks == [Block(0, 32, true), Block(44, 8, false), Block(64, 12724, true)] && p.used == 20
    ensures Alloc(p, 12, 16).1 == Some(Block(0, 32, false)) && Alloc(p, 12, 16).0.used == 64
  {
    GrantExact(p, 12, 16, 0);
  }

  /** 32 bytes freed again and then 16 asked for: 16 bytes would be left over, too few for a header and 8 bytes more,
      and all 32 are granted. */
  lemma WholeBlockGranted()
    ensures var p := Alloc(Alloc(Init(12, 12800), 12, 32).0, 12, 8).0;
      var q := Free(p, 12, Block(0, 32, false));
      && Block(0, 32, false) in Live(p.blocks)
      && Alloc(q, 12, 16).1 == Some(Block(0, 32, false)) && Alloc(q, 12, 16).0.used == 64
  {
    FirstBlock();
    SecondBlock(Alloc(Init(12, 12800), 12, 32).0);
    var p := Alloc(Alloc(Init(12, 12800), 12, 32).0, 12, 8).0;
    FirstFreed(p);
    assert p.blocks[0] == Block(0, 32, false);
    WholeBlock(Free(p, 12, p.blocks[0]));
  }
}
