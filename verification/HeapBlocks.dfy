/** The heap as a value: the list of blocks that the in-band headers of heap.c describe,
    the transformations that an allocation and a free perform on it, and the laws of those
    transformations.  The class in Heap.dfy is proved to carry out exactly these. */
module HeapBlocks {
  import opened Words

  /** sizeof(hnode_t). */
  const HDR: nat := 32

  /** A leftover smaller than this is handed out with the block instead of being split off. */
  const SPLIT_MIN: nat := 128

  /** ALIGN(n, 32) in 32-bit arithmetic: (n + 31) wraps, then the five low bits are cleared. */
  function Align(n: nat): nat
  {
    (n + 31) % U32 / 32 * 32
  }

  /** The aligned size covers the request exactly when the 32-bit addition does not wrap. */
  lemma AlignCovers(n: nat)
    requires n < U32
    ensures Align(n) % 32 == 0
    ensures Align(n) >= n <==> n <= 0xFFFF_FFE0
    ensures n <= 0xFFFF_FFE0 ==> Align(n) < n + 32
    ensures n > 0xFFFF_FFE0 ==> Align(n) == 0
  {
  }

  /** `addr` is the address of the header; the payload follows it at `addr + HDR`. */
  datatype Block = Block(addr: nat, size: nat, used: bool) {
    function Limit(): nat
    {
      addr + HDR + size
    }

    predicate Fits(n: nat)
    {
      !used && n <= size
    }
  }

  function Last(bs: seq<Block>): Block
    requires bs != []
  {
    bs[|bs| - 1]
  }

  function Front(bs: seq<Block>): seq<Block>
    requires bs != []
  {
    bs[..|bs| - 1]
  }

  /** First address behind the blocks. */
  function End(start: nat, bs: seq<Block>): nat
  {
    if bs == [] then start else Last(bs).Limit()
  }

  /** The blocks cover [start, End) without gap or overlap, in whole 32-byte granules. */
  ghost predicate Tiled(start: nat, bs: seq<Block>)
  {
    && (bs != [] ==> bs[0].addr == start)
    && (forall i {:trigger bs[i].size} :: 0 <= i < |bs| ==> bs[i].size % 32 == 0)
    && (forall i, j {:trigger bs[i], bs[j]} :: 0 <= i < |bs| && j == i + 1 && j < |bs| ==> bs[j].addr == bs[i].Limit())
  }

  ghost predicate NoTwoFree(bs: seq<Block>)
  {
    forall i, j {:trigger bs[i], bs[j]} :: 0 <= i < |bs| && j == i + 1 && j < |bs| ==> bs[i].used || bs[j].used
  }

  ghost predicate WellFormed(start: nat, bs: seq<Block>)
  {
    Tiled(start, bs) && NoTwoFree(bs)
  }

  /** Blocks are laid out in list order, so two blocks never share a byte. */
  lemma {:induction false} Ordered(start: nat, bs: seq<Block>, i: nat, j: nat)
    requires Tiled(start, bs) && i < j < |bs|
    ensures bs[i].Limit() <= bs[j].addr
    decreases j
  {
    assert bs[j].addr == bs[j - 1].Limit();
    if i < j - 1 {
      Ordered(start, bs, i, j - 1);
    }
  }

  /** Every header stands on a 32-byte boundary relative to the heap base. */
  lemma {:induction false} Aligned(start: nat, bs: seq<Block>, i: nat)
    requires Tiled(start, bs) && i < |bs|
    ensures bs[i].addr >= start && (bs[i].addr - start) % 32 == 0
    ensures (bs[i].Limit() - start) % 32 == 0
    decreases i
  {
    if i > 0 {
      Aligned(start, bs, i - 1);
      assert bs[i].addr == bs[i - 1].Limit();
    }
    assert bs[i].size % 32 == 0;
  }

  lemma WithinEnd(start: nat, bs: seq<Block>, i: nat)
    requires Tiled(start, bs) && i < |bs|
    ensures start <= bs[i].addr && bs[i].Limit() <= End(start, bs)
  {
    Aligned(start, bs, i);
    if i < |bs| - 1 {
      Ordered(start, bs, i, |bs| - 1);
    }
  }

  lemma EndAligned(start: nat, bs: seq<Block>)
    requires Tiled(start, bs)
    ensures End(start, bs) >= start && (End(start, bs) - start) % 32 == 0
    ensures End(start, bs) == start <==> bs == []
  {
    if bs != [] {
      Aligned(start, bs, |bs| - 1);
    }
  }

  lemma TiledFront(start: nat, bs: seq<Block>)
    requires Tiled(start, bs) && bs != []
    ensures Tiled(start, Front(bs)) && Last(bs).addr == End(start, Front(bs))
    ensures Last(bs).size % 32 == 0
  {
  }

  lemma TiledSnoc(start: nat, bs: seq<Block>, b: Block)
    requires Tiled(start, bs) && b.addr == End(start, bs) && b.size % 32 == 0
    ensures Tiled(start, bs + [b]) && End(start, bs + [b]) == b.Limit()
  {
  }

  // ---------------------------------------------------------------- allocation

  /** Index of the first free block that can hold n bytes, or |bs| if there is none. */
  function FirstFit(bs: seq<Block>, n: nat): (i: nat)
    ensures i <= |bs|
    ensures forall j :: 0 <= j < i ==> !bs[j].Fits(n)
    ensures i < |bs| ==> bs[i].Fits(n)
  {
    if bs == [] then 0
    else if bs[0].Fits(n) then 0
    else 1 + FirstFit(bs[1..], n)
  }

  /** The block or blocks that take the place of the chosen free block. */
  function Pieces(b: Block, n: nat): seq<Block>
    requires b.Fits(n)
  {
    if b.size - n >= SPLIT_MIN then
      [Block(b.addr, n, true), Block(b.addr + HDR + n, b.size - n - HDR, false)]
    else
      [Block(b.addr, b.size, true)]
  }

  /** Serve n bytes from free block i, splitting it when enough is left over. */
  function Place(bs: seq<Block>, i: nat, n: nat): seq<Block>
    requires i < |bs| && bs[i].Fits(n)
  {
    bs[..i] + Pieces(bs[i], n) + bs[i + 1..]
  }

  lemma PlaceWhole(bs: seq<Block>, i: nat, n: nat)
    requires i < |bs| && bs[i].Fits(n) && bs[i].size - n < SPLIT_MIN
    ensures Place(bs, i, n) == bs[i := Block(bs[i].addr, bs[i].size, true)]
  {
  }

  /** The block list after an allocation of n (already aligned) bytes. */
  function Allocate(start: nat, bs: seq<Block>, n: nat): seq<Block>
  {
    var i := FirstFit(bs, n);
    if i < |bs| then Place(bs, i, n) else bs + [Block(End(start, bs), n, true)]
  }

  /** Header address of the block that this allocation hands out. */
  function Target(start: nat, bs: seq<Block>, n: nat): nat
  {
    var i := FirstFit(bs, n);
    if i < |bs| then bs[i].addr else End(start, bs)
  }

  lemma TiledSuffix(start: nat, bs: seq<Block>, i: nat)
    requires Tiled(start, bs) && i <= |bs|
    ensures Tiled(start, bs[..i])
    ensures Tiled(End(start, bs[..i]), bs[i..])
    ensures End(End(start, bs[..i]), bs[i..]) == End(start, bs)
    ensures i < |bs| ==> bs[i].addr == End(start, bs[..i])
  {
  }

  lemma TiledAppend(start: nat, xs: seq<Block>, ys: seq<Block>)
    requires Tiled(start, xs) && Tiled(End(start, xs), ys)
    ensures Tiled(start, xs + ys) && End(start, xs + ys) == End(End(start, xs), ys)
  {
  }

  lemma NoTwoFreeAppend(xs: seq<Block>, ys: seq<Block>)
    requires NoTwoFree(xs) && NoTwoFree(ys)
    requires xs != [] && ys != [] ==> Last(xs).used || ys[0].used
    ensures NoTwoFree(xs + ys)
  {
  }

  lemma NoTwoFreeSplit(bs: seq<Block>, i: nat)
    requires NoTwoFree(bs) && i < |bs| && !bs[i].used
    ensures NoTwoFree(bs[..i]) && NoTwoFree(bs[i + 1..])
    ensures i > 0 ==> bs[i - 1].used
    ensures i + 1 < |bs| ==> bs[i + 1].used
  {
  }

  lemma PiecesTiled(b: Block, n: nat)
    requires b.Fits(n) && n % 32 == 0 && b.size % 32 == 0
    ensures Tiled(b.addr, Pieces(b, n)) && End(b.addr, Pieces(b, n)) == b.Limit()
    ensures NoTwoFree(Pieces(b, n)) && Pieces(b, n) != []
    ensures Pieces(b, n)[0].used && Pieces(b, n)[0].addr == b.addr
  {
  }

  lemma PlaceWellFormed(start: nat, bs: seq<Block>, i: nat, n: nat)
    requires Tiled(start, bs) && n % 32 == 0
    requires i < |bs| && bs[i].Fits(n)
    ensures Tiled(start, Place(bs, i, n))
    ensures NoTwoFree(bs) ==> NoTwoFree(Place(bs, i, n))
    ensures End(start, Place(bs, i, n)) == End(start, bs)
  {
    var p := Pieces(bs[i], n);
    PiecesTiled(bs[i], n);
    TiledSuffix(start, bs, i);
    TiledSuffix(start, bs, i + 1);
    assert Last(bs[..i + 1]) == bs[i];
    TiledAppend(start, bs[..i], p);
    TiledAppend(start, bs[..i] + p, bs[i + 1..]);
    if NoTwoFree(bs) {
      NoTwoFreeSplit(bs, i);
      NoTwoFreeAppend(bs[..i], p);
      NoTwoFreeAppend(bs[..i] + p, bs[i + 1..]);
    }
  }

  lemma AllocateWellFormed(start: nat, bs: seq<Block>, n: nat)
    requires WellFormed(start, bs) && n % 32 == 0
    ensures WellFormed(start, Allocate(start, bs, n))
  {
    var i := FirstFit(bs, n);
    if i < |bs| {
      PlaceWellFormed(start, bs, i, n);
    } else {
      TiledSnoc(start, bs, Block(End(start, bs), n, true));
      assert NoTwoFree(Allocate(start, bs, n));
    }
  }

  /** The block that this allocation hands out. */
  function Granted(start: nat, bs: seq<Block>, n: nat): Block
  {
    Allocate(start, bs, n)[FirstFit(bs, n)]
  }

  /** The block handed out holds the request and wastes less than 128 bytes. */
  lemma GrantedFacts(start: nat, bs: seq<Block>, n: nat)
    requires WellFormed(start, bs) && n % 32 == 0
    ensures var g := Granted(start, bs, n);
            g.used && g.addr == Target(start, bs, n) && n <= g.size < n + 128
    ensures WellFormed(start, Allocate(start, bs, n))
    ensures Granted(start, bs, n).Limit() <= End(start, Allocate(start, bs, n))
    ensures End(start, bs) <= End(start, Allocate(start, bs, n))
    ensures End(start, bs) < End(start, Allocate(start, bs, n)) <==> FirstFit(bs, n) == |bs|
  {
    var t := FirstFit(bs, n);
    AllocateWellFormed(start, bs, n);
    WithinEnd(start, Allocate(start, bs, n), t);
    if t < |bs| {
      PlaceWellFormed(start, bs, t, n);
    }
  }

  /** First fit with bounded waste.  If a free block can hold n bytes, the block handed out is
      where the lowest such block was; otherwise the heap grows by a block of n bytes behind its
      end.  Less than 128 bytes are wasted. */
  lemma BoundedWaste(start: nat, bs: seq<Block>, n: nat)
    requires WellFormed(start, bs) && n % 32 == 0
    ensures var r := Allocate(start, bs, n);
            var g := Granted(start, bs, n);
            && g in r && g.used && n <= g.size < n + 128
            && (forall b :: b in bs && !b.used && n <= b.size ==> g.addr <= b.addr)
            && (End(start, r) == End(start, bs) <==> exists b :: b in bs && !b.used && n <= b.size)
    ensures (exists b :: b in bs && !b.used && n <= b.size) ==>
              exists b :: b in bs && !b.used && n <= b.size && b.addr == Granted(start, bs, n).addr
    ensures (forall b :: b in bs && !b.used ==> b.size < n) ==>
              var g := Granted(start, bs, n);
              g == Block(if bs == [] then start else Last(bs).addr + 32 + Last(bs).size, n, true) &&
              Allocate(start, bs, n) == bs + [g]
  {
    hide Allocate;
    GrantedFacts(start, bs, n);
    GrantedPlace(start, bs, n);
    if FirstFit(bs, n) < |bs| {
      LowestFit(start, bs, n);
      assert bs[FirstFit(bs, n)] in bs;
    } else {
      assert forall b :: b in bs && !b.used ==> b.size < n;
    }
  }

  lemma GrantedPlace(start: nat, bs: seq<Block>, n: nat)
    ensures Granted(start, bs, n) in Allocate(start, bs, n)
    ensures FirstFit(bs, n) < |bs| ==> bs[FirstFit(bs, n)].addr == Granted(start, bs, n).addr
    ensures FirstFit(bs, n) == |bs| ==> Granted(start, bs, n) == Block(End(start, bs), n, true)
    ensures FirstFit(bs, n) == |bs| ==> Allocate(start, bs, n) == bs + [Granted(start, bs, n)]
  {
    var r := Allocate(start, bs, n);
    assert r[FirstFit(bs, n)] in r;
  }

  /** When the free block b is the one that serves the request: it is split exactly if it has 128
      bytes more than asked for, and then what is left over, less a header, is free. */
  lemma SplitsFrom128(start: nat, bs: seq<Block>, n: nat, b: Block)
    requires WellFormed(start, bs) && n % 32 == 0
    requires b in bs && !b.used && n <= b.size && b.addr == Granted(start, bs, n).addr
    ensures var r, g := Allocate(start, bs, n), Granted(start, bs, n);
            && (n + 128 <= b.size ==> |r| == |bs| + 1 && g.size == n)
            && (n + 128 <= b.size ==> Block(b.addr + 32 + n, b.size - n - 32, false) in r)
            && (b.size < n + 128 ==> |r| == |bs| && g.size == b.size)
  {
    hide Allocate;
    var t := FirstFit(bs, n);
    assert t < |bs|;
    ServedBy(start, bs, n);
    SameBlock(start, bs, b, bs[t]);
  }

  lemma LowestFit(start: nat, bs: seq<Block>, n: nat)
    requires WellFormed(start, bs) && FirstFit(bs, n) < |bs|
    ensures forall b :: b in bs && !b.used && n <= b.size ==> bs[FirstFit(bs, n)].addr <= b.addr
  {
    var t := FirstFit(bs, n);
    forall b | b in bs && !b.used && n <= b.size
      ensures bs[t].addr <= b.addr
    {
      var k :| 0 <= k < |bs| && bs[k] == b;
      if k > t {
        Ordered(start, bs, t, k);
      }
    }
  }

  lemma ServedBy(start: nat, bs: seq<Block>, n: nat)
    requires FirstFit(bs, n) < |bs|
    ensures var r, g, b := Allocate(start, bs, n), Granted(start, bs, n), bs[FirstFit(bs, n)];
            && g in r && b.addr == g.addr && |r| == (if n + 128 <= b.size then |bs| + 1 else |bs|)
            && (n + 128 <= b.size ==> g.size == n && Block(g.addr + 32 + n, b.size - n - 32, false) in r)
            && (b.size < n + 128 ==> g.size == b.size)
  {
    var t, r := FirstFit(bs, n), Allocate(start, bs, n);
    assert r[t] in r;
    if n + 128 <= bs[t].size {
      assert r[t + 1] == Block(bs[t].addr + 32 + n, bs[t].size - n - 32, false);
      assert r[t + 1] in r;
    }
  }

  /** Where the heap ends after an allocation for which there is memory. */
  lemma AllocateEnds(start: nat, limit: nat, bs: seq<Block>, n: nat)
    requires WellFormed(start, bs) && n % 32 == 0 && End(start, bs) <= limit
    requires FirstFit(bs, n) == |bs| ==> End(start, bs) + HDR + n <= limit
    ensures WellFormed(start, Allocate(start, bs, n)) && Allocate(start, bs, n) != []
    ensures End(start, Allocate(start, bs, n)) <= limit
  {
    GrantedFacts(start, bs, n);
  }

  lemma KeptByAllocate(start: nat, bs: seq<Block>, n: nat, i: nat)
    requires WellFormed(start, bs) && n % 32 == 0 && i < |bs| && bs[i].used
    ensures bs[i].addr != Target(start, bs, n)
  {
    GrantedFacts(start, bs, n);
    var t := FirstFit(bs, n);
    if t < |bs| {
      if i < t { Ordered(start, bs, i, t); } else if t < i { Ordered(start, bs, t, i); }
    } else {
      WithinEnd(start, bs, i);
    }
  }

  // ---------------------------------------------------------------- release

  /** Clear the used mark of the block whose header is at a. */
  function MarkFree(bs: seq<Block>, a: nat): seq<Block>
  {
    seq(|bs|, i requires 0 <= i < |bs| => if bs[i].addr == a then bs[i].(used := false) else bs[i])
  }

  /** Append b to a list, merging it into the last block when both are free. */
  function Absorb(bs: seq<Block>, b: Block): seq<Block>
  {
    if bs != [] && !b.used && !Last(bs).used then
      Front(bs) + [Last(bs).(size := Last(bs).size + b.size + HDR)]
    else
      bs + [b]
  }

  /** The list that one sweep from the first header to the last leaves behind. */
  function Coalesce(bs: seq<Block>): seq<Block>
  {
    if bs == [] then [] else Absorb(Coalesce(Front(bs)), Last(bs))
  }

  function Release(bs: seq<Block>, a: nat): seq<Block>
  {
    Coalesce(MarkFree(bs, a))
  }

  /** The used blocks, in order. */
  function UsedOf(bs: seq<Block>): seq<Block>
  {
    if bs == [] then []
    else UsedOf(Front(bs)) + if Last(bs).used then [Last(bs)] else []
  }

  lemma {:induction false} UsedConcat(a: seq<Block>, b: seq<Block>)
    ensures UsedOf(a + b) == UsedOf(a) + UsedOf(b)
    decreases |b|
  {
    if b == [] {
      assert a + b == a;
    } else {
      UsedConcat(a, Front(b));
      assert Front(a + b) == a + Front(b) && Last(a + b) == Last(b);
      var t := if Last(b).used then [Last(b)] else [];
      assert UsedOf(a + b) == (UsedOf(a) + UsedOf(Front(b))) + t;
      assert UsedOf(b) == UsedOf(Front(b)) + t;
    }
  }

  lemma AbsorbTiled(start: nat, bs: seq<Block>, b: Block)
    requires Tiled(start, bs) && b.addr == End(start, bs) && b.size % 32 == 0
    ensures Tiled(start, Absorb(bs, b)) && End(start, Absorb(bs, b)) == b.Limit()
    ensures NoTwoFree(bs) ==> NoTwoFree(Absorb(bs, b))
    ensures UsedOf(Absorb(bs, b)) == UsedOf(bs + [b])
  {
    if bs != [] && !b.used && !Last(bs).used {
      MergeTiled(start, bs, b);
    } else {
      TiledSnoc(start, bs, b);
    }
  }

  lemma MergeTiled(start: nat, bs: seq<Block>, b: Block)
    requires Tiled(start, bs) && b.addr == End(start, bs) && b.size % 32 == 0
    requires bs != [] && !b.used && !Last(bs).used
    ensures Tiled(start, Absorb(bs, b)) && End(start, Absorb(bs, b)) == b.Limit()
    ensures NoTwoFree(bs) ==> NoTwoFree(Absorb(bs, b))
    ensures UsedOf(Absorb(bs, b)) == UsedOf(bs + [b])
  {
    var l := Last(bs).(size := Last(bs).size + b.size + HDR);
    TiledFront(start, bs);
    TiledSnoc(start, Front(bs), l);
    assert Front(Front(bs) + [l]) == Front(bs) && Front(bs + [b]) == bs;
  }

  /** The sweep keeps the span, the tiling and every used block, and leaves no two adjacent
      free blocks, whatever list it starts from. */
  lemma {:induction false} CoalesceLaws(start: nat, bs: seq<Block>)
    requires Tiled(start, bs)
    ensures WellFormed(start, Coalesce(bs))
    ensures End(start, Coalesce(bs)) == End(start, bs)
    ensures UsedOf(Coalesce(bs)) == UsedOf(bs)
    decreases |bs|
  {
    if bs != [] {
      TiledFront(start, bs);
      CoalesceLaws(start, Front(bs));
      AbsorbTiled(start, Coalesce(Front(bs)), Last(bs));
      var c := Coalesce(Front(bs));
      assert Front(c + [Last(bs)]) == c;
    }
  }

  lemma {:induction false} UsedMember(bs: seq<Block>, b: Block)
    ensures b in UsedOf(bs) <==> b in bs && b.used
    decreases |bs|
  {
    if bs != [] {
      UsedMember(Front(bs), b);
      assert bs == Front(bs) + [Last(bs)];
    }
  }

  lemma UsedEnd(start: nat, bs: seq<Block>)
    requires Tiled(start, bs)
    ensures bs != [] && Last(bs).used ==> End(start, UsedOf(bs)) == End(start, bs)
    ensures bs != [] && !Last(bs).used ==> End(start, UsedOf(bs)) <= Last(bs).addr
  {
  }

  /** Canonical form.  A well-formed list is determined by where it starts, where it ends and
      which blocks are in use: the free blocks are exactly the maximal gaps between them. */
  lemma {:induction false} Canonical(start: nat, xs: seq<Block>, ys: seq<Block>)
    requires WellFormed(start, xs) && WellFormed(start, ys)
    requires End(start, xs) == End(start, ys)
    requires UsedOf(xs) == UsedOf(ys)
    ensures xs == ys
    decreases |xs|
  {
    EndAligned(start, xs);
    EndAligned(start, ys);
    if xs != [] {
      SameLast(start, xs, ys);
      TiledFront(start, xs);
      TiledFront(start, ys);
      FrontNoTwoFree(xs);
      FrontNoTwoFree(ys);
      Canonical(start, Front(xs), Front(ys));
      assert xs == Front(xs) + [Last(xs)] && ys == Front(ys) + [Last(ys)];
    }
  }

  /** Such lists end with the same block. */
  lemma SameLast(start: nat, xs: seq<Block>, ys: seq<Block>)
    requires WellFormed(start, xs) && WellFormed(start, ys) && xs != [] && ys != []
    requires End(start, xs) == End(start, ys) && UsedOf(xs) == UsedOf(ys)
    ensures Last(xs) == Last(ys) && UsedOf(Front(xs)) == UsedOf(Front(ys))
  {
    TiledFront(start, xs);
    TiledFront(start, ys);
    UsedEnd(start, xs);
    UsedEnd(start, ys);
    if !Last(xs).used {
      FreeTail(start, xs);
      FreeTail(start, ys);
    }
    assert Last(xs) == Last(ys);
    var t := if Last(xs).used then 1 else 0;
    assert UsedOf(Front(xs)) == UsedOf(xs)[..|UsedOf(xs)| - t];
    assert UsedOf(Front(ys)) == UsedOf(ys)[..|UsedOf(ys)| - t];
  }

  lemma FrontNoTwoFree(bs: seq<Block>)
    requires bs != [] && NoTwoFree(bs)
    ensures NoTwoFree(Front(bs))
    ensures !Last(bs).used && Front(bs) != [] ==> Last(Front(bs)).used
  {
  }

  /** A trailing free block begins where the last used block ends. */
  lemma FreeTail(start: nat, bs: seq<Block>)
    requires WellFormed(start, bs) && bs != [] && !Last(bs).used
    ensures Last(bs).addr == End(start, UsedOf(bs))
  {
  }

  lemma MarkFreeLaws(start: nat, bs: seq<Block>, a: nat)
    requires Tiled(start, bs)
    ensures Tiled(start, MarkFree(bs, a)) && End(start, MarkFree(bs, a)) == End(start, bs)
  {
  }

  /** A free never moves the end of the heap, keeps the list well formed, and removes
      exactly one block from the used ones. */
  lemma ReleaseLaws(start: nat, bs: seq<Block>, i: nat)
    requires WellFormed(start, bs) && i < |bs|
    ensures WellFormed(start, Release(bs, bs[i].addr))
    ensures End(start, Release(bs, bs[i].addr)) == End(start, bs)
    ensures UsedOf(Release(bs, bs[i].addr)) == UsedOf(bs[..i]) + UsedOf(bs[i + 1..])
  {
    var a := bs[i].addr;
    var m := MarkFree(bs, a);
    MarkFreeLaws(start, bs, a);
    CoalesceLaws(start, m);
    MarkOne(start, bs, i);
    UsedDrop(m, i);
    assert m[..i] == bs[..i] && m[i + 1..] == bs[i + 1..];
  }

  lemma MarkOne(start: nat, bs: seq<Block>, i: nat)
    requires Tiled(start, bs) && i < |bs|
    ensures MarkFree(bs, bs[i].addr) == bs[..i] + [bs[i].(used := false)] + bs[i + 1..]
  {
    forall k | 0 <= k < |bs| && k != i
      ensures bs[k].addr != bs[i].addr
    {
      if k < i { Ordered(start, bs, k, i); } else { Ordered(start, bs, i, k); }
    }
  }

  /** The used blocks around the chosen free block are those of the whole list, before and after. */
  lemma UsedAround(bs: seq<Block>, i: nat, n: nat)
    requires i < |bs| && bs[i].Fits(n)
    ensures var r := Place(bs, i, n);
            i < |r| && UsedOf(r[..i]) + UsedOf(r[i + 1..]) == UsedOf(bs)
  {
    var rest := Pieces(bs[i], n)[1..];
    PlaceAround(bs, i, n);
    UsedSingle(rest);
    UsedConcat(rest, bs[i + 1..]);
    assert [] + UsedOf(bs[i + 1..]) == UsedOf(bs[i + 1..]);
    UsedDrop(bs, i);
  }

  lemma PlaceAround(bs: seq<Block>, i: nat, n: nat)
    requires i < |bs| && bs[i].Fits(n)
    ensures i < |Place(bs, i, n)| && Place(bs, i, n)[..i] == bs[..i]
    ensures Place(bs, i, n)[i + 1..] == Pieces(bs[i], n)[1..] + bs[i + 1..]
  {
  }

  lemma UsedDrop(bs: seq<Block>, i: nat)
    requires i < |bs| && !bs[i].used
    ensures UsedOf(bs) == UsedOf(bs[..i]) + UsedOf(bs[i + 1..])
  {
    var a, f, c := bs[..i], [bs[i]], bs[i + 1..];
    UsedSingle(f);
    UsedConcat(a, f);
    UsedConcat(a + f, c);
    assert bs == a + f + c;
    assert UsedOf(a) + [] == UsedOf(a);
  }

  lemma UsedSingle(s: seq<Block>)
    requires |s| <= 1 && (s != [] ==> !s[0].used)
    ensures UsedOf(s) == []
  {
  }

  /** The blocks in use. */
  ghost function Used(bs: seq<Block>): set<Block>
  {
    set b | b in bs && b.used
  }

  lemma SameBlock(start: nat, bs: seq<Block>, b: Block, c: Block)
    requires Tiled(start, bs) && b in bs && c in bs
    ensures b == c || b.Limit() <= c.addr || c.Limit() <= b.addr
  {
    var i :| 0 <= i < |bs| && bs[i] == b;
    var j :| 0 <= j < |bs| && bs[j] == c;
    if i < j { Ordered(start, bs, i, j); } else if j < i { Ordered(start, bs, j, i); }
  }

  lemma UsedSetOf(bs: seq<Block>)
    ensures Used(bs) == set b | b in UsedOf(bs)
  {
    forall b
      ensures b in UsedOf(bs) <==> b in bs && b.used
    {
      UsedMember(bs, b);
    }
  }

  lemma UsedSetInsert(bs: seq<Block>, t: nat)
    requires t < |bs| && bs[t].used
    ensures Used(bs) == Used(bs[..t]) + {bs[t]} + Used(bs[t + 1..])
  {
    forall b | b in Used(bs)
      ensures b in Used(bs[..t]) + {bs[t]} + Used(bs[t + 1..])
    {
      var k :| 0 <= k < |bs| && bs[k] == b;
      assert k < t ==> b == bs[..t][k];
      assert k > t ==> b == bs[t + 1..][k - t - 1];
    }
  }

  lemma UsedSetAround(bs: seq<Block>, i: nat, n: nat)
    requires i < |bs| && bs[i].Fits(n)
    ensures var r := Place(bs, i, n);
            i < |r| && Used(r[..i]) + Used(r[i + 1..]) == Used(bs)
  {
    var r := Place(bs, i, n);
    UsedAround(bs, i, n);
    UsedSetOf(bs);
    UsedSetOf(r[..i]);
    UsedSetOf(r[i + 1..]);
  }

  /** An allocation adds exactly one block to those in use. */
  lemma AllocateUsed(start: nat, bs: seq<Block>, n: nat)
    requires WellFormed(start, bs) && n % 32 == 0
    ensures var r := Allocate(start, bs, n);
            var t := FirstFit(bs, n);
            t < |r| && Used(r) == Used(bs) + {r[t]}
  {
    var r := Allocate(start, bs, n);
    var t := FirstFit(bs, n);
    GrantedFacts(start, bs, n);
    UsedSetInsert(r, t);
    if t < |bs| {
      UsedSetAround(bs, t, n);
    } else {
      assert r[..t] == bs && r[t + 1..] == [];
    }
  }

  /** A free removes exactly one block from those in use. */
  lemma ReleaseUsed(start: nat, bs: seq<Block>, i: nat)
    requires WellFormed(start, bs) && i < |bs|
    ensures Used(Release(bs, bs[i].addr)) == Used(bs) - {bs[i]}
  {
    ReleaseLaws(start, bs, i);
    UsedSetOf(Release(bs, bs[i].addr));
    UsedSetOf(bs[..i]);
    UsedSetOf(bs[i + 1..]);
    var us, vs := UsedOf(bs[..i]), UsedOf(bs[i + 1..]);
    assert Used(Release(bs, bs[i].addr)) == Used(bs[..i]) + Used(bs[i + 1..]);
    Around(start, bs, i);
  }

  /** In short: of the blocks in use, a free takes away the one at a, and no other changes; the
      blocks then cover the same bytes, and no two free ones are neighbours. */
  lemma FreeDrops(start: nat, bs: seq<Block>, a: nat)
    requires WellFormed(start, bs) && exists b :: b in bs && b.addr == a
    ensures forall b :: b in Release(bs, a) && b.used <==> b in bs && b.used && b.addr != a
    ensures Release(bs, a) != [] && Release(bs, a)[0].addr == start
    ensures Last(Release(bs, a)).addr + Last(Release(bs, a)).size == Last(bs).addr + Last(bs).size
    ensures forall i :: 0 <= i < |Release(bs, a)| - 1 ==> Adjacent(Release(bs, a)[i], Release(bs, a)[i + 1])
  {
    var i :| 0 <= i < |bs| && bs[i].addr == a;
    ReleaseLaws(start, bs, i);
    ReleaseUsed(start, bs, i);
    EndAligned(start, bs);
    EndAligned(start, Release(bs, a));
    forall b | b in bs && b != bs[i]
      ensures b.addr != a
    {
      SameBlock(start, bs, b, bs[i]);
    }
    forall b
      ensures b in Release(bs, a) && b.used <==> b in bs && b.used && b.addr != a
    {
      assert b in Used(Release(bs, a)) <==> b in Used(bs) && b != bs[i];
    }
  }

  /** c stands right behind b, and not both are free. */
  predicate Adjacent(b: Block, c: Block)
  {
    c.addr == b.addr + 32 + b.size && (b.used || c.used)
  }

  lemma Around(start: nat, bs: seq<Block>, i: nat)
    requires Tiled(start, bs) && i < |bs|
    ensures Used(bs) - {bs[i]} == Used(bs[..i]) + Used(bs[i + 1..])
  {
    forall k | 0 <= k < |bs| && k != i
      ensures bs[k] != bs[i]
    {
      if k < i { Ordered(start, bs, k, i); } else { Ordered(start, bs, i, k); }
    }
    forall b | b in Used(bs) - {bs[i]}
      ensures b in Used(bs[..i]) + Used(bs[i + 1..])
    {
      var k :| 0 <= k < |bs| && bs[k] == b;
      assert k < i ==> b == bs[..i][k];
      assert k > i ==> b == bs[i + 1..][k - i - 1];
    }
  }

  /** Freeing what was just allocated gives back the exact block list, split or not, if and
      only if the request was served from a free block rather than by growing the heap. */
  lemma AllocateThenRelease(start: nat, bs: seq<Block>, n: nat)
    requires WellFormed(start, bs) && n % 32 == 0
    ensures Release(Allocate(start, bs, n), Target(start, bs, n)) == bs
            <==> exists b :: b in bs && b.Fits(n)
  {
    var i := FirstFit(bs, n);
    var r := Allocate(start, bs, n);
    GrantedFacts(start, bs, n);
    ReleaseLaws(start, r, i);
    if i < |bs| {
      UsedAround(bs, i, n);
      Canonical(start, Release(r, r[i].addr), bs);
    }
  }

  /** When nothing is in use, the whole span is one free block. */
  lemma AllFree(start: nat, bs: seq<Block>)
    requires WellFormed(start, bs) && bs != []
    requires forall b | b in bs :: !b.used
    ensures End(start, bs) >= start + HDR
    ensures bs == [Block(start, End(start, bs) - start - HDR, false)]
  {
    assert bs[0] in bs;
    assert |bs| > 1 ==> bs[1] in bs && (bs[0].used || bs[1].used);
  }

  // ---------------------------------------------------------------- accounting

  /** Bytes taken by a list of blocks, headers included. */
  function Span(bs: seq<Block>): nat
  {
    if bs == [] then 0 else Span(Front(bs)) + Last(bs).size + HDR
  }

  lemma {:induction false} SpanOfTiled(start: nat, bs: seq<Block>)
    requires Tiled(start, bs)
    ensures Span(bs) == End(start, bs) - start
    decreases |bs|
  {
    if bs != [] {
      TiledFront(start, bs);
      SpanOfTiled(start, Front(bs));
    }
  }

  /** What the sums are made of: each block counts with its size and 32 bytes, and only the used
      ones of a list are kept. */
  lemma SpanIs(bs: seq<Block>, b: Block)
    ensures Span([]) == 0 && Span(bs + [b]) == Span(bs) + b.size + 32
    ensures UsedOf([]) == [] && UsedOf(bs + [b]) == if b.used then UsedOf(bs) + [b] else UsedOf(bs)
  {
    assert Front(bs + [b]) == bs;
  }
}
