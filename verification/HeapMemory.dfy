/** The in-band headers: how a stretch of memory represents a block list, and what the
    individual header updates of heap.c do to that list. */
module HeapMemory {
  import opened HeapBlocks

  /** 32 bytes of memory, its eight words under the names that hnode_t gives them.  Payload
      is made of the same granules; nothing marks a granule as being a header. */
  datatype Granule = Granule(used: nat, size: nat, prev: nat, next: nat, align: seq<nat>)

  const NULL: nat := 0
  const ZERO := Granule(0, 0, 0, 0, [0, 0, 0, 0])

  /** The granule at byte address a. */
  function Idx(start: nat, a: nat): nat
    requires a >= start
  {
    (a - start) / 32
  }

  ghost predicate Header(m: seq<Granule>, start: nat, bs: seq<Block>, i: nat)
    requires i < |bs|
  {
    && bs[i].addr >= start
    && Idx(start, bs[i].addr) < |m|
    && var h := m[Idx(start, bs[i].addr)];
    && (h.used != 0 <==> bs[i].used)
    && h.size == bs[i].size
    && h.prev == (if i == 0 then NULL else bs[i - 1].addr)
    && h.next == (if i == |bs| - 1 then NULL else bs[i + 1].addr)
  }

  /** The headers in m spell out the block list, linked in both directions. */
  ghost predicate Linked(m: seq<Granule>, start: nat, bs: seq<Block>)
  {
    forall i :: 0 <= i < |bs| ==> Header(m, start, bs, i)
  }

  ghost predicate IsHead(start: nat, bs: seq<Block>, g: nat)
  {
    exists b :: b in bs && b.addr == start + 32 * g
  }

  /** m and m' differ in header granules of the list at most. */
  ghost predicate OnlyHeads(m: seq<Granule>, m': seq<Granule>, start: nat, bs: seq<Block>)
  {
    |m| == |m'| && forall g {:trigger m'[g]} :: 0 <= g < |m| ==> m'[g] == m[g] || IsHead(start, bs, g)
  }

  ghost predicate InPayload(start: nat, b: Block, g: nat)
  {
    b.addr + HDR <= start + 32 * g < b.Limit()
  }

  /** No header stands inside the payload of a block. */
  lemma PayloadHasNoHead(start: nat, bs: seq<Block>, b: Block, g: nat)
    requires Tiled(start, bs) && b in bs && InPayload(start, b, g)
    ensures !IsHead(start, bs, g)
  {
    var i :| 0 <= i < |bs| && bs[i] == b;
    forall j | 0 <= j < |bs|
      ensures bs[j].addr != start + 32 * g
    {
      if j < i { Ordered(start, bs, j, i); } else if i < j { Ordered(start, bs, i, j); }
    }
  }

  /** What a header tells: its own block's size and state, and where its neighbours are. */
  lemma HeadInside(m: seq<Granule>, start: nat, bs: seq<Block>, i: nat)
    requires Tiled(start, bs) && Linked(m, start, bs) && i < |bs|
    ensures start <= bs[i].addr && bs[i].Limit() <= End(start, bs)
    ensures bs[i].addr == start + 32 * Idx(start, bs[i].addr)
    ensures Header(m, start, bs, i)
  {
    Aligned(start, bs, i);
    WithinEnd(start, bs, i);
  }

  lemma DistinctHeads(start: nat, bs: seq<Block>, i: nat, j: nat)
    requires Tiled(start, bs) && i < |bs| && j < |bs| && i != j
    ensures bs[i].addr >= start && bs[j].addr >= start
    ensures Idx(start, bs[i].addr) != Idx(start, bs[j].addr)
  {
    Aligned(start, bs, i);
    Aligned(start, bs, j);
    if i < j { Ordered(start, bs, i, j); } else { Ordered(start, bs, j, i); }
  }

  /** Adding a block behind the last one: its header at e, and the next pointer of the last
      block, at l. */
  ghost predicate Appends(m: seq<Granule>, m': seq<Granule>, start: nat, bs: seq<Block>, n: nat, e: nat, l: nat)
  {
    && bs != [] && n % 32 == 0
    && e < |m| && l < |m| && End(start, bs) == start + 32 * e && Last(bs).addr == start + 32 * l
    && m' == m[e := Granule(1, n, Last(bs).addr, NULL, m[e].align)][l := m[l].(next := End(start, bs))]
  }

  lemma AppendLinked(m: seq<Granule>, m': seq<Granule>, start: nat, bs: seq<Block>, n: nat, e: nat, l: nat)
    requires Tiled(start, bs) && Linked(m, start, bs) && Appends(m, m', start, bs, n, e, l)
    ensures Linked(m', start, bs + [Block(End(start, bs), n, true)])
  {
    var r := bs + [Block(End(start, bs), n, true)];
    TiledSnoc(start, bs, Block(End(start, bs), n, true));
    DistinctHeads(start, r, |bs| - 1, |bs|);
    forall k | 0 <= k < |r|
      ensures Header(m', start, r, k)
    {
      if k < |bs| {
        assert Header(m, start, bs, k);
        if k < |bs| - 1 {
          ApartFromTwo(start, r, |bs| - 1, k);
        }
      }
    }
  }

  lemma AppendHeads(m: seq<Granule>, m': seq<Granule>, start: nat, bs: seq<Block>, n: nat, e: nat, l: nat)
    requires Appends(m, m', start, bs, n, e, l)
    ensures OnlyHeads(m, m', start, bs + [Block(End(start, bs), n, true)])
  {
  }

  /** Handing out free block i whole. */
  lemma FillLinked(m: seq<Granule>, m': seq<Granule>, start: nat, bs: seq<Block>, i: nat, x: nat)
    requires Tiled(start, bs) && Linked(m, start, bs) && i < |bs|
    requires x < |m| && bs[i].addr == start + 32 * x
    requires m' == m[x := m[x].(used := 1, size := bs[i].size)]
    ensures Linked(m', start, bs[i := Block(bs[i].addr, bs[i].size, true)])
    ensures OnlyHeads(m, m', start, bs[i := Block(bs[i].addr, bs[i].size, true)])
  {
    var r := bs[i := Block(bs[i].addr, bs[i].size, true)];
    forall k | 0 <= k < |r|
      ensures Header(m', start, r, k)
    {
      assert Header(m, start, bs, k);
      if k != i {
        DistinctHeads(start, bs, k, i);
      }
    }
    assert r[i] in r;
    assert IsHead(start, r, x);
  }

  /** Memory after block at granule x has been split: the header b of the remainder at y, the
      back pointer of the block behind it (at z, if there is one), and the header at x. */
  ghost function Split(m: seq<Granule>, x: nat, y: nat, z: nat, behind: bool, a: Block, b: Block): seq<Granule>
    requires x < |m| && y < |m| && z < |m|
  {
    var m1 := m[y := Granule(0, b.size, a.addr, m[x].next, m[y].align)];
    var m2 := if behind then m1[z := m1[z].(prev := b.addr)] else m1;
    m2[x := m2[x].(used := 1, size := a.size, next := b.addr)]
  }

  /** Splitting free block i into a and b. */
  lemma SplitLinked(m: seq<Granule>, start: nat, bs: seq<Block>, i: nat, a: Block, b: Block, x: nat, y: nat, z: nat)
    requires Tiled(start, bs) && Linked(m, start, bs) && i < |bs|
    requires Tiled(start, bs[..i] + [a, b] + bs[i + 1..])
    requires a.addr == bs[i].addr && a.used && !b.used
    requires x < |m| && a.addr == start + 32 * x && y < |m| && b.addr == start + 32 * y
    requires z < |m| && (i + 1 < |bs| ==> bs[i + 1].addr == start + 32 * z)
    ensures Linked(Split(m, x, y, z, i + 1 < |bs|, a, b), start, bs[..i] + [a, b] + bs[i + 1..])
  {
    var r := bs[..i] + [a, b] + bs[i + 1..];
    DistinctHeads(start, r, i, i + 1);
    if i + 1 < |bs| {
      DistinctHeads(start, r, i, i + 2);
      DistinctHeads(start, r, i + 1, i + 2);
    }
    var m' := Split(m, x, y, z, i + 1 < |bs|, a, b);
    forall k | 0 <= k < |r|
      ensures Header(m', start, r, k)
    {
      if k == i || k == i + 1 {
        assert Header(m, start, bs, i);
      } else {
        SplitElsewhere(m, start, bs, i, a, b, x, y, z, r, k);
      }
    }
  }

  lemma SplitElsewhere(m: seq<Granule>, start: nat, bs: seq<Block>, i: nat, a: Block, b: Block, x: nat, y: nat,
                       z: nat, r: seq<Block>, k: nat)
    requires Tiled(start, r) && Linked(m, start, bs) && i < |bs| && r == bs[..i] + [a, b] + bs[i + 1..]
    requires a.addr == bs[i].addr && k < |r| && k != i && k != i + 1
    requires x < |m| && a.addr == start + 32 * x && y < |m| && b.addr == start + 32 * y && x != y
    requires z < |m| && (i + 1 < |bs| ==> bs[i + 1].addr == start + 32 * z)
    ensures Header(Split(m, x, y, z, i + 1 < |bs|, a, b), start, r, k)
  {
    assert Header(m, start, bs, if k < i then k else k - 1);
    ApartFromTwo(start, r, i, k);
    ApartFromTwo(start, r, i + 1, k);
  }

  /** The only granules written are headers of the list that results. */
  lemma SplitHeads(m: seq<Granule>, start: nat, r: seq<Block>, i: nat, x: nat, y: nat, z: nat, behind: bool)
    requires Tiled(start, r) && i + 1 < |r| && x < |m| && y < |m| && z < |m|
    requires r[i].addr == start + 32 * x && r[i + 1].addr == start + 32 * y
    requires behind ==> i + 2 < |r| && r[i + 2].addr == start + 32 * z
    ensures OnlyHeads(m, Split(m, x, y, z, behind, r[i], r[i + 1]), start, r)
  {
  }

  /** The same by addresses: a and b are the blocks that result. */
  ghost function SplitAt(m: seq<Granule>, start: nat, a: Block, b: Block): seq<Granule>
    requires start <= a.addr && Idx(start, a.addr) < |m|
    requires start <= b.addr && Idx(start, b.addr) < |m|
    requires var next := m[Idx(start, a.addr)].next; next != NULL ==> start <= next && Idx(start, next) < |m|
  {
    var next := m[Idx(start, a.addr)].next;
    Split(m, Idx(start, a.addr), Idx(start, b.addr), if next != NULL then Idx(start, next) else 0, next != NULL, a, b)
  }

  /** Where the headers involved in splitting block i stand. */
  lemma SplitPlaces(m: seq<Granule>, start: nat, bs: seq<Block>, i: nat, n: nat)
    requires 0 < start && Tiled(start, bs) && Linked(m, start, bs) && i < |bs|
    requires !bs[i].used && n % 32 == 0 && n + SPLIT_MIN <= bs[i].size
    requires End(start, bs) <= start + 32 * |m|
    ensures start <= bs[i].addr
    ensures var x, y := Idx(start, bs[i].addr), Idx(start, bs[i].addr + HDR + n);
            && bs[i].addr == start + 32 * x && bs[i].addr + HDR + n == start + 32 * y
            && x < y < |m|
            && var next := m[x].next;
            && (next == NULL <==> i + 1 == |bs|)
            && (next != NULL ==> next == bs[i + 1].addr == start + 32 * Idx(start, next) && y < Idx(start, next) < |m|)
  {
    HeadInside(m, start, bs, i);
    BehindHead(m, start, bs, i);
    assert bs[i].size % 32 == 0;
  }

  /** What a header tells of the block behind. */
  lemma BehindHead(m: seq<Granule>, start: nat, bs: seq<Block>, i: nat)
    requires 0 < start && Tiled(start, bs) && Linked(m, start, bs) && i < |bs|
    requires End(start, bs) <= start + 32 * |m|
    ensures start <= bs[i].addr && Idx(start, bs[i].addr) < |m|
    ensures var next := m[Idx(start, bs[i].addr)].next;
            && (next == NULL <==> i + 1 == |bs|)
            && (next != NULL ==>
                  next == bs[i + 1].addr == bs[i].Limit() == start + 32 * Idx(start, next) && Idx(start, next) < |m|)
  {
    HeadInside(m, start, bs, i);
    if i + 1 < |bs| {
      HeadInside(m, start, bs, i + 1);
      assert bs[i + 1].addr == bs[i].Limit();
    }
  }

  /** The split performed on memory is the split of the list, and writes headers only. */
  lemma PlaceBySplit(m: seq<Granule>, m': seq<Granule>, start: nat, bs: seq<Block>, i: nat, n: nat)
    requires 0 < start && Tiled(start, bs) && Linked(m, start, bs) && i < |bs|
    requires !bs[i].used && n % 32 == 0 && n + SPLIT_MIN <= bs[i].size
    requires End(start, bs) <= start + 32 * |m|
    requires start <= bs[i].addr && Idx(start, bs[i].addr) < |m| && Idx(start, bs[i].addr + HDR + n) < |m|
    requires var next := m[Idx(start, bs[i].addr)].next; next != NULL ==> start <= next && Idx(start, next) < |m|
    requires m' == SplitAt(m, start, Pieces(bs[i], n)[0], Pieces(bs[i], n)[1])
    ensures Linked(m', start, Place(bs, i, n))
    ensures OnlyHeads(m, m', start, Place(bs, i, n))
  {
    SplitPlaces(m, start, bs, i, n);
    PlaceWellFormed(start, bs, i, n);
    var r := Place(bs, i, n);
    var x, y, next := Idx(start, bs[i].addr), Idx(start, bs[i].addr + HDR + n), m[Idx(start, bs[i].addr)].next;
    var z := if next != NULL then Idx(start, next) else 0;
    SplitLinked(m, start, bs, i, r[i], r[i + 1], x, y, z);
    SplitHeads(m, start, r, i, x, y, z, next != NULL);
  }

  /** Memory after the sweep's merge step: the header at x grows over the one at y and takes
      over its next pointer, and the block behind (at z, if there is one) points back to x. */
  ghost function Merge(m: seq<Granule>, x: nat, y: nat, z: nat, behind: bool): seq<Granule>
    requires x < |m| && y < |m| && z < |m|
  {
    var m1 := m[x := m[x].(size := m[x].size + m[y].size + HDR, next := m[y].next)];
    if behind then m1[z := m1[z].(prev := m[y].prev)] else m1
  }

  /** Merging free block b into the free block in front of it. */
  lemma MergeLinked(m: seq<Granule>, start: nat, pre: seq<Block>, b: Block, post: seq<Block>, x: nat, y: nat, z: nat)
    requires pre != [] && Tiled(start, pre + [b] + post) && Linked(m, start, pre + [b] + post)
    requires Tiled(start, Absorb(pre, b) + post)
    requires !b.used && !Last(pre).used
    requires x < |m| && Last(pre).addr == start + 32 * x
    requires y < |m| && b.addr == start + 32 * y
    requires z < |m| && (post != [] ==> post[0].addr == start + 32 * z)
    ensures Linked(Merge(m, x, y, z, post != []), start, Absorb(pre, b) + post)
  {
    var l := pre + [b] + post;
    var r := Absorb(pre, b) + post;
    var m' := Merge(m, x, y, z, post != []);
    var p := |pre|;
    assert Header(m, start, l, p);
    assert Header(m, start, l, p - 1);
    if post != [] {
      DistinctHeads(start, r, p - 1, p);
    }
    forall k | 0 <= k < |r|
      ensures Header(m', start, r, k)
    {
      if k != p - 1 {
        MergeElsewhere(m, start, pre, b, post, x, y, z, k);
      }
    }
  }

  lemma MergeElsewhere(m: seq<Granule>, start: nat, pre: seq<Block>, b: Block, post: seq<Block>, x: nat, y: nat,
                       z: nat, k: nat)
    requires pre != [] && Linked(m, start, pre + [b] + post)
    requires Tiled(start, Absorb(pre, b) + post)
    requires !b.used && !Last(pre).used
    requires x < |m| && Last(pre).addr == start + 32 * x && y < |m| && b.addr == start + 32 * y
    requires z < |m| && (post != [] ==> post[0].addr == start + 32 * z)
    requires m[y].prev == Last(pre).addr
    requires k < |Absorb(pre, b) + post| && k != |pre| - 1
    ensures Header(Merge(m, x, y, z, post != []), start, Absorb(pre, b) + post, k)
  {
    var p := |pre|;
    assert Header(m, start, pre + [b] + post, if k < p then k else k + 1);
    ApartFromTwo(start, Absorb(pre, b) + post, p - 1, k);
  }

  /** A header other than blocks i and i + 1 shares no granule with either. */
  lemma ApartFromTwo(start: nat, r: seq<Block>, i: nat, k: nat)
    requires Tiled(start, r) && i < |r| && k < |r| && k != i
    ensures r[k].addr >= start && r[i].addr >= start
    ensures Idx(start, r[k].addr) != Idx(start, r[i].addr)
    ensures i + 1 < |r| && k != i + 1 ==> r[i + 1].addr >= start && Idx(start, r[k].addr) != Idx(start, r[i + 1].addr)
  {
    DistinctHeads(start, r, k, i);
    if i + 1 < |r| && k != i + 1 {
      DistinctHeads(start, r, k, i + 1);
    }
  }

  /** One step of the sweep, at block ms[k]: the blocks before it are already coalesced. */
  ghost function Swept(ms: seq<Block>, k: nat): seq<Block>
    requires k <= |ms|
  {
    Coalesce(ms[..k]) + ms[k..]
  }

  lemma SweptTiled(start: nat, ms: seq<Block>, k: nat)
    requires Tiled(start, ms) && k <= |ms|
    ensures Tiled(start, Swept(ms, k)) && End(start, Swept(ms, k)) == End(start, ms)
  {
    TiledSuffix(start, ms, k);
    CoalesceLaws(start, ms[..k]);
    TiledAppend(start, Coalesce(ms[..k]), ms[k..]);
  }

  lemma SweptNext(ms: seq<Block>, k: nat)
    requires k < |ms|
    ensures Swept(ms, k) == Coalesce(ms[..k]) + [ms[k]] + ms[k + 1..]
    ensures Swept(ms, k + 1) == Absorb(Coalesce(ms[..k]), ms[k]) + ms[k + 1..]
  {
    assert Front(ms[..k + 1]) == ms[..k];
  }

  /** What the sweep sees at block k: its own header, and those of its neighbours. */
  lemma SweptHeads(m: seq<Granule>, start: nat, ms: seq<Block>, k: nat)
    requires 0 < start && Tiled(start, ms) && k < |ms|
    requires Linked(m, start, Swept(ms, k)) && End(start, ms) <= start + 32 * |m|
    ensures start <= ms[k].addr && ms[k].addr == start + 32 * Idx(start, ms[k].addr) && Idx(start, ms[k].addr) < |m|
    ensures var pre, h := Coalesce(ms[..k]), m[Idx(start, ms[k].addr)];
            && (h.used != 0 <==> ms[k].used) && h.size == ms[k].size
            && h.prev == (if pre == [] then NULL else Last(pre).addr)
            && h.next == (if k + 1 == |ms| then NULL else ms[k + 1].addr)
            && (pre != [] ==> h.prev >= start && h.prev == start + 32 * Idx(start, h.prev) && Idx(start, h.prev) < |m|
                              && (m[Idx(start, h.prev)].used != 0 <==> Last(pre).used))
            && (h.next != NULL ==>
                  h.next >= start && h.next == start + 32 * Idx(start, h.next) && Idx(start, h.next) < |m|)
  {
    var l := Swept(ms, k);
    var p := |Coalesce(ms[..k])|;
    SweptTiled(start, ms, k);
    SweptNext(ms, k);
    HeadInside(m, start, l, p);
    assert l[p] == ms[k];
    if p > 0 {
      HeadInside(m, start, l, p - 1);
    }
    if k + 1 < |ms| {
      HeadInside(m, start, l, p + 1);
      assert l[p + 1] == ms[k + 1];
    }
  }

  lemma SweptMerge(m: seq<Granule>, start: nat, ms: seq<Block>, k: nat, x: nat, y: nat, z: nat)
    requires Tiled(start, ms) && k < |ms| && Linked(m, start, Swept(ms, k))
    requires !ms[k].used && Coalesce(ms[..k]) != [] && !Last(Coalesce(ms[..k])).used
    requires x < |m| && Last(Coalesce(ms[..k])).addr == start + 32 * x
    requires y < |m| && ms[k].addr == start + 32 * y
    requires z < |m| && (k + 1 < |ms| ==> ms[k + 1].addr == start + 32 * z)
    ensures Linked(Merge(m, x, y, z, k + 1 < |ms|), start, Swept(ms, k + 1))
    ensures x != y && (k + 1 < |ms| ==> y != z)
  {
    SweptNext(ms, k);
    SweptTiled(start, ms, k);
    SweptTiled(start, ms, k + 1);
    MergeLinked(m, start, Coalesce(ms[..k]), ms[k], ms[k + 1..], x, y, z);
    var p := |Coalesce(ms[..k])|;
    assert Swept(ms, k)[p] == ms[k];
    DistinctHeads(start, Swept(ms, k), p - 1, p);
  }

  lemma SweptMergeHeads(m: seq<Granule>, start: nat, ms: seq<Block>, k: nat, x: nat, y: nat, z: nat)
    requires k < |ms| && Coalesce(ms[..k]) != []
    requires x < |m| && Last(Coalesce(ms[..k])).addr == start + 32 * x
    requires y < |m| && z < |m| && (k + 1 < |ms| ==> ms[k + 1].addr == start + 32 * z)
    ensures OnlyHeads(m, Merge(m, x, y, z, k + 1 < |ms|), start, ms)
  {
    assert Last(Coalesce(ms[..k])) in Coalesce(ms[..k]);
    CoalesceHeads(start, ms[..k], x);
    var b :| b in ms[..k] && b.addr == start + 32 * x;
    assert b in ms;
    assert k + 1 < |ms| ==> ms[k + 1] in ms;
  }

  /** a is the address of a granule of m. */
  ghost predicate Points(m: seq<Granule>, start: nat, a: nat)
  {
    start <= a && Idx(start, a) < |m| && a == start + 32 * Idx(start, a)
  }

  /** The sweep over the marked list ms has reached block k, whose header is at node. */
  ghost predicate Sweeping(m: seq<Granule>, start: nat, ms: seq<Block>, k: nat, node: nat)
  {
    && 0 < start && Tiled(start, ms) && End(start, ms) <= start + 32 * |m|
    && k <= |ms| && node == (if k < |ms| then ms[k].addr else NULL)
    && Linked(m, start, Swept(ms, k))
  }

  lemma SweepLooks(m: seq<Granule>, start: nat, ms: seq<Block>, k: nat, node: nat)
    requires Sweeping(m, start, ms, k, node) && node != NULL
    ensures k < |ms| && Points(m, start, node)
    ensures var h := m[Idx(start, node)];
            && (h.prev != NULL ==> Points(m, start, h.prev) && h.prev != node)
            && (h.next != NULL ==> Points(m, start, h.next) && h.next != node)
  {
    SweptHeads(m, start, ms, k);
    SweptTiled(start, ms, k);
    SweptNext(ms, k);
    var p := |Coalesce(ms[..k])|;
    assert Swept(ms, k)[p] == ms[k];
    if p > 0 {
      Ordered(start, Swept(ms, k), p - 1, p);
    }
    if k + 1 < |ms| {
      Ordered(start, ms, k, k + 1);
    }
  }

  /** What one turn of the sweep's loop makes of the memory. */
  ghost function SweepAt(m: seq<Granule>, start: nat, node: nat): seq<Granule>
    requires Points(m, start, node)
    requires var h := m[Idx(start, node)];
             && (h.prev != NULL ==> Points(m, start, h.prev))
             && (h.next != NULL ==> Points(m, start, h.next))
  {
    var h := m[Idx(start, node)];
    if h.used == 0 && h.prev != NULL && m[Idx(start, h.prev)].used == 0 then
      Merge(m, Idx(start, h.prev), Idx(start, node), if h.next != NULL then Idx(start, h.next) else 0, h.next != NULL)
    else
      m
  }

  /** One turn of the loop: whether or not block k is unlinked, its header still tells where
      the next block is, and the list then represented has k + 1 blocks swept. */
  lemma SweepSteps(m: seq<Granule>, start: nat, ms: seq<Block>, k: nat, node: nat)
    requires Sweeping(m, start, ms, k, node) && node != NULL
    ensures k < |ms| && Points(m, start, node)
    ensures var h := m[Idx(start, node)];
            && (h.prev != NULL ==> Points(m, start, h.prev))
            && (h.next != NULL ==> Points(m, start, h.next))
    ensures var m' := SweepAt(m, start, node);
            && OnlyHeads(m, m', start, ms)
            && Idx(start, node) < |m'|
            && Sweeping(m', start, ms, k + 1, m'[Idx(start, node)].next)
  {
    SweepLooks(m, start, ms, k, node);
    SweptHeads(m, start, ms, k);
    var y := Idx(start, node);
    var h := m[y];
    var pre := Coalesce(ms[..k]);
    if h.used == 0 && h.prev != NULL && m[Idx(start, h.prev)].used == 0 {
      var z := if h.next != NULL then Idx(start, h.next) else 0;
      SweptMerge(m, start, ms, k, Idx(start, h.prev), y, z);
      SweptMergeHeads(m, start, ms, k, Idx(start, h.prev), y, z);
    } else {
      SweptNext(ms, k);
      assert Swept(ms, k + 1) == Swept(ms, k);
    }
  }

  lemma SweepDone(m: seq<Granule>, start: nat, ms: seq<Block>, k: nat)
    requires Sweeping(m, start, ms, k, NULL)
    ensures Sweeping(m, start, ms, |ms|, NULL)
  {
  }

  /** Clearing the used word of the header at a, in a heap whose list has a block there. */
  lemma FreeStarts(m: seq<Granule>, start: nat, bs: seq<Block>, a: nat)
    requires 0 < start && Tiled(start, bs) && Linked(m, start, bs) && End(start, bs) <= start + 32 * |m|
    requires exists b :: b in bs && b.addr == a
    ensures Points(m, start, a)
    ensures var x := Idx(start, a);
            Sweeping(m[x := m[x].(used := 0)], start, MarkFree(bs, a), 0, start)
  {
    var i :| 0 <= i < |bs| && bs[i].addr == a;
    HeadInside(m, start, bs, i);
    MarkFreeLaws(start, bs, a);
    MarkLinked(m, start, bs, i, Idx(start, a));
    SweptNone(MarkFree(bs, a));
  }

  lemma SweptNone(ms: seq<Block>)
    ensures Swept(ms, 0) == ms
  {
  }

  lemma MarkLinked(m: seq<Granule>, start: nat, bs: seq<Block>, i: nat, x: nat)
    requires Tiled(start, bs) && Linked(m, start, bs) && i < |bs|
    requires x < |m| && bs[i].addr == start + 32 * x
    ensures Linked(m[x := m[x].(used := 0)], start, MarkFree(bs, bs[i].addr))
  {
    MarkOne(start, bs, i);
    var r := MarkFree(bs, bs[i].addr);
    var m' := m[x := m[x].(used := 0)];
    forall k | 0 <= k < |r|
      ensures Header(m', start, r, k)
    {
      assert Header(m, start, bs, k);
      if k != i {
        DistinctHeads(start, bs, k, i);
      }
    }
  }

  /** After the sweep the headers spell out the released list, and nothing but headers of the
      old list has been written. */
  lemma FreeEnds(m0: seq<Granule>, m: seq<Granule>, m': seq<Granule>, start: nat, bs: seq<Block>, a: nat)
    requires WellFormed(start, bs) && Points(m0, start, a) && exists b :: b in bs && b.addr == a
    requires var x := Idx(start, a); m == m0[x := m0[x].(used := 0)]
    requires OnlyHeads(m, m', start, MarkFree(bs, a))
    requires Sweeping(m', start, MarkFree(bs, a), |bs|, NULL)
    ensures OnlyHeads(m0, m', start, bs)
    ensures Linked(m', start, Release(bs, a))
    ensures WellFormed(start, Release(bs, a)) && End(start, Release(bs, a)) == End(start, bs)
    ensures Release(bs, a) != []
  {
    var i :| 0 <= i < |bs| && bs[i].addr == a;
    var ms := MarkFree(bs, a);
    assert ms[..|ms|] == ms;
    assert Swept(ms, |ms|) == Coalesce(ms);
    ReleaseLaws(start, bs, i);
    EndAligned(start, bs);
    MarkedHeads(m0, m, m', start, bs, a);
  }

  lemma MarkedHeads(m0: seq<Granule>, m: seq<Granule>, m': seq<Granule>, start: nat, bs: seq<Block>, a: nat)
    requires Points(m0, start, a) && exists b :: b in bs && b.addr == a
    requires var x := Idx(start, a); m == m0[x := m0[x].(used := 0)]
    requires OnlyHeads(m, m', start, MarkFree(bs, a))
    ensures OnlyHeads(m0, m', start, bs)
  {
  }

  lemma OnlyHeadsTransitive(m: seq<Granule>, m1: seq<Granule>, m2: seq<Granule>, start: nat, bs: seq<Block>)
    requires OnlyHeads(m, m1, start, bs) && OnlyHeads(m1, m2, start, bs)
    ensures OnlyHeads(m, m2, start, bs)
  {
  }

  /** The sweep creates no header that was not there before. */
  lemma {:induction false} CoalesceHeads(start: nat, bs: seq<Block>, g: nat)
    requires IsHead(start, Coalesce(bs), g)
    ensures IsHead(start, bs, g)
    decreases |bs|
  {
    var f := Coalesce(Front(bs));
    var b :| b in Coalesce(bs) && b.addr == start + 32 * g;
    if b.addr == Last(bs).addr {
      assert Last(bs) in bs;
    } else {
      assert exists c :: c in f && c.addr == b.addr by {
        assert b in f || b.addr == Last(f).addr;
      }
      CoalesceHeads(start, Front(bs), g);
      var c :| c in Front(bs) && c.addr == start + 32 * g;
      assert c in bs;
    }
  }

  /** Every granule of every used block's payload is as it was. */
  ghost predicate PayloadKept(m: seq<Granule>, m': seq<Granule>, start: nat, us: set<Block>)
  {
    |m| == |m'| &&
    forall b, g {:trigger InPayload(start, b, g)} ::
      b in us && 0 <= g < |m| && InPayload(start, b, g) ==> m'[g] == m[g]
  }

  /** Writing headers only leaves alone the payload of every block that is in the list. */
  lemma HeadsSparePayload(m: seq<Granule>, m': seq<Granule>, start: nat, bs: seq<Block>, us: set<Block>)
    requires Tiled(start, bs) && OnlyHeads(m, m', start, bs)
    requires us <= Used(bs)
    ensures PayloadKept(m, m', start, us)
  {
    forall b, g: nat | b in us && g < |m| && InPayload(start, b, g)
      ensures m'[g] == m[g]
    {
      PayloadHasNoHead(start, bs, b, g);
    }
  }

  /** m and m' differ in the payload of b at most. */
  ghost predicate OnlyPayload(m: seq<Granule>, m': seq<Granule>, start: nat, b: Block)
  {
    |m| == |m'| && forall g {:trigger m'[g]} :: 0 <= g < |m| ==> m'[g] == m[g] || InPayload(start, b, g)
  }

  /** Whatever is written into the payload of one block, the list stays and so does the
      payload of every other block. */
  lemma PayloadIsPrivate(m: seq<Granule>, m': seq<Granule>, start: nat, bs: seq<Block>, b: Block, us: set<Block>)
    requires Tiled(start, bs) && Linked(m, start, bs) && b in bs && OnlyPayload(m, m', start, b)
    requires us <= Used(bs) && b !in us
    ensures Linked(m', start, bs)
    ensures PayloadKept(m, m', start, us)
  {
    forall k | 0 <= k < |bs|
      ensures Header(m', start, bs, k)
    {
      HeadInside(m, start, bs, k);
      assert bs[k] in bs;
      var g := Idx(start, bs[k].addr);
      if InPayload(start, b, g) {
        PayloadHasNoHead(start, bs, b, g);
      }
    }
    forall c, g | c in us && 0 <= g < |m| && InPayload(start, c, g)
      ensures m'[g] == m[g]
    {
      SameBlock(start, bs, b, c);
    }
  }
}
