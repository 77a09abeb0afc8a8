/** The allocator of bdk/mem/heap.c over a stretch of memory, with its loops and its header
    updates in place, proved against the block-list functions of HeapBlocks. */
module Heap {
  import opened Words
  import opened HeapBlocks
  import opened HeapMemory
  import opened HeapRuns
  import opened HeapContents

  class Heap {
    const start: nat
    const mem: array<Granule>
    var first: nat
    ghost var blocks: seq<Block>
    ghost var history: seq<Op>                     // the calls so far
    ghost var contents: map<nat, seq<Granule>>  // what the owner of each live pointer has there

    /** All memory from the base on. */
    ghost function Limit(): nat
    {
      start + 32 * mem.Length
    }

    /** The blocks are those that the history leads to, and every live payload is as its owner
        left it: no call but its owner's writes has touched a byte of it since it was granted. */
    ghost predicate Valid()
      reads this, mem
    {
      && Listed()
      && Booked(mem[..], start, Limit(), blocks, history, contents)
    }

    /** The headers in memory spell out the blocks. */
    ghost predicate Listed()
      reads this`first, this`blocks, mem
    {
      && 0 < start
      && start + 32 * mem.Length <= U32
      && WellFormed(start, blocks)
      && End(start, blocks) <= start + 32 * mem.Length
      && first == (if blocks == [] then NULL else start)
      && Linked(mem[..], start, blocks)
    }

    /** There is memory behind the heap, should a request of n aligned bytes need it. */
    ghost predicate HasRoom(n: nat)
      reads this`blocks
    {
      Room(start, Limit(), blocks, n)
    }

    /** The preconditions of the calls below are exactly what makes them legal in a run with all
        of this memory as limit. */
    lemma CallsAreLegal(num: nat, size: nat, p: nat)
      requires Valid() && num < U32 && size < U32
      ensures var s := Run(start, history);
              && (HasRoom(Align(size)) <==> Legal(start, Limit(), s, Op.Malloc(size)))
              && (HasRoom(Align(num * size % U32)) <==> Legal(start, Limit(), s, Op.Calloc(num, size)))
              && (p < start || p in contents <==> Legal(start, Limit(), s, Op.Free(p)))
    {
      SmallRequest(size);
      LegalAllocation(start, Limit(), Run(start, history), Op.Malloc(size));
      LegalAllocation(start, Limit(), Run(start, history), Op.Calloc(num, size));
    }

    /** The heap as it stands in memory: header i, its block, and its neighbours. */
    lemma Layout(i: nat)
      requires Valid() && i < |blocks|
      ensures var b, g := blocks[i], (blocks[i].addr - start) / 32;
              && b.addr >= start && (b.addr - start) % 32 == 0 && b.size % 32 == 0 && g < mem.Length
              && b.addr + 32 + b.size <= start + 32 * mem.Length
              && (mem[g].used != 0 <==> b.used) && mem[g].size == b.size
              && mem[g].prev == (if i == 0 then 0 else blocks[i - 1].addr)
              && mem[g].next == (if i + 1 == |blocks| then 0 else b.addr + 32 + b.size)
      ensures first == start == blocks[0].addr
      ensures i + 1 < |blocks| ==> blocks[i + 1].addr == blocks[i].addr + 32 + blocks[i].size
      ensures i + 1 < |blocks| ==> blocks[i].used || blocks[i + 1].used
    {
      HeadInside(mem[..], start, blocks, i);
      Aligned(start, blocks, i);
      assert blocks[i].size % 32 == 0;
      if i + 1 < |blocks| {
        assert blocks[i + 1].addr == blocks[i].Limit() && (blocks[i].used || blocks[i + 1].used);
      }
    }

    /** What the owner of a live pointer has is the payload of a used block, word by word. */
    lemma PayloadInMemory(p: nat)
      requires Valid() && p in contents
      ensures p >= start + 32 && (p - start) % 32 == 0 && (p - start) / 32 + |contents[p]| <= mem.Length
      ensures exists b :: b in blocks && b.used && b.addr == p - 32 && b.size == 32 * |contents[p]|
      ensures forall i :: 0 <= i < |contents[p]| ==> contents[p][i] == mem[(p - start) / 32 + i]
    {
      hide Booked, Linked, WellFormed, End;
      BookedPayload(mem[..], start, Limit(), blocks, history, contents, p);
    }

    /** heap_init: nothing is written to memory. */
    constructor (base: nat, memory: array<Granule>)
      requires 0 < base && base + 32 * memory.Length <= U32
      ensures Valid() && history == [] && blocks == [] && start == base && mem == memory && first == 0
    {
      start := base;
      mem := memory;
      first := NULL;
      blocks := [];
      history := [];
      contents := map[];
    }

    /** _heap_alloc.  Its three ways of serving a request are the methods below. */
    method HeapAlloc(request: nat) returns (ptr: nat)
      requires Listed() && request < U32 && HasRoom(Align(request))
      modifies this`first, this`blocks, mem
      ensures Listed()
      ensures blocks == Allocate(start, old(blocks), Align(request))
      ensures ptr == Target(start, old(blocks), Align(request)) + HDR
      ensures OnlyHeads(old(mem[..]), mem[..], start, blocks)
    {
      var size := Align(request);
      AlignCovers(request);
      AllocateEnds(start, Limit(), blocks, size);

      if first == NULL {
        InitFirst(size);
        first := start;
        blocks := Allocate(start, blocks, size);
        assert blocks == [Block(start, size, true)];
        return start + HDR;
      }

      var node, found := Search(size);
      if found {
        TakeFree(node, size, FirstFit(blocks, size));
        ptr := node + HDR;
      } else {
        ptr := AppendNew(node, size);
      }
      blocks := Allocate(start, blocks, size);
    }

    /** The walk of _heap_alloc: the first free block that fits, or else the last block. */
    method Search(size: nat) returns (node: nat, found: bool)
      requires Listed() && first != NULL
      ensures found <==> FirstFit(blocks, size) < |blocks|
      ensures node == if found then blocks[FirstFit(blocks, size)].addr else Last(blocks).addr
    {
      node, found := first, false;
      ghost var i := 0;
      while true
        invariant i < |blocks| && node == blocks[i].addr && !found
        invariant forall j :: 0 <= j < i ==> !blocks[j].Fits(size)
        decreases |blocks| - i
      {
        HeadInside(mem[..], start, blocks, i);
        var x := Idx(start, node);
        if mem[x].used == 0 && size <= mem[x].size {
          found := true;
          FirstFitIs(blocks, size, i);
          return;
        }
        if mem[x].next != NULL {
          node := mem[x].next;
          i := i + 1;
        } else {
          break;
        }
      }
      FirstFitIs(blocks, size, |blocks|);
    }

    /** The first allocation of all: a header at the start of the heap. */
    method InitFirst(size: nat)
      requires 0 < mem.Length && size % 32 == 0
      modifies mem
      ensures Linked(mem[..], start, [Block(start, size, true)])
      ensures OnlyHeads(old(mem[..]), mem[..], start, [Block(start, size, true)])
    {
      mem[0] := mem[0].(used := 1);
      mem[0] := mem[0].(size := size);
      mem[0] := mem[0].(prev := NULL);
      mem[0] := mem[0].(next := NULL);
      assert IsHead(start, [Block(start, size, true)], 0) by {
        assert [Block(start, size, true)][0] in [Block(start, size, true)];
      }
    }

    /** No free block fits: a new block behind the last one, whose header is at `node`. */
    method AppendNew(node: nat, size: nat) returns (ptr: nat)
      requires 0 < start && Tiled(start, blocks) && Linked(mem[..], start, blocks)
      requires blocks != [] && node == Last(blocks).addr && size % 32 == 0
      requires End(start, blocks) + HDR + size <= start + 32 * mem.Length
      modifies mem
      ensures Linked(mem[..], start, blocks + [Block(End(start, blocks), size, true)])
      ensures OnlyHeads(old(mem[..]), mem[..], start, blocks + [Block(End(start, blocks), size, true)])
      ensures ptr == End(start, blocks) + HDR
    {
      HeadInside(mem[..], start, blocks, |blocks| - 1);
      EndAligned(start, blocks);
      var x := Idx(start, node);
      var newNode := node + HDR + mem[x].size;
      var y := Idx(start, newNode);
      mem[y] := mem[y].(used := 1);
      mem[y] := mem[y].(size := size);
      mem[y] := mem[y].(prev := node);
      mem[y] := mem[y].(next := NULL);
      mem[x] := mem[x].(next := newNode);
      AppendLinked(old(mem[..]), mem[..], start, blocks, size, y, x);
      AppendHeads(old(mem[..]), mem[..], start, blocks, size, y, x);
      ptr := newNode + HDR;
    }

    /** Free block i, at `node`, fits. */
    method TakeFree(node: nat, request: nat, ghost i: nat)
      requires 0 < start && Tiled(start, blocks) && Linked(mem[..], start, blocks)
      requires End(start, blocks) <= start + 32 * mem.Length && request % 32 == 0
      requires i < |blocks| && blocks[i].addr == node && blocks[i].Fits(request)
      modifies mem
      ensures Linked(mem[..], start, Place(blocks, i, request))
      ensures OnlyHeads(old(mem[..]), mem[..], start, Place(blocks, i, request))
    {
      HeadInside(mem[..], start, blocks, i);
      var size := request;
      var x := Idx(start, node);
      var newSize := mem[x].size - size;
      var newNode := node + HDR + size;
      if newSize >= HDR * 4 {
        SplitPlaces(mem[..], start, blocks, i, request);
        assert Pieces(blocks[i], request) == [Block(node, size, true), Block(newNode, newSize - HDR, false)];
        SplitOff(node, size, newNode, newSize);
        PlaceBySplit(old(mem[..]), mem[..], start, blocks, i, request);
      } else {
        size := size + newSize;
        mem[x] := mem[x].(size := size);
        mem[x] := mem[x].(used := 1);
        FillLinked(old(mem[..]), mem[..], start, blocks, i, x);
        PlaceWhole(blocks, i, request);
      }
    }

    /** Enough is left over for a block of its own: the writes, in their order. */
    method SplitOff(node: nat, size: nat, newNode: nat, newSize: nat)
      requires 0 < start <= node && HDR <= newSize
      requires Idx(start, node) < mem.Length && start <= newNode
      requires Idx(start, node) < Idx(start, newNode) < mem.Length
      requires var next := mem[Idx(start, node)].next;
               next != NULL ==> start <= next && Idx(start, newNode) < Idx(start, next) < mem.Length
      modifies mem
      ensures mem[..] == SplitAt(old(mem[..]), start, Block(node, size, true), Block(newNode, newSize - HDR, false))
    {
      var x := Idx(start, node);
      var y := Idx(start, newNode);
      mem[y] := mem[y].(size := newSize - HDR);
      mem[y] := mem[y].(used := 0);
      mem[y] := mem[y].(next := mem[x].next);
      if mem[y].next != NULL {
        var z := Idx(start, mem[y].next);
        mem[z] := mem[z].(prev := newNode);
      }
      mem[y] := mem[y].(prev := node);
      mem[x] := mem[x].(next := newNode);
      mem[x] := mem[x].(size := size);
      mem[x] := mem[x].(used := 1);
    }

    /** _heap_free: mark the block, then sweep the list once, merging every free block into a
        free block in front of it.  The step to the next block reads the header of a block
        that may just have been unlinked. */
    method HeapFree(addr: nat)
      requires Listed() && addr >= HDR
      requires exists b :: b in blocks && b.addr + HDR == addr
      modifies this`blocks, mem
      ensures Listed()
      ensures blocks == Release(old(blocks), addr - HDR)
      ensures OnlyHeads(old(mem[..]), mem[..], start, old(blocks))
    {
      hide Linked, Tiled, NoTwoFree, Sweeping, OnlyHeads, Release;
      ghost var ms := MarkFree(blocks, addr - HDR);
      FreeStarts(mem[..], start, blocks, addr - HDR);
      var node := addr - HDR;
      var x := Idx(start, node);
      mem[x] := mem[x].(used := 0);
      ghost var m := mem[..];
      Sweep(ms);
      FreeEnds(old(mem[..]), m, mem[..], start, blocks, node);
      blocks := Release(blocks, node);
    }

    method Sweep(ghost ms: seq<Block>)
      requires Sweeping(mem[..], start, ms, 0, first)
      modifies mem
      ensures Sweeping(mem[..], start, ms, |ms|, NULL)
      ensures OnlyHeads(old(mem[..]), mem[..], start, ms)
    {
      var node := first;
      ghost var k := 0;
      while node != NULL
        invariant Sweeping(mem[..], start, ms, k, node)
        invariant OnlyHeads(old(mem[..]), mem[..], start, ms)
        decreases |ms| - k
      {
        ghost var m := mem[..];
        SweepLooks(m, start, ms, k, node);
        SweepSteps(m, start, ms, k, node);
        var y := Idx(start, node);
        if mem[y].used == 0 {
          if mem[y].prev != NULL && mem[Idx(start, mem[y].prev)].used == 0 {
            Unlink(node);
          }
        }
        assert mem[..] == SweepAt(m, start, node);
        OnlyHeadsTransitive(old(mem[..]), m, mem[..], start, ms);
        node := mem[y].next;
        k := k + 1;
      }
      SweepDone(mem[..], start, ms, k);
    }

    /** The sweep's merge of the block at `node` into the one in front of it. */
    method Unlink(node: nat)
      requires Points(mem[..], start, node) && mem[Idx(start, node)].prev != NULL
      requires var h := mem[Idx(start, node)];
               && Points(mem[..], start, h.prev) && h.prev != node
               && (h.next != NULL ==> Points(mem[..], start, h.next) && h.next != node)
      modifies mem
      ensures var h := old(mem[Idx(start, node)]);
              mem[..] == Merge(old(mem[..]), Idx(start, h.prev), Idx(start, node),
                               if h.next != NULL then Idx(start, h.next) else 0, h.next != NULL)
    {
      var y := Idx(start, node);
      var x := Idx(start, mem[y].prev);
      mem[x] := mem[x].(size := mem[x].size + (mem[y].size + HDR));
      mem[x] := mem[x].(next := mem[y].next);
      if mem[y].next != NULL {
        var z := Idx(start, mem[y].next);
        mem[z] := mem[z].(prev := mem[y].prev);
      }
    }

    /** The request served: a block for it, and every used payload as it was. */
    method Serve(request: nat) returns (ptr: nat, ghost b: Block)
      requires Listed() && request < U32 && HasRoom(Align(request))
      modifies this`first, this`blocks, mem
      ensures Listed()
      ensures blocks == Allocate(start, old(blocks), Align(request))
      ensures b == Granted(start, old(blocks), Align(request)) && ptr == b.addr + HDR
      ensures PayloadKept(old(mem[..]), mem[..], start, Used(old(blocks)))
    {
      ptr := HeapAlloc(request);
      AlignCovers(request);
      GrantedFacts(start, old(blocks), Align(request));
      AllocateUsed(start, old(blocks), Align(request));
      HeadsSparePayload(old(mem[..]), mem[..], start, blocks, Used(old(blocks)));
      b := Granted(start, old(blocks), Align(request));
    }

    /** A new live pointer; nothing that the other owners have is touched. */
    method Malloc(size: nat) returns (ptr: nat)
      requires Valid() && size < U32 && HasRoom(Align(size))
      modifies this`first, this`blocks, this`history, this`contents, mem
      ensures Valid() && history == old(history) + [Op.Malloc(size)]
      ensures blocks == Allocate(start, old(blocks), Align(size))
      ensures ptr == Granted(start, old(blocks), Align(size)).addr + HDR
      ensures ptr !in old(contents) && ptr in contents && contents == old(contents)[ptr := contents[ptr]]
      ensures size <= 0xFFFF_FFE0 ==> 32 * |contents[ptr]| >= size
    {
      hide Booked, Linked, WellFormed, End, Allocate, Granted, Room;
      ghost var op, n := Op.Malloc(size), Align(size);
      AlignCovers(size);
      GrantedFacts(start, blocks, n);
      SmallRequest(size);
      ghost var b;
      ptr, b := Serve(size);
      Enter(old(mem[..]), old(blocks), op, n, b, ptr);
    }

    /** The product is a 32-bit one, so it may wrap; the bytes cleared are those of the wrapped
        and aligned size, all of them inside the block handed out. */
    method Calloc(num: nat, size: nat) returns (ptr: nat)
      requires Valid() && num < U32 && size < U32 && HasRoom(Align(num * size % U32))
      modifies this`first, this`blocks, this`history, this`contents, mem
      ensures Valid() && history == old(history) + [Op.Calloc(num, size)]
      ensures blocks == Allocate(start, old(blocks), Align(num * size % U32))
      ensures ptr == Granted(start, old(blocks), Align(num * size % U32)).addr + HDR
      ensures ptr !in old(contents) && ptr in contents && contents == old(contents)[ptr := contents[ptr]]
      ensures num * size % 0x1_0000_0000 <= 0xFFFF_FFE0 ==> 32 * |contents[ptr]| >= num * size % 0x1_0000_0000
      ensures num * size % 0x1_0000_0000 <= 0xFFFF_FFE0 ==>
          forall i :: 0 <= 32 * i < num * size % 0x1_0000_0000 ==> contents[ptr][i] == Granule(0, 0, 0, 0, [0, 0, 0, 0])
    {
      var request := num * size % U32;
      ghost var op, n := Op.Calloc(num, size), Align(request);
      ghost var b;
      ptr, b := ServeCleared(request);
      Enter(old(mem[..]), old(blocks), op, n, b, ptr);
      PayloadCleared(mem[..], start, b, n);
      AlignCovers(request);
    }

    /** The request served and its whole aligned size cleared. */
    method ServeCleared(request: nat) returns (ptr: nat, ghost b: Block)
      requires Listed() && request < U32 && HasRoom(Align(request))
      modifies this`first, this`blocks, mem
      ensures Listed()
      ensures blocks == Allocate(start, old(blocks), Align(request))
      ensures b == Granted(start, old(blocks), Align(request)) && ptr == b.addr + HDR
      ensures PayloadKept(old(mem[..]), mem[..], start, Used(old(blocks)))
      ensures Align(request) % 32 == 0 && Align(request) <= b.size && Cleared(mem[..], start, b, Align(request))
    {
      ptr, b := Serve(request);
      GrantedInside(start, old(blocks), request);
      ghost var m := mem[..];
      ClearMemory(ptr, Align(request));
      PayloadIsPrivate(m, mem[..], start, blocks, b, Used(old(blocks)));
    }

    /** An allocation enters the books: memory was m, and the blocks were bs. */
    ghost method Enter(m: seq<Granule>, bs: seq<Block>, op: Op, n: nat, b: Block, p: nat)
      requires Listed() && Booked(m, start, Limit(), bs, history, contents)
      requires !op.Free? && SmallArguments(op) && n == Taken(op) && Room(start, Limit(), bs, n)
      requires b == Granted(start, bs, n) && blocks == Allocate(start, bs, n) && p == b.addr + HDR
      requires PayloadKept(m, mem[..], start, Used(bs))
      modifies this`history, this`contents
      ensures Valid() && history == old(history) + [op]
      ensures p !in old(contents) && Inside(mem[..], start, b)
      ensures contents == old(contents)[p := PayloadOf(mem[..], start, b)]
    {
      ghost var m' := mem[..];
      BookedAllocated(m, m', start, Limit(), bs, blocks, history, op, contents, n, b, p);
      Note(history + [op], contents[p := PayloadOf(m', start, b)]);
    }

    /** The books are brought up to date. */
    ghost method Note(ops: seq<Op>, held: map<nat, seq<Granule>>)
      requires Listed() && Booked(mem[..], start, Limit(), blocks, ops, held)
      modifies this`history, this`contents
      ensures Valid() && history == ops && contents == held
    {
      hide Booked, Linked, WellFormed;
      history := ops;
      contents := held;
    }

    /** The owner of a live pointer writes into its payload. */
    method Store(p: nat, i: nat, g: Granule)
      requires Valid() && p in contents && i < |contents[p]|
      modifies this`history, this`contents, mem
      ensures Valid() && history == old(history) && contents == old(contents)[p := old(contents[p])[i := g]]
    {
      hide Booked, Linked, WellFormed;
      BookedStored(mem[..], start, Limit(), blocks, history, contents, p, i, g);
      var x := Idx(start, p) + i;
      ghost var m, c := mem[..][x := g], contents[p := contents[p][i := g]];
      assert Booked(m, start, Limit(), blocks, history, c) && Linked(m, start, blocks);
      mem[x] := g;
      assert mem[..] == m;
      Note(history, c);
    }

    /** memset(ptr, 0, n). */
    method ClearMemory(ptr: nat, n: nat)
      requires start <= ptr && (ptr - start) % 32 == 0 && n % 32 == 0 && ptr + n <= start + 32 * mem.Length
      modifies mem
      ensures forall g {:trigger mem[g]} :: 0 <= g < mem.Length ==>
        mem[g] == if ptr <= start + 32 * g < ptr + n then ZERO else old(mem[g])
    {
      var x := Idx(start, ptr);
      for i := 0 to n / 32
        invariant forall g {:trigger mem[g]} :: 0 <= g < mem.Length ==>
          mem[g] == if x <= g < x + i then ZERO else old(mem[g])
      {
        mem[x + i] := ZERO;
      }
    }

    /** free: a pointer below the heap, such as NULL, is ignored. */
    method Free(buf: nat)
      requires Valid() && (buf < start || buf in contents)
      modifies this`blocks, this`history, this`contents, mem
      ensures Valid() && history == old(history) + [Op.Free(buf)]
      ensures buf < start ==> blocks == old(blocks) && mem[..] == old(mem[..]) && contents == old(contents)
      ensures buf >= start ==> buf >= HDR && blocks == Release(old(blocks), buf - HDR)
      ensures buf >= start ==> contents == old(contents) - {buf}
    {
      if buf >= start {
        BookedUsed(mem[..], start, Limit(), blocks, history, contents, buf);
        HeapFree(buf);
        HeadsSparePayload(old(mem[..]), mem[..], start, old(blocks), Used(old(blocks)));
        BookedFreed(old(mem[..]), mem[..], start, Limit(), old(blocks), history, buf, contents);
        Note(history + [Op.Free(buf)], contents - {buf});
      } else {
        BookedIgnored(mem[..], start, Limit(), blocks, history, buf, contents);
        Note(history + [Op.Free(buf)], contents);
      }
    }

    /** The accounting of heap_monitor, without the printing.  It needs at least one block. */
    method HeapMonitor() returns (total: nat, used: nat)
      requires Listed() && first != NULL
      ensures blocks != [] && total == Last(blocks).addr + 32 + Last(blocks).size - start
      ensures used == Span(UsedOf(blocks))
    {
      total, used := 0, 0;
      var node := first;
      ghost var i := 0;
      while true
        invariant i < |blocks| && node == blocks[i].addr
        invariant used == UsedTo(blocks, i) && used + total == SpanTo(blocks, i)
        decreases |blocks| - i
      {
        HeadInside(mem[..], start, blocks, i);
        CountOne(blocks, i);
        var x := Idx(start, node);
        if mem[x].used != 0 {
          used := used + (mem[x].size + HDR);
        } else {
          total := total + (mem[x].size + HDR);
        }
        if mem[x].next != NULL {
          node := mem[x].next;
          i := i + 1;
        } else {
          break;
        }
      }
      CountAll(start, blocks);
      total := total + used;
    }
  }

  ghost function SpanTo(bs: seq<Block>, i: nat): nat
    requires i <= |bs|
  {
    Span(bs[..i])
  }

  ghost function UsedTo(bs: seq<Block>, i: nat): nat
    requires i <= |bs|
  {
    Span(UsedOf(bs[..i]))
  }

  lemma CountAll(start: nat, bs: seq<Block>)
    requires Tiled(start, bs)
    ensures SpanTo(bs, |bs|) == End(start, bs) - start
    ensures UsedTo(bs, |bs|) == Span(UsedOf(bs))
  {
    assert bs[..|bs|] == bs;
    SpanOfTiled(start, bs);
  }

  lemma CountOne(bs: seq<Block>, i: nat)
    requires i < |bs|
    ensures SpanTo(bs, i + 1) == SpanTo(bs, i) + bs[i].size + HDR
    ensures UsedTo(bs, i + 1) == UsedTo(bs, i) + if bs[i].used then bs[i].size + HDR else 0
  {
    assert Front(bs[..i + 1]) == bs[..i];
    var us := UsedOf(bs[..i]);
    assert UsedOf(bs[..i + 1]) == us + if bs[i].used then [bs[i]] else [];
    assert Front(us + [bs[i]]) == us && us + [] == us;
  }

  /** Where the block handed out for a request lies, and that it was in no other use. */
  lemma GrantedInside(start: nat, bs: seq<Block>, request: nat)
    requires WellFormed(start, bs) && request < U32
    ensures var n := Align(request);
            var g := Granted(start, bs, n);
            && n % 32 == 0
            && g !in Used(bs) && g in Allocate(start, bs, n) && Used(bs) <= Used(Allocate(start, bs, n))
            && g.addr >= start && (g.addr + HDR - start) % 32 == 0
            && g.addr + HDR + n <= g.Limit() <= End(start, Allocate(start, bs, n))
  {
    var n := Align(request);
    AlignCovers(request);
    GrantedFacts(start, bs, n);
    AllocateUsed(start, bs, n);
    NotInUse(start, bs, n);
    assert Granted(start, bs, n).addr >= start && (Granted(start, bs, n).addr - start) % 32 == 0 by {
      Aligned(start, Allocate(start, bs, n), FirstFit(bs, n));
    }
  }

  lemma NotInUse(start: nat, bs: seq<Block>, n: nat)
    requires WellFormed(start, bs) && n % 32 == 0
    ensures FirstFit(bs, n) < |Allocate(start, bs, n)| && Granted(start, bs, n) !in Used(bs)
  {
    GrantedFacts(start, bs, n);
    var g := Granted(start, bs, n);
    if g in Used(bs) {
      var i :| 0 <= i < |bs| && bs[i] == g;
      KeptByAllocate(start, bs, n, i);
    }
  }

  lemma FirstFitIs(bs: seq<Block>, n: nat, i: nat)
    requires i <= |bs|
    requires forall j :: 0 <= j < i ==> !bs[j].Fits(n)
    requires i < |bs| ==> bs[i].Fits(n)
    ensures FirstFit(bs, n) == i
  {
  }
}
