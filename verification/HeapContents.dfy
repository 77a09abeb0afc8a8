/** What the owners of live pointers find in their payloads, and that allocations and frees
    leave it alone. */
module HeapContents {
  import opened Words
  import opened HeapBlocks
  import opened HeapMemory
  import opened HeapRuns

  /** Block b lies inside the memory, on granule boundaries. */
  predicate Inside(m: seq<Granule>, start: nat, b: Block)
  {
    start <= b.addr && (b.addr - start) % 32 == 0 && b.size % 32 == 0 && b.Limit() <= start + 32 * |m|
  }

  function FirstGranule(start: nat, b: Block): nat
    requires start <= b.addr
  {
    Idx(start, b.addr + HDR)
  }

  function PayloadOf(m: seq<Granule>, start: nat, b: Block): seq<Granule>
    requires Inside(m, start, b)
  {
    m[FirstGranule(start, b)..FirstGranule(start, b) + b.size / 32]
  }

  /** For each live pointer, `contents` is what memory has at its payload. */
  ghost predicate Held(m: seq<Granule>, start: nat, live: map<nat, Grant>, contents: map<nat, seq<Granule>>)
  {
    && contents.Keys == live.Keys
    && forall p :: p in live ==> Inside(m, start, live[p].block) && contents[p] == PayloadOf(m, start, live[p].block)
  }

  lemma UsedInside(m: seq<Granule>, start: nat, bs: seq<Block>, b: Block)
    requires Tiled(start, bs) && End(start, bs) <= start + 32 * |m| && b in bs
    ensures Inside(m, start, b)
  {
    var i :| 0 <= i < |bs| && bs[i] == b;
    Aligned(start, bs, i);
    WithinEnd(start, bs, i);
    assert bs[i].size % 32 == 0;
  }

  lemma PayloadSame(m: seq<Granule>, m': seq<Granule>, start: nat, us: set<Block>, b: Block)
    requires PayloadKept(m, m', start, us) && b in us && Inside(m, start, b)
    ensures Inside(m', start, b) && PayloadOf(m', start, b) == PayloadOf(m, start, b)
  {
    var before, after := PayloadOf(m, start, b), PayloadOf(m', start, b);
    forall i | 0 <= i < |before|
      ensures after[i] == before[i]
    {
      assert InPayload(start, b, FirstGranule(start, b) + i);
    }
  }

  /** An allocation adds one pointer and leaves what the others have. */
  lemma HeldAllocated(m: seq<Granule>, m': seq<Granule>, start: nat, limit: nat, s: State, request: nat,
                      contents: map<nat, seq<Granule>>, b: Block, p: nat)
    requires limit == start + 32 * |m| <= U32 && Safe(start, limit, s) && Held(m, start, s.live, contents)
    requires b == Granted(start, s.blocks, Align(request % U32)) &&
        Safe(start, limit, Allocated(start, s, request)) && p == b.addr + HDR
    requires PayloadKept(m, m', start, Used(s.blocks))
    ensures p !in contents && Inside(m', start, b)
    ensures Held(m', start, Allocated(start, s, request).live, contents[p := PayloadOf(m', start, b)])
  {
    var s' := Allocated(start, s, request);
    AlignCovers(request % U32);
    NotGrantedYet(start, s, Align(request % U32));
    assert b in s'.blocks by {
      GrantIsUsed(Used(s'.blocks), s'.live, p);
    }
    UsedInside(m', start, s'.blocks, b);
    HeldKept(m, m', start, s, contents);
  }

  lemma HeldKept(m: seq<Granule>, m': seq<Granule>, start: nat, s: State, contents: map<nat, seq<Granule>>)
    requires Tracked(Used(s.blocks), s.live) && Held(m, start, s.live, contents)
    requires PayloadKept(m, m', start, Used(s.blocks))
    ensures Held(m', start, s.live, contents)
  {
    forall p | p in s.live
      ensures Inside(m', start, s.live[p].block) && contents[p] == PayloadOf(m', start, s.live[p].block)
    {
      GrantIsUsed(Used(s.blocks), s.live, p);
      PayloadSame(m, m', start, Used(s.blocks), s.live[p].block);
    }
  }

  /** A free takes one pointer away and leaves what the others have. */
  lemma HeldFreed(m: seq<Granule>, m': seq<Granule>, start: nat, s: State, p: nat, contents: map<nat, seq<Granule>>)
    requires Tracked(Used(s.blocks), s.live) && Held(m, start, s.live, contents)
    requires PayloadKept(m, m', start, Used(s.blocks))
    ensures Held(m', start, s.live - {p}, contents - {p})
  {
    HeldKept(m, m', start, s, contents);
  }

  /** Where an owner writes. */
  lemma StoredPlace(m: seq<Granule>, start: nat, b: Block, i: nat, g: Granule)
    requires Inside(m, start, b) && i < |PayloadOf(m, start, b)|
    ensures var x := Idx(start, b.addr + HDR) + i;
            && x < |m| && InPayload(start, b, x) && OnlyPayload(m, m[x := g], start, b)
            && PayloadOf(m[x := g], start, b) == PayloadOf(m, start, b)[i := g]
  {
    var x := FirstGranule(start, b) + i;
    assert start + 32 * x == b.addr + HDR + 32 * i;
  }

  /** So does an owner that writes into its own payload: the headers and what the others have
      stay as they are. */
  lemma HeldStored(m: seq<Granule>, start: nat, s: State, contents: map<nat, seq<Granule>>, p: nat, i: nat, g: Granule)
    requires Safe(start, start + 32 * |m|, s) && Linked(m, start, s.blocks) && Held(m, start, s.live, contents)
    requires p in contents && i < |contents[p]|
    ensures p >= start && Idx(start, p) + i < |m|
    ensures var m' := m[Idx(start, p) + i := g];
            Linked(m', start, s.blocks) && Held(m', start, s.live, contents[p := contents[p][i := g]])
  {
    hide Linked, Tiled, NoTwoFree, InPayload, PayloadKept, OnlyPayload, PayloadOf;
    var b := s.live[p].block;
    GrantIsUsed(Used(s.blocks), s.live, p);
    StoredPlace(m, start, b, i, g);
    var m' := m[Idx(start, p) + i := g];
    PayloadIsPrivate(m, m', start, s.blocks, b, Used(s.blocks) - {b});
    forall q | q in s.live && q != p
      ensures Inside(m', start, s.live[q].block) && contents[q] == PayloadOf(m', start, s.live[q].block)
    {
      GrantIsUsed(Used(s.blocks), s.live, q);
      PayloadSame(m, m', start, Used(s.blocks) - {b}, s.live[q].block);
    }
  }

  /** The first n bytes behind the header of b are zero. */
  ghost predicate Cleared(m: seq<Granule>, start: nat, b: Block, n: nat)
  {
    forall g {:trigger m[g]} :: 0 <= g < |m| && b.addr + HDR <= start + 32 * g < b.addr + HDR + n ==> m[g] == ZERO
  }

  lemma PayloadCleared(m: seq<Granule>, start: nat, b: Block, n: nat)
    requires Inside(m, start, b) && Cleared(m, start, b, n) && n <= b.size && n % 32 == 0
    ensures 32 * |PayloadOf(m, start, b)| >= n
    ensures forall i :: 0 <= i < n / 32 ==> PayloadOf(m, start, b)[i] == ZERO
  {
  }

  // ---------------------------------------------------------------- the books of a run

  /** The run has led to these blocks, and its live pointers have these contents in m. */
  ghost predicate Booked(m: seq<Granule>, start: nat, limit: nat, bs: seq<Block>, ops: seq<Op>,
                         contents: map<nat, seq<Granule>>)
  {
    && start <= limit <= U32 && limit == start + 32 * |m|
    && LegalRun(start, limit, ops) && Run(start, ops).blocks == bs
    && Held(m, start, Run(start, ops).live, contents)
  }

  lemma BookedAllocated(m: seq<Granule>, m': seq<Granule>, start: nat, limit: nat, bs: seq<Block>, bs': seq<Block>,
                        ops: seq<Op>, op: Op, contents: map<nat, seq<Granule>>, n: nat, b: Block, p: nat)
    requires Booked(m, start, limit, bs, ops, contents)
    requires !op.Free? && SmallArguments(op) && n == Taken(op) && Room(start, limit, bs, n)
    requires b == Granted(start, bs, n) && bs' == Allocate(start, bs, n) && p == b.addr + HDR
    requires PayloadKept(m, m', start, Used(bs))
    ensures p !in contents && Inside(m', start, b)
    ensures Booked(m', start, limit, bs', ops + [op], contents[p := PayloadOf(m', start, b)])
  {
    RunSnoc(start, ops, op);
    RunSafe(start, limit, ops);
    LegalAllocation(start, limit, Run(start, ops), op);
    StepSafe(start, limit, Run(start, ops), op);
    HeldAllocated(m, m', start, limit, Run(start, ops), Request(op), contents, b, p);
  }

  lemma BookedFreed(m: seq<Granule>, m': seq<Granule>, start: nat, limit: nat, bs: seq<Block>, ops: seq<Op>, p: nat,
                    contents: map<nat, seq<Granule>>)
    requires Booked(m, start, limit, bs, ops, contents)
    requires p in contents && PayloadKept(m, m', start, Used(bs))
    ensures p >= start + HDR && Booked(m', start, limit, Release(bs, p - HDR), ops + [Op.Free(p)], contents - {p})
  {
    RunSnoc(start, ops, Op.Free(p));
    RunSafe(start, limit, ops);
    FreeSafe(start, limit, Run(start, ops), p);
    HeldFreed(m, m', start, Run(start, ops), p, contents);
  }

  /** A free of nothing is a step of the run all the same. */
  lemma BookedIgnored(m: seq<Granule>, start: nat, limit: nat, bs: seq<Block>, ops: seq<Op>, p: nat,
                      contents: map<nat, seq<Granule>>)
    requires Booked(m, start, limit, bs, ops, contents) && p < start
    ensures Booked(m, start, limit, bs, ops + [Op.Free(p)], contents)
  {
    RunSnoc(start, ops, Op.Free(p));
  }

  lemma BookedStored(m: seq<Granule>, start: nat, limit: nat, bs: seq<Block>, ops: seq<Op>,
                     contents: map<nat, seq<Granule>>, p: nat, i: nat, g: Granule)
    requires Booked(m, start, limit, bs, ops, contents) && Linked(m, start, bs)
    requires p in contents && i < |contents[p]|
    ensures p >= start && Idx(start, p) + i < |m|
    ensures var m' := m[Idx(start, p) + i := g];
            Linked(m', start, bs) && Booked(m', start, limit, bs, ops, contents[p := contents[p][i := g]])
  {
    RunSafe(start, limit, ops);
    HeldStored(m, start, Run(start, ops), contents, p, i, g);
  }

  /** A live pointer is that of a used block. */
  lemma BookedUsed(m: seq<Granule>, start: nat, limit: nat, bs: seq<Block>, ops: seq<Op>,
                   contents: map<nat, seq<Granule>>, p: nat)
    requires Booked(m, start, limit, bs, ops, contents) && p in contents
    ensures p >= start + HDR && exists b :: b in bs && b.addr + HDR == p
  {
    RunSafe(start, limit, ops);
    FreeSafe(start, limit, Run(start, ops), p);
    GrantIsUsed(Used(bs), Run(start, ops).live, p);
  }

  lemma PayloadWords(m: seq<Granule>, start: nat, b: Block, p: nat)
    requires Inside(m, start, b) && p == b.addr + 32
    ensures var c := PayloadOf(m, start, b);
            && p >= start + 32 && (p - start) % 32 == 0 && (p - start) / 32 + |c| <= |m| && b.size == 32 * |c|
            && forall i :: 0 <= i < |c| ==> c[i] == m[(p - start) / 32 + i]
  {
    assert FirstGranule(start, b) == (p - start) / 32;
  }

  lemma BookedPayload(m: seq<Granule>, start: nat, limit: nat, bs: seq<Block>, ops: seq<Op>,
                      contents: map<nat, seq<Granule>>, p: nat)
    requires Booked(m, start, limit, bs, ops, contents) && p in contents
    ensures p >= start + 32 && (p - start) % 32 == 0 && (p - start) / 32 + |contents[p]| <= |m|
    ensures exists b :: b in bs && b.used && b.addr == p - 32 && b.size == 32 * |contents[p]|
    ensures forall i :: 0 <= i < |contents[p]| ==> contents[p][i] == m[(p - start) / 32 + i]
  {
    hide Run, LegalRun, Inside, PayloadOf;
    RunSafe(start, limit, ops);
    var live := Run(start, ops).live;
    var b := live[p].block;
    GrantIsUsed(Used(bs), live, p);
    assert b in bs && b.used && b.addr + 32 == p;
    PayloadWords(m, start, b, p);
  }
}
