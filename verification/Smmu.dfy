/** The SMMU set-up of bdk/mem/smmu.c: a page heap that only grows, directories and tables
    built on it in place, and mappings written into them. */
module Smmu {
  import opened Words
  import Bits
  import opened SmmuCodec
  import opened SmmuTables
  import opened SmmuMaps

  class Smmu {
    const mem: array<nat>  // the words from SMMU_HEAP_ADDR on
    var pageheap: nat      // _pageheap
    ghost var owner: seq<Owner>
    ghost var log: map<nat, seq<MapOp>>

    /** Pages are owned apart, and each directory is the identity overridden by the calls
        of smmu_map made on it, in their order. */
    ghost predicate Valid()
      reads this, mem
    {
      && Sound(mem[..], owner)
      && pageheap == DirAddr(|owner|)
      && (forall d :: d in log <==> 0 <= d < |owner| && owner[d] == Dir)
      && Refines(mem[..], log)
    }

    /** pdir is the address of a directory made by smmu_alloc_pdir. */
    ghost predicate IsDir(pdir: nat, d: nat)
      reads this
    {
      d in log && pdir == DirAddr(d)
    }

    constructor (memory: array<nat>)
      requires memory.Length <= 1024 * 0x6_0000
      ensures Valid() && mem == memory && log == map[] && owner == [] && pageheap == 0xA000_0000
    {
      mem := memory;
      pageheap := HEAP_ADDR;
      owner := [];
      log := map[];
    }

    /** page_alloc: there is no check that memory is left. */
    method PageAlloc(num: nat) returns (res: nat)
      requires Valid() && 1024 * (|owner| + num) <= mem.Length
      modifies this`pageheap, this`owner, mem
      ensures Valid() && owner == old(owner) + Others(num)
      ensures res == DirAddr(|old(owner)|) == old(pageheap) && pageheap == old(pageheap) + 0x1000 * num
      ensures forall x {:trigger mem[x]} :: 0 <= x < mem.Length && !(1024 * |old(owner)| <= x < 1024 * |owner|) ==>
          mem[x] == old(mem[x])
      ensures forall x {:trigger mem[x]} :: 1024 * |old(owner)| <= x < 1024 * |owner| ==> mem[x] == 0
    {
      res := pageheap;
      pageheap := pageheap + PAGE * num;
      ClearWords((res - HEAP_ADDR) / 4, 1024 * num);
      AddOthers(old(mem[..]), mem[..], owner, num);
      owner := owner + Others(num);
    }

    /** A caller writes into a page that it got from page_alloc. */
    method Store(a: nat, w: nat)
      requires Valid() && HEAP_ADDR <= a && a % 4 == 0
      requires (a - HEAP_ADDR) / PAGE < |owner| && owner[(a - HEAP_ADDR) / PAGE] == Other
      modifies mem
      ensures Valid() && mem[..] == old(mem[..])[(a - HEAP_ADDR) / 4 := w]
    {
      var x := (a - HEAP_ADDR) / 4;
      assert x / 1024 == (a - HEAP_ADDR) / PAGE && x < 1024 * |owner|;
      WriteToOther(mem[..], mem[..][x := w], owner, x, w);
      mem[x] := w;
    }

    /** memset of num pages. */
    method ClearWords(first: nat, n: nat)
      requires first + n <= mem.Length
      modifies mem
      ensures forall x {:trigger mem[x]} :: 0 <= x < mem.Length ==>
        mem[x] == if first <= x < first + n then 0 else old(mem[x])
    {
      for i := 0 to n
        invariant forall x {:trigger mem[x]} :: 0 <= x < mem.Length ==>
          mem[x] == if first <= x < first + i then 0 else old(mem[x])
      {
        mem[first + i] := 0;
      }
    }

    /** smmu_alloc_pdir, and what smmu_init_domain4 returns: the identity. */
    method AllocPdir() returns (pdir: nat)
      requires Valid() && 1024 * (|owner| + 1) <= mem.Length
      modifies this, mem
      ensures Valid() && owner == old(owner) + [Dir]
      ensures |old(owner)| !in old(log) && log == old(log)[|old(owner)| := []]
      ensures IsDir(pdir, |old(owner)|) && pdir == 0xA000_0000 + 0x1000 * |old(owner)|
      ensures forall n {:trigger Walk(mem[..], pdir, n)} :: 0 <= n < 0x10_0000 ==>
          Walk(mem[..], pdir, n) == Entry(n, 0xE000_0000)
      ensures forall e, n {:trigger Walk(mem[..], DirAddr(e), n)} :: e in old(log) && 0 <= n < 0x10_0000 ==>
          Walk(mem[..], DirAddr(e), n) == Walk(old(mem[..]), DirAddr(e), n)
    {
      ghost var m, own := mem[..], owner;
      pdir := PageAlloc(1);
      FillSections((pdir - HEAP_ADDR) / 4);
      AddPage(m, mem[..], own, Dir);
      owner := own + [Dir];
      log := log[|own| := []];
      RefinesAlike(m, mem[..], old(log), log);
    }

    /** The directory page: every slot a section of its own 4 MB. */
    method FillSections(base: nat)
      requires base + 1024 <= mem.Length
      modifies mem
      ensures forall x {:trigger mem[x]} :: 0 <= x < mem.Length ==>
        mem[x] == if base <= x < base + 1024 then SectionWord(x - base) else old(mem[x])
    {
      hide PdeVacant;
      for pdn := 0 to 1024
        invariant forall x {:trigger mem[x]} :: 0 <= x < mem.Length ==>
          mem[x] == if base <= x < base + pdn then SectionWord(x - base) else old(mem[x])
      {
        var w := PdeVacant(pdn);
        assert w == SectionWord(pdn) by {
          VacantPde(pdn);
        }
        mem[base + pdn] := w;
      }
    }

    /** A table page for slot pdn: the same translations, page by page. */
    method FillTable(base: nat, pdn: nat)
      requires base + 1024 <= mem.Length && pdn < 1024
      modifies mem
      ensures forall x {:trigger mem[x]} :: 0 <= x < mem.Length ==>
        mem[x] == if base <= x < base + 1024 then ATTR + 1024 * pdn + (x - base) else old(mem[x])
    {
      var addr := PdnToAddr(pdn);
      for pn := 0 to 1024
        invariant addr == PdnToAddr(pdn) + 0x1000 * pn
        invariant forall x {:trigger mem[x]} :: 0 <= x < mem.Length ==>
          mem[x] == if base <= x < base + pn then ATTR + 1024 * pdn + (x - base) else old(mem[x])
      {
        assert addr == (1024 * pdn + pn) * PAGE;
        VacantPte(1024 * pdn + pn);
        mem[base + pn] := PteVacant(addr);
        addr := addr + 0x1000;
      }
    }

    /** smmu_get_pte: the address of the page-table word for iova, after installing a table
        if the 4 MB around it were a vacant section.  No translation changes. */
    method GetPte(pdir: nat, iova: nat, ghost d: nat) returns (pte: nat)
      requires Valid() && IsDir(pdir, d) && iova < U32
      requires IsVacant(mem[..], d, iova / 0x40_0000) ==> 1024 * (|owner| + 1) <= mem.Length
      modifies this`pageheap, this`owner, mem
      ensures Valid()
      ensures HEAP_ADDR <= pte && PteAt(mem[..], owner, d, iova / PAGE, (pte - HEAP_ADDR) / 4)
      ensures owner == old(owner) +
          if IsVacant(old(mem[..]), d, iova / 0x40_0000) then [Table(d, iova / 0x40_0000)] else []
      ensures Occupies(old(mem[..]), mem[..], d, iova / 0x40_0000)
      ensures pte >= 0xA000_0000 && pte % 4 == 0 && (pte - 0xA000_0000) / 4 < mem.Length
      ensures Decode(mem[(pte - 0xA000_0000) / 4]) == Walk(mem[..], pdir, iova / 0x1000)
      ensures forall e, n {:trigger Walk(mem[..], DirAddr(e), n)} :: e in old(log) && 0 <= n < 0x10_0000 ==>
          Walk(mem[..], DirAddr(e), n) == Walk(old(mem[..]), DirAddr(e), n)
    {
      hide Walk, Decode, Refines, PteAt, Occupies, LeadsTo;
      var ptn := AddrToPfn(iova);
      var pdn := AddrToPdn(iova);
      var slot := (pdir - HEAP_ADDR) / 4 + pdn;
      assert slot == 1024 * d + pdn && slot < mem.Length && pdn < 1024 by {
        SlotIndex(mem[..], owner, d, iova);
      }
      var ptbl := TableFor(slot, pdn, d);
      pte := ptbl + 4 * (ptn % 1024);
      PteIndex(mem[..], owner, d, iova, ptbl, pte);
      PteDecides(mem[..], owner, d, iova / PAGE, (pte - HEAP_ADDR) / 4);
      RefinesAlike(old(mem[..]), mem[..], log, log);
    }

    /** The table behind a slot, installed if need be. */
    method TableFor(slot: nat, pdn: nat, ghost d: nat) returns (ptbl: nat)
      requires Valid() && d in log && pdn < 1024 && slot == 1024 * d + pdn && slot < mem.Length
      requires IsVacant(mem[..], d, pdn) ==> 1024 * (|owner| + 1) <= mem.Length
      modifies this`pageheap, this`owner, mem
      ensures Valid() && owner == old(owner) + if IsVacant(old(mem[..]), d, pdn) then [Table(d, pdn)] else []
      ensures Occupies(old(mem[..]), mem[..], d, pdn) && LeadsTo(mem[..], owner, d, pdn, ptbl)
    {
      hide Walk, Decode, Refines, PdeVacant;
      SlotIndex(mem[..], owner, d, 0x40_0000 * pdn);
      if mem[slot] != PdeVacant(pdn) {
        ptbl := mem[slot] % PFN_MOD * 0x1000;
      } else {
        ptbl := Install(slot, pdn, d);
      }
    }

    /** The branch of smmu_get_pte for a vacant slot. */
    method Install(slot: nat, pdn: nat, ghost d: nat) returns (ptbl: nat)
      requires Valid() && d in log && pdn < 1024 && slot == 1024 * d + pdn && slot < mem.Length
      requires IsVacant(mem[..], d, pdn) && 1024 * (|owner| + 1) <= mem.Length
      modifies this`pageheap, this`owner, mem
      ensures Valid() && owner == old(owner) + [Table(d, pdn)]
      ensures Occupies(old(mem[..]), mem[..], d, pdn)
      ensures LeadsTo(mem[..], owner, d, pdn, ptbl)
    {
      ghost var m, own := mem[..], owner;
      ptbl := PageAlloc(1);
      FillTable((ptbl - HEAP_ADDR) / 4, pdn);
      TablePde(|own|);
      mem[slot] := MkPde(ptbl, ATTR + PDE_NEXT);
      assert Installs(m, mem[..], own, d, pdn);
      InstallTable(m, mem[..], own, d, pdn);
      InstallOccupies(m, mem[..], own, d, pdn);
      WordFacts(pdn, |own|);
      owner := own + [Table(d, pdn)];
    }

    /** The body of smmu_map's loop: one page. */
    method MapPage(pdir: nat, addr: nat, page: nat, attr: nat, ghost d: nat)
      requires Valid() && IsDir(pdir, d) && addr < U32 && page < U32
      requires IsVacant(mem[..], d, addr / 0x40_0000) ==> 1024 * (|owner| + 1) <= mem.Length
      modifies this, mem
      ensures Valid()
      ensures log == old(log)[d := old(log)[d] + [MapOp(addr / PAGE, page / PAGE, 1, attr)]]
      ensures |owner| == |old(owner)| + if IsVacant(old(mem[..]), d, addr / 0x40_0000) then 1 else 0
      ensures Occupies(old(mem[..]), mem[..], d, addr / 0x40_0000)
    {
      var pte := GetPte(pdir, addr, d);
      var x := (pte - HEAP_ADDR) / 4;
      ghost var m := mem[..];
      ghost var op := MapOp(addr / PAGE, page / PAGE, 1, attr);
      mem[x] := Bits.BitOr(AddrToPfn(page), attr);
      RefinesWrite(m, mem[..], owner, log, d, x, op);
      WriteOccupies(old(mem[..]), m, mem[..], owner, d, addr / PAGE, x, mem[x]);
      log := log[d := log[d] + [op]];
    }

    /** Where a call of smmu_map stands after i pages: the log has them as one entry behind
        `base`, and memory has shrunk by one page for each section that was vacant in m0. */
    ghost predicate Mapped(d: nat, base: seq<MapOp>, op: MapOp, m0: seq<nat>, used: nat)
      reads this, mem
    {
      && Valid() && d in log && log[d] == base + [op]
      && |owner| >= used && Consumed(m0, mem[..], d, op.a, op.cnt, |owner| - used)
    }

    /** The addresses of the next page of a call. */
    ghost predicate NextOf(op: MapOp, addr: nat, page: nat, attr: nat)
    {
      && addr < U32 && page < U32 && op.attr == attr
      && addr / PAGE == Wrapped(op.a, op.cnt) && addr / 0x40_0000 == Wrapped(op.a, op.cnt) / 1024
      && page / PAGE == Wrapped(op.p, op.cnt)
    }

    /** One more page, recorded in the same entry. */
    method MapMerged(pdir: nat, addr: nat, page: nat, attr: nat, ghost d: nat, ghost base: seq<MapOp>, ghost op: MapOp)
      requires Valid() && IsDir(pdir, d) && log[d] == base + [op] && NextOf(op, addr, page, attr)
      requires IsVacant(mem[..], d, addr / 0x40_0000) ==> 1024 * (|owner| + 1) <= mem.Length
      modifies this, mem
      ensures Valid() && log == old(log)[d := base + [op.(cnt := op.cnt + 1)]]
      ensures |owner| == |old(owner)| + if IsVacant(old(mem[..]), d, addr / 0x40_0000) then 1 else 0
      ensures Occupies(old(mem[..]), mem[..], d, addr / 0x40_0000)
    {
      MapPage(pdir, addr, page, attr, d);
      RefinesGrow(mem[..], log, d, base, op);
      log := log[d := base + [op.(cnt := op.cnt + 1)]];
    }

    /** One more page of a call of smmu_map that maps n pages in all. */
    method MapNext(pdir: nat, addr: nat, page: nat, attr: nat, ghost d: nat, ghost base: seq<MapOp>, ghost op: MapOp,
                   ghost m0: seq<nat>, ghost used: nat, ghost n: nat)
      requires Mapped(d, base, op, m0, used) && IsDir(pdir, d) && NextOf(op, addr, page, attr)
      requires op.cnt < n && 1024 * (used + Fresh(m0, d, op.a, n)) <= mem.Length
      modifies this, mem
      ensures Mapped(d, base, op.(cnt := op.cnt + 1), m0, used)
      ensures log == old(log)[d := base + [op.(cnt := op.cnt + 1)]]
    {
      ghost var m, before := mem[..], |owner|;
      ConsumeRoom(m0, m, d, op.a, op.cnt, before - used, n);
      MapMerged(pdir, addr, page, attr, d, base, op);
      ConsumeNext(m0, m, mem[..], d, op.a, op.cnt, before - used, |owner| - used);
    }

    /** What the loop of smmu_map has done when it ends. */
    lemma MappedAll(d: nat, base: seq<MapOp>, op: MapOp, m0: seq<nat>, used: nat)
      requires Mapped(d, base, op, m0, used)
      ensures Valid() && 1024 * (d + 1) <= |m0|
      ensures pageheap == DirAddr(used) + PAGE * Fresh(m0, d, op.a, op.cnt)
    {
    }

    /** smmu_map: cnt pages from addr on go to the pages from `page` on.  A count of zero or
        less does nothing; both ranges may run over the end of the 32-bit addresses. */
    method Map(pdir: nat, addr: nat, page: nat, cnt: int, attr: nat, ghost d: nat)
      requires Valid() && IsDir(pdir, d) && addr < U32 && page < U32
      requires 1024 * (|owner| + Fresh(mem[..], d, addr / PAGE, Count(cnt))) <= mem.Length
      modifies this, mem
      ensures Valid()
      ensures log == old(log)[d := old(log)[d] + [MapOp(addr / PAGE, page / PAGE, Count(cnt), attr)]]
      ensures pageheap == old(pageheap) + 0x1000 * Fresh(old(mem[..]), d, addr / 0x1000, if cnt < 0 then 0 else cnt)
      ensures forall n {:trigger Walk(mem[..], pdir, n)} :: 0 <= n < 0x10_0000 ==>
          Walk(mem[..], pdir, n) ==
          var k := (n - addr / 0x1000) % 0x10_0000;
          if k < cnt then Decode(Bits.BitOr((page / 0x1000 + k) % 0x10_0000, attr)) else Walk(old(mem[..]), pdir, n)
      ensures forall e, n {:trigger Walk(mem[..], DirAddr(e), n)} ::
          e in old(log) && e != d && 0 <= n < 0x10_0000 ==>
          Walk(mem[..], DirAddr(e), n) == Walk(old(mem[..]), DirAddr(e), n)
    {
      hide Walk, Decode, Refines, Sound, Consumed, Fresh, Bits.BitOr;
      ghost var base, op, m := log[d], MapOp(addr / PAGE, page / PAGE, 0, attr), mem[..];
      RefinesNothing(m, log, d, op);
      ConsumedNone(m, d, op.a);
      log := log[d := base + [op]];
      MapLoop(pdir, addr, page, cnt, attr, d, base, op, m, |owner|);
      MappedAll(d, base, op.(cnt := Count(cnt)), m, old(|owner|));
      assert log == old(log)[d := old(log)[d] + [op.(cnt := Count(cnt))]];
      RefinesSnoc(m, mem[..], old(log), d, op.(cnt := Count(cnt)));
    }

    /** Its loop. */
    method MapLoop(pdir: nat, addr: nat, page: nat, cnt: int, attr: nat, ghost d: nat, ghost base: seq<MapOp>,
                   ghost none: MapOp, ghost m: seq<nat>, ghost used: nat)
      requires Mapped(d, base, none, m, used) && IsDir(pdir, d)
      requires addr < U32 && page < U32 && none == MapOp(addr / PAGE, page / PAGE, 0, attr)
      requires 1024 * (used + Fresh(m, d, none.a, Count(cnt))) <= mem.Length
      modifies this, mem
      ensures Mapped(d, base, none.(cnt := Count(cnt)), m, used)
      ensures log == old(log)[d := base + [none.(cnt := Count(cnt))]]
    {
      ghost var n, op := Count(cnt), none;
      var va, pa := addr, page;
      var i := 0;
      while i < cnt
        invariant 0 <= i <= n && op == none.(cnt := i)
        invariant Mapped(d, base, op, m, used)
        invariant log == old(log)[d := base + [op]]
        invariant va == After(addr, i) && pa == After(page, i)
      {
        AfterPages(addr, i);
        AfterPages(page, i);
        var nextVa, nextPa := (va + PAGE) % U32, (pa + PAGE) % U32;
        assert nextVa == After(addr, i + 1) && nextPa == After(page, i + 1);
        MapNext(pdir, va, pa, attr, d, base, op, m, used, n);
        op := op.(cnt := op.cnt + 1);
        va, pa := nextVa, nextPa;
        i := i + 1;
      }
    }
  }

  /** Where a 32-bit address stands after i steps of one page. */
  function After(addr: nat, i: nat): nat
  {
    if i == 0 then addr else (After(addr, i - 1) + PAGE) % U32
  }

  lemma {:induction false} AfterPages(addr: nat, i: nat)
    requires addr < U32
    ensures After(addr, i) < U32 && After(addr, i) / PAGE == Wrapped(addr / PAGE, i)
    ensures After(addr, i) / 0x40_0000 == Wrapped(addr / PAGE, i) / 1024
  {
    if i > 0 {
      AfterPages(addr, i - 1);
      OneStep(After(addr, i - 1), addr / PAGE + i - 1);
    }
  }

  /** One page on, as an address and as a page number. */
  lemma OneStep(a: nat, x: nat)
    requires a < U32 && a / PAGE == x % PFN_MOD
    ensures (a + PAGE) % U32 / PAGE == (x + 1) % PFN_MOD
  {
    assert (a + PAGE) / PAGE == x % PFN_MOD + 1;
    if a + PAGE < U32 {
      assert (x + 1) % PFN_MOD == x % PFN_MOD + 1;
    } else {
      assert (x + 1) % PFN_MOD == 0;
    }
  }

  function Count(cnt: int): nat
  {
    if cnt < 0 then 0 else cnt
  }

  /** Slot k of directory d leads to the table at byte address ptbl. */
  ghost predicate LeadsTo(m: seq<nat>, owner: seq<Owner>, d: nat, k: nat, ptbl: nat)
  {
    && 1024 * d + k < |m| && !IsVacant(m, d, k)
    && var t := m[1024 * d + k] % PFN_MOD - FIRST_PFN;
    && 0 <= t < |owner| && ptbl == m[1024 * d + k] % PFN_MOD * 0x1000 == DirAddr(t)
  }

  lemma SlotIndex(m: seq<nat>, owner: seq<Owner>, d: nat, iova: nat)
    requires Sound(m, owner) && d < |owner| && owner[d] == Dir && iova < U32
    ensures var k := iova / 0x40_0000;
            && k < 1024 && k == iova / PAGE / 1024 && iova / PAGE < PFN_MOD
            && (DirAddr(d) - HEAP_ADDR) / 4 + k == 1024 * d + k < |m|
            && PdeVacant(k) == SectionWord(k)
            && (!IsVacant(m, d, k) ==> LeadsTo(m, owner, d, k, m[1024 * d + k] % PFN_MOD * 0x1000))
  {
    hide Walk, Decode, PdeVacant, Sound, Slot;
    var k := iova / 0x40_0000;
    VacantPde(k);
    WalkIs(m, owner, d, iova / PAGE);
  }

  lemma PdnOfPtn(iova: nat)
    ensures iova / 0x40_0000 == iova / PAGE / 1024
  {
  }

  lemma WordPlace(t: nat, x: nat)
    ensures var a := DirAddr(t) + 4 * x; HEAP_ADDR <= a && a % 4 == 0 && (a - HEAP_ADDR) / 4 == 1024 * t + x
  {
  }

  lemma PteIndex(m: seq<nat>, owner: seq<Owner>, d: nat, iova: nat, ptbl: nat, pte: nat)
    requires 1024 * |owner| <= |m| && LeadsTo(m, owner, d, iova / 0x40_0000, ptbl)
    requires pte == ptbl + 4 * (iova / PAGE % 1024)
    ensures HEAP_ADDR <= pte && PteAt(m, owner, d, iova / PAGE, (pte - HEAP_ADDR) / 4)
    ensures pte % 4 == 0 && (pte - HEAP_ADDR) / 4 < |m|
  {
    hide IsVacant, DirAddr;
    PdnOfPtn(iova);
    WordPlace(m[1024 * d + iova / 0x40_0000] % PFN_MOD - FIRST_PFN, iova / PAGE % 1024);
  }
}
