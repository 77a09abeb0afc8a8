/** The page-directory and page-table words of smmu.h, and the walk the hardware makes over
    them.  Words and addresses are 32-bit values held in nat; a right shift is a division,
    and masking the low 20 bits is a remainder. */
module SmmuCodec {
  import opened Words
  import opened Bits

  const HEAP_ADDR: nat := 0xA000_0000
  const PAGE: nat := 0x1000
  const PFN_MOD: nat := 0x10_0000

  /** _READABLE | _WRITABLE | _NONSECURE, the value of _PDE_ATTR and _PTE_ATTR. */
  const ATTR: nat := 0xE000_0000
  const PDE_NEXT: nat := 0x1000_0000

  lemma OrAddsPfn(pfn: nat, attr: nat)
    requires pfn < PFN_MOD && attr % PFN_MOD == 0
    ensures BitOr(pfn, attr) == pfn + attr
  {
    assert Pow2(20) == PFN_MOD by {
      assert Pow2(4) == 16;
      assert Pow2(8) == 16 * Pow2(4);
      assert Pow2(12) == 16 * Pow2(8);
      assert Pow2(16) == 16 * Pow2(12);
      assert Pow2(20) == 16 * Pow2(16);
    }
    OrAdds(20, pfn, attr / PFN_MOD);
    assert attr / PFN_MOD * PFN_MOD == attr;
  }

  function AddrToPfn(a: nat): nat { a / 0x1000 }
  function AddrToPdn(a: nat): nat { a / 0x40_0000 }
  function PdnToAddr(pdn: nat): nat { pdn * 0x40_0000 }

  function PdeVacant(pdn: nat): nat { BitOr(pdn * 1024, ATTR) }
  function PteVacant(a: nat): nat { BitOr(a / 0x1000, ATTR) }
  function MkPde(page: nat, attr: nat): nat { BitOr(page / 0x1000, attr) }

  /** A translation of one 4 KB page: the physical page and the attribute bits. */
  datatype Entry = Entry(pfn: nat, attr: nat)

  function Decode(w: nat): Entry
  {
    Entry(w % PFN_MOD, w - w % PFN_MOD)
  }

  predicate HasNext(pde: nat)
  {
    pde / PDE_NEXT % 2 == 1
  }

  /** The word at byte address a; zero outside the page heap. */
  function Load(m: seq<nat>, a: nat): nat
  {
    if HEAP_ADDR <= a && (a - HEAP_ADDR) / 4 < |m| then m[(a - HEAP_ADDR) / 4] else 0
  }

  /** What the directory at address pdir makes of virtual page n: through the page table when
      the directory entry says so, otherwise as part of a 4 MB section. */
  function Walk(m: seq<nat>, pdir: nat, n: nat): Entry
  {
    var pde := Load(m, pdir + 4 * (n / 1024));
    if HasNext(pde) then
      Decode(Load(m, pde % PFN_MOD * PAGE + 4 * (n % 1024)))
    else
      var e := Decode(pde);
      Entry(e.pfn + n % 1024, e.attr)
  }

  /** Physical address and attributes for a 32-bit virtual address. */
  function Translate(m: seq<nat>, pdir: nat, iova: nat): (nat, nat)
  {
    var e := Walk(m, pdir, iova / PAGE);
    (e.pfn * PAGE + iova % PAGE, e.attr)
  }

  function DirAddr(d: nat): nat { HEAP_ADDR + PAGE * d }

  /** A section entry decodes to the identity over its 4 MB, and does not ask for a table. */
  lemma VacantPde(k: nat)
    requires k < 1024
    ensures PdeVacant(k) == 0xE000_0000 + 1024 * k
    ensures !HasNext(PdeVacant(k)) && Decode(PdeVacant(k)) == Entry(1024 * k, 0xE000_0000)
  {
    OrAddsPfn(k * 1024, ATTR);
    SectionDecodes(k);
  }

  lemma SectionDecodes(k: nat)
    requires k < 1024
    ensures !HasNext(ATTR + 1024 * k) && Decode(ATTR + 1024 * k) == Entry(1024 * k, ATTR)
  {
  }

  lemma VacantPte(n: nat)
    requires n < PFN_MOD
    ensures PteVacant(n * 0x1000) == 0xE000_0000 + n && Decode(PteVacant(n * 0x1000)) == Entry(n, 0xE000_0000)
  {
    hide BitOr, Decode;
    OrAddsPfn(n, ATTR);
    PteDecodes(n);
  }

  lemma PteDecodes(n: nat)
    requires n < PFN_MOD
    ensures Decode(n + ATTR) == Entry(n, 0xE000_0000)
  {
  }

  /** The entry for a table on heap page t leads back to that page, and is never mistaken
      for the vacant entry of any slot. */
  lemma TablePde(t: nat)
    requires HEAP_ADDR + PAGE * (t + 1) <= U32
    ensures var w := MkPde(DirAddr(t), ATTR + PDE_NEXT);
            && w == 0xF00A_0000 + t && DirAddr(t) == 0xA000_0000 + 0x1000 * t
            && HasNext(w) && w % PFN_MOD * PAGE == DirAddr(t)
            && forall k :: 0 <= k < 1024 ==> w != PdeVacant(k)
  {
    var w := MkPde(DirAddr(t), ATTR + PDE_NEXT);
    assert DirAddr(t) / 0x1000 == 0xA_0000 + t;
    OrAddsPfn(0xA_0000 + t, ATTR + PDE_NEXT);
    forall k | 0 <= k < 1024
      ensures w != PdeVacant(k)
    {
      VacantPde(k);
    }
  }

  /** An entry is a 20-bit frame number and what stands above it. */
  lemma DecodeIs(w: nat)
    ensures Decode(w).pfn < 0x10_0000 && Decode(w).attr % 0x10_0000 == 0 && Decode(w).pfn + Decode(w).attr == w
  {
  }

  /** Bit 28 of a directory word asks for a table. */
  lemma NextIsBit28(w: nat)
    ensures HasNext(w) <==> Bit(w, 28)
  {
    ByteUp(w, 20);
    ByteUp(w / 256, 12);
    ByteUp(w / 256 / 256, 4);
    assert w / 256 / 256 / 256 == w / 0x100_0000;
    var x := w / 0x100_0000;
    assert Bit(x, 4) == Bit(x / 2 / 2, 2);
    assert Bit(x / 2 / 2, 2) == Bit(x / 2 / 2 / 2 / 2, 0);
  }

  /** The walk over the words of memory, for the directory on heap page d: section words cover
      1024 pages from their frame on, table words lead to the word with the page's low ten bits. */
  lemma WalkReads(m: seq<nat>, d: nat, n: nat)
    requires n < 0x10_0000 && 1024 * (d + 1) <= |m|
    ensures var pde := m[1024 * d + n / 1024];
            && (!Bit(pde, 28) ==>
                  Walk(m, 0xA000_0000 + 0x1000 * d, n) == Entry(Decode(pde).pfn + n % 1024, Decode(pde).attr))
            && (Bit(pde, 28) && 0xA_0000 <= Decode(pde).pfn && 1024 * (Decode(pde).pfn - 0xA_0000 + 1) <= |m| ==>
                  Walk(m, 0xA000_0000 + 0x1000 * d, n) == Decode(m[1024 * (Decode(pde).pfn - 0xA_0000) + n % 1024]))
  {
    var pde := m[1024 * d + n / 1024];
    NextIsBit28(pde);
    WordAt(m, d, n / 1024);
    if 0xA_0000 <= Decode(pde).pfn && 1024 * (Decode(pde).pfn - 0xA_0000 + 1) <= |m| {
      WordAt(m, Decode(pde).pfn - 0xA_0000, n % 1024);
    }
  }

  lemma WordAt(m: seq<nat>, page: nat, k: nat)
    requires 1024 * (page + 1) <= |m| && k < 1024
    ensures Load(m, 0xA000_0000 + 0x1000 * page + 4 * k) == m[1024 * page + k]
  {
    assert (0xA000_0000 + 0x1000 * page + 4 * k - HEAP_ADDR) / 4 == 1024 * page + k;
  }
}
