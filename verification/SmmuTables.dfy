/** Directories and tables on the page heap: which page belongs to whom, and what the updates
    of smmu.c do to the translations of every directory. */
module SmmuTables {
  import opened Words
  import opened SmmuCodec

  /** What a page of the page heap was allocated for. */
  datatype Owner =
    | Dir
    | Table(dir: nat, slot: nat)  // for slot `slot` of the directory on page `dir`
    | Other

  const FIRST_PFN: nat := 0xA_0000

  function SectionWord(k: nat): nat { ATTR + 1024 * k }
  function TableWord(t: nat): nat { ATTR + PDE_NEXT + FIRST_PFN + t }

  /** Slot k of directory d is vacant or leads to a page that belongs to this slot alone. */
  ghost predicate Slot(m: seq<nat>, owner: seq<Owner>, d: nat, k: nat)
    requires 1024 * d + k < |m|
  {
    var w := m[1024 * d + k];
    w == SectionWord(k) ||
    (var t := w % PFN_MOD - FIRST_PFN;
     0 <= t < |owner| && owner[t] == Table(d, k) && w == TableWord(t))
  }

  /** Separation: every directory slot in use has a page of its own.  Since a page has one
      owner, no page serves two slots, and none is both a directory and a table. */
  ghost predicate Sound(m: seq<nat>, owner: seq<Owner>)
  {
    && 1024 * |owner| <= |m| <= 1024 * 0x6_0000
    && (forall d, k {:trigger Slot(m, owner, d, k)} ::
          0 <= d < |owner| && owner[d] == Dir && 0 <= k < 1024 ==> Slot(m, owner, d, k))
  }

  ghost predicate IsVacant(m: seq<nat>, d: nat, k: nat)
    requires 1024 * d + k < |m|
  {
    m[1024 * d + k] == SectionWord(k)
  }

  lemma LoadIndex(m: seq<nat>, d: nat, k: nat)
    requires 1024 * d + k < |m| && k < 1024
    ensures Load(m, DirAddr(d) + 4 * k) == m[1024 * d + k]
  {
  }

  lemma WordFacts(k: nat, t: nat)
    requires k < 1024 && t < 0x6_0000
    ensures !HasNext(SectionWord(k)) && Decode(SectionWord(k)) == Entry(1024 * k, ATTR)
    ensures HasNext(TableWord(t)) && TableWord(t) % PFN_MOD == FIRST_PFN + t
    ensures TableWord(t) % PFN_MOD * PAGE == DirAddr(t)
    ensures SectionWord(k) != TableWord(t)
  {
  }

  /** The walk in terms of the page a slot leads to. */
  lemma WalkIs(m: seq<nat>, owner: seq<Owner>, d: nat, n: nat)
    requires Sound(m, owner) && d < |owner| && owner[d] == Dir && n < PFN_MOD
    ensures var k := n / 1024;
            && 1024 * d + k < |m|
            && (IsVacant(m, d, k) ==> Walk(m, DirAddr(d), n) == Entry(n, ATTR))
            && (!IsVacant(m, d, k) ==>
                  var t := m[1024 * d + k] % PFN_MOD - FIRST_PFN;
                  && 0 <= t < |owner| && owner[t] == Table(d, k) && m[1024 * d + k] == TableWord(t)
                  && Walk(m, DirAddr(d), n) == Decode(m[1024 * t + n % 1024]))
  {
    var k := n / 1024;
    assert Slot(m, owner, d, k);
    LoadIndex(m, d, k);
    if IsVacant(m, d, k) {
      WordFacts(k, 0);
    } else {
      var t := m[1024 * d + k] % PFN_MOD - FIRST_PFN;
      WordFacts(k, t);
      LoadIndex(m, t, n % 1024);
    }
  }

  /** A new page changes no translation, as long as a new directory page is all vacant. */
  lemma AddPage(m: seq<nat>, m': seq<nat>, owner: seq<Owner>, o: Owner)
    requires Sound(m, owner) && |m'| == |m| && 1024 * (|owner| + 1) <= |m|
    requires !o.Table?
    requires forall x :: 0 <= x < 1024 * |owner| ==> m'[x] == m[x]
    requires o == Dir ==> forall k :: 0 <= k < 1024 ==> m'[1024 * |owner| + k] == SectionWord(k)
    ensures Sound(m', owner + [o])
    ensures forall d, n :: 0 <= d < |owner| && owner[d] == Dir && 0 <= n < PFN_MOD ==>
              Walk(m', DirAddr(d), n) == Walk(m, DirAddr(d), n)
    ensures o == Dir ==> forall n :: 0 <= n < PFN_MOD ==> Walk(m', DirAddr(|owner|), n) == Entry(n, ATTR)
  {
    var owner' := owner + [o];
    forall d, k | 0 <= d < |owner'| && owner'[d] == Dir && 0 <= k < 1024
      ensures Slot(m', owner', d, k)
    {
      if d < |owner| {
        assert Slot(m, owner, d, k);
      }
    }
    forall d, n | 0 <= d < |owner| && owner[d] == Dir && 0 <= n < PFN_MOD
      ensures Walk(m', DirAddr(d), n) == Walk(m, DirAddr(d), n)
    {
      WalkIs(m, owner, d, n);
      WalkIs(m', owner', d, n);
    }
    if o == Dir {
      forall n | 0 <= n < PFN_MOD
        ensures Walk(m', DirAddr(|owner|), n) == Entry(n, ATTR)
      {
        WalkIs(m', owner', |owner|, n);
      }
    }
  }

  function Others(num: nat): seq<Owner>
  {
    seq(num, i => Other)
  }

  /** Pages handed to other users change no translation either. */
  lemma {:induction false} AddOthers(m: seq<nat>, m': seq<nat>, owner: seq<Owner>, num: nat)
    requires Sound(m, owner) && |m'| == |m| && 1024 * (|owner| + num) <= |m|
    requires forall x :: 0 <= x < 1024 * |owner| ==> m'[x] == m[x]
    ensures Sound(m', owner + Others(num))
    ensures forall d, n :: 0 <= d < |owner| && owner[d] == Dir && 0 <= n < PFN_MOD ==>
              Walk(m', DirAddr(d), n) == Walk(m, DirAddr(d), n)
    decreases num
  {
    if num == 0 {
      assert owner + Others(0) == owner;
      forall d, k | 0 <= d < |owner| && owner[d] == Dir && 0 <= k < 1024
        ensures Slot(m', owner, d, k)
      {
        assert Slot(m, owner, d, k);
      }
      forall d, n | 0 <= d < |owner| && owner[d] == Dir && 0 <= n < PFN_MOD
        ensures Walk(m', DirAddr(d), n) == Walk(m, DirAddr(d), n)
      {
        WalkIs(m, owner, d, n);
        WalkIs(m', owner, d, n);
      }
    } else {
      AddOthers(m, m', owner, num - 1);
      AddPage(m', m', owner + Others(num - 1), Other);
      assert owner + Others(num) == owner + Others(num - 1) + [Other];
    }
  }

  lemma WriteToOtherSlot(m: seq<nat>, m': seq<nat>, owner: seq<Owner>, x: nat, w: nat, d: nat, k: nat)
    requires Sound(m, owner) && x < 1024 * |owner| && owner[x / 1024] == Other && m' == m[x := w]
    requires d < |owner| && owner[d] == Dir && k < 1024
    ensures 1024 * d + k < |m| && m'[1024 * d + k] == m[1024 * d + k] && Slot(m', owner, d, k)
  {
    assert (1024 * d + k) / 1024 == d;
    assert Slot(m, owner, d, k);
  }

  lemma WriteToOtherWalk(m: seq<nat>, m': seq<nat>, owner: seq<Owner>, x: nat, w: nat, d: nat, n: nat)
    requires Sound(m, owner) && x < 1024 * |owner| && owner[x / 1024] == Other && m' == m[x := w] && Sound(m', owner)
    requires d < |owner| && owner[d] == Dir && n < PFN_MOD
    ensures Walk(m', DirAddr(d), n) == Walk(m, DirAddr(d), n)
  {
    WriteToOtherSlot(m, m', owner, x, w, d, n / 1024);
    WalkIs(m, owner, d, n);
    WalkIs(m', owner, d, n);
    if !IsVacant(m, d, n / 1024) {
      var t := m[1024 * d + n / 1024] % PFN_MOD - FIRST_PFN;
      assert (1024 * t + n % 1024) / 1024 == t;
    }
  }

  /** What is written into such a page changes no translation. */
  lemma WriteToOther(m: seq<nat>, m': seq<nat>, owner: seq<Owner>, x: nat, w: nat)
    requires Sound(m, owner) && x < 1024 * |owner| && owner[x / 1024] == Other && m' == m[x := w]
    ensures Sound(m', owner)
    ensures forall d, n :: 0 <= d < |owner| && owner[d] == Dir && 0 <= n < PFN_MOD ==>
              Walk(m', DirAddr(d), n) == Walk(m, DirAddr(d), n)
  {
    forall d, k | 0 <= d < |owner| && owner[d] == Dir && 0 <= k < 1024
      ensures Slot(m', owner, d, k)
    {
      WriteToOtherSlot(m, m', owner, x, w, d, k);
    }
    forall d, n | 0 <= d < |owner| && owner[d] == Dir && 0 <= n < PFN_MOD
      ensures Walk(m', DirAddr(d), n) == Walk(m, DirAddr(d), n)
    {
      WriteToOtherWalk(m, m', owner, x, w, d, n);
    }
  }

  /** Page t holds the identity table of slot k. */
  ghost predicate IdentityTable(m: seq<nat>, t: nat, k: nat)
  {
    1024 * (t + 1) <= |m| &&
    forall x {:trigger m[x]} :: 1024 * t <= x < 1024 * (t + 1) ==> m[x] == ATTR + 1024 * k + (x - 1024 * t)
  }

  /** Filling page |owner| and entering it in slot k of directory d. */
  ghost predicate Installs(m: seq<nat>, m': seq<nat>, owner: seq<Owner>, d: nat, k: nat)
  {
    && d < |owner| && owner[d] == Dir && k < 1024
    && |m'| == |m| && 1024 * (|owner| + 1) <= |m|
    && IsVacant(m, d, k)
    && (forall x {:trigger m'[x]} :: 0 <= x < 1024 * |owner| && x != 1024 * d + k ==> m'[x] == m[x])
    && m'[1024 * d + k] == TableWord(|owner|)
    && IdentityTable(m', |owner|, k)
  }

  lemma InstallSlot(m: seq<nat>, m': seq<nat>, owner: seq<Owner>, d: nat, k: nat, e: nat, j: nat)
    requires Sound(m, owner) && Installs(m, m', owner, d, k)
    requires e < |owner| && owner[e] == Dir && j < 1024
    ensures 1024 * e + j < |m| && Slot(m', owner + [Table(d, k)], e, j)
    ensures m'[1024 * e + j] == if e == d && j == k then TableWord(|owner|) else m[1024 * e + j]
  {
    WordFacts(k, |owner|);
    assert Slot(m, owner, e, j);
  }

  lemma InstallSound(m: seq<nat>, m': seq<nat>, owner: seq<Owner>, d: nat, k: nat)
    requires Sound(m, owner) && Installs(m, m', owner, d, k)
    ensures Sound(m', owner + [Table(d, k)])
  {
    var owner' := owner + [Table(d, k)];
    forall e, j | 0 <= e < |owner'| && owner'[e] == Dir && 0 <= j < 1024
      ensures Slot(m', owner', e, j)
    {
      InstallSlot(m, m', owner, d, k, e, j);
    }
  }

  lemma IdentityWord(m: seq<nat>, t: nat, k: nat, n: nat)
    requires IdentityTable(m, t, k) && n < PFN_MOD && n / 1024 == k
    ensures 1024 * t + n % 1024 < |m| && Decode(m[1024 * t + n % 1024]) == Entry(n, ATTR)
  {
  }

  lemma InstallHere(m: seq<nat>, m': seq<nat>, owner: seq<Owner>, d: nat, k: nat, n: nat)
    requires Sound(m, owner) && Installs(m, m', owner, d, k)
    requires Sound(m', owner + [Table(d, k)]) && n < PFN_MOD && n / 1024 == k
    ensures Walk(m', DirAddr(d), n) == Walk(m, DirAddr(d), n)
  {
    WordFacts(k, |owner|);
    IdentityWord(m', |owner|, k, n);
    WalkIs(m, owner, d, n);
    WalkIs(m', owner + [Table(d, k)], d, n);
  }

  lemma InstallElsewhere(m: seq<nat>, m': seq<nat>, owner: seq<Owner>, d: nat, k: nat, e: nat, n: nat)
    requires Sound(m, owner) && Installs(m, m', owner, d, k)
    requires Sound(m', owner + [Table(d, k)])
    requires e < |owner| && owner[e] == Dir && n < PFN_MOD && (e != d || n / 1024 != k)
    ensures Walk(m', DirAddr(e), n) == Walk(m, DirAddr(e), n)
  {
    InstallSlot(m, m', owner, d, k, e, n / 1024);
    WalkIs(m, owner, e, n);
    WalkIs(m', owner + [Table(d, k)], e, n);
  }

  lemma InstallWalk(m: seq<nat>, m': seq<nat>, owner: seq<Owner>, d: nat, k: nat, e: nat, n: nat)
    requires Sound(m, owner) && Installs(m, m', owner, d, k)
    requires Sound(m', owner + [Table(d, k)])
    requires e < |owner| && owner[e] == Dir && n < PFN_MOD
    ensures Walk(m', DirAddr(e), n) == Walk(m, DirAddr(e), n)
  {
    if e == d && n / 1024 == k {
      InstallHere(m, m', owner, d, k, n);
    } else {
      InstallElsewhere(m, m', owner, d, k, e, n);
    }
  }

  /** Installing a freshly filled table in a vacant slot is invisible: no translation of any
      directory changes, inside these 4 MB or elsewhere. */
  lemma InstallTable(m: seq<nat>, m': seq<nat>, owner: seq<Owner>, d: nat, k: nat)
    requires Sound(m, owner) && Installs(m, m', owner, d, k)
    ensures Sound(m', owner + [Table(d, k)])
    ensures forall e, n :: 0 <= e < |owner| && owner[e] == Dir && 0 <= n < PFN_MOD ==>
              Walk(m', DirAddr(e), n) == Walk(m, DirAddr(e), n)
  {
    InstallSound(m, m', owner, d, k);
    forall e, n | 0 <= e < |owner| && owner[e] == Dir && 0 <= n < PFN_MOD
      ensures Walk(m', DirAddr(e), n) == Walk(m, DirAddr(e), n)
    {
      InstallWalk(m, m', owner, d, k, e, n);
    }
  }

  /** Of the slots of directory d, exactly slot k is no longer vacant. */
  ghost predicate Occupies(m: seq<nat>, m': seq<nat>, d: nat, k: nat)
  {
    1024 * (d + 1) <= |m| == |m'| &&
    forall j {:trigger IsVacant(m', d, j)} :: 0 <= j < 1024 ==> (IsVacant(m', d, j) <==> IsVacant(m, d, j) && j != k)
  }

  lemma InstallOccupies(m: seq<nat>, m': seq<nat>, owner: seq<Owner>, d: nat, k: nat)
    requires Sound(m, owner) && Installs(m, m', owner, d, k)
    ensures Occupies(m, m', d, k)
  {
  }

  /** x is the index of the page-table word for virtual page n of directory d. */
  ghost predicate PteAt(m: seq<nat>, owner: seq<Owner>, d: nat, n: nat, x: nat)
  {
    && 1024 * d + n / 1024 < |m| && !IsVacant(m, d, n / 1024)
    && var t := m[1024 * d + n / 1024] % PFN_MOD - FIRST_PFN;
    && 0 <= t < |owner| && x == 1024 * t + n % 1024 && x < |m|
  }

  /** That word decides the translation of the page. */
  lemma PteDecides(m: seq<nat>, owner: seq<Owner>, d: nat, n: nat, x: nat)
    requires Sound(m, owner) && d < |owner| && owner[d] == Dir && n < PFN_MOD && PteAt(m, owner, d, n, x)
    ensures Decode(m[x]) == Walk(m, DirAddr(d), n)
  {
    hide Walk, Decode;
    WalkIs(m, owner, d, n);
  }

  lemma WriteSlot(m: seq<nat>, m': seq<nat>, owner: seq<Owner>, d: nat, n: nat, x: nat, w: nat, e: nat, k: nat)
    requires Sound(m, owner) && d < |owner| && owner[d] == Dir && n < PFN_MOD && PteAt(m, owner, d, n, x)
    requires m' == m[x := w]
    requires e < |owner| && owner[e] == Dir && k < 1024
    ensures 1024 * e + k < |m| && m'[1024 * e + k] == m[1024 * e + k]
    ensures Slot(m', owner, e, k)
  {
    WalkIs(m, owner, d, n);
    var t := m[1024 * d + n / 1024] % PFN_MOD - FIRST_PFN;
    assert Slot(m, owner, e, k);
    assert e != t;
  }

  lemma WriteSound(m: seq<nat>, m': seq<nat>, owner: seq<Owner>, d: nat, n: nat, x: nat, w: nat)
    requires Sound(m, owner) && d < |owner| && owner[d] == Dir && n < PFN_MOD && PteAt(m, owner, d, n, x)
    requires m' == m[x := w]
    ensures Sound(m', owner)
  {
    forall e, k | 0 <= e < |owner| && owner[e] == Dir && 0 <= k < 1024
      ensures Slot(m', owner, e, k)
    {
      WriteSlot(m, m', owner, d, n, x, w, e, k);
    }
  }

  lemma WriteOccupies(m0: seq<nat>, m: seq<nat>, m': seq<nat>, owner: seq<Owner>, d: nat, n: nat, x: nat, w: nat)
    requires Sound(m, owner) && d < |owner| && owner[d] == Dir && n < PFN_MOD && PteAt(m, owner, d, n, x)
    requires m' == m[x := w] && Occupies(m0, m, d, n / 1024)
    ensures Occupies(m0, m', d, n / 1024)
  {
    forall j | 0 <= j < 1024
      ensures IsVacant(m', d, j) <==> IsVacant(m0, d, j) && j != n / 1024
    {
      WriteSlot(m, m', owner, d, n, x, w, d, j);
      assert IsVacant(m, d, j) <==> IsVacant(m0, d, j) && j != n / 1024;
    }
  }

  /** Which word decides a translation through a table tells virtual pages apart. */
  lemma WriteOther(m: seq<nat>, owner: seq<Owner>, d: nat, n: nat, x: nat, e: nat, n': nat)
    requires Sound(m, owner) && d < |owner| && owner[d] == Dir && n < PFN_MOD && PteAt(m, owner, d, n, x)
    requires e < |owner| && owner[e] == Dir && n' < PFN_MOD
    requires PteAt(m, owner, e, n', x)
    ensures e == d && n' == n
  {
    WalkIs(m, owner, d, n);
    WalkIs(m, owner, e, n');
    var t := m[1024 * d + n / 1024] % PFN_MOD - FIRST_PFN;
    var t' := m[1024 * e + n' / 1024] % PFN_MOD - FIRST_PFN;
    assert t == t' && n % 1024 == n' % 1024;
  }

  lemma WriteWalk(m: seq<nat>, m': seq<nat>, owner: seq<Owner>, d: nat, n: nat, x: nat, w: nat, e: nat, n': nat)
    requires Sound(m, owner) && d < |owner| && owner[d] == Dir && n < PFN_MOD && PteAt(m, owner, d, n, x)
    requires m' == m[x := w]
    requires Sound(m', owner) && e < |owner| && owner[e] == Dir && n' < PFN_MOD
    ensures Walk(m', DirAddr(e), n') == if e == d && n' == n then Decode(w) else Walk(m, DirAddr(e), n')
  {
    WriteSlot(m, m', owner, d, n, x, w, e, n' / 1024);
    WalkIs(m, owner, e, n');
    WalkIs(m', owner, e, n');
    if PteAt(m, owner, e, n', x) {
      WriteOther(m, owner, d, n, x, e, n');
    }
  }

  /** Writing a page-table word changes that one translation of that one directory. */
  lemma WriteEntry(m: seq<nat>, m': seq<nat>, owner: seq<Owner>, d: nat, n: nat, x: nat, w: nat)
    requires Sound(m, owner) && d < |owner| && owner[d] == Dir && n < PFN_MOD && PteAt(m, owner, d, n, x)
    requires m' == m[x := w]
    ensures Sound(m', owner)
    ensures forall e, n' :: 0 <= e < |owner| && owner[e] == Dir && 0 <= n' < PFN_MOD ==>
              Walk(m', DirAddr(e), n') == if e == d && n' == n then Decode(w) else Walk(m, DirAddr(e), n')
  {
    WriteSound(m, m', owner, d, n, x, w);
    forall e, n' | 0 <= e < |owner| && owner[e] == Dir && 0 <= n' < PFN_MOD
      ensures Walk(m', DirAddr(e), n') == if e == d && n' == n then Decode(w) else Walk(m, DirAddr(e), n')
    {
      WriteWalk(m, m', owner, d, n, x, w, e, n');
    }
  }

  /** No page serves as the table of two slots, or as a table and a directory. */
  lemma TablesApart(m: seq<nat>, owner: seq<Owner>, d: nat, j: nat, e: nat, k: nat)
    requires Sound(m, owner) && d < |owner| && owner[d] == Dir && e < |owner| && owner[e] == Dir
    requires j < 1024 && k < 1024
    ensures 1024 * d + j < |m| && 1024 * e + k < |m|
    ensures !IsVacant(m, d, j) && !IsVacant(m, e, k) && (d != e || j != k) ==>
        m[1024 * d + j] % PFN_MOD != m[1024 * e + k] % PFN_MOD
    ensures !IsVacant(m, d, j) ==> m[1024 * d + j] % PFN_MOD != FIRST_PFN + e
  {
    assert Slot(m, owner, d, j) && Slot(m, owner, e, k);
  }
}
