/** The calls of smmu_map as overrides of the identity, page by page, and how many pages of
    memory they take.  Page numbers have 20 bits, and both ranges of a call may wrap. */
module SmmuMaps {
  import opened Words
  import opened SmmuCodec
  import opened SmmuTables
  import Bits

  /** One call, in pages: cnt virtual pages from a on go to the physical ones from p on. */
  datatype MapOp = MapOp(a: nat, p: nat, cnt: nat, attr: nat) {
    /** Which page of the call, at first, page n is. */
    function Nth(n: nat): nat
    {
      (n - a) % PFN_MOD
    }

    predicate Covers(n: nat)
    {
      Nth(n) < cnt
    }

    /** The word that the call writes for page n: attributes may reach into the frame. */
    function Word(n: nat): nat
    {
      Bits.BitOr((p + Nth(n)) % PFN_MOD, attr)
    }

    function Maps(n: nat): Entry
    {
      Decode(Word(n))
    }
  }

  /** The identity, overridden by the calls in order: the last one that covers n decides. */
  function Lookup(log: seq<MapOp>, n: nat): Entry
  {
    if log == [] then Entry(n, ATTR)
    else if log[|log| - 1].Covers(n) then log[|log| - 1].Maps(n)
    else Lookup(log[..|log| - 1], n)
  }

  lemma LookupSnoc(log: seq<MapOp>, op: MapOp, n: nat)
    ensures Lookup(log + [op], n) == if op.Covers(n) then op.Maps(n) else Lookup(log, n)
  {
  }

  /** The page of a call that is i pages from x, around the end of the numbers. */
  function Wrapped(x: nat, i: nat): nat
  {
    (x + i) % PFN_MOD
  }

  /** A call of i + 1 pages is one of i pages and one of a single page behind it, also where it
      comes around to pages that it has mapped before. */
  lemma OneMore(a: nat, p: nat, i: nat, attr: nat, n: nat)
    requires n < PFN_MOD
    ensures var op, one, all := MapOp(a, p, i, attr), MapOp(Wrapped(a, i), Wrapped(p, i), 1, attr),
        MapOp(a, p, i + 1, attr);
            && (all.Covers(n) <==> op.Covers(n) || one.Covers(n))
            && op.Maps(n) == all.Maps(n)
            && (one.Covers(n) ==> one.Maps(n) == all.Maps(n))
  {
    var k := (n - a) % PFN_MOD;
    Residues(n, a, i);
    if (k - i) % PFN_MOD == 0 {
      SameResidue(p, k, i);
    }
  }

  lemma Residues(n: nat, a: nat, i: nat)
    ensures (n - Wrapped(a, i)) % PFN_MOD == ((n - a) % PFN_MOD - i) % PFN_MOD
  {
    var x, y := (a + i) / PFN_MOD, (n - a) / PFN_MOD;
    assert n - (a + i) % PFN_MOD == n - a - i + PFN_MOD * x;
    assert (n - a) % PFN_MOD - i == n - a - i - PFN_MOD * y;
    Multiple(n - a - i, x);
    Multiple(n - a - i, -y);
  }

  lemma Multiple(x: int, k: int)
    ensures (x + PFN_MOD * k) % PFN_MOD == x % PFN_MOD
  {
  }

  lemma SameResidue(p: nat, k: nat, i: nat)
    requires (k - i) % PFN_MOD == 0
    ensures (p + k) % PFN_MOD == (Wrapped(p, i) + 0) % PFN_MOD
  {
    var q := (k - i) / PFN_MOD;
    assert p + k == p + i + PFN_MOD * q;
    Multiple(p + i, q);
  }

  lemma LookupGrow(log: seq<MapOp>, a: nat, p: nat, i: nat, attr: nat, n: nat)
    requires n < PFN_MOD
    ensures Lookup(log + [MapOp(a, p, i, attr)] + [MapOp(Wrapped(a, i), Wrapped(p, i), 1, attr)], n)
            == Lookup(log + [MapOp(a, p, i + 1, attr)], n)
  {
    OneMore(a, p, i, attr, n);
    LookupSnoc(log, MapOp(a, p, i, attr), n);
    LookupSnoc(log, MapOp(a, p, i + 1, attr), n);
    LookupSnoc(log + [MapOp(a, p, i, attr)], MapOp(Wrapped(a, i), Wrapped(p, i), 1, attr), n);
  }

  ghost predicate AgreeAt(x: MapOp, y: MapOp, n: nat)
  {
    x.Covers(n) && y.Covers(n) ==> x.Maps(n) == y.Maps(n)
  }

  lemma CommuteAt(log: seq<MapOp>, x: MapOp, y: MapOp, n: nat)
    ensures Lookup(log + [x, y], n) == Lookup(log + [y, x], n) <==> AgreeAt(x, y, n)
  {
    assert log + [x, y] == (log + [x]) + [y] && log + [y, x] == (log + [y]) + [x];
    LookupSnoc(log, x, n);
    LookupSnoc(log, y, n);
    LookupSnoc(log + [x], y, n);
    LookupSnoc(log + [y], x, n);
  }

  /** Every directory in the log translates every page as its calls say. */
  ghost predicate Refines(m: seq<nat>, log: map<nat, seq<MapOp>>)
  {
    forall d, n {:trigger Walk(m, DirAddr(d), n)} ::
      d in log && 0 <= n < PFN_MOD ==> Walk(m, DirAddr(d), n) == Lookup(log[d], n)
  }

  /** The directories in the log are directories. */
  ghost predicate Logged(owner: seq<Owner>, log: map<nat, seq<MapOp>>)
  {
    forall d :: d in log ==> d < |owner| && owner[d] == Dir
  }

  /** A call of a single page covers that page alone. */
  lemma Single(op: MapOp, n: nat)
    requires op.cnt == 1 && op.a < PFN_MOD && op.p < PFN_MOD && n < PFN_MOD
    ensures op.Covers(n) <==> n == op.a
    ensures op.Maps(op.a) == Decode(Bits.BitOr(op.p, op.attr))
  {
  }

  /** One page-table word written is one page more in the log of its directory. */
  lemma RefinesWrite(m: seq<nat>, m': seq<nat>, owner: seq<Owner>, log: map<nat, seq<MapOp>>, d: nat, x: nat, op: MapOp)
    requires Sound(m, owner) && Logged(owner, log) && d in log && Refines(m, log)
    requires op.cnt == 1 && op.a < PFN_MOD && op.p < PFN_MOD && PteAt(m, owner, d, op.a, x)
    requires m' == m[x := Bits.BitOr(op.p, op.attr)]
    ensures Sound(m', owner) && Refines(m', log[d := log[d] + [op]])
  {
    WriteEntry(m, m', owner, d, op.a, x, Bits.BitOr(op.p, op.attr));
    forall n: nat | n < PFN_MOD
      ensures Walk(m', DirAddr(d), n) == Lookup(log[d] + [op], n)
    {
      assert Walk(m, DirAddr(d), n) == Lookup(log[d], n);
      Single(op, n);
      LookupSnoc(log[d], op, n);
    }
  }

  /** Logs that say the same of every page are interchangeable. */
  lemma RefinesSame(m: seq<nat>, log: map<nat, seq<MapOp>>, d: nat, ops: seq<MapOp>)
    requires Refines(m, log) && d in log
    requires forall n :: 0 <= n < PFN_MOD ==> Lookup(ops, n) == Lookup(log[d], n)
    ensures Refines(m, log[d := ops])
  {
  }

  lemma RefinesGrow(m: seq<nat>, log: map<nat, seq<MapOp>>, d: nat, base: seq<MapOp>, op: MapOp)
    requires Refines(m, log) && d in log
    requires log[d] == base + [op] + [MapOp(Wrapped(op.a, op.cnt), Wrapped(op.p, op.cnt), 1, op.attr)]
    ensures Refines(m, log[d := base + [op.(cnt := op.cnt + 1)]])
  {
    forall n | 0 <= n < PFN_MOD
      ensures Lookup(base + [op.(cnt := op.cnt + 1)], n) == Lookup(log[d], n)
    {
      LookupGrow(base, op.a, op.p, op.cnt, op.attr, n);
    }
    RefinesSame(m, log, d, base + [op.(cnt := op.cnt + 1)]);
  }

  lemma RefinesNothing(m: seq<nat>, log: map<nat, seq<MapOp>>, d: nat, op: MapOp)
    requires Refines(m, log) && d in log && op.cnt == 0
    ensures Refines(m, log[d := log[d] + [op]])
  {
    forall n | 0 <= n < PFN_MOD
      ensures Lookup(log[d] + [op], n) == Lookup(log[d], n)
    {
      LookupSnoc(log[d], op, n);
    }
    RefinesSame(m, log, d, log[d] + [op]);
  }

  /** Memories that refine the same calls translate alike. */
  lemma RefinesAlike(m: seq<nat>, m': seq<nat>, log: map<nat, seq<MapOp>>, log': map<nat, seq<MapOp>>)
    requires Refines(m, log) && Refines(m', log') && forall e :: e in log ==> e in log' && log'[e] == log[e]
    ensures forall e, n {:trigger Walk(m', DirAddr(e), n)} :: e in log && 0 <= n < 0x10_0000 ==>
              Walk(m', DirAddr(e), n) == Walk(m, DirAddr(e), n)
    ensures forall e, n {:trigger Walk(m', DirAddr(e), n)} :: e in log' && log'[e] == [] && 0 <= n < 0x10_0000 ==>
              Walk(m', DirAddr(e), n) == Entry(n, 0xE000_0000)
  {
    hide Walk;
    forall e, n: nat | e in log && n < 0x10_0000
      ensures Walk(m', DirAddr(e), n) == Walk(m, DirAddr(e), n)
    {
      assert Walk(m, DirAddr(e), n) == Lookup(log[e], n);
    }
  }

  /** What one more call in the log means for every page of every directory. */
  lemma RefinesSnoc(m: seq<nat>, m': seq<nat>, log: map<nat, seq<MapOp>>, d: nat, op: MapOp)
    requires d in log && Refines(m, log) && Refines(m', log[d := log[d] + [op]])
    ensures forall n {:trigger Walk(m', DirAddr(d), n)} :: 0 <= n < 0x10_0000 ==>
              Walk(m', DirAddr(d), n) ==
              var k := (n - op.a) % 0x10_0000;
              if k < op.cnt then Decode(Bits.BitOr((op.p + k) % 0x10_0000, op.attr)) else Walk(m, DirAddr(d), n)
    ensures forall e, n {:trigger Walk(m', DirAddr(e), n)} :: e in log && e != d && 0 <= n < 0x10_0000 ==>
              Walk(m', DirAddr(e), n) == Walk(m, DirAddr(e), n)
  {
    hide Walk, Decode, Bits.BitOr;
    forall n: nat | n < 0x10_0000
      ensures Walk(m', DirAddr(d), n) ==
              var k := (n - op.a) % 0x10_0000;
              if k < op.cnt then Decode(Bits.BitOr((op.p + k) % 0x10_0000, op.attr)) else Walk(m, DirAddr(d), n)
    {
      assert Walk(m, DirAddr(d), n) == Lookup(log[d], n);
      LookupSnoc(log[d], op, n);
    }
    forall e, n: nat | e in log && e != d && n < 0x10_0000
      ensures Walk(m', DirAddr(e), n) == Walk(m, DirAddr(e), n)
    {
      assert Walk(m, DirAddr(e), n) == Lookup(log[e], n);
    }
  }

  /** Two calls on one directory, in either order: their tables may be placed differently, but
      all translations of all directories are the same, exactly when the calls agree wherever
      they overlap. */
  lemma MapsCommute(m: seq<nat>, m': seq<nat>, log: map<nat, seq<MapOp>>, d: nat, x: MapOp, y: MapOp)
    requires d in log && Refines(m, log[d := log[d] + [x, y]]) && Refines(m', log[d := log[d] + [y, x]])
    ensures (forall e, n :: e in log && 0 <= n < PFN_MOD ==> Walk(m, DirAddr(e), n) == Walk(m', DirAddr(e), n)) <==>
              (forall n :: 0 <= n < PFN_MOD ==> AgreeAt(x, y, n))
  {
    forall n: nat | n < PFN_MOD
      ensures Walk(m, DirAddr(d), n) == Walk(m', DirAddr(d), n) <==> AgreeAt(x, y, n)
    {
      CommuteAt(log[d], x, y, n);
    }
    forall e, n: nat | e in log && e != d && n < PFN_MOD
      ensures Walk(m, DirAddr(e), n) == Walk(m', DirAddr(e), n)
    {
      assert Walk(m, DirAddr(e), n) == Lookup(log[e], n);
    }
  }

  /** Call k of the log is the last one to cover page n. */
  predicate LastToCover(log: seq<MapOp>, n: nat, k: nat)
  {
    k < |log| && log[k].Covers(n) && forall j :: k < j < |log| ==> !log[j].Covers(n)
  }

  predicate Uncovered(log: seq<MapOp>, n: nat)
  {
    forall j :: 0 <= j < |log| ==> !log[j].Covers(n)
  }

  lemma {:induction false} LookupLast(log: seq<MapOp>, n: nat, k: nat)
    requires LastToCover(log, n, k)
    ensures Lookup(log, n) == log[k].Maps(n)
    decreases |log|
  {
    if k < |log| - 1 {
      LookupLast(log[..|log| - 1], n, k);
    }
  }

  lemma {:induction false} LookupUncovered(log: seq<MapOp>, n: nat)
    requires Uncovered(log, n)
    ensures Lookup(log, n) == Entry(n, ATTR)
    decreases |log|
  {
    if log != [] {
      LookupUncovered(log[..|log| - 1], n);
    }
  }

  lemma {:induction false} SomeLast(log: seq<MapOp>, n: nat)
    ensures Uncovered(log, n) || exists k: nat :: LastToCover(log, n, k)
    decreases |log|
  {
    if log != [] && !log[|log| - 1].Covers(n) {
      var init := log[..|log| - 1];
      SomeLast(init, n);
      if k: nat :| LastToCover(init, n, k) {
        assert LastToCover(log, n, k);
      }
    } else if log != [] {
      assert LastToCover(log, n, |log| - 1);
    }
  }

  /** Translation of a 32-bit address, from the calls alone: the identity if none covered its
      page; otherwise by the word that the last call that did has written for that page. */
  lemma TranslateIs(m: seq<nat>, log: map<nat, seq<MapOp>>, d: nat, iova: nat)
    requires Refines(m, log) && d in log && iova < U32
    ensures Uncovered(log[d], iova / PAGE) ==> Translate(m, DirAddr(d), iova) == (iova, 0xE000_0000)
    ensures forall k: nat {:trigger LastToCover(log[d], iova / PAGE, k)} :: LastToCover(log[d], iova / PAGE, k) ==>
              var e := log[d][k].Maps(iova / PAGE);
              Translate(m, DirAddr(d), iova) == (e.pfn * 0x1000 + iova % 0x1000, e.attr)
    ensures Uncovered(log[d], iova / PAGE) || exists k: nat :: LastToCover(log[d], iova / PAGE, k)
  {
    hide Walk, Lookup, Decode;
    var n := iova / PAGE;
    assert Walk(m, DirAddr(d), n) == Lookup(log[d], n);
    SomeLast(log[d], n);
    if Uncovered(log[d], n) {
      LookupUncovered(log[d], n);
    }
    forall k: nat | LastToCover(log[d], n, k)
      ensures Walk(m, DirAddr(d), n) == log[d][k].Maps(n)
    {
      LookupLast(log[d], n, k);
    }
  }

  lemma PlainWord(f: nat, attr: nat)
    requires f < PFN_MOD && attr % PFN_MOD == 0
    ensures Decode(Bits.BitOr(f, attr)) == Entry(f, attr)
  {
    hide Bits.BitOr;
    OrAddsPfn(f, attr);
    Multiple(f, attr / PFN_MOD);
  }

  /** With attributes above the frame only, such a word sends an address to the same offset from
      the start of the physical range, in 32-bit arithmetic, and has just these attributes. */
  lemma PlainAttributes(op: MapOp, iova: nat)
    requires op.attr % PFN_MOD == 0 && iova < U32
    ensures var e := op.Maps(iova / PAGE);
            e.attr == op.attr &&
            e.pfn * 0x1000 + iova % 0x1000 == (op.p * 0x1000 + (iova - op.a * 0x1000)) % 0x1_0000_0000
  {
    hide Decode, Bits.BitOr;
    var n := iova / PAGE;
    PlainWord((op.p + op.Nth(n)) % PFN_MOD, op.attr);
    SamePage(op.p, n, op.a);
    Paged(op.p + n - op.a, iova % PAGE);
  }

  lemma SamePage(p: nat, n: nat, a: nat)
    ensures (p + (n - a) % PFN_MOD) % PFN_MOD == (p + n - a) % PFN_MOD
  {
    var q := (n - a) / PFN_MOD;
    assert p + (n - a) % PFN_MOD == p + n - a + PFN_MOD * (-q);
    Multiple(p + n - a, -q);
  }

  /** Pages wrap as addresses do. */
  lemma Paged(x: int, offset: nat)
    requires offset < PAGE
    ensures x % PFN_MOD * PAGE + offset == (x * PAGE + offset) % U32
  {
    var q := x / PFN_MOD;
    assert x * PAGE + offset == U32 * q + (x % PFN_MOD * PAGE + offset);
  }

  // ---------------------------------------------------------------- page consumption

  /** The slots touched by cnt pages from page a. */
  function Touched(a: nat, cnt: nat): set<nat>
  {
    if cnt == 0 then {} else Touched(a, cnt - 1) + {Wrapped(a, cnt - 1) / 1024}
  }

  /** Told without counting along: the first slot, and those whose first page is in the range. */
  lemma {:induction false} TouchedIs(a: nat, cnt: nat, k: nat)
    requires a < 0x10_0000 && k < 1024
    ensures k in Touched(a, cnt) <==> cnt > 0 && (a / 1024 == k || (1024 * k - a) % 0x10_0000 < cnt)
    decreases cnt
  {
    if cnt > 0 {
      TouchedIs(a, cnt - 1, k);
      NextTouched(a, cnt - 1, k);
    }
  }

  lemma NextTouched(a: nat, i: nat, k: nat)
    requires a < 0x10_0000 && k < 1024
    ensures Wrapped(a, i) / 1024 == k ==> a / 1024 == k || (1024 * k - a) % 0x10_0000 <= i
    ensures (1024 * k - a) % 0x10_0000 == i ==> Wrapped(a, i) / 1024 == k
    ensures a / 1024 == k ==> Wrapped(a, 0) / 1024 == k
  {
    if Wrapped(a, i) / 1024 == k {
      TouchedLater(a, i, k);
    }
    if (1024 * k - a) % 0x10_0000 == i {
      TouchedFirst(a, i, k);
    }
  }

  lemma TouchedLater(a: nat, i: nat, k: nat)
    requires a < 0x10_0000 && k < 1024 && Wrapped(a, i) / 1024 == k
    ensures a / 1024 == k || (1024 * k - a) % 0x10_0000 <= i
  {
    var q, j := (a + i) / PFN_MOD, Wrapped(a, i) - 1024 * k;
    assert a + i == PFN_MOD * q + 1024 * k + j && 0 <= j < 1024;
    if j <= i {
      Multiple(i - j, -q);
    }
  }

  lemma TouchedFirst(a: nat, i: nat, k: nat)
    requires a < 0x10_0000 && k < 1024 && (1024 * k - a) % 0x10_0000 == i
    ensures Wrapped(a, i) / 1024 == k
  {
    var p := (1024 * k - a) / PFN_MOD;
    assert a + i == 1024 * k + PFN_MOD * (-p);
    Multiple(1024 * k, -p);
  }

  lemma {:induction false} TouchedGrows(a: nat, i: nat, cnt: nat)
    requires i < cnt
    ensures Touched(a, i) <= Touched(a, cnt) && Wrapped(a, i) / 1024 in Touched(a, cnt)
    decreases cnt
  {
    if i < cnt - 1 {
      TouchedGrows(a, i, cnt - 1);
    }
  }

  /** Each 1024 pages touch one more slot, and there are 1024 slots. */
  lemma {:induction false} TouchedFew(a: nat, cnt: nat)
    ensures |Touched(a, cnt)| <= Spread(a, cnt)
    ensures forall k :: k in Touched(a, cnt) ==> 0 <= k < 1024
    decreases cnt
  {
    hide Wrapped, Spread;
    if cnt > 0 {
      TouchedFew(a, cnt - 1);
      SpreadGrows(a, cnt);
      SlotBelow(a, cnt - 1);
      if cnt > 1 && (a + cnt - 1) % 1024 != 0 {
        SameSlot(a, cnt - 2);
        TouchedGrows(a, cnt - 2, cnt - 1);
        assert Touched(a, cnt) == Touched(a, cnt - 1);
      }
    }
  }

  lemma SlotBelow(a: nat, i: nat)
    ensures Wrapped(a, i) / 1024 < 1024
  {
  }

  /** How many slots that can be. */
  function Spread(a: nat, cnt: nat): nat
  {
    if cnt == 0 then 0 else (a % 1024 + cnt - 1) / 1024 + 1
  }

  lemma SpreadGrows(a: nat, cnt: nat)
    requires cnt > 0
    ensures Spread(a, cnt - 1) <= Spread(a, cnt)
    ensures cnt == 1 || (a + cnt - 1) % 1024 == 0 ==> Spread(a, cnt) == Spread(a, cnt - 1) + 1
  {
    assert (a % 1024 + cnt - 1) % 1024 == (a + cnt - 1) % 1024 by {
      assert a + cnt - 1 == a % 1024 + cnt - 1 + 1024 * (a / 1024);
    }
  }

  lemma SameSlot(a: nat, i: nat)
    requires (a + i + 1) % 1024 != 0
    ensures Wrapped(a, i) / 1024 == Wrapped(a, i + 1) / 1024
  {
    var q, r := (a + i) / PFN_MOD, (a + i) % PFN_MOD;
    NoCarry(q, r);
    Multiple(r + 1, q);
  }

  lemma NoCarry(q: nat, r: nat)
    requires r < PFN_MOD && (PFN_MOD * q + r + 1) % 1024 != 0
    ensures r + 1 < PFN_MOD && r / 1024 == (r + 1) / 1024
  {
    Behind1024(1024 * q, r + 1);
  }

  lemma Behind1024(k: nat, x: nat)
    ensures (1024 * k + x) % 1024 == x % 1024
  {
  }

  /** Which of these slots are vacant. */
  ghost function VacantIn(m: seq<nat>, d: nat, slots: set<nat>): set<nat>
    requires 1024 * (d + 1) <= |m| && forall k :: k in slots ==> k < 1024
  {
    set k | k in slots && IsVacant(m, d, k)
  }

  /** How many of the sections touched by cnt pages from page a are still vacant. */
  ghost function Fresh(m: seq<nat>, d: nat, a: nat, cnt: nat): nat
    requires 1024 * (d + 1) <= |m|
  {
    TouchedFew(a, cnt);
    |VacantIn(m, d, Touched(a, cnt))|
  }

  /** After i pages have been mapped: how many pages that took, and which slots are vacant. */
  ghost predicate Consumed(m0: seq<nat>, m: seq<nat>, d: nat, a: nat, i: nat, pages: nat)
  {
    1024 * (d + 1) <= |m0| == |m| && pages == Fresh(m0, d, a, i) &&
    forall k {:trigger IsVacant(m, d, k)} :: 0 <= k < 1024 ==>
      (IsVacant(m, d, k) <==> IsVacant(m0, d, k) && k !in Touched(a, i))
  }

  lemma ConsumedNone(m: seq<nat>, d: nat, a: nat)
    requires 1024 * (d + 1) <= |m|
    ensures Consumed(m, m, d, a, 0, 0)
  {
  }

  lemma Smaller<T>(x: set<T>, y: set<T>)
    requires x <= y
    ensures |x| <= |y|
    ensures x != y ==> |x| < |y|
  {
    assert y == x + (y - x);
    if x != y {
      var e :| e in y && e !in x;
      assert e in y - x;
    }
  }

  /** A page whose section is still vacant is within what the whole call may take. */
  lemma ConsumeRoom(m0: seq<nat>, m: seq<nat>, d: nat, a: nat, i: nat, pages: nat, cnt: nat)
    requires Consumed(m0, m, d, a, i, pages) && i < cnt
    ensures Wrapped(a, i) / 1024 < 1024
    ensures IsVacant(m, d, Wrapped(a, i) / 1024) ==> pages < Fresh(m0, d, a, cnt)
  {
    var k := Wrapped(a, i) / 1024;
    TouchedFew(a, i);
    TouchedFew(a, cnt);
    TouchedGrows(a, i, cnt);
    var x, y := VacantIn(m0, d, Touched(a, i)), VacantIn(m0, d, Touched(a, cnt));
    Smaller(x, y);
    if IsVacant(m, d, k) {
      assert k in y && k !in x;
    }
  }

  lemma VacantAdd(m: seq<nat>, d: nat, slots: set<nat>, k: nat)
    requires 1024 * (d + 1) <= |m| && k < 1024 && forall j :: j in slots ==> j < 1024
    ensures VacantIn(m, d, slots + {k}) == VacantIn(m, d, slots) + if IsVacant(m, d, k) then {k} else {}
    ensures k in VacantIn(m, d, slots) <==> k in slots && IsVacant(m, d, k)
  {
  }

  /** The next page takes one more page of memory exactly if its section is still vacant. */
  lemma ConsumeNext(m0: seq<nat>, m: seq<nat>, m': seq<nat>, d: nat, a: nat, i: nat, pages: nat, pages': nat)
    requires Consumed(m0, m, d, a, i, pages) && Occupies(m, m', d, Wrapped(a, i) / 1024)
    requires pages' == pages + if IsVacant(m, d, Wrapped(a, i) / 1024) then 1 else 0
    ensures Consumed(m0, m', d, a, i + 1, pages')
  {
    var k := Wrapped(a, i) / 1024;
    TouchedFew(a, i);
    VacantAdd(m0, d, Touched(a, i), k);
    assert Touched(a, i + 1) == Touched(a, i) + {k};
    assert IsVacant(m, d, k) <==> IsVacant(m0, d, k) && k !in Touched(a, i);
  }

  function Below(n: nat): set<nat>
  {
    if n == 0 then {} else Below(n - 1) + {n - 1}
  }

  lemma {:induction false} BelowIs(n: nat)
    ensures |Below(n)| == n
    ensures forall k :: k in Below(n) <==> 0 <= k < n
  {
    if n > 0 {
      BelowIs(n - 1);
    }
  }

  /** Slot k of directory d is one that takes a page: it still has its section word, and one of
      the cnt pages from page a lies in its 4 MB. */
  ghost predicate TakesPage(m: seq<nat>, d: nat, a: nat, cnt: nat, k: nat)
    requires 1024 * (d + 1) <= |m|
  {
    k < 1024 && m[1024 * d + k] == 0xE000_0000 + 1024 * k &&
    cnt > 0 && (a / 1024 == k || (1024 * k - a) % 0x10_0000 < cnt)
  }

  /** The pages that a call takes, one for each such slot. */
  lemma FreshCounts(m: seq<nat>, d: nat, a: nat, cnt: nat, slots: set<nat>)
    requires 1024 * (d + 1) <= |m| && a < 0x10_0000
    requires forall k :: k in slots <==> 0 <= k && TakesPage(m, d, a, cnt, k)
    ensures Fresh(m, d, a, cnt) == |slots|
  {
    TouchedFew(a, cnt);
    forall k: nat
      ensures k in VacantIn(m, d, Touched(a, cnt)) <==> k in slots
    {
      if k < 1024 {
        TouchedIs(a, cnt, k);
      }
    }
    assert VacantIn(m, d, Touched(a, cnt)) == slots;
  }

  /** A map of cnt pages needs at most (cnt + 1022) / 1024 + 1 new pages, and never more than
      there are slots. */
  lemma PagesNeeded(m: seq<nat>, d: nat, a: nat, cnt: nat)
    requires 1 <= cnt && 1024 * (d + 1) <= |m|
    ensures Fresh(m, d, a, cnt) <= (cnt + 1022) / 1024 + 1
    ensures Fresh(m, d, a, cnt) <= 1024
  {
    TouchedFew(a, cnt);
    BelowIs(1024);
    var x := VacantIn(m, d, Touched(a, cnt));
    Smaller(x, Touched(a, cnt));
    Smaller(x, Below(1024));
  }
}
