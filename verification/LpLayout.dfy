/** How the saving function of bdk/mem/sdram_lp0.c lays out its fields: in sections, each in
    ascending order of its destination bits, and each with zones of its own among them. */
module LpLayout {
  import opened LpParams
  import opened LpPack

  /** Scratch registers 0 to 299 are numbered as such; secure scratch register n is 300 + n. */
  const REGISTERS: nat := 420

  /** A destination bit. */
  function Key(reg: nat, i: nat): nat { 32 * reg + i }

  function First(st: Step): nat { Key(st.reg, st.Lo()) }

  function Stop(st: Step): nat { Key(st.reg, st.Hi()) + 1 }

  /** Which section of the function the destination bit belongs to: 0 the statements before the
      switch at first, 1 those right before it, 2 the switch, 3 the secure scratch registers, and
      4 to 8 the five registers that are cleared and filled again at the end. */
  function Zone(key: nat): nat
  {
    if key < 96 then 4 else if key < 128 then 6 else if key < 160 then 8 else if key < 200 then 2 else
    if key < 256 then 0 else if key < 286 then 2 else if key < 288 then 1 else if key < 318 then 2 else
    if key < 320 then 1 else if key < 350 then 2 else if key < 352 then 1 else if key < 382 then 2 else
    if key < 384 then 1 else if key < 414 then 2 else if key < 416 then 1 else if key < 446 then 2 else
    if key < 448 then 0 else if key < 478 then 2 else if key < 480 then 0 else if key < 500 then 2 else
    if key < 512 then 0 else if key < 532 then 2 else if key < 544 then 0 else if key < 564 then 2 else
    if key < 576 then 0 else if key < 596 then 2 else if key < 608 then 0 else if key < 628 then 2 else
    if key < 992 then 0 else if key < 1120 then 1 else if key < 1152 then 5 else if key < 1280 then 7 else
    if key < 1856 then 1 else if key < 1887 then 0 else if key < 1888 then 1 else if key < 1918 then 0 else
    if key < 1920 then 1 else if key < 1950 then 0 else if key < 1952 then 1 else if key < 1982 then 0 else
    if key < 1984 then 1 else if key < 2013 then 0 else if key < 2016 then 1 else if key < 2204 then 0 else
    if key < 2208 then 1 else if key < 2236 then 0 else if key < 2239 then 1 else if key < 2268 then 0 else
    if key < 2271 then 1 else if key < 2776 then 0 else if key < 2784 then 1 else if key < 2808 then 0 else
    if key < 2816 then 1 else if key < 2840 then 0 else if key < 2848 then 1 else if key < 2872 then 0 else
    if key < 2880 then 1 else if key < 3254 then 0 else if key < 3264 then 1 else if key < 6080 then 0 else
    if key < 6096 then 1 else if key < 9856 then 0 else 3
  }

  predicate Pure(zone: nat, from: nat, to: nat)
  {
    forall key :: from <= key < to ==> Zone(key) == zone
  }

  /** Step k is a well-formed field behind step k - 1 and below `to`. */
  predicate Placed(steps: seq<Step>, from: nat, to: nat, k: nat)
  {
    k < |steps| ==>
      var st := steps[k];
      st.Fits() && st.reg < REGISTERS && (if k == 0 then from else Stop(steps[k - 1])) <= First(st) && Stop(st) <= to
  }

  /** The steps are in ascending order of their destination bits, from bit `from` on and below
      bit `to`. */
  ghost predicate Ascending(steps: seq<Step>, from: nat, to: nat)
  {
    from <= to && forall k :: 0 <= k < |steps| ==> Placed(steps, from, to, k)
  }

  /** All steps write to the zones low .. high - 1, each to one of them. */
  ghost predicate Within(steps: seq<Step>, low: nat, high: nat)
  {
    AllFit(steps, REGISTERS) &&
    forall k :: 0 <= k < |steps| ==> InZones(steps[k], low, high)
  }

  predicate InZones(st: Step, low: nat, high: nat)
  {
    low <= Zone(First(st)) < high && Pure(Zone(First(st)), First(st), Stop(st))
  }

  /** Steps in ascending order in one zone number. */
  ghost predicate Section(steps: seq<Step>, zone: nat, from: nat, to: nat)
  {
    Ascending(steps, from, to) && Within(steps, zone, zone + 1)
  }

  lemma AscendingFits(steps: seq<Step>, from: nat, to: nat)
    requires Ascending(steps, from, to)
    ensures AllFit(steps, REGISTERS)
  {
    forall k | 0 <= k < |steps|
      ensures steps[k].Fits() && steps[k].reg < REGISTERS
    {
      assert Placed(steps, from, to, k);
    }
  }

  lemma {:induction false} AscendingFrom(steps: seq<Step>, from: nat, to: nat, k: nat)
    requires Ascending(steps, from, to) && k < |steps|
    ensures from <= First(steps[k]) && Stop(steps[k]) <= to
    decreases k
  {
    assert Placed(steps, from, to, k);
    if k > 0 {
      AscendingFrom(steps, from, to, k - 1);
      assert Placed(steps, from, to, k - 1);
    }
  }

  lemma StretchSection(steps: seq<Step>, zone: nat, from: nat, to: nat)
    requires Ascending(steps, from, to) && Pure(zone, from, to)
    ensures Section(steps, zone, from, to)
  {
    AscendingFits(steps, from, to);
    forall k | 0 <= k < |steps|
      ensures InZones(steps[k], zone, zone + 1)
    {
      AscendingFrom(steps, from, to, k);
      assert steps[k].Fits();
    }
  }

  /** One stretch of a section after another. */
  lemma SectionAppend(xs: seq<Step>, ys: seq<Step>, zone: nat, from: nat, end: nat, mid: nat, to: nat)
    requires Section(xs, zone, from, end) && Section(ys, zone, mid, to) && end <= mid
    ensures Section(xs + ys, zone, from, to)
  {
    AscendingAppend(xs, ys, from, end, mid, to);
  }

  type Stretch = (nat, nat)

  /** Six stretches of a section one after another, given where each begins and ends. */
  lemma SixAppend(a: seq<Step>, b: seq<Step>, c: seq<Step>, d: seq<Step>, e: seq<Step>, f: seq<Step>, zone: nat,
                  p: Stretch, q: Stretch, r: Stretch, s: Stretch, t: Stretch, u: Stretch)
    requires Section(a, zone, p.0, p.1) && Section(b, zone, q.0, q.1) && Section(c, zone, r.0, r.1)
    requires Section(d, zone, s.0, s.1) && Section(e, zone, t.0, t.1) && Section(f, zone, u.0, u.1)
    requires p.1 <= q.0 && q.1 <= r.0 && r.1 <= s.0 && s.1 <= t.0 && t.1 <= u.0
    ensures Section(a + b + c + d + e + f, zone, p.0, u.1)
  {
    SectionAppend(a, b, zone, p.0, p.1, q.0, q.1);
    SectionAppend(a + b, c, zone, p.0, q.1, r.0, r.1);
    SectionAppend(a + b + c, d, zone, p.0, r.1, s.0, s.1);
    SectionAppend(a + b + c + d, e, zone, p.0, s.1, t.0, t.1);
    SectionAppend(a + b + c + d + e, f, zone, p.0, t.1, u.0, u.1);
  }

  // ---------------------------------------------------------------- what is read

  /** The statement packs a field of this parameter. */
  predicate From(st: Step, p: Param)
  {
    (st.S? || st.S32?) && st.param == p
  }

  ghost predicate Reads(steps: seq<Step>, p: Param)
  {
    exists k :: 0 <= k < |steps| && From(steps[k], p)
  }

  /** All parameters numbered a to b - 1 are read. */
  ghost predicate Covers(steps: seq<Step>, a: nat, b: nat)
  {
    a <= b <= PARAMS && forall p: Param :: a <= p < b ==> Reads(steps, p)
  }

  predicate ReadAt(steps: seq<Step>, k: nat, p: Param)
  {
    k < |steps| && From(steps[k], p)
  }

  /** The same for at most twelve statements, one by one. */
  ghost predicate CoveredByTwelve(steps: seq<Step>, a: nat, b: nat)
  {
    forall p: Param :: a <= p < b ==>
      ReadAt(steps, 0, p) || ReadAt(steps, 1, p) || ReadAt(steps, 2, p) || ReadAt(steps, 3, p) ||
      ReadAt(steps, 4, p) || ReadAt(steps, 5, p) || ReadAt(steps, 6, p) || ReadAt(steps, 7, p) ||
      ReadAt(steps, 8, p) || ReadAt(steps, 9, p) || ReadAt(steps, 10, p) || ReadAt(steps, 11, p)
  }

  lemma CoversOf(steps: seq<Step>, a: nat, b: nat)
    requires a <= b <= PARAMS && CoveredByTwelve(steps, a, b)
    ensures Covers(steps, a, b)
  {
    forall p: Param | a <= p < b
      ensures Reads(steps, p)
    {
      assert ReadAt(steps, 0, p) || ReadAt(steps, 1, p) || ReadAt(steps, 2, p) || ReadAt(steps, 3, p) ||
             ReadAt(steps, 4, p) || ReadAt(steps, 5, p) || ReadAt(steps, 6, p) || ReadAt(steps, 7, p) ||
             ReadAt(steps, 8, p) || ReadAt(steps, 9, p) || ReadAt(steps, 10, p) || ReadAt(steps, 11, p);
    }
  }

  lemma ReadsAppend(xs: seq<Step>, ys: seq<Step>, p: Param)
    ensures Reads(xs, p) || Reads(ys, p) ==> Reads(xs + ys, p)
  {
    if k :| 0 <= k < |xs| && From(xs[k], p) {
      assert From((xs + ys)[k], p);
    } else if k :| 0 <= k < |ys| && From(ys[k], p) {
      assert From((xs + ys)[|xs| + k], p);
    }
  }

  lemma CoversAppend(xs: seq<Step>, ys: seq<Step>, a: nat, b: nat, c: nat)
    requires Covers(xs, a, b) && Covers(ys, b, c)
    ensures Covers(xs + ys, a, c)
  {
    forall p: Param | a <= p < c
      ensures Reads(xs + ys, p)
    {
      ReadsAppend(xs, ys, p);
    }
  }

  lemma SixCover(u: seq<Step>, v: seq<Step>, w: seq<Step>, x: seq<Step>, y: seq<Step>, z: seq<Step>,
                 a: nat, b: nat, c: nat, d: nat, e: nat, f: nat, g: nat)
    requires Covers(u, a, b) && Covers(v, b, c) && Covers(w, c, d)
    requires Covers(x, d, e) && Covers(y, e, f) && Covers(z, f, g)
    ensures Covers(u + v + w + x + y + z, a, g)
  {
    CoversAppend(u, v, a, b, c);
    CoversAppend(u + v, w, a, c, d);
    CoversAppend(u + v + w, x, a, d, e);
    CoversAppend(u + v + w + x, y, a, e, f);
    CoversAppend(u + v + w + x + y, z, a, f, g);
  }

  lemma FieldsSection(steps: seq<Step>, zone: nat, from: nat, to: nat)
    requires Ascending(steps, from, to)
    requires forall k :: 0 <= k < |steps| ==> InZones(steps[k], zone, zone + 1)
    ensures Section(steps, zone, from, to)
  {
    AscendingFits(steps, from, to);
  }

  lemma AscendingAppend(xs: seq<Step>, ys: seq<Step>, from: nat, end: nat, mid: nat, to: nat)
    requires Ascending(xs, from, end) && Ascending(ys, mid, to) && end <= mid
    ensures Ascending(xs + ys, from, to)
  {
    forall k | 0 <= k < |xs + ys|
      ensures Placed(xs + ys, from, to, k)
    {
      if k < |xs| {
        assert Placed(xs, from, end, k);
      } else {
        assert Placed(ys, mid, to, k - |xs|);
        assert k == |xs| && k > 0 ==> Placed(xs, from, end, k - 1);
      }
    }
  }

  /** No step but a c32 is touched by a later one. */
  ghost predicate Kept(steps: seq<Step>)
  {
    forall k, l :: 0 <= k < l < |steps| ==> steps[k].C32? || !steps[k].Meets(steps[l])
  }

  /** The field of this step is in its register as it was in its source. */
  ghost predicate ReadBack(st: Step, sdram: Params, final: seq<nat>)
  {
    st.Lo() <= st.Hi() < 32 && st.reg < |final| && st.From() + (st.Hi() - st.Lo()) < 32 &&
    Field(final[st.reg], st.Hi(), st.Lo()) == Field(st.Source(sdram), st.From() + (st.Hi() - st.Lo()), st.From())
  }

  /** So are the fields of all steps but the clearing ones. */
  ghost predicate AllReadBack(steps: seq<Step>, sdram: Params, final: seq<nat>)
  {
    forall k :: 0 <= k < |steps| && !steps[k].C32? ==> ReadBack(steps[k], sdram, final)
  }

  lemma KeptRecovered(steps: seq<Step>, sdram: Params, initial: seq<nat>, final: seq<nat>)
    requires Kept(steps) && AllFit(steps, |final|) && Saved(steps, sdram, initial, final)
    ensures AllReadBack(steps, sdram, final)
  {
    forall k | 0 <= k < |steps| && !steps[k].C32?
      ensures ReadBack(steps[k], sdram, final)
    {
      assert steps[k].Fits();
      Recovered(steps, sdram, initial, final, k);
    }
  }

  lemma {:induction false} AscendingOrder(steps: seq<Step>, from: nat, to: nat, k: nat, l: nat)
    requires Ascending(steps, from, to) && k < l < |steps|
    ensures Stop(steps[k]) <= First(steps[l])
    decreases l
  {
    assert Placed(steps, from, to, l);
    if k < l - 1 {
      assert Placed(steps, from, to, l - 1);
      AscendingOrder(steps, from, to, k, l - 1);
    }
  }

  lemma SectionClean(steps: seq<Step>, zone: nat, from: nat, to: nat)
    requires Section(steps, zone, from, to)
    ensures Clean(steps, zone, zone + 1)
  {
    forall k, l | 0 <= k < l < |steps|
      ensures steps[k].C32? || !steps[k].Meets(steps[l])
    {
      AscendingOrder(steps, from, to, k, l);
    }
  }

  /** Fields of different zones share no bit. */
  lemma ZonesApart(x: Step, y: Step, low: nat, mid: nat, high: nat)
    requires x.Fits() && y.Fits() && InZones(x, low, mid) && InZones(y, mid, high)
    ensures !x.Meets(y)
  {
    var i := if x.Lo() <= y.Lo() then y.Lo() else x.Lo();
    assert i <= x.Hi() ==> Zone(Key(x.reg, i)) == Zone(First(x));
    assert i <= y.Hi() ==> Zone(Key(y.reg, i)) == Zone(First(y));
  }

  /** Steps of these zones of which none but a c32 is touched by a later one. */
  ghost predicate Clean(steps: seq<Step>, low: nat, high: nat)
  {
    Kept(steps) && Within(steps, low, high)
  }

  lemma KeptAppend(xs: seq<Step>, ys: seq<Step>, low: nat, mid: nat, high: nat)
    requires low <= mid <= high && Clean(xs, low, mid) && Clean(ys, mid, high)
    ensures Clean(xs + ys, low, high)
  {
    var r := xs + ys;
    forall k, l | 0 <= k < |xs| <= l < |r|
      ensures !xs[k].Meets(r[l])
    {
      ZonesApart(xs[k], ys[l - |xs|], low, mid, high);
    }
    forall k, l | 0 <= k < l < |r|
      ensures r[k].C32? || !r[k].Meets(r[l])
    {
      if k >= |xs| {
        assert r[k] == ys[k - |xs|] && r[l] == ys[l - |xs|];
      }
    }
    forall k | 0 <= k < |r|
      ensures InZones(r[k], low, high)
    {
      assert InZones(if k < |xs| then xs[k] else ys[k - |xs|], low, high);
    }
  }

  /** A register cleared first and then filled. */
  lemma ClearedKept(reg: nat, fields: seq<Step>, zone: nat, from: nat, to: nat)
    requires Section(fields, zone, from, to) && InZones(C32(0, reg), zone, zone + 1) && reg < REGISTERS
    ensures Clean([C32(0, reg)] + fields, zone, zone + 1)
  {
    SectionClean(fields, zone, from, to);
    ClearedWithin(reg, fields, zone);
    KeptBehindClear(reg, fields);
  }

  lemma KeptBehindClear(reg: nat, fields: seq<Step>)
    requires Kept(fields)
    ensures Kept([C32(0, reg)] + fields)
  {
    var r := [C32(0, reg)] + fields;
    forall k, l | 0 <= k < l < |r|
      ensures r[k].C32? || !r[k].Meets(r[l])
    {
      if k > 0 {
        assert r[k] == fields[k - 1] && r[l] == fields[l - 1];
      }
    }
  }

  lemma ClearedWithin(reg: nat, fields: seq<Step>, zone: nat)
    requires Within(fields, zone, zone + 1) && InZones(C32(0, reg), zone, zone + 1) && reg < REGISTERS
    ensures Within([C32(0, reg)] + fields, zone, zone + 1)
  {
    var r := [C32(0, reg)] + fields;
    forall k | 0 <= k < |r|
      ensures r[k].Fits() && r[k].reg < REGISTERS && InZones(r[k], zone, zone + 1)
    {
      assert k > 0 ==> r[k] == fields[k - 1];
    }
  }

  /** The five sections of the function. */
  lemma SectionsKept(a: seq<Step>, b: seq<Step>, c: seq<Step>, d: seq<Step>, e: seq<Step>)
    requires Clean(a, 0, 1) && Clean(b, 1, 2) && Clean(c, 2, 3) && Clean(d, 3, 4) && Clean(e, 4, 9)
    ensures Kept(a + b + c + d + e) && AllFit(a + b + c + d + e, REGISTERS)
  {
    FiveKept(a, b, c, d, e, 0, 9);
  }

  /** Parts that write to five successive zone numbers, the last to more. */
  lemma FiveKept(a: seq<Step>, b: seq<Step>, c: seq<Step>, d: seq<Step>, e: seq<Step>, s: nat, t: nat)
    requires Clean(a, s, s + 1) && Clean(b, s + 1, s + 2) && Clean(c, s + 2, s + 3)
    requires Clean(d, s + 3, s + 4) && Clean(e, s + 4, t) && s + 4 <= t
    ensures Clean(a + b + c + d + e, s, t)
  {
    KeptAppend(a, b, s, s + 1, s + 2);
    KeptAppend(a + b, c, s, s + 2, s + 3);
    KeptAppend(a + b + c, d, s, s + 3, s + 4);
    KeptAppend(a + b + c + d, e, s, s + 4, t);
  }
}
