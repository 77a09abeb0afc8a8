/** What the scratch registers hold after the saving function of bdk/mem/sdram_lp0.c, told from
    registers and parameters: the fields that depend on the memory type, and the registers that
    are cleared and filled again at the end. */
module LpFields {
  import opened Bits
  import opened LpParams
  import opened LpPack
  import opened LpLayout
  import opened LpSaved
  import opened LpTable

  /** Bits dhi .. dlo of the register are bits shi .. slo of x. */
  predicate Holds(final: seq<nat>, reg: nat, dhi: nat, dlo: nat, x: nat, shi: nat, slo: nat)
  {
    reg < |final| && dlo <= dhi < 32 && slo <= shi < 32 && dhi - dlo == shi - slo &&
    Field(final[reg], dhi, dlo) == Field(x, shi, slo)
  }

  /** That is, as numbers. */
  lemma HoldsIs(final: seq<nat>, reg: nat, dhi: nat, dlo: nat, x: nat, shi: nat, slo: nat)
    requires reg < |final| && dlo <= dhi < 32 && slo <= shi < 32 && dhi - dlo == shi - slo
    ensures Pow2(dlo) > 0 && Pow2(slo) > 0 && Pow2(dhi - dlo + 1) > 0
    ensures Holds(final, reg, dhi, dlo, x, shi, slo)
            <==> final[reg] / Pow2(dlo) % Pow2(dhi - dlo + 1) == x / Pow2(slo) % Pow2(dhi - dlo + 1)
  {
    FieldIs(final[reg], dhi, dlo);
    FieldIs(x, shi, slo);
  }

  ghost predicate FieldAt(steps: seq<Step>, k: nat, sdram: Params, final: seq<nat>)
  {
    k < |steps| ==>
      match steps[k]
      case S(p, shi, slo, r, dhi, dlo) => Holds(final, r, dhi, dlo, sdram(p), shi, slo)
      case C(value, r, dhi, dlo) => dlo <= dhi && Holds(final, r, dhi, dlo, value, dhi - dlo, 0)
      case _ => true
  }

  /** The fields of these statements fit and are read back. */
  ghost predicate Kept(steps: seq<Step>, sdram: Params, final: seq<nat>)
  {
    AllFit(steps, |final|) && AllReadBack(steps, sdram, final)
  }

  /** The first six. */
  lemma FieldsOf(steps: seq<Step>, sdram: Params, final: seq<nat>)
    requires Kept(steps, sdram, final)
    ensures FieldAt(steps, 0, sdram, final) && FieldAt(steps, 1, sdram, final) && FieldAt(steps, 2, sdram, final)
    ensures FieldAt(steps, 3, sdram, final) && FieldAt(steps, 4, sdram, final) && FieldAt(steps, 5, sdram, final)
  {
    hide Field;
    assert forall k: nat :: k < |steps| ==> FieldAt(steps, k, sdram, final) by {
      forall k: nat | k < |steps|
        ensures FieldAt(steps, k, sdram, final)
      {
        assert steps[k].Fits();
        assert !steps[k].C32? ==> ReadBack(steps[k], sdram, final);
      }
    }
  }

  lemma KeptParts(xs: seq<Step>, ys: seq<Step>, sdram: Params, final: seq<nat>)
    requires Kept(xs + ys, sdram, final)
    ensures Kept(xs, sdram, final) && Kept(ys, sdram, final)
  {
    hide ReadBack;
    forall k | 0 <= k < |xs|
      ensures xs[k].Fits() && xs[k].reg < |final| && (!xs[k].C32? ==> ReadBack(xs[k], sdram, final))
    {
      assert (xs + ys)[k] == xs[k];
    }
    forall k | 0 <= k < |ys|
      ensures ys[k].Fits() && ys[k].reg < |final| && (!ys[k].C32? ==> ReadBack(ys[k], sdram, final))
    {
      assert (xs + ys)[|xs| + k] == ys[k];
    }
  }

  /** The parts of a table of four. */
  lemma FourKept(a: seq<Step>, b: seq<Step>, c: seq<Step>, d: seq<Step>, sdram: Params, final: seq<nat>)
    requires Kept(a + b + c + d, sdram, final)
    ensures Kept(a, sdram, final) && Kept(b, sdram, final) && Kept(c, sdram, final) && Kept(d, sdram, final)
  {
    hide Kept;
    KeptParts(a + b + c, d, sdram, final);
    KeptParts(a + b, c, sdram, final);
    KeptParts(a, b, sdram, final);
  }

  /** The parts of the whole table. */
  lemma PartsKept(memory: Memory, sdram: Params, final: seq<nat>)
    requires |final| == REGISTERS && AllReadBack(Table(memory), sdram, final)
    ensures Kept(Switched(memory), sdram, final) && Kept(Pll(), sdram, final)
  {
    hide AllFit, AllReadBack;
    TableKept(memory);
    KeptParts(Common() + Later() + Switched(memory) + Secure(), Pll(), sdram, final);
    KeptParts(Common() + Later() + Switched(memory), Secure(), sdram, final);
    KeptParts(Common() + Later(), Switched(memory), sdram, final);
  }

  /** What LPDDR2 and LPDDR4 need, from the registers alone: the mode register writes, field by field. */
  lemma LpddrSaved(memory: Memory, sdram: Params, final: seq<nat>)
    requires |final| == REGISTERS && AllReadBack(Table(memory), sdram, final) && (memory.LpDdr2? || memory.LpDdr4?)
    ensures Holds(final, 5, 7, 0, sdram(EmcMrwLpddr2ZcalWarmBoot), 23, 16)
    ensures Holds(final, 5, 15, 8, sdram(EmcMrwLpddr2ZcalWarmBoot), 7, 0)
    ensures Holds(final, 5, 23, 16, sdram(EmcWarmBootMrwExtra), 23, 16)
    ensures Holds(final, 5, 31, 24, sdram(EmcWarmBootMrwExtra), 7, 0)
    ensures Holds(final, 6, 1, 0, sdram(EmcMrwLpddr2ZcalWarmBoot), 31, 30)
    ensures Holds(final, 6, 3, 2, sdram(EmcWarmBootMrwExtra), 31, 30)
    ensures Holds(final, 6, 5, 4, sdram(EmcMrwLpddr2ZcalWarmBoot), 27, 26)
    ensures Holds(final, 6, 7, 6, sdram(EmcWarmBootMrwExtra), 27, 26)
    ensures Holds(final, 8, 27, 0, sdram(EmcMrw6), 27, 0)
    ensures Holds(final, 8, 29, 28, sdram(EmcMrw6), 31, 30)
    ensures Holds(final, 9, 27, 0, sdram(EmcMrw8), 27, 0)
    ensures Holds(final, 9, 29, 28, sdram(EmcMrw8), 31, 30)
    ensures Holds(final, 10, 27, 0, sdram(EmcMrw9), 27, 0)
    ensures Holds(final, 10, 29, 28, sdram(EmcMrw9), 31, 30)
    ensures Holds(final, 11, 27, 0, sdram(EmcMrw10), 27, 0)
    ensures Holds(final, 11, 29, 28, sdram(EmcMrw10), 31, 30)
    ensures Holds(final, 12, 27, 0, sdram(EmcMrw12), 27, 0)
    ensures Holds(final, 12, 29, 28, sdram(EmcMrw12), 31, 30)
    ensures Holds(final, 13, 27, 0, sdram(EmcMrw13), 27, 0)
    ensures Holds(final, 13, 29, 28, sdram(EmcMrw13), 31, 30)
    ensures Holds(final, 14, 27, 0, sdram(EmcMrw14), 27, 0)
    ensures Holds(final, 14, 29, 28, sdram(EmcMrw14), 31, 30)
    ensures Holds(final, 15, 7, 0, sdram(EmcMrw1), 7, 0)
    ensures Holds(final, 15, 15, 8, sdram(EmcMrw1), 23, 16)
    ensures Holds(final, 15, 17, 16, sdram(EmcMrw1), 27, 26)
    ensures Holds(final, 15, 19, 18, sdram(EmcMrw1), 31, 30)
    ensures Holds(final, 16, 7, 0, sdram(EmcWarmBootMrwExtra), 7, 0)
    ensures Holds(final, 16, 15, 8, sdram(EmcWarmBootMrwExtra), 23, 16)
    ensures Holds(final, 16, 17, 16, sdram(EmcWarmBootMrwExtra), 27, 26)
    ensures Holds(final, 16, 19, 18, sdram(EmcWarmBootMrwExtra), 31, 30)
    ensures Holds(final, 17, 7, 0, sdram(EmcMrw2), 7, 0)
    ensures Holds(final, 17, 15, 8, sdram(EmcMrw2), 23, 16)
    ensures Holds(final, 17, 17, 16, sdram(EmcMrw2), 27, 26)
    ensures Holds(final, 17, 19, 18, sdram(EmcMrw2), 31, 30)
    ensures Holds(final, 18, 7, 0, sdram(EmcMrw3), 7, 0)
    ensures Holds(final, 18, 15, 8, sdram(EmcMrw3), 23, 16)
    ensures Holds(final, 18, 17, 16, sdram(EmcMrw3), 27, 26)
    ensures Holds(final, 18, 19, 18, sdram(EmcMrw3), 31, 30)
    ensures Holds(final, 19, 7, 0, sdram(EmcMrw4), 7, 0)
    ensures Holds(final, 19, 15, 8, sdram(EmcMrw4), 23, 16)
    ensures Holds(final, 19, 17, 16, sdram(EmcMrw4), 27, 26)
    ensures Holds(final, 19, 19, 18, sdram(EmcMrw4), 31, 30)
  {
    hide Holds, AllFit, AllReadBack;
    PartsKept(memory, sdram, final);
    KeptParts(LpddrA(), LpddrB(), sdram, final);
    FourKept(Lpddr0(), Lpddr1(), Lpddr2(), Lpddr3(), sdram, final);
    KeptParts(Lpddr4() + Lpddr5(), Lpddr6(), sdram, final);
    KeptParts(Lpddr4(), Lpddr5(), sdram, final);
    FieldsOf(Lpddr0(), sdram, final);
    FieldsOf(Lpddr1(), sdram, final);
    FieldsOf(Lpddr2(), sdram, final);
    FieldsOf(Lpddr3(), sdram, final);
    FieldsOf(Lpddr4(), sdram, final);
    FieldsOf(Lpddr5(), sdram, final);
    FieldsOf(Lpddr6(), sdram, final);
  }

  /** What DDR3 needs: its mode registers. */
  lemma Ddr3Saved(memory: Memory, sdram: Params, final: seq<nat>)
    requires |final| == REGISTERS && AllReadBack(Table(memory), sdram, final) && memory.Ddr3Memory?
    ensures Holds(final, 5, 13, 0, sdram(EmcMrs), 13, 0)
    ensures Holds(final, 5, 27, 14, sdram(EmcEmrs), 13, 0)
    ensures Holds(final, 5, 29, 28, sdram(EmcMrs), 21, 20)
    ensures Holds(final, 5, 31, 30, sdram(EmcMrs), 31, 30)
    ensures Holds(final, 8, 13, 0, sdram(EmcEmrs2), 13, 0)
    ensures Holds(final, 8, 27, 14, sdram(EmcEmrs3), 13, 0)
    ensures Holds(final, 8, 29, 28, sdram(EmcEmrs), 21, 20)
    ensures Holds(final, 9, 13, 0, sdram(EmcWarmBootMrsExtra), 13, 0)
    ensures Holds(final, 9, 15, 14, sdram(EmcEmrs), 31, 30)
    ensures Holds(final, 9, 17, 16, sdram(EmcEmrs2), 21, 20)
    ensures Holds(final, 9, 19, 18, sdram(EmcEmrs2), 31, 30)
    ensures Holds(final, 9, 21, 20, sdram(EmcEmrs3), 21, 20)
    ensures Holds(final, 9, 23, 22, sdram(EmcEmrs3), 31, 30)
    ensures Holds(final, 9, 25, 24, sdram(EmcWarmBootMrsExtra), 31, 30)
    ensures Holds(final, 9, 27, 26, sdram(EmcWarmBootMrsExtra), 21, 20)
    ensures Holds(final, 9, 29, 28, sdram(EmcZqCalDdr3WarmBoot), 31, 30)
    ensures Holds(final, 10, 1, 0, sdram(EmcMrs), 27, 26)
    ensures Holds(final, 10, 3, 2, sdram(EmcEmrs), 27, 26)
    ensures Holds(final, 10, 5, 4, sdram(EmcEmrs2), 27, 26)
    ensures Holds(final, 10, 7, 6, sdram(EmcEmrs3), 27, 26)
    ensures Holds(final, 10, 8, 8, sdram(EmcWarmBootMrsExtra), 27, 27)
    ensures Holds(final, 10, 9, 9, sdram(EmcWarmBootMrsExtra), 26, 26)
    ensures Holds(final, 10, 10, 10, sdram(EmcZqCalDdr3WarmBoot), 0, 0)
    ensures Holds(final, 10, 11, 11, sdram(EmcZqCalDdr3WarmBoot), 4, 4)
  {
    hide Holds, AllFit, AllReadBack;
    PartsKept(memory, sdram, final);
    FourKept(Ddr30(), Ddr31(), Ddr32(), Ddr33(), sdram, final);
    FieldsOf(Ddr30(), sdram, final);
    FieldsOf(Ddr31(), sdram, final);
    FieldsOf(Ddr32(), sdram, final);
    FieldsOf(Ddr33(), sdram, final);
  }

  /** The five registers that are cleared and filled again: the PLL settings. */
  lemma PllSaved(memory: Memory, sdram: Params, final: seq<nat>)
    requires |final| == REGISTERS && AllReadBack(Table(memory), sdram, final)
    ensures Holds(final, 2, 7, 0, sdram(PllMInputDivider), 7, 0)
    ensures Holds(final, 2, 15, 8, sdram(PllMFeedbackDivider), 7, 0)
    ensures Holds(final, 2, 20, 16, sdram(PllMPostDivider), 4, 0)
    ensures Holds(final, 2, 21, 21, sdram(PllMKVCO), 0, 0)
    ensures Holds(final, 2, 23, 22, sdram(PllMKCP), 1, 0)
    ensures Holds(final, 35, 15, 0, sdram(PllMSetupControl), 15, 0)
    ensures Holds(final, 3, 7, 0, sdram(PllMInputDivider), 7, 0)
    ensures Holds(final, 3, 15, 8, 0x3E, 7, 0)
    ensures Holds(final, 3, 20, 16, 0, 4, 0)
    ensures Holds(final, 3, 21, 21, sdram(PllMKVCO), 0, 0)
    ensures Holds(final, 3, 23, 22, sdram(PllMKCP), 1, 0)
    ensures Holds(final, 36, 23, 0, sdram(PllMSetupControl), 23, 0)
    ensures Holds(final, 4, 9, 0, sdram(PllMStableTime), 9, 0)
  {
    hide Holds, AllFit, AllReadBack;
    PartsKept(memory, sdram, final);
    PllKept(sdram, final);
    FieldsOf(Pll2(), sdram, final);
    FieldsOf(Pll35(), sdram, final);
    FieldsOf(Pll3(), sdram, final);
    FieldsOf(Pll36(), sdram, final);
    FieldsOf(Pll4(), sdram, final);
  }

  lemma PllKept(sdram: Params, final: seq<nat>)
    requires Kept(Pll(), sdram, final)
    ensures Kept(Pll2(), sdram, final) && Kept(Pll35(), sdram, final) && Kept(Pll3(), sdram, final)
    ensures Kept(Pll36(), sdram, final) && Kept(Pll4(), sdram, final)
  {
    hide AllFit, AllReadBack;
    KeptParts(Cleared2() + Cleared35() + Cleared3() + Cleared36(), Cleared4(), sdram, final);
    FourKept(Cleared2(), Cleared35(), Cleared3(), Cleared36(), sdram, final);
    KeptParts([C32(0, 2)], Pll2(), sdram, final);
    KeptParts([C32(0, 35)], Pll35(), sdram, final);
    KeptParts([C32(0, 3)], Pll3(), sdram, final);
    KeptParts([C32(0, 36)], Pll36(), sdram, final);
    KeptParts([C32(0, 4)], Pll4(), sdram, final);
  }

  // ---------------------------------------------------------------- what is not written

  /** No statement covers bit i of register r. */
  ghost predicate Spares(steps: seq<Step>, r: nat, i: nat)
  {
    forall k :: 0 <= k < |steps| ==> !steps[k].Covers(r, i)
  }

  lemma ZonesSpare(steps: seq<Step>, low: nat, high: nat, r: nat, i: nat)
    requires Within(steps, low, high) && i < 32 && !(low <= Zone(Key(r, i)) < high)
    ensures Spares(steps, r, i)
  {
    forall k | 0 <= k < |steps|
      ensures !steps[k].Covers(r, i)
    {
      assert steps[k].Fits();
      assert InZones(steps[k], low, high);
    }
  }

  lemma StretchSpares(steps: seq<Step>, from: nat, to: nat, r: nat, i: nat)
    requires Ascending(steps, from, to) && i < 32 && !(from <= Key(r, i) < to)
    ensures Spares(steps, r, i)
  {
    forall k | 0 <= k < |steps|
      ensures !steps[k].Covers(r, i)
    {
      AscendingFrom(steps, from, to, k);
      assert Placed(steps, from, to, k);
    }
  }

  lemma SparesAppend(xs: seq<Step>, ys: seq<Step>, r: nat, i: nat)
    requires Spares(xs, r, i) && Spares(ys, r, i)
    ensures Spares(xs + ys, r, i)
  {
  }

  lemma {:induction false} AfterAppend(xs: seq<Step>, ys: seq<Step>, sdram: Params, initial: bool, r: nat, i: nat)
    ensures BitAfter(xs + ys, sdram, initial, r, i) == BitAfter(ys, sdram, BitAfter(xs, sdram, initial, r, i), r, i)
    decreases |ys|
  {
    if ys == [] {
      assert xs + ys == xs;
    } else {
      var n := |ys| - 1;
      assert (xs + ys)[..|xs + ys| - 1] == xs + ys[..n];
      AfterAppend(xs, ys[..n], sdram, initial, r, i);
    }
  }

  /** What the switch writes to for some memory type. */
  predicate InSwitch(r: nat, i: nat)
  {
    r == 5 || (r == 6 && i < 8) || (8 <= r <= 14 && i < 30) || (15 <= r <= 19 && i < 20)
  }

  lemma ClearedSpares(reg: nat, fields: seq<Step>, from: nat, to: nat, r: nat, i: nat)
    requires Ascending(fields, from, to) && 32 * reg <= from && to <= 32 * reg + 32 && r != reg && i < 32
    ensures Spares([C32(0, reg)] + fields, r, i)
  {
    StretchSpares(fields, from, to, r, i);
  }

  lemma PllSpares(r: nat, i: nat)
    requires i < 32
    ensures r != 2 ==> Spares(Cleared2(), r, i)
    ensures r != 35 ==> Spares(Cleared35(), r, i)
    ensures r != 3 ==> Spares(Cleared3(), r, i)
    ensures r != 36 ==> Spares(Cleared36(), r, i)
    ensures r != 4 ==> Spares(Cleared4(), r, i)
  {
    hide Ascending, Within, Spares;
    Pll2Placed();
    Pll35Placed();
    Pll3Placed();
    Pll36Placed();
    Pll4Placed();
    if r != 2 { ClearedSpares(2, Pll2(), 64, 88, r, i); }
    if r != 35 { ClearedSpares(35, Pll35(), 1120, 1136, r, i); }
    if r != 3 { ClearedSpares(3, Pll3(), 96, 120, r, i); }
    if r != 36 { ClearedSpares(36, Pll36(), 1152, 1176, r, i); }
    if r != 4 { ClearedSpares(4, Pll4(), 128, 138, r, i); }
  }

  lemma FiveSpare(a: seq<Step>, b: seq<Step>, c: seq<Step>, d: seq<Step>, e: seq<Step>, r: nat, i: nat)
    requires Spares(a, r, i) && Spares(b, r, i) && Spares(c, r, i) && Spares(d, r, i) && Spares(e, r, i)
    ensures Spares(a + b + c + d + e, r, i)
  {
    hide Spares;
    SparesAppend(a, b, r, i);
    SparesAppend(a + b, c, r, i);
    SparesAppend(a + b + c, d, r, i);
    SparesAppend(a + b + c + d, e, r, i);
  }

  lemma CommonPlaced()
    ensures Section(Common(), 0, 200, 6115)
  {
    CommonA1Placed();
    CommonB1Placed();
    CommonOf(CommonA1(), CommonB1());
  }

  lemma CommonSpares(r: nat, i: nat)
    requires i < 32 && (InSwitch(r, i) || r < 2 || 192 <= r)
    ensures Spares(Common(), r, i)
  {
    hide Ascending, Within, Spares, Common;
    CommonPlaced();
    if InSwitch(r, i) {
      ZonesSpare(Common(), 0, 1, r, i);
    } else {
      StretchSpares(Common(), 200, 6115, r, i);
    }
  }

  lemma LaterSpares(r: nat, i: nat)
    requires i < 32 && (InSwitch(r, i) || r < 2 || 192 <= r)
    ensures Spares(Later(), r, i)
  {
    hide Ascending, Within, Spares, Later;
    LaterPlaced();
    if InSwitch(r, i) {
      ZonesSpare(Later(), 1, 2, r, i);
    } else {
      StretchSpares(Later(), 286, 6096, r, i);
    }
  }

  lemma SecureSpares(r: nat, i: nat)
    requires i < 32 && (r < 308 || 408 <= r)
    ensures Spares(Secure(), r, i)
  {
    hide Ascending, Within, Spares, Secure;
    SecurePlaced();
    StretchSpares(Secure(), 9856, 13056, r, i);
  }

  lemma AllPllSpares(r: nat, i: nat)
    requires i < 32 && !(2 <= r <= 4) && !(35 <= r <= 36)
    ensures Spares(Pll(), r, i)
  {
    hide Spares, Cleared2, Cleared35, Cleared3, Cleared36, Cleared4;
    PllSpares(r, i);
    FiveSpare(Cleared2(), Cleared35(), Cleared3(), Cleared36(), Cleared4(), r, i);
  }

  lemma SwitchSpares(memory: Memory, r: nat, i: nat)
    requires i < 32
    requires memory.OtherMemory? || (memory.Ddr3Memory? && (r > 10 || (r == 10 && i >= 12))) || r < 2 || r > 19
    ensures Spares(Switched(memory), r, i)
  {
    hide Ascending, Within;
    match memory
    case OtherMemory =>
    case Ddr3Memory =>
      Ddr3Placed();
      StretchSpares(Ddr3(), 160, 332, r, i);
    case _ =>
      LpddrPlaced();
      StretchSpares(Lpddr(), 160, 628, r, i);
  }

  /** What the function does not write stays as it was: for a memory type without a case all bits
      of the switch, for DDR3 those that only LPDDR uses, and for every type the scratch
      registers 0, 1 and 192 to 299 and the secure ones 0 to 7 and 108 on. */
  lemma Unwritten(memory: Memory, sdram: Params, initial: seq<nat>, final: seq<nat>, r: nat, i: nat)
    requires |final| == REGISTERS && Saved(Table(memory), sdram, initial, final) && r < REGISTERS && i < 32
    requires r < 2 || 192 <= r < 308 || 408 <= r || InSwitch(r, i)
    requires InSwitch(r, i) ==> memory.OtherMemory? || (memory.Ddr3Memory? && (r > 10 || (r == 10 && i >= 12)))
    ensures Bit(final[r], i) == Bit(initial[r], i)
  {
    hide Saved, Spares, Common, Later, Switched, Secure, Pll;
    CommonSpares(r, i);
    LaterSpares(r, i);
    SecureSpares(r, i);
    AllPllSpares(r, i);
    SwitchSpares(memory, r, i);
    FiveSpare(Common(), Later(), Switched(memory), Secure(), Pll(), r, i);
    UnwrittenBit(Table(memory), sdram, initial, final, r, i);
  }

  lemma UnwrittenBit(steps: seq<Step>, sdram: Params, initial: seq<nat>, final: seq<nat>, r: nat, i: nat)
    requires Saved(steps, sdram, initial, final) && r < |final| && i < 32 && Spares(steps, r, i)
    ensures Bit(final[r], i) == Bit(initial[r], i)
  {
    Untouched(steps, sdram, Bit(initial[r], i), r, i);
    assert Bit(final[r], i) <==> BitAfter(steps, sdram, Bit(initial[r], i), r, i);
  }

  // ---------------------------------------------------------------- what is zero

  /** Whatever bit i of register r was, it is 0 after the steps. */
  ghost predicate Zeroes(steps: seq<Step>, sdram: Params, r: nat, i: nat)
  {
    forall before :: !BitAfter(steps, sdram, before, r, i)
  }

  lemma ZeroesLast(xs: seq<Step>, ys: seq<Step>, sdram: Params, r: nat, i: nat)
    requires Zeroes(ys, sdram, r, i)
    ensures Zeroes(xs + ys, sdram, r, i)
  {
    forall before
      ensures !BitAfter(xs + ys, sdram, before, r, i)
    {
      AfterAppend(xs, ys, sdram, before, r, i);
    }
  }

  lemma ZeroesSpared(xs: seq<Step>, ys: seq<Step>, sdram: Params, r: nat, i: nat)
    requires Zeroes(xs, sdram, r, i) && Spares(ys, r, i)
    ensures Zeroes(xs + ys, sdram, r, i)
  {
    forall before
      ensures !BitAfter(xs + ys, sdram, before, r, i)
    {
      AfterAppend(xs, ys, sdram, before, r, i);
      Untouched(ys, sdram, BitAfter(xs, sdram, before, r, i), r, i);
    }
  }

  /** A bit of a cleared register behind its fields. */
  lemma BehindZero(reg: nat, fields: seq<Step>, from: nat, to: nat, sdram: Params, i: nat)
    requires Ascending(fields, from, to) && to <= Key(reg, i) && i < 32
    ensures Zeroes([C32(0, reg)] + fields, sdram, reg, i)
  {
    StretchSpares(fields, from, to, reg, i);
    forall before
      ensures !BitAfter([C32(0, reg)], sdram, before, reg, i)
    {
      assert [C32(0, reg)][..0] == [];
      ZeroBit(i);
    }
    ZeroesSpared([C32(0, reg)], fields, sdram, reg, i);
  }

  lemma PllZeroes(sdram: Params, r: nat, i: nat)
    requires i < 32
    requires ((r == 2 || r == 3 || r == 36) && 24 <= i) || (r == 35 && 16 <= i) || (r == 4 && 10 <= i)
    ensures Zeroes(Pll(), sdram, r, i)
  {
    hide Ascending, Within, Spares, Zeroes, Pll2, Pll35, Pll3, Pll36, Pll4;
    var a, b, c, d, e := Cleared2(), Cleared35(), Cleared3(), Cleared36(), Cleared4();
    PllSpares(r, i);
    if r == 2 {
      Pll2Placed();
      BehindZero(2, Pll2(), 64, 88, sdram, i);
      ZeroesSpared(a, b, sdram, r, i);
    } else if r == 35 {
      Pll35Placed();
      BehindZero(35, Pll35(), 1120, 1136, sdram, i);
      ZeroesLast(a, b, sdram, r, i);
    }
    if r == 3 {
      Pll3Placed();
      BehindZero(3, Pll3(), 96, 120, sdram, i);
      ZeroesLast(a + b, c, sdram, r, i);
    } else if r == 2 || r == 35 {
      ZeroesSpared(a + b, c, sdram, r, i);
    }
    if r == 36 {
      Pll36Placed();
      BehindZero(36, Pll36(), 1152, 1176, sdram, i);
      ZeroesLast(a + b + c, d, sdram, r, i);
    } else if r != 4 {
      ZeroesSpared(a + b + c, d, sdram, r, i);
    }
    if r == 4 {
      Pll4Placed();
      BehindZero(4, Pll4(), 128, 138, sdram, i);
      ZeroesLast(a + b + c + d, e, sdram, r, i);
    } else {
      ZeroesSpared(a + b + c + d, e, sdram, r, i);
    }
  }

  /** What the five cleared registers hold above their fields. */
  lemma ClearedAbove(memory: Memory, sdram: Params, initial: seq<nat>, final: seq<nat>, r: nat, i: nat)
    requires |final| == REGISTERS && Saved(Table(memory), sdram, initial, final) && i < 32
    requires ((r == 2 || r == 3 || r == 36) && 24 <= i) || (r == 35 && 16 <= i) || (r == 4 && 10 <= i)
    ensures !Bit(final[r], i)
  {
    hide Zeroes, Common, Later, Switched, Secure, Pll;
    PllZeroes(sdram, r, i);
    ZeroesLast(Common() + Later() + Switched(memory) + Secure(), Pll(), sdram, r, i);
    ZeroAfter(Table(memory), sdram, initial, final, r, i);
  }

  lemma ZeroAfter(steps: seq<Step>, sdram: Params, initial: seq<nat>, final: seq<nat>, r: nat, i: nat)
    requires Saved(steps, sdram, initial, final) && r < |final| && i < 32 && Zeroes(steps, sdram, r, i)
    ensures !Bit(final[r], i)
  {
    assert Bit(final[r], i) <==> BitAfter(steps, sdram, Bit(initial[r], i), r, i);
  }
}
