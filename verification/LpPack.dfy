/** The packing of SDRAM parameters into PMC scratch registers of bdk/mem/sdram_lp0.c: the
    four macros, a run of them over the registers in place, and when what was saved can be
    read back. */
module LpPack {
  import opened Bits
  import opened LpParams

  /** The SDRAM table, parameter by parameter. */
  type Params = Param -> nat

  /** One macro call: s(param, shi:slo, reg, dhi:dlo), c(value, reg, dhi:dlo),
      s32(param, reg) and c32(value, reg).  Registers are numbered as scratch registers. */
  datatype Step =
    | S(param: Param, shi: nat, slo: nat, reg: nat, dhi: nat, dlo: nat)
    | C(value: nat, reg: nat, dhi: nat, dlo: nat)
    | S32(param: Param, reg: nat)
    | C32(value: nat, reg: nat)
  {
    /** Destination bits. */
    function Hi(): nat { if S? || C? then dhi else 31 }
    function Lo(): nat { if S? || C? then dlo else 0 }

    /** Lowest source bit: a constant is taken from its bit 0 on. */
    function From(): nat { if S? then slo else 0 }

    predicate Covers(r: nat, i: nat)
    {
      reg == r && Lo() <= i <= Hi()
    }

    predicate Meets(other: Step)
    {
      reg == other.reg && Lo() <= other.Hi() && other.Lo() <= Hi()
    }

    /** Fields lie inside 32 bits and source and destination are equally wide. */
    predicate Fits()
    {
      Lo() <= Hi() < 32 && (S? ==> slo <= shi < 32 && shi - slo == dhi - dlo)
    }

    function Source(sdram: Params): nat
    {
      if S? || S32? then sdram(param) else value
    }
  }

  /** The pack macro: clear the destination field, then or in the source field. */
  function Pack(src: nat, shi: nat, slo: nat, dst: nat, dlo: nat): nat
    requires slo <= shi < 32
  {
    var mask := Shr(0xFFFF_FFFF, 31 - (shi - slo));
    BitOr(BitAnd(dst, Not32(Shl32(mask, dlo))), Shl32(BitAnd(Shr(src, slo), mask), dlo))
  }

  /** Each bit of a packed register comes from the source field or stays. */
  lemma PackBit(src: nat, shi: nat, slo: nat, dst: nat, dlo: nat, i: nat)
    requires slo <= shi < 32 && dlo + (shi - slo) < 32 && i < 32
    ensures Bit(Pack(src, shi, slo, dst, dlo), i)
            <==> if dlo <= i <= dlo + (shi - slo) then Bit(src, i - dlo + slo) else Bit(dst, i)
  {
    var mask := Shr(0xFFFF_FFFF, 31 - (shi - slo));
    var field := BitAnd(Shr(src, slo), mask);
    OrBit(BitAnd(dst, Not32(Shl32(mask, dlo))), Shl32(field, dlo), i);
    AndBit(dst, Not32(Shl32(mask, dlo)), i);
    FlipBit(Shl32(mask, dlo), 32, i);
    Shl32Bit(mask, dlo, i);
    Shl32Bit(field, dlo, i);
    if dlo <= i {
      MaskBit(shi - slo, i - dlo);
      AndBit(Shr(src, slo), mask, i - dlo);
      ShrBit(src, slo, i - dlo);
    }
  }

  /** The new value of the register that the step writes. */
  function Written(st: Step, sdram: Params, old_: nat): nat
    requires st.Fits()
  {
    match st
    case S(param, shi, slo, _, dhi, dlo) => Pack(sdram(param), shi, slo, old_, dlo)
    case C(value, _, dhi, dlo) => Pack(value, dhi - dlo, 0, old_, dlo)
    case S32(param, _) => sdram(param)
    case C32(value, _) => value
  }

  lemma WrittenBit(st: Step, sdram: Params, old_: nat, i: nat)
    requires st.Fits() && i < 32
    ensures Bit(Written(st, sdram, old_), i)
            <==> if st.Lo() <= i <= st.Hi() then Bit(st.Source(sdram), i - st.Lo() + st.From()) else Bit(old_, i)
  {
    hide Pack, Bit;
    match st
    case S(param, shi, slo, _, dhi, dlo) => PackBit(sdram(param), shi, slo, old_, dlo, i);
    case C(value, _, dhi, dlo) => PackBit(value, dhi - dlo, 0, old_, dlo, i);
    case S32(_, _) =>
    case C32(_, _) =>
  }

  /** Bit i of register r after the steps: that of the last step to cover it, else as it was. */
  predicate BitAfter(steps: seq<Step>, sdram: Params, initial: bool, r: nat, i: nat)
  {
    if steps == [] then initial
    else
      var st := steps[|steps| - 1];
      if st.Covers(r, i) then Bit(st.Source(sdram), i - st.Lo() + st.From())
      else BitAfter(steps[..|steps| - 1], sdram, initial, r, i)
  }

  ghost predicate AllFit(steps: seq<Step>, registers: nat)
  {
    forall k :: 0 <= k < |steps| ==> steps[k].Fits() && steps[k].reg < registers
  }

  /** The registers after the steps, as far as their 32 bits go. */
  ghost predicate Saved(steps: seq<Step>, sdram: Params, initial: seq<nat>, final: seq<nat>)
  {
    |initial| == |final| &&
    forall r, i {:trigger Bit(final[r], i)} :: 0 <= r < |final| && 0 <= i < 32 ==>
      (Bit(final[r], i) <==> BitAfter(steps, sdram, Bit(initial[r], i), r, i))
  }

  /** The saving function: the steps one after the other on the registers. */
  method Save(pmc: array<nat>, steps: seq<Step>, sdram: Params)
    requires AllFit(steps, pmc.Length)
    modifies pmc
    ensures Saved(steps, sdram, old(pmc[..]), pmc[..])
  {
    for k := 0 to |steps|
      invariant Saved(steps[..k], sdram, old(pmc[..]), pmc[..])
    {
      ghost var before := pmc[..];
      Apply(pmc, steps[k], sdram);
      SavedStep(steps, sdram, old(pmc[..]), before, pmc[..], k);
    }
    assert steps[..|steps|] == steps;
  }

  /** One macro call. */
  method Apply(pmc: array<nat>, st: Step, sdram: Params)
    requires st.Fits() && st.reg < pmc.Length
    modifies pmc
    ensures pmc[..] == old(pmc[..])[st.reg := Written(st, sdram, old(pmc[st.reg]))]
  {
    match st
    case S(param, shi, slo, reg, dhi, dlo) => PackInto(pmc, sdram(param), shi, slo, reg, dlo);
    case C(value, reg, dhi, dlo) => PackInto(pmc, value, dhi - dlo, 0, reg, dlo);
    case S32(param, reg) => pmc[reg] := sdram(param);
    case C32(value, reg) => pmc[reg] := value;
  }

  /** The pack macro on a register. */
  method PackInto(pmc: array<nat>, src: nat, shi: nat, slo: nat, reg: nat, dlo: nat)
    requires slo <= shi < 32 && reg < pmc.Length
    modifies pmc
    ensures pmc[..] == old(pmc[..])[reg := Pack(src, shi, slo, old(pmc[reg]), dlo)]
  {
    var mask := Shr(0xFFFF_FFFF, 31 - (shi - slo));
    pmc[reg] := BitAnd(pmc[reg], Not32(Shl32(mask, dlo)));
    pmc[reg] := BitOr(pmc[reg], Shl32(BitAnd(Shr(src, slo), mask), dlo));
  }

  lemma SavedStep(steps: seq<Step>, sdram: Params, m0: seq<nat>, m: seq<nat>, m': seq<nat>, k: nat)
    requires k < |steps| && steps[k].Fits() && steps[k].reg < |m|
    requires Saved(steps[..k], sdram, m0, m)
    requires m' == m[steps[k].reg := Written(steps[k], sdram, m[steps[k].reg])]
    ensures Saved(steps[..k + 1], sdram, m0, m')
  {
    assert steps[..k + 1][..k] == steps[..k];
    forall r, i | 0 <= r < |m| && 0 <= i < 32
      ensures Bit(m'[r], i) <==> BitAfter(steps[..k + 1], sdram, Bit(m0[r], i), r, i)
    {
      assert Bit(m[r], i) <==> BitAfter(steps[..k], sdram, Bit(m0[r], i), r, i);
      if r == steps[k].reg {
        WrittenBit(steps[k], sdram, m[r], i);
      }
    }
  }

  /** What is read back from bits hi .. lo of a word. */
  function Field(x: nat, hi: nat, lo: nat): nat
    requires lo <= hi < 32
  {
    BitAnd(Shr(x, lo), Shr(0xFFFF_FFFF, 31 - (hi - lo)))
  }

  lemma FieldBit(x: nat, hi: nat, lo: nat, i: nat)
    requires lo <= hi < 32
    ensures Bit(Field(x, hi, lo), i) <==> i <= hi - lo && Bit(x, i + lo)
  {
    AndBit(Shr(x, lo), Shr(0xFFFF_FFFF, 31 - (hi - lo)), i);
    ShrBit(x, lo, i);
    MaskBit(hi - lo, i);
  }

  /** As numbers: divided by the weight of bit lo, and the rest of that. */
  lemma FieldIs(x: nat, hi: nat, lo: nat)
    requires lo <= hi < 32
    ensures Pow2(lo) > 0 && Pow2(hi - lo + 1) > 0 && Field(x, hi, lo) == x / Pow2(lo) % Pow2(hi - lo + 1)
  {
    ShrIs(x, lo);
    LowIs(Shr(x, lo), hi - lo + 1);
    forall i: nat
      ensures Bit(Field(x, hi, lo), i) <==> Bit(Low(Shr(x, lo), hi - lo + 1), i)
    {
      FieldBit(x, hi, lo, i);
      LowBit(Shr(x, lo), hi - lo + 1, i);
      ShrBit(x, lo, i);
    }
    SameBits(Field(x, hi, lo), Low(Shr(x, lo), hi - lo + 1));
  }

  /** The four macros, as the bits of the register they write. */
  lemma MacroBits(sdram: Params, param: Param, value: nat, shi: nat, slo: nat, reg: nat, dhi: nat, dlo: nat,
                  before: nat, i: nat)
    requires slo <= shi < 32 && dlo <= dhi < 32 && shi - slo == dhi - dlo && i < 32
    ensures Bit(Written(S(param, shi, slo, reg, dhi, dlo), sdram, before), i)
            <==> if dlo <= i <= dhi then Bit(sdram(param), i - dlo + slo) else Bit(before, i)
    ensures Bit(Written(C(value, reg, dhi, dlo), sdram, before), i)
            <==> if dlo <= i <= dhi then Bit(value, i - dlo) else Bit(before, i)
    ensures Written(S32(param, reg), sdram, before) == sdram(param)
    ensures Written(C32(value, reg), sdram, before) == value
  {
    hide Bit;
    WrittenBit(S(param, shi, slo, reg, dhi, dlo), sdram, before, i);
    WrittenBit(C(value, reg, dhi, dlo), sdram, before, i);
  }

  lemma {:induction false} LastWriter(steps: seq<Step>, sdram: Params, initial: bool, k: nat, i: nat)
    requires k < |steps| && steps[k].Covers(steps[k].reg, i)
    requires forall l :: k < l < |steps| ==> !steps[k].Meets(steps[l])
    ensures BitAfter(steps, sdram, initial, steps[k].reg, i) <==>
        Bit(steps[k].Source(sdram), i - steps[k].Lo() + steps[k].From())
    decreases |steps|
  {
    var n := |steps| - 1;
    if k < n {
      assert !steps[k].Meets(steps[n]);
      LastWriter(steps[..n], sdram, initial, k, i);
    }
  }

  /** A field that no later step touches is read back as it was in the source. */
  lemma Recovered(steps: seq<Step>, sdram: Params, initial: seq<nat>, final: seq<nat>, k: nat)
    requires AllFit(steps, |final|) && Saved(steps, sdram, initial, final) && k < |steps|
    requires forall l :: k < l < |steps| ==> !steps[k].Meets(steps[l])
    ensures var st := steps[k];
            Field(final[st.reg], st.Hi(), st.Lo())
            == Field(st.Source(sdram), st.From() + (st.Hi() - st.Lo()), st.From())
  {
    var st := steps[k];
    assert st.Fits();
    var x, y := Field(final[st.reg], st.Hi(), st.Lo()),
      Field(st.Source(sdram), st.From() + (st.Hi() - st.Lo()), st.From());
    forall i: nat
      ensures Bit(x, i) <==> Bit(y, i)
    {
      FieldBit(final[st.reg], st.Hi(), st.Lo(), i);
      FieldBit(st.Source(sdram), st.From() + (st.Hi() - st.Lo()), st.From(), i);
      if i <= st.Hi() - st.Lo() {
        LastWriter(steps, sdram, Bit(initial[st.reg], i + st.Lo()), k, i + st.Lo());
        assert Bit(final[st.reg], i + st.Lo()) <==>
               BitAfter(steps, sdram, Bit(initial[st.reg], i + st.Lo()), st.reg, i + st.Lo());
      }
    }
    SameBits(x, y);
  }

  /** A bit that no step covers is left as it was. */
  lemma {:induction false} Untouched(steps: seq<Step>, sdram: Params, initial: bool, r: nat, i: nat)
    requires forall k :: 0 <= k < |steps| ==> !steps[k].Covers(r, i)
    ensures BitAfter(steps, sdram, initial, r, i) == initial
    decreases |steps|
  {
    if steps != [] {
      Untouched(steps[..|steps| - 1], sdram, initial, r, i);
    }
  }
}
