/** Which parameters the saving function of bdk/mem/sdram_lp0.c saves. */
module LpReads {
  import opened LpParams
  import opened LpPack
  import opened LpLayout
  import opened LpTable

  lemma CommonARead()
    ensures Covers(CommonA(), 0, 10)
  {
    CoversOf(Common0(), 0, 4);
    CoversOf(Common2(), 4, 5);
    CoversOf(Common3(), 5, 7);
    CoversOf(Common4(), 7, 9);
    CoversOf(Common5(), 9, 10);
    SixCover(Common0(), Common1(), Common2(), Common3(), Common4(), Common5(), 0, 4, 4, 5, 7, 9, 10);
  }

  lemma CommonBRead()
    ensures Covers(CommonB(), 10, 24)
  {
    CoversOf(Common6(), 10, 11);
    CoversOf(Common7(), 11, 12);
    CoversOf(Common8(), 12, 13);
    CoversOf(Common9(), 13, 17);
    CoversOf(Common10(), 17, 23);
    CoversOf(Common11(), 23, 24);
    SixCover(Common6(), Common7(), Common8(), Common9(), Common10(), Common11(), 10, 11, 12, 13, 17, 23, 24);
  }

  lemma CommonCRead()
    ensures Covers(CommonC(), 24, 39)
  {
    CoversOf(Common12(), 24, 25);
    CoversOf(Common13(), 25, 26);
    CoversOf(Common14(), 26, 27);
    CoversOf(Common15(), 27, 28);
    CoversOf(Common16(), 28, 34);
    CoversOf(Common17(), 34, 39);
    SixCover(Common12(), Common13(), Common14(), Common15(), Common16(), Common17(), 24, 25, 26, 27, 28, 34, 39);
  }

  lemma CommonDRead()
    ensures Covers(CommonD(), 39, 54)
  {
    CoversOf(Common18(), 39, 40);
    CoversOf(Common19(), 40, 42);
    CoversOf(Common20(), 42, 45);
    CoversOf(Common21(), 45, 48);
    CoversOf(Common22(), 48, 51);
    CoversOf(Common23(), 51, 54);
    SixCover(Common18(), Common19(), Common20(), Common21(), Common22(), Common23(), 39, 40, 42, 45, 48, 51, 54);
  }

  lemma CommonERead()
    ensures Covers(CommonE(), 54, 72)
  {
    CoversOf(Common24(), 54, 58);
    CoversOf(Common25(), 58, 62);
    CoversOf(Common26(), 62, 69);
    CoversOf(Common27(), 69, 70);
    CoversOf(Common28(), 70, 71);
    CoversOf(Common29(), 71, 72);
    SixCover(Common24(), Common25(), Common26(), Common27(), Common28(), Common29(), 54, 58, 62, 69, 70, 71, 72);
  }

  lemma CommonFRead()
    ensures Covers(CommonF(), 72, 101)
  {
    CoversOf(Common30(), 72, 77);
    CoversOf(Common31(), 77, 80);
    CoversOf(Common32(), 80, 85);
    CoversOf(Common33(), 85, 91);
    CoversOf(Common34(), 91, 95);
    CoversOf(Common35(), 95, 101);
    SixCover(Common30(), Common31(), Common32(), Common33(), Common34(), Common35(), 72, 77, 80, 85, 91, 95, 101);
  }

  lemma CommonA1Read()
    ensures Covers(CommonA1(), 0, 101)
  {
    CommonARead();
    CommonBRead();
    CommonCRead();
    CommonDRead();
    CommonERead();
    CommonFRead();
    SixCover(CommonA(), CommonB(), CommonC(), CommonD(), CommonE(), CommonF(), 0, 10, 24, 39, 54, 72, 101);
  }

  lemma CommonGRead()
    ensures Covers(CommonG(), 101, 132)
  {
    CoversOf(Common36(), 101, 107);
    CoversOf(Common37(), 107, 112);
    CoversOf(Common38(), 112, 116);
    CoversOf(Common39(), 116, 122);
    CoversOf(Common40(), 122, 126);
    CoversOf(Common41(), 126, 132);
    SixCover(Common36(), Common37(), Common38(), Common39(), Common40(), Common41(),
             101, 107, 112, 116, 122, 126, 132);
  }

  lemma CommonHRead()
    ensures Covers(CommonH(), 132, 168)
  {
    CoversOf(Common42(), 132, 138);
    CoversOf(Common43(), 138, 144);
    CoversOf(Common44(), 144, 150);
    CoversOf(Common45(), 150, 156);
    CoversOf(Common46(), 156, 162);
    CoversOf(Common47(), 162, 168);
    SixCover(Common42(), Common43(), Common44(), Common45(), Common46(), Common47(),
             132, 138, 144, 150, 156, 162, 168);
  }

  lemma CommonIRead()
    ensures Covers(CommonI(), 168, 209)
  {
    CoversOf(Common48(), 168, 173);
    CoversOf(Common49(), 173, 180);
    CoversOf(Common50(), 180, 185);
    CoversOf(Common51(), 185, 191);
    CoversOf(Common52(), 191, 199);
    CoversOf(Common53(), 199, 209);
    SixCover(Common48(), Common49(), Common50(), Common51(), Common52(), Common53(),
             168, 173, 180, 185, 191, 199, 209);
  }

  lemma CommonJRead()
    ensures Covers(CommonJ(), 209, 237)
  {
    CoversOf(Common54(), 209, 213);
    CoversOf(Common55(), 213, 217);
    CoversOf(Common56(), 217, 222);
    CoversOf(Common57(), 222, 227);
    CoversOf(Common58(), 227, 233);
    CoversOf(Common59(), 233, 237);
    SixCover(Common54(), Common55(), Common56(), Common57(), Common58(), Common59(),
             209, 213, 217, 222, 227, 233, 237);
  }

  lemma CommonKRead()
    ensures Covers(CommonK(), 237, 253)
  {
    CoversOf(Common60(), 237, 240);
    CoversOf(Common61(), 240, 243);
    CoversOf(Common62(), 243, 247);
    CoversOf(Common63(), 247, 248);
    CoversOf(Common64(), 248, 250);
    CoversOf(Common65(), 250, 253);
    SixCover(Common60(), Common61(), Common62(), Common63(), Common64(), Common65(),
             237, 240, 243, 247, 248, 250, 253);
  }

  lemma CommonLRead()
    ensures Covers(CommonL(), 253, 269)
  {
    CoversOf(Common66(), 253, 258);
    CoversOf(Common67(), 258, 261);
    CoversOf(Common68(), 261, 263);
    CoversOf(Common69(), 263, 269);
    CoversAppend(Common66(), Common67(), 253, 258, 261);
    CoversAppend(Common66() + Common67(), Common68(), 253, 261, 263);
    CoversAppend(Common66() + Common67() + Common68(), Common69(), 253, 263, 269);
    CoversAppend(Common66() + Common67() + Common68() + Common69(), Common70(), 253, 269, 269);
  }

  lemma CommonB1Read()
    ensures Covers(CommonB1(), 101, 269)
  {
    CommonGRead();
    CommonHRead();
    CommonIRead();
    CommonJRead();
    CommonKRead();
    CommonLRead();
    SixCover(CommonG(), CommonH(), CommonI(), CommonJ(), CommonK(), CommonL(), 101, 132, 168, 209, 237, 253, 269);
  }

  lemma CommonRead()
    ensures Covers(Common(), 0, 269)
  {
    CommonA1Read();
    CommonB1Read();
    CoversAppend(CommonA1(), CommonB1(), 0, 101, 269);
  }

  lemma LaterARead()
    ensures Covers(LaterA(), 269, 291)
  {
    CoversOf(Later0(), 269, 275);
    CoversOf(Later1(), 275, 281);
    CoversOf(Later2(), 281, 286);
    CoversOf(Later3(), 286, 291);
    CoversAppend(Later0(), Later1(), 269, 275, 281);
    CoversAppend(Later0() + Later1(), Later2(), 269, 281, 286);
    CoversAppend(Later0() + Later1() + Later2(), Later3(), 269, 286, 291);
  }

  lemma LaterBRead()
    ensures Covers(LaterB(), 291, 306)
  {
    CoversOf(Later4(), 291, 296);
    CoversOf(Later5(), 296, 301);
    CoversOf(Later6(), 301, 306);
    CoversAppend(Later4(), Later5(), 291, 296, 301);
    CoversAppend(Later4() + Later5(), Later6(), 291, 301, 306);
  }

  lemma LaterRead()
    ensures Covers(Later(), 269, 306)
  {
    LaterARead();
    LaterBRead();
    CoversAppend(LaterA(), LaterB(), 269, 291, 306);
  }

  lemma LpddrARead()
    ensures Covers(LpddrA(), 306, 316)
  {
    CoversOf(Lpddr0(), 306, 308);
    CoversOf(Lpddr1(), 308, 310);
    CoversOf(Lpddr2(), 310, 313);
    CoversOf(Lpddr3(), 313, 316);
    CoversAppend(Lpddr0(), Lpddr1(), 306, 308, 310);
    CoversAppend(Lpddr0() + Lpddr1(), Lpddr2(), 306, 310, 313);
    CoversAppend(Lpddr0() + Lpddr1() + Lpddr2(), Lpddr3(), 306, 313, 316);
  }

  lemma LpddrBRead()
    ensures Covers(LpddrB(), 316, 319)
  {
    CoversOf(Lpddr5(), 316, 318);
    CoversOf(Lpddr6(), 318, 319);
    CoversAppend(Lpddr4(), Lpddr5(), 316, 316, 318);
    CoversAppend(Lpddr4() + Lpddr5(), Lpddr6(), 316, 318, 319);
  }

  lemma LpddrRead()
    ensures Covers(Lpddr(), 306, 319)
  {
    LpddrARead();
    LpddrBRead();
    CoversAppend(LpddrA(), LpddrB(), 306, 316, 319);
  }

  lemma Ddr3Read()
    ensures Covers(Ddr3(), 319, 325)
  {
    CoversOf(Ddr30(), 319, 323);
    CoversOf(Ddr31(), 323, 324);
    CoversOf(Ddr32(), 324, 325);
    CoversAppend(Ddr30(), Ddr31(), 319, 323, 324);
    CoversAppend(Ddr30() + Ddr31(), Ddr32(), 319, 324, 325);
    CoversAppend(Ddr30() + Ddr31() + Ddr32(), Ddr33(), 319, 325, 325);
  }

  lemma SecureARead()
    ensures Covers(SecureA(), 325, 359)
  {
    CoversOf(Secure0(), 325, 334);
    CoversOf(Secure1(), 334, 340);
    CoversOf(Secure2(), 340, 345);
    CoversOf(Secure3(), 345, 350);
    CoversOf(Secure4(), 350, 355);
    CoversOf(Secure5(), 355, 359);
    SixCover(Secure0(), Secure1(), Secure2(), Secure3(), Secure4(), Secure5(), 325, 334, 340, 345, 350, 355, 359);
  }

  lemma SecureBRead()
    ensures Covers(SecureB(), 359, 384)
  {
    CoversOf(Secure6(), 359, 361);
    CoversOf(Secure7(), 361, 366);
    CoversOf(Secure8(), 366, 372);
    CoversOf(Secure9(), 372, 378);
    CoversOf(Secure10(), 378, 384);
    CoversAppend(Secure6(), Secure7(), 359, 361, 366);
    CoversAppend(Secure6() + Secure7(), Secure8(), 359, 366, 372);
    CoversAppend(Secure6() + Secure7() + Secure8(), Secure9(), 359, 372, 378);
    CoversAppend(Secure6() + Secure7() + Secure8() + Secure9(), Secure10(), 359, 378, 384);
  }

  lemma SecureCRead()
    ensures Covers(SecureC(), 384, 434)
  {
    CoversOf(Secure11(), 384, 390);
    CoversOf(Secure12(), 390, 401);
    CoversOf(Secure13(), 401, 412);
    CoversOf(Secure14(), 412, 423);
    CoversOf(Secure15(), 423, 434);
    CoversAppend(Secure11(), Secure12(), 384, 390, 401);
    CoversAppend(Secure11() + Secure12(), Secure13(), 384, 401, 412);
    CoversAppend(Secure11() + Secure12() + Secure13(), Secure14(), 384, 412, 423);
    CoversAppend(Secure11() + Secure12() + Secure13() + Secure14(), Secure15(), 384, 423, 434);
  }

  lemma SecureRead()
    ensures Covers(Secure(), 325, 434)
  {
    SecureARead();
    SecureBRead();
    SecureCRead();
    CoversAppend(SecureA(), SecureB(), 325, 359, 384);
    CoversAppend(SecureA() + SecureB(), SecureC(), 325, 384, 434);
  }

  lemma PllRead()
    ensures Covers(Pll(), 434, 441)
  {
    CoversOf(Pll2(), 434, 439);
    CoversOf(Pll35(), 439, 440);
    CoversOf(Pll4(), 440, 441);
    CoversAppend([C32(0, 2)], Pll2(), 434, 434, 439);
    CoversAppend([C32(0, 35)], Pll35(), 439, 439, 440);
    CoversAppend([C32(0, 4)], Pll4(), 440, 440, 441);
    CoversAppend(Cleared2(), Cleared35(), 434, 439, 440);
    CoversAppend(Cleared2() + Cleared35(), Cleared3(), 434, 440, 440);
    CoversAppend(Cleared2() + Cleared35() + Cleared3(), Cleared36(), 434, 440, 440);
    CoversAppend(Cleared2() + Cleared35() + Cleared3() + Cleared36(), Cleared4(), 434, 440, 441);
  }

  lemma FiveReads(a: seq<Step>, b: seq<Step>, c: seq<Step>, d: seq<Step>, e: seq<Step>, p: Param)
    requires Reads(a, p) || Reads(b, p) || Reads(c, p) || Reads(d, p) || Reads(e, p)
    ensures Reads(a + b + c + d + e, p)
  {
    hide Reads;
    ReadsAppend(a, b, p);
    ReadsAppend(a + b, c, p);
    ReadsAppend(a + b + c, d, p);
    ReadsAppend(a + b + c + d, e, p);
  }

  /** For every memory type the function saves some field of every parameter, except that the mode
      registers of LPDDR are saved for LPDDR2 and LPDDR4 only, and those of DDR3 for DDR3 only. */
  lemma AllSaved(memory: Memory, p: Param)
    requires p < 441
    requires p in {EmcMrwLpddr2ZcalWarmBoot, EmcWarmBootMrwExtra, EmcMrw1, EmcMrw2, EmcMrw3, EmcMrw4, EmcMrw6, EmcMrw8,
                   EmcMrw9, EmcMrw10, EmcMrw12, EmcMrw13, EmcMrw14}
             ==> memory.LpDdr2? || memory.LpDdr4?
    requires p in {EmcMrs, EmcEmrs, EmcEmrs2, EmcEmrs3, EmcWarmBootMrsExtra, EmcZqCalDdr3WarmBoot}
             ==> memory.Ddr3Memory?
    ensures Reads(Table(memory), p)
  {
    hide Reads, Common, Later, Secure, Pll, Lpddr, Ddr3;
    CommonRead();
    LaterRead();
    SecureRead();
    PllRead();
    LpddrRead();
    Ddr3Read();
    FiveReads(Common(), Later(), Switched(memory), Secure(), Pll(), p);
  }
}
