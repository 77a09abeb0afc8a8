/** What the saving function of bdk/mem/sdram_lp0.c saves can be read back.

    Up to the lemma SwitchedClean this is a certificate, table by table, that the fields of a
    table stand in ascending order of their destination bits within the given bounds.  A table of
    LpTable ends where the next field would be in another zone (LpLayout.Zone), or after twelve
    statements; its bounds are the first bit of its first field and the bit behind its last.
    Six tables at a time are joined, and the results again, up to the sections of the function.
    The results are TableKept, TableRecovered and SaveTable at the end. */
module LpSaved {
  import opened LpPack
  import opened LpLayout
  import opened LpTable

  lemma Common0Placed()
    ensures Section(Common0(), 0, 200, 231)
  {
    StretchSection(Common0(), 0, 200, 231);
  }

  lemma Common1Placed()
    ensures Section(Common1(), 0, 231, 239)
  {
    StretchSection(Common1(), 0, 231, 239);
  }

  lemma Common2Placed()
    ensures Section(Common2(), 0, 239, 256)
  {
    StretchSection(Common2(), 0, 239, 256);
  }

  lemma Common3Placed()
    ensures Section(Common3(), 0, 446, 448)
  {
    StretchSection(Common3(), 0, 446, 448);
  }

  lemma Common4Placed()
    ensures Section(Common4(), 0, 478, 480)
  {
    StretchSection(Common4(), 0, 478, 480);
  }

  lemma Common5Placed()
    ensures Section(Common5(), 0, 500, 512)
  {
    StretchSection(Common5(), 0, 500, 512);
  }

  lemma Common6Placed()
    ensures Section(Common6(), 0, 532, 544)
  {
    StretchSection(Common6(), 0, 532, 544);
  }

  lemma Common7Placed()
    ensures Section(Common7(), 0, 564, 576)
  {
    StretchSection(Common7(), 0, 564, 576);
  }

  lemma Common8Placed()
    ensures Section(Common8(), 0, 596, 608)
  {
    StretchSection(Common8(), 0, 596, 608);
  }

  lemma Common9Placed()
    ensures Section(Common9(), 0, 628, 800)
  {
    StretchSection(Common9(), 0, 628, 800);
  }

  lemma Common10Placed()
    ensures Section(Common10(), 0, 800, 992)
  {
    StretchSection(Common10(), 0, 800, 992);
  }

  lemma Common11Placed()
    ensures Section(Common11(), 0, 1856, 1887)
  {
    StretchSection(Common11(), 0, 1856, 1887);
  }

  lemma Common12Placed()
    ensures Section(Common12(), 0, 1888, 1918)
  {
    StretchSection(Common12(), 0, 1888, 1918);
  }

  lemma Common13Placed()
    ensures Section(Common13(), 0, 1920, 1950)
  {
    StretchSection(Common13(), 0, 1920, 1950);
  }

  lemma Common14Placed()
    ensures Section(Common14(), 0, 1952, 1982)
  {
    StretchSection(Common14(), 0, 1952, 1982);
  }

  lemma Common15Placed()
    ensures Section(Common15(), 0, 1984, 2013)
  {
    StretchSection(Common15(), 0, 1984, 2013);
  }

  lemma Common16Placed()
    ensures Section(Common16(), 0, 2016, 2112)
  {
    StretchSection(Common16(), 0, 2016, 2112);
  }

  lemma Common17Placed()
    ensures Section(Common17(), 0, 2112, 2204)
  {
    StretchSection(Common17(), 0, 2112, 2204);
  }

  lemma Common18Placed()
    ensures Section(Common18(), 0, 2208, 2236)
  {
    StretchSection(Common18(), 0, 2208, 2236);
  }

  lemma Common19Placed()
    ensures Section(Common19(), 0, 2239, 2268)
  {
    StretchSection(Common19(), 0, 2239, 2268);
  }

  lemma Common20Placed()
    ensures Section(Common20(), 0, 2271, 2335)
  {
    StretchSection(Common20(), 0, 2271, 2335);
  }

  lemma Common21Placed()
    ensures Section(Common21(), 0, 2335, 2398)
  {
    StretchSection(Common21(), 0, 2335, 2398);
  }

  lemma Common22Placed()
    ensures Section(Common22(), 0, 2398, 2462)
  {
    StretchSection(Common22(), 0, 2398, 2462);
  }

  lemma Common23Placed()
    ensures Section(Common23(), 0, 2462, 2528)
  {
    StretchSection(Common23(), 0, 2462, 2528);
  }

  lemma Common24Placed()
    ensures Section(Common24(), 0, 2528, 2592)
  {
    StretchSection(Common24(), 0, 2528, 2592);
  }

  lemma Common25Placed()
    ensures Section(Common25(), 0, 2592, 2654)
  {
    StretchSection(Common25(), 0, 2592, 2654);
  }

  lemma Common26Placed()
    ensures Section(Common26(), 0, 2654, 2776)
  {
    StretchSection(Common26(), 0, 2654, 2776);
  }

  lemma Common27Placed()
    ensures Section(Common27(), 0, 2784, 2808)
  {
    StretchSection(Common27(), 0, 2784, 2808);
  }

  lemma Common28Placed()
    ensures Section(Common28(), 0, 2816, 2840)
  {
    StretchSection(Common28(), 0, 2816, 2840);
  }

  lemma Common29Placed()
    ensures Section(Common29(), 0, 2848, 2872)
  {
    StretchSection(Common29(), 0, 2848, 2872);
  }

  lemma Common30Placed()
    ensures Section(Common30(), 0, 2880, 2949)
  {
    StretchSection(Common30(), 0, 2880, 2949);
  }

  lemma Common31Placed()
    ensures Section(Common31(), 0, 2949, 3007)
  {
    StretchSection(Common31(), 0, 2949, 3007);
  }

  lemma Common32Placed()
    ensures Section(Common32(), 0, 3007, 3094)
  {
    StretchSection(Common32(), 0, 3007, 3094);
  }

  lemma Common33Placed()
    ensures Section(Common33(), 0, 3094, 3179)
  {
    StretchSection(Common33(), 0, 3094, 3179);
  }

  lemma Common34Placed()
    ensures Section(Common34(), 0, 3179, 3254)
  {
    StretchSection(Common34(), 0, 3179, 3254);
  }

  lemma Common35Placed()
    ensures Section(Common35(), 0, 3264, 3359)
  {
    StretchSection(Common35(), 0, 3264, 3359);
  }

  lemma Common36Placed()
    ensures Section(Common36(), 0, 3359, 3446)
  {
    StretchSection(Common36(), 0, 3359, 3446);
  }

  lemma Common37Placed()
    ensures Section(Common37(), 0, 3446, 3519)
  {
    StretchSection(Common37(), 0, 3446, 3519);
  }

  lemma Common38Placed()
    ensures Section(Common38(), 0, 3519, 3584)
  {
    StretchSection(Common38(), 0, 3519, 3584);
  }

  lemma Common39Placed()
    ensures Section(Common39(), 0, 3584, 3677)
  {
    StretchSection(Common39(), 0, 3584, 3677);
  }

  lemma Common40Placed()
    ensures Section(Common40(), 0, 3677, 3968)
  {
    StretchSection(Common40(), 0, 3677, 3968);
  }

  lemma Common41Placed()
    ensures Section(Common41(), 0, 3968, 4061)
  {
    StretchSection(Common41(), 0, 3968, 4061);
  }

  lemma Common42Placed()
    ensures Section(Common42(), 0, 4061, 4150)
  {
    StretchSection(Common42(), 0, 4061, 4150);
  }

  lemma Common43Placed()
    ensures Section(Common43(), 0, 4150, 4235)
  {
    StretchSection(Common43(), 0, 4150, 4235);
  }

  lemma Common44Placed()
    ensures Section(Common44(), 0, 4235, 4320)
  {
    StretchSection(Common44(), 0, 4235, 4320);
  }

  lemma Common45Placed()
    ensures Section(Common45(), 0, 4320, 4412)
  {
    StretchSection(Common45(), 0, 4320, 4412);
  }

  lemma Common46Placed()
    ensures Section(Common46(), 0, 4412, 4502)
  {
    StretchSection(Common46(), 0, 4412, 4502);
  }

  lemma Common47Placed()
    ensures Section(Common47(), 0, 4502, 4598)
  {
    StretchSection(Common47(), 0, 4502, 4598);
  }

  lemma Common48Placed()
    ensures Section(Common48(), 0, 4598, 4672)
  {
    StretchSection(Common48(), 0, 4598, 4672);
  }

  lemma Common49Placed()
    ensures Section(Common49(), 0, 4672, 4764)
  {
    StretchSection(Common49(), 0, 4672, 4764);
  }

  lemma Common50Placed()
    ensures Section(Common50(), 0, 4764, 4846)
  {
    StretchSection(Common50(), 0, 4764, 4846);
  }

  lemma Common51Placed()
    ensures Section(Common51(), 0, 4846, 4938)
  {
    StretchSection(Common51(), 0, 4846, 4938);
  }

  lemma Common52Placed()
    ensures Section(Common52(), 0, 4938, 5056)
  {
    StretchSection(Common52(), 0, 4938, 5056);
  }

  lemma Common53Placed()
    ensures Section(Common53(), 0, 5056, 5190)
  {
    StretchSection(Common53(), 0, 5056, 5190);
  }

  lemma Common54Placed()
    ensures Section(Common54(), 0, 5190, 5260)
  {
    StretchSection(Common54(), 0, 5190, 5260);
  }

  lemma Common55Placed()
    ensures Section(Common55(), 0, 5260, 5310)
  {
    StretchSection(Common55(), 0, 5260, 5310);
  }

  lemma Common56Placed()
    ensures Section(Common56(), 0, 5310, 5356)
  {
    StretchSection(Common56(), 0, 5310, 5356);
  }

  lemma Common57Placed()
    ensures Section(Common57(), 0, 5356, 5404)
  {
    StretchSection(Common57(), 0, 5356, 5404);
  }

  lemma Common58Placed()
    ensures Section(Common58(), 0, 5404, 5464)
  {
    StretchSection(Common58(), 0, 5404, 5464);
  }

  lemma Common59Placed()
    ensures Section(Common59(), 0, 5464, 5513)
  {
    StretchSection(Common59(), 0, 5464, 5513);
  }

  lemma Common60Placed()
    ensures Section(Common60(), 0, 5513, 5548)
  {
    StretchSection(Common60(), 0, 5513, 5548);
  }

  lemma Common61Placed()
    ensures Section(Common61(), 0, 5548, 5586)
  {
    StretchSection(Common61(), 0, 5548, 5586);
  }

  lemma Common62Placed()
    ensures Section(Common62(), 0, 5586, 5635)
  {
    StretchSection(Common62(), 0, 5586, 5635);
  }

  lemma Common63Placed()
    ensures Section(Common63(), 0, 5635, 5676)
  {
    StretchSection(Common63(), 0, 5635, 5676);
  }

  lemma Common64Placed()
    ensures Section(Common64(), 0, 5676, 5720)
  {
    StretchSection(Common64(), 0, 5676, 5720);
  }

  lemma Common65Placed()
    ensures Section(Common65(), 0, 5720, 5780)
  {
    StretchSection(Common65(), 0, 5720, 5780);
  }

  lemma Common66Placed()
    ensures Section(Common66(), 0, 5780, 5883)
  {
    StretchSection(Common66(), 0, 5780, 5883);
  }

  lemma Common67Placed()
    ensures Section(Common67(), 0, 5883, 5934)
  {
    StretchSection(Common67(), 0, 5883, 5934);
  }

  lemma Common68Placed()
    ensures Section(Common68(), 0, 5934, 5976)
  {
    StretchSection(Common68(), 0, 5934, 5976);
  }

  lemma Common69Placed()
    ensures Section(Common69(), 0, 5976, 6080)
  {
    StretchSection(Common69(), 0, 5976, 6080);
  }

  lemma Common70Placed()
    ensures Section(Common70(), 0, 6096, 6115)
  {
    StretchSection(Common70(), 0, 6096, 6115);
  }

  lemma CommonAPlaced()
    ensures Section(CommonA(), 0, 200, 512)
  {
    Common0Placed();
    Common1Placed();
    Common2Placed();
    Common3Placed();
    Common4Placed();
    Common5Placed();
    SixAppend(Common0(), Common1(), Common2(), Common3(), Common4(), Common5(),
              0, (200, 231), (231, 239), (239, 256), (446, 448), (478, 480), (500, 512));
  }

  lemma CommonBPlaced()
    ensures Section(CommonB(), 0, 532, 1887)
  {
    Common6Placed();
    Common7Placed();
    Common8Placed();
    Common9Placed();
    Common10Placed();
    Common11Placed();
    SixAppend(Common6(), Common7(), Common8(), Common9(), Common10(), Common11(),
              0, (532, 544), (564, 576), (596, 608), (628, 800), (800, 992), (1856, 1887));
  }

  lemma CommonCPlaced()
    ensures Section(CommonC(), 0, 1888, 2204)
  {
    Common12Placed();
    Common13Placed();
    Common14Placed();
    Common15Placed();
    Common16Placed();
    Common17Placed();
    SixAppend(Common12(), Common13(), Common14(), Common15(), Common16(), Common17(),
              0, (1888, 1918), (1920, 1950), (1952, 1982), (1984, 2013), (2016, 2112), (2112, 2204));
  }

  lemma CommonDPlaced()
    ensures Section(CommonD(), 0, 2208, 2528)
  {
    Common18Placed();
    Common19Placed();
    Common20Placed();
    Common21Placed();
    Common22Placed();
    Common23Placed();
    SixAppend(Common18(), Common19(), Common20(), Common21(), Common22(), Common23(),
              0, (2208, 2236), (2239, 2268), (2271, 2335), (2335, 2398), (2398, 2462), (2462, 2528));
  }

  lemma CommonEPlaced()
    ensures Section(CommonE(), 0, 2528, 2872)
  {
    Common24Placed();
    Common25Placed();
    Common26Placed();
    Common27Placed();
    Common28Placed();
    Common29Placed();
    SixAppend(Common24(), Common25(), Common26(), Common27(), Common28(), Common29(),
              0, (2528, 2592), (2592, 2654), (2654, 2776), (2784, 2808), (2816, 2840), (2848, 2872));
  }

  lemma CommonFPlaced()
    ensures Section(CommonF(), 0, 2880, 3359)
  {
    Common30Placed();
    Common31Placed();
    Common32Placed();
    Common33Placed();
    Common34Placed();
    Common35Placed();
    SixAppend(Common30(), Common31(), Common32(), Common33(), Common34(), Common35(),
              0, (2880, 2949), (2949, 3007), (3007, 3094), (3094, 3179), (3179, 3254), (3264, 3359));
  }

  lemma CommonGPlaced()
    ensures Section(CommonG(), 0, 3359, 4061)
  {
    Common36Placed();
    Common37Placed();
    Common38Placed();
    Common39Placed();
    Common40Placed();
    Common41Placed();
    SixAppend(Common36(), Common37(), Common38(), Common39(), Common40(), Common41(),
              0, (3359, 3446), (3446, 3519), (3519, 3584), (3584, 3677), (3677, 3968), (3968, 4061));
  }

  lemma CommonHPlaced()
    ensures Section(CommonH(), 0, 4061, 4598)
  {
    Common42Placed();
    Common43Placed();
    Common44Placed();
    Common45Placed();
    Common46Placed();
    Common47Placed();
    SixAppend(Common42(), Common43(), Common44(), Common45(), Common46(), Common47(),
              0, (4061, 4150), (4150, 4235), (4235, 4320), (4320, 4412), (4412, 4502), (4502, 4598));
  }

  lemma CommonIPlaced()
    ensures Section(CommonI(), 0, 4598, 5190)
  {
    Common48Placed();
    Common49Placed();
    Common50Placed();
    Common51Placed();
    Common52Placed();
    Common53Placed();
    SixAppend(Common48(), Common49(), Common50(), Common51(), Common52(), Common53(),
              0, (4598, 4672), (4672, 4764), (4764, 4846), (4846, 4938), (4938, 5056), (5056, 5190));
  }

  lemma CommonJPlaced()
    ensures Section(CommonJ(), 0, 5190, 5513)
  {
    Common54Placed();
    Common55Placed();
    Common56Placed();
    Common57Placed();
    Common58Placed();
    Common59Placed();
    SixAppend(Common54(), Common55(), Common56(), Common57(), Common58(), Common59(),
              0, (5190, 5260), (5260, 5310), (5310, 5356), (5356, 5404), (5404, 5464), (5464, 5513));
  }

  lemma CommonKPlaced()
    ensures Section(CommonK(), 0, 5513, 5780)
  {
    Common60Placed();
    Common61Placed();
    Common62Placed();
    Common63Placed();
    Common64Placed();
    Common65Placed();
    SixAppend(Common60(), Common61(), Common62(), Common63(), Common64(), Common65(),
              0, (5513, 5548), (5548, 5586), (5586, 5635), (5635, 5676), (5676, 5720), (5720, 5780));
  }

  lemma CommonLPlaced()
    ensures Section(CommonL(), 0, 5780, 6115)
  {
    Common66Placed();
    Common67Placed();
    Common68Placed();
    Common69Placed();
    Common70Placed();
    SectionAppend(Common66(), Common67(), 0, 5780, 5883, 5883, 5934);
    SectionAppend(Common66() + Common67(), Common68(), 0, 5780, 5934, 5934, 5976);
    SectionAppend(Common66() + Common67() + Common68(), Common69(), 0, 5780, 5976, 5976, 6080);
    SectionAppend(Common66() + Common67() + Common68() + Common69(), Common70(), 0, 5780, 6080, 6096, 6115);
  }

  lemma CommonA1Placed()
    ensures Section(CommonA1(), 0, 200, 3359)
  {
    CommonAPlaced();
    CommonBPlaced();
    CommonCPlaced();
    CommonDPlaced();
    CommonEPlaced();
    CommonFPlaced();
    SixAppend(CommonA(), CommonB(), CommonC(), CommonD(), CommonE(), CommonF(),
              0, (200, 512), (532, 1887), (1888, 2204), (2208, 2528), (2528, 2872), (2880, 3359));
  }

  lemma CommonB1Placed()
    ensures Section(CommonB1(), 0, 3359, 6115)
  {
    CommonGPlaced();
    CommonHPlaced();
    CommonIPlaced();
    CommonJPlaced();
    CommonKPlaced();
    CommonLPlaced();
    SixAppend(CommonG(), CommonH(), CommonI(), CommonJ(), CommonK(), CommonL(),
              0, (3359, 4061), (4061, 4598), (4598, 5190), (5190, 5513), (5513, 5780), (5780, 6115));
  }

  lemma Later0Placed()
    ensures Section(Later0(), 1, 286, 1024)
  {
    FieldsSection(Later0(), 1, 286, 1024);
  }

  lemma Later1Placed()
    ensures Section(Later1(), 1, 1024, 1472)
  {
    FieldsSection(Later1(), 1, 1024, 1472);
  }

  lemma Later2Placed()
    ensures Section(Later2(), 1, 1472, 1664)
  {
    FieldsSection(Later2(), 1, 1472, 1664);
  }

  lemma Later3Placed()
    ensures Section(Later3(), 1, 1792, 1920)
  {
    FieldsSection(Later3(), 1, 1792, 1920);
  }

  lemma Later4Placed()
    ensures Section(Later4(), 1, 1950, 2016)
  {
    FieldsSection(Later4(), 1, 1950, 2016);
  }

  lemma Later5Placed()
    ensures Section(Later5(), 1, 2204, 2784)
  {
    FieldsSection(Later5(), 1, 2204, 2784);
  }

  lemma Later6Placed()
    ensures Section(Later6(), 1, 2808, 6096)
  {
    FieldsSection(Later6(), 1, 2808, 6096);
  }

  lemma LaterAPlaced()
    ensures Section(LaterA(), 1, 286, 1920)
  {
    Later0Placed();
    Later1Placed();
    Later2Placed();
    Later3Placed();
    SectionAppend(Later0(), Later1(), 1, 286, 1024, 1024, 1472);
    SectionAppend(Later0() + Later1(), Later2(), 1, 286, 1472, 1472, 1664);
    SectionAppend(Later0() + Later1() + Later2(), Later3(), 1, 286, 1664, 1792, 1920);
  }

  lemma LaterBPlaced()
    ensures Section(LaterB(), 1, 1950, 6096)
  {
    Later4Placed();
    Later5Placed();
    Later6Placed();
    SectionAppend(Later4(), Later5(), 1, 1950, 2016, 2204, 2784);
    SectionAppend(Later4() + Later5(), Later6(), 1, 1950, 2784, 2808, 6096);
  }

  lemma LaterPlaced()
    ensures Section(Later(), 1, 286, 6096)
  {
    LaterAPlaced();
    LaterBPlaced();
    SectionAppend(LaterA(), LaterB(), 1, 286, 1920, 1950, 6096);
  }

  lemma Lpddr0Placed()
    ensures Section(Lpddr0(), 2, 160, 196)
  {
    FieldsSection(Lpddr0(), 2, 160, 196);
  }

  lemma Lpddr1Placed()
    ensures Section(Lpddr1(), 2, 196, 318)
  {
    FieldsSection(Lpddr1(), 2, 196, 318);
  }

  lemma Lpddr2Placed()
    ensures Section(Lpddr2(), 2, 320, 414)
  {
    FieldsSection(Lpddr2(), 2, 320, 414);
  }

  lemma Lpddr3Placed()
    ensures Section(Lpddr3(), 2, 416, 496)
  {
    FieldsSection(Lpddr3(), 2, 416, 496);
  }

  lemma Lpddr4Placed()
    ensures Section(Lpddr4(), 2, 496, 532)
  {
    FieldsSection(Lpddr4(), 2, 496, 532);
  }

  lemma Lpddr5Placed()
    ensures Section(Lpddr5(), 2, 544, 592)
  {
    FieldsSection(Lpddr5(), 2, 544, 592);
  }

  lemma Lpddr6Placed()
    ensures Section(Lpddr6(), 2, 592, 628)
  {
    FieldsSection(Lpddr6(), 2, 592, 628);
  }

  lemma LpddrAPlaced()
    ensures Section(LpddrA(), 2, 160, 496)
  {
    Lpddr0Placed();
    Lpddr1Placed();
    Lpddr2Placed();
    Lpddr3Placed();
    SectionAppend(Lpddr0(), Lpddr1(), 2, 160, 196, 196, 318);
    SectionAppend(Lpddr0() + Lpddr1(), Lpddr2(), 2, 160, 318, 320, 414);
    SectionAppend(Lpddr0() + Lpddr1() + Lpddr2(), Lpddr3(), 2, 160, 414, 416, 496);
  }

  lemma LpddrBPlaced()
    ensures Section(LpddrB(), 2, 496, 628)
  {
    Lpddr4Placed();
    Lpddr5Placed();
    Lpddr6Placed();
    SectionAppend(Lpddr4(), Lpddr5(), 2, 496, 532, 544, 592);
    SectionAppend(Lpddr4() + Lpddr5(), Lpddr6(), 2, 496, 592, 592, 628);
  }

  lemma LpddrPlaced()
    ensures Section(Lpddr(), 2, 160, 628)
  {
    LpddrAPlaced();
    LpddrBPlaced();
    SectionAppend(LpddrA(), LpddrB(), 2, 160, 496, 496, 628);
  }

  lemma Ddr30Placed()
    ensures Section(Ddr30(), 2, 160, 284)
  {
    FieldsSection(Ddr30(), 2, 160, 284);
  }

  lemma Ddr31Placed()
    ensures Section(Ddr31(), 2, 284, 310)
  {
    FieldsSection(Ddr31(), 2, 284, 310);
  }

  lemma Ddr32Placed()
    ensures Section(Ddr32(), 2, 310, 324)
  {
    FieldsSection(Ddr32(), 2, 310, 324);
  }

  lemma Ddr33Placed()
    ensures Section(Ddr33(), 2, 324, 332)
  {
    FieldsSection(Ddr33(), 2, 324, 332);
  }

  lemma Ddr3Placed()
    ensures Section(Ddr3(), 2, 160, 332)
  {
    Ddr30Placed();
    Ddr31Placed();
    Ddr32Placed();
    Ddr33Placed();
    SectionAppend(Ddr30(), Ddr31(), 2, 160, 284, 284, 310);
    SectionAppend(Ddr30() + Ddr31(), Ddr32(), 2, 160, 310, 310, 324);
    SectionAppend(Ddr30() + Ddr31() + Ddr32(), Ddr33(), 2, 160, 324, 324, 332);
  }

  lemma Secure0Placed()
    ensures Section(Secure0(), 3, 9856, 10055)
  {
    StretchSection(Secure0(), 3, 9856, 10055);
  }

  lemma Secure1Placed()
    ensures Section(Secure1(), 3, 10055, 10119)
  {
    StretchSection(Secure1(), 3, 10055, 10119);
  }

  lemma Secure2Placed()
    ensures Section(Secure2(), 3, 10119, 10176)
  {
    StretchSection(Secure2(), 3, 10119, 10176);
  }

  lemma Secure3Placed()
    ensures Section(Secure3(), 3, 10176, 10236)
  {
    StretchSection(Secure3(), 3, 10176, 10236);
  }

  lemma Secure4Placed()
    ensures Section(Secure4(), 3, 10236, 10912)
  {
    StretchSection(Secure4(), 3, 10236, 10912);
  }

  lemma Secure5Placed()
    ensures Section(Secure5(), 3, 10912, 10983)
  {
    StretchSection(Secure5(), 3, 10912, 10983);
  }

  lemma Secure6Placed()
    ensures Section(Secure6(), 3, 10983, 11040)
  {
    StretchSection(Secure6(), 3, 10983, 11040);
  }

  lemma Secure7Placed()
    ensures Section(Secure7(), 3, 11040, 11136)
  {
    StretchSection(Secure7(), 3, 11040, 11136);
  }

  lemma Secure8Placed()
    ensures Section(Secure8(), 3, 11136, 11247)
  {
    StretchSection(Secure8(), 3, 11136, 11247);
  }

  lemma Secure9Placed()
    ensures Section(Secure9(), 3, 11247, 11328)
  {
    StretchSection(Secure9(), 3, 11247, 11328);
  }

  lemma Secure10Placed()
    ensures Section(Secure10(), 3, 11328, 11420)
  {
    StretchSection(Secure10(), 3, 11328, 11420);
  }

  lemma Secure11Placed()
    ensures Section(Secure11(), 3, 11420, 11616)
  {
    StretchSection(Secure11(), 3, 11420, 11616);
  }

  lemma Secure12Placed()
    ensures Section(Secure12(), 3, 11616, 11968)
  {
    StretchSection(Secure12(), 3, 11616, 11968);
  }

  lemma Secure13Placed()
    ensures Section(Secure13(), 3, 11968, 12352)
  {
    StretchSection(Secure13(), 3, 11968, 12352);
  }

  lemma Secure14Placed()
    ensures Section(Secure14(), 3, 12352, 12704)
  {
    StretchSection(Secure14(), 3, 12352, 12704);
  }

  lemma Secure15Placed()
    ensures Section(Secure15(), 3, 12704, 13056)
  {
    StretchSection(Secure15(), 3, 12704, 13056);
  }

  lemma SecureAPlaced()
    ensures Section(SecureA(), 3, 9856, 10983)
  {
    Secure0Placed();
    Secure1Placed();
    Secure2Placed();
    Secure3Placed();
    Secure4Placed();
    Secure5Placed();
    SixAppend(Secure0(), Secure1(), Secure2(), Secure3(), Secure4(), Secure5(),
              3, (9856, 10055), (10055, 10119), (10119, 10176), (10176, 10236), (10236, 10912), (10912, 10983));
  }

  lemma SecureBPlaced()
    ensures Section(SecureB(), 3, 10983, 11420)
  {
    Secure6Placed();
    Secure7Placed();
    Secure8Placed();
    Secure9Placed();
    Secure10Placed();
    SectionAppend(Secure6(), Secure7(), 3, 10983, 11040, 11040, 11136);
    SectionAppend(Secure6() + Secure7(), Secure8(), 3, 10983, 11136, 11136, 11247);
    SectionAppend(Secure6() + Secure7() + Secure8(), Secure9(), 3, 10983, 11247, 11247, 11328);
    SectionAppend(Secure6() + Secure7() + Secure8() + Secure9(), Secure10(), 3, 10983, 11328, 11328, 11420);
  }

  lemma SecureCPlaced()
    ensures Section(SecureC(), 3, 11420, 13056)
  {
    Secure11Placed();
    Secure12Placed();
    Secure13Placed();
    Secure14Placed();
    Secure15Placed();
    SectionAppend(Secure11(), Secure12(), 3, 11420, 11616, 11616, 11968);
    SectionAppend(Secure11() + Secure12(), Secure13(), 3, 11420, 11968, 11968, 12352);
    SectionAppend(Secure11() + Secure12() + Secure13(), Secure14(), 3, 11420, 12352, 12352, 12704);
    SectionAppend(Secure11() + Secure12() + Secure13() + Secure14(), Secure15(), 3, 11420, 12704, 12704, 13056);
  }

  lemma SecurePlaced()
    ensures Section(Secure(), 3, 9856, 13056)
  {
    SecureAPlaced();
    SecureBPlaced();
    SecureCPlaced();
    SectionAppend(SecureA(), SecureB(), 3, 9856, 10983, 10983, 11420);
    SectionAppend(SecureA() + SecureB(), SecureC(), 3, 9856, 11420, 11420, 13056);
  }

  lemma Pll2Placed()
    ensures Section(Pll2(), 4, 64, 88)
  {
    StretchSection(Pll2(), 4, 64, 88);
  }

  lemma Pll35Placed()
    ensures Section(Pll35(), 5, 1120, 1136)
  {
    StretchSection(Pll35(), 5, 1120, 1136);
  }

  lemma Pll3Placed()
    ensures Section(Pll3(), 6, 96, 120)
  {
    StretchSection(Pll3(), 6, 96, 120);
  }

  lemma Pll36Placed()
    ensures Section(Pll36(), 7, 1152, 1176)
  {
    StretchSection(Pll36(), 7, 1152, 1176);
  }

  lemma Pll4Placed()
    ensures Section(Pll4(), 8, 128, 138)
  {
    StretchSection(Pll4(), 8, 128, 138);
  }

  lemma SwitchedClean(memory: Memory)
    ensures Clean(Switched(memory), 2, 3)
  {
    LpddrPlaced();
    SectionClean(Lpddr(), 2, 160, 628);
    Ddr3Placed();
    SectionClean(Ddr3(), 2, 160, 332);
  }

  lemma PllClean()
    ensures Clean(Pll(), 4, 9)
  {
    Pll2Placed();
    ClearedKept(2, Pll2(), 4, 64, 88);
    Pll35Placed();
    ClearedKept(35, Pll35(), 5, 1120, 1136);
    Pll3Placed();
    ClearedKept(3, Pll3(), 6, 96, 120);
    Pll36Placed();
    ClearedKept(36, Pll36(), 7, 1152, 1176);
    Pll4Placed();
    ClearedKept(4, Pll4(), 8, 128, 138);
    FiveKept(Cleared2(), Cleared35(), Cleared3(), Cleared36(), Cleared4(), 4, 9);
  }

  lemma CommonOf(xs: seq<Step>, ys: seq<Step>)
    requires Section(xs, 0, 200, 3359) && Section(ys, 0, 3359, 6115)
    ensures Clean(xs + ys, 0, 1) && Section(xs + ys, 0, 200, 6115)
  {
    SectionAppend(xs, ys, 0, 200, 3359, 3359, 6115);
    SectionClean(xs + ys, 0, 200, 6115);
  }

  lemma LaterClean()
    ensures Clean(Later(), 1, 2)
  {
    LaterPlaced();
    SectionClean(Later(), 1, 286, 6096);
  }

  lemma SecureClean()
    ensures Clean(Secure(), 3, 4)
  {
    SecurePlaced();
    SectionClean(Secure(), 3, 9856, 13056);
  }

  /** Whatever the memory type, no field is overwritten by a later one; only the five clearing
      writes are. */
  lemma TableKept(memory: Memory)
    ensures Kept(Table(memory)) && AllFit(Table(memory), REGISTERS)
  {
    CommonA1Placed();
    CommonB1Placed();
    CommonOf(CommonA1(), CommonB1());
    LaterClean();
    SwitchedClean(memory);
    SecureClean();
    PllClean();
    SectionsKept(CommonA1() + CommonB1(), Later(), Switched(memory), Secure(), Pll());
  }

  /** For every memory type, all parameters and all old register contents: after the saving
      function each field that it packs is read back from its register unchanged. */
  lemma TableRecovered(memory: Memory, sdram: Params, initial: seq<nat>, final: seq<nat>)
    requires |final| == REGISTERS && Saved(Table(memory), sdram, initial, final)
    ensures AllReadBack(Table(memory), sdram, final)
  {
    TableKept(memory);
    KeptRecovered(Table(memory), sdram, initial, final);
  }

  /** The saving function as a run of statements. */
  method Statements(memory: Memory) returns (steps: seq<Step>)
    ensures steps == Table(memory) && Kept(steps) && AllFit(steps, REGISTERS)
  {
    TableKept(memory);
    steps := Table(memory);
  }

  /** The statements carried out on the registers in place: every bit is that of the last one to
      cover it, and every field but those of the clearing ones is read back as it was in the
      source. */
  method SaveParams(pmc: array<nat>, steps: seq<Step>, sdram: Params)
    requires Kept(steps) && AllFit(steps, pmc.Length)
    modifies pmc
    ensures Saved(steps, sdram, old(pmc[..]), pmc[..]) && AllReadBack(steps, sdram, pmc[..])
  {
    Save(pmc, steps, sdram);
    KeptRecovered(steps, sdram, old(pmc[..]), pmc[..]);
  }

  /** The saving function: the registers after it, and what is read back from them. */
  method SaveTable(pmc: array<nat>, memory: Memory, sdram: Params)
    requires pmc.Length == REGISTERS
    modifies pmc
    ensures Saved(Table(memory), sdram, old(pmc[..]), pmc[..]) && AllReadBack(Table(memory), sdram, pmc[..])
  {
    hide *;
    var steps := Statements(memory);
    SaveParams(pmc, steps, sdram);
  }
}
