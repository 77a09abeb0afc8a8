/** The statements of _sdram_lp0_save_params_t210 that write registers, all of them and in their
    order, in tables of at most twelve.  That what they save can be read back is in LpSaved. */
module LpTable {
  import opened LpParams
  import opened LpPack

  /** sdram->MemoryType, as far as the switch at sdram_lp0.c:841 tells values apart. */
  datatype Memory = LpDdr2 | LpDdr4 | Ddr3Memory | OtherMemory

  /** sdram_lp0.c:144-152 */
  function Common0(): seq<Step>
  {
    [
      S(EmcClockSource, 7, 0, 6, 15, 8), S(EmcClockSourceDll, 7, 0, 6, 23, 16), S(EmcClockSource, 31, 29, 6, 26, 24),
      S(EmcClockSourceDll, 31, 29, 6, 29, 27), S(EmcClockSourceDll, 11, 10, 6, 31, 30),
      S(ClkRstControllerPllmMisc2Override, 9, 8, 7, 1, 0), S(ClkRstControllerPllmMisc2Override, 2, 1, 7, 3, 2),
      S(EmcZqCalLpDdr4WarmBoot, 31, 30, 7, 5, 4), S(EmcClockSource, 15, 15, 7, 6, 6)
    ]
  }

  /** sdram_lp0.c:153-160 */
  function Common1(): seq<Step>
  {
    [
      S(EmcClockSource, 26, 26, 7, 7, 7), S(EmcClockSource, 20, 20, 7, 8, 8), S(EmcClockSource, 19, 19, 7, 9, 9),
      S(ClkRstControllerPllmMisc2Override, 13, 13, 7, 10, 10),
      S(ClkRstControllerPllmMisc2Override, 12, 12, 7, 11, 11),
      S(ClkRstControllerPllmMisc2Override, 11, 11, 7, 12, 12),
      S(ClkRstControllerPllmMisc2Override, 10, 10, 7, 13, 13), S(ClkRstControllerPllmMisc2Override, 5, 5, 7, 14, 14)
    ]
  }

  /** sdram_lp0.c:161-168 */
  function Common2(): seq<Step>
  {
    [
      S(ClkRstControllerPllmMisc2Override, 4, 4, 7, 15, 15), S(ClkRstControllerPllmMisc2Override, 3, 3, 7, 16, 16),
      S(ClkRstControllerPllmMisc2Override, 0, 0, 7, 17, 17), S(EmcZqCalLpDdr4WarmBoot, 1, 0, 7, 19, 18),
      S(EmcZqCalLpDdr4WarmBoot, 4, 4, 7, 20, 20), S(EmcOdtWrite, 5, 0, 7, 26, 21), S(EmcOdtWrite, 11, 8, 7, 30, 27),
      S(EmcOdtWrite, 31, 31, 7, 31, 31)
    ]
  }

  /** sdram_lp0.c:169-170 */
  function Common3(): seq<Step>
  {
    [
      S(EmcFdpdCtrlCmdNoRamp, 0, 0, 13, 30, 30), S(EmcCfgPipeClk, 0, 0, 13, 31, 31)
    ]
  }

  /** sdram_lp0.c:171-172 */
  function Common4(): seq<Step>
  {
    [
      S(McEmemArbMisc2, 0, 0, 14, 30, 30), S(McDaCfg0, 0, 0, 14, 31, 31)
    ]
  }

  /** sdram_lp0.c:173-174 */
  function Common5(): seq<Step>
  {
    [
      S(EmcQRst, 6, 0, 15, 26, 20), S(EmcQRst, 20, 16, 15, 31, 27)
    ]
  }

  /** sdram_lp0.c:175-176 */
  function Common6(): seq<Step>
  {
    [
      S(EmcPmacroCmdTxDrv, 5, 0, 16, 25, 20), S(EmcPmacroCmdTxDrv, 13, 8, 16, 31, 26)
    ]
  }

  /** sdram_lp0.c:177-180 */
  function Common7(): seq<Step>
  {
    [
      S(EmcPmacroAutocalCfg0, 2, 0, 17, 22, 20), S(EmcPmacroAutocalCfg0, 10, 8, 17, 25, 23),
      S(EmcPmacroAutocalCfg0, 18, 16, 17, 28, 26), S(EmcPmacroAutocalCfg0, 26, 24, 17, 31, 29)
    ]
  }

  /** sdram_lp0.c:181-184 */
  function Common8(): seq<Step>
  {
    [
      S(EmcPmacroAutocalCfg1, 2, 0, 18, 22, 20), S(EmcPmacroAutocalCfg1, 10, 8, 18, 25, 23),
      S(EmcPmacroAutocalCfg1, 18, 16, 18, 28, 26), S(EmcPmacroAutocalCfg1, 26, 24, 18, 31, 29)
    ]
  }

  /** sdram_lp0.c:185-191 */
  function Common9(): seq<Step>
  {
    [
      S(EmcPmacroAutocalCfg2, 2, 0, 19, 22, 20), S(EmcPmacroAutocalCfg2, 10, 8, 19, 25, 23),
      S(EmcPmacroAutocalCfg2, 18, 16, 19, 28, 26), S(EmcPmacroAutocalCfg2, 26, 24, 19, 31, 29), S32(EmcCfgRsv, 22),
      S32(EmcAutoCalConfig, 23), S32(EmcAutoCalVrefSel0, 24)
    ]
  }

  /** sdram_lp0.c:192-197 */
  function Common10(): seq<Step>
  {
    [
      S32(EmcPmacroBrickCtrlRfu1, 25), S32(EmcPmacroBrickCtrlRfu2, 26), S32(EmcPmcScratch1, 27),
      S32(EmcPmcScratch2, 28), S32(EmcPmcScratch3, 29), S32(McEmemArbDaTurns, 30)
    ]
  }

  /** sdram_lp0.c:198-202 */
  function Common11(): seq<Step>
  {
    [
      S(EmcFbioSpare, 31, 24, 58, 7, 0), S(EmcFbioSpare, 23, 16, 58, 15, 8), S(EmcFbioSpare, 15, 8, 58, 23, 16),
      S(EmcFbioSpare, 7, 2, 58, 29, 24), S(EmcFbioSpare, 0, 0, 58, 30, 30)
    ]
  }

  /** sdram_lp0.c:203 */
  function Common12(): seq<Step>
  {
    [
      S(EmcDllCfg0, 29, 0, 59, 29, 0)
    ]
  }

  /** sdram_lp0.c:204-206 */
  function Common13(): seq<Step>
  {
    [
      S(EmcPmacroDdllBypass, 11, 0, 60, 11, 0), S(EmcPmacroDdllBypass, 27, 13, 60, 26, 12),
      S(EmcPmacroDdllBypass, 31, 29, 60, 29, 27)
    ]
  }

  /** sdram_lp0.c:207-208 */
  function Common14(): seq<Step>
  {
    [
      S(McEmemArbMisc0, 14, 0, 61, 14, 0), S(McEmemArbMisc0, 30, 16, 61, 29, 15)
    ]
  }

  /** sdram_lp0.c:209-210 */
  function Common15(): seq<Step>
  {
    [
      S(EmcFdpdCtrlCmd, 16, 0, 62, 16, 0), S(EmcFdpdCtrlCmd, 31, 20, 62, 28, 17)
    ]
  }

  /** sdram_lp0.c:211-219 */
  function Common16(): seq<Step>
  {
    [
      S(EmcAutoCalConfig2, 27, 0, 63, 27, 0), S(EmcBurstRefreshNum, 3, 0, 63, 31, 28),
      S(EmcPmacroZctrl, 27, 0, 64, 27, 0), S(EmcTppd, 3, 0, 64, 31, 28), S(EmcCfgDigDll, 10, 0, 65, 10, 0),
      S(EmcCfgDigDll, 25, 12, 65, 24, 11), S(EmcCfgDigDll, 27, 27, 65, 25, 25), S(EmcCfgDigDll, 31, 30, 65, 27, 26),
      S(EmcR2r, 3, 0, 65, 31, 28)
    ]
  }

  /** sdram_lp0.c:220-228 */
  function Common17(): seq<Step>
  {
    [
      S(EmcFdpdCtrlDq, 16, 0, 66, 16, 0), S(EmcFdpdCtrlDq, 28, 20, 66, 25, 17), S(EmcFdpdCtrlDq, 31, 30, 66, 27, 26),
      S(EmcW2w, 3, 0, 66, 31, 28), S(EmcPmacroTxPwrd4, 13, 0, 67, 13, 0), S(EmcPmacroTxPwrd4, 29, 16, 67, 27, 14),
      S(EmcPmacroCommonPadTxCtrl, 3, 0, 67, 31, 28), S(EmcPmacroTxPwrd5, 13, 0, 68, 13, 0),
      S(EmcPmacroTxPwrd5, 29, 16, 68, 27, 14)
    ]
  }

  /** sdram_lp0.c:229-233 */
  function Common18(): seq<Step>
  {
    [
      S(EmcPmacroDdllPwrd0, 4, 0, 69, 4, 0), S(EmcPmacroDdllPwrd0, 12, 6, 69, 11, 5),
      S(EmcPmacroDdllPwrd0, 20, 14, 69, 18, 12), S(EmcPmacroDdllPwrd0, 28, 22, 69, 25, 19),
      S(EmcPmacroDdllPwrd0, 31, 30, 69, 27, 26)
    ]
  }

  /** sdram_lp0.c:234-239 */
  function Common19(): seq<Step>
  {
    [
      S(EmcCfg, 4, 4, 69, 31, 31), S(EmcPmacroDdllPwrd1, 4, 0, 70, 4, 0), S(EmcPmacroDdllPwrd1, 12, 6, 70, 11, 5),
      S(EmcPmacroDdllPwrd1, 20, 14, 70, 18, 12), S(EmcPmacroDdllPwrd1, 28, 22, 70, 25, 19),
      S(EmcPmacroDdllPwrd1, 31, 30, 70, 27, 26)
    ]
  }

  /** sdram_lp0.c:240-251 */
  function Common20(): seq<Step>
  {
    [
      S(EmcCfg, 5, 5, 70, 31, 31), S(EmcPmacroDdllPwrd2, 4, 0, 71, 4, 0), S(EmcPmacroDdllPwrd2, 12, 6, 71, 11, 5),
      S(EmcPmacroDdllPwrd2, 20, 14, 71, 18, 12), S(EmcPmacroDdllPwrd2, 28, 22, 71, 25, 19),
      S(EmcPmacroDdllPwrd2, 31, 30, 71, 27, 26), S(EmcFbioCfg5, 23, 20, 71, 31, 28),
      S(EmcPmacroIbVrefDq_0, 6, 0, 72, 6, 0), S(EmcPmacroIbVrefDq_0, 14, 8, 72, 13, 7),
      S(EmcPmacroIbVrefDq_0, 22, 16, 72, 20, 14), S(EmcPmacroIbVrefDq_0, 30, 24, 72, 27, 21),
      S(EmcFbioCfg5, 15, 13, 72, 30, 28)
    ]
  }

  /** sdram_lp0.c:252-263 */
  function Common21(): seq<Step>
  {
    [
      S(EmcCfg, 6, 6, 72, 31, 31), S(EmcPmacroIbVrefDq_1, 6, 0, 73, 6, 0), S(EmcPmacroIbVrefDq_1, 14, 8, 73, 13, 7),
      S(EmcPmacroIbVrefDq_1, 22, 16, 73, 20, 14), S(EmcPmacroIbVrefDq_1, 30, 24, 73, 27, 21),
      S(EmcCfg2, 5, 3, 73, 30, 28), S(EmcCfg, 7, 7, 73, 31, 31), S(EmcPmacroIbVrefDqs_0, 6, 0, 74, 6, 0),
      S(EmcPmacroIbVrefDqs_0, 14, 8, 74, 13, 7), S(EmcPmacroIbVrefDqs_0, 22, 16, 74, 20, 14),
      S(EmcPmacroIbVrefDqs_0, 30, 24, 74, 27, 21), S(EmcCfg, 17, 16, 74, 29, 28)
    ]
  }

  /** sdram_lp0.c:264-275 */
  function Common22(): seq<Step>
  {
    [
      S(EmcFbioCfg5, 1, 0, 74, 31, 30), S(EmcPmacroIbVrefDqs_1, 6, 0, 75, 6, 0),
      S(EmcPmacroIbVrefDqs_1, 14, 8, 75, 13, 7), S(EmcPmacroIbVrefDqs_1, 22, 16, 75, 20, 14),
      S(EmcPmacroIbVrefDqs_1, 30, 24, 75, 27, 21), S(EmcFbioCfg5, 3, 2, 75, 29, 28), S(EmcCfg2, 27, 26, 75, 31, 30),
      S(EmcPmacroDdllShortCmd_0, 6, 0, 76, 6, 0), S(EmcPmacroDdllShortCmd_0, 14, 8, 76, 13, 7),
      S(EmcPmacroDdllShortCmd_0, 22, 16, 76, 20, 14), S(EmcPmacroDdllShortCmd_0, 30, 24, 76, 27, 21),
      S(EmcPmacroCmdPadTxCtrl, 3, 2, 76, 29, 28)
    ]
  }

  /** sdram_lp0.c:276-287 */
  function Common23(): seq<Step>
  {
    [
      S(EmcPmacroCmdPadTxCtrl, 7, 6, 76, 31, 30), S(EmcPmacroDdllShortCmd_1, 6, 0, 77, 6, 0),
      S(EmcPmacroDdllShortCmd_1, 14, 8, 77, 13, 7), S(EmcPmacroDdllShortCmd_1, 22, 16, 77, 20, 14),
      S(EmcPmacroDdllShortCmd_1, 30, 24, 77, 27, 21), S(EmcPmacroCmdPadTxCtrl, 11, 10, 77, 29, 28),
      S(EmcPmacroCmdPadTxCtrl, 15, 14, 77, 31, 30), S(EmcAutoCalChannel, 5, 0, 78, 5, 0),
      S(EmcAutoCalChannel, 11, 8, 78, 9, 6), S(EmcAutoCalChannel, 27, 16, 78, 21, 10),
      S(EmcAutoCalChannel, 31, 29, 78, 24, 22), S(EmcConfigSampleDelay, 6, 0, 78, 31, 25)
    ]
  }

  /** sdram_lp0.c:288-299 */
  function Common24(): seq<Step>
  {
    [
      S(EmcPmacroRxTerm, 5, 0, 79, 5, 0), S(EmcPmacroRxTerm, 13, 8, 79, 11, 6),
      S(EmcPmacroRxTerm, 21, 16, 79, 17, 12), S(EmcPmacroRxTerm, 29, 24, 79, 23, 18), S(EmcRc, 7, 0, 79, 31, 24),
      S(EmcPmacroDqTxDrv, 5, 0, 80, 5, 0), S(EmcPmacroDqTxDrv, 13, 8, 80, 11, 6),
      S(EmcPmacroDqTxDrv, 21, 16, 80, 17, 12), S(EmcPmacroDqTxDrv, 29, 24, 80, 23, 18),
      S(EmcSelDpdCtrl, 5, 2, 80, 27, 24), S(EmcSelDpdCtrl, 8, 8, 80, 28, 28), S(EmcSelDpdCtrl, 18, 16, 80, 31, 29)
    ]
  }

  /** sdram_lp0.c:300-310 */
  function Common25(): seq<Step>
  {
    [
      S(EmcPmacroCaTxDrv, 5, 0, 81, 5, 0), S(EmcPmacroCaTxDrv, 13, 8, 81, 11, 6),
      S(EmcPmacroCaTxDrv, 21, 16, 81, 17, 12), S(EmcPmacroCaTxDrv, 29, 24, 81, 23, 18), S(EmcObdly, 5, 0, 81, 29, 24),
      S(EmcObdly, 29, 28, 81, 31, 30), S(EmcZcalInterval, 23, 10, 82, 13, 0), S(EmcZcalInterval, 9, 0, 82, 23, 14),
      S(EmcPmacroCmdRxTermMode, 1, 0, 82, 25, 24), S(EmcPmacroCmdRxTermMode, 5, 4, 82, 27, 26),
      S(EmcPmacroCmdRxTermMode, 9, 8, 82, 29, 28)
    ]
  }

  /** sdram_lp0.c:311-321 */
  function Common26(): seq<Step>
  {
    [
      S(EmcPmacroCmdRxTermMode, 13, 12, 82, 31, 30), S(EmcDataBrlshft0, 23, 0, 83, 23, 0),
      S(EmcPmacroDataRxTermMode, 1, 0, 83, 25, 24), S(EmcPmacroDataRxTermMode, 5, 4, 83, 27, 26),
      S(EmcPmacroDataRxTermMode, 9, 8, 83, 29, 28), S(EmcPmacroDataRxTermMode, 13, 12, 83, 31, 30),
      S(EmcDataBrlshft1, 23, 0, 84, 23, 0), S(McEmemArbTimingRc, 7, 0, 84, 31, 24),
      S(EmcDqsBrlshft0, 23, 0, 85, 23, 0), S(McEmemArbRsv, 7, 0, 85, 31, 24), S(EmcDqsBrlshft1, 23, 0, 86, 23, 0)
    ]
  }

  /** sdram_lp0.c:322-323 */
  function Common27(): seq<Step>
  {
    [
      S(EmcCfgPipe2, 11, 0, 87, 11, 0), S(EmcCfgPipe2, 27, 16, 87, 23, 12)
    ]
  }

  /** sdram_lp0.c:324-325 */
  function Common28(): seq<Step>
  {
    [
      S(EmcCfgPipe1, 11, 0, 88, 11, 0), S(EmcCfgPipe1, 27, 16, 88, 23, 12)
    ]
  }

  /** sdram_lp0.c:326-329 */
  function Common29(): seq<Step>
  {
    [
      S(EmcPmacroCmdCtrl0, 5, 0, 89, 5, 0), S(EmcPmacroCmdCtrl0, 13, 8, 89, 11, 6),
      S(EmcPmacroCmdCtrl0, 21, 16, 89, 17, 12), S(EmcPmacroCmdCtrl0, 29, 24, 89, 23, 18)
    ]
  }

  /** sdram_lp0.c:330-340 */
  function Common30(): seq<Step>
  {
    [
      S(EmcPmacroCmdCtrl1, 5, 0, 90, 5, 0), S(EmcPmacroCmdCtrl1, 13, 8, 90, 11, 6),
      S(EmcPmacroCmdCtrl1, 21, 16, 90, 17, 12), S(EmcPmacroCmdCtrl1, 29, 24, 90, 23, 18), S(EmcRas, 6, 0, 90, 30, 24),
      S(EmcCfg, 8, 8, 90, 31, 31), S(EmcPmacroVttgenCtrl2, 23, 0, 91, 23, 0), S(EmcW2p, 6, 0, 91, 30, 24),
      S(EmcCfg, 9, 9, 91, 31, 31), S(EmcPmacroCmdPadRxCtrl, 2, 0, 92, 2, 0), S(EmcPmacroCmdPadRxCtrl, 5, 4, 92, 4, 3)
    ]
  }

  /** sdram_lp0.c:341-351 */
  function Common31(): seq<Step>
  {
    [
      S(EmcPmacroCmdPadRxCtrl, 10, 8, 92, 7, 5), S(EmcPmacroCmdPadRxCtrl, 22, 12, 92, 18, 8),
      S(EmcPmacroCmdPadRxCtrl, 28, 24, 92, 23, 19), S(EmcQSafe, 6, 0, 92, 30, 24), S(EmcCfg, 18, 18, 92, 31, 31),
      S(EmcPmacroDataPadRxCtrl, 2, 0, 93, 2, 0), S(EmcPmacroDataPadRxCtrl, 5, 4, 93, 4, 3),
      S(EmcPmacroDataPadRxCtrl, 10, 8, 93, 7, 5), S(EmcPmacroDataPadRxCtrl, 22, 12, 93, 18, 8),
      S(EmcPmacroDataPadRxCtrl, 28, 24, 93, 23, 19), S(EmcRdv, 6, 0, 93, 30, 24)
    ]
  }

  /** sdram_lp0.c:352-362 */
  function Common32(): seq<Step>
  {
    [
      S(EmcCfg, 21, 21, 93, 31, 31), S(McEmemArbDaCovers, 23, 0, 94, 23, 0), S(EmcRw2Pden, 6, 0, 94, 30, 24),
      S(EmcCfg, 22, 22, 94, 31, 31), S(EmcPmacroCmdCtrl2, 5, 0, 95, 5, 0), S(EmcPmacroCmdCtrl2, 13, 9, 95, 10, 6),
      S(EmcPmacroCmdCtrl2, 21, 16, 95, 16, 11), S(EmcPmacroCmdCtrl2, 29, 24, 95, 22, 17),
      S(EmcRfcPb, 8, 0, 95, 31, 23), S(EmcPmacroQuseDdllRank0_0, 10, 0, 96, 10, 0),
      S(EmcPmacroQuseDdllRank0_0, 26, 16, 96, 21, 11)
    ]
  }

  /** sdram_lp0.c:363-372 */
  function Common33(): seq<Step>
  {
    [
      S(EmcCfgUpdate, 2, 0, 96, 24, 22), S(EmcCfgUpdate, 10, 8, 96, 27, 25), S(EmcCfgUpdate, 31, 28, 96, 31, 28),
      S(EmcPmacroQuseDdllRank0_1, 10, 0, 97, 10, 0), S(EmcPmacroQuseDdllRank0_1, 26, 16, 97, 21, 11),
      S(EmcRfc, 9, 0, 97, 31, 22), S(EmcPmacroQuseDdllRank0_2, 10, 0, 98, 10, 0),
      S(EmcPmacroQuseDdllRank0_2, 26, 16, 98, 21, 11), S(EmcTxsr, 9, 0, 98, 31, 22),
      S(EmcPmacroQuseDdllRank0_3, 10, 0, 99, 10, 0)
    ]
  }

  /** sdram_lp0.c:373-382 */
  function Common34(): seq<Step>
  {
    [
      S(EmcPmacroQuseDdllRank0_3, 26, 16, 99, 21, 11), S(EmcMc2EmcQ, 2, 0, 99, 24, 22),
      S(EmcMc2EmcQ, 10, 8, 99, 27, 25), S(EmcMc2EmcQ, 27, 24, 99, 31, 28),
      S(EmcPmacroQuseDdllRank0_4, 10, 0, 100, 10, 0), S(EmcPmacroQuseDdllRank0_4, 26, 16, 100, 21, 11),
      S(McEmemArbRing1Throttle, 4, 0, 100, 26, 22), S(McEmemArbRing1Throttle, 20, 16, 100, 31, 27),
      S(EmcPmacroQuseDdllRank0_5, 10, 0, 101, 10, 0), S(EmcPmacroQuseDdllRank0_5, 26, 16, 101, 21, 11)
    ]
  }

  /** sdram_lp0.c:383-394 */
  function Common35(): seq<Step>
  {
    [
      S(EmcPmacroQuseDdllRank1_0, 10, 0, 102, 10, 0), S(EmcPmacroQuseDdllRank1_0, 26, 16, 102, 21, 11),
      S(EmcAr2Pden, 8, 0, 102, 30, 22), S(EmcCfg, 23, 23, 102, 31, 31),
      S(EmcPmacroQuseDdllRank1_1, 10, 0, 103, 10, 0), S(EmcPmacroQuseDdllRank1_1, 26, 16, 103, 21, 11),
      S(EmcRfcSlr, 8, 0, 103, 30, 22), S(EmcCfg, 24, 24, 103, 31, 31), S(EmcPmacroQuseDdllRank1_2, 10, 0, 104, 10, 0),
      S(EmcPmacroQuseDdllRank1_2, 26, 16, 104, 21, 11), S(EmcIbdly, 6, 0, 104, 28, 22),
      S(EmcIbdly, 29, 28, 104, 30, 29)
    ]
  }

  /** sdram_lp0.c:395-406 */
  function Common36(): seq<Step>
  {
    [
      S(EmcCfg, 25, 25, 104, 31, 31), S(EmcPmacroQuseDdllRank1_3, 10, 0, 105, 10, 0),
      S(EmcPmacroQuseDdllRank1_3, 26, 16, 105, 21, 11), S(McEmemArbTimingRFCPB, 8, 0, 105, 30, 22),
      S(EmcCfg, 26, 26, 105, 31, 31), S(EmcPmacroQuseDdllRank1_4, 10, 0, 106, 10, 0),
      S(EmcPmacroQuseDdllRank1_4, 26, 16, 106, 21, 11), S(EmcTfaw, 6, 0, 106, 28, 22),
      S(EmcPmacroDataPadTxCtrl, 3, 2, 106, 30, 29), S(EmcCfg, 28, 28, 106, 31, 31),
      S(EmcPmacroQuseDdllRank1_5, 10, 0, 107, 10, 0), S(EmcPmacroQuseDdllRank1_5, 26, 16, 107, 21, 11)
    ]
  }

  /** sdram_lp0.c:407-418 */
  function Common37(): seq<Step>
  {
    [
      S(EmcTClkStable, 6, 0, 107, 28, 22), S(EmcPmacroDataPadTxCtrl, 7, 6, 107, 30, 29),
      S(EmcCfg, 29, 29, 107, 31, 31), S(EmcPmacroObDdllLongDqRank0_0, 10, 0, 108, 10, 0),
      S(EmcPmacroObDdllLongDqRank0_0, 26, 16, 108, 21, 11), S(EmcPdex2Mrr, 6, 0, 108, 28, 22),
      S(EmcPmacroDataPadTxCtrl, 11, 10, 108, 30, 29), S(EmcCfg, 30, 30, 108, 31, 31),
      S(EmcPmacroObDdllLongDqRank0_1, 10, 0, 109, 10, 0), S(EmcPmacroObDdllLongDqRank0_1, 26, 16, 109, 21, 11),
      S(EmcRdvMask, 6, 0, 109, 28, 22), S(EmcPmacroDataPadTxCtrl, 15, 14, 109, 30, 29)
    ]
  }

  /** sdram_lp0.c:419-430 */
  function Common38(): seq<Step>
  {
    [
      S(EmcCfg, 31, 31, 109, 31, 31), S(EmcPmacroObDdllLongDqRank0_2, 10, 0, 110, 10, 0),
      S(EmcPmacroObDdllLongDqRank0_2, 26, 16, 110, 21, 11), S(EmcRdvEarlyMask, 6, 0, 110, 28, 22),
      S(EmcFbioCfg5, 4, 4, 110, 29, 29), S(EmcFbioCfg5, 8, 8, 110, 30, 30), S(EmcFbioCfg5, 10, 10, 110, 31, 31),
      S(EmcPmacroObDdllLongDqRank0_3, 10, 0, 111, 10, 0), S(EmcPmacroObDdllLongDqRank0_3, 26, 16, 111, 21, 11),
      S(EmcRdvEarly, 6, 0, 111, 28, 22), S(EmcFbioCfg5, 12, 12, 111, 29, 29), S(EmcFbioCfg5, 25, 24, 111, 31, 30)
    ]
  }

  /** sdram_lp0.c:431-442 */
  function Common39(): seq<Step>
  {
    [
      S(EmcPmacroObDdllLongDqRank0_4, 10, 0, 112, 10, 0), S(EmcPmacroObDdllLongDqRank0_4, 26, 16, 112, 21, 11),
      S(EmcPmacroDdllShortCmd_2, 6, 0, 112, 28, 22), S(EmcFbioCfg5, 28, 26, 112, 31, 29),
      S(EmcPmacroObDdllLongDqRank0_5, 10, 0, 113, 10, 0), S(EmcPmacroObDdllLongDqRank0_5, 26, 16, 113, 21, 11),
      S(McEmemArbTimingRp, 6, 0, 113, 28, 22), S(EmcFbioCfg5, 31, 30, 113, 30, 29), S(EmcCfg2, 0, 0, 113, 31, 31),
      S(EmcPmacroObDdllLongDqRank1_0, 10, 0, 114, 10, 0), S(EmcPmacroObDdllLongDqRank1_0, 26, 16, 114, 21, 11),
      S(McEmemArbTimingRas, 6, 0, 114, 28, 22)
    ]
  }

  /** sdram_lp0.c:443-454 */
  function Common40(): seq<Step>
  {
    [
      S(EmcCfg2, 2, 1, 114, 30, 29), S(EmcCfg2, 7, 7, 114, 31, 31),
      S(EmcPmacroObDdllLongDqRank1_1, 10, 0, 115, 10, 0), S(EmcPmacroObDdllLongDqRank1_1, 26, 16, 115, 21, 11),
      S(McEmemArbTimingFaw, 6, 0, 115, 28, 22), S(EmcCfg2, 11, 10, 115, 30, 29), S(EmcCfg2, 14, 14, 115, 31, 31),
      S(EmcPmacroObDdllLongDqRank1_2, 10, 0, 123, 10, 0), S(EmcPmacroObDdllLongDqRank1_2, 26, 16, 123, 21, 11),
      S(McEmemArbTimingRap2Pre, 6, 0, 123, 28, 22), S(EmcCfg2, 16, 15, 123, 30, 29), S(EmcCfg2, 20, 20, 123, 31, 31)
    ]
  }

  /** sdram_lp0.c:455-466 */
  function Common41(): seq<Step>
  {
    [
      S(EmcPmacroObDdllLongDqRank1_3, 10, 0, 124, 10, 0), S(EmcPmacroObDdllLongDqRank1_3, 26, 16, 124, 21, 11),
      S(McEmemArbTimingWap2Pre, 6, 0, 124, 28, 22), S(EmcCfg2, 24, 22, 124, 31, 29),
      S(EmcPmacroObDdllLongDqRank1_4, 10, 0, 125, 10, 0), S(EmcPmacroObDdllLongDqRank1_4, 26, 16, 125, 21, 11),
      S(McEmemArbTimingR2W, 6, 0, 125, 28, 22), S(EmcCfg2, 25, 25, 125, 29, 29), S(EmcCfg2, 29, 28, 125, 31, 30),
      S(EmcPmacroObDdllLongDqRank1_5, 10, 0, 126, 10, 0), S(EmcPmacroObDdllLongDqRank1_5, 26, 16, 126, 21, 11),
      S(McEmemArbTimingW2R, 6, 0, 126, 28, 22)
    ]
  }

  /** sdram_lp0.c:467-478 */
  function Common42(): seq<Step>
  {
    [
      S(EmcCfg2, 31, 30, 126, 30, 29), S(EmcCfgPipe, 0, 0, 126, 31, 31),
      S(EmcPmacroObDdllLongDqsRank0_0, 10, 0, 127, 10, 0), S(EmcPmacroObDdllLongDqsRank0_0, 26, 16, 127, 21, 11),
      S(EmcRp, 5, 0, 127, 27, 22), S(EmcCfgPipe, 4, 1, 127, 31, 28),
      S(EmcPmacroObDdllLongDqsRank0_1, 10, 0, 128, 10, 0), S(EmcPmacroObDdllLongDqsRank0_1, 26, 16, 128, 21, 11),
      S(EmcR2w, 5, 0, 128, 27, 22), S(EmcCfgPipe, 8, 5, 128, 31, 28),
      S(EmcPmacroObDdllLongDqsRank0_2, 10, 0, 129, 10, 0), S(EmcPmacroObDdllLongDqsRank0_2, 26, 16, 129, 21, 11)
    ]
  }

  /** sdram_lp0.c:479-490 */
  function Common43(): seq<Step>
  {
    [
      S(EmcW2r, 5, 0, 129, 27, 22), S(EmcCfgPipe, 11, 9, 129, 30, 28), S(EmcCfgPipe, 16, 16, 129, 31, 31),
      S(EmcPmacroObDdllLongDqsRank0_3, 10, 0, 130, 10, 0), S(EmcPmacroObDdllLongDqsRank0_3, 26, 16, 130, 21, 11),
      S(EmcR2p, 5, 0, 130, 27, 22), S(EmcCfgPipe, 20, 17, 130, 31, 28),
      S(EmcPmacroObDdllLongDqsRank0_4, 10, 0, 131, 10, 0), S(EmcPmacroObDdllLongDqsRank0_4, 26, 16, 131, 21, 11),
      S(EmcCcdmw, 5, 0, 131, 27, 22), S(EmcCfgPipe, 24, 21, 131, 31, 28),
      S(EmcPmacroObDdllLongDqsRank0_5, 10, 0, 132, 10, 0)
    ]
  }

  /** sdram_lp0.c:491-502 */
  function Common44(): seq<Step>
  {
    [
      S(EmcPmacroObDdllLongDqsRank0_5, 26, 16, 132, 21, 11), S(EmcRdRcd, 5, 0, 132, 27, 22),
      S(EmcCfgPipe, 27, 25, 132, 30, 28), S(EmcPmacroTxPwrd0, 0, 0, 132, 31, 31),
      S(EmcPmacroObDdllLongDqsRank1_0, 10, 0, 133, 10, 0), S(EmcPmacroObDdllLongDqsRank1_0, 26, 16, 133, 21, 11),
      S(EmcWrRcd, 5, 0, 133, 27, 22), S(EmcPmacroTxPwrd0, 4, 1, 133, 31, 28),
      S(EmcPmacroObDdllLongDqsRank1_1, 10, 0, 134, 10, 0), S(EmcPmacroObDdllLongDqsRank1_1, 26, 16, 134, 21, 11),
      S(EmcWdv, 5, 0, 134, 27, 22), S(EmcPmacroTxPwrd0, 8, 5, 134, 31, 28)
    ]
  }

  /** sdram_lp0.c:503-514 */
  function Common45(): seq<Step>
  {
    [
      S(EmcPmacroObDdllLongDqsRank1_2, 10, 0, 135, 10, 0), S(EmcPmacroObDdllLongDqsRank1_2, 26, 16, 135, 21, 11),
      S(EmcQUse, 5, 0, 135, 27, 22), S(EmcPmacroTxPwrd0, 12, 9, 135, 31, 28),
      S(EmcPmacroObDdllLongDqsRank1_3, 10, 0, 136, 10, 0), S(EmcPmacroObDdllLongDqsRank1_3, 26, 16, 136, 21, 11),
      S(EmcPdEx2Wr, 5, 0, 136, 27, 22), S(EmcPmacroTxPwrd0, 13, 13, 136, 28, 28),
      S(EmcPmacroTxPwrd0, 18, 16, 136, 31, 29), S(EmcPmacroObDdllLongDqsRank1_4, 10, 0, 137, 10, 0),
      S(EmcPmacroObDdllLongDqsRank1_4, 26, 16, 137, 21, 11), S(EmcPdEx2Rd, 5, 0, 137, 27, 22)
    ]
  }

  /** sdram_lp0.c:515-526 */
  function Common46(): seq<Step>
  {
    [
      S(EmcPmacroTxPwrd0, 22, 19, 137, 31, 28), S(EmcPmacroObDdllLongDqsRank1_5, 10, 0, 138, 10, 0),
      S(EmcPmacroObDdllLongDqsRank1_5, 26, 16, 138, 21, 11), S(EmcPdex2Cke, 5, 0, 138, 27, 22),
      S(EmcPmacroTxPwrd0, 26, 23, 138, 31, 28), S(EmcPmacroIbDdllLongDqsRank0_0, 10, 0, 139, 10, 0),
      S(EmcPmacroIbDdllLongDqsRank0_0, 26, 16, 139, 21, 11), S(EmcPChg2Pden, 5, 0, 139, 27, 22),
      S(EmcPmacroTxPwrd0, 29, 27, 139, 30, 28), S(EmcPmacroTxPwrd1, 0, 0, 139, 31, 31),
      S(EmcPmacroIbDdllLongDqsRank0_1, 10, 0, 140, 10, 0), S(EmcPmacroIbDdllLongDqsRank0_1, 26, 16, 140, 21, 11)
    ]
  }

  /** sdram_lp0.c:527-538 */
  function Common47(): seq<Step>
  {
    [
      S(EmcAct2Pden, 5, 0, 140, 27, 22), S(EmcPmacroTxPwrd1, 4, 1, 140, 31, 28),
      S(EmcPmacroIbDdllLongDqsRank0_2, 10, 0, 141, 10, 0), S(EmcPmacroIbDdllLongDqsRank0_2, 26, 16, 141, 21, 11),
      S(EmcCke2Pden, 5, 0, 141, 27, 22), S(EmcPmacroTxPwrd1, 8, 5, 141, 31, 28),
      S(EmcPmacroIbDdllLongDqsRank0_3, 10, 0, 142, 10, 0), S(EmcPmacroIbDdllLongDqsRank0_3, 26, 16, 142, 21, 11),
      S(EmcTcke, 5, 0, 142, 27, 22), S(EmcPmacroTxPwrd1, 12, 9, 142, 31, 28),
      S(EmcPmacroIbDdllLongDqsRank1_0, 10, 0, 143, 10, 0), S(EmcPmacroIbDdllLongDqsRank1_0, 26, 16, 143, 21, 11)
    ]
  }

  /** sdram_lp0.c:539-550 */
  function Common48(): seq<Step>
  {
    [
      S(EmcTrpab, 5, 0, 143, 27, 22), S(EmcPmacroTxPwrd1, 13, 13, 143, 28, 28),
      S(EmcPmacroTxPwrd1, 18, 16, 143, 31, 29), S(EmcPmacroIbDdllLongDqsRank1_1, 10, 0, 144, 10, 0),
      S(EmcPmacroIbDdllLongDqsRank1_1, 26, 16, 144, 21, 11), S(EmcClkenOverride, 3, 1, 144, 24, 22),
      S(EmcClkenOverride, 8, 6, 144, 27, 25), S(EmcPmacroTxPwrd1, 22, 19, 144, 31, 28),
      S(EmcPmacroIbDdllLongDqsRank1_2, 10, 0, 145, 10, 0), S(EmcPmacroIbDdllLongDqsRank1_2, 26, 16, 145, 21, 11),
      S(EmcEInput, 5, 0, 145, 27, 22), S(EmcPmacroTxPwrd1, 26, 23, 145, 31, 28)
    ]
  }

  /** sdram_lp0.c:551-562 */
  function Common49(): seq<Step>
  {
    [
      S(EmcPmacroIbDdllLongDqsRank1_3, 10, 0, 146, 10, 0), S(EmcPmacroIbDdllLongDqsRank1_3, 26, 16, 146, 21, 11),
      S(EmcEInputDuration, 5, 0, 146, 27, 22), S(EmcPmacroTxPwrd1, 29, 27, 146, 30, 28),
      S(EmcPmacroTxPwrd2, 0, 0, 146, 31, 31), S(EmcPmacroDdllLongCmd_0, 10, 0, 147, 10, 0),
      S(EmcPmacroDdllLongCmd_0, 26, 16, 147, 21, 11), S(EmcPutermExtra, 5, 0, 147, 27, 22),
      S(EmcPmacroTxPwrd2, 4, 1, 147, 31, 28), S(EmcPmacroDdllLongCmd_1, 10, 0, 148, 10, 0),
      S(EmcPmacroDdllLongCmd_1, 26, 16, 148, 21, 11), S(EmcTckesr, 5, 0, 148, 27, 22)
    ]
  }

  /** sdram_lp0.c:563-574 */
  function Common50(): seq<Step>
  {
    [
      S(EmcPmacroTxPwrd2, 8, 5, 148, 31, 28), S(EmcPmacroDdllLongCmd_2, 10, 0, 149, 10, 0),
      S(EmcPmacroDdllLongCmd_2, 26, 16, 149, 21, 11), S(EmcTpd, 5, 0, 149, 27, 22),
      S(EmcPmacroTxPwrd2, 12, 9, 149, 31, 28), S(EmcPmacroDdllLongCmd_3, 10, 0, 150, 10, 0),
      S(EmcPmacroDdllLongCmd_3, 26, 16, 150, 21, 11), S(EmcWdvMask, 5, 0, 150, 27, 22),
      S(EmcPmacroTxPwrd2, 13, 13, 150, 28, 28), S(EmcPmacroTxPwrd2, 18, 16, 150, 31, 29),
      S(McEmemArbCfg, 8, 0, 151, 8, 0), S(McEmemArbCfg, 20, 16, 151, 13, 9)
    ]
  }

  /** sdram_lp0.c:575-586 */
  function Common51(): seq<Step>
  {
    [
      S(McEmemArbCfg, 31, 24, 151, 21, 14), S(EmcWdvChk, 5, 0, 151, 27, 22), S(EmcPmacroTxPwrd2, 22, 19, 151, 31, 28),
      S(McEmemArbMisc1, 12, 0, 152, 12, 0), S(McEmemArbMisc1, 25, 21, 152, 17, 13),
      S(McEmemArbMisc1, 31, 28, 152, 21, 18), S(EmcCmdBrlshft0, 5, 0, 152, 27, 22),
      S(EmcPmacroTxPwrd2, 26, 23, 152, 31, 28), S(EmcMrsWaitCnt2, 9, 0, 153, 9, 0),
      S(EmcMrsWaitCnt2, 26, 16, 153, 20, 10), S(EmcPmacroIbRxrt, 10, 0, 153, 31, 21),
      S(EmcMrsWaitCnt, 9, 0, 154, 9, 0)
    ]
  }

  /** sdram_lp0.c:587-598 */
  function Common52(): seq<Step>
  {
    [
      S(EmcMrsWaitCnt, 26, 16, 154, 20, 10), S(EmcPmacroDdllLongCmd_4, 10, 0, 154, 31, 21),
      S(EmcAutoCalInterval, 20, 0, 155, 20, 0), S(McEmemArbOutstandingReq, 8, 0, 155, 29, 21),
      S(McEmemArbOutstandingReq, 31, 30, 155, 31, 30), S(McEmemArbRefpbHpCtrl, 6, 0, 156, 6, 0),
      S(McEmemArbRefpbHpCtrl, 14, 8, 156, 13, 7), S(McEmemArbRefpbHpCtrl, 22, 16, 156, 20, 14),
      S(EmcCmdBrlshft1, 5, 0, 156, 26, 21), S(EmcRrd, 4, 0, 156, 31, 27), S(EmcQuseBrlshft0, 19, 0, 157, 19, 0),
      S(EmcFbioCfg8, 27, 16, 157, 31, 20)
    ]
  }

  /** sdram_lp0.c:599-610 */
  function Common53(): seq<Step>
  {
    [
      S(EmcQuseBrlshft1, 19, 0, 158, 19, 0), S(EmcTxsrDll, 11, 0, 158, 31, 20), S(EmcQuseBrlshft2, 19, 0, 159, 19, 0),
      S(EmcTxdsrvttgen, 11, 0, 159, 31, 20), S(EmcQuseBrlshft3, 19, 0, 160, 19, 0),
      S(EmcPmacroVttgenCtrl0, 3, 0, 160, 23, 20), S(EmcPmacroVttgenCtrl0, 11, 8, 160, 27, 24),
      S(EmcPmacroVttgenCtrl0, 19, 16, 160, 31, 28), S(EmcPmacroVttgenCtrl1, 19, 0, 161, 19, 0),
      S(EmcCmdBrlshft2, 5, 0, 161, 25, 20), S(EmcCmdBrlshft3, 5, 0, 161, 31, 26),
      S(EmcAutoCalConfig3, 5, 0, 162, 5, 0)
    ]
  }

  /** sdram_lp0.c:611-622 */
  function Common54(): seq<Step>
  {
    [
      S(EmcAutoCalConfig3, 13, 8, 162, 11, 6), S(EmcAutoCalConfig3, 18, 16, 162, 14, 12),
      S(EmcAutoCalConfig3, 22, 20, 162, 17, 15), S(EmcTRefBw, 13, 0, 162, 31, 18),
      S(EmcAutoCalConfig4, 5, 0, 163, 5, 0), S(EmcAutoCalConfig4, 13, 8, 163, 11, 6),
      S(EmcAutoCalConfig4, 18, 16, 163, 14, 12), S(EmcAutoCalConfig4, 22, 20, 163, 17, 15),
      S(EmcQpop, 6, 0, 163, 24, 18), S(EmcQpop, 22, 16, 163, 31, 25), S(EmcAutoCalConfig5, 5, 0, 164, 5, 0),
      S(EmcAutoCalConfig5, 13, 8, 164, 11, 6)
    ]
  }

  /** sdram_lp0.c:623-634 */
  function Common55(): seq<Step>
  {
    [
      S(EmcAutoCalConfig5, 18, 16, 164, 14, 12), S(EmcAutoCalConfig5, 22, 20, 164, 17, 15),
      S(EmcPmacroAutocalCfgCommon, 5, 0, 164, 23, 18), S(EmcPmacroAutocalCfgCommon, 13, 8, 164, 29, 24),
      S(EmcPmacroAutocalCfgCommon, 16, 16, 164, 30, 30), S(EmcPmacroTxPwrd2, 27, 27, 164, 31, 31),
      S(EmcAutoCalConfig6, 5, 0, 165, 5, 0), S(EmcAutoCalConfig6, 13, 8, 165, 11, 6),
      S(EmcAutoCalConfig6, 18, 16, 165, 14, 12), S(EmcAutoCalConfig6, 22, 20, 165, 17, 15),
      S(EmcWev, 5, 0, 165, 23, 18), S(EmcWsv, 5, 0, 165, 29, 24)
    ]
  }

  /** sdram_lp0.c:635-646 */
  function Common56(): seq<Step>
  {
    [
      S(EmcPmacroTxPwrd2, 29, 28, 165, 31, 30), S(EmcAutoCalConfig7, 5, 0, 166, 5, 0),
      S(EmcAutoCalConfig7, 13, 8, 166, 11, 6), S(EmcAutoCalConfig7, 18, 16, 166, 14, 12),
      S(EmcAutoCalConfig7, 22, 20, 166, 17, 15), S(EmcCfg3, 2, 0, 166, 20, 18), S(EmcCfg3, 6, 4, 166, 23, 21),
      S(EmcQuseWidth, 3, 0, 166, 27, 24), S(EmcQuseWidth, 29, 28, 166, 29, 28),
      S(EmcPmacroTxPwrd3, 1, 0, 166, 31, 30), S(EmcAutoCalConfig8, 5, 0, 167, 5, 0),
      S(EmcAutoCalConfig8, 13, 8, 167, 11, 6)
    ]
  }

  /** sdram_lp0.c:647-658 */
  function Common57(): seq<Step>
  {
    [
      S(EmcAutoCalConfig8, 18, 16, 167, 14, 12), S(EmcAutoCalConfig8, 22, 20, 167, 17, 15),
      S(EmcPmacroBgBiasCtrl0, 2, 0, 167, 20, 18), S(EmcPmacroBgBiasCtrl0, 6, 4, 167, 23, 21),
      S(McEmemArbTimingRcd, 5, 0, 167, 29, 24), S(EmcPmacroTxPwrd3, 3, 2, 167, 31, 30),
      S(EmcXm2CompPadCtrl2, 17, 0, 168, 17, 0), S(McEmemArbTimingCcdmw, 5, 0, 168, 23, 18),
      S(McEmemArbOverride, 27, 27, 168, 24, 24), S(McEmemArbOverride, 26, 26, 168, 25, 25),
      S(McEmemArbOverride, 16, 16, 168, 26, 26), S(McEmemArbOverride, 10, 10, 168, 27, 27)
    ]
  }

  /** sdram_lp0.c:659-670 */
  function Common58(): seq<Step>
  {
    [
      S(McEmemArbOverride, 4, 4, 168, 28, 28), S(McEmemArbOverride, 3, 3, 168, 29, 29),
      S(EmcPmacroTxPwrd3, 5, 4, 168, 31, 30), S(EmcXm2CompPadCtrl3, 17, 0, 169, 17, 0), S(EmcRext, 4, 0, 169, 22, 18),
      S(EmcTClkStop, 4, 0, 169, 27, 23), S(EmcPmacroTxPwrd3, 9, 6, 169, 31, 28), S(EmcZcalWaitCnt, 10, 0, 170, 10, 0),
      S(EmcZcalWaitCnt, 21, 16, 170, 16, 11), S(EmcZcalWaitCnt, 31, 31, 170, 17, 17), S(EmcWext, 4, 0, 170, 22, 18),
      S(EmcRefctrl2, 0, 0, 170, 23, 23)
    ]
  }

  /** sdram_lp0.c:671-682 */
  function Common59(): seq<Step>
  {
    [
      S(EmcRefctrl2, 26, 24, 170, 26, 24), S(EmcRefctrl2, 31, 31, 170, 27, 27),
      S(EmcPmacroTxPwrd3, 13, 10, 170, 31, 28), S(EmcZcalMrwCmd, 7, 0, 171, 7, 0),
      S(EmcZcalMrwCmd, 23, 16, 171, 15, 8), S(EmcZcalMrwCmd, 31, 30, 171, 17, 16),
      S(EmcWeDuration, 4, 0, 171, 22, 18), S(EmcWsDuration, 4, 0, 171, 27, 23),
      S(EmcPmacroTxPwrd3, 19, 16, 171, 31, 28), S(EmcSwizzleRank0Byte0, 2, 0, 172, 2, 0),
      S(EmcSwizzleRank0Byte0, 6, 4, 172, 5, 3), S(EmcSwizzleRank0Byte0, 10, 8, 172, 8, 6)
    ]
  }

  /** sdram_lp0.c:683-693 */
  function Common60(): seq<Step>
  {
    [
      S(EmcSwizzleRank0Byte0, 14, 12, 172, 11, 9), S(EmcSwizzleRank0Byte0, 18, 16, 172, 14, 12),
      S(EmcSwizzleRank0Byte0, 22, 20, 172, 17, 15), S(EmcPutermWidth, 31, 31, 172, 18, 18),
      S(EmcPutermWidth, 3, 0, 172, 22, 19), S(McEmemArbTimingRrd, 4, 0, 172, 27, 23),
      S(EmcPmacroTxPwrd3, 23, 20, 172, 31, 28), S(EmcSwizzleRank0Byte1, 2, 0, 173, 2, 0),
      S(EmcSwizzleRank0Byte1, 6, 4, 173, 5, 3), S(EmcSwizzleRank0Byte1, 10, 8, 173, 8, 6),
      S(EmcSwizzleRank0Byte1, 14, 12, 173, 11, 9)
    ]
  }

  /** sdram_lp0.c:694-704 */
  function Common61(): seq<Step>
  {
    [
      S(EmcSwizzleRank0Byte1, 18, 16, 173, 14, 12), S(EmcSwizzleRank0Byte1, 22, 20, 173, 17, 15),
      S(McEmemArbTimingR2R, 4, 0, 173, 22, 18), S(McEmemArbTimingW2W, 4, 0, 173, 27, 23),
      S(EmcPmacroTxPwrd3, 27, 24, 173, 31, 28), S(EmcSwizzleRank0Byte2, 2, 0, 174, 2, 0),
      S(EmcSwizzleRank0Byte2, 6, 4, 174, 5, 3), S(EmcSwizzleRank0Byte2, 10, 8, 174, 8, 6),
      S(EmcSwizzleRank0Byte2, 14, 12, 174, 11, 9), S(EmcSwizzleRank0Byte2, 18, 16, 174, 14, 12),
      S(EmcSwizzleRank0Byte2, 22, 20, 174, 17, 15)
    ]
  }

  /** sdram_lp0.c:705-715 */
  function Common62(): seq<Step>
  {
    [
      S(EmcPmacroTxPwrd3, 29, 28, 174, 19, 18), S(EmcPmacroTxSelClkSrc0, 11, 0, 174, 31, 20),
      S(EmcSwizzleRank0Byte3, 2, 0, 175, 2, 0), S(EmcSwizzleRank0Byte3, 6, 4, 175, 5, 3),
      S(EmcSwizzleRank0Byte3, 10, 8, 175, 8, 6), S(EmcSwizzleRank0Byte3, 14, 12, 175, 11, 9),
      S(EmcSwizzleRank0Byte3, 18, 16, 175, 14, 12), S(EmcSwizzleRank0Byte3, 22, 20, 175, 17, 15),
      S(EmcPmacroTxSelClkSrc0, 27, 16, 175, 29, 18), S(EmcPmacroTxSelClkSrc1, 1, 0, 175, 31, 30),
      S(EmcSwizzleRank1Byte0, 2, 0, 176, 2, 0)
    ]
  }

  /** sdram_lp0.c:716-726 */
  function Common63(): seq<Step>
  {
    [
      S(EmcSwizzleRank1Byte0, 6, 4, 176, 5, 3), S(EmcSwizzleRank1Byte0, 10, 8, 176, 8, 6),
      S(EmcSwizzleRank1Byte0, 14, 12, 176, 11, 9), S(EmcSwizzleRank1Byte0, 18, 16, 176, 14, 12),
      S(EmcSwizzleRank1Byte0, 22, 20, 176, 17, 15), S(EmcPmacroTxSelClkSrc1, 11, 2, 176, 27, 18),
      S(EmcPmacroTxSelClkSrc1, 19, 16, 176, 31, 28), S(EmcSwizzleRank1Byte1, 2, 0, 177, 2, 0),
      S(EmcSwizzleRank1Byte1, 6, 4, 177, 5, 3), S(EmcSwizzleRank1Byte1, 10, 8, 177, 8, 6),
      S(EmcSwizzleRank1Byte1, 14, 12, 177, 11, 9)
    ]
  }

  /** sdram_lp0.c:727-737 */
  function Common64(): seq<Step>
  {
    [
      S(EmcSwizzleRank1Byte1, 18, 16, 177, 14, 12), S(EmcSwizzleRank1Byte1, 22, 20, 177, 17, 15),
      S(EmcPmacroTxSelClkSrc1, 27, 20, 177, 25, 18), S(EmcPmacroTxSelClkSrc3, 5, 0, 177, 31, 26),
      S(EmcSwizzleRank1Byte2, 2, 0, 178, 2, 0), S(EmcSwizzleRank1Byte2, 6, 4, 178, 5, 3),
      S(EmcSwizzleRank1Byte2, 10, 8, 178, 8, 6), S(EmcSwizzleRank1Byte2, 14, 12, 178, 11, 9),
      S(EmcSwizzleRank1Byte2, 18, 16, 178, 14, 12), S(EmcSwizzleRank1Byte2, 22, 20, 178, 17, 15),
      S(EmcPmacroTxSelClkSrc3, 11, 6, 178, 23, 18)
    ]
  }

  /** sdram_lp0.c:738-748 */
  function Common65(): seq<Step>
  {
    [
      S(EmcPmacroTxSelClkSrc3, 23, 16, 178, 31, 24), S(EmcSwizzleRank1Byte3, 2, 0, 179, 2, 0),
      S(EmcSwizzleRank1Byte3, 6, 4, 179, 5, 3), S(EmcSwizzleRank1Byte3, 10, 8, 179, 8, 6),
      S(EmcSwizzleRank1Byte3, 14, 12, 179, 11, 9), S(EmcSwizzleRank1Byte3, 18, 16, 179, 14, 12),
      S(EmcSwizzleRank1Byte3, 22, 20, 179, 17, 15), S(EmcPmacroTxSelClkSrc3, 27, 24, 179, 21, 18),
      S(EmcPmacroTxSelClkSrc2, 9, 0, 179, 31, 22), S(EmcPmacroCmdBrickCtrlFdpd, 17, 0, 180, 17, 0),
      S(EmcPmacroTxSelClkSrc2, 11, 10, 180, 19, 18)
    ]
  }

  /** sdram_lp0.c:749-759 */
  function Common66(): seq<Step>
  {
    [
      S(EmcPmacroTxSelClkSrc2, 27, 16, 180, 31, 20), S(EmcPmacroDataBrickCtrlFdpd, 17, 0, 181, 17, 0),
      S(EmcPmacroTxSelClkSrc4, 11, 0, 181, 29, 18), S(EmcPmacroTxSelClkSrc4, 17, 16, 181, 31, 30),
      S(EmcFbioCfg7, 16, 0, 182, 16, 0), S(McEmemArbRefpbBankCtrl, 6, 0, 182, 23, 17),
      S(McEmemArbRefpbBankCtrl, 14, 8, 182, 30, 24), S(McEmemArbRefpbBankCtrl, 31, 31, 182, 31, 31),
      S(EmcDynSelfRefControl, 15, 0, 183, 15, 0), S(EmcDynSelfRefControl, 31, 31, 183, 16, 16),
      S(EmcPmacroTxSelClkSrc4, 27, 18, 183, 26, 17)
    ]
  }

  /** sdram_lp0.c:760-770 */
  function Common67(): seq<Step>
  {
    [
      S(EmcPmacroTxSelClkSrc5, 4, 0, 183, 31, 27), S(EmcDllCfg1, 16, 0, 184, 16, 0),
      S(EmcPmacroTxSelClkSrc5, 11, 5, 184, 23, 17), S(EmcPmacroTxSelClkSrc5, 23, 16, 184, 31, 24),
      S(EmcPmacroPadCfgCtrl, 1, 0, 185, 1, 0), S(EmcPmacroPadCfgCtrl, 6, 5, 185, 3, 2),
      S(EmcPmacroPadCfgCtrl, 11, 9, 185, 6, 4), S(EmcPmacroPadCfgCtrl, 13, 13, 185, 7, 7),
      S(EmcPmacroPadCfgCtrl, 17, 16, 185, 9, 8), S(EmcPmacroPadCfgCtrl, 21, 20, 185, 11, 10),
      S(EmcPmacroPadCfgCtrl, 25, 24, 185, 13, 12)
    ]
  }

  /** sdram_lp0.c:771-781 */
  function Common68(): seq<Step>
  {
    [
      S(EmcPmacroPadCfgCtrl, 30, 28, 185, 16, 14), S(EmcPmacroTxSelClkSrc5, 27, 24, 185, 20, 17),
      S(EmcPmacroCmdPadTxCtrl, 1, 0, 185, 22, 21), S(EmcPmacroCmdPadTxCtrl, 5, 4, 185, 24, 23),
      S(EmcPmacroCmdPadTxCtrl, 9, 8, 185, 26, 25), S(EmcPmacroCmdPadTxCtrl, 13, 12, 185, 28, 27),
      S(EmcPmacroCmdPadTxCtrl, 16, 16, 185, 29, 29), S(EmcPmacroCmdPadTxCtrl, 21, 20, 185, 31, 30),
      S(EmcRefresh, 15, 0, 186, 15, 0), S(EmcCmdQ, 4, 0, 186, 20, 16), S(EmcCmdQ, 10, 8, 186, 23, 21)
    ]
  }

  /** sdram_lp0.c:782-792 */
  function Common69(): seq<Step>
  {
    [
      S(EmcCmdQ, 14, 12, 186, 26, 24), S(EmcCmdQ, 28, 24, 186, 31, 27), S(EmcAcpdControl, 15, 0, 187, 15, 0),
      S(EmcAutoCalVrefSel1, 15, 0, 187, 31, 16), S(EmcXm2CompPadCtrl, 1, 0, 188, 1, 0),
      S(EmcXm2CompPadCtrl, 6, 3, 188, 5, 2), S(EmcXm2CompPadCtrl, 9, 9, 188, 6, 6),
      S(EmcXm2CompPadCtrl, 19, 11, 188, 15, 7), S(EmcCfgDigDllPeriod, 15, 0, 188, 31, 16),
      S(EmcCfgDigDll_1, 15, 0, 189, 15, 0), S(EmcPreRefreshReqCnt, 15, 0, 189, 31, 16)
    ]
  }

  /** sdram_lp0.c:793-801 */
  function Common70(): seq<Step>
  {
    [
      S(EmcPmacroCmdPadTxCtrl, 27, 24, 190, 19, 16), S(EmcPmacroDataPadTxCtrl, 1, 0, 190, 21, 20),
      S(EmcPmacroDataPadTxCtrl, 5, 4, 190, 23, 22), S(EmcPmacroDataPadTxCtrl, 9, 8, 190, 25, 24),
      S(EmcPmacroDataPadTxCtrl, 13, 12, 190, 27, 26), S(EmcPmacroDataPadTxCtrl, 16, 16, 190, 28, 28),
      S(EmcPmacroDataPadTxCtrl, 21, 20, 190, 30, 29), S(EmcPmacroDataPadTxCtrl, 24, 24, 190, 31, 31),
      S(EmcPmacroDataPadTxCtrl, 27, 25, 191, 2, 0)
    ]
  }

  function CommonA(): seq<Step>
  {
    Common0() + Common1() + Common2() + Common3() + Common4() + Common5()
  }

  function CommonB(): seq<Step>
  {
    Common6() + Common7() + Common8() + Common9() + Common10() + Common11()
  }

  function CommonC(): seq<Step>
  {
    Common12() + Common13() + Common14() + Common15() + Common16() + Common17()
  }

  function CommonD(): seq<Step>
  {
    Common18() + Common19() + Common20() + Common21() + Common22() + Common23()
  }

  function CommonE(): seq<Step>
  {
    Common24() + Common25() + Common26() + Common27() + Common28() + Common29()
  }

  function CommonF(): seq<Step>
  {
    Common30() + Common31() + Common32() + Common33() + Common34() + Common35()
  }

  function CommonG(): seq<Step>
  {
    Common36() + Common37() + Common38() + Common39() + Common40() + Common41()
  }

  function CommonH(): seq<Step>
  {
    Common42() + Common43() + Common44() + Common45() + Common46() + Common47()
  }

  function CommonI(): seq<Step>
  {
    Common48() + Common49() + Common50() + Common51() + Common52() + Common53()
  }

  function CommonJ(): seq<Step>
  {
    Common54() + Common55() + Common56() + Common57() + Common58() + Common59()
  }

  function CommonK(): seq<Step>
  {
    Common60() + Common61() + Common62() + Common63() + Common64() + Common65()
  }

  function CommonL(): seq<Step>
  {
    Common66() + Common67() + Common68() + Common69() + Common70()
  }

  function CommonA1(): seq<Step>
  {
    CommonA() + CommonB() + CommonC() + CommonD() + CommonE() + CommonF()
  }

  function CommonB1(): seq<Step>
  {
    CommonG() + CommonH() + CommonI() + CommonJ() + CommonK() + CommonL()
  }

  /** sdram_lp0.c:144-801 */
  function Common(): seq<Step>
  {
    CommonA1() + CommonB1()
  }

  /** sdram_lp0.c:803-808 */
  function Later0(): seq<Step>
  {
    [
      S(EmcPinGpio, 1, 0, 8, 31, 30), S(EmcPinGpioEn, 1, 0, 9, 31, 30), S(EmcDevSelect, 1, 0, 10, 31, 30),
      S(EmcZcalWarmColdBootEnables, 1, 0, 11, 31, 30), S(EmcCfgDigDllPeriodWarmBoot, 1, 0, 12, 31, 30),
      S32(EmcBctSpare13, 31)
    ]
  }

  /** sdram_lp0.c:809-814 */
  function Later1(): seq<Step>
  {
    [
      S32(EmcBctSpare12, 32), S32(EmcBctSpare7, 33), S32(EmcBctSpare6, 40), S32(EmcBctSpare5, 42),
      S32(EmcBctSpare4, 44), S32(EmcBctSpare3, 45)
    ]
  }

  /** sdram_lp0.c:815-819 */
  function Later2(): seq<Step>
  {
    [
      S32(EmcBctSpare2, 46), S32(EmcBctSpare1, 47), S32(EmcBctSpare0, 48), S32(EmcBctSpare9, 50),
      S32(EmcBctSpare8, 51)
    ]
  }

  /** sdram_lp0.c:820-824 */
  function Later3(): seq<Step>
  {
    [
      S32(BootRomPatchData, 56), S32(BootRomPatchControl, 57), S(McClkenOverrideAllWarmBoot, 0, 0, 58, 31, 31),
      S(EmcClkenOverrideAllWarmBoot, 0, 0, 59, 30, 30), S(EmcMrsWarmBootEnable, 0, 0, 59, 31, 31)
    ]
  }

  /** sdram_lp0.c:825-829 */
  function Later4(): seq<Step>
  {
    [
      S(ClearClk2Mc1, 0, 0, 60, 30, 30), S(EmcWarmBootExtraModeRegWriteEnable, 0, 0, 60, 31, 31),
      S(ClkRstControllerPllmMisc2OverrideEnable, 0, 0, 61, 30, 30), S(EmcDbgWriteMux, 0, 0, 61, 31, 31),
      S(EmcExtraRefreshNum, 2, 0, 62, 31, 29)
    ]
  }

  /** sdram_lp0.c:830-834 */
  function Later5(): seq<Step>
  {
    [
      S(PmcIoDpd3ReqWait, 2, 0, 68, 30, 28), S(AhbArbitrationXbarCtrlMemInitDone, 0, 0, 68, 31, 31),
      S(MemoryType, 2, 0, 69, 30, 28), S(PmcIoDpd4ReqWait, 2, 0, 70, 30, 28),
      S(EmcTimingControlWait, 7, 0, 86, 31, 24)
    ]
  }

  /** sdram_lp0.c:835-839 */
  function Later6(): seq<Step>
  {
    [
      S(EmcZcalWarmBootWait, 7, 0, 87, 31, 24), S(WarmBootWait, 7, 0, 88, 31, 24),
      S(EmcPinProgramWait, 7, 0, 89, 31, 24), S(EmcAutoCalWait, 9, 0, 101, 31, 22),
      S(SwizzleRankByteEncode, 15, 0, 190, 15, 0)
    ]
  }

  function LaterA(): seq<Step>
  {
    Later0() + Later1() + Later2() + Later3()
  }

  function LaterB(): seq<Step>
  {
    Later4() + Later5() + Later6()
  }

  /** sdram_lp0.c:803-839, into bits that the statements above leave alone */
  function Later(): seq<Step>
  {
    LaterA() + LaterB()
  }

  /** sdram_lp0.c:845-850 */
  function Lpddr0(): seq<Step>
  {
    [
      S(EmcMrwLpddr2ZcalWarmBoot, 23, 16, 5, 7, 0), S(EmcMrwLpddr2ZcalWarmBoot, 7, 0, 5, 15, 8),
      S(EmcWarmBootMrwExtra, 23, 16, 5, 23, 16), S(EmcWarmBootMrwExtra, 7, 0, 5, 31, 24),
      S(EmcMrwLpddr2ZcalWarmBoot, 31, 30, 6, 1, 0), S(EmcWarmBootMrwExtra, 31, 30, 6, 3, 2)
    ]
  }

  /** sdram_lp0.c:851-856 */
  function Lpddr1(): seq<Step>
  {
    [
      S(EmcMrwLpddr2ZcalWarmBoot, 27, 26, 6, 5, 4), S(EmcWarmBootMrwExtra, 27, 26, 6, 7, 6),
      S(EmcMrw6, 27, 0, 8, 27, 0), S(EmcMrw6, 31, 30, 8, 29, 28), S(EmcMrw8, 27, 0, 9, 27, 0),
      S(EmcMrw8, 31, 30, 9, 29, 28)
    ]
  }

  /** sdram_lp0.c:857-862 */
  function Lpddr2(): seq<Step>
  {
    [
      S(EmcMrw9, 27, 0, 10, 27, 0), S(EmcMrw9, 31, 30, 10, 29, 28), S(EmcMrw10, 27, 0, 11, 27, 0),
      S(EmcMrw10, 31, 30, 11, 29, 28), S(EmcMrw12, 27, 0, 12, 27, 0), S(EmcMrw12, 31, 30, 12, 29, 28)
    ]
  }

  /** sdram_lp0.c:863-868 */
  function Lpddr3(): seq<Step>
  {
    [
      S(EmcMrw13, 27, 0, 13, 27, 0), S(EmcMrw13, 31, 30, 13, 29, 28), S(EmcMrw14, 27, 0, 14, 27, 0),
      S(EmcMrw14, 31, 30, 14, 29, 28), S(EmcMrw1, 7, 0, 15, 7, 0), S(EmcMrw1, 23, 16, 15, 15, 8)
    ]
  }

  /** sdram_lp0.c:869-874 */
  function Lpddr4(): seq<Step>
  {
    [
      S(EmcMrw1, 27, 26, 15, 17, 16), S(EmcMrw1, 31, 30, 15, 19, 18), S(EmcWarmBootMrwExtra, 7, 0, 16, 7, 0),
      S(EmcWarmBootMrwExtra, 23, 16, 16, 15, 8), S(EmcWarmBootMrwExtra, 27, 26, 16, 17, 16),
      S(EmcWarmBootMrwExtra, 31, 30, 16, 19, 18)
    ]
  }

  /** sdram_lp0.c:875-880 */
  function Lpddr5(): seq<Step>
  {
    [
      S(EmcMrw2, 7, 0, 17, 7, 0), S(EmcMrw2, 23, 16, 17, 15, 8), S(EmcMrw2, 27, 26, 17, 17, 16),
      S(EmcMrw2, 31, 30, 17, 19, 18), S(EmcMrw3, 7, 0, 18, 7, 0), S(EmcMrw3, 23, 16, 18, 15, 8)
    ]
  }

  /** sdram_lp0.c:881-886 */
  function Lpddr6(): seq<Step>
  {
    [
      S(EmcMrw3, 27, 26, 18, 17, 16), S(EmcMrw3, 31, 30, 18, 19, 18), S(EmcMrw4, 7, 0, 19, 7, 0),
      S(EmcMrw4, 23, 16, 19, 15, 8), S(EmcMrw4, 27, 26, 19, 17, 16), S(EmcMrw4, 31, 30, 19, 19, 18)
    ]
  }

  function LpddrA(): seq<Step>
  {
    Lpddr0() + Lpddr1() + Lpddr2() + Lpddr3()
  }

  function LpddrB(): seq<Step>
  {
    Lpddr4() + Lpddr5() + Lpddr6()
  }

  /** sdram_lp0.c:845-886, the case of LpDdr2 and LpDdr4 */
  function Lpddr(): seq<Step>
  {
    LpddrA() + LpddrB()
  }

  /** sdram_lp0.c:889-894 */
  function Ddr30(): seq<Step>
  {
    [
      S(EmcMrs, 13, 0, 5, 13, 0), S(EmcEmrs, 13, 0, 5, 27, 14), S(EmcMrs, 21, 20, 5, 29, 28),
      S(EmcMrs, 31, 30, 5, 31, 30), S(EmcEmrs2, 13, 0, 8, 13, 0), S(EmcEmrs3, 13, 0, 8, 27, 14)
    ]
  }

  /** sdram_lp0.c:895-900 */
  function Ddr31(): seq<Step>
  {
    [
      S(EmcEmrs, 21, 20, 8, 29, 28), S(EmcWarmBootMrsExtra, 13, 0, 9, 13, 0), S(EmcEmrs, 31, 30, 9, 15, 14),
      S(EmcEmrs2, 21, 20, 9, 17, 16), S(EmcEmrs2, 31, 30, 9, 19, 18), S(EmcEmrs3, 21, 20, 9, 21, 20)
    ]
  }

  /** sdram_lp0.c:901-906 */
  function Ddr32(): seq<Step>
  {
    [
      S(EmcEmrs3, 31, 30, 9, 23, 22), S(EmcWarmBootMrsExtra, 31, 30, 9, 25, 24),
      S(EmcWarmBootMrsExtra, 21, 20, 9, 27, 26), S(EmcZqCalDdr3WarmBoot, 31, 30, 9, 29, 28),
      S(EmcMrs, 27, 26, 10, 1, 0), S(EmcEmrs, 27, 26, 10, 3, 2)
    ]
  }

  /** sdram_lp0.c:907-912 */
  function Ddr33(): seq<Step>
  {
    [
      S(EmcEmrs2, 27, 26, 10, 5, 4), S(EmcEmrs3, 27, 26, 10, 7, 6), S(EmcWarmBootMrsExtra, 27, 27, 10, 8, 8),
      S(EmcWarmBootMrsExtra, 26, 26, 10, 9, 9), S(EmcZqCalDdr3WarmBoot, 0, 0, 10, 10, 10),
      S(EmcZqCalDdr3WarmBoot, 4, 4, 10, 11, 11)
    ]
  }

  /** sdram_lp0.c:889-912, the case of Ddr3 */
  function Ddr3(): seq<Step>
  {
    Ddr30() + Ddr31() + Ddr32() + Ddr33()
  }

  /** sdram_lp0.c:916-927 */
  function Secure0(): seq<Step>
  {
    [
      S32(EmcCmdMappingByte, 308), S32(EmcPmacroBrickMapping0, 309), S32(EmcPmacroBrickMapping1, 310),
      S32(EmcPmacroBrickMapping2, 311), S32(McVideoProtectGpuOverride0, 312), S(EmcCmdMappingCmd0_0, 6, 0, 313, 6, 0),
      S(EmcCmdMappingCmd0_0, 14, 8, 313, 13, 7), S(EmcCmdMappingCmd0_0, 22, 16, 313, 20, 14),
      S(EmcCmdMappingCmd0_0, 30, 24, 313, 27, 21), S(McVideoProtectBomAdrHi, 1, 0, 313, 29, 28),
      S(McVideoProtectWriteAccess, 1, 0, 313, 31, 30), S(EmcCmdMappingCmd0_1, 6, 0, 314, 6, 0)
    ]
  }

  /** sdram_lp0.c:928-939 */
  function Secure1(): seq<Step>
  {
    [
      S(EmcCmdMappingCmd0_1, 14, 8, 314, 13, 7), S(EmcCmdMappingCmd0_1, 22, 16, 314, 20, 14),
      S(EmcCmdMappingCmd0_1, 30, 24, 314, 27, 21), S(McSecCarveoutAdrHi, 1, 0, 314, 29, 28),
      S(McMtsCarveoutAdrHi, 1, 0, 314, 31, 30), S(EmcCmdMappingCmd1_0, 6, 0, 315, 6, 0),
      S(EmcCmdMappingCmd1_0, 14, 8, 315, 13, 7), S(EmcCmdMappingCmd1_0, 22, 16, 315, 20, 14),
      S(EmcCmdMappingCmd1_0, 30, 24, 315, 27, 21), S(McGeneralizedCarveout5BomHi, 1, 0, 315, 29, 28),
      S(McGeneralizedCarveout3BomHi, 1, 0, 315, 31, 30), S(EmcCmdMappingCmd1_1, 6, 0, 316, 6, 0)
    ]
  }

  /** sdram_lp0.c:940-951 */
  function Secure2(): seq<Step>
  {
    [
      S(EmcCmdMappingCmd1_1, 14, 8, 316, 13, 7), S(EmcCmdMappingCmd1_1, 22, 16, 316, 20, 14),
      S(EmcCmdMappingCmd1_1, 30, 24, 316, 27, 21), S(McGeneralizedCarveout2BomHi, 1, 0, 316, 29, 28),
      S(McGeneralizedCarveout4BomHi, 1, 0, 316, 31, 30), S(EmcCmdMappingCmd2_0, 6, 0, 317, 6, 0),
      S(EmcCmdMappingCmd2_0, 14, 8, 317, 13, 7), S(EmcCmdMappingCmd2_0, 22, 16, 317, 20, 14),
      S(EmcCmdMappingCmd2_0, 30, 24, 317, 27, 21), S(McGeneralizedCarveout1BomHi, 1, 0, 317, 29, 28),
      S(EmcAdrCfg, 0, 0, 317, 30, 30), S(EmcFbioSpare, 1, 1, 317, 31, 31)
    ]
  }

  /** sdram_lp0.c:952-963 */
  function Secure3(): seq<Step>
  {
    [
      S(EmcCmdMappingCmd2_1, 6, 0, 318, 6, 0), S(EmcCmdMappingCmd2_1, 14, 8, 318, 13, 7),
      S(EmcCmdMappingCmd2_1, 22, 16, 318, 20, 14), S(EmcCmdMappingCmd2_1, 30, 24, 318, 27, 21),
      S(EmcFbioCfg8, 15, 15, 318, 28, 28), S(McEmemAdrCfg, 0, 0, 318, 29, 29),
      S(McSecCarveoutProtectWriteAccess, 0, 0, 318, 30, 30), S(McMtsCarveoutRegCtrl, 0, 0, 318, 31, 31),
      S(EmcCmdMappingCmd3_0, 6, 0, 319, 6, 0), S(EmcCmdMappingCmd3_0, 14, 8, 319, 13, 7),
      S(EmcCmdMappingCmd3_0, 22, 16, 319, 20, 14), S(EmcCmdMappingCmd3_0, 30, 24, 319, 27, 21)
    ]
  }

  /** sdram_lp0.c:964-975 */
  function Secure4(): seq<Step>
  {
    [
      S(McGeneralizedCarveout2Cfg0, 6, 3, 319, 31, 28), S(EmcCmdMappingCmd3_1, 6, 0, 320, 6, 0),
      S(EmcCmdMappingCmd3_1, 14, 8, 320, 13, 7), S(EmcCmdMappingCmd3_1, 22, 16, 320, 20, 14),
      S(EmcCmdMappingCmd3_1, 30, 24, 320, 27, 21), S(McGeneralizedCarveout2Cfg0, 10, 7, 320, 31, 28),
      S(McGeneralizedCarveout4Cfg0, 26, 0, 339, 26, 0), S(McGeneralizedCarveout2Cfg0, 17, 14, 339, 30, 27),
      S(McVideoProtectVprOverride, 0, 0, 339, 31, 31), S(McGeneralizedCarveout5Cfg0, 26, 0, 340, 26, 0),
      S(McGeneralizedCarveout2Cfg0, 21, 18, 340, 30, 27), S(McVideoProtectVprOverride, 1, 1, 340, 31, 31)
    ]
  }

  /** sdram_lp0.c:976-987 */
  function Secure5(): seq<Step>
  {
    [
      S(EmcCmdMappingCmd0_2, 6, 0, 341, 6, 0), S(EmcCmdMappingCmd0_2, 14, 8, 341, 13, 7),
      S(EmcCmdMappingCmd0_2, 22, 16, 341, 20, 14), S(EmcCmdMappingCmd0_2, 27, 24, 341, 24, 21),
      S(McGeneralizedCarveout1Cfg0, 6, 3, 341, 28, 25), S(McGeneralizedCarveout2Cfg0, 13, 11, 341, 31, 29),
      S(EmcCmdMappingCmd1_2, 6, 0, 342, 6, 0), S(EmcCmdMappingCmd1_2, 14, 8, 342, 13, 7),
      S(EmcCmdMappingCmd1_2, 22, 16, 342, 20, 14), S(EmcCmdMappingCmd1_2, 27, 24, 342, 24, 21),
      S(McGeneralizedCarveout1Cfg0, 13, 7, 342, 31, 25), S(EmcCmdMappingCmd2_2, 6, 0, 343, 6, 0)
    ]
  }

  /** sdram_lp0.c:988-999 */
  function Secure6(): seq<Step>
  {
    [
      S(EmcCmdMappingCmd2_2, 14, 8, 343, 13, 7), S(EmcCmdMappingCmd2_2, 22, 16, 343, 20, 14),
      S(EmcCmdMappingCmd2_2, 27, 24, 343, 24, 21), S(McGeneralizedCarveout1Cfg0, 17, 14, 343, 28, 25),
      S(McGeneralizedCarveout3Cfg0, 13, 11, 343, 31, 29), S(EmcCmdMappingCmd3_2, 6, 0, 344, 6, 0),
      S(EmcCmdMappingCmd3_2, 14, 8, 344, 13, 7), S(EmcCmdMappingCmd3_2, 22, 16, 344, 20, 14),
      S(EmcCmdMappingCmd3_2, 27, 24, 344, 24, 21), S(McGeneralizedCarveout1Cfg0, 21, 18, 344, 28, 25),
      S(McVideoProtectVprOverride, 3, 2, 344, 30, 29), S(McVideoProtectVprOverride, 6, 6, 344, 31, 31)
    ]
  }

  /** sdram_lp0.c:1000-1011 */
  function Secure7(): seq<Step>
  {
    [
      S(McEmemAdrCfgChannelMask, 31, 9, 345, 22, 0), S(McEmemAdrCfgDev0, 2, 0, 345, 25, 23),
      S(McEmemAdrCfgDev0, 9, 8, 345, 27, 26), S(McEmemAdrCfgDev0, 19, 16, 345, 31, 28),
      S(McEmemAdrCfgBankMask0, 31, 10, 346, 21, 0), S(McEmemAdrCfgDev1, 2, 0, 346, 24, 22),
      S(McEmemAdrCfgDev1, 9, 8, 346, 26, 25), S(McEmemAdrCfgDev1, 19, 16, 346, 30, 27),
      S(McVideoProtectVprOverride, 7, 7, 346, 31, 31), S(McEmemAdrCfgBankMask1, 31, 10, 347, 21, 0),
      S(McGeneralizedCarveout3Cfg0, 10, 3, 347, 29, 22), S(McVideoProtectVprOverride, 9, 8, 347, 31, 30)
    ]
  }

  /** sdram_lp0.c:1012-1023 */
  function Secure8(): seq<Step>
  {
    [
      S(McEmemAdrCfgBankMask2, 31, 10, 348, 21, 0), S(McGeneralizedCarveout3Cfg0, 21, 14, 348, 29, 22),
      S(McVideoProtectVprOverride, 11, 11, 348, 30, 30), S(McVideoProtectVprOverride, 14, 14, 348, 31, 31),
      S(McVideoProtectGpuOverride1, 15, 0, 349, 15, 0), S(McEmemCfg, 13, 0, 349, 29, 16),
      S(McEmemCfg, 31, 31, 349, 30, 30), S(McVideoProtectVprOverride, 15, 15, 349, 31, 31),
      S(McGeneralizedCarveout3Bom, 31, 17, 350, 14, 0), S(McGeneralizedCarveout1Bom, 31, 17, 350, 29, 15),
      S(McVideoProtectVprOverride, 18, 17, 350, 31, 30), S(McGeneralizedCarveout4Bom, 31, 17, 351, 14, 0)
    ]
  }

  /** sdram_lp0.c:1024-1035 */
  function Secure9(): seq<Step>
  {
    [
      S(McGeneralizedCarveout2Bom, 31, 17, 351, 29, 15), S(McVideoProtectVprOverride, 20, 19, 351, 31, 30),
      S(McGeneralizedCarveout5Bom, 31, 17, 352, 14, 0), S(McVideoProtectBom, 31, 20, 352, 26, 15),
      S(McVideoProtectVprOverride, 23, 21, 352, 29, 27), S(McVideoProtectVprOverride, 26, 26, 352, 30, 30),
      S(McVideoProtectVprOverride, 29, 29, 352, 31, 31), S(McVideoProtectSizeMb, 11, 0, 353, 11, 0),
      S(McSecCarveoutBom, 31, 20, 353, 23, 12), S(McVideoProtectVprOverride, 31, 30, 353, 25, 24),
      S(McVideoProtectVprOverride1, 1, 0, 353, 27, 26), S(McVideoProtectVprOverride1, 7, 4, 353, 31, 28)
    ]
  }

  /** sdram_lp0.c:1036-1047 */
  function Secure10(): seq<Step>
  {
    [
      S(McSecCarveoutSizeMb, 11, 0, 354, 11, 0), S(McMtsCarveoutBom, 31, 20, 354, 23, 12),
      S(McVideoProtectVprOverride1, 15, 8, 354, 31, 24), S(McMtsCarveoutSizeMb, 11, 0, 355, 11, 0),
      S(McGeneralizedCarveout4Size128kb, 11, 0, 355, 23, 12), S(McVideoProtectVprOverride1, 16, 16, 355, 24, 24),
      S(McGeneralizedCarveout2Cfg0, 2, 0, 355, 27, 25), S(McGeneralizedCarveout2Cfg0, 25, 22, 355, 31, 28),
      S(McGeneralizedCarveout3Size128kb, 11, 0, 356, 11, 0), S(McGeneralizedCarveout2Size128kb, 11, 0, 356, 23, 12),
      S(McGeneralizedCarveout2Cfg0, 26, 26, 356, 24, 24), S(McGeneralizedCarveout1Cfg0, 2, 0, 356, 27, 25)
    ]
  }

  /** sdram_lp0.c:1048-1059 */
  function Secure11(): seq<Step>
  {
    [
      S(McGeneralizedCarveout1Cfg0, 25, 22, 356, 31, 28), S(McGeneralizedCarveout1Size128kb, 11, 0, 357, 11, 0),
      S(McGeneralizedCarveout5Size128kb, 11, 0, 357, 23, 12), S(McGeneralizedCarveout1Cfg0, 26, 26, 357, 24, 24),
      S(McGeneralizedCarveout3Cfg0, 2, 0, 357, 27, 25), S(McGeneralizedCarveout3Cfg0, 25, 22, 357, 31, 28),
      S(McGeneralizedCarveout3Cfg0, 26, 26, 358, 0, 0), S32(McGeneralizedCarveout1Access0, 359),
      S32(McGeneralizedCarveout1Access1, 360), S32(McGeneralizedCarveout1Access2, 361),
      S32(McGeneralizedCarveout1Access3, 362)
    ]
  }

  /** sdram_lp0.c:1060-1070 */
  function Secure12(): seq<Step>
  {
    [
      S32(McGeneralizedCarveout1Access4, 363), S32(McGeneralizedCarveout2Access0, 364),
      S32(McGeneralizedCarveout2Access1, 365), S32(McGeneralizedCarveout2Access2, 366),
      S32(McGeneralizedCarveout2Access3, 367), S32(McGeneralizedCarveout2Access4, 368),
      S32(McGeneralizedCarveout3Access0, 369), S32(McGeneralizedCarveout3Access1, 370),
      S32(McGeneralizedCarveout3Access2, 371), S32(McGeneralizedCarveout3Access3, 372),
      S32(McGeneralizedCarveout3Access4, 373)
    ]
  }

  /** sdram_lp0.c:1071-1081 */
  function Secure13(): seq<Step>
  {
    [
      S32(McGeneralizedCarveout4Access0, 374), S32(McGeneralizedCarveout4Access1, 375),
      S32(McGeneralizedCarveout4Access2, 376), S32(McGeneralizedCarveout4Access3, 377),
      S32(McGeneralizedCarveout4Access4, 378), S32(McGeneralizedCarveout5Access0, 379),
      S32(McGeneralizedCarveout5Access1, 380), S32(McGeneralizedCarveout5Access2, 381),
      S32(McGeneralizedCarveout5Access3, 382), S32(McGeneralizedCarveout1ForceInternalAccess0, 384),
      S32(McGeneralizedCarveout1ForceInternalAccess1, 385)
    ]
  }

  /** sdram_lp0.c:1082-1092 */
  function Secure14(): seq<Step>
  {
    [
      S32(McGeneralizedCarveout1ForceInternalAccess2, 386), S32(McGeneralizedCarveout1ForceInternalAccess3, 387),
      S32(McGeneralizedCarveout1ForceInternalAccess4, 388), S32(McGeneralizedCarveout2ForceInternalAccess0, 389),
      S32(McGeneralizedCarveout2ForceInternalAccess1, 390), S32(McGeneralizedCarveout2ForceInternalAccess2, 391),
      S32(McGeneralizedCarveout2ForceInternalAccess3, 392), S32(McGeneralizedCarveout2ForceInternalAccess4, 393),
      S32(McGeneralizedCarveout3ForceInternalAccess0, 394), S32(McGeneralizedCarveout3ForceInternalAccess1, 395),
      S32(McGeneralizedCarveout3ForceInternalAccess2, 396)
    ]
  }

  /** sdram_lp0.c:1093-1103 */
  function Secure15(): seq<Step>
  {
    [
      S32(McGeneralizedCarveout3ForceInternalAccess3, 397), S32(McGeneralizedCarveout3ForceInternalAccess4, 398),
      S32(McGeneralizedCarveout4ForceInternalAccess0, 399), S32(McGeneralizedCarveout4ForceInternalAccess1, 400),
      S32(McGeneralizedCarveout4ForceInternalAccess2, 401), S32(McGeneralizedCarveout4ForceInternalAccess3, 402),
      S32(McGeneralizedCarveout4ForceInternalAccess4, 403), S32(McGeneralizedCarveout5ForceInternalAccess0, 404),
      S32(McGeneralizedCarveout5ForceInternalAccess1, 405), S32(McGeneralizedCarveout5ForceInternalAccess2, 406),
      S32(McGeneralizedCarveout5ForceInternalAccess3, 407)
    ]
  }

  function SecureA(): seq<Step>
  {
    Secure0() + Secure1() + Secure2() + Secure3() + Secure4() + Secure5()
  }

  function SecureB(): seq<Step>
  {
    Secure6() + Secure7() + Secure8() + Secure9() + Secure10()
  }

  function SecureC(): seq<Step>
  {
    Secure11() + Secure12() + Secure13() + Secure14() + Secure15()
  }

  /** sdram_lp0.c:916-1103, the secure scratch registers */
  function Secure(): seq<Step>
  {
    SecureA() + SecureB() + SecureC()
  }

  /** sdram_lp0.c:1106-1110 */
  function Pll2(): seq<Step>
  {
    [
      S(PllMInputDivider, 7, 0, 2, 7, 0), S(PllMFeedbackDivider, 7, 0, 2, 15, 8), S(PllMPostDivider, 4, 0, 2, 20, 16),
      S(PllMKVCO, 0, 0, 2, 21, 21), S(PllMKCP, 1, 0, 2, 23, 22)
    ]
  }

  /** sdram_lp0.c:1113 */
  function Pll35(): seq<Step>
  {
    [
      S(PllMSetupControl, 15, 0, 35, 15, 0)
    ]
  }

  /** sdram_lp0.c:1116-1120 */
  function Pll3(): seq<Step>
  {
    [
      S(PllMInputDivider, 7, 0, 3, 7, 0), C(62, 3, 15, 8), C(0, 3, 20, 16), S(PllMKVCO, 0, 0, 3, 21, 21),
      S(PllMKCP, 1, 0, 3, 23, 22)
    ]
  }

  /** sdram_lp0.c:1123 */
  function Pll36(): seq<Step>
  {
    [
      S(PllMSetupControl, 23, 0, 36, 23, 0)
    ]
  }

  /** sdram_lp0.c:1126 */
  function Pll4(): seq<Step>
  {
    [
      S(PllMStableTime, 9, 0, 4, 9, 0)
    ]
  }

  function Switched(memory: Memory): seq<Step>
  {
    match memory
    case LpDdr2 => Lpddr()
    case LpDdr4 => Lpddr()
    case Ddr3Memory => Ddr3()
    case OtherMemory => []
  }

  function Cleared2(): seq<Step> { [C32(0, 2)] + Pll2() }

  function Cleared35(): seq<Step> { [C32(0, 35)] + Pll35() }

  function Cleared3(): seq<Step> { [C32(0, 3)] + Pll3() }

  function Cleared36(): seq<Step> { [C32(0, 36)] + Pll36() }

  function Cleared4(): seq<Step> { [C32(0, 4)] + Pll4() }

  /** sdram_lp0.c:1105-1126, five registers cleared first and then filled */
  function Pll(): seq<Step>
  {
    Cleared2() + Cleared35() + Cleared3() + Cleared36() + Cleared4()
  }

  function Table(memory: Memory): seq<Step>
  {
    Common() + Later() + Switched(memory) + Secure() + Pll()
  }
}
