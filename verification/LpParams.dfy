/** The parameters of the SDRAM table that sdram_lp0.c saves, by their names there, numbered in the
    order in which the saving function first reads them. */
module LpParams {

  const PARAMS: nat := 441

  type Param = nat

  const EmcClockSource: Param := 0
  const EmcClockSourceDll: Param := 1
  const ClkRstControllerPllmMisc2Override: Param := 2
  const EmcZqCalLpDdr4WarmBoot: Param := 3
  const EmcOdtWrite: Param := 4
  const EmcFdpdCtrlCmdNoRamp: Param := 5
  const EmcCfgPipeClk: Param := 6
  const McEmemArbMisc2: Param := 7
  const McDaCfg0: Param := 8
  const EmcQRst: Param := 9
  const EmcPmacroCmdTxDrv: Param := 10
  const EmcPmacroAutocalCfg0: Param := 11
  const EmcPmacroAutocalCfg1: Param := 12
  const EmcPmacroAutocalCfg2: Param := 13
  const EmcCfgRsv: Param := 14
  const EmcAutoCalConfig: Param := 15
  const EmcAutoCalVrefSel0: Param := 16
  const EmcPmacroBrickCtrlRfu1: Param := 17
  const EmcPmacroBrickCtrlRfu2: Param := 18
  const EmcPmcScratch1: Param := 19
  const EmcPmcScratch2: Param := 20
  const EmcPmcScratch3: Param := 21
  const McEmemArbDaTurns: Param := 22
  const EmcFbioSpare: Param := 23
  const EmcDllCfg0: Param := 24
  const EmcPmacroDdllBypass: Param := 25
  const McEmemArbMisc0: Param := 26
  const EmcFdpdCtrlCmd: Param := 27
  const EmcAutoCalConfig2: Param := 28
  const EmcBurstRefreshNum: Param := 29
  const EmcPmacroZctrl: Param := 30
  const EmcTppd: Param := 31
  const EmcCfgDigDll: Param := 32
  const EmcR2r: Param := 33
  const EmcFdpdCtrlDq: Param := 34
  const EmcW2w: Param := 35
  const EmcPmacroTxPwrd4: Param := 36
  const EmcPmacroCommonPadTxCtrl: Param := 37
  const EmcPmacroTxPwrd5: Param := 38
  const EmcPmacroDdllPwrd0: Param := 39
  const EmcCfg: Param := 40
  const EmcPmacroDdllPwrd1: Param := 41
  const EmcPmacroDdllPwrd2: Param := 42
  const EmcFbioCfg5: Param := 43
  const EmcPmacroIbVrefDq_0: Param := 44
  const EmcPmacroIbVrefDq_1: Param := 45
  const EmcCfg2: Param := 46
  const EmcPmacroIbVrefDqs_0: Param := 47
  const EmcPmacroIbVrefDqs_1: Param := 48
  const EmcPmacroDdllShortCmd_0: Param := 49
  const EmcPmacroCmdPadTxCtrl: Param := 50
  const EmcPmacroDdllShortCmd_1: Param := 51
  const EmcAutoCalChannel: Param := 52
  const EmcConfigSampleDelay: Param := 53
  const EmcPmacroRxTerm: Param := 54
  const EmcRc: Param := 55
  const EmcPmacroDqTxDrv: Param := 56
  const EmcSelDpdCtrl: Param := 57
  const EmcPmacroCaTxDrv: Param := 58
  const EmcObdly: Param := 59
  const EmcZcalInterval: Param := 60
  const EmcPmacroCmdRxTermMode: Param := 61
  const EmcDataBrlshft0: Param := 62
  const EmcPmacroDataRxTermMode: Param := 63
  const EmcDataBrlshft1: Param := 64
  const McEmemArbTimingRc: Param := 65
  const EmcDqsBrlshft0: Param := 66
  const McEmemArbRsv: Param := 67
  const EmcDqsBrlshft1: Param := 68
  const EmcCfgPipe2: Param := 69
  const EmcCfgPipe1: Param := 70
  const EmcPmacroCmdCtrl0: Param := 71
  const EmcPmacroCmdCtrl1: Param := 72
  const EmcRas: Param := 73
  const EmcPmacroVttgenCtrl2: Param := 74
  const EmcW2p: Param := 75
  const EmcPmacroCmdPadRxCtrl: Param := 76
  const EmcQSafe: Param := 77
  const EmcPmacroDataPadRxCtrl: Param := 78
  const EmcRdv: Param := 79
  const McEmemArbDaCovers: Param := 80
  const EmcRw2Pden: Param := 81
  const EmcPmacroCmdCtrl2: Param := 82
  const EmcRfcPb: Param := 83
  const EmcPmacroQuseDdllRank0_0: Param := 84
  const EmcCfgUpdate: Param := 85
  const EmcPmacroQuseDdllRank0_1: Param := 86
  const EmcRfc: Param := 87
  const EmcPmacroQuseDdllRank0_2: Param := 88
  const EmcTxsr: Param := 89
  const EmcPmacroQuseDdllRank0_3: Param := 90
  const EmcMc2EmcQ: Param := 91
  const EmcPmacroQuseDdllRank0_4: Param := 92
  const McEmemArbRing1Throttle: Param := 93
  const EmcPmacroQuseDdllRank0_5: Param := 94
  const EmcPmacroQuseDdllRank1_0: Param := 95
  const EmcAr2Pden: Param := 96
  const EmcPmacroQuseDdllRank1_1: Param := 97
  const EmcRfcSlr: Param := 98
  const EmcPmacroQuseDdllRank1_2: Param := 99
  const EmcIbdly: Param := 100
  const EmcPmacroQuseDdllRank1_3: Param := 101
  const McEmemArbTimingRFCPB: Param := 102
  const EmcPmacroQuseDdllRank1_4: Param := 103
  const EmcTfaw: Param := 104
  const EmcPmacroDataPadTxCtrl: Param := 105
  const EmcPmacroQuseDdllRank1_5: Param := 106
  const EmcTClkStable: Param := 107
  const EmcPmacroObDdllLongDqRank0_0: Param := 108
  const EmcPdex2Mrr: Param := 109
  const EmcPmacroObDdllLongDqRank0_1: Param := 110
  const EmcRdvMask: Param := 111
  const EmcPmacroObDdllLongDqRank0_2: Param := 112
  const EmcRdvEarlyMask: Param := 113
  const EmcPmacroObDdllLongDqRank0_3: Param := 114
  const EmcRdvEarly: Param := 115
  const EmcPmacroObDdllLongDqRank0_4: Param := 116
  const EmcPmacroDdllShortCmd_2: Param := 117
  const EmcPmacroObDdllLongDqRank0_5: Param := 118
  const McEmemArbTimingRp: Param := 119
  const EmcPmacroObDdllLongDqRank1_0: Param := 120
  const McEmemArbTimingRas: Param := 121
  const EmcPmacroObDdllLongDqRank1_1: Param := 122
  const McEmemArbTimingFaw: Param := 123
  const EmcPmacroObDdllLongDqRank1_2: Param := 124
  const McEmemArbTimingRap2Pre: Param := 125
  const EmcPmacroObDdllLongDqRank1_3: Param := 126
  const McEmemArbTimingWap2Pre: Param := 127
  const EmcPmacroObDdllLongDqRank1_4: Param := 128
  const McEmemArbTimingR2W: Param := 129
  const EmcPmacroObDdllLongDqRank1_5: Param := 130
  const McEmemArbTimingW2R: Param := 131
  const EmcCfgPipe: Param := 132
  const EmcPmacroObDdllLongDqsRank0_0: Param := 133
  const EmcRp: Param := 134
  const EmcPmacroObDdllLongDqsRank0_1: Param := 135
  const EmcR2w: Param := 136
  const EmcPmacroObDdllLongDqsRank0_2: Param := 137
  const EmcW2r: Param := 138
  const EmcPmacroObDdllLongDqsRank0_3: Param := 139
  const EmcR2p: Param := 140
  const EmcPmacroObDdllLongDqsRank0_4: Param := 141
  const EmcCcdmw: Param := 142
  const EmcPmacroObDdllLongDqsRank0_5: Param := 143
  const EmcRdRcd: Param := 144
  const EmcPmacroTxPwrd0: Param := 145
  const EmcPmacroObDdllLongDqsRank1_0: Param := 146
  const EmcWrRcd: Param := 147
  const EmcPmacroObDdllLongDqsRank1_1: Param := 148
  const EmcWdv: Param := 149
  const EmcPmacroObDdllLongDqsRank1_2: Param := 150
  const EmcQUse: Param := 151
  const EmcPmacroObDdllLongDqsRank1_3: Param := 152
  const EmcPdEx2Wr: Param := 153
  const EmcPmacroObDdllLongDqsRank1_4: Param := 154
  const EmcPdEx2Rd: Param := 155
  const EmcPmacroObDdllLongDqsRank1_5: Param := 156
  const EmcPdex2Cke: Param := 157
  const EmcPmacroIbDdllLongDqsRank0_0: Param := 158
  const EmcPChg2Pden: Param := 159
  const EmcPmacroTxPwrd1: Param := 160
  const EmcPmacroIbDdllLongDqsRank0_1: Param := 161
  const EmcAct2Pden: Param := 162
  const EmcPmacroIbDdllLongDqsRank0_2: Param := 163
  const EmcCke2Pden: Param := 164
  const EmcPmacroIbDdllLongDqsRank0_3: Param := 165
  const EmcTcke: Param := 166
  const EmcPmacroIbDdllLongDqsRank1_0: Param := 167
  const EmcTrpab: Param := 168
  const EmcPmacroIbDdllLongDqsRank1_1: Param := 169
  const EmcClkenOverride: Param := 170
  const EmcPmacroIbDdllLongDqsRank1_2: Param := 171
  const EmcEInput: Param := 172
  const EmcPmacroIbDdllLongDqsRank1_3: Param := 173
  const EmcEInputDuration: Param := 174
  const EmcPmacroTxPwrd2: Param := 175
  const EmcPmacroDdllLongCmd_0: Param := 176
  const EmcPutermExtra: Param := 177
  const EmcPmacroDdllLongCmd_1: Param := 178
  const EmcTckesr: Param := 179
  const EmcPmacroDdllLongCmd_2: Param := 180
  const EmcTpd: Param := 181
  const EmcPmacroDdllLongCmd_3: Param := 182
  const EmcWdvMask: Param := 183
  const McEmemArbCfg: Param := 184
  const EmcWdvChk: Param := 185
  const McEmemArbMisc1: Param := 186
  const EmcCmdBrlshft0: Param := 187
  const EmcMrsWaitCnt2: Param := 188
  const EmcPmacroIbRxrt: Param := 189
  const EmcMrsWaitCnt: Param := 190
  const EmcPmacroDdllLongCmd_4: Param := 191
  const EmcAutoCalInterval: Param := 192
  const McEmemArbOutstandingReq: Param := 193
  const McEmemArbRefpbHpCtrl: Param := 194
  const EmcCmdBrlshft1: Param := 195
  const EmcRrd: Param := 196
  const EmcQuseBrlshft0: Param := 197
  const EmcFbioCfg8: Param := 198
  const EmcQuseBrlshft1: Param := 199
  const EmcTxsrDll: Param := 200
  const EmcQuseBrlshft2: Param := 201
  const EmcTxdsrvttgen: Param := 202
  const EmcQuseBrlshft3: Param := 203
  const EmcPmacroVttgenCtrl0: Param := 204
  const EmcPmacroVttgenCtrl1: Param := 205
  const EmcCmdBrlshft2: Param := 206
  const EmcCmdBrlshft3: Param := 207
  const EmcAutoCalConfig3: Param := 208
  const EmcTRefBw: Param := 209
  const EmcAutoCalConfig4: Param := 210
  const EmcQpop: Param := 211
  const EmcAutoCalConfig5: Param := 212
  const EmcPmacroAutocalCfgCommon: Param := 213
  const EmcAutoCalConfig6: Param := 214
  const EmcWev: Param := 215
  const EmcWsv: Param := 216
  const EmcAutoCalConfig7: Param := 217
  const EmcCfg3: Param := 218
  const EmcQuseWidth: Param := 219
  const EmcPmacroTxPwrd3: Param := 220
  const EmcAutoCalConfig8: Param := 221
  const EmcPmacroBgBiasCtrl0: Param := 222
  const McEmemArbTimingRcd: Param := 223
  const EmcXm2CompPadCtrl2: Param := 224
  const McEmemArbTimingCcdmw: Param := 225
  const McEmemArbOverride: Param := 226
  const EmcXm2CompPadCtrl3: Param := 227
  const EmcRext: Param := 228
  const EmcTClkStop: Param := 229
  const EmcZcalWaitCnt: Param := 230
  const EmcWext: Param := 231
  const EmcRefctrl2: Param := 232
  const EmcZcalMrwCmd: Param := 233
  const EmcWeDuration: Param := 234
  const EmcWsDuration: Param := 235
  const EmcSwizzleRank0Byte0: Param := 236
  const EmcPutermWidth: Param := 237
  const McEmemArbTimingRrd: Param := 238
  const EmcSwizzleRank0Byte1: Param := 239
  const McEmemArbTimingR2R: Param := 240
  const McEmemArbTimingW2W: Param := 241
  const EmcSwizzleRank0Byte2: Param := 242
  const EmcPmacroTxSelClkSrc0: Param := 243
  const EmcSwizzleRank0Byte3: Param := 244
  const EmcPmacroTxSelClkSrc1: Param := 245
  const EmcSwizzleRank1Byte0: Param := 246
  const EmcSwizzleRank1Byte1: Param := 247
  const EmcPmacroTxSelClkSrc3: Param := 248
  const EmcSwizzleRank1Byte2: Param := 249
  const EmcSwizzleRank1Byte3: Param := 250
  const EmcPmacroTxSelClkSrc2: Param := 251
  const EmcPmacroCmdBrickCtrlFdpd: Param := 252
  const EmcPmacroDataBrickCtrlFdpd: Param := 253
  const EmcPmacroTxSelClkSrc4: Param := 254
  const EmcFbioCfg7: Param := 255
  const McEmemArbRefpbBankCtrl: Param := 256
  const EmcDynSelfRefControl: Param := 257
  const EmcPmacroTxSelClkSrc5: Param := 258
  const EmcDllCfg1: Param := 259
  const EmcPmacroPadCfgCtrl: Param := 260
  const EmcRefresh: Param := 261
  const EmcCmdQ: Param := 262
  const EmcAcpdControl: Param := 263
  const EmcAutoCalVrefSel1: Param := 264
  const EmcXm2CompPadCtrl: Param := 265
  const EmcCfgDigDllPeriod: Param := 266
  const EmcCfgDigDll_1: Param := 267
  const EmcPreRefreshReqCnt: Param := 268
  const EmcPinGpio: Param := 269
  const EmcPinGpioEn: Param := 270
  const EmcDevSelect: Param := 271
  const EmcZcalWarmColdBootEnables: Param := 272
  const EmcCfgDigDllPeriodWarmBoot: Param := 273
  const EmcBctSpare13: Param := 274
  const EmcBctSpare12: Param := 275
  const EmcBctSpare7: Param := 276
  const EmcBctSpare6: Param := 277
  const EmcBctSpare5: Param := 278
  const EmcBctSpare4: Param := 279
  const EmcBctSpare3: Param := 280
  const EmcBctSpare2: Param := 281
  const EmcBctSpare1: Param := 282
  const EmcBctSpare0: Param := 283
  const EmcBctSpare9: Param := 284
  const EmcBctSpare8: Param := 285
  const BootRomPatchData: Param := 286
  const BootRomPatchControl: Param := 287
  const McClkenOverrideAllWarmBoot: Param := 288
  const EmcClkenOverrideAllWarmBoot: Param := 289
  const EmcMrsWarmBootEnable: Param := 290
  const ClearClk2Mc1: Param := 291
  const EmcWarmBootExtraModeRegWriteEnable: Param := 292
  const ClkRstControllerPllmMisc2OverrideEnable: Param := 293
  const EmcDbgWriteMux: Param := 294
  const EmcExtraRefreshNum: Param := 295
  const PmcIoDpd3ReqWait: Param := 296
  const AhbArbitrationXbarCtrlMemInitDone: Param := 297
  const MemoryType: Param := 298
  const PmcIoDpd4ReqWait: Param := 299
  const EmcTimingControlWait: Param := 300
  const EmcZcalWarmBootWait: Param := 301
  const WarmBootWait: Param := 302
  const EmcPinProgramWait: Param := 303
  const EmcAutoCalWait: Param := 304
  const SwizzleRankByteEncode: Param := 305
  const EmcMrwLpddr2ZcalWarmBoot: Param := 306
  const EmcWarmBootMrwExtra: Param := 307
  const EmcMrw6: Param := 308
  const EmcMrw8: Param := 309
  const EmcMrw9: Param := 310
  const EmcMrw10: Param := 311
  const EmcMrw12: Param := 312
  const EmcMrw13: Param := 313
  const EmcMrw14: Param := 314
  const EmcMrw1: Param := 315
  const EmcMrw2: Param := 316
  const EmcMrw3: Param := 317
  const EmcMrw4: Param := 318
  const EmcMrs: Param := 319
  const EmcEmrs: Param := 320
  const EmcEmrs2: Param := 321
  const EmcEmrs3: Param := 322
  const EmcWarmBootMrsExtra: Param := 323
  const EmcZqCalDdr3WarmBoot: Param := 324
  const EmcCmdMappingByte: Param := 325
  const EmcPmacroBrickMapping0: Param := 326
  const EmcPmacroBrickMapping1: Param := 327
  const EmcPmacroBrickMapping2: Param := 328
  const McVideoProtectGpuOverride0: Param := 329
  const EmcCmdMappingCmd0_0: Param := 330
  const McVideoProtectBomAdrHi: Param := 331
  const McVideoProtectWriteAccess: Param := 332
  const EmcCmdMappingCmd0_1: Param := 333
  const McSecCarveoutAdrHi: Param := 334
  const McMtsCarveoutAdrHi: Param := 335
  const EmcCmdMappingCmd1_0: Param := 336
  const McGeneralizedCarveout5BomHi: Param := 337
  const McGeneralizedCarveout3BomHi: Param := 338
  const EmcCmdMappingCmd1_1: Param := 339
  const McGeneralizedCarveout2BomHi: Param := 340
  const McGeneralizedCarveout4BomHi: Param := 341
  const EmcCmdMappingCmd2_0: Param := 342
  const McGeneralizedCarveout1BomHi: Param := 343
  const EmcAdrCfg: Param := 344
  const EmcCmdMappingCmd2_1: Param := 345
  const McEmemAdrCfg: Param := 346
  const McSecCarveoutProtectWriteAccess: Param := 347
  const McMtsCarveoutRegCtrl: Param := 348
  const EmcCmdMappingCmd3_0: Param := 349
  const McGeneralizedCarveout2Cfg0: Param := 350
  const EmcCmdMappingCmd3_1: Param := 351
  const McGeneralizedCarveout4Cfg0: Param := 352
  const McVideoProtectVprOverride: Param := 353
  const McGeneralizedCarveout5Cfg0: Param := 354
  const EmcCmdMappingCmd0_2: Param := 355
  const McGeneralizedCarveout1Cfg0: Param := 356
  const EmcCmdMappingCmd1_2: Param := 357
  const EmcCmdMappingCmd2_2: Param := 358
  const McGeneralizedCarveout3Cfg0: Param := 359
  const EmcCmdMappingCmd3_2: Param := 360
  const McEmemAdrCfgChannelMask: Param := 361
  const McEmemAdrCfgDev0: Param := 362
  const McEmemAdrCfgBankMask0: Param := 363
  const McEmemAdrCfgDev1: Param := 364
  const McEmemAdrCfgBankMask1: Param := 365
  const McEmemAdrCfgBankMask2: Param := 366
  const McVideoProtectGpuOverride1: Param := 367
  const McEmemCfg: Param := 368
  const McGeneralizedCarveout3Bom: Param := 369
  const McGeneralizedCarveout1Bom: Param := 370
  const McGeneralizedCarveout4Bom: Param := 371
  const McGeneralizedCarveout2Bom: Param := 372
  const McGeneralizedCarveout5Bom: Param := 373
  const McVideoProtectBom: Param := 374
  const McVideoProtectSizeMb: Param := 375
  const McSecCarveoutBom: Param := 376
  const McVideoProtectVprOverride1: Param := 377
  const McSecCarveoutSizeMb: Param := 378
  const McMtsCarveoutBom: Param := 379
  const McMtsCarveoutSizeMb: Param := 380
  const McGeneralizedCarveout4Size128kb: Param := 381
  const McGeneralizedCarveout3Size128kb: Param := 382
  const McGeneralizedCarveout2Size128kb: Param := 383
  const McGeneralizedCarveout1Size128kb: Param := 384
  const McGeneralizedCarveout5Size128kb: Param := 385
  const McGeneralizedCarveout1Access0: Param := 386
  const McGeneralizedCarveout1Access1: Param := 387
  const McGeneralizedCarveout1Access2: Param := 388
  const McGeneralizedCarveout1Access3: Param := 389
  const McGeneralizedCarveout1Access4: Param := 390
  const McGeneralizedCarveout2Access0: Param := 391
  const McGeneralizedCarveout2Access1: Param := 392
  const McGeneralizedCarveout2Access2: Param := 393
  const McGeneralizedCarveout2Access3: Param := 394
  const McGeneralizedCarveout2Access4: Param := 395
  const McGeneralizedCarveout3Access0: Param := 396
  const McGeneralizedCarveout3Access1: Param := 397
  const McGeneralizedCarveout3Access2: Param := 398
  const McGeneralizedCarveout3Access3: Param := 399
  const McGeneralizedCarveout3Access4: Param := 400
  const McGeneralizedCarveout4Access0: Param := 401
  const McGeneralizedCarveout4Access1: Param := 402
  const McGeneralizedCarveout4Access2: Param := 403
  const McGeneralizedCarveout4Access3: Param := 404
  const McGeneralizedCarveout4Access4: Param := 405
  const McGeneralizedCarveout5Access0: Param := 406
  const McGeneralizedCarveout5Access1: Param := 407
  const McGeneralizedCarveout5Access2: Param := 408
  const McGeneralizedCarveout5Access3: Param := 409
  const McGeneralizedCarveout1ForceInternalAccess0: Param := 410
  const McGeneralizedCarveout1ForceInternalAccess1: Param := 411
  const McGeneralizedCarveout1ForceInternalAccess2: Param := 412
  const McGeneralizedCarveout1ForceInternalAccess3: Param := 413
  const McGeneralizedCarveout1ForceInternalAccess4: Param := 414
  const McGeneralizedCarveout2ForceInternalAccess0: Param := 415
  const McGeneralizedCarveout2ForceInternalAccess1: Param := 416
  const McGeneralizedCarveout2ForceInternalAccess2: Param := 417
  const McGeneralizedCarveout2ForceInternalAccess3: Param := 418
  const McGeneralizedCarveout2ForceInternalAccess4: Param := 419
  const McGeneralizedCarveout3ForceInternalAccess0: Param := 420
  const McGeneralizedCarveout3ForceInternalAccess1: Param := 421
  const McGeneralizedCarveout3ForceInternalAccess2: Param := 422
  const McGeneralizedCarveout3ForceInternalAccess3: Param := 423
  const McGeneralizedCarveout3ForceInternalAccess4: Param := 424
  const McGeneralizedCarveout4ForceInternalAccess0: Param := 425
  const McGeneralizedCarveout4ForceInternalAccess1: Param := 426
  const McGeneralizedCarveout4ForceInternalAccess2: Param := 427
  const McGeneralizedCarveout4ForceInternalAccess3: Param := 428
  const McGeneralizedCarveout4ForceInternalAccess4: Param := 429
  const McGeneralizedCarveout5ForceInternalAccess0: Param := 430
  const McGeneralizedCarveout5ForceInternalAccess1: Param := 431
  const McGeneralizedCarveout5ForceInternalAccess2: Param := 432
  const McGeneralizedCarveout5ForceInternalAccess3: Param := 433
  const PllMInputDivider: Param := 434
  const PllMFeedbackDivider: Param := 435
  const PllMPostDivider: Param := 436
  const PllMKVCO: Param := 437
  const PllMKCP: Param := 438
  const PllMSetupControl: Param := 439
  const PllMStableTime: Param := 440
}
