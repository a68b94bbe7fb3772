/** `load_config_from_kconfig`: the register values the driver writes at
    start-up. Five limits come from build-time settings and go through their
    registers' clamping `set_value`; every other register is given fixed
    settings through `set_values`; the mask registers are left at 0. The
    six ADC channel switches of the build configuration decide which bits
    of ADC Function Disable 0 are set. */
module Defaults {
  import opened Bits
  import opened LimitTypes
  import opened ControlTypes
  import opened ChargerTypes
  import opened NtcTypes
  import opened AdcTypes
  import opened Configuration

  /** The `CONFIG_BQ25798_*` build settings the builder reads. */
  datatype Kconfig = Kconfig(
    vregMv: u16,
    ichgMa: u16,
    vindpmMv: u16,
    iindpmMa: u16,
    vsysMinMv: u16,
    adcEnable: bool,
    adcVbat: bool,
    adcIbat: bool,
    adcVsys: bool,
    adcVbus: bool,
    adcIbus: bool,
    adcTemp: bool)

  // ---------------------------------------------------------------------------
  // The fixed settings: each starts from the value-initialised `Values{}` and
  // assigns the fields the builder names.

  const KconfigIotg: IotgValues := DefaultIotg.(otgCurrentMa := 3000, prechargeTimerShort := false)

  const KconfigPrecharge: PrechargeValues :=
    DefaultPrecharge.(prechargeCurrentMa := 120, threshold := VBATLowThreshold.THRESH_714)

  const KconfigTermination: TerminationValues := DefaultTermination.(itermMa := 200)

  const KconfigRecharge: RechargeValues :=
    DefaultRecharge.(cellCount := CellCount.Two, trechg := DeglitchTime.T_1024ms, vrechgOffsetMv := 150)

  const KconfigTimer: TimerValues :=
    DefaultTimer.(topoffTimer := TopOffTimer.Disabled, enChgTimer := true, enPrechgTimer := true,
                  enTrichgTimer := true, chgTimer := ChargeTimer.Hr12, tmr2xEn := true)

  const KconfigChargerControl0: ChargerControl0Values :=
    DefaultChargerControl0.(enAutoIbatdis := true, enBackup := false, enChg := true, enHiz := false,
                            enIco := false, enTerm := true, forceIbatdis := false, forceIco := false)

  const KconfigChargerControl1: ChargerControl1Values :=
    DefaultChargerControl1.(vbusBackup := VBUSBackupRatio.Ratio80, vacOvp := VACOVPThreshold.V26,
                            wdRst := false, watchdog := WatchdogTimeout.Sec40)

  const KconfigChargerControl2: ChargerControl2Values :=
    DefaultChargerControl2.(forceIndet := false, autoIndetEn := true, en12v := false, en9v := false,
                            hvdcpEn := false, sdrvCtrl := SFETControl.Idle, sdrvDly := false)

  const KconfigChargerControl3: ChargerControl3Values :=
    DefaultChargerControl3.(disAcdrv := false, enOtg := false, pfmOtgDis := false, pfmFwdDis := false,
                            wkupDly := false, disLdo := false, disOtgOoa := false, disFwdOoa := false)

  const KconfigChargerControl4: ChargerControl4Values :=
    DefaultChargerControl4.(enAcdrv2 := false, enAcdrv1 := false, pwmFreq750khz := true, disStat := false,
                            disVsysShort := false, disVotgUvp := false, forceVindpmDet := false, enIbusOcp := true)

  const KconfigChargerControl5: ChargerControl5Values :=
    DefaultChargerControl5.(sfetPresent := false, enIbat := false, ibatReg := IBATRegulation.A6,
                            enIindpm := true, enExtilim := true, enBatoc := false)

  const KconfigTemperature: TemperatureValues :=
    DefaultTemperature.(treg := ThermalRegulation.Deg120, tshut := ThermalShutdown.Deg150, vbusPdEn := false,
                        vac1PdEn := false, vac2PdEn := false, bkupAcfet1On := false)

  const KconfigNtcControl0: NtcControl0Values :=
    DefaultNtcControl0.(jeitaVset := JEITAVoltage.VREGm400mV, jeitaIseth := JEITACurrent.Unchanged,
                        jeitaIsetc := JEITACurrent.Pct20)

  const KconfigNtcControl1: NtcControl1Values :=
    DefaultNtcControl1.(tsCool := TSCOOL.PCT_68_4, tsWarm := TSWARM.PCT_44_8, bhot := BHOT.Deg60,
                        bcold := BCOLD.DegMinus10, tsIgnore := false)

  /** The ADC control settings after `adc_enable` is assigned (false on both
      branches of `CONFIG_BQ25798_ADC_ENABLE`). */
  const KconfigAdcControl: AdcControlValues :=
    DefaultAdcControl.(adcEnable := false, sampleResolution := ADCSampleResolution.RES_14_BIT,
                       averageEnable := false, averageInit := false, adcRateOneshot := true)

  const KconfigAdcFunctionDisable1: AdcFunctionDisable1Values :=
    DefaultAdcFunctionDisable1.(dpAdcDisable := false, dmAdcDisable := false, vac2AdcDisable := false,
                                vac1AdcDisable := false)

  const KconfigMppt: MpptValues :=
    DefaultMppt.(vocPct := VOCPct.PCT_0_8750, vocDly := VOCDelay.Delay_300ms, vocRate := VOCRate.Interval_2min,
                 enMppt := false)

  const KconfigDpdm: DpdmValues := DefaultDpdm.(dplus := OutputLevel.HIZ, dminus := OutputLevel.HIZ)

  /** ADC Function Disable 0: a channel the build leaves out is disabled;
      the die temperature channel is always on. */
  function KconfigAdcFunctionDisable0(kc: Kconfig): (v: AdcFunctionDisable0Values)
    ensures !v.tdieAdcDisable
  {
    DefaultAdcFunctionDisable0.(vbatAdcDisable := !kc.adcVbat, ibatAdcDisable := !kc.adcIbat,
                                vsysAdcDisable := !kc.adcVsys, vbusAdcDisable := !kc.adcVbus,
                                ibusAdcDisable := !kc.adcIbus, tsAdcDisable := !kc.adcTemp,
                                tdieAdcDisable := false)
  }

  // ---------------------------------------------------------------------------
  // The bytes the fixed settings pack to

  lemma KconfigOtgPacks()
    ensures VotgCode(5000) == 0xDC
    ensures PackIotg(KconfigIotg) == 0x4B
  {
    VotgExample();
    assert 3000 / 40 % 128 == 75;
    ByteOfValue(0x4B);
  }

  lemma KconfigPrechargePacks()
    ensures PackPrecharge(KconfigPrecharge) == 0xC3
  {
    assert KconfigPrecharge.prechargeCurrentMa / 40 % 64 == 3;
    ByteOfValue(0x03);
    assert ByteOf(3) == 0x03;
  }

  lemma KconfigTerminationPacks()
    ensures PackTermination(KconfigTermination) == 0x05
  {
    assert KconfigTermination.itermMa / 40 % 32 == 5;
    ByteOfValue(0x05);
    assert ByteOf(5) == 0x05;
  }

  lemma KconfigRechargePacks()
    ensures PackRecharge(KconfigRecharge) == 0x63
  {
    assert KconfigRecharge.vrechgOffsetMv / 50 % 16 == 3;
    ByteOfValue(0x03);
    assert ByteOf(3) == 0x03;
  }

  lemma KconfigTimerPacks()
    ensures PackTimer(KconfigTimer) == 0x3D
  {
  }

  lemma KconfigChargerControlPacks()
    ensures PackChargerControl0(KconfigChargerControl0) == 0xA2
    ensures PackChargerControl1(KconfigChargerControl1) == 0x85
    ensures PackChargerControl2(KconfigChargerControl2) == 0x40
    ensures PackChargerControl3(KconfigChargerControl3) == 0x00
    ensures PackChargerControl4(KconfigChargerControl4) == 0x21
    ensures PackChargerControl5(KconfigChargerControl5) == 0x1E
  {
  }

  lemma KconfigThermalPacks()
    ensures PackTemperature(KconfigTemperature) == 0xC0
    ensures PackNtcControl0(KconfigNtcControl0) == 0x7A
    ensures PackNtcControl1(KconfigNtcControl1) == 0x54
  {
  }

  lemma KconfigAdcControlPacks()
    ensures PackAdcControl(KconfigAdcControl) == 0x50
  {
  }

  lemma KconfigMiscPacks()
    ensures PackMppt(KconfigMppt) == 0xAA
    ensures PackDpdm(KconfigDpdm) == 0x00
    ensures PackAdcFunctionDisable1(KconfigAdcFunctionDisable1) == 0x00
  {
  }

  /** Each ADC channel's disable bit is set exactly when the build leaves
      that channel out; the die temperature bit and reserved bit 0 are
      clear. All channels built in gives 0x00, none gives 0xFC. */
  lemma KconfigAdcFunctionDisable0Bits(kc: Kconfig)
    ensures var b := PackAdcFunctionDisable0(KconfigAdcFunctionDisable0(kc));
            (Flag(b, 7) <==> !kc.adcIbus) && (Flag(b, 6) <==> !kc.adcIbat)
            && (Flag(b, 5) <==> !kc.adcVbus) && (Flag(b, 4) <==> !kc.adcVbat)
            && (Flag(b, 3) <==> !kc.adcVsys) && (Flag(b, 2) <==> !kc.adcTemp)
            && b & 0x03 == 0
    ensures kc.adcVbat && kc.adcIbat && kc.adcVsys && kc.adcVbus && kc.adcIbus && kc.adcTemp
            ==> PackAdcFunctionDisable0(KconfigAdcFunctionDisable0(kc)) == 0x00
    ensures !kc.adcVbat && !kc.adcIbat && !kc.adcVsys && !kc.adcVbus && !kc.adcIbus && !kc.adcTemp
            ==> PackAdcFunctionDisable0(KconfigAdcFunctionDisable0(kc)) == 0xFC
  {
    var v := KconfigAdcFunctionDisable0(kc);
    var b := PackAdcFunctionDisable0(v);
    assert UnpackAdcFunctionDisable0(b) == v;
  }

  // ---------------------------------------------------------------------------
  // The builder, one block of `load_config_from_kconfig()` at a time. A
  // register's `set_value(s)` is its codec function applied to the setting.

  /** The input, charge and OTG limits: the five build-time limits through
      their clamping encoders, VOTG 5000 mV and IOTG 3000 mA. */
  method LoadLimits(kc: Kconfig, params: ConfigParams) returns (params': ConfigParams)
    ensures params' == params.(limit := ConfigLimit(
              VsysminCode(kc.vsysMinMv) as int, VregCode(kc.vregMv), IchgCode(kc.ichgMa),
              VindpmCode(kc.vindpmMv) as int, IindpmCode(kc.iindpmMa), 0xDC, 0x4B))
  {
    params' := params;
    params' := params'.(limit := params'.limit.(vreg := VregCode(kc.vregMv)));
    params' := params'.(limit := params'.limit.(ichg := IchgCode(kc.ichgMa)));
    params' := params'.(limit := params'.limit.(vindpm := VindpmCode(kc.vindpmMv) as int));
    params' := params'.(limit := params'.limit.(iindpm := IindpmCode(kc.iindpmMa)));
    params' := params'.(limit := params'.limit.(vsysmin := VsysminCode(kc.vsysMinMv) as int));
    KconfigOtgPacks();
    params' := params'.(limit := params'.limit.(votg := VotgCode(5000)));
    params' := params'.(limit := params'.limit.(iotg := PackIotg(KconfigIotg) as int));
  }

  /** Precharge, termination, recharge and the safety timers. */
  method LoadChargeControl(params: ConfigParams) returns (params': ConfigParams)
    ensures params' == params.(control := params.control.(precharge := 0xC3, termination := 0x05,
                                                           recharge := 0x63, timer := 0x3D))
  {
    KconfigPrechargePacks();
    KconfigTerminationPacks();
    KconfigRechargePacks();
    KconfigTimerPacks();
    params' := params;
    params' := params'.(control := params'.control.(precharge := PackPrecharge(KconfigPrecharge) as int));
    params' := params'.(control := params'.control.(termination := PackTermination(KconfigTermination) as int));
    params' := params'.(control := params'.control.(recharge := PackRecharge(KconfigRecharge) as int));
    params' := params'.(control := params'.control.(timer := PackTimer(KconfigTimer) as int));
  }

  /** Charger Control 0 to 5. */
  method LoadChargerControl(params: ConfigParams) returns (params': ConfigParams)
    ensures params' == params.(control := params.control.(
              chargerControl0 := 0xA2, chargerControl1 := 0x85, chargerControl2 := 0x40,
              chargerControl3 := 0x00, chargerControl4 := 0x21, chargerControl5 := 0x1E))
  {
    KconfigChargerControlPacks();
    params' := params;
    params' := params'.(control := params'.control.(chargerControl0 := PackChargerControl0(KconfigChargerControl0) as int));
    params' := params'.(control := params'.control.(chargerControl1 := PackChargerControl1(KconfigChargerControl1) as int));
    params' := params'.(control := params'.control.(chargerControl2 := PackChargerControl2(KconfigChargerControl2) as int));
    params' := params'.(control := params'.control.(chargerControl3 := PackChargerControl3(KconfigChargerControl3) as int));
    params' := params'.(control := params'.control.(chargerControl4 := PackChargerControl4(KconfigChargerControl4) as int));
    params' := params'.(control := params'.control.(chargerControl5 := PackChargerControl5(KconfigChargerControl5) as int));
  }

  /** Thermal regulation and shutdown, and the two NTC control registers. */
  method LoadThermalControl(params: ConfigParams) returns (params': ConfigParams)
    ensures params' == params.(control := params.control.(temperature := 0xC0, ntcControl0 := 0x7A,
                                                           ntcControl1 := 0x54))
  {
    KconfigThermalPacks();
    params' := params;
    params' := params'.(control := params'.control.(temperature := PackTemperature(KconfigTemperature) as int));
    params' := params'.(control := params'.control.(ntcControl0 := PackNtcControl0(KconfigNtcControl0) as int));
    params' := params'.(control := params'.control.(ntcControl1 := PackNtcControl1(KconfigNtcControl1) as int));
  }

  /** ADC control (one-shot, 14-bit, not enabled whichever way
      `CONFIG_BQ25798_ADC_ENABLE` is set) and the two function-disable
      registers. */
  method LoadAdc(kc: Kconfig, params: ConfigParams) returns (params': ConfigParams)
    ensures params' == params.(adc := ConfigADC(
              0x50, PackAdcFunctionDisable0(KconfigAdcFunctionDisable0(kc)) as int, 0x00))
  {
    var adcControl := DefaultAdcControl;
    if kc.adcEnable {
      adcControl := adcControl.(adcEnable := false);
    } else {
      adcControl := adcControl.(adcEnable := false);
    }
    adcControl := adcControl.(sampleResolution := ADCSampleResolution.RES_14_BIT, averageEnable := false,
                              averageInit := false, adcRateOneshot := true);
    assert adcControl == KconfigAdcControl;
    KconfigAdcControlPacks();
    KconfigMiscPacks();
    params' := params;
    params' := params'.(adc := params'.adc.(adcControl := PackAdcControl(adcControl) as int));
    params' := params'.(adc := params'.adc.(adcFunctionDisable0 := PackAdcFunctionDisable0(KconfigAdcFunctionDisable0(kc)) as int));
    params' := params'.(adc := params'.adc.(adcFunctionDisable1 := PackAdcFunctionDisable1(KconfigAdcFunctionDisable1) as int));
  }

  /** MPPT off and both D+/D- drivers high-impedance. */
  method LoadMpptAndDpdm(params: ConfigParams) returns (params': ConfigParams)
    ensures params' == params.(control := params.control.(mppt := 0xAA, dpdm := 0x00))
  {
    KconfigMiscPacks();
    params' := params;
    params' := params'.(control := params'.control.(mppt := PackMppt(KconfigMppt) as int));
    params' := params'.(control := params'.control.(dpdm := PackDpdm(KconfigDpdm) as int));
  }

  /** The register values `load_config_from_kconfig()` produces for the
      build settings `kc`: the five build-time limits as their clamping
      `set_value` encodes them, every fixed register at its packed byte,
      ADC Function Disable 0 following the build's channel switches, and
      the mask registers at 0. */
  ghost predicate FromKconfig(kc: Kconfig, params: ConfigParams)
  {
    && params.limit == ConfigLimit(
         VsysminCode(kc.vsysMinMv) as int, VregCode(kc.vregMv), IchgCode(kc.ichgMa),
         VindpmCode(kc.vindpmMv) as int, IindpmCode(kc.iindpmMa), 0xDC, 0x4B)
    && params.control == ConfigControl(
         0xC3, 0x05, 0x63, 0x3D, 0xA2, 0x85, 0x40, 0x00, 0x21, 0x1E, 0xAA, 0xC0, 0x7A, 0x54, 0x00)
    && params.mask == DefaultMask
    && params.adc == ConfigADC(0x50, PackAdcFunctionDisable0(KconfigAdcFunctionDisable0(kc)) as int, 0x00)
  }

  /** `load_config_from_kconfig()`: start from `ConfigParams{}` and set the
      registers block by block in source order. */
  method LoadConfigFromKconfig(kc: Kconfig) returns (params: ConfigParams)
    ensures FromKconfig(kc, params)
  {
    params := DefaultParams;
    params := LoadLimits(kc, params);
    params := LoadChargeControl(params);
    params := LoadChargerControl(params);
    params := LoadThermalControl(params);
    params := LoadAdc(kc, params);
    params := LoadMpptAndDpdm(params);
  }
}
