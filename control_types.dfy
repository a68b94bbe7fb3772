/** Codecs of the charge-control registers that are not charger-control,
    NTC or limit registers: precharge, termination, recharge, timer, MPPT,
    temperature and the D+/D- driver. */
module ControlTypes {
  import opened Bits

  /** `enum class VBATLowThreshold`: a 2-bit field; the n-th enumerator has value n. */
  datatype VBATLowThreshold =
    | THRESH_15
    | THRESH_622
    | THRESH_667
    | THRESH_714
  {
    /** The enumerator's value, `static_cast<uint8_t>(e)`. */
    function Code(): (c: bv8)
      ensures c < 4
    {
      match this
      case THRESH_15 => 0
      case THRESH_622 => 1
      case THRESH_667 => 2
      case THRESH_714 => 3
    }
  }

  /** `static_cast<VBATLowThreshold>` of a 2-bit field: every pattern names an enumerator. */
  function VBATLowThresholdOf(c: bv8): (e: VBATLowThreshold)
    requires c < 4
    ensures e.Code() == c
  {
    if c == 0 then VBATLowThreshold.THRESH_15
    else if c == 1 then VBATLowThreshold.THRESH_622
    else if c == 2 then VBATLowThreshold.THRESH_667
    else VBATLowThreshold.THRESH_714
  }

  /** `enum class CellCount`: a 2-bit field; the n-th enumerator has value n. */
  datatype CellCount =
    | One
    | Two
    | Three
    | Four
  {
    /** The enumerator's value, `static_cast<uint8_t>(e)`. */
    function Code(): (c: bv8)
      ensures c < 4
    {
      match this
      case One => 0
      case Two => 1
      case Three => 2
      case Four => 3
    }
  }

  /** `static_cast<CellCount>` of a 2-bit field: every pattern names an enumerator. */
  function CellCountOf(c: bv8): (e: CellCount)
    requires c < 4
    ensures e.Code() == c
  {
    if c == 0 then CellCount.One
    else if c == 1 then CellCount.Two
    else if c == 2 then CellCount.Three
    else CellCount.Four
  }

  /** `enum class DeglitchTime`: a 2-bit field; the n-th enumerator has value n. */
  datatype DeglitchTime =
    | T_64ms
    | T_256ms
    | T_1024ms
    | T_2048ms
  {
    /** The enumerator's value, `static_cast<uint8_t>(e)`. */
    function Code(): (c: bv8)
      ensures c < 4
    {
      match this
      case T_64ms => 0
      case T_256ms => 1
      case T_1024ms => 2
      case T_2048ms => 3
    }
  }

  /** `static_cast<DeglitchTime>` of a 2-bit field: every pattern names an enumerator. */
  function DeglitchTimeOf(c: bv8): (e: DeglitchTime)
    requires c < 4
    ensures e.Code() == c
  {
    if c == 0 then DeglitchTime.T_64ms
    else if c == 1 then DeglitchTime.T_256ms
    else if c == 2 then DeglitchTime.T_1024ms
    else DeglitchTime.T_2048ms
  }

  /** `enum class TopOffTimer`: a 2-bit field; the n-th enumerator has value n. */
  datatype TopOffTimer =
    | Disabled
    | Min15
    | Min30
    | Min45
  {
    /** The enumerator's value, `static_cast<uint8_t>(e)`. */
    function Code(): (c: bv8)
      ensures c < 4
    {
      match this
      case Disabled => 0
      case Min15 => 1
      case Min30 => 2
      case Min45 => 3
    }
  }

  /** `static_cast<TopOffTimer>` of a 2-bit field: every pattern names an enumerator. */
  function TopOffTimerOf(c: bv8): (e: TopOffTimer)
    requires c < 4
    ensures e.Code() == c
  {
    if c == 0 then TopOffTimer.Disabled
    else if c == 1 then TopOffTimer.Min15
    else if c == 2 then TopOffTimer.Min30
    else TopOffTimer.Min45
  }

  /** `enum class ChargeTimer`: a 2-bit field; the n-th enumerator has value n. */
  datatype ChargeTimer =
    | Hr5
    | Hr8
    | Hr12
    | Hr24
  {
    /** The enumerator's value, `static_cast<uint8_t>(e)`. */
    function Code(): (c: bv8)
      ensures c < 4
    {
      match this
      case Hr5 => 0
      case Hr8 => 1
      case Hr12 => 2
      case Hr24 => 3
    }
  }

  /** `static_cast<ChargeTimer>` of a 2-bit field: every pattern names an enumerator. */
  function ChargeTimerOf(c: bv8): (e: ChargeTimer)
    requires c < 4
    ensures e.Code() == c
  {
    if c == 0 then ChargeTimer.Hr5
    else if c == 1 then ChargeTimer.Hr8
    else if c == 2 then ChargeTimer.Hr12
    else ChargeTimer.Hr24
  }

  /** `enum class VOCPct`: a 3-bit field; the n-th enumerator has value n. */
  datatype VOCPct =
    | PCT_0_5625
    | PCT_0_6250
    | PCT_0_6875
    | PCT_0_7500
    | PCT_0_8125
    | PCT_0_8750
    | PCT_0_9375
    | PCT_1_0000
  {
    /** The enumerator's value, `static_cast<uint8_t>(e)`. */
    function Code(): (c: bv8)
      ensures c < 8
    {
      match this
      case PCT_0_5625 => 0
      case PCT_0_6250 => 1
      case PCT_0_6875 => 2
      case PCT_0_7500 => 3
      case PCT_0_8125 => 4
      case PCT_0_8750 => 5
      case PCT_0_9375 => 6
      case PCT_1_0000 => 7
    }
  }

  /** `static_cast<VOCPct>` of a 3-bit field: every pattern names an enumerator. */
  function VOCPctOf(c: bv8): (e: VOCPct)
    requires c < 8
    ensures e.Code() == c
  {
    if c == 0 then VOCPct.PCT_0_5625
    else if c == 1 then VOCPct.PCT_0_6250
    else if c == 2 then VOCPct.PCT_0_6875
    else if c == 3 then VOCPct.PCT_0_7500
    else if c == 4 then VOCPct.PCT_0_8125
    else if c == 5 then VOCPct.PCT_0_8750
    else if c == 6 then VOCPct.PCT_0_9375
    else VOCPct.PCT_1_0000
  }

  /** `enum class VOCDelay`: a 2-bit field; the n-th enumerator has value n. */
  datatype VOCDelay =
    | Delay_50ms
    | Delay_300ms
    | Delay_2s
    | Delay_5s
  {
    /** The enumerator's value, `static_cast<uint8_t>(e)`. */
    function Code(): (c: bv8)
      ensures c < 4
    {
      match this
      case Delay_50ms => 0
      case Delay_300ms => 1
      case Delay_2s => 2
      case Delay_5s => 3
    }
  }

  /** `static_cast<VOCDelay>` of a 2-bit field: every pattern names an enumerator. */
  function VOCDelayOf(c: bv8): (e: VOCDelay)
    requires c < 4
    ensures e.Code() == c
  {
    if c == 0 then VOCDelay.Delay_50ms
    else if c == 1 then VOCDelay.Delay_300ms
    else if c == 2 then VOCDelay.Delay_2s
    else VOCDelay.Delay_5s
  }

  /** `enum class VOCRate`: a 2-bit field; the n-th enumerator has value n. */
  datatype VOCRate =
    | Interval_30s
    | Interval_2min
    | Interval_10min
    | Interval_30min
  {
    /** The enumerator's value, `static_cast<uint8_t>(e)`. */
    function Code(): (c: bv8)
      ensures c < 4
    {
      match this
      case Interval_30s => 0
      case Interval_2min => 1
      case Interval_10min => 2
      case Interval_30min => 3
    }
  }

  /** `static_cast<VOCRate>` of a 2-bit field: every pattern names an enumerator. */
  function VOCRateOf(c: bv8): (e: VOCRate)
    requires c < 4
    ensures e.Code() == c
  {
    if c == 0 then VOCRate.Interval_30s
    else if c == 1 then VOCRate.Interval_2min
    else if c == 2 then VOCRate.Interval_10min
    else VOCRate.Interval_30min
  }

  /** `enum class ThermalRegulation`: a 2-bit field; the n-th enumerator has value n. */
  datatype ThermalRegulation =
    | Deg60
    | Deg80
    | Deg100
    | Deg120
  {
    /** The enumerator's value, `static_cast<uint8_t>(e)`. */
    function Code(): (c: bv8)
      ensures c < 4
    {
      match this
      case Deg60 => 0
      case Deg80 => 1
      case Deg100 => 2
      case Deg120 => 3
    }
  }

  /** `static_cast<ThermalRegulation>` of a 2-bit field: every pattern names an enumerator. */
  function ThermalRegulationOf(c: bv8): (e: ThermalRegulation)
    requires c < 4
    ensures e.Code() == c
  {
    if c == 0 then ThermalRegulation.Deg60
    else if c == 1 then ThermalRegulation.Deg80
    else if c == 2 then ThermalRegulation.Deg100
    else ThermalRegulation.Deg120
  }

  /** `enum class ThermalShutdown`: a 2-bit field; the n-th enumerator has value n. */
  datatype ThermalShutdown =
    | Deg150
    | Deg130
    | Deg120
    | Deg85
  {
    /** The enumerator's value, `static_cast<uint8_t>(e)`. */
    function Code(): (c: bv8)
      ensures c < 4
    {
      match this
      case Deg150 => 0
      case Deg130 => 1
      case Deg120 => 2
      case Deg85 => 3
    }
  }

  /** `static_cast<ThermalShutdown>` of a 2-bit field: every pattern names an enumerator. */
  function ThermalShutdownOf(c: bv8): (e: ThermalShutdown)
    requires c < 4
    ensures e.Code() == c
  {
    if c == 0 then ThermalShutdown.Deg150
    else if c == 1 then ThermalShutdown.Deg130
    else if c == 2 then ThermalShutdown.Deg120
    else ThermalShutdown.Deg85
  }

  /** `enum class OutputLevel`: a 3-bit field; the n-th enumerator has value n. */
  datatype OutputLevel =
    | HIZ
    | VOLT_0V
    | VOLT_0V6
    | VOLT_1V2
    | VOLT_2V0
    | VOLT_2V7
    | VOLT_3V3
    | DP_DM_SHORT
  {
    /** The enumerator's value, `static_cast<uint8_t>(e)`. */
    function Code(): (c: bv8)
      ensures c < 8
    {
      match this
      case HIZ => 0
      case VOLT_0V => 1
      case VOLT_0V6 => 2
      case VOLT_1V2 => 3
      case VOLT_2V0 => 4
      case VOLT_2V7 => 5
      case VOLT_3V3 => 6
      case DP_DM_SHORT => 7
    }
  }

  /** `static_cast<OutputLevel>` of a 3-bit field: every pattern names an enumerator. */
  function OutputLevelOf(c: bv8): (e: OutputLevel)
    requires c < 8
    ensures e.Code() == c
  {
    if c == 0 then OutputLevel.HIZ
    else if c == 1 then OutputLevel.VOLT_0V
    else if c == 2 then OutputLevel.VOLT_0V6
    else if c == 3 then OutputLevel.VOLT_1V2
    else if c == 4 then OutputLevel.VOLT_2V0
    else if c == 5 then OutputLevel.VOLT_2V7
    else if c == 6 then OutputLevel.VOLT_3V3
    else OutputLevel.DP_DM_SHORT
  }

  // ---------------------------------------------------------------------------
  // REG08h, Precharge Control: VBAT_LOWV in bits 7:6, IPRECHG (40 mA/LSB) in bits 5:0.

  datatype PrechargeValues = PrechargeValues(
    threshold: VBATLowThreshold,
    prechargeCurrentMa: u16)

  /** `set_values`: the fields shifted into place and OR-ed together, the prechargeCurrentMa reduced modulo 64 steps of 40. */
  function PackPrecharge(v: PrechargeValues): (raw: bv8)
    ensures UnpackPrecharge(raw) == v.(prechargeCurrentMa := v.prechargeCurrentMa / 40 % 64 * 40)
  {
    ((v.threshold.Code() & 0x03) << 6)
    | ByteOf(v.prechargeCurrentMa / 40 % 64)
  }

  /** `get_values`. */
  function UnpackPrecharge(raw: bv8): PrechargeValues
  {
    PrechargeValues(
      VBATLowThresholdOf((raw >> 6) & 0x03),
      (raw & 0x3F) as int * 40)
  }

  /** Every bit `get_values` reads is kept by `set_values`. */
  lemma PrechargeRepack(raw: bv8)
    ensures PackPrecharge(UnpackPrecharge(raw)) == raw
  {
    var low := raw & 0x3F;
    LowBound(raw, 0x3F);
    assert low as int * 40 / 40 % 64 == low as int;
    ByteOfValue(low);
  }

  /** A prechargeCurrentMa that is a multiple of 40 no larger than 2520 survives the round trip. */
  lemma PrechargeExactRoundTrip(v: PrechargeValues)
    requires v.prechargeCurrentMa % 40 == 0 && v.prechargeCurrentMa <= 2520
    ensures UnpackPrecharge(PackPrecharge(v)) == v
  {
  }

  /** The prechargeCurrentMa field wraps: adding 2560 leaves the byte unchanged. */
  lemma PrechargeWraps(v: PrechargeValues)
    requires v.prechargeCurrentMa + 2560 < 0x1_0000
    ensures PackPrecharge(v.(prechargeCurrentMa := v.prechargeCurrentMa + 2560)) == PackPrecharge(v)
  {
    var steps := v.prechargeCurrentMa / 40;
    assert (v.prechargeCurrentMa + 2560) / 40 == steps + 64;
    assert (steps + 64) % 64 == steps % 64;
  }

  /** The default member initialisers of `Values`. */
  const DefaultPrecharge: PrechargeValues := PrechargeValues(VBATLowThreshold.THRESH_714, 120)

  lemma DefaultPrechargePacks()
    ensures PackPrecharge(DefaultPrecharge) == 0xC3
  {
  }

  /** The `PrechargeControlRegister` object: one stored byte. */
  class PrechargeControlRegister {
    static const Addr: bv8 := 0x08
    var raw: bv8

    constructor ()
      ensures raw == 0
    {
      raw := 0;
    }

    /** `set_raw`: the byte is stored unchanged. */
    method SetRaw(r: bv8)
      modifies this
      ensures raw == r
    {
      raw := r;
    }

    /** `set_values`. */
    method SetValues(v: PrechargeValues)
      modifies this
      ensures raw == PackPrecharge(v)
    {
      raw := PackPrecharge(v);
    }
  }

  // ---------------------------------------------------------------------------
  // REG09h, Termination Control: REG_RST bit 6, STOP_WD_CHG bit 5, ITERM (40 mA/LSB) in bits 4:0.

  datatype TerminationValues = TerminationValues(
    regRst: bool,
    stopWdChg: bool,
    itermMa: u16)

  /** `set_values`: the fields shifted into place and OR-ed together, the itermMa reduced modulo 32 steps of 40. */
  function PackTermination(v: TerminationValues): (raw: bv8)
    ensures UnpackTermination(raw) == v.(itermMa := v.itermMa / 40 % 32 * 40)
    ensures raw & 0x80 == 0
  {
    Bit(v.regRst, 6)
    | Bit(v.stopWdChg, 5)
    | ByteOf(v.itermMa / 40 % 32)
  }

  /** `get_values`. */
  function UnpackTermination(raw: bv8): TerminationValues
  {
    TerminationValues(
      Flag(raw, 6),
      Flag(raw, 5),
      (raw & 0x1F) as int * 40)
  }

  /** Every bit `get_values` reads is kept by `set_values`; the unused bits come back clear. */
  lemma TerminationRepack(raw: bv8)
    ensures PackTermination(UnpackTermination(raw)) == raw & 0x7F
  {
    var low := raw & 0x1F;
    LowBound(raw, 0x1F);
    assert low as int * 40 / 40 % 32 == low as int;
    ByteOfValue(low);
  }

  /** A itermMa that is a multiple of 40 no larger than 1240 survives the round trip. */
  lemma TerminationExactRoundTrip(v: TerminationValues)
    requires v.itermMa % 40 == 0 && v.itermMa <= 1240
    ensures UnpackTermination(PackTermination(v)) == v
  {
  }

  /** The itermMa field wraps: adding 1280 leaves the byte unchanged. */
  lemma TerminationWraps(v: TerminationValues)
    requires v.itermMa + 1280 < 0x1_0000
    ensures PackTermination(v.(itermMa := v.itermMa + 1280)) == PackTermination(v)
  {
    var steps := v.itermMa / 40;
    assert (v.itermMa + 1280) / 40 == steps + 32;
    assert (steps + 32) % 32 == steps % 32;
  }

  /** The default member initialisers of `Values`. */
  const DefaultTermination: TerminationValues := TerminationValues(false, false, 200)

  lemma DefaultTerminationPacks()
    ensures PackTermination(DefaultTermination) == 0x05
  {
  }

  /** The `TerminationControlRegister` object: one stored byte. */
  class TerminationControlRegister {
    static const Addr: bv8 := 0x09
    var raw: bv8

    constructor ()
      ensures raw == 0
    {
      raw := 0;
    }

    /** `set_raw`: the byte is stored unchanged. */
    method SetRaw(r: bv8)
      modifies this
      ensures raw == r
    {
      raw := r;
    }

    /** `set_values`. */
    method SetValues(v: TerminationValues)
      modifies this
      ensures raw == PackTermination(v)
    {
      raw := PackTermination(v);
    }
  }

  // ---------------------------------------------------------------------------
  // REG0Ah, Recharge Control: CELL bits 7:6, TRECHG bits 5:4, VRECHG (50 mV/LSB) bits 3:0.

  datatype RechargeValues = RechargeValues(
    cellCount: CellCount,
    trechg: DeglitchTime,
    vrechgOffsetMv: u16)

  /** `set_values`: the fields shifted into place and OR-ed together, the vrechgOffsetMv reduced modulo 16 steps of 50. */
  function PackRecharge(v: RechargeValues): (raw: bv8)
    ensures UnpackRecharge(raw) == v.(vrechgOffsetMv := v.vrechgOffsetMv / 50 % 16 * 50)
  {
    ((v.cellCount.Code() & 0x03) << 6)
    | ((v.trechg.Code() & 0x03) << 4)
    | ByteOf(v.vrechgOffsetMv / 50 % 16)
  }

  /** `get_values`. */
  function UnpackRecharge(raw: bv8): RechargeValues
  {
    RechargeValues(
      CellCountOf((raw >> 6) & 0x03),
      DeglitchTimeOf((raw >> 4) & 0x03),
      (raw & 0x0F) as int * 50)
  }

  /** Every bit `get_values` reads is kept by `set_values`. */
  lemma RechargeRepack(raw: bv8)
    ensures PackRecharge(UnpackRecharge(raw)) == raw
  {
    var low := raw & 0x0F;
    LowBound(raw, 0x0F);
    assert low as int * 50 / 50 % 16 == low as int;
    ByteOfValue(low);
  }

  /** A vrechgOffsetMv that is a multiple of 50 no larger than 750 survives the round trip. */
  lemma RechargeExactRoundTrip(v: RechargeValues)
    requires v.vrechgOffsetMv % 50 == 0 && v.vrechgOffsetMv <= 750
    ensures UnpackRecharge(PackRecharge(v)) == v
  {
  }

  /** The vrechgOffsetMv field wraps: adding 800 leaves the byte unchanged. */
  lemma RechargeWraps(v: RechargeValues)
    requires v.vrechgOffsetMv + 800 < 0x1_0000
    ensures PackRecharge(v.(vrechgOffsetMv := v.vrechgOffsetMv + 800)) == PackRecharge(v)
  {
    var steps := v.vrechgOffsetMv / 50;
    assert (v.vrechgOffsetMv + 800) / 50 == steps + 16;
    assert (steps + 16) % 16 == steps % 16;
  }

  /** The default member initialisers of `Values`. */
  const DefaultRecharge: RechargeValues := RechargeValues(CellCount.Four, DeglitchTime.T_1024ms, 200)

  lemma DefaultRechargePacks()
    ensures PackRecharge(DefaultRecharge) == 0xE4
  {
  }

  /** The `RechargeControlRegister` object: one stored byte. */
  class RechargeControlRegister {
    static const Addr: bv8 := 0x0A
    var raw: bv8

    constructor ()
      ensures raw == 0
    {
      raw := 0;
    }

    /** `set_raw`: the byte is stored unchanged. */
    method SetRaw(r: bv8)
      modifies this
      ensures raw == r
    {
      raw := r;
    }

    /** `set_values`. */
    method SetValues(v: RechargeValues)
      modifies this
      ensures raw == PackRecharge(v)
    {
      raw := PackRecharge(v);
    }
  }

  // ---------------------------------------------------------------------------
  // REG0Eh, Timer Control.

  datatype TimerValues = TimerValues(
    topoffTimer: TopOffTimer,
    enTrichgTimer: bool,
    enPrechgTimer: bool,
    enChgTimer: bool,
    chgTimer: ChargeTimer,
    tmr2xEn: bool)

  /** `set_values`: the fields shifted into place and OR-ed together. */
  function PackTimer(v: TimerValues): (raw: bv8)
    ensures UnpackTimer(raw) == v
  {
    (v.topoffTimer.Code() << 6)
    | Bit(v.enTrichgTimer, 5)
    | Bit(v.enPrechgTimer, 4)
    | Bit(v.enChgTimer, 3)
    | (v.chgTimer.Code() << 1)
    | Bit(v.tmr2xEn, 0)
  }

  /** `get_values`. */
  function UnpackTimer(raw: bv8): TimerValues
  {
    TimerValues(
      TopOffTimerOf((raw >> 6) & 0x03),
      Flag(raw, 5),
      Flag(raw, 4),
      Flag(raw, 3),
      ChargeTimerOf((raw >> 1) & 0x03),
      Flag(raw, 0))
  }

  /** Every bit `get_values` reads is kept by `set_values`. */
  lemma TimerRepack(raw: bv8)
    ensures PackTimer(UnpackTimer(raw)) == raw
  {
  }

  /** The default member initialisers of `Values`. */
  const DefaultTimer: TimerValues := TimerValues(TopOffTimer.Disabled, true, true, true, ChargeTimer.Hr12, true)

  lemma DefaultTimerPacks()
    ensures PackTimer(DefaultTimer) == 0x3D
  {
  }

  /** The `TimerControlRegister` object: one stored byte. */
  class TimerControlRegister {
    static const Addr: bv8 := 0x0E
    var raw: bv8

    constructor ()
      ensures raw == 0
    {
      raw := 0;
    }

    /** `set_raw`: the byte is stored unchanged. */
    method SetRaw(r: bv8)
      modifies this
      ensures raw == r
    {
      raw := r;
    }

    /** `set_values`. */
    method SetValues(v: TimerValues)
      modifies this
      ensures raw == PackTimer(v)
    {
      raw := PackTimer(v);
    }
  }

  // ---------------------------------------------------------------------------
  // REG15h, MPPT Control.

  datatype MpptValues = MpptValues(
    vocPct: VOCPct,
    vocDly: VOCDelay,
    vocRate: VOCRate,
    enMppt: bool)

  /** `set_values`: the fields shifted into place and OR-ed together. */
  function PackMppt(v: MpptValues): (raw: bv8)
    ensures UnpackMppt(raw) == v
  {
    (v.vocPct.Code() << 5)
    | (v.vocDly.Code() << 3)
    | (v.vocRate.Code() << 1)
    | Bit(v.enMppt, 0)
  }

  /** `get_values`. */
  function UnpackMppt(raw: bv8): MpptValues
  {
    MpptValues(
      VOCPctOf((raw >> 5) & 0x07),
      VOCDelayOf((raw >> 3) & 0x03),
      VOCRateOf((raw >> 1) & 0x03),
      Flag(raw, 0))
  }

  /** Every bit `get_values` reads is kept by `set_values`. */
  lemma MpptRepack(raw: bv8)
    ensures PackMppt(UnpackMppt(raw)) == raw
  {
  }

  /** The default member initialisers of `Values`. */
  const DefaultMppt: MpptValues := MpptValues(VOCPct.PCT_0_8750, VOCDelay.Delay_300ms, VOCRate.Interval_2min, false)

  lemma DefaultMpptPacks()
    ensures PackMppt(DefaultMppt) == 0xAA
  {
  }

  /** The `MPPTControlRegister` object: one stored byte. */
  class MPPTControlRegister {
    static const Addr: bv8 := 0x15
    var raw: bv8

    constructor ()
      ensures raw == 0
    {
      raw := 0;
    }

    /** `set_raw`: the byte is stored unchanged. */
    method SetRaw(r: bv8)
      modifies this
      ensures raw == r
    {
      raw := r;
    }

    /** `set_values`. */
    method SetValues(v: MpptValues)
      modifies this
      ensures raw == PackMppt(v)
    {
      raw := PackMppt(v);
    }
  }

  // ---------------------------------------------------------------------------
  // REG16h, Temperature Control.

  datatype TemperatureValues = TemperatureValues(
    treg: ThermalRegulation,
    tshut: ThermalShutdown,
    vbusPdEn: bool,
    vac1PdEn: bool,
    vac2PdEn: bool,
    bkupAcfet1On: bool)

  /** `set_values`: the fields shifted into place and OR-ed together. */
  function PackTemperature(v: TemperatureValues): (raw: bv8)
    ensures UnpackTemperature(raw) == v
  {
    (v.treg.Code() << 6)
    | (v.tshut.Code() << 4)
    | Bit(v.vbusPdEn, 3)
    | Bit(v.vac1PdEn, 2)
    | Bit(v.vac2PdEn, 1)
    | Bit(v.bkupAcfet1On, 0)
  }

  /** `get_values`. */
  function UnpackTemperature(raw: bv8): TemperatureValues
  {
    TemperatureValues(
      ThermalRegulationOf((raw >> 6) & 0x03),
      ThermalShutdownOf((raw >> 4) & 0x03),
      Flag(raw, 3),
      Flag(raw, 2),
      Flag(raw, 1),
      Flag(raw, 0))
  }

  /** Every bit `get_values` reads is kept by `set_values`. */
  lemma TemperatureRepack(raw: bv8)
    ensures PackTemperature(UnpackTemperature(raw)) == raw
  {
  }

  /** The default member initialisers of `Values`. */
  const DefaultTemperature: TemperatureValues := TemperatureValues(ThermalRegulation.Deg120, ThermalShutdown.Deg150, false, false, false, false)

  lemma DefaultTemperaturePacks()
    ensures PackTemperature(DefaultTemperature) == 0xC0
  {
  }

  /** The `TemperatureControlRegister` object: one stored byte. */
  class TemperatureControlRegister {
    static const Addr: bv8 := 0x16
    var raw: bv8

    constructor ()
      ensures raw == 0
    {
      raw := 0;
    }

    /** `set_raw`: the byte is stored unchanged. */
    method SetRaw(r: bv8)
      modifies this
      ensures raw == r
    {
      raw := r;
    }

    /** `set_values`. */
    method SetValues(v: TemperatureValues)
      modifies this
      ensures raw == PackTemperature(v)
    {
      raw := PackTemperature(v);
    }
  }

  // ---------------------------------------------------------------------------
  // REG47h, DPDM Driver: D+ level bits 7:5, D- level bits 4:2, bits 1:0 reserved.

  datatype DpdmValues = DpdmValues(
    dplus: OutputLevel,
    dminus: OutputLevel)

  /** `set_values`: the fields shifted into place and OR-ed together. */
  function PackDpdm(v: DpdmValues): (raw: bv8)
    ensures UnpackDpdm(raw) == v
    ensures raw & 0x03 == 0
  {
    ((v.dplus.Code() & 0x07) << 5)
    | ((v.dminus.Code() & 0x07) << 2)
  }

  /** `get_values`. */
  function UnpackDpdm(raw: bv8): DpdmValues
  {
    DpdmValues(
      OutputLevelOf((raw >> 5) & 0x07),
      OutputLevelOf((raw >> 2) & 0x07))
  }

  /** Every bit `get_values` reads is kept by `set_values`; the unused bits come back clear. */
  lemma DpdmRepack(raw: bv8)
    ensures PackDpdm(UnpackDpdm(raw)) == raw & 0xFC
  {
  }

  /** The default member initialisers of `Values`. */
  const DefaultDpdm: DpdmValues := DpdmValues(OutputLevel.HIZ, OutputLevel.HIZ)

  lemma DefaultDpdmPacks()
    ensures PackDpdm(DefaultDpdm) == 0x00
  {
  }

  /** The `DPDMDriverRegister` object: one stored byte. */
  class DPDMDriverRegister {
    static const Addr: bv8 := 0x47
    var raw: bv8

    constructor ()
      ensures raw == 0
    {
      raw := 0;
    }

    /** `set_raw`: reserved bits 1:0 are cleared. */
    method SetRaw(r: bv8)
      modifies this
      ensures raw == r & 0xFC
    {
      raw := r & 0xFC;
    }

    /** `set_values`. */
    method SetValues(v: DpdmValues)
      modifies this
      ensures raw == PackDpdm(v)
    {
      raw := PackDpdm(v);
    }
  }
}
