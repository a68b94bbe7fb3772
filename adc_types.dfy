/** Codecs of the ADC configuration registers, REG2Eh to REG30h. */
module AdcTypes {
  import opened Bits

  /** `enum class ADCSampleResolution`: a 2-bit field; the n-th enumerator has value n. */
  datatype ADCSampleResolution =
    | RES_15_BIT
    | RES_14_BIT
    | RES_13_BIT
    | RES_12_BIT
  {
    /** The enumerator's value, `static_cast<uint8_t>(e)`. */
    function Code(): (c: bv8)
      ensures c < 4
    {
      match this
      case RES_15_BIT => 0
      case RES_14_BIT => 1
      case RES_13_BIT => 2
      case RES_12_BIT => 3
    }
  }

  /** `static_cast<ADCSampleResolution>` of a 2-bit field: every pattern names an enumerator. */
  function ADCSampleResolutionOf(c: bv8): (e: ADCSampleResolution)
    requires c < 4
    ensures e.Code() == c
  {
    if c == 0 then ADCSampleResolution.RES_15_BIT
    else if c == 1 then ADCSampleResolution.RES_14_BIT
    else if c == 2 then ADCSampleResolution.RES_13_BIT
    else ADCSampleResolution.RES_12_BIT
  }

  // ---------------------------------------------------------------------------
  // REG2Eh, ADC Control (bits 1:0 reserved).

  datatype AdcControlValues = AdcControlValues(
    adcEnable: bool,
    adcRateOneshot: bool,
    sampleResolution: ADCSampleResolution,
    averageEnable: bool,
    averageInit: bool)

  /** `set_values`: the fields shifted into place and OR-ed together. */
  function PackAdcControl(v: AdcControlValues): (raw: bv8)
    ensures UnpackAdcControl(raw) == v
    ensures raw & 0x03 == 0
  {
    Bit(v.adcEnable, 7)
    | Bit(v.adcRateOneshot, 6)
    | (v.sampleResolution.Code() << 4)
    | Bit(v.averageEnable, 3)
    | Bit(v.averageInit, 2)
  }

  /** `get_values`. */
  function UnpackAdcControl(raw: bv8): AdcControlValues
  {
    AdcControlValues(
      Flag(raw, 7),
      Flag(raw, 6),
      ADCSampleResolutionOf((raw >> 4) & 0x03),
      Flag(raw, 3),
      Flag(raw, 2))
  }

  /** Every bit `get_values` reads is kept by `set_values`; the unused bits come back clear. */
  lemma AdcControlRepack(raw: bv8)
    ensures PackAdcControl(UnpackAdcControl(raw)) == raw & 0xFC
  {
  }

  /** The default member initialisers of `Values`. */
  const DefaultAdcControl: AdcControlValues := AdcControlValues(false, false, ADCSampleResolution.RES_15_BIT, false, false)

  lemma DefaultAdcControlPacks()
    ensures PackAdcControl(DefaultAdcControl) == 0x00
  {
  }

  /** The `ADCControlRegister` object: one stored byte. */
  class ADCControlRegister {
    static const Addr: bv8 := 0x2E
    var raw: bv8

    constructor ()
      ensures raw == 0
    {
      raw := 0;
    }

    /** `set_raw`: reserved bits 1:0 are cleared. */
    method SetRaw(r: bv8)
      modifies this
      ensures raw == r & 0xFC
    {
      raw := r & 0xFC;
    }

    /** `set_values`. */
    method SetValues(v: AdcControlValues)
      modifies this
      ensures raw == PackAdcControl(v)
    {
      raw := PackAdcControl(v);
    }
  }

  // ---------------------------------------------------------------------------
  // REG2Fh, ADC Function Disable 0 (bit 0 reserved).

  datatype AdcFunctionDisable0Values = AdcFunctionDisable0Values(
    ibusAdcDisable: bool,
    ibatAdcDisable: bool,
    vbusAdcDisable: bool,
    vbatAdcDisable: bool,
    vsysAdcDisable: bool,
    tsAdcDisable: bool,
    tdieAdcDisable: bool)

  /** `set_values`: the fields shifted into place and OR-ed together. */
  function PackAdcFunctionDisable0(v: AdcFunctionDisable0Values): (raw: bv8)
    ensures UnpackAdcFunctionDisable0(raw) == v
    ensures raw & 0x01 == 0
  {
    Bit(v.ibusAdcDisable, 7)
    | Bit(v.ibatAdcDisable, 6)
    | Bit(v.vbusAdcDisable, 5)
    | Bit(v.vbatAdcDisable, 4)
    | Bit(v.vsysAdcDisable, 3)
    | Bit(v.tsAdcDisable, 2)
    | Bit(v.tdieAdcDisable, 1)
  }

  /** `get_values`. */
  function UnpackAdcFunctionDisable0(raw: bv8): AdcFunctionDisable0Values
  {
    AdcFunctionDisable0Values(
      Flag(raw, 7),
      Flag(raw, 6),
      Flag(raw, 5),
      Flag(raw, 4),
      Flag(raw, 3),
      Flag(raw, 2),
      Flag(raw, 1))
  }

  /** Every bit `get_values` reads is kept by `set_values`; the unused bits come back clear. */
  lemma AdcFunctionDisable0Repack(raw: bv8)
    ensures PackAdcFunctionDisable0(UnpackAdcFunctionDisable0(raw)) == raw & 0xFE
  {
  }

  /** The default member initialisers of `Values`. */
  const DefaultAdcFunctionDisable0: AdcFunctionDisable0Values := AdcFunctionDisable0Values(false, false, false, false, false, false, false)

  lemma DefaultAdcFunctionDisable0Packs()
    ensures PackAdcFunctionDisable0(DefaultAdcFunctionDisable0) == 0x00
  {
  }

  /** The `ADCFunctionDisable0Register` object: one stored byte. */
  class ADCFunctionDisable0Register {
    static const Addr: bv8 := 0x2F
    var raw: bv8

    constructor ()
      ensures raw == 0
    {
      raw := 0;
    }

    /** `set_raw`: reserved bit 0 is cleared. */
    method SetRaw(r: bv8)
      modifies this
      ensures raw == r & 0xFE
    {
      raw := r & 0xFE;
    }

    /** `set_values`. */
    method SetValues(v: AdcFunctionDisable0Values)
      modifies this
      ensures raw == PackAdcFunctionDisable0(v)
    {
      raw := PackAdcFunctionDisable0(v);
    }
  }

  // ---------------------------------------------------------------------------
  // REG30h, ADC Function Disable 1 (bits 3:0 reserved).

  datatype AdcFunctionDisable1Values = AdcFunctionDisable1Values(
    dpAdcDisable: bool,
    dmAdcDisable: bool,
    vac2AdcDisable: bool,
    vac1AdcDisable: bool)

  /** `set_values`: the fields shifted into place and OR-ed together. */
  function PackAdcFunctionDisable1(v: AdcFunctionDisable1Values): (raw: bv8)
    ensures UnpackAdcFunctionDisable1(raw) == v
    ensures raw & 0x0F == 0
  {
    Bit(v.dpAdcDisable, 7)
    | Bit(v.dmAdcDisable, 6)
    | Bit(v.vac2AdcDisable, 5)
    | Bit(v.vac1AdcDisable, 4)
  }

  /** `get_values`. */
  function UnpackAdcFunctionDisable1(raw: bv8): AdcFunctionDisable1Values
  {
    AdcFunctionDisable1Values(
      Flag(raw, 7),
      Flag(raw, 6),
      Flag(raw, 5),
      Flag(raw, 4))
  }

  /** Every bit `get_values` reads is kept by `set_values`; the unused bits come back clear. */
  lemma AdcFunctionDisable1Repack(raw: bv8)
    ensures PackAdcFunctionDisable1(UnpackAdcFunctionDisable1(raw)) == raw & 0xF0
  {
  }

  /** The default member initialisers of `Values`. */
  const DefaultAdcFunctionDisable1: AdcFunctionDisable1Values := AdcFunctionDisable1Values(false, false, false, false)

  lemma DefaultAdcFunctionDisable1Packs()
    ensures PackAdcFunctionDisable1(DefaultAdcFunctionDisable1) == 0x00
  {
  }

  /** The `ADCFunctionDisable1Register` object: one stored byte. */
  class ADCFunctionDisable1Register {
    static const Addr: bv8 := 0x30
    var raw: bv8

    constructor ()
      ensures raw == 0
    {
      raw := 0;
    }

    /** `set_raw`: reserved bits 3:0 are cleared. */
    method SetRaw(r: bv8)
      modifies this
      ensures raw == r & 0xF0
    {
      raw := r & 0xF0;
    }

    /** `set_values`. */
    method SetValues(v: AdcFunctionDisable1Values)
      modifies this
      ensures raw == PackAdcFunctionDisable1(v)
    {
      raw := PackAdcFunctionDisable1(v);
    }
  }
}
