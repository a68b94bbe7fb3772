/** Codecs of the two NTC (JEITA) control registers, REG17h and REG18h. */
module NtcTypes {
  import opened Bits

  /** `enum class JEITAVoltage`: a 3-bit field; the n-th enumerator has value n. */
  datatype JEITAVoltage =
    | Suspend
    | VREGm800mV
    | VREGm600mV
    | VREGm400mV
    | VREGm300mV
    | VREGm200mV
    | VREGm100mV
    | Unchanged
  {
    /** The enumerator's value, `static_cast<uint8_t>(e)`. */
    function Code(): (c: bv8)
      ensures c < 8
    {
      match this
      case Suspend => 0
      case VREGm800mV => 1
      case VREGm600mV => 2
      case VREGm400mV => 3
      case VREGm300mV => 4
      case VREGm200mV => 5
      case VREGm100mV => 6
      case Unchanged => 7
    }
  }

  /** `static_cast<JEITAVoltage>` of a 3-bit field: every pattern names an enumerator. */
  function JEITAVoltageOf(c: bv8): (e: JEITAVoltage)
    requires c < 8
    ensures e.Code() == c
  {
    if c == 0 then JEITAVoltage.Suspend
    else if c == 1 then JEITAVoltage.VREGm800mV
    else if c == 2 then JEITAVoltage.VREGm600mV
    else if c == 3 then JEITAVoltage.VREGm400mV
    else if c == 4 then JEITAVoltage.VREGm300mV
    else if c == 5 then JEITAVoltage.VREGm200mV
    else if c == 6 then JEITAVoltage.VREGm100mV
    else JEITAVoltage.Unchanged
  }

  /** `enum class JEITACurrent`: a 2-bit field; the n-th enumerator has value n. */
  datatype JEITACurrent =
    | Suspend
    | Pct20
    | Pct40
    | Unchanged
  {
    /** The enumerator's value, `static_cast<uint8_t>(e)`. */
    function Code(): (c: bv8)
      ensures c < 4
    {
      match this
      case Suspend => 0
      case Pct20 => 1
      case Pct40 => 2
      case Unchanged => 3
    }
  }

  /** `static_cast<JEITACurrent>` of a 2-bit field: every pattern names an enumerator. */
  function JEITACurrentOf(c: bv8): (e: JEITACurrent)
    requires c < 4
    ensures e.Code() == c
  {
    if c == 0 then JEITACurrent.Suspend
    else if c == 1 then JEITACurrent.Pct20
    else if c == 2 then JEITACurrent.Pct40
    else JEITACurrent.Unchanged
  }

  /** `enum class TSCOOL`: a 2-bit field; the n-th enumerator has value n. */
  datatype TSCOOL =
    | PCT_71_1
    | PCT_68_4
    | PCT_65_5
    | PCT_62_4
  {
    /** The enumerator's value, `static_cast<uint8_t>(e)`. */
    function Code(): (c: bv8)
      ensures c < 4
    {
      match this
      case PCT_71_1 => 0
      case PCT_68_4 => 1
      case PCT_65_5 => 2
      case PCT_62_4 => 3
    }
  }

  /** `static_cast<TSCOOL>` of a 2-bit field: every pattern names an enumerator. */
  function TSCOOLOf(c: bv8): (e: TSCOOL)
    requires c < 4
    ensures e.Code() == c
  {
    if c == 0 then TSCOOL.PCT_71_1
    else if c == 1 then TSCOOL.PCT_68_4
    else if c == 2 then TSCOOL.PCT_65_5
    else TSCOOL.PCT_62_4
  }

  /** `enum class TSWARM`: a 2-bit field; the n-th enumerator has value n. */
  datatype TSWARM =
    | PCT_48_4
    | PCT_44_8
    | PCT_41_2
    | PCT_37_7
  {
    /** The enumerator's value, `static_cast<uint8_t>(e)`. */
    function Code(): (c: bv8)
      ensures c < 4
    {
      match this
      case PCT_48_4 => 0
      case PCT_44_8 => 1
      case PCT_41_2 => 2
      case PCT_37_7 => 3
    }
  }

  /** `static_cast<TSWARM>` of a 2-bit field: every pattern names an enumerator. */
  function TSWARMOf(c: bv8): (e: TSWARM)
    requires c < 4
    ensures e.Code() == c
  {
    if c == 0 then TSWARM.PCT_48_4
    else if c == 1 then TSWARM.PCT_44_8
    else if c == 2 then TSWARM.PCT_41_2
    else TSWARM.PCT_37_7
  }

  /** `enum class BHOT`: a 2-bit field; the n-th enumerator has value n. */
  datatype BHOT =
    | Deg55
    | Deg60
    | Deg65
    | Disabled
  {
    /** The enumerator's value, `static_cast<uint8_t>(e)`. */
    function Code(): (c: bv8)
      ensures c < 4
    {
      match this
      case Deg55 => 0
      case Deg60 => 1
      case Deg65 => 2
      case Disabled => 3
    }
  }

  /** `static_cast<BHOT>` of a 2-bit field: every pattern names an enumerator. */
  function BHOTOf(c: bv8): (e: BHOT)
    requires c < 4
    ensures e.Code() == c
  {
    if c == 0 then BHOT.Deg55
    else if c == 1 then BHOT.Deg60
    else if c == 2 then BHOT.Deg65
    else BHOT.Disabled
  }

  /** `enum class BCOLD`: a 1-bit field; the n-th enumerator has value n. */
  datatype BCOLD =
    | DegMinus10
    | DegMinus20
  {
    /** The enumerator's value, `static_cast<uint8_t>(e)`. */
    function Code(): (c: bv8)
      ensures c < 2
    {
      match this
      case DegMinus10 => 0
      case DegMinus20 => 1
    }
  }

  /** `static_cast<BCOLD>` of a 1-bit field: every pattern names an enumerator. */
  function BCOLDOf(c: bv8): (e: BCOLD)
    requires c < 2
    ensures e.Code() == c
  {
    if c == 0 then BCOLD.DegMinus10
    else BCOLD.DegMinus20
  }

  // ---------------------------------------------------------------------------
  // REG17h, NTC Control 0 (bit 0 reserved).

  datatype NtcControl0Values = NtcControl0Values(
    jeitaVset: JEITAVoltage,
    jeitaIseth: JEITACurrent,
    jeitaIsetc: JEITACurrent)

  /** `set_values`: the fields shifted into place and OR-ed together. */
  function PackNtcControl0(v: NtcControl0Values): (raw: bv8)
    ensures UnpackNtcControl0(raw) == v
    ensures raw & 0x01 == 0
  {
    (v.jeitaVset.Code() << 5)
    | (v.jeitaIseth.Code() << 3)
    | (v.jeitaIsetc.Code() << 1)
  }

  /** `get_values`. */
  function UnpackNtcControl0(raw: bv8): NtcControl0Values
  {
    NtcControl0Values(
      JEITAVoltageOf((raw >> 5) & 0x07),
      JEITACurrentOf((raw >> 3) & 0x03),
      JEITACurrentOf((raw >> 1) & 0x03))
  }

  /** Every bit `get_values` reads is kept by `set_values`; the unused bits come back clear. */
  lemma NtcControl0Repack(raw: bv8)
    ensures PackNtcControl0(UnpackNtcControl0(raw)) == raw & 0xFE
  {
  }

  /** The default member initialisers of `Values`. */
  const DefaultNtcControl0: NtcControl0Values := NtcControl0Values(JEITAVoltage.VREGm400mV, JEITACurrent.Unchanged, JEITACurrent.Pct20)

  lemma DefaultNtcControl0Packs()
    ensures PackNtcControl0(DefaultNtcControl0) == 0x7A
  {
  }

  /** The `NTCControl0Register` object: one stored byte. */
  class NTCControl0Register {
    static const Addr: bv8 := 0x17
    var raw: bv8

    constructor ()
      ensures raw == 0
    {
      raw := 0;
    }

    /** `set_raw`: reserved bit 0 is cleared. */
    method SetRaw(r: bv8)
      modifies this
      ensures raw == r & 0xFE
    {
      raw := r & 0xFE;
    }

    /** `set_values`. */
    method SetValues(v: NtcControl0Values)
      modifies this
      ensures raw == PackNtcControl0(v)
    {
      raw := PackNtcControl0(v);
    }
  }

  // ---------------------------------------------------------------------------
  // REG18h, NTC Control 1.

  datatype NtcControl1Values = NtcControl1Values(
    tsCool: TSCOOL,
    tsWarm: TSWARM,
    bhot: BHOT,
    bcold: BCOLD,
    tsIgnore: bool)

  /** `set_values`: the fields shifted into place and OR-ed together. */
  function PackNtcControl1(v: NtcControl1Values): (raw: bv8)
    ensures UnpackNtcControl1(raw) == v
  {
    (v.tsCool.Code() << 6)
    | (v.tsWarm.Code() << 4)
    | (v.bhot.Code() << 2)
    | (v.bcold.Code() << 1)
    | Bit(v.tsIgnore, 0)
  }

  /** `get_values`. */
  function UnpackNtcControl1(raw: bv8): NtcControl1Values
  {
    NtcControl1Values(
      TSCOOLOf((raw >> 6) & 0x03),
      TSWARMOf((raw >> 4) & 0x03),
      BHOTOf((raw >> 2) & 0x03),
      BCOLDOf((raw >> 1) & 0x01),
      Flag(raw, 0))
  }

  /** Every bit `get_values` reads is kept by `set_values`. */
  lemma NtcControl1Repack(raw: bv8)
    ensures PackNtcControl1(UnpackNtcControl1(raw)) == raw
  {
  }

  /** The default member initialisers of `Values`. */
  const DefaultNtcControl1: NtcControl1Values := NtcControl1Values(TSCOOL.PCT_68_4, TSWARM.PCT_44_8, BHOT.Deg60, BCOLD.DegMinus10, false)

  lemma DefaultNtcControl1Packs()
    ensures PackNtcControl1(DefaultNtcControl1) == 0x54
  {
  }

  /** The `NTCControl1Register` object: one stored byte. */
  class NTCControl1Register {
    static const Addr: bv8 := 0x18
    var raw: bv8

    constructor ()
      ensures raw == 0
    {
      raw := 0;
    }

    /** `set_raw`: the byte is stored unchanged. */
    method SetRaw(r: bv8)
      modifies this
      ensures raw == r
    {
      raw := r;
    }

    /** `set_values`. */
    method SetValues(v: NtcControl1Values)
      modifies this
      ensures raw == PackNtcControl1(v)
    {
      raw := PackNtcControl1(v);
    }
  }
}
