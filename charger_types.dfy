/** Codecs of the six charger-control registers, REG0Fh to REG14h. */
module ChargerTypes {
  import opened Bits

  /** `enum class VBUSBackupRatio`: a 2-bit field; the n-th enumerator has value n. */
  datatype VBUSBackupRatio =
    | Ratio40
    | Ratio60
    | Ratio80
    | Ratio100
  {
    /** The enumerator's value, `static_cast<uint8_t>(e)`. */
    function Code(): (c: bv8)
      ensures c < 4
    {
      match this
      case Ratio40 => 0
      case Ratio60 => 1
      case Ratio80 => 2
      case Ratio100 => 3
    }
  }

  /** `static_cast<VBUSBackupRatio>` of a 2-bit field: every pattern names an enumerator. */
  function VBUSBackupRatioOf(c: bv8): (e: VBUSBackupRatio)
    requires c < 4
    ensures e.Code() == c
  {
    if c == 0 then VBUSBackupRatio.Ratio40
    else if c == 1 then VBUSBackupRatio.Ratio60
    else if c == 2 then VBUSBackupRatio.Ratio80
    else VBUSBackupRatio.Ratio100
  }

  /** `enum class VACOVPThreshold`: a 2-bit field; the n-th enumerator has value n. */
  datatype VACOVPThreshold =
    | V26
    | V22
    | V12
    | V7
  {
    /** The enumerator's value, `static_cast<uint8_t>(e)`. */
    function Code(): (c: bv8)
      ensures c < 4
    {
      match this
      case V26 => 0
      case V22 => 1
      case V12 => 2
      case V7 => 3
    }
  }

  /** `static_cast<VACOVPThreshold>` of a 2-bit field: every pattern names an enumerator. */
  function VACOVPThresholdOf(c: bv8): (e: VACOVPThreshold)
    requires c < 4
    ensures e.Code() == c
  {
    if c == 0 then VACOVPThreshold.V26
    else if c == 1 then VACOVPThreshold.V22
    else if c == 2 then VACOVPThreshold.V12
    else VACOVPThreshold.V7
  }

  /** `enum class WatchdogTimeout`: a 3-bit field; the n-th enumerator has value n. */
  datatype WatchdogTimeout =
    | Disable
    | Sec0_5
    | Sec1
    | Sec2
    | Sec20
    | Sec40
    | Sec80
    | Sec160
  {
    /** The enumerator's value, `static_cast<uint8_t>(e)`. */
    function Code(): (c: bv8)
      ensures c < 8
    {
      match this
      case Disable => 0
      case Sec0_5 => 1
      case Sec1 => 2
      case Sec2 => 3
      case Sec20 => 4
      case Sec40 => 5
      case Sec80 => 6
      case Sec160 => 7
    }
  }

  /** `static_cast<WatchdogTimeout>` of a 3-bit field: every pattern names an enumerator. */
  function WatchdogTimeoutOf(c: bv8): (e: WatchdogTimeout)
    requires c < 8
    ensures e.Code() == c
  {
    if c == 0 then WatchdogTimeout.Disable
    else if c == 1 then WatchdogTimeout.Sec0_5
    else if c == 2 then WatchdogTimeout.Sec1
    else if c == 3 then WatchdogTimeout.Sec2
    else if c == 4 then WatchdogTimeout.Sec20
    else if c == 5 then WatchdogTimeout.Sec40
    else if c == 6 then WatchdogTimeout.Sec80
    else WatchdogTimeout.Sec160
  }

  /** `enum class SFETControl`: a 2-bit field; the n-th enumerator has value n. */
  datatype SFETControl =
    | Idle
    | Shutdown
    | Ship
    | Reset
  {
    /** The enumerator's value, `static_cast<uint8_t>(e)`. */
    function Code(): (c: bv8)
      ensures c < 4
    {
      match this
      case Idle => 0
      case Shutdown => 1
      case Ship => 2
      case Reset => 3
    }
  }

  /** `static_cast<SFETControl>` of a 2-bit field: every pattern names an enumerator. */
  function SFETControlOf(c: bv8): (e: SFETControl)
    requires c < 4
    ensures e.Code() == c
  {
    if c == 0 then SFETControl.Idle
    else if c == 1 then SFETControl.Shutdown
    else if c == 2 then SFETControl.Ship
    else SFETControl.Reset
  }

  /** `enum class IBATRegulation`: a 2-bit field; the n-th enumerator has value n. */
  datatype IBATRegulation =
    | A3
    | A4
    | A5
    | A6
  {
    /** The enumerator's value, `static_cast<uint8_t>(e)`. */
    function Code(): (c: bv8)
      ensures c < 4
    {
      match this
      case A3 => 0
      case A4 => 1
      case A5 => 2
      case A6 => 3
    }
  }

  /** `static_cast<IBATRegulation>` of a 2-bit field: every pattern names an enumerator. */
  function IBATRegulationOf(c: bv8): (e: IBATRegulation)
    requires c < 4
    ensures e.Code() == c
  {
    if c == 0 then IBATRegulation.A3
    else if c == 1 then IBATRegulation.A4
    else if c == 2 then IBATRegulation.A5
    else IBATRegulation.A6
  }

  // ---------------------------------------------------------------------------
  // REG0Fh, Charger Control 0.

  datatype ChargerControl0Values = ChargerControl0Values(
    enAutoIbatdis: bool,
    forceIbatdis: bool,
    enChg: bool,
    enIco: bool,
    forceIco: bool,
    enHiz: bool,
    enTerm: bool,
    enBackup: bool)

  /** `set_values`: the fields shifted into place and OR-ed together. */
  function PackChargerControl0(v: ChargerControl0Values): (raw: bv8)
    ensures UnpackChargerControl0(raw) == v
  {
    Bit(v.enAutoIbatdis, 7)
    | Bit(v.forceIbatdis, 6)
    | Bit(v.enChg, 5)
    | Bit(v.enIco, 4)
    | Bit(v.forceIco, 3)
    | Bit(v.enHiz, 2)
    | Bit(v.enTerm, 1)
    | Bit(v.enBackup, 0)
  }

  /** `get_values`. */
  function UnpackChargerControl0(raw: bv8): ChargerControl0Values
  {
    ChargerControl0Values(
      Flag(raw, 7),
      Flag(raw, 6),
      Flag(raw, 5),
      Flag(raw, 4),
      Flag(raw, 3),
      Flag(raw, 2),
      Flag(raw, 1),
      Flag(raw, 0))
  }

  /** Every bit `get_values` reads is kept by `set_values`. */
  lemma ChargerControl0Repack(raw: bv8)
    ensures PackChargerControl0(UnpackChargerControl0(raw)) == raw
  {
  }

  /** The default member initialisers of `Values`. */
  const DefaultChargerControl0: ChargerControl0Values := ChargerControl0Values(true, false, true, false, false, false, true, false)

  lemma DefaultChargerControl0Packs()
    ensures PackChargerControl0(DefaultChargerControl0) == 0xA2
  {
  }

  /** The `ChargerControl0Register` object: one stored byte. */
  class ChargerControl0Register {
    static const Addr: bv8 := 0x0F
    var raw: bv8

    constructor ()
      ensures raw == 0
    {
      raw := 0;
    }

    /** `set_raw`: the byte is stored unchanged. */
    method SetRaw(r: bv8)
      modifies this
      ensures raw == r
    {
      raw := r;
    }

    /** `set_values`. */
    method SetValues(v: ChargerControl0Values)
      modifies this
      ensures raw == PackChargerControl0(v)
    {
      raw := PackChargerControl0(v);
    }
  }

  // ---------------------------------------------------------------------------
  // REG10h, Charger Control 1.

  datatype ChargerControl1Values = ChargerControl1Values(
    vbusBackup: VBUSBackupRatio,
    vacOvp: VACOVPThreshold,
    wdRst: bool,
    watchdog: WatchdogTimeout)

  /** `set_values`: the fields shifted into place and OR-ed together. */
  function PackChargerControl1(v: ChargerControl1Values): (raw: bv8)
    ensures UnpackChargerControl1(raw) == v
  {
    (v.vbusBackup.Code() << 6)
    | (v.vacOvp.Code() << 4)
    | Bit(v.wdRst, 3)
    | (v.watchdog.Code() & 0x07)
  }

  /** `get_values`. */
  function UnpackChargerControl1(raw: bv8): ChargerControl1Values
  {
    ChargerControl1Values(
      VBUSBackupRatioOf((raw >> 6) & 0x03),
      VACOVPThresholdOf((raw >> 4) & 0x03),
      Flag(raw, 3),
      WatchdogTimeoutOf(raw & 0x07))
  }

  /** Every bit `get_values` reads is kept by `set_values`. */
  lemma ChargerControl1Repack(raw: bv8)
    ensures PackChargerControl1(UnpackChargerControl1(raw)) == raw
  {
  }

  /** The default member initialisers of `Values`. */
  const DefaultChargerControl1: ChargerControl1Values := ChargerControl1Values(VBUSBackupRatio.Ratio80, VACOVPThreshold.V26, false, WatchdogTimeout.Sec40)

  lemma DefaultChargerControl1Packs()
    ensures PackChargerControl1(DefaultChargerControl1) == 0x85
  {
  }

  /** The `ChargerControl1Register` object: one stored byte. */
  class ChargerControl1Register {
    static const Addr: bv8 := 0x10
    var raw: bv8

    constructor ()
      ensures raw == 0
    {
      raw := 0;
    }

    /** `set_raw`: the byte is stored unchanged. */
    method SetRaw(r: bv8)
      modifies this
      ensures raw == r
    {
      raw := r;
    }

    /** `set_values`. */
    method SetValues(v: ChargerControl1Values)
      modifies this
      ensures raw == PackChargerControl1(v)
    {
      raw := PackChargerControl1(v);
    }
  }

  // ---------------------------------------------------------------------------
  // REG11h, Charger Control 2.

  datatype ChargerControl2Values = ChargerControl2Values(
    forceIndet: bool,
    autoIndetEn: bool,
    en12v: bool,
    en9v: bool,
    hvdcpEn: bool,
    sdrvCtrl: SFETControl,
    sdrvDly: bool)

  /** `set_values`: the fields shifted into place and OR-ed together. */
  function PackChargerControl2(v: ChargerControl2Values): (raw: bv8)
    ensures UnpackChargerControl2(raw) == v
  {
    Bit(v.forceIndet, 7)
    | Bit(v.autoIndetEn, 6)
    | Bit(v.en12v, 5)
    | Bit(v.en9v, 4)
    | Bit(v.hvdcpEn, 3)
    | (v.sdrvCtrl.Code() << 1)
    | Bit(v.sdrvDly, 0)
  }

  /** `get_values`. */
  function UnpackChargerControl2(raw: bv8): ChargerControl2Values
  {
    ChargerControl2Values(
      Flag(raw, 7),
      Flag(raw, 6),
      Flag(raw, 5),
      Flag(raw, 4),
      Flag(raw, 3),
      SFETControlOf((raw >> 1) & 0x03),
      Flag(raw, 0))
  }

  /** Every bit `get_values` reads is kept by `set_values`. */
  lemma ChargerControl2Repack(raw: bv8)
    ensures PackChargerControl2(UnpackChargerControl2(raw)) == raw
  {
  }

  /** The default member initialisers of `Values`. */
  const DefaultChargerControl2: ChargerControl2Values := ChargerControl2Values(false, true, false, false, false, SFETControl.Idle, false)

  lemma DefaultChargerControl2Packs()
    ensures PackChargerControl2(DefaultChargerControl2) == 0x40
  {
  }

  /** The `ChargerControl2Register` object: one stored byte. */
  class ChargerControl2Register {
    static const Addr: bv8 := 0x11
    var raw: bv8

    constructor ()
      ensures raw == 0
    {
      raw := 0;
    }

    /** `set_raw`: the byte is stored unchanged. */
    method SetRaw(r: bv8)
      modifies this
      ensures raw == r
    {
      raw := r;
    }

    /** `set_values`. */
    method SetValues(v: ChargerControl2Values)
      modifies this
      ensures raw == PackChargerControl2(v)
    {
      raw := PackChargerControl2(v);
    }
  }

  // ---------------------------------------------------------------------------
  // REG12h, Charger Control 3.

  datatype ChargerControl3Values = ChargerControl3Values(
    disAcdrv: bool,
    enOtg: bool,
    pfmOtgDis: bool,
    pfmFwdDis: bool,
    wkupDly: bool,
    disLdo: bool,
    disOtgOoa: bool,
    disFwdOoa: bool)

  /** `set_values`: the fields shifted into place and OR-ed together. */
  function PackChargerControl3(v: ChargerControl3Values): (raw: bv8)
    ensures UnpackChargerControl3(raw) == v
  {
    Bit(v.disAcdrv, 7)
    | Bit(v.enOtg, 6)
    | Bit(v.pfmOtgDis, 5)
    | Bit(v.pfmFwdDis, 4)
    | Bit(v.wkupDly, 3)
    | Bit(v.disLdo, 2)
    | Bit(v.disOtgOoa, 1)
    | Bit(v.disFwdOoa, 0)
  }

  /** `get_values`. */
  function UnpackChargerControl3(raw: bv8): ChargerControl3Values
  {
    ChargerControl3Values(
      Flag(raw, 7),
      Flag(raw, 6),
      Flag(raw, 5),
      Flag(raw, 4),
      Flag(raw, 3),
      Flag(raw, 2),
      Flag(raw, 1),
      Flag(raw, 0))
  }

  /** Every bit `get_values` reads is kept by `set_values`. */
  lemma ChargerControl3Repack(raw: bv8)
    ensures PackChargerControl3(UnpackChargerControl3(raw)) == raw
  {
  }

  /** The default member initialisers of `Values`. */
  const DefaultChargerControl3: ChargerControl3Values := ChargerControl3Values(false, false, false, false, false, false, false, false)

  lemma DefaultChargerControl3Packs()
    ensures PackChargerControl3(DefaultChargerControl3) == 0x00
  {
  }

  /** The `ChargerControl3Register` object: one stored byte. */
  class ChargerControl3Register {
    static const Addr: bv8 := 0x12
    var raw: bv8

    constructor ()
      ensures raw == 0
    {
      raw := 0;
    }

    /** `set_raw`: the byte is stored unchanged. */
    method SetRaw(r: bv8)
      modifies this
      ensures raw == r
    {
      raw := r;
    }

    /** `set_values`. */
    method SetValues(v: ChargerControl3Values)
      modifies this
      ensures raw == PackChargerControl3(v)
    {
      raw := PackChargerControl3(v);
    }
  }

  // ---------------------------------------------------------------------------
  // REG13h, Charger Control 4.

  datatype ChargerControl4Values = ChargerControl4Values(
    enAcdrv2: bool,
    enAcdrv1: bool,
    pwmFreq750khz: bool,
    disStat: bool,
    disVsysShort: bool,
    disVotgUvp: bool,
    forceVindpmDet: bool,
    enIbusOcp: bool)

  /** `set_values`: the fields shifted into place and OR-ed together. */
  function PackChargerControl4(v: ChargerControl4Values): (raw: bv8)
    ensures UnpackChargerControl4(raw) == v
  {
    Bit(v.enAcdrv2, 7)
    | Bit(v.enAcdrv1, 6)
    | Bit(v.pwmFreq750khz, 5)
    | Bit(v.disStat, 4)
    | Bit(v.disVsysShort, 3)
    | Bit(v.disVotgUvp, 2)
    | Bit(v.forceVindpmDet, 1)
    | Bit(v.enIbusOcp, 0)
  }

  /** `get_values`. */
  function UnpackChargerControl4(raw: bv8): ChargerControl4Values
  {
    ChargerControl4Values(
      Flag(raw, 7),
      Flag(raw, 6),
      Flag(raw, 5),
      Flag(raw, 4),
      Flag(raw, 3),
      Flag(raw, 2),
      Flag(raw, 1),
      Flag(raw, 0))
  }

  /** Every bit `get_values` reads is kept by `set_values`. */
  lemma ChargerControl4Repack(raw: bv8)
    ensures PackChargerControl4(UnpackChargerControl4(raw)) == raw
  {
  }

  /** The default member initialisers of `Values`. */
  const DefaultChargerControl4: ChargerControl4Values := ChargerControl4Values(false, false, false, false, false, false, false, true)

  lemma DefaultChargerControl4Packs()
    ensures PackChargerControl4(DefaultChargerControl4) == 0x01
  {
  }

  /** The `ChargerControl4Register` object: one stored byte. */
  class ChargerControl4Register {
    static const Addr: bv8 := 0x13
    var raw: bv8

    constructor ()
      ensures raw == 0
    {
      raw := 0;
    }

    /** `set_raw`: the byte is stored unchanged. */
    method SetRaw(r: bv8)
      modifies this
      ensures raw == r
    {
      raw := r;
    }

    /** `set_values`. */
    method SetValues(v: ChargerControl4Values)
      modifies this
      ensures raw == PackChargerControl4(v)
    {
      raw := PackChargerControl4(v);
    }
  }

  // ---------------------------------------------------------------------------
  // REG14h, Charger Control 5 (bit 6 reserved).

  datatype ChargerControl5Values = ChargerControl5Values(
    sfetPresent: bool,
    enIbat: bool,
    ibatReg: IBATRegulation,
    enIindpm: bool,
    enExtilim: bool,
    enBatoc: bool)

  /** `set_values`: the fields shifted into place and OR-ed together. */
  function PackChargerControl5(v: ChargerControl5Values): (raw: bv8)
    ensures UnpackChargerControl5(raw) == v
    ensures raw & 0x40 == 0
  {
    Bit(v.sfetPresent, 7)
    | Bit(v.enIbat, 5)
    | (v.ibatReg.Code() << 3)
    | Bit(v.enIindpm, 2)
    | Bit(v.enExtilim, 1)
    | Bit(v.enBatoc, 0)
  }

  /** `get_values`. */
  function UnpackChargerControl5(raw: bv8): ChargerControl5Values
  {
    ChargerControl5Values(
      Flag(raw, 7),
      Flag(raw, 5),
      IBATRegulationOf((raw >> 3) & 0x03),
      Flag(raw, 2),
      Flag(raw, 1),
      Flag(raw, 0))
  }

  /** Every bit `get_values` reads is kept by `set_values`; the unused bits come back clear. */
  lemma ChargerControl5Repack(raw: bv8)
    ensures PackChargerControl5(UnpackChargerControl5(raw)) == raw & 0xBF
  {
  }

  /** The default member initialisers of `Values`. */
  const DefaultChargerControl5: ChargerControl5Values := ChargerControl5Values(false, false, IBATRegulation.A6, true, true, false)

  lemma DefaultChargerControl5Packs()
    ensures PackChargerControl5(DefaultChargerControl5) == 0x1E
  {
  }

  /** The `ChargerControl5Register` object: one stored byte. */
  class ChargerControl5Register {
    static const Addr: bv8 := 0x14
    var raw: bv8

    constructor ()
      ensures raw == 0
    {
      raw := 0;
    }

    /** `set_raw`: the byte is stored unchanged. */
    method SetRaw(r: bv8)
      modifies this
      ensures raw == r
    {
      raw := r;
    }

    /** `set_values`. */
    method SetValues(v: ChargerControl5Values)
      modifies this
      ensures raw == PackChargerControl5(v)
    {
      raw := PackChargerControl5(v);
    }
  }
}
