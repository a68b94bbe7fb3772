/** Decoders of the read-only status registers, REG1Bh to REG21h. */
module StatusTypes {
  import opened Bits

  /** `enum class ChargeStatus`: a 3-bit field; the n-th enumerator has value n. */
  datatype ChargeStatus =
    | NotCharging
    | TrickleCharge
    | PreCharge
    | FastCharge
    | TaperCharge
    | Reserved
    | TopOffCharge
    | TerminationDone
  {
    /** The enumerator's value, `static_cast<uint8_t>(e)`. */
    function Code(): (c: bv8)
      ensures c < 8
    {
      match this
      case NotCharging => 0
      case TrickleCharge => 1
      case PreCharge => 2
      case FastCharge => 3
      case TaperCharge => 4
      case Reserved => 5
      case TopOffCharge => 6
      case TerminationDone => 7
    }
  }

  /** `static_cast<ChargeStatus>` of a 3-bit field: every pattern names an enumerator. */
  function ChargeStatusOf(c: bv8): (e: ChargeStatus)
    requires c < 8
    ensures e.Code() == c
  {
    if c == 0 then ChargeStatus.NotCharging
    else if c == 1 then ChargeStatus.TrickleCharge
    else if c == 2 then ChargeStatus.PreCharge
    else if c == 3 then ChargeStatus.FastCharge
    else if c == 4 then ChargeStatus.TaperCharge
    else if c == 5 then ChargeStatus.Reserved
    else if c == 6 then ChargeStatus.TopOffCharge
    else ChargeStatus.TerminationDone
  }

  /** `enum class VbusStatus`: a 4-bit field; the n-th enumerator has value n. */
  datatype VbusStatus =
    | NoInput
    | USB_SDP
    | USB_CDP
    | USB_DCP
    | AdjustableHV_DCP
    | UnknownAdapter
    | NonStandardAdapter
    | OTGMode
    | NotQualifiedAdapter
    | Reserved_9
    | Reserved_A
    | DirectVBUS
    | BackupMode
    | Reserved_D
    | Reserved_E
    | Reserved_F
  {
    /** The enumerator's value, `static_cast<uint8_t>(e)`. */
    function Code(): (c: bv8)
      ensures c < 16
    {
      match this
      case NoInput => 0
      case USB_SDP => 1
      case USB_CDP => 2
      case USB_DCP => 3
      case AdjustableHV_DCP => 4
      case UnknownAdapter => 5
      case NonStandardAdapter => 6
      case OTGMode => 7
      case NotQualifiedAdapter => 8
      case Reserved_9 => 9
      case Reserved_A => 10
      case DirectVBUS => 11
      case BackupMode => 12
      case Reserved_D => 13
      case Reserved_E => 14
      case Reserved_F => 15
    }
  }

  /** `static_cast<VbusStatus>` of a 4-bit field: every pattern names an enumerator. */
  function VbusStatusOf(c: bv8): (e: VbusStatus)
    requires c < 16
    ensures e.Code() == c
  {
    if c == 0 then VbusStatus.NoInput
    else if c == 1 then VbusStatus.USB_SDP
    else if c == 2 then VbusStatus.USB_CDP
    else if c == 3 then VbusStatus.USB_DCP
    else if c == 4 then VbusStatus.AdjustableHV_DCP
    else if c == 5 then VbusStatus.UnknownAdapter
    else if c == 6 then VbusStatus.NonStandardAdapter
    else if c == 7 then VbusStatus.OTGMode
    else if c == 8 then VbusStatus.NotQualifiedAdapter
    else if c == 9 then VbusStatus.Reserved_9
    else if c == 10 then VbusStatus.Reserved_A
    else if c == 11 then VbusStatus.DirectVBUS
    else if c == 12 then VbusStatus.BackupMode
    else if c == 13 then VbusStatus.Reserved_D
    else if c == 14 then VbusStatus.Reserved_E
    else VbusStatus.Reserved_F
  }

  /** `enum class ICOStatus`: a 2-bit field; the n-th enumerator has value n. */
  datatype ICOStatus =
    | Disabled
    | OptimizationInProgress
    | MaxInputCurrentDetected
    | Reserved
  {
    /** The enumerator's value, `static_cast<uint8_t>(e)`. */
    function Code(): (c: bv8)
      ensures c < 4
    {
      match this
      case Disabled => 0
      case OptimizationInProgress => 1
      case MaxInputCurrentDetected => 2
      case Reserved => 3
    }
  }

  /** `static_cast<ICOStatus>` of a 2-bit field: every pattern names an enumerator. */
  function ICOStatusOf(c: bv8): (e: ICOStatus)
    requires c < 4
    ensures e.Code() == c
  {
    if c == 0 then ICOStatus.Disabled
    else if c == 1 then ICOStatus.OptimizationInProgress
    else if c == 2 then ICOStatus.MaxInputCurrentDetected
    else ICOStatus.Reserved
  }

  // ---------------------------------------------------------------------------
  // REG1Bh, Charger Status 0 (bit 4 not decoded).

  datatype ChargerStatus0Values = ChargerStatus0Values(
    iindpmStat: bool,
    vindpmStat: bool,
    wdStat: bool,
    pgStat: bool,
    ac2Present: bool,
    ac1Present: bool,
    vbusPresent: bool)

  /** `get_values`. */
  function DecodeChargerStatus0(raw: bv8): ChargerStatus0Values
  {
    ChargerStatus0Values(
      Flag(raw, 7),
      Flag(raw, 6),
      Flag(raw, 5),
      Flag(raw, 3),
      Flag(raw, 2),
      Flag(raw, 1),
      Flag(raw, 0))
  }

  /** The byte a device reports for given values, with every bit the
      decoder does not read clear: the inverse of the decoder. */
  function EncodeChargerStatus0(v: ChargerStatus0Values): (raw: bv8)
    ensures DecodeChargerStatus0(raw) == v
    ensures raw & 0x10 == 0
  {
    Bit(v.iindpmStat, 7)
    | Bit(v.vindpmStat, 6)
    | Bit(v.wdStat, 5)
    | Bit(v.pgStat, 3)
    | Bit(v.ac2Present, 2)
    | Bit(v.ac1Present, 1)
    | Bit(v.vbusPresent, 0)
  }

  lemma ChargerStatus0Reencode(raw: bv8)
    ensures EncodeChargerStatus0(DecodeChargerStatus0(raw)) == raw & 0xEF
  {
  }

  /** Two bytes decode alike exactly when they agree outside bit 4. */
  lemma ChargerStatus0DecodesAlike(a: bv8, b: bv8)
    ensures DecodeChargerStatus0(a) == DecodeChargerStatus0(b) <==> a & 0xEF == b & 0xEF
  {
    ChargerStatus0Reencode(a);
    ChargerStatus0Reencode(b);
  }

  /** The `ChargerStatus0Register` object: one stored byte, decoded on demand. */
  class ChargerStatus0Register {
    static const Addr: bv8 := 0x1B
    var raw: bv8

    constructor ()
      ensures raw == 0
    {
      raw := 0;
    }

    /** `set_raw`: the byte is stored unchanged. */
    method SetRaw(r: bv8)
      modifies this
      ensures raw == r
    {
      raw := r;
    }
  }

  // ---------------------------------------------------------------------------
  // REG1Ch, Charger Status 1.

  datatype ChargerStatus1Values = ChargerStatus1Values(
    chargeStatus: ChargeStatus,
    vbusStatus: VbusStatus,
    bc12Done: bool)

  /** `get_values`. */
  function DecodeChargerStatus1(raw: bv8): ChargerStatus1Values
  {
    ChargerStatus1Values(
      ChargeStatusOf((raw >> 5) & 0x07),
      VbusStatusOf((raw >> 1) & 0x0F),
      Flag(raw, 0))
  }

  /** The byte a device reports for given values, with every bit the
      decoder does not read clear: the inverse of the decoder. */
  function EncodeChargerStatus1(v: ChargerStatus1Values): (raw: bv8)
    ensures DecodeChargerStatus1(raw) == v
  {
    (v.chargeStatus.Code() << 5)
    | (v.vbusStatus.Code() << 1)
    | Bit(v.bc12Done, 0)
  }

  lemma ChargerStatus1Reencode(raw: bv8)
    ensures EncodeChargerStatus1(DecodeChargerStatus1(raw)) == raw
  {
  }

  /** Decoding is injective: every bit is read. */
  lemma ChargerStatus1DecodesAlike(a: bv8, b: bv8)
    ensures DecodeChargerStatus1(a) == DecodeChargerStatus1(b) <==> a == b
  {
    ChargerStatus1Reencode(a);
    ChargerStatus1Reencode(b);
  }

  /** The `ChargerStatus1Register` object: one stored byte, decoded on demand. */
  class ChargerStatus1Register {
    static const Addr: bv8 := 0x1C
    var raw: bv8

    constructor ()
      ensures raw == 0
    {
      raw := 0;
    }

    /** `set_raw`: the byte is stored unchanged. */
    method SetRaw(r: bv8)
      modifies this
      ensures raw == r
    {
      raw := r;
    }
  }

  // ---------------------------------------------------------------------------
  // REG1Dh, Charger Status 2 (bits 5:3 not decoded).

  datatype ChargerStatus2Values = ChargerStatus2Values(
    icoStatus: ICOStatus,
    tregStat: bool,
    dpdmStat: bool,
    vbatPresent: bool)

  /** `get_values`. */
  function DecodeChargerStatus2(raw: bv8): ChargerStatus2Values
  {
    ChargerStatus2Values(
      ICOStatusOf((raw >> 6) & 0x03),
      Flag(raw, 2),
      Flag(raw, 1),
      Flag(raw, 0))
  }

  /** The byte a device reports for given values, with every bit the
      decoder does not read clear: the inverse of the decoder. */
  function EncodeChargerStatus2(v: ChargerStatus2Values): (raw: bv8)
    ensures DecodeChargerStatus2(raw) == v
    ensures raw & 0x38 == 0
  {
    (v.icoStatus.Code() << 6)
    | Bit(v.tregStat, 2)
    | Bit(v.dpdmStat, 1)
    | Bit(v.vbatPresent, 0)
  }

  lemma ChargerStatus2Reencode(raw: bv8)
    ensures EncodeChargerStatus2(DecodeChargerStatus2(raw)) == raw & 0xC7
  {
  }

  /** Two bytes decode alike exactly when they agree outside bits 5:3. */
  lemma ChargerStatus2DecodesAlike(a: bv8, b: bv8)
    ensures DecodeChargerStatus2(a) == DecodeChargerStatus2(b) <==> a & 0xC7 == b & 0xC7
  {
    ChargerStatus2Reencode(a);
    ChargerStatus2Reencode(b);
  }

  /** The `ChargerStatus2Register` object: one stored byte, decoded on demand. */
  class ChargerStatus2Register {
    static const Addr: bv8 := 0x1D
    var raw: bv8

    constructor ()
      ensures raw == 0
    {
      raw := 0;
    }

    /** `set_raw`: the byte is stored unchanged. */
    method SetRaw(r: bv8)
      modifies this
      ensures raw == r
    {
      raw := r;
    }
  }

  // ---------------------------------------------------------------------------
  // REG1Eh, Charger Status 3 (bit 0 not decoded).

  datatype ChargerStatus3Values = ChargerStatus3Values(
    acrb2Stat: bool,
    acrb1Stat: bool,
    adcDoneStat: bool,
    vsysStat: bool,
    chgTmrStat: bool,
    trichgTmrStat: bool,
    prechgTmrStat: bool)

  /** `get_values`. */
  function DecodeChargerStatus3(raw: bv8): ChargerStatus3Values
  {
    ChargerStatus3Values(
      Flag(raw, 7),
      Flag(raw, 6),
      Flag(raw, 5),
      Flag(raw, 4),
      Flag(raw, 3),
      Flag(raw, 2),
      Flag(raw, 1))
  }

  /** The byte a device reports for given values, with every bit the
      decoder does not read clear: the inverse of the decoder. */
  function EncodeChargerStatus3(v: ChargerStatus3Values): (raw: bv8)
    ensures DecodeChargerStatus3(raw) == v
    ensures raw & 0x01 == 0
  {
    Bit(v.acrb2Stat, 7)
    | Bit(v.acrb1Stat, 6)
    | Bit(v.adcDoneStat, 5)
    | Bit(v.vsysStat, 4)
    | Bit(v.chgTmrStat, 3)
    | Bit(v.trichgTmrStat, 2)
    | Bit(v.prechgTmrStat, 1)
  }

  lemma ChargerStatus3Reencode(raw: bv8)
    ensures EncodeChargerStatus3(DecodeChargerStatus3(raw)) == raw & 0xFE
  {
  }

  /** Two bytes decode alike exactly when they agree outside bit 0. */
  lemma ChargerStatus3DecodesAlike(a: bv8, b: bv8)
    ensures DecodeChargerStatus3(a) == DecodeChargerStatus3(b) <==> a & 0xFE == b & 0xFE
  {
    ChargerStatus3Reencode(a);
    ChargerStatus3Reencode(b);
  }

  /** The `ChargerStatus3Register` object: one stored byte, decoded on demand. */
  class ChargerStatus3Register {
    static const Addr: bv8 := 0x1E
    var raw: bv8

    constructor ()
      ensures raw == 0
    {
      raw := 0;
    }

    /** `set_raw`: the byte is stored unchanged. */
    method SetRaw(r: bv8)
      modifies this
      ensures raw == r
    {
      raw := r;
    }
  }

  // ---------------------------------------------------------------------------
  // REG1Fh, Charger Status 4 (bits 7:5 not decoded).

  datatype ChargerStatus4Values = ChargerStatus4Values(
    vbatotgLowStat: bool,
    tsColdStat: bool,
    tsCoolStat: bool,
    tsWarmStat: bool,
    tsHotStat: bool)

  /** `get_values`. */
  function DecodeChargerStatus4(raw: bv8): ChargerStatus4Values
  {
    ChargerStatus4Values(
      Flag(raw, 4),
      Flag(raw, 3),
      Flag(raw, 2),
      Flag(raw, 1),
      Flag(raw, 0))
  }

  /** The byte a device reports for given values, with every bit the
      decoder does not read clear: the inverse of the decoder. */
  function EncodeChargerStatus4(v: ChargerStatus4Values): (raw: bv8)
    ensures DecodeChargerStatus4(raw) == v
    ensures raw & 0xE0 == 0
  {
    Bit(v.vbatotgLowStat, 4)
    | Bit(v.tsColdStat, 3)
    | Bit(v.tsCoolStat, 2)
    | Bit(v.tsWarmStat, 1)
    | Bit(v.tsHotStat, 0)
  }

  lemma ChargerStatus4Reencode(raw: bv8)
    ensures EncodeChargerStatus4(DecodeChargerStatus4(raw)) == raw & 0x1F
  {
  }

  /** Two bytes decode alike exactly when they agree outside bits 7:5. */
  lemma ChargerStatus4DecodesAlike(a: bv8, b: bv8)
    ensures DecodeChargerStatus4(a) == DecodeChargerStatus4(b) <==> a & 0x1F == b & 0x1F
  {
    ChargerStatus4Reencode(a);
    ChargerStatus4Reencode(b);
  }

  /** The `ChargerStatus4Register` object: one stored byte, decoded on demand. */
  class ChargerStatus4Register {
    static const Addr: bv8 := 0x1F
    var raw: bv8

    constructor ()
      ensures raw == 0
    {
      raw := 0;
    }

    /** `set_raw`: the byte is stored unchanged. */
    method SetRaw(r: bv8)
      modifies this
      ensures raw == r
    {
      raw := r;
    }
  }

  // ---------------------------------------------------------------------------
  // REG20h, Fault Status 0.

  datatype FaultStatus0Values = FaultStatus0Values(
    ibatRegStat: bool,
    vbusOvpStat: bool,
    vbatOvpStat: bool,
    ibusOcpStat: bool,
    ibatOcpStat: bool,
    convOcpStat: bool,
    vac2OvpStat: bool,
    vac1OvpStat: bool)

  /** `get_values`. */
  function DecodeFaultStatus0(raw: bv8): FaultStatus0Values
  {
    FaultStatus0Values(
      Flag(raw, 7),
      Flag(raw, 6),
      Flag(raw, 5),
      Flag(raw, 4),
      Flag(raw, 3),
      Flag(raw, 2),
      Flag(raw, 1),
      Flag(raw, 0))
  }

  /** The byte a device reports for given values, with every bit the
      decoder does not read clear: the inverse of the decoder. */
  function EncodeFaultStatus0(v: FaultStatus0Values): (raw: bv8)
    ensures DecodeFaultStatus0(raw) == v
  {
    Bit(v.ibatRegStat, 7)
    | Bit(v.vbusOvpStat, 6)
    | Bit(v.vbatOvpStat, 5)
    | Bit(v.ibusOcpStat, 4)
    | Bit(v.ibatOcpStat, 3)
    | Bit(v.convOcpStat, 2)
    | Bit(v.vac2OvpStat, 1)
    | Bit(v.vac1OvpStat, 0)
  }

  lemma FaultStatus0Reencode(raw: bv8)
    ensures EncodeFaultStatus0(DecodeFaultStatus0(raw)) == raw
  {
  }

  /** Decoding is injective: every bit is read. */
  lemma FaultStatus0DecodesAlike(a: bv8, b: bv8)
    ensures DecodeFaultStatus0(a) == DecodeFaultStatus0(b) <==> a == b
  {
    FaultStatus0Reencode(a);
    FaultStatus0Reencode(b);
  }

  /** The `FaultStatus0Register` object: one stored byte, decoded on demand. */
  class FaultStatus0Register {
    static const Addr: bv8 := 0x20
    var raw: bv8

    constructor ()
      ensures raw == 0
    {
      raw := 0;
    }

    /** `set_raw`: the byte is stored unchanged. */
    method SetRaw(r: bv8)
      modifies this
      ensures raw == r
    {
      raw := r;
    }
  }

  // ---------------------------------------------------------------------------
  // REG21h, Fault Status 1 (bits 3, 1 and 0 not decoded).

  datatype FaultStatus1Values = FaultStatus1Values(
    vsysShortStat: bool,
    vsysOvpStat: bool,
    otgOvpStat: bool,
    otgUvpStat: bool,
    tshutStat: bool)

  /** `get_values`. */
  function DecodeFaultStatus1(raw: bv8): FaultStatus1Values
  {
    FaultStatus1Values(
      Flag(raw, 7),
      Flag(raw, 6),
      Flag(raw, 5),
      Flag(raw, 4),
      Flag(raw, 2))
  }

  /** The byte a device reports for given values, with every bit the
      decoder does not read clear: the inverse of the decoder. */
  function EncodeFaultStatus1(v: FaultStatus1Values): (raw: bv8)
    ensures DecodeFaultStatus1(raw) == v
    ensures raw & 0x0B == 0
  {
    Bit(v.vsysShortStat, 7)
    | Bit(v.vsysOvpStat, 6)
    | Bit(v.otgOvpStat, 5)
    | Bit(v.otgUvpStat, 4)
    | Bit(v.tshutStat, 2)
  }

  lemma FaultStatus1Reencode(raw: bv8)
    ensures EncodeFaultStatus1(DecodeFaultStatus1(raw)) == raw & 0xF4
  {
  }

  /** Two bytes decode alike exactly when they agree outside bits 3, 1 and 0. */
  lemma FaultStatus1DecodesAlike(a: bv8, b: bv8)
    ensures DecodeFaultStatus1(a) == DecodeFaultStatus1(b) <==> a & 0xF4 == b & 0xF4
  {
    FaultStatus1Reencode(a);
    FaultStatus1Reencode(b);
  }

  /** The `FaultStatus1Register` object: one stored byte, decoded on demand. */
  class FaultStatus1Register {
    static const Addr: bv8 := 0x21
    var raw: bv8

    constructor ()
      ensures raw == 0
    {
      raw := 0;
    }

    /** `set_raw`: the byte is stored unchanged. */
    method SetRaw(r: bv8)
      modifies this
      ensures raw == r
    {
      raw := r;
    }
  }
}
