/** Decoders of the read-only flag registers, REG22h to REG27h. */
module FlagTypes {
  import opened Bits

  // ---------------------------------------------------------------------------
  // REG22h, Charger Flag 0.

  datatype ChargerFlag0Values = ChargerFlag0Values(
    iindpmFlag: bool,
    vindpmFlag: bool,
    wdFlag: bool,
    poorsrcFlag: bool,
    pgFlag: bool,
    ac2PresentFlag: bool,
    ac1PresentFlag: bool,
    vbusPresentFlag: bool)

  /** `get_values`. */
  function DecodeChargerFlag0(raw: bv8): ChargerFlag0Values
  {
    ChargerFlag0Values(
      Flag(raw, 7),
      Flag(raw, 6),
      Flag(raw, 5),
      Flag(raw, 4),
      Flag(raw, 3),
      Flag(raw, 2),
      Flag(raw, 1),
      Flag(raw, 0))
  }

  /** The byte a device reports for given values, with every bit the
      decoder does not read clear: the inverse of the decoder. */
  function EncodeChargerFlag0(v: ChargerFlag0Values): (raw: bv8)
    ensures DecodeChargerFlag0(raw) == v
  {
    Bit(v.iindpmFlag, 7)
    | Bit(v.vindpmFlag, 6)
    | Bit(v.wdFlag, 5)
    | Bit(v.poorsrcFlag, 4)
    | Bit(v.pgFlag, 3)
    | Bit(v.ac2PresentFlag, 2)
    | Bit(v.ac1PresentFlag, 1)
    | Bit(v.vbusPresentFlag, 0)
  }

  lemma ChargerFlag0Reencode(raw: bv8)
    ensures EncodeChargerFlag0(DecodeChargerFlag0(raw)) == raw
  {
  }

  /** Decoding is injective: every bit is read. */
  lemma ChargerFlag0DecodesAlike(a: bv8, b: bv8)
    ensures DecodeChargerFlag0(a) == DecodeChargerFlag0(b) <==> a == b
  {
    ChargerFlag0Reencode(a);
    ChargerFlag0Reencode(b);
  }

  /** The `ChargerFlag0Register` object: one stored byte, decoded on demand. */
  class ChargerFlag0Register {
    static const Addr: bv8 := 0x22
    var raw: bv8

    constructor ()
      ensures raw == 0
    {
      raw := 0;
    }

    /** `set_raw`: the byte is stored unchanged. */
    method SetRaw(r: bv8)
      modifies this
      ensures raw == r
    {
      raw := r;
    }
  }

  // ---------------------------------------------------------------------------
  // REG23h, Charger Flag 1 (bits 5 and 3 not decoded).

  datatype ChargerFlag1Values = ChargerFlag1Values(
    chgFlag: bool,
    icoFlag: bool,
    vbusFlag: bool,
    tregFlag: bool,
    vbatPresentFlag: bool,
    bc12DoneFlag: bool)

  /** `get_values`. */
  function DecodeChargerFlag1(raw: bv8): ChargerFlag1Values
  {
    ChargerFlag1Values(
      Flag(raw, 7),
      Flag(raw, 6),
      Flag(raw, 4),
      Flag(raw, 2),
      Flag(raw, 1),
      Flag(raw, 0))
  }

  /** The byte a device reports for given values, with every bit the
      decoder does not read clear: the inverse of the decoder. */
  function EncodeChargerFlag1(v: ChargerFlag1Values): (raw: bv8)
    ensures DecodeChargerFlag1(raw) == v
    ensures raw & 0x28 == 0
  {
    Bit(v.chgFlag, 7)
    | Bit(v.icoFlag, 6)
    | Bit(v.vbusFlag, 4)
    | Bit(v.tregFlag, 2)
    | Bit(v.vbatPresentFlag, 1)
    | Bit(v.bc12DoneFlag, 0)
  }

  lemma ChargerFlag1Reencode(raw: bv8)
    ensures EncodeChargerFlag1(DecodeChargerFlag1(raw)) == raw & 0xD7
  {
  }

  /** Two bytes decode alike exactly when they agree outside bits 5 and 3. */
  lemma ChargerFlag1DecodesAlike(a: bv8, b: bv8)
    ensures DecodeChargerFlag1(a) == DecodeChargerFlag1(b) <==> a & 0xD7 == b & 0xD7
  {
    ChargerFlag1Reencode(a);
    ChargerFlag1Reencode(b);
  }

  /** The `ChargerFlag1Register` object: one stored byte, decoded on demand. */
  class ChargerFlag1Register {
    static const Addr: bv8 := 0x23
    var raw: bv8

    constructor ()
      ensures raw == 0
    {
      raw := 0;
    }

    /** `set_raw`: the byte is stored unchanged. */
    method SetRaw(r: bv8)
      modifies this
      ensures raw == r
    {
      raw := r;
    }
  }

  // ---------------------------------------------------------------------------
  // REG24h, Charger Flag 2 (bit 7 not decoded).

  datatype ChargerFlag2Values = ChargerFlag2Values(
    dpdmDoneFlag: bool,
    adcDoneFlag: bool,
    vsysFlag: bool,
    chgTmrFlag: bool,
    trichgTmrFlag: bool,
    prechgTmrFlag: bool,
    topoffTmrFlag: bool)

  /** `get_values`. */
  function DecodeChargerFlag2(raw: bv8): ChargerFlag2Values
  {
    ChargerFlag2Values(
      Flag(raw, 6),
      Flag(raw, 5),
      Flag(raw, 4),
      Flag(raw, 3),
      Flag(raw, 2),
      Flag(raw, 1),
      Flag(raw, 0))
  }

  /** The byte a device reports for given values, with every bit the
      decoder does not read clear: the inverse of the decoder. */
  function EncodeChargerFlag2(v: ChargerFlag2Values): (raw: bv8)
    ensures DecodeChargerFlag2(raw) == v
    ensures raw & 0x80 == 0
  {
    Bit(v.dpdmDoneFlag, 6)
    | Bit(v.adcDoneFlag, 5)
    | Bit(v.vsysFlag, 4)
    | Bit(v.chgTmrFlag, 3)
    | Bit(v.trichgTmrFlag, 2)
    | Bit(v.prechgTmrFlag, 1)
    | Bit(v.topoffTmrFlag, 0)
  }

  lemma ChargerFlag2Reencode(raw: bv8)
    ensures EncodeChargerFlag2(DecodeChargerFlag2(raw)) == raw & 0x7F
  {
  }

  /** Two bytes decode alike exactly when they agree outside bit 7. */
  lemma ChargerFlag2DecodesAlike(a: bv8, b: bv8)
    ensures DecodeChargerFlag2(a) == DecodeChargerFlag2(b) <==> a & 0x7F == b & 0x7F
  {
    ChargerFlag2Reencode(a);
    ChargerFlag2Reencode(b);
  }

  /** The `ChargerFlag2Register` object: one stored byte, decoded on demand. */
  class ChargerFlag2Register {
    static const Addr: bv8 := 0x24
    var raw: bv8

    constructor ()
      ensures raw == 0
    {
      raw := 0;
    }

    /** `set_raw`: the byte is stored unchanged. */
    method SetRaw(r: bv8)
      modifies this
      ensures raw == r
    {
      raw := r;
    }
  }

  // ---------------------------------------------------------------------------
  // REG25h, Charger Flag 3 (bits 7:5 not decoded).

  datatype ChargerFlag3Values = ChargerFlag3Values(
    vbatotgLowFlag: bool,
    tsColdFlag: bool,
    tsCoolFlag: bool,
    tsWarmFlag: bool,
    tsHotFlag: bool)

  /** `get_values`. */
  function DecodeChargerFlag3(raw: bv8): ChargerFlag3Values
  {
    ChargerFlag3Values(
      Flag(raw, 4),
      Flag(raw, 3),
      Flag(raw, 2),
      Flag(raw, 1),
      Flag(raw, 0))
  }

  /** The byte a device reports for given values, with every bit the
      decoder does not read clear: the inverse of the decoder. */
  function EncodeChargerFlag3(v: ChargerFlag3Values): (raw: bv8)
    ensures DecodeChargerFlag3(raw) == v
    ensures raw & 0xE0 == 0
  {
    Bit(v.vbatotgLowFlag, 4)
    | Bit(v.tsColdFlag, 3)
    | Bit(v.tsCoolFlag, 2)
    | Bit(v.tsWarmFlag, 1)
    | Bit(v.tsHotFlag, 0)
  }

  lemma ChargerFlag3Reencode(raw: bv8)
    ensures EncodeChargerFlag3(DecodeChargerFlag3(raw)) == raw & 0x1F
  {
  }

  /** Two bytes decode alike exactly when they agree outside bits 7:5. */
  lemma ChargerFlag3DecodesAlike(a: bv8, b: bv8)
    ensures DecodeChargerFlag3(a) == DecodeChargerFlag3(b) <==> a & 0x1F == b & 0x1F
  {
    ChargerFlag3Reencode(a);
    ChargerFlag3Reencode(b);
  }

  /** The `ChargerFlag3Register` object: one stored byte, decoded on demand. */
  class ChargerFlag3Register {
    static const Addr: bv8 := 0x25
    var raw: bv8

    constructor ()
      ensures raw == 0
    {
      raw := 0;
    }

    /** `set_raw`: the byte is stored unchanged. */
    method SetRaw(r: bv8)
      modifies this
      ensures raw == r
    {
      raw := r;
    }
  }

  // ---------------------------------------------------------------------------
  // REG26h, Fault Flag 0.

  datatype FaultFlag0Values = FaultFlag0Values(
    ibatRegFlag: bool,
    vbusOvpFlag: bool,
    vbatOvpFlag: bool,
    ibusOcpFlag: bool,
    ibatOcpFlag: bool,
    convOcpFlag: bool,
    vac2OvpFlag: bool,
    vac1OvpFlag: bool)

  /** `get_values`. */
  function DecodeFaultFlag0(raw: bv8): FaultFlag0Values
  {
    FaultFlag0Values(
      Flag(raw, 7),
      Flag(raw, 6),
      Flag(raw, 5),
      Flag(raw, 4),
      Flag(raw, 3),
      Flag(raw, 2),
      Flag(raw, 1),
      Flag(raw, 0))
  }

  /** The byte a device reports for given values, with every bit the
      decoder does not read clear: the inverse of the decoder. */
  function EncodeFaultFlag0(v: FaultFlag0Values): (raw: bv8)
    ensures DecodeFaultFlag0(raw) == v
  {
    Bit(v.ibatRegFlag, 7)
    | Bit(v.vbusOvpFlag, 6)
    | Bit(v.vbatOvpFlag, 5)
    | Bit(v.ibusOcpFlag, 4)
    | Bit(v.ibatOcpFlag, 3)
    | Bit(v.convOcpFlag, 2)
    | Bit(v.vac2OvpFlag, 1)
    | Bit(v.vac1OvpFlag, 0)
  }

  lemma FaultFlag0Reencode(raw: bv8)
    ensures EncodeFaultFlag0(DecodeFaultFlag0(raw)) == raw
  {
  }

  /** Decoding is injective: every bit is read. */
  lemma FaultFlag0DecodesAlike(a: bv8, b: bv8)
    ensures DecodeFaultFlag0(a) == DecodeFaultFlag0(b) <==> a == b
  {
    FaultFlag0Reencode(a);
    FaultFlag0Reencode(b);
  }

  /** The `FaultFlag0Register` object: one stored byte, decoded on demand. */
  class FaultFlag0Register {
    static const Addr: bv8 := 0x26
    var raw: bv8

    constructor ()
      ensures raw == 0
    {
      raw := 0;
    }

    /** `set_raw`: the byte is stored unchanged. */
    method SetRaw(r: bv8)
      modifies this
      ensures raw == r
    {
      raw := r;
    }
  }

  // ---------------------------------------------------------------------------
  // REG27h, Fault Flag 1 (bits 3, 1 and 0 not decoded).

  datatype FaultFlag1Values = FaultFlag1Values(
    vsysShortFlag: bool,
    vsysOvpFlag: bool,
    otgOvpFlag: bool,
    otgUvpFlag: bool,
    tshutFlag: bool)

  /** `get_values`. */
  function DecodeFaultFlag1(raw: bv8): FaultFlag1Values
  {
    FaultFlag1Values(
      Flag(raw, 7),
      Flag(raw, 6),
      Flag(raw, 5),
      Flag(raw, 4),
      Flag(raw, 2))
  }

  /** The byte a device reports for given values, with every bit the
      decoder does not read clear: the inverse of the decoder. */
  function EncodeFaultFlag1(v: FaultFlag1Values): (raw: bv8)
    ensures DecodeFaultFlag1(raw) == v
    ensures raw & 0x0B == 0
  {
    Bit(v.vsysShortFlag, 7)
    | Bit(v.vsysOvpFlag, 6)
    | Bit(v.otgOvpFlag, 5)
    | Bit(v.otgUvpFlag, 4)
    | Bit(v.tshutFlag, 2)
  }

  lemma FaultFlag1Reencode(raw: bv8)
    ensures EncodeFaultFlag1(DecodeFaultFlag1(raw)) == raw & 0xF4
  {
  }

  /** Two bytes decode alike exactly when they agree outside bits 3, 1 and 0. */
  lemma FaultFlag1DecodesAlike(a: bv8, b: bv8)
    ensures DecodeFaultFlag1(a) == DecodeFaultFlag1(b) <==> a & 0xF4 == b & 0xF4
  {
    FaultFlag1Reencode(a);
    FaultFlag1Reencode(b);
  }

  /** The `FaultFlag1Register` object: one stored byte, decoded on demand. */
  class FaultFlag1Register {
    static const Addr: bv8 := 0x27
    var raw: bv8

    constructor ()
      ensures raw == 0
    {
      raw := 0;
    }

    /** `set_raw`: the byte is stored unchanged. */
    method SetRaw(r: bv8)
      modifies this
      ensures raw == r
    {
      raw := r;
    }
  }
}
