/** Codecs of the interrupt mask registers, REG28h to REG2Dh. */
module MaskTypes {
  import opened Bits

  // ---------------------------------------------------------------------------
  // REG28h, Charger Mask 0.

  datatype ChargerMask0Values = ChargerMask0Values(
    iindpmMask: bool,
    vindpmMask: bool,
    wdMask: bool,
    poorsrcMask: bool,
    pgMask: bool,
    ac2PresentMask: bool,
    ac1PresentMask: bool,
    vbusPresentMask: bool)

  /** `set_values`: the fields shifted into place and OR-ed together. */
  function PackChargerMask0(v: ChargerMask0Values): (raw: bv8)
    ensures UnpackChargerMask0(raw) == v
  {
    Bit(v.iindpmMask, 7)
    | Bit(v.vindpmMask, 6)
    | Bit(v.wdMask, 5)
    | Bit(v.poorsrcMask, 4)
    | Bit(v.pgMask, 3)
    | Bit(v.ac2PresentMask, 2)
    | Bit(v.ac1PresentMask, 1)
    | Bit(v.vbusPresentMask, 0)
  }

  /** `get_values`. */
  function UnpackChargerMask0(raw: bv8): ChargerMask0Values
  {
    ChargerMask0Values(
      Flag(raw, 7),
      Flag(raw, 6),
      Flag(raw, 5),
      Flag(raw, 4),
      Flag(raw, 3),
      Flag(raw, 2),
      Flag(raw, 1),
      Flag(raw, 0))
  }

  /** Every bit `get_values` reads is kept by `set_values`. */
  lemma ChargerMask0Repack(raw: bv8)
    ensures PackChargerMask0(UnpackChargerMask0(raw)) == raw
  {
  }

  /** The default member initialisers of `Values`. */
  const DefaultChargerMask0: ChargerMask0Values := ChargerMask0Values(false, false, false, false, false, false, false, false)

  lemma DefaultChargerMask0Packs()
    ensures PackChargerMask0(DefaultChargerMask0) == 0x00
  {
  }

  /** The `ChargerMask0Register` object: one stored byte. */
  class ChargerMask0Register {
    static const Addr: bv8 := 0x28
    var raw: bv8

    constructor ()
      ensures raw == 0
    {
      raw := 0;
    }

    /** `set_raw`: the byte is stored unchanged. */
    method SetRaw(r: bv8)
      modifies this
      ensures raw == r
    {
      raw := r;
    }

    /** `set_values`. */
    method SetValues(v: ChargerMask0Values)
      modifies this
      ensures raw == PackChargerMask0(v)
    {
      raw := PackChargerMask0(v);
    }
  }

  // ---------------------------------------------------------------------------
  // REG29h, Charger Mask 1 (bits 5 and 3 reserved).

  datatype ChargerMask1Values = ChargerMask1Values(
    chgMask: bool,
    icoMask: bool,
    vbusMask: bool,
    tregMask: bool,
    vbatPresentMask: bool,
    bc12DoneMask: bool)

  /** `set_values`: the fields shifted into place and OR-ed together. */
  function PackChargerMask1(v: ChargerMask1Values): (raw: bv8)
    ensures UnpackChargerMask1(raw) == v
    ensures raw & 0x28 == 0
  {
    Bit(v.chgMask, 7)
    | Bit(v.icoMask, 6)
    | Bit(v.vbusMask, 4)
    | Bit(v.tregMask, 2)
    | Bit(v.vbatPresentMask, 1)
    | Bit(v.bc12DoneMask, 0)
  }

  /** `get_values`. */
  function UnpackChargerMask1(raw: bv8): ChargerMask1Values
  {
    ChargerMask1Values(
      Flag(raw, 7),
      Flag(raw, 6),
      Flag(raw, 4),
      Flag(raw, 2),
      Flag(raw, 1),
      Flag(raw, 0))
  }

  /** Every bit `get_values` reads is kept by `set_values`; the unused bits come back clear. */
  lemma ChargerMask1Repack(raw: bv8)
    ensures PackChargerMask1(UnpackChargerMask1(raw)) == raw & 0xD7
  {
  }

  /** The default member initialisers of `Values`. */
  const DefaultChargerMask1: ChargerMask1Values := ChargerMask1Values(false, false, false, false, false, false)

  lemma DefaultChargerMask1Packs()
    ensures PackChargerMask1(DefaultChargerMask1) == 0x00
  {
  }

  /** The `ChargerMask1Register` object: one stored byte. */
  class ChargerMask1Register {
    static const Addr: bv8 := 0x29
    var raw: bv8

    constructor ()
      ensures raw == 0
    {
      raw := 0;
    }

    /** `set_raw`: reserved bit 3 is cleared. */
    method SetRaw(r: bv8)
      modifies this
      ensures raw == r & 0xF7
    {
      raw := r & 0xF7;
    }

    /** `set_values`. */
    method SetValues(v: ChargerMask1Values)
      modifies this
      ensures raw == PackChargerMask1(v)
    {
      raw := PackChargerMask1(v);
    }
  }

  // ---------------------------------------------------------------------------
  // REG2Ah, Charger Mask 2 (bit 7 reserved).

  datatype ChargerMask2Values = ChargerMask2Values(
    dpdmDoneMask: bool,
    adcDoneMask: bool,
    vsysMask: bool,
    chgTmrMask: bool,
    trichgTmrMask: bool,
    prechgTmrMask: bool,
    topoffTmrMask: bool)

  /** `set_values`: the fields shifted into place and OR-ed together. */
  function PackChargerMask2(v: ChargerMask2Values): (raw: bv8)
    ensures UnpackChargerMask2(raw) == v
    ensures raw & 0x80 == 0
  {
    Bit(v.dpdmDoneMask, 6)
    | Bit(v.adcDoneMask, 5)
    | Bit(v.vsysMask, 4)
    | Bit(v.chgTmrMask, 3)
    | Bit(v.trichgTmrMask, 2)
    | Bit(v.prechgTmrMask, 1)
    | Bit(v.topoffTmrMask, 0)
  }

  /** `get_values`. */
  function UnpackChargerMask2(raw: bv8): ChargerMask2Values
  {
    ChargerMask2Values(
      Flag(raw, 6),
      Flag(raw, 5),
      Flag(raw, 4),
      Flag(raw, 3),
      Flag(raw, 2),
      Flag(raw, 1),
      Flag(raw, 0))
  }

  /** Every bit `get_values` reads is kept by `set_values`; the unused bits come back clear. */
  lemma ChargerMask2Repack(raw: bv8)
    ensures PackChargerMask2(UnpackChargerMask2(raw)) == raw & 0x7F
  {
  }

  /** The default member initialisers of `Values`. */
  const DefaultChargerMask2: ChargerMask2Values := ChargerMask2Values(false, false, false, false, false, false, false)

  lemma DefaultChargerMask2Packs()
    ensures PackChargerMask2(DefaultChargerMask2) == 0x00
  {
  }

  /** The `ChargerMask2Register` object: one stored byte. */
  class ChargerMask2Register {
    static const Addr: bv8 := 0x2A
    var raw: bv8

    constructor ()
      ensures raw == 0
    {
      raw := 0;
    }

    /** `set_raw`: reserved bit 7 is cleared. */
    method SetRaw(r: bv8)
      modifies this
      ensures raw == r & 0x7F
    {
      raw := r & 0x7F;
    }

    /** `set_values`. */
    method SetValues(v: ChargerMask2Values)
      modifies this
      ensures raw == PackChargerMask2(v)
    {
      raw := PackChargerMask2(v);
    }
  }

  // ---------------------------------------------------------------------------
  // REG2Bh, Charger Mask 3 (bits 7:5 reserved).

  datatype ChargerMask3Values = ChargerMask3Values(
    vbatotgLowMask: bool,
    tsColdMask: bool,
    tsCoolMask: bool,
    tsWarmMask: bool,
    tsHotMask: bool)

  /** `set_values`: the fields shifted into place and OR-ed together. */
  function PackChargerMask3(v: ChargerMask3Values): (raw: bv8)
    ensures UnpackChargerMask3(raw) == v
    ensures raw & 0xE0 == 0
  {
    Bit(v.vbatotgLowMask, 4)
    | Bit(v.tsColdMask, 3)
    | Bit(v.tsCoolMask, 2)
    | Bit(v.tsWarmMask, 1)
    | Bit(v.tsHotMask, 0)
  }

  /** `get_values`. */
  function UnpackChargerMask3(raw: bv8): ChargerMask3Values
  {
    ChargerMask3Values(
      Flag(raw, 4),
      Flag(raw, 3),
      Flag(raw, 2),
      Flag(raw, 1),
      Flag(raw, 0))
  }

  /** Every bit `get_values` reads is kept by `set_values`; the unused bits come back clear. */
  lemma ChargerMask3Repack(raw: bv8)
    ensures PackChargerMask3(UnpackChargerMask3(raw)) == raw & 0x1F
  {
  }

  /** The default member initialisers of `Values`. */
  const DefaultChargerMask3: ChargerMask3Values := ChargerMask3Values(false, false, false, false, false)

  lemma DefaultChargerMask3Packs()
    ensures PackChargerMask3(DefaultChargerMask3) == 0x00
  {
  }

  /** The `ChargerMask3Register` object: one stored byte. */
  class ChargerMask3Register {
    static const Addr: bv8 := 0x2B
    var raw: bv8

    constructor ()
      ensures raw == 0
    {
      raw := 0;
    }

    /** `set_raw`: reserved bits 7:5 are cleared. */
    method SetRaw(r: bv8)
      modifies this
      ensures raw == r & 0x1F
    {
      raw := r & 0x1F;
    }

    /** `set_values`. */
    method SetValues(v: ChargerMask3Values)
      modifies this
      ensures raw == PackChargerMask3(v)
    {
      raw := PackChargerMask3(v);
    }
  }

  // ---------------------------------------------------------------------------
  // REG2Ch, Fault Mask 0.

  datatype FaultMask0Values = FaultMask0Values(
    ibatRegMask: bool,
    vbusOvpMask: bool,
    vbatOvpMask: bool,
    ibusOcpMask: bool,
    ibatOcpMask: bool,
    convOcpMask: bool,
    vac2OvpMask: bool,
    vac1OvpMask: bool)

  /** `set_values`: the fields shifted into place and OR-ed together. */
  function PackFaultMask0(v: FaultMask0Values): (raw: bv8)
    ensures UnpackFaultMask0(raw) == v
  {
    Bit(v.ibatRegMask, 7)
    | Bit(v.vbusOvpMask, 6)
    | Bit(v.vbatOvpMask, 5)
    | Bit(v.ibusOcpMask, 4)
    | Bit(v.ibatOcpMask, 3)
    | Bit(v.convOcpMask, 2)
    | Bit(v.vac2OvpMask, 1)
    | Bit(v.vac1OvpMask, 0)
  }

  /** `get_values`. */
  function UnpackFaultMask0(raw: bv8): FaultMask0Values
  {
    FaultMask0Values(
      Flag(raw, 7),
      Flag(raw, 6),
      Flag(raw, 5),
      Flag(raw, 4),
      Flag(raw, 3),
      Flag(raw, 2),
      Flag(raw, 1),
      Flag(raw, 0))
  }

  /** Every bit `get_values` reads is kept by `set_values`. */
  lemma FaultMask0Repack(raw: bv8)
    ensures PackFaultMask0(UnpackFaultMask0(raw)) == raw
  {
  }

  /** The default member initialisers of `Values`. */
  const DefaultFaultMask0: FaultMask0Values := FaultMask0Values(false, false, false, false, false, false, false, false)

  lemma DefaultFaultMask0Packs()
    ensures PackFaultMask0(DefaultFaultMask0) == 0x00
  {
  }

  /** The `FaultMask0Register` object: one stored byte. */
  class FaultMask0Register {
    static const Addr: bv8 := 0x2C
    var raw: bv8

    constructor ()
      ensures raw == 0
    {
      raw := 0;
    }

    /** `set_raw`: the byte is stored unchanged. */
    method SetRaw(r: bv8)
      modifies this
      ensures raw == r
    {
      raw := r;
    }

    /** `set_values`. */
    method SetValues(v: FaultMask0Values)
      modifies this
      ensures raw == PackFaultMask0(v)
    {
      raw := PackFaultMask0(v);
    }
  }

  // ---------------------------------------------------------------------------
  // REG2Dh, Fault Mask 1 (bits 3, 1 and 0 reserved).

  datatype FaultMask1Values = FaultMask1Values(
    vsysShortMask: bool,
    vsysOvpMask: bool,
    otgOvpMask: bool,
    otgUvpMask: bool,
    tshutMask: bool)

  /** `set_values`: the fields shifted into place and OR-ed together. */
  function PackFaultMask1(v: FaultMask1Values): (raw: bv8)
    ensures UnpackFaultMask1(raw) == v
    ensures raw & 0x0B == 0
  {
    Bit(v.vsysShortMask, 7)
    | Bit(v.vsysOvpMask, 6)
    | Bit(v.otgOvpMask, 5)
    | Bit(v.otgUvpMask, 4)
    | Bit(v.tshutMask, 2)
  }

  /** `get_values`. */
  function UnpackFaultMask1(raw: bv8): FaultMask1Values
  {
    FaultMask1Values(
      Flag(raw, 7),
      Flag(raw, 6),
      Flag(raw, 5),
      Flag(raw, 4),
      Flag(raw, 2))
  }

  /** Every bit `get_values` reads is kept by `set_values`; the unused bits come back clear. */
  lemma FaultMask1Repack(raw: bv8)
    ensures PackFaultMask1(UnpackFaultMask1(raw)) == raw & 0xF4
  {
  }

  /** The default member initialisers of `Values`. */
  const DefaultFaultMask1: FaultMask1Values := FaultMask1Values(false, false, false, false, false)

  lemma DefaultFaultMask1Packs()
    ensures PackFaultMask1(DefaultFaultMask1) == 0x00
  {
  }

  /** The `FaultMask1Register` object: one stored byte. */
  class FaultMask1Register {
    static const Addr: bv8 := 0x2D
    var raw: bv8

    constructor ()
      ensures raw == 0
    {
      raw := 0;
    }

    /** `set_raw`: reserved bits 3, 1 and 0 are cleared. */
    method SetRaw(r: bv8)
      modifies this
      ensures raw == r & 0xF4
    {
      raw := r & 0xF4;
    }

    /** `set_values`. */
    method SetValues(v: FaultMask1Values)
      modifies this
      ensures raw == PackFaultMask1(v)
    {
      raw := PackFaultMask1(v);
    }
  }
}
