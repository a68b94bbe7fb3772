/** The read-only measurement registers: the ICO current limit, the ADC
    results and the part information byte. The ADC results are 16-bit words;
    `get_value` turns a word into a physical reading. */
module CtrlTypes {
  import opened Bits

  // ---------------------------------------------------------------------------
  // REG19h, ICO Current Limit: 10 mA steps in bits 8:0.

  /** `get_value`: `raw_ * 10` as `uint16_t`. */
  function IcoLimitMa(raw: u16): (ma: u16)
    ensures raw < 0x200 ==> ma <= 5110 && ma % 10 == 0
  {
    Wrap16(raw * 10)
  }

  class IcoCurrentLimitRegister {
    static const Addr: bv8 := 0x19
    var raw: u16

    constructor ()
      ensures raw == 0
    {
      raw := 0;
    }

    /** `set_raw`: only bits 8:0 are kept. */
    method SetRaw(r: u16)
      modifies this
      ensures raw == r % 0x200
    {
      raw := r % 0x200;
    }
  }

  // ---------------------------------------------------------------------------
  // Conversions of the ADC result words.

  /** IBAT `get_value`: the word read as a signed current. */
  function IbatMa(raw: u16): (ma: i16)
    ensures ma < 0 <==> raw >= 0x8000
    ensures (ma - raw) % 0x1_0000 == 0
  {
    Signed16(raw)
  }

  /** TS `get_value`: `raw * 250 / 256` in 32-bit arithmetic, which cannot
      overflow for a 16-bit word. */
  function TsMilliPercent(raw: u16): (p: nat)
    ensures p <= raw
    ensures p < 0x1_0000_0000
  {
    raw * 250 / 256
  }

  /** A larger TS word never gives a smaller reading. */
  lemma TsMonotone(a: u16, b: u16)
    requires a <= b
    ensures TsMilliPercent(a) <= TsMilliPercent(b)
  {
    assert a * 250 <= b * 250;
  }

  /** TDIE `get_value`: the signed word times 5, returned as `int16_t`; the
      product only fits when the signed word lies within [-6553, 6553]. */
  function TdieDeciCelsius(raw: u16): (t: i16)
    ensures -6553 <= Signed16(raw) <= 6553 ==> t == Signed16(raw) * 5
  {
    Signed16(Wrap16(Signed16(raw) * 5))
  }

  /** A word outside that window reads back with the wrong sign. */
  lemma TdieReadingWraps()
    ensures TdieDeciCelsius(0x2000) == -24576
  {
  }

  /** REG31h, IBUS ADC: input current, 1 mA per LSB. */
  class IbusAdcRegister {
    static const Addr: bv8 := 0x31
    var raw: u16

    constructor ()
      ensures raw == 0
    {
      raw := 0;
    }

    /** `set_raw`: the word is stored unchanged. */
    method SetRaw(r: u16)
      modifies this
      ensures raw == r
    {
      raw := r;
    }
  }

  /** REG33h, IBAT ADC: battery current, 1 mA per LSB, two's complement. */
  class IbatAdcRegister {
    static const Addr: bv8 := 0x33
    var raw: u16

    constructor ()
      ensures raw == 0
    {
      raw := 0;
    }

    /** `set_raw`: the word is stored unchanged. */
    method SetRaw(r: u16)
      modifies this
      ensures raw == r
    {
      raw := r;
    }
  }

  /** REG35h, VBUS ADC: 1 mV per LSB. */
  class VbusAdcRegister {
    static const Addr: bv8 := 0x35
    var raw: u16

    constructor ()
      ensures raw == 0
    {
      raw := 0;
    }

    /** `set_raw`: the word is stored unchanged. */
    method SetRaw(r: u16)
      modifies this
      ensures raw == r
    {
      raw := r;
    }
  }

  /** REG37h, VAC1 ADC: 1 mV per LSB. */
  class Vac1AdcRegister {
    static const Addr: bv8 := 0x37
    var raw: u16

    constructor ()
      ensures raw == 0
    {
      raw := 0;
    }

    /** `set_raw`: the word is stored unchanged. */
    method SetRaw(r: u16)
      modifies this
      ensures raw == r
    {
      raw := r;
    }
  }

  /** REG39h, VAC2 ADC: 1 mV per LSB. */
  class Vac2AdcRegister {
    static const Addr: bv8 := 0x39
    var raw: u16

    constructor ()
      ensures raw == 0
    {
      raw := 0;
    }

    /** `set_raw`: the word is stored unchanged. */
    method SetRaw(r: u16)
      modifies this
      ensures raw == r
    {
      raw := r;
    }
  }

  /** REG3Bh, VBAT ADC: 1 mV per LSB. */
  class VbatAdcRegister {
    static const Addr: bv8 := 0x3B
    var raw: u16

    constructor ()
      ensures raw == 0
    {
      raw := 0;
    }

    /** `set_raw`: the word is stored unchanged. */
    method SetRaw(r: u16)
      modifies this
      ensures raw == r
    {
      raw := r;
    }
  }

  /** REG3Dh, VSYS ADC: 1 mV per LSB. */
  class VsysAdcRegister {
    static const Addr: bv8 := 0x3D
    var raw: u16

    constructor ()
      ensures raw == 0
    {
      raw := 0;
    }

    /** `set_raw`: the word is stored unchanged. */
    method SetRaw(r: u16)
      modifies this
      ensures raw == r
    {
      raw := r;
    }
  }

  /** REG3Fh, TS ADC: percentage of REGN. */
  class TsAdcRegister {
    static const Addr: bv8 := 0x3F
    var raw: u16

    constructor ()
      ensures raw == 0
    {
      raw := 0;
    }

    /** `set_raw`: the word is stored unchanged. */
    method SetRaw(r: u16)
      modifies this
      ensures raw == r
    {
      raw := r;
    }
  }

  /** REG41h, TDIE ADC: die temperature, 0.5 degC per LSB, two's complement. */
  class TdieAdcRegister {
    static const Addr: bv8 := 0x41
    var raw: u16

    constructor ()
      ensures raw == 0
    {
      raw := 0;
    }

    /** `set_raw`: the word is stored unchanged. */
    method SetRaw(r: u16)
      modifies this
      ensures raw == r
    {
      raw := r;
    }
  }

  /** REG43h, D+ ADC: 1 mV per LSB. */
  class DPlusAdcRegister {
    static const Addr: bv8 := 0x43
    var raw: u16

    constructor ()
      ensures raw == 0
    {
      raw := 0;
    }

    /** `set_raw`: the word is stored unchanged. */
    method SetRaw(r: u16)
      modifies this
      ensures raw == r
    {
      raw := r;
    }
  }

  /** REG45h, D- ADC: 1 mV per LSB. */
  class DMinusAdcRegister {
    static const Addr: bv8 := 0x45
    var raw: u16

    constructor ()
      ensures raw == 0
    {
      raw := 0;
    }

    /** `set_raw`: the word is stored unchanged. */
    method SetRaw(r: u16)
      modifies this
      ensures raw == r
    {
      raw := r;
    }
  }

  // ---------------------------------------------------------------------------
  // REG48h, Part Information: part number in bits 5:3, revision in bits 2:0.

  datatype PartInformationValues = PartInformationValues(partNumber: bv8, deviceRevision: bv8)

  /** `get_values`. */
  function DecodePartInformation(raw: bv8): PartInformationValues
  {
    PartInformationValues((raw >> 3) & 0x07, raw & 0x07)
  }

  /** The byte a device reports for given 3-bit fields, bits 7:6 clear. */
  function EncodePartInformation(v: PartInformationValues): (raw: bv8)
    requires v.partNumber < 8 && v.deviceRevision < 8
    ensures DecodePartInformation(raw) == v
    ensures raw & 0xC0 == 0
  {
    (v.partNumber << 3) | v.deviceRevision
  }

  /** Two bytes decode alike exactly when they agree outside bits 7:6. */
  lemma PartInformationDecodesAlike(a: bv8, b: bv8)
    ensures DecodePartInformation(a) == DecodePartInformation(b) <==> a & 0x3F == b & 0x3F
  {
    var va, vb := DecodePartInformation(a), DecodePartInformation(b);
    assert EncodePartInformation(va) == a & 0x3F;
    assert EncodePartInformation(vb) == b & 0x3F;
  }

  class PartInformationRegister {
    static const Addr: bv8 := 0x48
    var raw: bv8

    constructor ()
      ensures raw == 0
    {
      raw := 0;
    }

    /** `set_raw`: the byte is stored unchanged. */
    method SetRaw(r: bv8)
      modifies this
      ensures raw == r
    {
      raw := r;
    }
  }
}
