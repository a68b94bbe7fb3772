/** Codecs of the limit registers: minimal system voltage, charge voltage and
    current limits, input voltage and current limits, and the OTG voltage and
    current. `set_value` clamps a physical value into the register's range
    and converts it to steps; `get_value` converts steps back. */
module LimitTypes {
  import opened Bits

  /** `if (x < lo) x = lo; if (x > hi) x = hi;` */
  function Clamp(x: int, lo: int, hi: int): (r: int)
    requires lo <= hi
    ensures lo <= r <= hi
    ensures lo <= x <= hi ==> r == x
  {
    if x < lo then lo else if x > hi then hi else x
  }

  /** `if (x > hi) x = hi;` (the current limits have no lower bound). */
  function AtMost(x: int, hi: int): (r: int)
    ensures r <= hi && r <= x
    ensures x <= hi ==> r == x
  {
    if x > hi then hi else x
  }

  // ---------------------------------------------------------------------------
  // REG00h, Minimal System Voltage: 250 mV steps above 2500 mV in bits 5:0.

  /** `get_value`. */
  function VsysminMv(raw: bv8): (mv: u16)
    ensures 2500 <= mv <= 18250 && (mv - 2500) % 250 == 0
  {
    (raw & 0x3F) as int * 250 + 2500
  }

  /** The byte `set_value` stores: the clamped voltage in whole steps. */
  function VsysminCode(mv: u16): (raw: bv8)
    ensures raw <= 0x36
    ensures VsysminMv(raw) <= Clamp(mv, 2500, 16000) < VsysminMv(raw) + 250
  {
    var steps := (Clamp(mv, 2500, 16000) - 2500) / 250 % 64;
    assert steps <= 54;
    var raw := ByteOf(steps);
    assert raw & 0x3F == raw;
    raw
  }

  /** A request above the range saturates at 16000 mV, code 0x36. */
  lemma VsysminSaturates()
    ensures VsysminCode(20000) == 0x36 && VsysminMv(0x36) == 16000
  {
  }

  /** Every code `set_value` can store is reproduced by setting its own voltage. */
  lemma VsysminCodeRoundTrip(raw: bv8)
    requires raw <= 0x36
    ensures VsysminCode(VsysminMv(raw)) == raw
  {
    ByteOfValue(raw & 0x3F);
    ByteOfValue(VsysminCode(VsysminMv(raw)) & 0x3F);
  }

  class MinimalSystemVoltageRegister {
    static const Addr: bv8 := 0x00
    var raw: bv8

    constructor ()
      ensures raw == 0
    {
      raw := 0;
    }

    /** `set_raw`: the byte is stored unchanged. */
    method SetRaw(r: bv8)
      modifies this
      ensures raw == r
    {
      raw := r;
    }

    /** `set_value`: clamp to [2500, 16000] mV, then store the steps. */
    method SetValue(mv: u16)
      modifies this
      ensures raw == VsysminCode(mv)
    {
      var m := mv;
      if m < 2500 {
        m := 2500;
      }
      if m > 16000 {
        m := 16000;
      }
      raw := ByteOf((m - 2500) / 250 % 64);
    }
  }

  // ---------------------------------------------------------------------------
  // REG01h, Charge Voltage Limit: 10 mV steps in bits 10:0 of a word.

  /** `get_value`. */
  function VregMv(raw: u16): (mv: u16)
    ensures mv <= 20470 && mv % 10 == 0
  {
    raw % 0x800 * 10
  }

  /** The word `set_value` stores. */
  function VregCode(mv: u16): (raw: u16)
    ensures 300 <= raw <= 1880
    ensures VregMv(raw) <= Clamp(mv, 3000, 18800) < VregMv(raw) + 10
  {
    Clamp(mv, 3000, 18800) / 10 % 0x800
  }

  /** 4200 mV is code 420 (0x01A4) and reads back as 4200 mV. */
  lemma VregExample()
    ensures VregCode(4200) == 0x01A4 && VregMv(0x01A4) == 4200
  {
  }

  lemma VregCodeRoundTrip(raw: u16)
    requires 300 <= raw <= 1880
    ensures VregCode(VregMv(raw)) == raw
  {
  }

  class ChargeVoltageLimitRegister {
    static const Addr: bv8 := 0x01
    var raw: u16

    constructor ()
      ensures raw == 0
    {
      raw := 0;
    }

    /** `set_raw`: only bits 10:0 are kept. */
    method SetRaw(r: u16)
      modifies this
      ensures raw == r % 0x800
    {
      raw := r % 0x800;
    }

    /** `set_value`: clamp to [3000, 18800] mV, then store the steps. */
    method SetValue(mv: u16)
      modifies this
      ensures raw == VregCode(mv)
    {
      var m := mv;
      if m < 3000 {
        m := 3000;
      }
      if m > 18800 {
        m := 18800;
      }
      raw := m / 10 % 0x800;
    }
  }

  // ---------------------------------------------------------------------------
  // REG03h, Charge Current Limit: 10 mA steps in bits 9:0 of a word.

  /** `get_value`. */
  function IchgMa(raw: u16): (ma: u16)
    ensures ma <= 10230 && ma % 10 == 0
  {
    raw % 0x400 * 10
  }

  /** The word `set_value` stores; there is no lower clamp. */
  function IchgCode(ma: u16): (raw: u16)
    ensures raw <= 500
    ensures IchgMa(raw) <= AtMost(ma, 5000) < IchgMa(raw) + 10
  {
    AtMost(ma, 5000) / 10 % 0x400
  }

  /** With no lower clamp, a zero request stores code 0. */
  lemma IchgNoLowerClamp()
    ensures IchgCode(0) == 0 && IchgCode(5000) == 500
  {
  }

  class ChargeCurrentLimitRegister {
    static const Addr: bv8 := 0x03
    var raw: u16

    constructor ()
      ensures raw == 0
    {
      raw := 0;
    }

    /** `set_raw`: only bits 9:0 are kept. */
    method SetRaw(r: u16)
      modifies this
      ensures raw == r % 0x400
    {
      raw := r % 0x400;
    }

    /** `set_value`: cap at 5000 mA, then store the steps. */
    method SetValue(ma: u16)
      modifies this
      ensures raw == IchgCode(ma)
    {
      var m := ma;
      if m > 5000 {
        m := 5000;
      }
      raw := m / 10 % 0x400;
    }
  }

  // ---------------------------------------------------------------------------
  // REG05h, Input Voltage Limit: 100 mV steps in one byte.

  /** `get_value`. */
  function VindpmMv(raw: bv8): (mv: u16)
    ensures mv <= 25500 && mv % 100 == 0
  {
    raw as int * 100
  }

  /** The byte `set_value` stores: the clamped voltage fits the byte. */
  function VindpmCode(mv: u16): (raw: bv8)
    ensures 36 <= raw <= 220
    ensures VindpmMv(raw) <= Clamp(mv, 3600, 22000) < VindpmMv(raw) + 100
  {
    ByteOf(Clamp(mv, 3600, 22000) / 100)
  }

  lemma VindpmCodeRoundTrip(raw: bv8)
    requires 36 <= raw <= 220
    ensures VindpmCode(VindpmMv(raw)) == raw
  {
    ByteOfValue(raw);
  }

  class InputVoltageLimitRegister {
    static const Addr: bv8 := 0x05
    var raw: bv8

    constructor ()
      ensures raw == 0
    {
      raw := 0;
    }

    /** `set_raw`: the byte is stored unchanged. */
    method SetRaw(r: bv8)
      modifies this
      ensures raw == r
    {
      raw := r;
    }

    /** `set_value`: clamp to [3600, 22000] mV, then store the steps. */
    method SetValue(mv: u16)
      modifies this
      ensures raw == VindpmCode(mv)
    {
      var m := mv;
      if m < 3600 {
        m := 3600;
      }
      if m > 22000 {
        m := 22000;
      }
      raw := ByteOf(m / 100);
    }
  }

  // ---------------------------------------------------------------------------
  // REG06h, Input Current Limit: 10 mA steps in an unmasked word.

  /** `get_value`: `raw_ * 10` returned as `uint16_t`, so it wraps for
      words above 6553. */
  function IindpmMa(raw: u16): (ma: u16)
    ensures (ma - raw * 10) % 0x1_0000 == 0
  {
    Wrap16(raw * 10)
  }

  /** The word `set_value` stores; there is no lower clamp. */
  function IindpmCode(ma: u16): (raw: u16)
    ensures raw <= 330
    ensures IindpmMa(raw) <= AtMost(ma, 3300) < IindpmMa(raw) + 10
  {
    AtMost(ma, 3300) / 10
  }

  /** A word the device could never hold as a limit reads back wrapped. */
  lemma IindpmReadingWraps()
    ensures IindpmMa(6554) == 4
  {
  }

  lemma IindpmCodeRoundTrip(raw: u16)
    requires raw <= 330
    ensures IindpmCode(IindpmMa(raw)) == raw
  {
  }

  class InputCurrentLimitRegister {
    static const Addr: bv8 := 0x06
    var raw: u16

    constructor ()
      ensures raw == 0
    {
      raw := 0;
    }

    /** `set_raw`: the word is stored unmasked. */
    method SetRaw(r: u16)
      modifies this
      ensures raw == r
    {
      raw := r;
    }

    /** `set_value`: cap at 3300 mA, then store the steps. */
    method SetValue(ma: u16)
      modifies this
      ensures raw == IindpmCode(ma)
    {
      var m := ma;
      if m > 3300 {
        m := 3300;
      }
      raw := m / 10;
    }
  }

  // ---------------------------------------------------------------------------
  // REG0Bh, VOTG Regulation: 10 mV steps above 2800 mV in bits 10:0.

  /** `get_value`. */
  function VotgMv(raw: u16): (mv: u16)
    ensures 2800 <= mv <= 23270 && (mv - 2800) % 10 == 0
  {
    raw % 0x800 * 10 + 2800
  }

  /** The word `set_value` stores (unmasked, but always within 11 bits). */
  function VotgCode(mv: u16): (raw: u16)
    ensures raw <= 1920
    ensures VotgMv(raw) <= Clamp(mv, 2800, 22000) < VotgMv(raw) + 10
  {
    (Clamp(mv, 2800, 22000) - 2800) / 10
  }

  /** 5000 mV is code 220 (0xDC). */
  lemma VotgExample()
    ensures VotgCode(5000) == 0xDC && VotgMv(0xDC) == 5000
  {
  }

  lemma VotgCodeRoundTrip(raw: u16)
    requires raw <= 1920
    ensures VotgCode(VotgMv(raw)) == raw
  {
  }

  class VOTGRegulationRegister {
    static const Addr: bv8 := 0x0B
    var raw: u16

    constructor ()
      ensures raw == 0
    {
      raw := 0;
    }

    /** `set_raw`: only bits 10:0 are kept. */
    method SetRaw(r: u16)
      modifies this
      ensures raw == r % 0x800
    {
      raw := r % 0x800;
    }

    /** `set_value`: clamp to [2800, 22000] mV, then store the steps. */
    method SetValue(mv: u16)
      modifies this
      ensures raw == VotgCode(mv)
    {
      var m := mv;
      if m < 2800 {
        m := 2800;
      }
      if m > 22000 {
        m := 22000;
      }
      raw := (m - 2800) / 10;
    }
  }

  // ---------------------------------------------------------------------------
  // REG0Dh, IOTG Regulation: precharge-timer bit 7, 40 mA steps in bits 6:0.

  datatype IotgValues = IotgValues(prechargeTimerShort: bool, otgCurrentMa: u16)

  /** `set_values`: the current is not clamped; it wraps modulo 128 steps. */
  function PackIotg(v: IotgValues): (raw: bv8)
    ensures UnpackIotg(raw) == v.(otgCurrentMa := v.otgCurrentMa / 40 % 128 * 40)
  {
    Bit(v.prechargeTimerShort, 7) | ByteOf(v.otgCurrentMa / 40 % 128)
  }

  /** `get_values`. */
  function UnpackIotg(raw: bv8): IotgValues
  {
    IotgValues(Flag(raw, 7), (raw & 0x7F) as int * 40)
  }

  lemma IotgRepack(raw: bv8)
    ensures PackIotg(UnpackIotg(raw)) == raw
  {
    var low := raw & 0x7F;
    LowBound(raw, 0x7F);
    assert low as int * 40 / 40 % 128 == low as int;
    ByteOfValue(low);
  }

  /** Multiples of 40 mA up to 5080 mA survive the round trip. */
  lemma IotgExactRoundTrip(v: IotgValues)
    requires v.otgCurrentMa % 40 == 0 && v.otgCurrentMa <= 5080
    ensures UnpackIotg(PackIotg(v)) == v
  {
  }

  /** 5120 mA and above wrap: adding 5120 mA leaves the byte unchanged. */
  lemma IotgWraps(v: IotgValues)
    requires v.otgCurrentMa + 5120 < 0x1_0000
    ensures PackIotg(v.(otgCurrentMa := v.otgCurrentMa + 5120)) == PackIotg(v)
  {
    var steps := v.otgCurrentMa / 40;
    assert (v.otgCurrentMa + 5120) / 40 == steps + 128;
    assert (steps + 128) % 128 == steps % 128;
  }

  /** The default member initialisers of `Values`. */
  const DefaultIotg: IotgValues := IotgValues(false, 3040)

  lemma DefaultIotgPacks()
    ensures PackIotg(DefaultIotg) == 0x4C
  {
  }

  class IOTGRegulationRegister {
    static const Addr: bv8 := 0x0D
    var raw: bv8

    constructor ()
      ensures raw == 0
    {
      raw := 0;
    }

    /** `set_raw`: the byte is stored unchanged. */
    method SetRaw(r: bv8)
      modifies this
      ensures raw == r
    {
      raw := r;
    }

    /** `set_values`. */
    method SetValues(v: IotgValues)
      modifies this
      ensures raw == PackIotg(v)
    {
      raw := PackIotg(v);
    }
  }
}
