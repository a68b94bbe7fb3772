/** The `Config` functional group: the 31 writable configuration registers
    of the charger. The driver keeps their raw values in a `ConfigParams`
    value made of four group structs (limit, control, mask, ADC); each
    register has a getter that reads it into that value through the
    register's `set_raw` and a setter that writes the stored raw value back;
    each group, and the whole set, has a bulk getter and setter that visit
    the registers in order and stop at the first error. */
module Configuration {
  import opened Bits
  import opened Bus
  import opened Transport
  import opened Groups
  import opened LimitTypes
  import opened ControlTypes
  import opened ChargerTypes
  import opened NtcTypes
  import opened MaskTypes
  import opened AdcTypes

  /** The registers `get_limit_registers` visits, in order, with the width of each transfer. */
  const LimitSlots: seq<Slot> := [
    Slot(MinimalSystemVoltageRegister.Addr, 1),
    Slot(ChargeVoltageLimitRegister.Addr, 2),
    Slot(ChargeCurrentLimitRegister.Addr, 2),
    Slot(InputVoltageLimitRegister.Addr, 1),
    Slot(InputCurrentLimitRegister.Addr, 2),
    Slot(VOTGRegulationRegister.Addr, 2),
    Slot(IOTGRegulationRegister.Addr, 1)
  ]

  /** `LimitSlots`, entry by entry. */
  lemma LimitSlotsAre()
    ensures |LimitSlots| == 7
    ensures LimitSlots[0] == Slot(MinimalSystemVoltageRegister.Addr, 1)
    ensures LimitSlots[1] == Slot(ChargeVoltageLimitRegister.Addr, 2)
    ensures LimitSlots[2] == Slot(ChargeCurrentLimitRegister.Addr, 2)
    ensures LimitSlots[3] == Slot(InputVoltageLimitRegister.Addr, 1)
    ensures LimitSlots[4] == Slot(InputCurrentLimitRegister.Addr, 2)
    ensures LimitSlots[5] == Slot(VOTGRegulationRegister.Addr, 2)
    ensures LimitSlots[6] == Slot(IOTGRegulationRegister.Addr, 1)
  {
  }

  /** The registers `get_control_registers` visits, in order, with the width of each transfer. */
  const ControlSlots: seq<Slot> := [
    Slot(PrechargeControlRegister.Addr, 1),
    Slot(TerminationControlRegister.Addr, 1),
    Slot(RechargeControlRegister.Addr, 1),
    Slot(TimerControlRegister.Addr, 1),
    Slot(ChargerControl0Register.Addr, 1),
    Slot(ChargerControl1Register.Addr, 1),
    Slot(ChargerControl2Register.Addr, 1),
    Slot(ChargerControl3Register.Addr, 1),
    Slot(ChargerControl4Register.Addr, 1),
    Slot(ChargerControl5Register.Addr, 1),
    Slot(MPPTControlRegister.Addr, 1),
    Slot(TemperatureControlRegister.Addr, 1),
    Slot(NTCControl0Register.Addr, 1),
    Slot(NTCControl1Register.Addr, 1),
    Slot(DPDMDriverRegister.Addr, 1)
  ]

  /** `ControlSlots`, entry by entry. */
  lemma ControlSlotsAre()
    ensures |ControlSlots| == 15
    ensures ControlSlots[0] == Slot(PrechargeControlRegister.Addr, 1)
    ensures ControlSlots[1] == Slot(TerminationControlRegister.Addr, 1)
    ensures ControlSlots[2] == Slot(RechargeControlRegister.Addr, 1)
    ensures ControlSlots[3] == Slot(TimerControlRegister.Addr, 1)
    ensures ControlSlots[4] == Slot(ChargerControl0Register.Addr, 1)
    ensures ControlSlots[5] == Slot(ChargerControl1Register.Addr, 1)
    ensures ControlSlots[6] == Slot(ChargerControl2Register.Addr, 1)
    ensures ControlSlots[7] == Slot(ChargerControl3Register.Addr, 1)
    ensures ControlSlots[8] == Slot(ChargerControl4Register.Addr, 1)
    ensures ControlSlots[9] == Slot(ChargerControl5Register.Addr, 1)
    ensures ControlSlots[10] == Slot(MPPTControlRegister.Addr, 1)
    ensures ControlSlots[11] == Slot(TemperatureControlRegister.Addr, 1)
    ensures ControlSlots[12] == Slot(NTCControl0Register.Addr, 1)
    ensures ControlSlots[13] == Slot(NTCControl1Register.Addr, 1)
    ensures ControlSlots[14] == Slot(DPDMDriverRegister.Addr, 1)
  {
  }

  /** The registers `get_mask_registers` visits, in order, with the width of each transfer. */
  const MaskSlots: seq<Slot> := [
    Slot(ChargerMask0Register.Addr, 1),
    Slot(ChargerMask1Register.Addr, 1),
    Slot(ChargerMask2Register.Addr, 1),
    Slot(ChargerMask3Register.Addr, 1),
    Slot(FaultMask0Register.Addr, 1),
    Slot(FaultMask1Register.Addr, 1)
  ]

  /** `MaskSlots`, entry by entry. */
  lemma MaskSlotsAre()
    ensures |MaskSlots| == 6
    ensures MaskSlots[0] == Slot(ChargerMask0Register.Addr, 1)
    ensures MaskSlots[1] == Slot(ChargerMask1Register.Addr, 1)
    ensures MaskSlots[2] == Slot(ChargerMask2Register.Addr, 1)
    ensures MaskSlots[3] == Slot(ChargerMask3Register.Addr, 1)
    ensures MaskSlots[4] == Slot(FaultMask0Register.Addr, 1)
    ensures MaskSlots[5] == Slot(FaultMask1Register.Addr, 1)
  {
  }

  /** The registers `get_adc_registers` visits, in order, with the width of each transfer. */
  const AdcSlots: seq<Slot> := [
    Slot(ADCControlRegister.Addr, 1),
    Slot(ADCFunctionDisable0Register.Addr, 1),
    Slot(ADCFunctionDisable1Register.Addr, 1)
  ]

  /** `AdcSlots`, entry by entry. */
  lemma AdcSlotsAre()
    ensures |AdcSlots| == 3
    ensures AdcSlots[0] == Slot(ADCControlRegister.Addr, 1)
    ensures AdcSlots[1] == Slot(ADCFunctionDisable0Register.Addr, 1)
    ensures AdcSlots[2] == Slot(ADCFunctionDisable1Register.Addr, 1)
  {
  }

  /** The order in which `get()` and `set()` transfer all 31 registers. */
  const ConfigSlots: seq<Slot> := LimitSlots + ControlSlots + MaskSlots + AdcSlots

  /** `ConfigLimit`: the raw value of each register of the limit group. */
  datatype ConfigLimit = ConfigLimit(
    vsysmin: u8,
    vreg: u16,
    ichg: u16,
    vindpm: u8,
    iindpm: u16,
    votg: u16,
    iotg: u8
  )

  /** The value-initialised `ConfigLimit{}`. */
  const DefaultLimit := ConfigLimit(0, 0, 0, 0, 0, 0, 0)

  /** What a bulk read leaves in the limit group when its transfers start at
      index `base` of `ts`. */
  ghost function ReadLimit(p: ConfigLimit, ts: seq<Transfer>, base: nat): ConfigLimit
  {
    ConfigLimit(
      ReadBack8(p.vsysmin, ts, base),
      ReadBack16(p.vreg, ts, base + 1, 0x800),
      ReadBack16(p.ichg, ts, base + 2, 0x400),
      ReadBack8(p.vindpm, ts, base + 3),
      ReadBack16(p.iindpm, ts, base + 4, 0x1_0000),
      ReadBack16(p.votg, ts, base + 5, 0x800),
      ReadBack8(p.iotg, ts, base + 6)
    )
  }

  /** What reading the register at position `k` of the limit group stores, as
      `get_limit_registers` does register by register. */
  ghost function ApplyLimit(p: ConfigLimit, k: nat, t: Transfer): ConfigLimit
  {
    if k == 0 then p.(vsysmin := Got8(p.vsysmin, t))
    else if k == 1 then p.(vreg := Got16(p.vreg, t, 0x800))
    else if k == 2 then p.(ichg := Got16(p.ichg, t, 0x400))
    else if k == 3 then p.(vindpm := Got8(p.vindpm, t))
    else if k == 4 then p.(iindpm := Got16(p.iindpm, t, 0x1_0000))
    else if k == 5 then p.(votg := Got16(p.votg, t, 0x800))
    else if k == 6 then p.(iotg := Got8(p.iotg, t))
    else p
  }

  /** The bytes a bulk write of the limit group sends, register by register:
      one byte for an 8-bit register, the big-endian word for a 16-bit one. */
  function LimitPayload(p: ConfigLimit): (ps: seq<seq<u8>>)
    ensures |ps| == |LimitSlots|
  {
    [[p.vsysmin], BeBytes(p.vreg), BeBytes(p.ichg), [p.vindpm], BeBytes(p.iindpm), BeBytes(p.votg), [p.iotg]]
  }

  /** `LimitPayload`, entry by entry. */
  lemma LimitPayloadAre(p: ConfigLimit)
    ensures |LimitPayload(p)| == 7
    ensures LimitPayload(p)[0] == [p.vsysmin]
    ensures LimitPayload(p)[1] == BeBytes(p.vreg)
    ensures LimitPayload(p)[2] == BeBytes(p.ichg)
    ensures LimitPayload(p)[3] == [p.vindpm]
    ensures LimitPayload(p)[4] == BeBytes(p.iindpm)
    ensures LimitPayload(p)[5] == BeBytes(p.votg)
    ensures LimitPayload(p)[6] == [p.iotg]
  {
  }

  /** `ConfigControl`: the raw value of each register of the control group. The C++ `charger` and `ntc` sub-structs are flattened into their registers. */
  datatype ConfigControl = ConfigControl(
    precharge: u8,
    termination: u8,
    recharge: u8,
    timer: u8,
    chargerControl0: u8,
    chargerControl1: u8,
    chargerControl2: u8,
    chargerControl3: u8,
    chargerControl4: u8,
    chargerControl5: u8,
    mppt: u8,
    temperature: u8,
    ntcControl0: u8,
    ntcControl1: u8,
    dpdm: u8
  )

  /** The value-initialised `ConfigControl{}`. */
  const DefaultControl := ConfigControl(0, 0, 0, 0, 0, 0, 0, 0, 0, 0, 0, 0, 0, 0, 0)

  /** What a bulk read leaves in the control group when its transfers start at
      index `base` of `ts`. */
  ghost function ReadControl(p: ConfigControl, ts: seq<Transfer>, base: nat): ConfigControl
  {
    ConfigControl(
      ReadBack8(p.precharge, ts, base),
      ReadBack8(p.termination, ts, base + 1),
      ReadBack8(p.recharge, ts, base + 2),
      ReadBack8(p.timer, ts, base + 3),
      ReadBack8(p.chargerControl0, ts, base + 4),
      ReadBack8(p.chargerControl1, ts, base + 5),
      ReadBack8(p.chargerControl2, ts, base + 6),
      ReadBack8(p.chargerControl3, ts, base + 7),
      ReadBack8(p.chargerControl4, ts, base + 8),
      ReadBack8(p.chargerControl5, ts, base + 9),
      ReadBack8(p.mppt, ts, base + 10),
      ReadBack8(p.temperature, ts, base + 11),
      ReadBackKept8(p.ntcControl0, ts, base + 12, 0xFE),
      ReadBack8(p.ntcControl1, ts, base + 13),
      ReadBackKept8(p.dpdm, ts, base + 14, 0xFC)
    )
  }

  /** What reading the register at position `k` of the control group stores, as
      `get_control_registers` does register by register. */
  ghost function ApplyControl(p: ConfigControl, k: nat, t: Transfer): ConfigControl
  {
    if k == 0 then p.(precharge := Got8(p.precharge, t))
    else if k == 1 then p.(termination := Got8(p.termination, t))
    else if k == 2 then p.(recharge := Got8(p.recharge, t))
    else if k == 3 then p.(timer := Got8(p.timer, t))
    else if k == 4 then p.(chargerControl0 := Got8(p.chargerControl0, t))
    else if k == 5 then p.(chargerControl1 := Got8(p.chargerControl1, t))
    else if k == 6 then p.(chargerControl2 := Got8(p.chargerControl2, t))
    else if k == 7 then p.(chargerControl3 := Got8(p.chargerControl3, t))
    else if k == 8 then p.(chargerControl4 := Got8(p.chargerControl4, t))
    else if k == 9 then p.(chargerControl5 := Got8(p.chargerControl5, t))
    else if k == 10 then p.(mppt := Got8(p.mppt, t))
    else if k == 11 then p.(temperature := Got8(p.temperature, t))
    else if k == 12 then p.(ntcControl0 := GotKept8(p.ntcControl0, t, 0xFE))
    else if k == 13 then p.(ntcControl1 := Got8(p.ntcControl1, t))
    else if k == 14 then p.(dpdm := GotKept8(p.dpdm, t, 0xFC))
    else p
  }

  /** The bytes a bulk write of the control group sends, register by register:
      one byte for an 8-bit register, the big-endian word for a 16-bit one. */
  function ControlPayload(p: ConfigControl): (ps: seq<seq<u8>>)
    ensures |ps| == |ControlSlots|
  {
    [[p.precharge], [p.termination], [p.recharge], [p.timer], [p.chargerControl0], [p.chargerControl1], [p.chargerControl2], [p.chargerControl3], [p.chargerControl4], [p.chargerControl5], [p.mppt], [p.temperature], [p.ntcControl0], [p.ntcControl1], [p.dpdm]]
  }

  /** `ControlPayload`, entry by entry. */
  lemma ControlPayloadAre(p: ConfigControl)
    ensures |ControlPayload(p)| == 15
    ensures ControlPayload(p)[0] == [p.precharge]
    ensures ControlPayload(p)[1] == [p.termination]
    ensures ControlPayload(p)[2] == [p.recharge]
    ensures ControlPayload(p)[3] == [p.timer]
    ensures ControlPayload(p)[4] == [p.chargerControl0]
    ensures ControlPayload(p)[5] == [p.chargerControl1]
    ensures ControlPayload(p)[6] == [p.chargerControl2]
    ensures ControlPayload(p)[7] == [p.chargerControl3]
    ensures ControlPayload(p)[8] == [p.chargerControl4]
    ensures ControlPayload(p)[9] == [p.chargerControl5]
    ensures ControlPayload(p)[10] == [p.mppt]
    ensures ControlPayload(p)[11] == [p.temperature]
    ensures ControlPayload(p)[12] == [p.ntcControl0]
    ensures ControlPayload(p)[13] == [p.ntcControl1]
    ensures ControlPayload(p)[14] == [p.dpdm]
  {
  }

  /** `ConfigMask`: the raw value of each register of the mask group. The C++ `charger_mask` and `fault_mask` sub-structs are flattened into their registers. */
  datatype ConfigMask = ConfigMask(
    chargerMask0: u8,
    chargerMask1: u8,
    chargerMask2: u8,
    chargerMask3: u8,
    faultMask0: u8,
    faultMask1: u8
  )

  /** The value-initialised `ConfigMask{}`. */
  const DefaultMask := ConfigMask(0, 0, 0, 0, 0, 0)

  /** What a bulk read leaves in the mask group when its transfers start at
      index `base` of `ts`. */
  ghost function ReadMask(p: ConfigMask, ts: seq<Transfer>, base: nat): ConfigMask
  {
    ConfigMask(
      ReadBack8(p.chargerMask0, ts, base),
      ReadBackKept8(p.chargerMask1, ts, base + 1, 0xF7),
      ReadBackKept8(p.chargerMask2, ts, base + 2, 0x7F),
      ReadBackKept8(p.chargerMask3, ts, base + 3, 0x1F),
      ReadBack8(p.faultMask0, ts, base + 4),
      ReadBackKept8(p.faultMask1, ts, base + 5, 0xF4)
    )
  }

  /** What reading the register at position `k` of the mask group stores, as
      `get_mask_registers` does register by register. */
  ghost function ApplyMask(p: ConfigMask, k: nat, t: Transfer): ConfigMask
  {
    if k == 0 then p.(chargerMask0 := Got8(p.chargerMask0, t))
    else if k == 1 then p.(chargerMask1 := GotKept8(p.chargerMask1, t, 0xF7))
    else if k == 2 then p.(chargerMask2 := GotKept8(p.chargerMask2, t, 0x7F))
    else if k == 3 then p.(chargerMask3 := GotKept8(p.chargerMask3, t, 0x1F))
    else if k == 4 then p.(faultMask0 := Got8(p.faultMask0, t))
    else if k == 5 then p.(faultMask1 := GotKept8(p.faultMask1, t, 0xF4))
    else p
  }

  /** The bytes a bulk write of the mask group sends, register by register:
      one byte for an 8-bit register, the big-endian word for a 16-bit one. */
  function MaskPayload(p: ConfigMask): (ps: seq<seq<u8>>)
    ensures |ps| == |MaskSlots|
  {
    [[p.chargerMask0], [p.chargerMask1], [p.chargerMask2], [p.chargerMask3], [p.faultMask0], [p.faultMask1]]
  }

  /** `MaskPayload`, entry by entry. */
  lemma MaskPayloadAre(p: ConfigMask)
    ensures |MaskPayload(p)| == 6
    ensures MaskPayload(p)[0] == [p.chargerMask0]
    ensures MaskPayload(p)[1] == [p.chargerMask1]
    ensures MaskPayload(p)[2] == [p.chargerMask2]
    ensures MaskPayload(p)[3] == [p.chargerMask3]
    ensures MaskPayload(p)[4] == [p.faultMask0]
    ensures MaskPayload(p)[5] == [p.faultMask1]
  {
  }

  /** `ConfigADC`: the raw value of each register of the adc group. The C++ `adc_function_disable` sub-struct is flattened into its registers. */
  datatype ConfigADC = ConfigADC(
    adcControl: u8,
    adcFunctionDisable0: u8,
    adcFunctionDisable1: u8
  )

  /** The value-initialised `ConfigADC{}`. */
  const DefaultAdc := ConfigADC(0, 0, 0)

  /** What a bulk read leaves in the adc group when its transfers start at
      index `base` of `ts`. */
  ghost function ReadAdc(p: ConfigADC, ts: seq<Transfer>, base: nat): ConfigADC
  {
    ConfigADC(
      ReadBackKept8(p.adcControl, ts, base, 0xFC),
      ReadBackKept8(p.adcFunctionDisable0, ts, base + 1, 0xFE),
      ReadBackKept8(p.adcFunctionDisable1, ts, base + 2, 0xF0)
    )
  }

  /** What reading the register at position `k` of the adc group stores, as
      `get_adc_registers` does register by register. */
  ghost function ApplyAdc(p: ConfigADC, k: nat, t: Transfer): ConfigADC
  {
    if k == 0 then p.(adcControl := GotKept8(p.adcControl, t, 0xFC))
    else if k == 1 then p.(adcFunctionDisable0 := GotKept8(p.adcFunctionDisable0, t, 0xFE))
    else if k == 2 then p.(adcFunctionDisable1 := GotKept8(p.adcFunctionDisable1, t, 0xF0))
    else p
  }

  /** The bytes a bulk write of the adc group sends, register by register:
      one byte for an 8-bit register, the big-endian word for a 16-bit one. */
  function AdcPayload(p: ConfigADC): (ps: seq<seq<u8>>)
    ensures |ps| == |AdcSlots|
  {
    [[p.adcControl], [p.adcFunctionDisable0], [p.adcFunctionDisable1]]
  }

  /** `AdcPayload`, entry by entry. */
  lemma AdcPayloadAre(p: ConfigADC)
    ensures |AdcPayload(p)| == 3
    ensures AdcPayload(p)[0] == [p.adcControl]
    ensures AdcPayload(p)[1] == [p.adcFunctionDisable0]
    ensures AdcPayload(p)[2] == [p.adcFunctionDisable1]
  {
  }

  /** `ConfigParams`: the four register groups. */
  datatype ConfigParams = ConfigParams(limit: ConfigLimit, control: ConfigControl, mask: ConfigMask, adc: ConfigADC)

  /** The value-initialised `ConfigParams{}`: every raw value is 0. */
  const DefaultParams := ConfigParams(DefaultLimit, DefaultControl, DefaultMask, DefaultAdc)

  /** The bytes `set()` sends, register by register, in `ConfigSlots` order. */
  function ParamsPayload(p: ConfigParams): (ps: seq<seq<u8>>)
    ensures |ps| == |ConfigSlots|
  {
    LimitPayload(p.limit) + ControlPayload(p.control) + MaskPayload(p.mask) + AdcPayload(p.adc)
  }

  /** What reading the register at position `k` of `ConfigSlots` stores. */
  ghost function Apply(p: ConfigParams, k: nat, t: Transfer): ConfigParams
  {
    if k < 7 then p.(limit := ApplyLimit(p.limit, k, t))
    else if k < 22 then p.(control := ApplyControl(p.control, k - 7, t))
    else if k < 28 then p.(mask := ApplyMask(p.mask, k - 22, t))
    else p.(adc := ApplyAdc(p.adc, k - 28, t))
  }

  /** What a bulk read leaves in the parameters when its transfers `ts` are
      for the registers from position `base` of `ConfigSlots` on: each
      transfer, in order, applied to its own register. */
  ghost function ReadFrom(p: ConfigParams, ts: seq<Transfer>, base: nat): ConfigParams
    decreases |ts|
  {
    if |ts| == 0 then p
    else Apply(ReadFrom(p, ts[..|ts| - 1], base), base + |ts| - 1, ts[|ts| - 1])
  }

  /** Reading one more register. */
  lemma ReadFromStep(p: ConfigParams, ts: seq<Transfer>, t: Transfer, base: nat)
    ensures ReadFrom(p, ts + [t], base) == Apply(ReadFrom(p, ts, base), base + |ts|, t)
  {
    assert (ts + [t])[..|ts|] == ts;
  }

  /** Two bulk reads in a row are one bulk read over both lists of transfers. */
  lemma {:induction false} ReadFromConcat(p: ConfigParams, a: seq<Transfer>, b: seq<Transfer>, base: nat)
    ensures ReadFrom(ReadFrom(p, a, base), b, base + |a|) == ReadFrom(p, a + b, base)
    decreases |b|
  {
    if |b| > 0 {
      var init := b[..|b| - 1];
      ReadFromConcat(p, a, init, base);
      assert (a + b)[..|a + b| - 1] == a + init;
    } else {
      assert a + b == a;
    }
  }

  /** A read of the limit group touches only that group, and leaves each of its
      registers as its own transfer says: the byte or word read, through
      `set_raw`, if that transfer happened and succeeded, and the previous
      value otherwise. */
  lemma {:induction false} ReadLimitGroup(p: ConfigParams, ts: seq<Transfer>)
    requires |ts| <= 7
    ensures ReadFrom(p, ts, 0) == p.(limit := ReadLimit(p.limit, ts, 0))
    decreases |ts|
  {
    if |ts| > 0 {
      var init := ts[..|ts| - 1];
      ReadLimitGroup(p, init);
      assert forall i :: 0 <= i < |init| ==> init[i] == ts[i];
    }
  }

  /** A read of the control group touches only that group, and leaves each of its
      registers as its own transfer says: the byte or word read, through
      `set_raw`, if that transfer happened and succeeded, and the previous
      value otherwise. */
  lemma {:induction false} ReadControlGroup(p: ConfigParams, ts: seq<Transfer>)
    requires |ts| <= 15
    ensures ReadFrom(p, ts, 7) == p.(control := ReadControl(p.control, ts, 0))
    decreases |ts|
  {
    if |ts| > 0 {
      var init := ts[..|ts| - 1];
      ReadControlGroup(p, init);
      assert forall i :: 0 <= i < |init| ==> init[i] == ts[i];
    }
  }

  /** A read of the mask group touches only that group, and leaves each of its
      registers as its own transfer says: the byte or word read, through
      `set_raw`, if that transfer happened and succeeded, and the previous
      value otherwise. */
  lemma {:induction false} ReadMaskGroup(p: ConfigParams, ts: seq<Transfer>)
    requires |ts| <= 6
    ensures ReadFrom(p, ts, 22) == p.(mask := ReadMask(p.mask, ts, 0))
    decreases |ts|
  {
    if |ts| > 0 {
      var init := ts[..|ts| - 1];
      ReadMaskGroup(p, init);
      assert forall i :: 0 <= i < |init| ==> init[i] == ts[i];
    }
  }

  /** A read of the adc group touches only that group, and leaves each of its
      registers as its own transfer says: the byte or word read, through
      `set_raw`, if that transfer happened and succeeded, and the previous
      value otherwise. */
  lemma {:induction false} ReadAdcGroup(p: ConfigParams, ts: seq<Transfer>)
    requires |ts| <= 3
    ensures ReadFrom(p, ts, 28) == p.(adc := ReadAdc(p.adc, ts, 0))
    decreases |ts|
  {
    if |ts| > 0 {
      var init := ts[..|ts| - 1];
      ReadAdcGroup(p, init);
      assert forall i :: 0 <= i < |init| ==> init[i] == ts[i];
    }
  }

  /** `get_minimal_system_voltage`: read MinimalSystemVoltageRegister and store it through `set_raw`, only when the read succeeds. */
  method GetMinimalSystemVoltage(io: Interface, p: ConfigParams) returns (err: Err, io': Interface, p': ConfigParams, ghost t: Transfer)
    ensures io'.transfers == io.transfers + [t]
    ensures Matches(t, Slot(MinimalSystemVoltageRegister.Addr, 1), Rd) && t.err == err
    ensures p' == p.(limit := p.limit.(vsysmin := Got8(p.limit.vsysmin, t)))
  {
    var raw;
    err, raw, io' := ReadU8(io, MinimalSystemVoltageRegister.Addr);
    t := io'.transfers[|io.transfers|];
    p' := p;
    if err != ESP_OK {
      return;
    }
    p' := p.(limit := p.limit.(vsysmin := raw));
  }

  /** `set_minimal_system_voltage`: write the stored raw value of MinimalSystemVoltageRegister. */
  method SetMinimalSystemVoltage(io: Interface, p: ConfigParams) returns (err: Err, io': Interface, ghost t: Transfer)
    ensures io'.transfers == io.transfers + [t]
    ensures Matches(t, Slot(MinimalSystemVoltageRegister.Addr, 1), Wr) && t.err == err
    ensures t.data == [p.limit.vsysmin]
  {
    err, io' := WriteU8(io, MinimalSystemVoltageRegister.Addr, p.limit.vsysmin);
    t := io'.transfers[|io.transfers|];
  }

  /** `get_charge_voltage_limit_register`: read ChargeVoltageLimitRegister and store it through `set_raw`, only when the read succeeds. */
  method GetChargeVoltageLimitRegister(io: Interface, p: ConfigParams) returns (err: Err, io': Interface, p': ConfigParams, ghost t: Transfer)
    ensures io'.transfers == io.transfers + [t]
    ensures Matches(t, Slot(ChargeVoltageLimitRegister.Addr, 2), Rd) && t.err == err
    ensures p' == p.(limit := p.limit.(vreg := Got16(p.limit.vreg, t, 0x800)))
  {
    var raw;
    err, raw, io' := ReadU16(io, ChargeVoltageLimitRegister.Addr, 0);
    t := io'.transfers[|io.transfers|];
    p' := p;
    if err != ESP_OK {
      return;
    }
    p' := p.(limit := p.limit.(vreg := raw % 0x800));
  }

  /** `set_charge_voltage_limit_register`: write the stored raw value of ChargeVoltageLimitRegister. */
  method SetChargeVoltageLimitRegister(io: Interface, p: ConfigParams) returns (err: Err, io': Interface, ghost t: Transfer)
    ensures io'.transfers == io.transfers + [t]
    ensures Matches(t, Slot(ChargeVoltageLimitRegister.Addr, 2), Wr) && t.err == err
    ensures t.data == BeBytes(p.limit.vreg)
  {
    err, io' := WriteU16(io, ChargeVoltageLimitRegister.Addr, p.limit.vreg);
    t := io'.transfers[|io.transfers|];
  }

  /** `get_charge_current_limit_register`: read ChargeCurrentLimitRegister and store it through `set_raw`, only when the read succeeds. */
  method GetChargeCurrentLimitRegister(io: Interface, p: ConfigParams) returns (err: Err, io': Interface, p': ConfigParams, ghost t: Transfer)
    ensures io'.transfers == io.transfers + [t]
    ensures Matches(t, Slot(ChargeCurrentLimitRegister.Addr, 2), Rd) && t.err == err
    ensures p' == p.(limit := p.limit.(ichg := Got16(p.limit.ichg, t, 0x400)))
  {
    var raw;
    err, raw, io' := ReadU16(io, ChargeCurrentLimitRegister.Addr, 0);
    t := io'.transfers[|io.transfers|];
    p' := p;
    if err != ESP_OK {
      return;
    }
    p' := p.(limit := p.limit.(ichg := raw % 0x400));
  }

  /** `set_charge_current_limit_register`: write the stored raw value of ChargeCurrentLimitRegister. */
  method SetChargeCurrentLimitRegister(io: Interface, p: ConfigParams) returns (err: Err, io': Interface, ghost t: Transfer)
    ensures io'.transfers == io.transfers + [t]
    ensures Matches(t, Slot(ChargeCurrentLimitRegister.Addr, 2), Wr) && t.err == err
    ensures t.data == BeBytes(p.limit.ichg)
  {
    err, io' := WriteU16(io, ChargeCurrentLimitRegister.Addr, p.limit.ichg);
    t := io'.transfers[|io.transfers|];
  }

  /** `get_input_voltage_limit_register`: read InputVoltageLimitRegister and store it through `set_raw`, only when the read succeeds. */
  method GetInputVoltageLimitRegister(io: Interface, p: ConfigParams) returns (err: Err, io': Interface, p': ConfigParams, ghost t: Transfer)
    ensures io'.transfers == io.transfers + [t]
    ensures Matches(t, Slot(InputVoltageLimitRegister.Addr, 1), Rd) && t.err == err
    ensures p' == p.(limit := p.limit.(vindpm := Got8(p.limit.vindpm, t)))
  {
    var raw;
    err, raw, io' := ReadU8(io, InputVoltageLimitRegister.Addr);
    t := io'.transfers[|io.transfers|];
    p' := p;
    if err != ESP_OK {
      return;
    }
    p' := p.(limit := p.limit.(vindpm := raw));
  }

  /** `set_input_voltage_limit_register`: write the stored raw value of InputVoltageLimitRegister. */
  method SetInputVoltageLimitRegister(io: Interface, p: ConfigParams) returns (err: Err, io': Interface, ghost t: Transfer)
    ensures io'.transfers == io.transfers + [t]
    ensures Matches(t, Slot(InputVoltageLimitRegister.Addr, 1), Wr) && t.err == err
    ensures t.data == [p.limit.vindpm]
  {
    err, io' := WriteU8(io, InputVoltageLimitRegister.Addr, p.limit.vindpm);
    t := io'.transfers[|io.transfers|];
  }

  /** `get_input_current_limit_register`: read InputCurrentLimitRegister and store it through `set_raw`, only when the read succeeds. */
  method GetInputCurrentLimitRegister(io: Interface, p: ConfigParams) returns (err: Err, io': Interface, p': ConfigParams, ghost t: Transfer)
    ensures io'.transfers == io.transfers + [t]
    ensures Matches(t, Slot(InputCurrentLimitRegister.Addr, 2), Rd) && t.err == err
    ensures p' == p.(limit := p.limit.(iindpm := Got16(p.limit.iindpm, t, 0x1_0000)))
  {
    var raw;
    err, raw, io' := ReadU16(io, InputCurrentLimitRegister.Addr, 0);
    t := io'.transfers[|io.transfers|];
    p' := p;
    if err != ESP_OK {
      return;
    }
    p' := p.(limit := p.limit.(iindpm := raw % 0x1_0000));
  }

  /** `set_input_current_limit_register`: write the stored raw value of InputCurrentLimitRegister. */
  method SetInputCurrentLimitRegister(io: Interface, p: ConfigParams) returns (err: Err, io': Interface, ghost t: Transfer)
    ensures io'.transfers == io.transfers + [t]
    ensures Matches(t, Slot(InputCurrentLimitRegister.Addr, 2), Wr) && t.err == err
    ensures t.data == BeBytes(p.limit.iindpm)
  {
    err, io' := WriteU16(io, InputCurrentLimitRegister.Addr, p.limit.iindpm);
    t := io'.transfers[|io.transfers|];
  }

  /** `get_votg_regulation_register`: read VOTGRegulationRegister and store it through `set_raw`, only when the read succeeds. */
  method GetVotgRegulationRegister(io: Interface, p: ConfigParams) returns (err: Err, io': Interface, p': ConfigParams, ghost t: Transfer)
    ensures io'.transfers == io.transfers + [t]
    ensures Matches(t, Slot(VOTGRegulationRegister.Addr, 2), Rd) && t.err == err
    ensures p' == p.(limit := p.limit.(votg := Got16(p.limit.votg, t, 0x800)))
  {
    var raw;
    err, raw, io' := ReadU16(io, VOTGRegulationRegister.Addr, 0);
    t := io'.transfers[|io.transfers|];
    p' := p;
    if err != ESP_OK {
      return;
    }
    p' := p.(limit := p.limit.(votg := raw % 0x800));
  }

  /** `set_votg_regulation_register`: write the stored raw value of VOTGRegulationRegister. */
  method SetVotgRegulationRegister(io: Interface, p: ConfigParams) returns (err: Err, io': Interface, ghost t: Transfer)
    ensures io'.transfers == io.transfers + [t]
    ensures Matches(t, Slot(VOTGRegulationRegister.Addr, 2), Wr) && t.err == err
    ensures t.data == BeBytes(p.limit.votg)
  {
    err, io' := WriteU16(io, VOTGRegulationRegister.Addr, p.limit.votg);
    t := io'.transfers[|io.transfers|];
  }

  /** `get_iotg_regulation_register`: read IOTGRegulationRegister and store it through `set_raw`, only when the read succeeds. */
  method GetIotgRegulationRegister(io: Interface, p: ConfigParams) returns (err: Err, io': Interface, p': ConfigParams, ghost t: Transfer)
    ensures io'.transfers == io.transfers + [t]
    ensures Matches(t, Slot(IOTGRegulationRegister.Addr, 1), Rd) && t.err == err
    ensures p' == p.(limit := p.limit.(iotg := Got8(p.limit.iotg, t)))
  {
    var raw;
    err, raw, io' := ReadU8(io, IOTGRegulationRegister.Addr);
    t := io'.transfers[|io.transfers|];
    p' := p;
    if err != ESP_OK {
      return;
    }
    p' := p.(limit := p.limit.(iotg := raw));
  }

  /** `set_iotg_regulation_register`: write the stored raw value of IOTGRegulationRegister. */
  method SetIotgRegulationRegister(io: Interface, p: ConfigParams) returns (err: Err, io': Interface, ghost t: Transfer)
    ensures io'.transfers == io.transfers + [t]
    ensures Matches(t, Slot(IOTGRegulationRegister.Addr, 1), Wr) && t.err == err
    ensures t.data == [p.limit.iotg]
  {
    err, io' := WriteU8(io, IOTGRegulationRegister.Addr, p.limit.iotg);
    t := io'.transfers[|io.transfers|];
  }

  /** `get_precharge_control_register`: read PrechargeControlRegister and store it through `set_raw`, only when the read succeeds. */
  method GetPrechargeControlRegister(io: Interface, p: ConfigParams) returns (err: Err, io': Interface, p': ConfigParams, ghost t: Transfer)
    ensures io'.transfers == io.transfers + [t]
    ensures Matches(t, Slot(PrechargeControlRegister.Addr, 1), Rd) && t.err == err
    ensures p' == p.(control := p.control.(precharge := Got8(p.control.precharge, t)))
  {
    var raw;
    err, raw, io' := ReadU8(io, PrechargeControlRegister.Addr);
    t := io'.transfers[|io.transfers|];
    p' := p;
    if err != ESP_OK {
      return;
    }
    p' := p.(control := p.control.(precharge := raw));
  }

  /** `set_precharge_control_register`: write the stored raw value of PrechargeControlRegister. */
  method SetPrechargeControlRegister(io: Interface, p: ConfigParams) returns (err: Err, io': Interface, ghost t: Transfer)
    ensures io'.transfers == io.transfers + [t]
    ensures Matches(t, Slot(PrechargeControlRegister.Addr, 1), Wr) && t.err == err
    ensures t.data == [p.control.precharge]
  {
    err, io' := WriteU8(io, PrechargeControlRegister.Addr, p.control.precharge);
    t := io'.transfers[|io.transfers|];
  }

  /** `get_termination_control_register`: read TerminationControlRegister and store it through `set_raw`, only when the read succeeds. */
  method GetTerminationControlRegister(io: Interface, p: ConfigParams) returns (err: Err, io': Interface, p': ConfigParams, ghost t: Transfer)
    ensures io'.transfers == io.transfers + [t]
    ensures Matches(t, Slot(TerminationControlRegister.Addr, 1), Rd) && t.err == err
    ensures p' == p.(control := p.control.(termination := Got8(p.control.termination, t)))
  {
    var raw;
    err, raw, io' := ReadU8(io, TerminationControlRegister.Addr);
    t := io'.transfers[|io.transfers|];
    p' := p;
    if err != ESP_OK {
      return;
    }
    p' := p.(control := p.control.(termination := raw));
  }

  /** `set_termination_control_register`: write the stored raw value of TerminationControlRegister. */
  method SetTerminationControlRegister(io: Interface, p: ConfigParams) returns (err: Err, io': Interface, ghost t: Transfer)
    ensures io'.transfers == io.transfers + [t]
    ensures Matches(t, Slot(TerminationControlRegister.Addr, 1), Wr) && t.err == err
    ensures t.data == [p.control.termination]
  {
    err, io' := WriteU8(io, TerminationControlRegister.Addr, p.control.termination);
    t := io'.transfers[|io.transfers|];
  }

  /** `get_recharge_control_register`: read RechargeControlRegister and store it through `set_raw`, only when the read succeeds. */
  method GetRechargeControlRegister(io: Interface, p: ConfigParams) returns (err: Err, io': Interface, p': ConfigParams, ghost t: Transfer)
    ensures io'.transfers == io.transfers + [t]
    ensures Matches(t, Slot(RechargeControlRegister.Addr, 1), Rd) && t.err == err
    ensures p' == p.(control := p.control.(recharge := Got8(p.control.recharge, t)))
  {
    var raw;
    err, raw, io' := ReadU8(io, RechargeControlRegister.Addr);
    t := io'.transfers[|io.transfers|];
    p' := p;
    if err != ESP_OK {
      return;
    }
    p' := p.(control := p.control.(recharge := raw));
  }

  /** `set_recharge_control_register`: write the stored raw value of RechargeControlRegister. */
  method SetRechargeControlRegister(io: Interface, p: ConfigParams) returns (err: Err, io': Interface, ghost t: Transfer)
    ensures io'.transfers == io.transfers + [t]
    ensures Matches(t, Slot(RechargeControlRegister.Addr, 1), Wr) && t.err == err
    ensures t.data == [p.control.recharge]
  {
    err, io' := WriteU8(io, RechargeControlRegister.Addr, p.control.recharge);
    t := io'.transfers[|io.transfers|];
  }

  /** `get_timer_control_register`: read TimerControlRegister and store it through `set_raw`, only when the read succeeds. */
  method GetTimerControlRegister(io: Interface, p: ConfigParams) returns (err: Err, io': Interface, p': ConfigParams, ghost t: Transfer)
    ensures io'.transfers == io.transfers + [t]
    ensures Matches(t, Slot(TimerControlRegister.Addr, 1), Rd) && t.err == err
    ensures p' == p.(control := p.control.(timer := Got8(p.control.timer, t)))
  {
    var raw;
    err, raw, io' := ReadU8(io, TimerControlRegister.Addr);
    t := io'.transfers[|io.transfers|];
    p' := p;
    if err != ESP_OK {
      return;
    }
    p' := p.(control := p.control.(timer := raw));
  }

  /** `set_timer_control_register`: write the stored raw value of TimerControlRegister. */
  method SetTimerControlRegister(io: Interface, p: ConfigParams) returns (err: Err, io': Interface, ghost t: Transfer)
    ensures io'.transfers == io.transfers + [t]
    ensures Matches(t, Slot(TimerControlRegister.Addr, 1), Wr) && t.err == err
    ensures t.data == [p.control.timer]
  {
    err, io' := WriteU8(io, TimerControlRegister.Addr, p.control.timer);
    t := io'.transfers[|io.transfers|];
  }

  /** `get_charger_control_0_register`: read ChargerControl0Register and store it through `set_raw`, only when the read succeeds. */
  method GetChargerControl0Register(io: Interface, p: ConfigParams) returns (err: Err, io': Interface, p': ConfigParams, ghost t: Transfer)
    ensures io'.transfers == io.transfers + [t]
    ensures Matches(t, Slot(ChargerControl0Register.Addr, 1), Rd) && t.err == err
    ensures p' == p.(control := p.control.(chargerControl0 := Got8(p.control.chargerControl0, t)))
  {
    var raw;
    err, raw, io' := ReadU8(io, ChargerControl0Register.Addr);
    t := io'.transfers[|io.transfers|];
    p' := p;
    if err != ESP_OK {
      return;
    }
    p' := p.(control := p.control.(chargerControl0 := raw));
  }

  /** `set_charger_control_0_register`: write the stored raw value of ChargerControl0Register. */
  method SetChargerControl0Register(io: Interface, p: ConfigParams) returns (err: Err, io': Interface, ghost t: Transfer)
    ensures io'.transfers == io.transfers + [t]
    ensures Matches(t, Slot(ChargerControl0Register.Addr, 1), Wr) && t.err == err
    ensures t.data == [p.control.chargerControl0]
  {
    err, io' := WriteU8(io, ChargerControl0Register.Addr, p.control.chargerControl0);
    t := io'.transfers[|io.transfers|];
  }

  /** `get_charger_control_1_register`: read ChargerControl1Register and store it through `set_raw`, only when the read succeeds. */
  method GetChargerControl1Register(io: Interface, p: ConfigParams) returns (err: Err, io': Interface, p': ConfigParams, ghost t: Transfer)
    ensures io'.transfers == io.transfers + [t]
    ensures Matches(t, Slot(ChargerControl1Register.Addr, 1), Rd) && t.err == err
    ensures p' == p.(control := p.control.(chargerControl1 := Got8(p.control.chargerControl1, t)))
  {
    var raw;
    err, raw, io' := ReadU8(io, ChargerControl1Register.Addr);
    t := io'.transfers[|io.transfers|];
    p' := p;
    if err != ESP_OK {
      return;
    }
    p' := p.(control := p.control.(chargerControl1 := raw));
  }

  /** `set_charger_control_1_register`: write the stored raw value of ChargerControl1Register. */
  method SetChargerControl1Register(io: Interface, p: ConfigParams) returns (err: Err, io': Interface, ghost t: Transfer)
    ensures io'.transfers == io.transfers + [t]
    ensures Matches(t, Slot(ChargerControl1Register.Addr, 1), Wr) && t.err == err
    ensures t.data == [p.control.chargerControl1]
  {
    err, io' := WriteU8(io, ChargerControl1Register.Addr, p.control.chargerControl1);
    t := io'.transfers[|io.transfers|];
  }

  /** `get_charger_control_2_register`: read ChargerControl2Register and store it through `set_raw`, only when the read succeeds. */
  method GetChargerControl2Register(io: Interface, p: ConfigParams) returns (err: Err, io': Interface, p': ConfigParams, ghost t: Transfer)
    ensures io'.transfers == io.transfers + [t]
    ensures Matches(t, Slot(ChargerControl2Register.Addr, 1), Rd) && t.err == err
    ensures p' == p.(control := p.control.(chargerControl2 := Got8(p.control.chargerControl2, t)))
  {
    var raw;
    err, raw, io' := ReadU8(io, ChargerControl2Register.Addr);
    t := io'.transfers[|io.transfers|];
    p' := p;
    if err != ESP_OK {
      return;
    }
    p' := p.(control := p.control.(chargerControl2 := raw));
  }

  /** `set_charger_control_2_register`: write the stored raw value of ChargerControl2Register. */
  method SetChargerControl2Register(io: Interface, p: ConfigParams) returns (err: Err, io': Interface, ghost t: Transfer)
    ensures io'.transfers == io.transfers + [t]
    ensures Matches(t, Slot(ChargerControl2Register.Addr, 1), Wr) && t.err == err
    ensures t.data == [p.control.chargerControl2]
  {
    err, io' := WriteU8(io, ChargerControl2Register.Addr, p.control.chargerControl2);
    t := io'.transfers[|io.transfers|];
  }

  /** `get_charger_control_3_register`: read ChargerControl3Register and store it through `set_raw`, only when the read succeeds. */
  method GetChargerControl3Register(io: Interface, p: ConfigParams) returns (err: Err, io': Interface, p': ConfigParams, ghost t: Transfer)
    ensures io'.transfers == io.transfers + [t]
    ensures Matches(t, Slot(ChargerControl3Register.Addr, 1), Rd) && t.err == err
    ensures p' == p.(control := p.control.(chargerControl3 := Got8(p.control.chargerControl3, t)))
  {
    var raw;
    err, raw, io' := ReadU8(io, ChargerControl3Register.Addr);
    t := io'.transfers[|io.transfers|];
    p' := p;
    if err != ESP_OK {
      return;
    }
    p' := p.(control := p.control.(chargerControl3 := raw));
  }

  /** `set_charger_control_3_register`: write the stored raw value of ChargerControl3Register. */
  method SetChargerControl3Register(io: Interface, p: ConfigParams) returns (err: Err, io': Interface, ghost t: Transfer)
    ensures io'.transfers == io.transfers + [t]
    ensures Matches(t, Slot(ChargerControl3Register.Addr, 1), Wr) && t.err == err
    ensures t.data == [p.control.chargerControl3]
  {
    err, io' := WriteU8(io, ChargerControl3Register.Addr, p.control.chargerControl3);
    t := io'.transfers[|io.transfers|];
  }

  /** `get_charger_control_4_register`: read ChargerControl4Register and store it through `set_raw`, only when the read succeeds. */
  method GetChargerControl4Register(io: Interface, p: ConfigParams) returns (err: Err, io': Interface, p': ConfigParams, ghost t: Transfer)
    ensures io'.transfers == io.transfers + [t]
    ensures Matches(t, Slot(ChargerControl4Register.Addr, 1), Rd) && t.err == err
    ensures p' == p.(control := p.control.(chargerControl4 := Got8(p.control.chargerControl4, t)))
  {
    var raw;
    err, raw, io' := ReadU8(io, ChargerControl4Register.Addr);
    t := io'.transfers[|io.transfers|];
    p' := p;
    if err != ESP_OK {
      return;
    }
    p' := p.(control := p.control.(chargerControl4 := raw));
  }

  /** `set_charger_control_4_register`: write the stored raw value of ChargerControl4Register. */
  method SetChargerControl4Register(io: Interface, p: ConfigParams) returns (err: Err, io': Interface, ghost t: Transfer)
    ensures io'.transfers == io.transfers + [t]
    ensures Matches(t, Slot(ChargerControl4Register.Addr, 1), Wr) && t.err == err
    ensures t.data == [p.control.chargerControl4]
  {
    err, io' := WriteU8(io, ChargerControl4Register.Addr, p.control.chargerControl4);
    t := io'.transfers[|io.transfers|];
  }

  /** `get_charger_control_5_register`: read ChargerControl5Register and store it through `set_raw`, only when the read succeeds. */
  method GetChargerControl5Register(io: Interface, p: ConfigParams) returns (err: Err, io': Interface, p': ConfigParams, ghost t: Transfer)
    ensures io'.transfers == io.transfers + [t]
    ensures Matches(t, Slot(ChargerControl5Register.Addr, 1), Rd) && t.err == err
    ensures p' == p.(control := p.control.(chargerControl5 := Got8(p.control.chargerControl5, t)))
  {
    var raw;
    err, raw, io' := ReadU8(io, ChargerControl5Register.Addr);
    t := io'.transfers[|io.transfers|];
    p' := p;
    if err != ESP_OK {
      return;
    }
    p' := p.(control := p.control.(chargerControl5 := raw));
  }

  /** `set_charger_control_5_register`: write the stored raw value of ChargerControl5Register. */
  method SetChargerControl5Register(io: Interface, p: ConfigParams) returns (err: Err, io': Interface, ghost t: Transfer)
    ensures io'.transfers == io.transfers + [t]
    ensures Matches(t, Slot(ChargerControl5Register.Addr, 1), Wr) && t.err == err
    ensures t.data == [p.control.chargerControl5]
  {
    err, io' := WriteU8(io, ChargerControl5Register.Addr, p.control.chargerControl5);
    t := io'.transfers[|io.transfers|];
  }

  /** `get_mppt_control_register`: read MPPTControlRegister and store it through `set_raw`, only when the read succeeds. */
  method GetMpptControlRegister(io: Interface, p: ConfigParams) returns (err: Err, io': Interface, p': ConfigParams, ghost t: Transfer)
    ensures io'.transfers == io.transfers + [t]
    ensures Matches(t, Slot(MPPTControlRegister.Addr, 1), Rd) && t.err == err
    ensures p' == p.(control := p.control.(mppt := Got8(p.control.mppt, t)))
  {
    var raw;
    err, raw, io' := ReadU8(io, MPPTControlRegister.Addr);
    t := io'.transfers[|io.transfers|];
    p' := p;
    if err != ESP_OK {
      return;
    }
    p' := p.(control := p.control.(mppt := raw));
  }

  /** `set_mppt_control_register`: write the stored raw value of MPPTControlRegister. */
  method SetMpptControlRegister(io: Interface, p: ConfigParams) returns (err: Err, io': Interface, ghost t: Transfer)
    ensures io'.transfers == io.transfers + [t]
    ensures Matches(t, Slot(MPPTControlRegister.Addr, 1), Wr) && t.err == err
    ensures t.data == [p.control.mppt]
  {
    err, io' := WriteU8(io, MPPTControlRegister.Addr, p.control.mppt);
    t := io'.transfers[|io.transfers|];
  }

  /** `get_temperature_control_register`: read TemperatureControlRegister and store it through `set_raw`, only when the read succeeds. */
  method GetTemperatureControlRegister(io: Interface, p: ConfigParams) returns (err: Err, io': Interface, p': ConfigParams, ghost t: Transfer)
    ensures io'.transfers == io.transfers + [t]
    ensures Matches(t, Slot(TemperatureControlRegister.Addr, 1), Rd) && t.err == err
    ensures p' == p.(control := p.control.(temperature := Got8(p.control.temperature, t)))
  {
    var raw;
    err, raw, io' := ReadU8(io, TemperatureControlRegister.Addr);
    t := io'.transfers[|io.transfers|];
    p' := p;
    if err != ESP_OK {
      return;
    }
    p' := p.(control := p.control.(temperature := raw));
  }

  /** `set_temperature_control_register`: write the stored raw value of TemperatureControlRegister. */
  method SetTemperatureControlRegister(io: Interface, p: ConfigParams) returns (err: Err, io': Interface, ghost t: Transfer)
    ensures io'.transfers == io.transfers + [t]
    ensures Matches(t, Slot(TemperatureControlRegister.Addr, 1), Wr) && t.err == err
    ensures t.data == [p.control.temperature]
  {
    err, io' := WriteU8(io, TemperatureControlRegister.Addr, p.control.temperature);
    t := io'.transfers[|io.transfers|];
  }

  /** `get_ntc_control_0_register`: read NTCControl0Register and store it through `set_raw`, only when the read succeeds. */
  method GetNtcControl0Register(io: Interface, p: ConfigParams) returns (err: Err, io': Interface, p': ConfigParams, ghost t: Transfer)
    ensures io'.transfers == io.transfers + [t]
    ensures Matches(t, Slot(NTCControl0Register.Addr, 1), Rd) && t.err == err
    ensures p' == p.(control := p.control.(ntcControl0 := GotKept8(p.control.ntcControl0, t, 0xFE)))
  {
    var raw;
    err, raw, io' := ReadU8(io, NTCControl0Register.Addr);
    t := io'.transfers[|io.transfers|];
    p' := p;
    if err != ESP_OK {
      return;
    }
    p' := p.(control := p.control.(ntcControl0 := Kept(raw, 0xFE)));
  }

  /** `set_ntc_control_0_register`: write the stored raw value of NTCControl0Register. */
  method SetNtcControl0Register(io: Interface, p: ConfigParams) returns (err: Err, io': Interface, ghost t: Transfer)
    ensures io'.transfers == io.transfers + [t]
    ensures Matches(t, Slot(NTCControl0Register.Addr, 1), Wr) && t.err == err
    ensures t.data == [p.control.ntcControl0]
  {
    err, io' := WriteU8(io, NTCControl0Register.Addr, p.control.ntcControl0);
    t := io'.transfers[|io.transfers|];
  }

  /** `get_ntc_control_1_register`: read NTCControl1Register and store it through `set_raw`, only when the read succeeds. */
  method GetNtcControl1Register(io: Interface, p: ConfigParams) returns (err: Err, io': Interface, p': ConfigParams, ghost t: Transfer)
    ensures io'.transfers == io.transfers + [t]
    ensures Matches(t, Slot(NTCControl1Register.Addr, 1), Rd) && t.err == err
    ensures p' == p.(control := p.control.(ntcControl1 := Got8(p.control.ntcControl1, t)))
  {
    var raw;
    err, raw, io' := ReadU8(io, NTCControl1Register.Addr);
    t := io'.transfers[|io.transfers|];
    p' := p;
    if err != ESP_OK {
      return;
    }
    p' := p.(control := p.control.(ntcControl1 := raw));
  }

  /** `set_ntc_control_1_register`: write the stored raw value of NTCControl1Register. */
  method SetNtcControl1Register(io: Interface, p: ConfigParams) returns (err: Err, io': Interface, ghost t: Transfer)
    ensures io'.transfers == io.transfers + [t]
    ensures Matches(t, Slot(NTCControl1Register.Addr, 1), Wr) && t.err == err
    ensures t.data == [p.control.ntcControl1]
  {
    err, io' := WriteU8(io, NTCControl1Register.Addr, p.control.ntcControl1);
    t := io'.transfers[|io.transfers|];
  }

  /** `get_dpdm_driver_register`: read DPDMDriverRegister and store it through `set_raw`, only when the read succeeds. */
  method GetDpdmDriverRegister(io: Interface, p: ConfigParams) returns (err: Err, io': Interface, p': ConfigParams, ghost t: Transfer)
    ensures io'.transfers == io.transfers + [t]
    ensures Matches(t, Slot(DPDMDriverRegister.Addr, 1), Rd) && t.err == err
    ensures p' == p.(control := p.control.(dpdm := GotKept8(p.control.dpdm, t, 0xFC)))
  {
    var raw;
    err, raw, io' := ReadU8(io, DPDMDriverRegister.Addr);
    t := io'.transfers[|io.transfers|];
    p' := p;
    if err != ESP_OK {
      return;
    }
    p' := p.(control := p.control.(dpdm := Kept(raw, 0xFC)));
  }

  /** `set_dpdm_driver_register`: write the stored raw value of DPDMDriverRegister. */
  method SetDpdmDriverRegister(io: Interface, p: ConfigParams) returns (err: Err, io': Interface, ghost t: Transfer)
    ensures io'.transfers == io.transfers + [t]
    ensures Matches(t, Slot(DPDMDriverRegister.Addr, 1), Wr) && t.err == err
    ensures t.data == [p.control.dpdm]
  {
    err, io' := WriteU8(io, DPDMDriverRegister.Addr, p.control.dpdm);
    t := io'.transfers[|io.transfers|];
  }

  /** `get_charger_mask_0_register`: read ChargerMask0Register and store it through `set_raw`, only when the read succeeds. */
  method GetChargerMask0Register(io: Interface, p: ConfigParams) returns (err: Err, io': Interface, p': ConfigParams, ghost t: Transfer)
    ensures io'.transfers == io.transfers + [t]
    ensures Matches(t, Slot(ChargerMask0Register.Addr, 1), Rd) && t.err == err
    ensures p' == p.(mask := p.mask.(chargerMask0 := Got8(p.mask.chargerMask0, t)))
  {
    var raw;
    err, raw, io' := ReadU8(io, ChargerMask0Register.Addr);
    t := io'.transfers[|io.transfers|];
    p' := p;
    if err != ESP_OK {
      return;
    }
    p' := p.(mask := p.mask.(chargerMask0 := raw));
  }

  /** `set_charger_mask_0_register`: write the stored raw value of ChargerMask0Register. */
  method SetChargerMask0Register(io: Interface, p: ConfigParams) returns (err: Err, io': Interface, ghost t: Transfer)
    ensures io'.transfers == io.transfers + [t]
    ensures Matches(t, Slot(ChargerMask0Register.Addr, 1), Wr) && t.err == err
    ensures t.data == [p.mask.chargerMask0]
  {
    err, io' := WriteU8(io, ChargerMask0Register.Addr, p.mask.chargerMask0);
    t := io'.transfers[|io.transfers|];
  }

  /** `get_charger_mask_1_register`: read ChargerMask1Register and store it through `set_raw`, only when the read succeeds. */
  method GetChargerMask1Register(io: Interface, p: ConfigParams) returns (err: Err, io': Interface, p': ConfigParams, ghost t: Transfer)
    ensures io'.transfers == io.transfers + [t]
    ensures Matches(t, Slot(ChargerMask1Register.Addr, 1), Rd) && t.err == err
    ensures p' == p.(mask := p.mask.(chargerMask1 := GotKept8(p.mask.chargerMask1, t, 0xF7)))
  {
    var raw;
    err, raw, io' := ReadU8(io, ChargerMask1Register.Addr);
    t := io'.transfers[|io.transfers|];
    p' := p;
    if err != ESP_OK {
      return;
    }
    p' := p.(mask := p.mask.(chargerMask1 := Kept(raw, 0xF7)));
  }

  /** `set_charger_mask_1_register`: write the stored raw value of ChargerMask1Register. */
  method SetChargerMask1Register(io: Interface, p: ConfigParams) returns (err: Err, io': Interface, ghost t: Transfer)
    ensures io'.transfers == io.transfers + [t]
    ensures Matches(t, Slot(ChargerMask1Register.Addr, 1), Wr) && t.err == err
    ensures t.data == [p.mask.chargerMask1]
  {
    err, io' := WriteU8(io, ChargerMask1Register.Addr, p.mask.chargerMask1);
    t := io'.transfers[|io.transfers|];
  }

  /** `get_charger_mask_2_register`: read ChargerMask2Register and store it through `set_raw`, only when the read succeeds. */
  method GetChargerMask2Register(io: Interface, p: ConfigParams) returns (err: Err, io': Interface, p': ConfigParams, ghost t: Transfer)
    ensures io'.transfers == io.transfers + [t]
    ensures Matches(t, Slot(ChargerMask2Register.Addr, 1), Rd) && t.err == err
    ensures p' == p.(mask := p.mask.(chargerMask2 := GotKept8(p.mask.chargerMask2, t, 0x7F)))
  {
    var raw;
    err, raw, io' := ReadU8(io, ChargerMask2Register.Addr);
    t := io'.transfers[|io.transfers|];
    p' := p;
    if err != ESP_OK {
      return;
    }
    p' := p.(mask := p.mask.(chargerMask2 := Kept(raw, 0x7F)));
  }

  /** `set_charger_mask_2_register`: write the stored raw value of ChargerMask2Register. */
  method SetChargerMask2Register(io: Interface, p: ConfigParams) returns (err: Err, io': Interface, ghost t: Transfer)
    ensures io'.transfers == io.transfers + [t]
    ensures Matches(t, Slot(ChargerMask2Register.Addr, 1), Wr) && t.err == err
    ensures t.data == [p.mask.chargerMask2]
  {
    err, io' := WriteU8(io, ChargerMask2Register.Addr, p.mask.chargerMask2);
    t := io'.transfers[|io.transfers|];
  }

  /** `get_charger_mask_3_register`: read ChargerMask3Register and store it through `set_raw`, only when the read succeeds. */
  method GetChargerMask3Register(io: Interface, p: ConfigParams) returns (err: Err, io': Interface, p': ConfigParams, ghost t: Transfer)
    ensures io'.transfers == io.transfers + [t]
    ensures Matches(t, Slot(ChargerMask3Register.Addr, 1), Rd) && t.err == err
    ensures p' == p.(mask := p.mask.(chargerMask3 := GotKept8(p.mask.chargerMask3, t, 0x1F)))
  {
    var raw;
    err, raw, io' := ReadU8(io, ChargerMask3Register.Addr);
    t := io'.transfers[|io.transfers|];
    p' := p;
    if err != ESP_OK {
      return;
    }
    p' := p.(mask := p.mask.(chargerMask3 := Kept(raw, 0x1F)));
  }

  /** `set_charger_mask_3_register`: write the stored raw value of ChargerMask3Register. */
  method SetChargerMask3Register(io: Interface, p: ConfigParams) returns (err: Err, io': Interface, ghost t: Transfer)
    ensures io'.transfers == io.transfers + [t]
    ensures Matches(t, Slot(ChargerMask3Register.Addr, 1), Wr) && t.err == err
    ensures t.data == [p.mask.chargerMask3]
  {
    err, io' := WriteU8(io, ChargerMask3Register.Addr, p.mask.chargerMask3);
    t := io'.transfers[|io.transfers|];
  }

  /** `get_fault_mask_0_register`: read FaultMask0Register and store it through `set_raw`, only when the read succeeds. */
  method GetFaultMask0Register(io: Interface, p: ConfigParams) returns (err: Err, io': Interface, p': ConfigParams, ghost t: Transfer)
    ensures io'.transfers == io.transfers + [t]
    ensures Matches(t, Slot(FaultMask0Register.Addr, 1), Rd) && t.err == err
    ensures p' == p.(mask := p.mask.(faultMask0 := Got8(p.mask.faultMask0, t)))
  {
    var raw;
    err, raw, io' := ReadU8(io, FaultMask0Register.Addr);
    t := io'.transfers[|io.transfers|];
    p' := p;
    if err != ESP_OK {
      return;
    }
    p' := p.(mask := p.mask.(faultMask0 := raw));
  }

  /** `set_fault_mask_0_register`: write the stored raw value of FaultMask0Register. */
  method SetFaultMask0Register(io: Interface, p: ConfigParams) returns (err: Err, io': Interface, ghost t: Transfer)
    ensures io'.transfers == io.transfers + [t]
    ensures Matches(t, Slot(FaultMask0Register.Addr, 1), Wr) && t.err == err
    ensures t.data == [p.mask.faultMask0]
  {
    err, io' := WriteU8(io, FaultMask0Register.Addr, p.mask.faultMask0);
    t := io'.transfers[|io.transfers|];
  }

  /** `get_fault_mask_1_register`: read FaultMask1Register and store it through `set_raw`, only when the read succeeds. */
  method GetFaultMask1Register(io: Interface, p: ConfigParams) returns (err: Err, io': Interface, p': ConfigParams, ghost t: Transfer)
    ensures io'.transfers == io.transfers + [t]
    ensures Matches(t, Slot(FaultMask1Register.Addr, 1), Rd) && t.err == err
    ensures p' == p.(mask := p.mask.(faultMask1 := GotKept8(p.mask.faultMask1, t, 0xF4)))
  {
    var raw;
    err, raw, io' := ReadU8(io, FaultMask1Register.Addr);
    t := io'.transfers[|io.transfers|];
    p' := p;
    if err != ESP_OK {
      return;
    }
    p' := p.(mask := p.mask.(faultMask1 := Kept(raw, 0xF4)));
  }

  /** `set_fault_mask_1_register`: write the stored raw value of FaultMask1Register. */
  method SetFaultMask1Register(io: Interface, p: ConfigParams) returns (err: Err, io': Interface, ghost t: Transfer)
    ensures io'.transfers == io.transfers + [t]
    ensures Matches(t, Slot(FaultMask1Register.Addr, 1), Wr) && t.err == err
    ensures t.data == [p.mask.faultMask1]
  {
    err, io' := WriteU8(io, FaultMask1Register.Addr, p.mask.faultMask1);
    t := io'.transfers[|io.transfers|];
  }

  /** `get_adc_control_register`: read ADCControlRegister and store it through `set_raw`, only when the read succeeds. */
  method GetAdcControlRegister(io: Interface, p: ConfigParams) returns (err: Err, io': Interface, p': ConfigParams, ghost t: Transfer)
    ensures io'.transfers == io.transfers + [t]
    ensures Matches(t, Slot(ADCControlRegister.Addr, 1), Rd) && t.err == err
    ensures p' == p.(adc := p.adc.(adcControl := GotKept8(p.adc.adcControl, t, 0xFC)))
  {
    var raw;
    err, raw, io' := ReadU8(io, ADCControlRegister.Addr);
    t := io'.transfers[|io.transfers|];
    p' := p;
    if err != ESP_OK {
      return;
    }
    p' := p.(adc := p.adc.(adcControl := Kept(raw, 0xFC)));
  }

  /** `set_adc_control_register`: write the stored raw value of ADCControlRegister. */
  method SetAdcControlRegister(io: Interface, p: ConfigParams) returns (err: Err, io': Interface, ghost t: Transfer)
    ensures io'.transfers == io.transfers + [t]
    ensures Matches(t, Slot(ADCControlRegister.Addr, 1), Wr) && t.err == err
    ensures t.data == [p.adc.adcControl]
  {
    err, io' := WriteU8(io, ADCControlRegister.Addr, p.adc.adcControl);
    t := io'.transfers[|io.transfers|];
  }

  /** `get_adc_function_disable_0_register`: read ADCFunctionDisable0Register and store it through `set_raw`, only when the read succeeds. */
  method GetAdcFunctionDisable0Register(io: Interface, p: ConfigParams) returns (err: Err, io': Interface, p': ConfigParams, ghost t: Transfer)
    ensures io'.transfers == io.transfers + [t]
    ensures Matches(t, Slot(ADCFunctionDisable0Register.Addr, 1), Rd) && t.err == err
    ensures p' == p.(adc := p.adc.(adcFunctionDisable0 := GotKept8(p.adc.adcFunctionDisable0, t, 0xFE)))
  {
    var raw;
    err, raw, io' := ReadU8(io, ADCFunctionDisable0Register.Addr);
    t := io'.transfers[|io.transfers|];
    p' := p;
    if err != ESP_OK {
      return;
    }
    p' := p.(adc := p.adc.(adcFunctionDisable0 := Kept(raw, 0xFE)));
  }

  /** `set_adc_function_disable_0_register`: write the stored raw value of ADCFunctionDisable0Register. */
  method SetAdcFunctionDisable0Register(io: Interface, p: ConfigParams) returns (err: Err, io': Interface, ghost t: Transfer)
    ensures io'.transfers == io.transfers + [t]
    ensures Matches(t, Slot(ADCFunctionDisable0Register.Addr, 1), Wr) && t.err == err
    ensures t.data == [p.adc.adcFunctionDisable0]
  {
    err, io' := WriteU8(io, ADCFunctionDisable0Register.Addr, p.adc.adcFunctionDisable0);
    t := io'.transfers[|io.transfers|];
  }

  /** `get_adc_function_disable_1_register`: read ADCFunctionDisable1Register and store it through `set_raw`, only when the read succeeds. */
  method GetAdcFunctionDisable1Register(io: Interface, p: ConfigParams) returns (err: Err, io': Interface, p': ConfigParams, ghost t: Transfer)
    ensures io'.transfers == io.transfers + [t]
    ensures Matches(t, Slot(ADCFunctionDisable1Register.Addr, 1), Rd) && t.err == err
    ensures p' == p.(adc := p.adc.(adcFunctionDisable1 := GotKept8(p.adc.adcFunctionDisable1, t, 0xF0)))
  {
    var raw;
    err, raw, io' := ReadU8(io, ADCFunctionDisable1Register.Addr);
    t := io'.transfers[|io.transfers|];
    p' := p;
    if err != ESP_OK {
      return;
    }
    p' := p.(adc := p.adc.(adcFunctionDisable1 := Kept(raw, 0xF0)));
  }

  /** `set_adc_function_disable_1_register`: write the stored raw value of ADCFunctionDisable1Register. */
  method SetAdcFunctionDisable1Register(io: Interface, p: ConfigParams) returns (err: Err, io': Interface, ghost t: Transfer)
    ensures io'.transfers == io.transfers + [t]
    ensures Matches(t, Slot(ADCFunctionDisable1Register.Addr, 1), Wr) && t.err == err
    ensures t.data == [p.adc.adcFunctionDisable1]
  {
    err, io' := WriteU8(io, ADCFunctionDisable1Register.Addr, p.adc.adcFunctionDisable1);
    t := io'.transfers[|io.transfers|];
  }

  /** `get_limit_registers`: the registers in order, stopping at the first error. */
  method GetLimitRegisters(io: Interface, p: ConfigParams) returns (err: Err, io': Interface, p': ConfigParams, ghost ts: seq<Transfer>)
    ensures io'.transfers == io.transfers + ts
    ensures Ran(ts, LimitSlots, Rd, err)
    ensures p' == ReadFrom(p, ts, 0)
  {
    LimitSlotsAre();
    ghost var t;
    ts := [];
    io' := io;
    p' := p;
    err, io', p', t := GetMinimalSystemVoltage(io', p');
    Advance(io.transfers, ts, t, LimitSlots, Rd);
    ReadFromStep(p, ts, t, 0);
    ts := ts + [t];
    if err != ESP_OK {
      return;
    }
    err, io', p', t := GetChargeVoltageLimitRegister(io', p');
    Advance(io.transfers, ts, t, LimitSlots, Rd);
    ReadFromStep(p, ts, t, 0);
    ts := ts + [t];
    if err != ESP_OK {
      return;
    }
    err, io', p', t := GetChargeCurrentLimitRegister(io', p');
    Advance(io.transfers, ts, t, LimitSlots, Rd);
    ReadFromStep(p, ts, t, 0);
    ts := ts + [t];
    if err != ESP_OK {
      return;
    }
    err, io', p', t := GetInputVoltageLimitRegister(io', p');
    Advance(io.transfers, ts, t, LimitSlots, Rd);
    ReadFromStep(p, ts, t, 0);
    ts := ts + [t];
    if err != ESP_OK {
      return;
    }
    err, io', p', t := GetInputCurrentLimitRegister(io', p');
    Advance(io.transfers, ts, t, LimitSlots, Rd);
    ReadFromStep(p, ts, t, 0);
    ts := ts + [t];
    if err != ESP_OK {
      return;
    }
    err, io', p', t := GetVotgRegulationRegister(io', p');
    Advance(io.transfers, ts, t, LimitSlots, Rd);
    ReadFromStep(p, ts, t, 0);
    ts := ts + [t];
    if err != ESP_OK {
      return;
    }
    err, io', p', t := GetIotgRegulationRegister(io', p');
    Advance(io.transfers, ts, t, LimitSlots, Rd);
    ReadFromStep(p, ts, t, 0);
    ts := ts + [t];
  }

  /** `set_limit_registers`: the registers in order, stopping at the first error. */
  method SetLimitRegisters(io: Interface, p: ConfigParams) returns (err: Err, io': Interface, ghost ts: seq<Transfer>)
    ensures io'.transfers == io.transfers + ts
    ensures Ran(ts, LimitSlots, Wr, err)
    ensures Carried(ts, LimitPayload(p.limit))
  {
    LimitSlotsAre();
    LimitPayloadAre(p.limit);
    ghost var t;
    ts := [];
    io' := io;
    err, io', t := SetMinimalSystemVoltage(io', p);
    Advance(io.transfers, ts, t, LimitSlots, Wr);
    CarriedStep(ts, t, LimitPayload(p.limit));
    ts := ts + [t];
    if err != ESP_OK {
      return;
    }
    err, io', t := SetChargeVoltageLimitRegister(io', p);
    Advance(io.transfers, ts, t, LimitSlots, Wr);
    CarriedStep(ts, t, LimitPayload(p.limit));
    ts := ts + [t];
    if err != ESP_OK {
      return;
    }
    err, io', t := SetChargeCurrentLimitRegister(io', p);
    Advance(io.transfers, ts, t, LimitSlots, Wr);
    CarriedStep(ts, t, LimitPayload(p.limit));
    ts := ts + [t];
    if err != ESP_OK {
      return;
    }
    err, io', t := SetInputVoltageLimitRegister(io', p);
    Advance(io.transfers, ts, t, LimitSlots, Wr);
    CarriedStep(ts, t, LimitPayload(p.limit));
    ts := ts + [t];
    if err != ESP_OK {
      return;
    }
    err, io', t := SetInputCurrentLimitRegister(io', p);
    Advance(io.transfers, ts, t, LimitSlots, Wr);
    CarriedStep(ts, t, LimitPayload(p.limit));
    ts := ts + [t];
    if err != ESP_OK {
      return;
    }
    err, io', t := SetVotgRegulationRegister(io', p);
    Advance(io.transfers, ts, t, LimitSlots, Wr);
    CarriedStep(ts, t, LimitPayload(p.limit));
    ts := ts + [t];
    if err != ESP_OK {
      return;
    }
    err, io', t := SetIotgRegulationRegister(io', p);
    Advance(io.transfers, ts, t, LimitSlots, Wr);
    CarriedStep(ts, t, LimitPayload(p.limit));
    ts := ts + [t];
  }

  /** `get_control_registers`: the registers in order, stopping at the first error. */
  method GetControlRegisters(io: Interface, p: ConfigParams) returns (err: Err, io': Interface, p': ConfigParams, ghost ts: seq<Transfer>)
    ensures io'.transfers == io.transfers + ts
    ensures Ran(ts, ControlSlots, Rd, err)
    ensures p' == ReadFrom(p, ts, 7)
  {
    ControlSlotsAre();
    ghost var t;
    ts := [];
    io' := io;
    p' := p;
    err, io', p', t := GetPrechargeControlRegister(io', p');
    Advance(io.transfers, ts, t, ControlSlots, Rd);
    ReadFromStep(p, ts, t, 7);
    ts := ts + [t];
    if err != ESP_OK {
      return;
    }
    err, io', p', t := GetTerminationControlRegister(io', p');
    Advance(io.transfers, ts, t, ControlSlots, Rd);
    ReadFromStep(p, ts, t, 7);
    ts := ts + [t];
    if err != ESP_OK {
      return;
    }
    err, io', p', t := GetRechargeControlRegister(io', p');
    Advance(io.transfers, ts, t, ControlSlots, Rd);
    ReadFromStep(p, ts, t, 7);
    ts := ts + [t];
    if err != ESP_OK {
      return;
    }
    err, io', p', t := GetTimerControlRegister(io', p');
    Advance(io.transfers, ts, t, ControlSlots, Rd);
    ReadFromStep(p, ts, t, 7);
    ts := ts + [t];
    if err != ESP_OK {
      return;
    }
    err, io', p', t := GetChargerControl0Register(io', p');
    Advance(io.transfers, ts, t, ControlSlots, Rd);
    ReadFromStep(p, ts, t, 7);
    ts := ts + [t];
    if err != ESP_OK {
      return;
    }
    err, io', p', t := GetChargerControl1Register(io', p');
    Advance(io.transfers, ts, t, ControlSlots, Rd);
    ReadFromStep(p, ts, t, 7);
    ts := ts + [t];
    if err != ESP_OK {
      return;
    }
    err, io', p', t := GetChargerControl2Register(io', p');
    Advance(io.transfers, ts, t, ControlSlots, Rd);
    ReadFromStep(p, ts, t, 7);
    ts := ts + [t];
    if err != ESP_OK {
      return;
    }
    err, io', p', t := GetChargerControl3Register(io', p');
    Advance(io.transfers, ts, t, ControlSlots, Rd);
    ReadFromStep(p, ts, t, 7);
    ts := ts + [t];
    if err != ESP_OK {
      return;
    }
    err, io', p', t := GetChargerControl4Register(io', p');
    Advance(io.transfers, ts, t, ControlSlots, Rd);
    ReadFromStep(p, ts, t, 7);
    ts := ts + [t];
    if err != ESP_OK {
      return;
    }
    err, io', p', t := GetChargerControl5Register(io', p');
    Advance(io.transfers, ts, t, ControlSlots, Rd);
    ReadFromStep(p, ts, t, 7);
    ts := ts + [t];
    if err != ESP_OK {
      return;
    }
    err, io', p', t := GetMpptControlRegister(io', p');
    Advance(io.transfers, ts, t, ControlSlots, Rd);
    ReadFromStep(p, ts, t, 7);
    ts := ts + [t];
    if err != ESP_OK {
      return;
    }
    err, io', p', t := GetTemperatureControlRegister(io', p');
    Advance(io.transfers, ts, t, ControlSlots, Rd);
    ReadFromStep(p, ts, t, 7);
    ts := ts + [t];
    if err != ESP_OK {
      return;
    }
    err, io', p', t := GetNtcControl0Register(io', p');
    Advance(io.transfers, ts, t, ControlSlots, Rd);
    ReadFromStep(p, ts, t, 7);
    ts := ts + [t];
    if err != ESP_OK {
      return;
    }
    err, io', p', t := GetNtcControl1Register(io', p');
    Advance(io.transfers, ts, t, ControlSlots, Rd);
    ReadFromStep(p, ts, t, 7);
    ts := ts + [t];
    if err != ESP_OK {
      return;
    }
    err, io', p', t := GetDpdmDriverRegister(io', p');
    Advance(io.transfers, ts, t, ControlSlots, Rd);
    ReadFromStep(p, ts, t, 7);
    ts := ts + [t];
  }

  /** `set_control_registers`: the registers in order, stopping at the first error. */
  method SetControlRegisters(io: Interface, p: ConfigParams) returns (err: Err, io': Interface, ghost ts: seq<Transfer>)
    ensures io'.transfers == io.transfers + ts
    ensures Ran(ts, ControlSlots, Wr, err)
    ensures Carried(ts, ControlPayload(p.control))
  {
    ControlSlotsAre();
    ControlPayloadAre(p.control);
    ghost var t;
    ts := [];
    io' := io;
    err, io', t := SetPrechargeControlRegister(io', p);
    Advance(io.transfers, ts, t, ControlSlots, Wr);
    CarriedStep(ts, t, ControlPayload(p.control));
    ts := ts + [t];
    if err != ESP_OK {
      return;
    }
    err, io', t := SetTerminationControlRegister(io', p);
    Advance(io.transfers, ts, t, ControlSlots, Wr);
    CarriedStep(ts, t, ControlPayload(p.control));
    ts := ts + [t];
    if err != ESP_OK {
      return;
    }
    err, io', t := SetRechargeControlRegister(io', p);
    Advance(io.transfers, ts, t, ControlSlots, Wr);
    CarriedStep(ts, t, ControlPayload(p.control));
    ts := ts + [t];
    if err != ESP_OK {
      return;
    }
    err, io', t := SetTimerControlRegister(io', p);
    Advance(io.transfers, ts, t, ControlSlots, Wr);
    CarriedStep(ts, t, ControlPayload(p.control));
    ts := ts + [t];
    if err != ESP_OK {
      return;
    }
    err, io', t := SetChargerControl0Register(io', p);
    Advance(io.transfers, ts, t, ControlSlots, Wr);
    CarriedStep(ts, t, ControlPayload(p.control));
    ts := ts + [t];
    if err != ESP_OK {
      return;
    }
    err, io', t := SetChargerControl1Register(io', p);
    Advance(io.transfers, ts, t, ControlSlots, Wr);
    CarriedStep(ts, t, ControlPayload(p.control));
    ts := ts + [t];
    if err != ESP_OK {
      return;
    }
    err, io', t := SetChargerControl2Register(io', p);
    Advance(io.transfers, ts, t, ControlSlots, Wr);
    CarriedStep(ts, t, ControlPayload(p.control));
    ts := ts + [t];
    if err != ESP_OK {
      return;
    }
    err, io', t := SetChargerControl3Register(io', p);
    Advance(io.transfers, ts, t, ControlSlots, Wr);
    CarriedStep(ts, t, ControlPayload(p.control));
    ts := ts + [t];
    if err != ESP_OK {
      return;
    }
    err, io', t := SetChargerControl4Register(io', p);
    Advance(io.transfers, ts, t, ControlSlots, Wr);
    CarriedStep(ts, t, ControlPayload(p.control));
    ts := ts + [t];
    if err != ESP_OK {
      return;
    }
    err, io', t := SetChargerControl5Register(io', p);
    Advance(io.transfers, ts, t, ControlSlots, Wr);
    CarriedStep(ts, t, ControlPayload(p.control));
    ts := ts + [t];
    if err != ESP_OK {
      return;
    }
    err, io', t := SetMpptControlRegister(io', p);
    Advance(io.transfers, ts, t, ControlSlots, Wr);
    CarriedStep(ts, t, ControlPayload(p.control));
    ts := ts + [t];
    if err != ESP_OK {
      return;
    }
    err, io', t := SetTemperatureControlRegister(io', p);
    Advance(io.transfers, ts, t, ControlSlots, Wr);
    CarriedStep(ts, t, ControlPayload(p.control));
    ts := ts + [t];
    if err != ESP_OK {
      return;
    }
    err, io', t := SetNtcControl0Register(io', p);
    Advance(io.transfers, ts, t, ControlSlots, Wr);
    CarriedStep(ts, t, ControlPayload(p.control));
    ts := ts + [t];
    if err != ESP_OK {
      return;
    }
    err, io', t := SetNtcControl1Register(io', p);
    Advance(io.transfers, ts, t, ControlSlots, Wr);
    CarriedStep(ts, t, ControlPayload(p.control));
    ts := ts + [t];
    if err != ESP_OK {
      return;
    }
    err, io', t := SetDpdmDriverRegister(io', p);
    Advance(io.transfers, ts, t, ControlSlots, Wr);
    CarriedStep(ts, t, ControlPayload(p.control));
    ts := ts + [t];
  }

  /** `get_mask_registers`: the registers in order, stopping at the first error. */
  method GetMaskRegisters(io: Interface, p: ConfigParams) returns (err: Err, io': Interface, p': ConfigParams, ghost ts: seq<Transfer>)
    ensures io'.transfers == io.transfers + ts
    ensures Ran(ts, MaskSlots, Rd, err)
    ensures p' == ReadFrom(p, ts, 22)
  {
    MaskSlotsAre();
    ghost var t;
    ts := [];
    io' := io;
    p' := p;
    err, io', p', t := GetChargerMask0Register(io', p');
    Advance(io.transfers, ts, t, MaskSlots, Rd);
    ReadFromStep(p, ts, t, 22);
    ts := ts + [t];
    if err != ESP_OK {
      return;
    }
    err, io', p', t := GetChargerMask1Register(io', p');
    Advance(io.transfers, ts, t, MaskSlots, Rd);
    ReadFromStep(p, ts, t, 22);
    ts := ts + [t];
    if err != ESP_OK {
      return;
    }
    err, io', p', t := GetChargerMask2Register(io', p');
    Advance(io.transfers, ts, t, MaskSlots, Rd);
    ReadFromStep(p, ts, t, 22);
    ts := ts + [t];
    if err != ESP_OK {
      return;
    }
    err, io', p', t := GetChargerMask3Register(io', p');
    Advance(io.transfers, ts, t, MaskSlots, Rd);
    ReadFromStep(p, ts, t, 22);
    ts := ts + [t];
    if err != ESP_OK {
      return;
    }
    err, io', p', t := GetFaultMask0Register(io', p');
    Advance(io.transfers, ts, t, MaskSlots, Rd);
    ReadFromStep(p, ts, t, 22);
    ts := ts + [t];
    if err != ESP_OK {
      return;
    }
    err, io', p', t := GetFaultMask1Register(io', p');
    Advance(io.transfers, ts, t, MaskSlots, Rd);
    ReadFromStep(p, ts, t, 22);
    ts := ts + [t];
  }

  /** `set_mask_registers`: the registers in order, stopping at the first error. */
  method SetMaskRegisters(io: Interface, p: ConfigParams) returns (err: Err, io': Interface, ghost ts: seq<Transfer>)
    ensures io'.transfers == io.transfers + ts
    ensures Ran(ts, MaskSlots, Wr, err)
    ensures Carried(ts, MaskPayload(p.mask))
  {
    MaskSlotsAre();
    MaskPayloadAre(p.mask);
    ghost var t;
    ts := [];
    io' := io;
    err, io', t := SetChargerMask0Register(io', p);
    Advance(io.transfers, ts, t, MaskSlots, Wr);
    CarriedStep(ts, t, MaskPayload(p.mask));
    ts := ts + [t];
    if err != ESP_OK {
      return;
    }
    err, io', t := SetChargerMask1Register(io', p);
    Advance(io.transfers, ts, t, MaskSlots, Wr);
    CarriedStep(ts, t, MaskPayload(p.mask));
    ts := ts + [t];
    if err != ESP_OK {
      return;
    }
    err, io', t := SetChargerMask2Register(io', p);
    Advance(io.transfers, ts, t, MaskSlots, Wr);
    CarriedStep(ts, t, MaskPayload(p.mask));
    ts := ts + [t];
    if err != ESP_OK {
      return;
    }
    err, io', t := SetChargerMask3Register(io', p);
    Advance(io.transfers, ts, t, MaskSlots, Wr);
    CarriedStep(ts, t, MaskPayload(p.mask));
    ts := ts + [t];
    if err != ESP_OK {
      return;
    }
    err, io', t := SetFaultMask0Register(io', p);
    Advance(io.transfers, ts, t, MaskSlots, Wr);
    CarriedStep(ts, t, MaskPayload(p.mask));
    ts := ts + [t];
    if err != ESP_OK {
      return;
    }
    err, io', t := SetFaultMask1Register(io', p);
    Advance(io.transfers, ts, t, MaskSlots, Wr);
    CarriedStep(ts, t, MaskPayload(p.mask));
    ts := ts + [t];
  }

  /** `get_adc_registers`: the registers in order, stopping at the first error. */
  method GetAdcRegisters(io: Interface, p: ConfigParams) returns (err: Err, io': Interface, p': ConfigParams, ghost ts: seq<Transfer>)
    ensures io'.transfers == io.transfers + ts
    ensures Ran(ts, AdcSlots, Rd, err)
    ensures p' == ReadFrom(p, ts, 28)
  {
    AdcSlotsAre();
    ghost var t;
    ts := [];
    io' := io;
    p' := p;
    err, io', p', t := GetAdcControlRegister(io', p');
    Advance(io.transfers, ts, t, AdcSlots, Rd);
    ReadFromStep(p, ts, t, 28);
    ts := ts + [t];
    if err != ESP_OK {
      return;
    }
    err, io', p', t := GetAdcFunctionDisable0Register(io', p');
    Advance(io.transfers, ts, t, AdcSlots, Rd);
    ReadFromStep(p, ts, t, 28);
    ts := ts + [t];
    if err != ESP_OK {
      return;
    }
    err, io', p', t := GetAdcFunctionDisable1Register(io', p');
    Advance(io.transfers, ts, t, AdcSlots, Rd);
    ReadFromStep(p, ts, t, 28);
    ts := ts + [t];
  }

  /** `set_adc_registers`: the registers in order, stopping at the first error. */
  method SetAdcRegisters(io: Interface, p: ConfigParams) returns (err: Err, io': Interface, ghost ts: seq<Transfer>)
    ensures io'.transfers == io.transfers + ts
    ensures Ran(ts, AdcSlots, Wr, err)
    ensures Carried(ts, AdcPayload(p.adc))
  {
    AdcSlotsAre();
    AdcPayloadAre(p.adc);
    ghost var t;
    ts := [];
    io' := io;
    err, io', t := SetAdcControlRegister(io', p);
    Advance(io.transfers, ts, t, AdcSlots, Wr);
    CarriedStep(ts, t, AdcPayload(p.adc));
    ts := ts + [t];
    if err != ESP_OK {
      return;
    }
    err, io', t := SetAdcFunctionDisable0Register(io', p);
    Advance(io.transfers, ts, t, AdcSlots, Wr);
    CarriedStep(ts, t, AdcPayload(p.adc));
    ts := ts + [t];
    if err != ESP_OK {
      return;
    }
    err, io', t := SetAdcFunctionDisable1Register(io', p);
    Advance(io.transfers, ts, t, AdcSlots, Wr);
    CarriedStep(ts, t, AdcPayload(p.adc));
    ts := ts + [t];
  }

  /** `get()`: the limit, control, mask and ADC groups in that order,
      stopping at the first group that fails. */
  method Get(io: Interface, p: ConfigParams) returns (err: Err, io': Interface, p': ConfigParams, ghost ts: seq<Transfer>)
    ensures io'.transfers == io.transfers + ts
    ensures Ran(ts, ConfigSlots, Rd, err)
    ensures p' == ReadFrom(p, ts, 0)
  {
    ghost var a, b, c, d;
    err, io', p', a := GetLimitRegisters(io, p);
    ts := a;
    if err != ESP_OK {
      RanWiden(ts, LimitSlots, ControlSlots, Rd, err);
      RanWiden(ts, LimitSlots + ControlSlots, MaskSlots, Rd, err);
      RanWiden(ts, LimitSlots + ControlSlots + MaskSlots, AdcSlots, Rd, err);
      return;
    }
    err, io', p', b := GetControlRegisters(io', p');
    Appended(io.transfers, a, b);
    RanConcat(a, b, LimitSlots, ControlSlots, Rd, err);
    ReadFromConcat(p, a, b, 0);
    ts := a + b;
    if err != ESP_OK {
      RanWiden(ts, LimitSlots + ControlSlots, MaskSlots, Rd, err);
      RanWiden(ts, LimitSlots + ControlSlots + MaskSlots, AdcSlots, Rd, err);
      return;
    }
    err, io', p', c := GetMaskRegisters(io', p');
    Appended(io.transfers, a + b, c);
    RanConcat(a + b, c, LimitSlots + ControlSlots, MaskSlots, Rd, err);
    ReadFromConcat(p, a + b, c, 0);
    ts := a + b + c;
    if err != ESP_OK {
      RanWiden(ts, LimitSlots + ControlSlots + MaskSlots, AdcSlots, Rd, err);
      return;
    }
    err, io', p', d := GetAdcRegisters(io', p');
    Appended(io.transfers, a + b + c, d);
    RanConcat(a + b + c, d, LimitSlots + ControlSlots + MaskSlots, AdcSlots, Rd, err);
    ReadFromConcat(p, a + b + c, d, 0);
    ts := a + b + c + d;
  }

  /** `set()`: the limit, control, mask and ADC groups in that order,
      stopping at the first group that fails. */
  method Set(io: Interface, p: ConfigParams) returns (err: Err, io': Interface, ghost ts: seq<Transfer>)
    ensures io'.transfers == io.transfers + ts
    ensures Ran(ts, ConfigSlots, Wr, err)
    ensures Carried(ts, ParamsPayload(p))
  {
    ghost var a, b, c, d;
    err, io', a := SetLimitRegisters(io, p);
    ts := a;
    if err != ESP_OK {
      RanWiden(ts, LimitSlots, ControlSlots, Wr, err);
      CarriedWiden(ts, LimitPayload(p.limit), ControlPayload(p.control));
      RanWiden(ts, LimitSlots + ControlSlots, MaskSlots, Wr, err);
      CarriedWiden(ts, LimitPayload(p.limit) + ControlPayload(p.control), MaskPayload(p.mask));
      RanWiden(ts, LimitSlots + ControlSlots + MaskSlots, AdcSlots, Wr, err);
      CarriedWiden(ts, LimitPayload(p.limit) + ControlPayload(p.control) + MaskPayload(p.mask), AdcPayload(p.adc));
      return;
    }
    err, io', b := SetControlRegisters(io', p);
    Appended(io.transfers, a, b);
    RanConcat(a, b, LimitSlots, ControlSlots, Wr, err);
    CarriedConcat(a, b, LimitPayload(p.limit), ControlPayload(p.control));
    ts := a + b;
    if err != ESP_OK {
      RanWiden(ts, LimitSlots + ControlSlots, MaskSlots, Wr, err);
      CarriedWiden(ts, LimitPayload(p.limit) + ControlPayload(p.control), MaskPayload(p.mask));
      RanWiden(ts, LimitSlots + ControlSlots + MaskSlots, AdcSlots, Wr, err);
      CarriedWiden(ts, LimitPayload(p.limit) + ControlPayload(p.control) + MaskPayload(p.mask), AdcPayload(p.adc));
      return;
    }
    err, io', c := SetMaskRegisters(io', p);
    Appended(io.transfers, a + b, c);
    RanConcat(a + b, c, LimitSlots + ControlSlots, MaskSlots, Wr, err);
    CarriedConcat(a + b, c, LimitPayload(p.limit) + ControlPayload(p.control), MaskPayload(p.mask));
    ts := a + b + c;
    if err != ESP_OK {
      RanWiden(ts, LimitSlots + ControlSlots + MaskSlots, AdcSlots, Wr, err);
      CarriedWiden(ts, LimitPayload(p.limit) + ControlPayload(p.control) + MaskPayload(p.mask), AdcPayload(p.adc));
      return;
    }
    err, io', d := SetAdcRegisters(io', p);
    Appended(io.transfers, a + b + c, d);
    RanConcat(a + b + c, d, LimitSlots + ControlSlots + MaskSlots, AdcSlots, Wr, err);
    CarriedConcat(a + b + c, d, LimitPayload(p.limit) + ControlPayload(p.control) + MaskPayload(p.mask), AdcPayload(p.adc));
    ts := a + b + c + d;
  }

}
