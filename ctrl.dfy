/** The `CTRL` functional group: device detection (`ready`), the two
    read-modify-write commands (`send_reset`, `en_adc`), and the ICO limit
    and ADC result words, each read through its getter and all of them by
    `get()` in order, stopping at the first error. */
module Ctrl {
  import opened Bits
  import opened Bus
  import opened Transport
  import opened Groups
  import opened CtrlTypes

  /** The registers `get()` reads, in order, with the width of each transfer. */
  const CtrlSlots: seq<Slot> := [
    Slot(IcoCurrentLimitRegister.Addr, 2),
    Slot(IbusAdcRegister.Addr, 2),
    Slot(IbatAdcRegister.Addr, 2),
    Slot(VbusAdcRegister.Addr, 2),
    Slot(Vac1AdcRegister.Addr, 2),
    Slot(Vac2AdcRegister.Addr, 2),
    Slot(VbatAdcRegister.Addr, 2),
    Slot(VsysAdcRegister.Addr, 2),
    Slot(TsAdcRegister.Addr, 2),
    Slot(TdieAdcRegister.Addr, 2),
    Slot(DPlusAdcRegister.Addr, 2),
    Slot(DMinusAdcRegister.Addr, 2)
  ]

  /** `CtrlSlots`, entry by entry. */
  lemma CtrlSlotsAre()
    ensures |CtrlSlots| == 12
    ensures CtrlSlots[0] == Slot(IcoCurrentLimitRegister.Addr, 2)
    ensures CtrlSlots[1] == Slot(IbusAdcRegister.Addr, 2)
    ensures CtrlSlots[2] == Slot(IbatAdcRegister.Addr, 2)
    ensures CtrlSlots[3] == Slot(VbusAdcRegister.Addr, 2)
    ensures CtrlSlots[4] == Slot(Vac1AdcRegister.Addr, 2)
    ensures CtrlSlots[5] == Slot(Vac2AdcRegister.Addr, 2)
    ensures CtrlSlots[6] == Slot(VbatAdcRegister.Addr, 2)
    ensures CtrlSlots[7] == Slot(VsysAdcRegister.Addr, 2)
    ensures CtrlSlots[8] == Slot(TsAdcRegister.Addr, 2)
    ensures CtrlSlots[9] == Slot(TdieAdcRegister.Addr, 2)
    ensures CtrlSlots[10] == Slot(DPlusAdcRegister.Addr, 2)
    ensures CtrlSlots[11] == Slot(DMinusAdcRegister.Addr, 2)
  {
  }

  /** The raw word `CTRL` keeps for the ICO limit and each ADC result. */
  datatype CtrlRegs = CtrlRegs(
    icoCurrentLimit: u16,
    ibusAdc: u16,
    ibatAdc: u16,
    vbusAdc: u16,
    vac1Adc: u16,
    vac2Adc: u16,
    vbatAdc: u16,
    vsysAdc: u16,
    tsAdc: u16,
    tdieAdc: u16,
    dplusAdc: u16,
    dminusAdc: u16
  )

  /** The value-initialised registers: every raw value is 0. */
  const DefaultCtrlRegs := CtrlRegs(0, 0, 0, 0, 0, 0, 0, 0, 0, 0, 0, 0)

  /** What reading the register at position `k` of the register list stores. */
  ghost function Apply(p: CtrlRegs, k: nat, t: Transfer): CtrlRegs
  {
    if k == 0 then p.(icoCurrentLimit := Got16(p.icoCurrentLimit, t, 0x200))
    else if k == 1 then p.(ibusAdc := Got16(p.ibusAdc, t, 0x1_0000))
    else if k == 2 then p.(ibatAdc := Got16(p.ibatAdc, t, 0x1_0000))
    else if k == 3 then p.(vbusAdc := Got16(p.vbusAdc, t, 0x1_0000))
    else if k == 4 then p.(vac1Adc := Got16(p.vac1Adc, t, 0x1_0000))
    else if k == 5 then p.(vac2Adc := Got16(p.vac2Adc, t, 0x1_0000))
    else if k == 6 then p.(vbatAdc := Got16(p.vbatAdc, t, 0x1_0000))
    else if k == 7 then p.(vsysAdc := Got16(p.vsysAdc, t, 0x1_0000))
    else if k == 8 then p.(tsAdc := Got16(p.tsAdc, t, 0x1_0000))
    else if k == 9 then p.(tdieAdc := Got16(p.tdieAdc, t, 0x1_0000))
    else if k == 10 then p.(dplusAdc := Got16(p.dplusAdc, t, 0x1_0000))
    else if k == 11 then p.(dminusAdc := Got16(p.dminusAdc, t, 0x1_0000))
    else p
  }

  /** What a bulk read leaves in the registers when its transfers `ts` are
      for the registers from position `base` on: each transfer, in order,
      applied to its own register. */
  ghost function ReadFrom(p: CtrlRegs, ts: seq<Transfer>, base: nat): CtrlRegs
    decreases |ts|
  {
    if |ts| == 0 then p
    else Apply(ReadFrom(p, ts[..|ts| - 1], base), base + |ts| - 1, ts[|ts| - 1])
  }

  /** Reading one more register. */
  lemma ReadFromStep(p: CtrlRegs, ts: seq<Transfer>, t: Transfer, base: nat)
    ensures ReadFrom(p, ts + [t], base) == Apply(ReadFrom(p, ts, base), base + |ts|, t)
  {
    assert (ts + [t])[..|ts|] == ts;
  }

  /** `get()` touches only the ICO limit and the eleven ADC result words, and leaves each of them as its own
      transfer says: the value read if that transfer happened and
      succeeded, the previous value otherwise. */
  lemma {:induction false} ReadCtrlGroup(p: CtrlRegs, ts: seq<Transfer>)
    requires |ts| <= 12
    ensures ReadFrom(p, ts, 0) == p.(icoCurrentLimit := ReadBack16(p.icoCurrentLimit, ts, 0, 0x200), ibusAdc := ReadBack16(p.ibusAdc, ts, 1, 0x1_0000), ibatAdc := ReadBack16(p.ibatAdc, ts, 2, 0x1_0000), vbusAdc := ReadBack16(p.vbusAdc, ts, 3, 0x1_0000), vac1Adc := ReadBack16(p.vac1Adc, ts, 4, 0x1_0000), vac2Adc := ReadBack16(p.vac2Adc, ts, 5, 0x1_0000), vbatAdc := ReadBack16(p.vbatAdc, ts, 6, 0x1_0000), vsysAdc := ReadBack16(p.vsysAdc, ts, 7, 0x1_0000), tsAdc := ReadBack16(p.tsAdc, ts, 8, 0x1_0000), tdieAdc := ReadBack16(p.tdieAdc, ts, 9, 0x1_0000), dplusAdc := ReadBack16(p.dplusAdc, ts, 10, 0x1_0000), dminusAdc := ReadBack16(p.dminusAdc, ts, 11, 0x1_0000))
    decreases |ts|
  {
    if |ts| > 0 {
      var init := ts[..|ts| - 1];
      ReadCtrlGroup(p, init);
      assert forall i :: 0 <= i < |init| ==> init[i] == ts[i];
    }
  }

  /** `get_ico_current_limit`: read IcoCurrentLimitRegister and store it through `set_raw`, only when the read succeeds. */
  method GetIcoCurrentLimit(io: Interface, p: CtrlRegs) returns (err: Err, io': Interface, p': CtrlRegs, ghost t: Transfer)
    ensures io'.transfers == io.transfers + [t]
    ensures Matches(t, Slot(IcoCurrentLimitRegister.Addr, 2), Rd) && t.err == err
    ensures p' == p.(icoCurrentLimit := Got16(p.icoCurrentLimit, t, 0x200))
  {
    var raw;
    err, raw, io' := ReadU16(io, IcoCurrentLimitRegister.Addr, 0);
    t := io'.transfers[|io.transfers|];
    p' := p;
    if err != ESP_OK {
      return;
    }
    p' := p.(icoCurrentLimit := raw % 0x200);
  }

  /** `get_ibus_adc`: read IbusAdcRegister and store it through `set_raw`, only when the read succeeds. */
  method GetIbusAdc(io: Interface, p: CtrlRegs) returns (err: Err, io': Interface, p': CtrlRegs, ghost t: Transfer)
    ensures io'.transfers == io.transfers + [t]
    ensures Matches(t, Slot(IbusAdcRegister.Addr, 2), Rd) && t.err == err
    ensures p' == p.(ibusAdc := Got16(p.ibusAdc, t, 0x1_0000))
  {
    var raw;
    err, raw, io' := ReadU16(io, IbusAdcRegister.Addr, 0);
    t := io'.transfers[|io.transfers|];
    p' := p;
    if err != ESP_OK {
      return;
    }
    p' := p.(ibusAdc := raw);
  }

  /** `get_ibat_adc`: read IbatAdcRegister and store it through `set_raw`, only when the read succeeds. */
  method GetIbatAdc(io: Interface, p: CtrlRegs) returns (err: Err, io': Interface, p': CtrlRegs, ghost t: Transfer)
    ensures io'.transfers == io.transfers + [t]
    ensures Matches(t, Slot(IbatAdcRegister.Addr, 2), Rd) && t.err == err
    ensures p' == p.(ibatAdc := Got16(p.ibatAdc, t, 0x1_0000))
  {
    var raw;
    err, raw, io' := ReadU16(io, IbatAdcRegister.Addr, 0);
    t := io'.transfers[|io.transfers|];
    p' := p;
    if err != ESP_OK {
      return;
    }
    p' := p.(ibatAdc := raw);
  }

  /** `get_vbus_adc`: read VbusAdcRegister and store it through `set_raw`, only when the read succeeds. */
  method GetVbusAdc(io: Interface, p: CtrlRegs) returns (err: Err, io': Interface, p': CtrlRegs, ghost t: Transfer)
    ensures io'.transfers == io.transfers + [t]
    ensures Matches(t, Slot(VbusAdcRegister.Addr, 2), Rd) && t.err == err
    ensures p' == p.(vbusAdc := Got16(p.vbusAdc, t, 0x1_0000))
  {
    var raw;
    err, raw, io' := ReadU16(io, VbusAdcRegister.Addr, 0);
    t := io'.transfers[|io.transfers|];
    p' := p;
    if err != ESP_OK {
      return;
    }
    p' := p.(vbusAdc := raw);
  }

  /** `get_vac1_adc`: read Vac1AdcRegister and store it through `set_raw`, only when the read succeeds. */
  method GetVac1Adc(io: Interface, p: CtrlRegs) returns (err: Err, io': Interface, p': CtrlRegs, ghost t: Transfer)
    ensures io'.transfers == io.transfers + [t]
    ensures Matches(t, Slot(Vac1AdcRegister.Addr, 2), Rd) && t.err == err
    ensures p' == p.(vac1Adc := Got16(p.vac1Adc, t, 0x1_0000))
  {
    var raw;
    err, raw, io' := ReadU16(io, Vac1AdcRegister.Addr, 0);
    t := io'.transfers[|io.transfers|];
    p' := p;
    if err != ESP_OK {
      return;
    }
    p' := p.(vac1Adc := raw);
  }

  /** `get_vacd2_adc`: read Vac2AdcRegister and store it through `set_raw`, only when the read succeeds. */
  method GetVacd2Adc(io: Interface, p: CtrlRegs) returns (err: Err, io': Interface, p': CtrlRegs, ghost t: Transfer)
    ensures io'.transfers == io.transfers + [t]
    ensures Matches(t, Slot(Vac2AdcRegister.Addr, 2), Rd) && t.err == err
    ensures p' == p.(vac2Adc := Got16(p.vac2Adc, t, 0x1_0000))
  {
    var raw;
    err, raw, io' := ReadU16(io, Vac2AdcRegister.Addr, 0);
    t := io'.transfers[|io.transfers|];
    p' := p;
    if err != ESP_OK {
      return;
    }
    p' := p.(vac2Adc := raw);
  }

  /** `get_vbat_adc`: read VbatAdcRegister and store it through `set_raw`, only when the read succeeds. */
  method GetVbatAdc(io: Interface, p: CtrlRegs) returns (err: Err, io': Interface, p': CtrlRegs, ghost t: Transfer)
    ensures io'.transfers == io.transfers + [t]
    ensures Matches(t, Slot(VbatAdcRegister.Addr, 2), Rd) && t.err == err
    ensures p' == p.(vbatAdc := Got16(p.vbatAdc, t, 0x1_0000))
  {
    var raw;
    err, raw, io' := ReadU16(io, VbatAdcRegister.Addr, 0);
    t := io'.transfers[|io.transfers|];
    p' := p;
    if err != ESP_OK {
      return;
    }
    p' := p.(vbatAdc := raw);
  }

  /** `get_vsys_adc`: read VsysAdcRegister and store it through `set_raw`, only when the read succeeds. */
  method GetVsysAdc(io: Interface, p: CtrlRegs) returns (err: Err, io': Interface, p': CtrlRegs, ghost t: Transfer)
    ensures io'.transfers == io.transfers + [t]
    ensures Matches(t, Slot(VsysAdcRegister.Addr, 2), Rd) && t.err == err
    ensures p' == p.(vsysAdc := Got16(p.vsysAdc, t, 0x1_0000))
  {
    var raw;
    err, raw, io' := ReadU16(io, VsysAdcRegister.Addr, 0);
    t := io'.transfers[|io.transfers|];
    p' := p;
    if err != ESP_OK {
      return;
    }
    p' := p.(vsysAdc := raw);
  }

  /** `get_ts_adc`: read TsAdcRegister and store it through `set_raw`, only when the read succeeds. */
  method GetTsAdc(io: Interface, p: CtrlRegs) returns (err: Err, io': Interface, p': CtrlRegs, ghost t: Transfer)
    ensures io'.transfers == io.transfers + [t]
    ensures Matches(t, Slot(TsAdcRegister.Addr, 2), Rd) && t.err == err
    ensures p' == p.(tsAdc := Got16(p.tsAdc, t, 0x1_0000))
  {
    var raw;
    err, raw, io' := ReadU16(io, TsAdcRegister.Addr, 0);
    t := io'.transfers[|io.transfers|];
    p' := p;
    if err != ESP_OK {
      return;
    }
    p' := p.(tsAdc := raw);
  }

  /** `get_tdie_adc`: read TdieAdcRegister and store it through `set_raw`, only when the read succeeds. */
  method GetTdieAdc(io: Interface, p: CtrlRegs) returns (err: Err, io': Interface, p': CtrlRegs, ghost t: Transfer)
    ensures io'.transfers == io.transfers + [t]
    ensures Matches(t, Slot(TdieAdcRegister.Addr, 2), Rd) && t.err == err
    ensures p' == p.(tdieAdc := Got16(p.tdieAdc, t, 0x1_0000))
  {
    var raw;
    err, raw, io' := ReadU16(io, TdieAdcRegister.Addr, 0);
    t := io'.transfers[|io.transfers|];
    p' := p;
    if err != ESP_OK {
      return;
    }
    p' := p.(tdieAdc := raw);
  }

  /** `get_dplus_adc`: read DPlusAdcRegister and store it through `set_raw`, only when the read succeeds. */
  method GetDplusAdc(io: Interface, p: CtrlRegs) returns (err: Err, io': Interface, p': CtrlRegs, ghost t: Transfer)
    ensures io'.transfers == io.transfers + [t]
    ensures Matches(t, Slot(DPlusAdcRegister.Addr, 2), Rd) && t.err == err
    ensures p' == p.(dplusAdc := Got16(p.dplusAdc, t, 0x1_0000))
  {
    var raw;
    err, raw, io' := ReadU16(io, DPlusAdcRegister.Addr, 0);
    t := io'.transfers[|io.transfers|];
    p' := p;
    if err != ESP_OK {
      return;
    }
    p' := p.(dplusAdc := raw);
  }

  /** `get_dminus_adc`: read DMinusAdcRegister and store it through `set_raw`, only when the read succeeds. */
  method GetDminusAdc(io: Interface, p: CtrlRegs) returns (err: Err, io': Interface, p': CtrlRegs, ghost t: Transfer)
    ensures io'.transfers == io.transfers + [t]
    ensures Matches(t, Slot(DMinusAdcRegister.Addr, 2), Rd) && t.err == err
    ensures p' == p.(dminusAdc := Got16(p.dminusAdc, t, 0x1_0000))
  {
    var raw;
    err, raw, io' := ReadU16(io, DMinusAdcRegister.Addr, 0);
    t := io'.transfers[|io.transfers|];
    p' := p;
    if err != ESP_OK {
      return;
    }
    p' := p.(dminusAdc := raw);
  }

  /** `get()`: the registers in order, stopping at the first error. */
  method Get(io: Interface, p: CtrlRegs) returns (err: Err, io': Interface, p': CtrlRegs, ghost ts: seq<Transfer>)
    ensures io'.transfers == io.transfers + ts
    ensures Ran(ts, CtrlSlots, Rd, err)
    ensures p' == ReadFrom(p, ts, 0)
  {
    CtrlSlotsAre();
    ghost var t;
    ts := [];
    io' := io;
    p' := p;
    err, io', p', t := GetIcoCurrentLimit(io', p');
    Advance(io.transfers, ts, t, CtrlSlots, Rd);
    ReadFromStep(p, ts, t, 0);
    ts := ts + [t];
    if err != ESP_OK {
      return;
    }
    err, io', p', t := GetIbusAdc(io', p');
    Advance(io.transfers, ts, t, CtrlSlots, Rd);
    ReadFromStep(p, ts, t, 0);
    ts := ts + [t];
    if err != ESP_OK {
      return;
    }
    err, io', p', t := GetIbatAdc(io', p');
    Advance(io.transfers, ts, t, CtrlSlots, Rd);
    ReadFromStep(p, ts, t, 0);
    ts := ts + [t];
    if err != ESP_OK {
      return;
    }
    err, io', p', t := GetVbusAdc(io', p');
    Advance(io.transfers, ts, t, CtrlSlots, Rd);
    ReadFromStep(p, ts, t, 0);
    ts := ts + [t];
    if err != ESP_OK {
      return;
    }
    err, io', p', t := GetVac1Adc(io', p');
    Advance(io.transfers, ts, t, CtrlSlots, Rd);
    ReadFromStep(p, ts, t, 0);
    ts := ts + [t];
    if err != ESP_OK {
      return;
    }
    err, io', p', t := GetVacd2Adc(io', p');
    Advance(io.transfers, ts, t, CtrlSlots, Rd);
    ReadFromStep(p, ts, t, 0);
    ts := ts + [t];
    if err != ESP_OK {
      return;
    }
    err, io', p', t := GetVbatAdc(io', p');
    Advance(io.transfers, ts, t, CtrlSlots, Rd);
    ReadFromStep(p, ts, t, 0);
    ts := ts + [t];
    if err != ESP_OK {
      return;
    }
    err, io', p', t := GetVsysAdc(io', p');
    Advance(io.transfers, ts, t, CtrlSlots, Rd);
    ReadFromStep(p, ts, t, 0);
    ts := ts + [t];
    if err != ESP_OK {
      return;
    }
    err, io', p', t := GetTsAdc(io', p');
    Advance(io.transfers, ts, t, CtrlSlots, Rd);
    ReadFromStep(p, ts, t, 0);
    ts := ts + [t];
    if err != ESP_OK {
      return;
    }
    err, io', p', t := GetTdieAdc(io', p');
    Advance(io.transfers, ts, t, CtrlSlots, Rd);
    ReadFromStep(p, ts, t, 0);
    ts := ts + [t];
    if err != ESP_OK {
      return;
    }
    err, io', p', t := GetDplusAdc(io', p');
    Advance(io.transfers, ts, t, CtrlSlots, Rd);
    ReadFromStep(p, ts, t, 0);
    ts := ts + [t];
    if err != ESP_OK {
      return;
    }
    err, io', p', t := GetDminusAdc(io', p');
    Advance(io.transfers, ts, t, CtrlSlots, Rd);
    ReadFromStep(p, ts, t, 0);
    ts := ts + [t];
  }

  // ---------------------------------------------------------------------------
  // Device detection and the two read-modify-write commands

  /** REG10h, the register whose bit 3 resets the watchdog timer. */
  const REG_RESET: bv8 := 0x10
  /** REG2Eh, ADC control, whose bit 7 enables the ADC. */
  const REG_ADC_CONTROL: bv8 := 0x2E
  /** The part number of a supported charger. */
  const VALUE_DEVICE_ID: bv8 := 0x03
  /** `1 << 3`. */
  const RESET_COMMAND: bv8 := 0x08
  /** `1 << 7`. */
  const EN_ADC_COMMAND: bv8 := 0x80

  /** What `ready()` returns after the read `t` of the part-information
      register: the read's own error if it failed, success if the part
      number decoded from the byte is VALUE_DEVICE_ID, and
      ESP_ERR_INVALID_RESPONSE otherwise. */
  ghost function ReadyOutcome(t: Transfer): Err
  {
    if t.err != ESP_OK then t.err
    else if |t.data| == 1 && DecodePartInformation(ByteOf(t.data[0])).partNumber == VALUE_DEVICE_ID then ESP_OK
    else ESP_ERR_INVALID_RESPONSE
  }

  /** `ready()` accepts the device exactly when the read succeeded and bits
      5:3 of the byte read are 011, whatever bits 7:6 and the revision; a
      failed read's error is passed through unchanged, and a byte with any
      other part number gives ESP_ERR_INVALID_RESPONSE. */
  lemma ReadyOutcomeIff(t: Transfer)
    requires |t.data| == 1
    ensures ReadyOutcome(t) == ESP_OK <==> t.err == ESP_OK && ByteOf(t.data[0]) & 0x38 == 0x18
    ensures t.err != ESP_OK ==> ReadyOutcome(t) == t.err
    ensures t.err == ESP_OK && ReadyOutcome(t) != ESP_OK ==> ReadyOutcome(t) == ESP_ERR_INVALID_RESPONSE
  {
    var b := ByteOf(t.data[0]);
    assert (b >> 3) & 0x07 == 0x03 <==> b & 0x38 == 0x18;
  }

  /** `ready()`: read the part-information register and check its part
      number. It makes exactly one register read and no write. */
  method Ready(io: Interface) returns (err: Err, io': Interface, ghost t: Transfer)
    ensures io'.transfers == io.transfers + [t]
    ensures Matches(t, Slot(PartInformationRegister.Addr, 1), Rd)
    ensures err == ReadyOutcome(t)
    ensures io'.dev.script == io.dev.script
    ensures io'.dev.trace == io.dev.trace + RetryTrace(io.dev.script, io.dev.count, MAX_READ_ATTEMPTS, PartInformationRegister.Addr, 1)
  {
    var val;
    var partInformation := new PartInformationRegister();
    err, val, io' := ReadU8(io, PartInformationRegister.Addr);
    t := io'.transfers[|io.transfers|];
    if err != ESP_OK {
      return;
    }
    partInformation.SetRaw(ByteOf(val));
    if DecodePartInformation(partInformation.raw).partNumber != VALUE_DEVICE_ID {
      err := ESP_ERR_INVALID_RESPONSE;
      return;
    }
    err := ESP_OK;
  }

  /** `control |= command`: the byte the commands write back. */
  function WithCommand(control: bv8, command: bv8): bv8
  {
    control | command
  }

  /** The byte written back has the command bits set and every other bit as
      it was read. */
  lemma WithCommandSetsOnlyItsBits(control: bv8, command: bv8)
    ensures WithCommand(control, command) & command == command
    ensures WithCommand(control, command) & !command == control & !command
  {
  }

  /** When the command bits were already set, the byte written back is the
      byte read: repeating a command writes the same byte again. */
  lemma WithCommandIdempotent(control: u8, command: bv8)
    requires ByteOf(control) & command == command
    ensures WithCommand(ByteOf(control), command) as int == control
  {
    assert WithCommand(ByteOf(control), command) == ByteOf(control);
  }

  /** The transfers `ts` are those of a read-modify-write of register `reg`
      that sets the bits of `command` and returned `err`: a read; if it
      succeeded, one write of the byte read with those bits set, whose
      status is returned; if it failed, no write, and its error is returned. */
  ghost predicate CommandRan(ts: seq<Transfer>, reg: bv8, command: bv8, err: Err)
  {
    1 <= |ts| <= 2 && Matches(ts[0], Slot(reg, 1), Rd)
    && (ts[0].err != ESP_OK ==> |ts| == 1 && err == ts[0].err)
    && (ts[0].err == ESP_OK ==>
          |ts| == 2 && Matches(ts[1], Slot(reg, 1), Wr)
          && ts[1].data == [WithCommand(ByteOf(ts[0].data[0]), command) as int] && err == ts[1].err)
  }

  /** `send_reset()`: set the watchdog-reset bit of REG10h. */
  method SendReset(io: Interface) returns (err: Err, io': Interface, ghost ts: seq<Transfer>)
    ensures io'.transfers == io.transfers + ts
    ensures CommandRan(ts, REG_RESET, RESET_COMMAND, err)
  {
    var control;
    err, control, io' := ReadU8(io, REG_RESET);
    ts := [io'.transfers[|io.transfers|]];
    if err != ESP_OK {
      return;
    }
    var io1 := io';
    control := WithCommand(ByteOf(control), RESET_COMMAND) as int;
    err, io' := WriteU8(io1, REG_RESET, control);
    ts := ts + [io'.transfers[|io1.transfers|]];
  }

  /** `en_adc()`: set the ADC-enable bit of REG2Eh. */
  method EnAdc(io: Interface) returns (err: Err, io': Interface, ghost ts: seq<Transfer>)
    ensures io'.transfers == io.transfers + ts
    ensures CommandRan(ts, REG_ADC_CONTROL, EN_ADC_COMMAND, err)
  {
    var control;
    err, control, io' := ReadU8(io, REG_ADC_CONTROL);
    ts := [io'.transfers[|io.transfers|]];
    if err != ESP_OK {
      return;
    }
    var io1 := io';
    control := WithCommand(ByteOf(control), EN_ADC_COMMAND) as int;
    err, io' := WriteU8(io1, REG_ADC_CONTROL, control);
    ts := ts + [io'.transfers[|io1.transfers|]];
  }

}
