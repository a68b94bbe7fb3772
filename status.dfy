/** The `STATUS` functional group: the seven read-only status registers
    (0x1B-0x21) and the six flag registers (0x22-0x27). Each register has a
    getter that reads it and stores the byte through its `set_raw`, which
    keeps the byte as it is; `get_status()` and `get_flags()` read their
    registers in order and stop at the first error. Nothing in this group
    writes to the device. */
module Status {
  import opened Bits
  import opened Bus
  import opened Transport
  import opened Groups
  import opened StatusTypes
  import opened FlagTypes

  /** The registers `get_status()` reads, in order, with the width of each transfer. */
  const StatusSlots: seq<Slot> := [
    Slot(ChargerStatus0Register.Addr, 1),
    Slot(ChargerStatus1Register.Addr, 1),
    Slot(ChargerStatus2Register.Addr, 1),
    Slot(ChargerStatus3Register.Addr, 1),
    Slot(ChargerStatus4Register.Addr, 1),
    Slot(FaultStatus0Register.Addr, 1),
    Slot(FaultStatus1Register.Addr, 1)
  ]

  /** `StatusSlots`, entry by entry. */
  lemma StatusSlotsAre()
    ensures |StatusSlots| == 7
    ensures StatusSlots[0] == Slot(ChargerStatus0Register.Addr, 1)
    ensures StatusSlots[1] == Slot(ChargerStatus1Register.Addr, 1)
    ensures StatusSlots[2] == Slot(ChargerStatus2Register.Addr, 1)
    ensures StatusSlots[3] == Slot(ChargerStatus3Register.Addr, 1)
    ensures StatusSlots[4] == Slot(ChargerStatus4Register.Addr, 1)
    ensures StatusSlots[5] == Slot(FaultStatus0Register.Addr, 1)
    ensures StatusSlots[6] == Slot(FaultStatus1Register.Addr, 1)
  {
  }

  /** The registers `get_flags()` reads, in order, with the width of each transfer. */
  const FlagsSlots: seq<Slot> := [
    Slot(ChargerFlag0Register.Addr, 1),
    Slot(ChargerFlag1Register.Addr, 1),
    Slot(ChargerFlag2Register.Addr, 1),
    Slot(ChargerFlag3Register.Addr, 1),
    Slot(FaultFlag0Register.Addr, 1),
    Slot(FaultFlag1Register.Addr, 1)
  ]

  /** `FlagsSlots`, entry by entry. */
  lemma FlagsSlotsAre()
    ensures |FlagsSlots| == 6
    ensures FlagsSlots[0] == Slot(ChargerFlag0Register.Addr, 1)
    ensures FlagsSlots[1] == Slot(ChargerFlag1Register.Addr, 1)
    ensures FlagsSlots[2] == Slot(ChargerFlag2Register.Addr, 1)
    ensures FlagsSlots[3] == Slot(ChargerFlag3Register.Addr, 1)
    ensures FlagsSlots[4] == Slot(FaultFlag0Register.Addr, 1)
    ensures FlagsSlots[5] == Slot(FaultFlag1Register.Addr, 1)
  {
  }

  /** The raw byte `STATUS` keeps for each of its registers, status first. */
  datatype StatusRegs = StatusRegs(
    chargerStatus0: u8,
    chargerStatus1: u8,
    chargerStatus2: u8,
    chargerStatus3: u8,
    chargerStatus4: u8,
    faultStatus0: u8,
    faultStatus1: u8,
    chargerFlag0: u8,
    chargerFlag1: u8,
    chargerFlag2: u8,
    chargerFlag3: u8,
    faultFlag0: u8,
    faultFlag1: u8
  )

  /** The value-initialised registers: every raw value is 0. */
  const DefaultStatusRegs := StatusRegs(0, 0, 0, 0, 0, 0, 0, 0, 0, 0, 0, 0, 0)

  /** What reading the register at position `k` of the register list stores. */
  ghost function Apply(p: StatusRegs, k: nat, t: Transfer): StatusRegs
  {
    if k == 0 then p.(chargerStatus0 := Got8(p.chargerStatus0, t))
    else if k == 1 then p.(chargerStatus1 := Got8(p.chargerStatus1, t))
    else if k == 2 then p.(chargerStatus2 := Got8(p.chargerStatus2, t))
    else if k == 3 then p.(chargerStatus3 := Got8(p.chargerStatus3, t))
    else if k == 4 then p.(chargerStatus4 := Got8(p.chargerStatus4, t))
    else if k == 5 then p.(faultStatus0 := Got8(p.faultStatus0, t))
    else if k == 6 then p.(faultStatus1 := Got8(p.faultStatus1, t))
    else if k == 7 then p.(chargerFlag0 := Got8(p.chargerFlag0, t))
    else if k == 8 then p.(chargerFlag1 := Got8(p.chargerFlag1, t))
    else if k == 9 then p.(chargerFlag2 := Got8(p.chargerFlag2, t))
    else if k == 10 then p.(chargerFlag3 := Got8(p.chargerFlag3, t))
    else if k == 11 then p.(faultFlag0 := Got8(p.faultFlag0, t))
    else if k == 12 then p.(faultFlag1 := Got8(p.faultFlag1, t))
    else p
  }

  /** What a bulk read leaves in the registers when its transfers `ts` are
      for the registers from position `base` on: each transfer, in order,
      applied to its own register. */
  ghost function ReadFrom(p: StatusRegs, ts: seq<Transfer>, base: nat): StatusRegs
    decreases |ts|
  {
    if |ts| == 0 then p
    else Apply(ReadFrom(p, ts[..|ts| - 1], base), base + |ts| - 1, ts[|ts| - 1])
  }

  /** Reading one more register. */
  lemma ReadFromStep(p: StatusRegs, ts: seq<Transfer>, t: Transfer, base: nat)
    ensures ReadFrom(p, ts + [t], base) == Apply(ReadFrom(p, ts, base), base + |ts|, t)
  {
    assert (ts + [t])[..|ts|] == ts;
  }

  /** `get_status()` touches only the seven status registers, and leaves each of them as its own
      transfer says: the value read if that transfer happened and
      succeeded, the previous value otherwise. Every other register keeps its value. */
  lemma {:induction false} ReadStatusGroup(p: StatusRegs, ts: seq<Transfer>)
    requires |ts| <= 7
    ensures ReadFrom(p, ts, 0) == p.(chargerStatus0 := ReadBack8(p.chargerStatus0, ts, 0), chargerStatus1 := ReadBack8(p.chargerStatus1, ts, 1), chargerStatus2 := ReadBack8(p.chargerStatus2, ts, 2), chargerStatus3 := ReadBack8(p.chargerStatus3, ts, 3), chargerStatus4 := ReadBack8(p.chargerStatus4, ts, 4), faultStatus0 := ReadBack8(p.faultStatus0, ts, 5), faultStatus1 := ReadBack8(p.faultStatus1, ts, 6))
    decreases |ts|
  {
    if |ts| > 0 {
      var init := ts[..|ts| - 1];
      ReadStatusGroup(p, init);
      assert forall i :: 0 <= i < |init| ==> init[i] == ts[i];
    }
  }

  /** `get_flags()` touches only the six flag registers, and leaves each of them as its own
      transfer says: the value read if that transfer happened and
      succeeded, the previous value otherwise. Every other register keeps its value. */
  lemma {:induction false} ReadFlagsGroup(p: StatusRegs, ts: seq<Transfer>)
    requires |ts| <= 6
    ensures ReadFrom(p, ts, 7) == p.(chargerFlag0 := ReadBack8(p.chargerFlag0, ts, 0), chargerFlag1 := ReadBack8(p.chargerFlag1, ts, 1), chargerFlag2 := ReadBack8(p.chargerFlag2, ts, 2), chargerFlag3 := ReadBack8(p.chargerFlag3, ts, 3), faultFlag0 := ReadBack8(p.faultFlag0, ts, 4), faultFlag1 := ReadBack8(p.faultFlag1, ts, 5))
    decreases |ts|
  {
    if |ts| > 0 {
      var init := ts[..|ts| - 1];
      ReadFlagsGroup(p, init);
      assert forall i :: 0 <= i < |init| ==> init[i] == ts[i];
    }
  }

  /** `get_charger_status0`: read ChargerStatus0Register and store it through `set_raw`, only when the read succeeds. */
  method GetChargerStatus0(io: Interface, p: StatusRegs) returns (err: Err, io': Interface, p': StatusRegs, ghost t: Transfer)
    ensures io'.transfers == io.transfers + [t]
    ensures Matches(t, Slot(ChargerStatus0Register.Addr, 1), Rd) && t.err == err
    ensures p' == p.(chargerStatus0 := Got8(p.chargerStatus0, t))
  {
    var raw;
    err, raw, io' := ReadU8(io, ChargerStatus0Register.Addr);
    t := io'.transfers[|io.transfers|];
    p' := p;
    if err != ESP_OK {
      return;
    }
    p' := p.(chargerStatus0 := raw);
  }

  /** `get_charger_status1`: read ChargerStatus1Register and store it through `set_raw`, only when the read succeeds. */
  method GetChargerStatus1(io: Interface, p: StatusRegs) returns (err: Err, io': Interface, p': StatusRegs, ghost t: Transfer)
    ensures io'.transfers == io.transfers + [t]
    ensures Matches(t, Slot(ChargerStatus1Register.Addr, 1), Rd) && t.err == err
    ensures p' == p.(chargerStatus1 := Got8(p.chargerStatus1, t))
  {
    var raw;
    err, raw, io' := ReadU8(io, ChargerStatus1Register.Addr);
    t := io'.transfers[|io.transfers|];
    p' := p;
    if err != ESP_OK {
      return;
    }
    p' := p.(chargerStatus1 := raw);
  }

  /** `get_charger_status2`: read ChargerStatus2Register and store it through `set_raw`, only when the read succeeds. */
  method GetChargerStatus2(io: Interface, p: StatusRegs) returns (err: Err, io': Interface, p': StatusRegs, ghost t: Transfer)
    ensures io'.transfers == io.transfers + [t]
    ensures Matches(t, Slot(ChargerStatus2Register.Addr, 1), Rd) && t.err == err
    ensures p' == p.(chargerStatus2 := Got8(p.chargerStatus2, t))
  {
    var raw;
    err, raw, io' := ReadU8(io, ChargerStatus2Register.Addr);
    t := io'.transfers[|io.transfers|];
    p' := p;
    if err != ESP_OK {
      return;
    }
    p' := p.(chargerStatus2 := raw);
  }

  /** `get_charger_status3`: read ChargerStatus3Register and store it through `set_raw`, only when the read succeeds. */
  method GetChargerStatus3(io: Interface, p: StatusRegs) returns (err: Err, io': Interface, p': StatusRegs, ghost t: Transfer)
    ensures io'.transfers == io.transfers + [t]
    ensures Matches(t, Slot(ChargerStatus3Register.Addr, 1), Rd) && t.err == err
    ensures p' == p.(chargerStatus3 := Got8(p.chargerStatus3, t))
  {
    var raw;
    err, raw, io' := ReadU8(io, ChargerStatus3Register.Addr);
    t := io'.transfers[|io.transfers|];
    p' := p;
    if err != ESP_OK {
      return;
    }
    p' := p.(chargerStatus3 := raw);
  }

  /** `get_charger_status4`: read ChargerStatus4Register and store it through `set_raw`, only when the read succeeds. */
  method GetChargerStatus4(io: Interface, p: StatusRegs) returns (err: Err, io': Interface, p': StatusRegs, ghost t: Transfer)
    ensures io'.transfers == io.transfers + [t]
    ensures Matches(t, Slot(ChargerStatus4Register.Addr, 1), Rd) && t.err == err
    ensures p' == p.(chargerStatus4 := Got8(p.chargerStatus4, t))
  {
    var raw;
    err, raw, io' := ReadU8(io, ChargerStatus4Register.Addr);
    t := io'.transfers[|io.transfers|];
    p' := p;
    if err != ESP_OK {
      return;
    }
    p' := p.(chargerStatus4 := raw);
  }

  /** `get_fault_status0`: read FaultStatus0Register and store it through `set_raw`, only when the read succeeds. */
  method GetFaultStatus0(io: Interface, p: StatusRegs) returns (err: Err, io': Interface, p': StatusRegs, ghost t: Transfer)
    ensures io'.transfers == io.transfers + [t]
    ensures Matches(t, Slot(FaultStatus0Register.Addr, 1), Rd) && t.err == err
    ensures p' == p.(faultStatus0 := Got8(p.faultStatus0, t))
  {
    var raw;
    err, raw, io' := ReadU8(io, FaultStatus0Register.Addr);
    t := io'.transfers[|io.transfers|];
    p' := p;
    if err != ESP_OK {
      return;
    }
    p' := p.(faultStatus0 := raw);
  }

  /** `get_fault_status1`: read FaultStatus1Register and store it through `set_raw`, only when the read succeeds. */
  method GetFaultStatus1(io: Interface, p: StatusRegs) returns (err: Err, io': Interface, p': StatusRegs, ghost t: Transfer)
    ensures io'.transfers == io.transfers + [t]
    ensures Matches(t, Slot(FaultStatus1Register.Addr, 1), Rd) && t.err == err
    ensures p' == p.(faultStatus1 := Got8(p.faultStatus1, t))
  {
    var raw;
    err, raw, io' := ReadU8(io, FaultStatus1Register.Addr);
    t := io'.transfers[|io.transfers|];
    p' := p;
    if err != ESP_OK {
      return;
    }
    p' := p.(faultStatus1 := raw);
  }

  /** `get_charger_flag0`: read ChargerFlag0Register and store it through `set_raw`, only when the read succeeds. */
  method GetChargerFlag0(io: Interface, p: StatusRegs) returns (err: Err, io': Interface, p': StatusRegs, ghost t: Transfer)
    ensures io'.transfers == io.transfers + [t]
    ensures Matches(t, Slot(ChargerFlag0Register.Addr, 1), Rd) && t.err == err
    ensures p' == p.(chargerFlag0 := Got8(p.chargerFlag0, t))
  {
    var raw;
    err, raw, io' := ReadU8(io, ChargerFlag0Register.Addr);
    t := io'.transfers[|io.transfers|];
    p' := p;
    if err != ESP_OK {
      return;
    }
    p' := p.(chargerFlag0 := raw);
  }

  /** `get_charger_flag1`: read ChargerFlag1Register and store it through `set_raw`, only when the read succeeds. */
  method GetChargerFlag1(io: Interface, p: StatusRegs) returns (err: Err, io': Interface, p': StatusRegs, ghost t: Transfer)
    ensures io'.transfers == io.transfers + [t]
    ensures Matches(t, Slot(ChargerFlag1Register.Addr, 1), Rd) && t.err == err
    ensures p' == p.(chargerFlag1 := Got8(p.chargerFlag1, t))
  {
    var raw;
    err, raw, io' := ReadU8(io, ChargerFlag1Register.Addr);
    t := io'.transfers[|io.transfers|];
    p' := p;
    if err != ESP_OK {
      return;
    }
    p' := p.(chargerFlag1 := raw);
  }

  /** `get_charger_flag2`: read ChargerFlag2Register and store it through `set_raw`, only when the read succeeds. */
  method GetChargerFlag2(io: Interface, p: StatusRegs) returns (err: Err, io': Interface, p': StatusRegs, ghost t: Transfer)
    ensures io'.transfers == io.transfers + [t]
    ensures Matches(t, Slot(ChargerFlag2Register.Addr, 1), Rd) && t.err == err
    ensures p' == p.(chargerFlag2 := Got8(p.chargerFlag2, t))
  {
    var raw;
    err, raw, io' := ReadU8(io, ChargerFlag2Register.Addr);
    t := io'.transfers[|io.transfers|];
    p' := p;
    if err != ESP_OK {
      return;
    }
    p' := p.(chargerFlag2 := raw);
  }

  /** `get_charger_flag3`: read ChargerFlag3Register and store it through `set_raw`, only when the read succeeds. */
  method GetChargerFlag3(io: Interface, p: StatusRegs) returns (err: Err, io': Interface, p': StatusRegs, ghost t: Transfer)
    ensures io'.transfers == io.transfers + [t]
    ensures Matches(t, Slot(ChargerFlag3Register.Addr, 1), Rd) && t.err == err
    ensures p' == p.(chargerFlag3 := Got8(p.chargerFlag3, t))
  {
    var raw;
    err, raw, io' := ReadU8(io, ChargerFlag3Register.Addr);
    t := io'.transfers[|io.transfers|];
    p' := p;
    if err != ESP_OK {
      return;
    }
    p' := p.(chargerFlag3 := raw);
  }

  /** `get_fault_flag0`: read FaultFlag0Register and store it through `set_raw`, only when the read succeeds. */
  method GetFaultFlag0(io: Interface, p: StatusRegs) returns (err: Err, io': Interface, p': StatusRegs, ghost t: Transfer)
    ensures io'.transfers == io.transfers + [t]
    ensures Matches(t, Slot(FaultFlag0Register.Addr, 1), Rd) && t.err == err
    ensures p' == p.(faultFlag0 := Got8(p.faultFlag0, t))
  {
    var raw;
    err, raw, io' := ReadU8(io, FaultFlag0Register.Addr);
    t := io'.transfers[|io.transfers|];
    p' := p;
    if err != ESP_OK {
      return;
    }
    p' := p.(faultFlag0 := raw);
  }

  /** `get_fault_flag1`: read FaultFlag1Register and store it through `set_raw`, only when the read succeeds. */
  method GetFaultFlag1(io: Interface, p: StatusRegs) returns (err: Err, io': Interface, p': StatusRegs, ghost t: Transfer)
    ensures io'.transfers == io.transfers + [t]
    ensures Matches(t, Slot(FaultFlag1Register.Addr, 1), Rd) && t.err == err
    ensures p' == p.(faultFlag1 := Got8(p.faultFlag1, t))
  {
    var raw;
    err, raw, io' := ReadU8(io, FaultFlag1Register.Addr);
    t := io'.transfers[|io.transfers|];
    p' := p;
    if err != ESP_OK {
      return;
    }
    p' := p.(faultFlag1 := raw);
  }

  /** `get_status()`: the registers in order, stopping at the first error. */
  method GetStatus(io: Interface, p: StatusRegs) returns (err: Err, io': Interface, p': StatusRegs, ghost ts: seq<Transfer>)
    ensures io'.transfers == io.transfers + ts
    ensures Ran(ts, StatusSlots, Rd, err)
    ensures p' == ReadFrom(p, ts, 0)
  {
    StatusSlotsAre();
    ghost var t;
    ts := [];
    io' := io;
    p' := p;
    err, io', p', t := GetChargerStatus0(io', p');
    Advance(io.transfers, ts, t, StatusSlots, Rd);
    ReadFromStep(p, ts, t, 0);
    ts := ts + [t];
    if err != ESP_OK {
      return;
    }
    err, io', p', t := GetChargerStatus1(io', p');
    Advance(io.transfers, ts, t, StatusSlots, Rd);
    ReadFromStep(p, ts, t, 0);
    ts := ts + [t];
    if err != ESP_OK {
      return;
    }
    err, io', p', t := GetChargerStatus2(io', p');
    Advance(io.transfers, ts, t, StatusSlots, Rd);
    ReadFromStep(p, ts, t, 0);
    ts := ts + [t];
    if err != ESP_OK {
      return;
    }
    err, io', p', t := GetChargerStatus3(io', p');
    Advance(io.transfers, ts, t, StatusSlots, Rd);
    ReadFromStep(p, ts, t, 0);
    ts := ts + [t];
    if err != ESP_OK {
      return;
    }
    err, io', p', t := GetChargerStatus4(io', p');
    Advance(io.transfers, ts, t, StatusSlots, Rd);
    ReadFromStep(p, ts, t, 0);
    ts := ts + [t];
    if err != ESP_OK {
      return;
    }
    err, io', p', t := GetFaultStatus0(io', p');
    Advance(io.transfers, ts, t, StatusSlots, Rd);
    ReadFromStep(p, ts, t, 0);
    ts := ts + [t];
    if err != ESP_OK {
      return;
    }
    err, io', p', t := GetFaultStatus1(io', p');
    Advance(io.transfers, ts, t, StatusSlots, Rd);
    ReadFromStep(p, ts, t, 0);
    ts := ts + [t];
  }

  /** `get_flags()`: the registers in order, stopping at the first error. */
  method GetFlags(io: Interface, p: StatusRegs) returns (err: Err, io': Interface, p': StatusRegs, ghost ts: seq<Transfer>)
    ensures io'.transfers == io.transfers + ts
    ensures Ran(ts, FlagsSlots, Rd, err)
    ensures p' == ReadFrom(p, ts, 7)
  {
    FlagsSlotsAre();
    ghost var t;
    ts := [];
    io' := io;
    p' := p;
    err, io', p', t := GetChargerFlag0(io', p');
    Advance(io.transfers, ts, t, FlagsSlots, Rd);
    ReadFromStep(p, ts, t, 7);
    ts := ts + [t];
    if err != ESP_OK {
      return;
    }
    err, io', p', t := GetChargerFlag1(io', p');
    Advance(io.transfers, ts, t, FlagsSlots, Rd);
    ReadFromStep(p, ts, t, 7);
    ts := ts + [t];
    if err != ESP_OK {
      return;
    }
    err, io', p', t := GetChargerFlag2(io', p');
    Advance(io.transfers, ts, t, FlagsSlots, Rd);
    ReadFromStep(p, ts, t, 7);
    ts := ts + [t];
    if err != ESP_OK {
      return;
    }
    err, io', p', t := GetChargerFlag3(io', p');
    Advance(io.transfers, ts, t, FlagsSlots, Rd);
    ReadFromStep(p, ts, t, 7);
    ts := ts + [t];
    if err != ESP_OK {
      return;
    }
    err, io', p', t := GetFaultFlag0(io', p');
    Advance(io.transfers, ts, t, FlagsSlots, Rd);
    ReadFromStep(p, ts, t, 7);
    ts := ts + [t];
    if err != ESP_OK {
      return;
    }
    err, io', p', t := GetFaultFlag1(io', p');
    Advance(io.transfers, ts, t, FlagsSlots, Rd);
    ReadFromStep(p, ts, t, 7);
    ts := ts + [t];
  }


}
