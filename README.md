# BQ2579x charger driver, modelled in Dafny

This project models the ESP-IDF driver for the TI BQ25798/BQ2579x buck-boost
battery charger. It covers five layers of the driver:

- **Register codecs.** Each hardware register class holds a single `raw_`
  byte or word and becomes a Dafny class with a `raw` field and the same
  `SetRaw` masks (`limit_types.dfy`, `control_types.dfy`,
  `charger_types.dfy`, `ntc_types.dfy`, `mask_types.dfy`, `adc_types.dfy`,
  `status_types.dfy`, `flag_types.dfy`, `ctrl_types.dfy`).
  - `set_values`/`set_value` become pure `PackX` functions. Their inverses
    `get_values`/`get_value` become `UnpackX`/`DecodeX`.
  - The proved properties are round trips, reserved bits that always read
    zero, bits a decoder ignores, wrap-around where the code masks instead
    of clamping, the packed bytes of the default `Values`, and enums that
    name every bit pattern.
- **Transport** (`INTERFACE`, `transport.dfy`).
  - `read_register` retries up to three times with a 10 ms wait after
    each failure. `write_register` makes one attempt.
  - The 8- and 16-bit accessors are big-endian.
  - The I2C bus (`bus.dfy`) is an oracle: a script gives each bus call's
    status and bytes, and every read, write and delay is appended to a
    trace.
  - Each transport call also records one `Transfer` in a log, which is
    how the group operations are specified.
- **Functional groups** (`Config`, `STATUS` and `CTRL`, in `config.dfy`,
  `status.dfy` and `ctrl.dfy`, on top of the common vocabulary in
  `groups.dfy`).
  - The per-register getters and setters, the bulk operations over a fixed
    register order that stop at the first failure, device detection, and
    the two read-modify-write commands.
- **Start-up configuration** (`load_config_from_kconfig`, `defaults.dfy`).
  - The build settings are a `Kconfig` parameter, and every register byte
    the builder produces is stated exactly.
- **Manager** (`BQ2579XManager`, `manager.dfy`).
  - A class with the `ready_` flag and the register images of the three
    groups.
  - Detection with up to ten attempts, the readiness guard on every
    operation, `init_device`, `get_measurements`, and one pass of the
    alert task's loop.

The C++ objects share one bus through references. The register classes
and the manager are Dafny classes whose fields change in place: every
`SetRaw`, `SetValue` and `SetValues` assigns its register's `raw`, and the
manager's methods assign its fields. The three groups and the transport
are passed as values instead: the transport (`Interface`: the bus oracle
and the transfer log) and each group's register image go into every group
method, which returns the new ones.

Where the code and the driver's written description disagree, the model
follows the code:

- A minimal system voltage above range saturates at 16000 mV, which is code
  0x36 (`VsysminSaturates`), not 0x3F.
- The precharge and OTG currents are masked, not clamped, so large requests
  wrap (`PrechargeWraps`, `IotgWraps`).
- `InputCurrentLimitRegister::get_value` returns `raw_ * 10` as a 16-bit
  value, which wraps for words the device never holds
  (`IindpmReadingWraps`).
- `ChargerMask1Register::set_raw` masks with 0xF7. This clears bit 3 only,
  so reserved bit 5 survives a read, even though the header comment names
  both bits as reserved.
- IBUS is returned unsigned, and the die temperature is truncated to 16
  bits (`TdieReadingWraps`).
- `get_measurements` issues the ADC-enable command before its readiness
  check, so it touches the bus even when no charger has been detected.

## Model

| member | source | states |
|---|---|---|
| ControlTypes.VBATLowThreshold.Code | include/config/bq2579x-config_control_types.hpp:18-24 | each enumerator's value fits the 2-bit field |
| ControlTypes.VBATLowThresholdOf | include/config/bq2579x-config_control_types.hpp:18-24 | every 2-bit pattern names the enumerator whose value it is, so decoding never leaves the enum |
| ControlTypes.CellCount.Code | include/config/bq2579x-config_control_types.hpp:79-85 | each enumerator's value fits the 2-bit field |
| ControlTypes.CellCountOf | include/config/bq2579x-config_control_types.hpp:79-85 | every 2-bit pattern names the enumerator whose value it is, so decoding never leaves the enum |
| ControlTypes.DeglitchTime.Code | include/config/bq2579x-config_control_types.hpp:87-93 | each enumerator's value fits the 2-bit field |
| ControlTypes.DeglitchTimeOf | include/config/bq2579x-config_control_types.hpp:87-93 | every 2-bit pattern names the enumerator whose value it is, so decoding never leaves the enum |
| ControlTypes.TopOffTimer.Code | include/config/bq2579x-config_control_types.hpp:122-128 | each enumerator's value fits the 2-bit field |
| ControlTypes.TopOffTimerOf | include/config/bq2579x-config_control_types.hpp:122-128 | every 2-bit pattern names the enumerator whose value it is, so decoding never leaves the enum |
| ControlTypes.ChargeTimer.Code | include/config/bq2579x-config_control_types.hpp:130-136 | each enumerator's value fits the 2-bit field |
| ControlTypes.ChargeTimerOf | include/config/bq2579x-config_control_types.hpp:130-136 | every 2-bit pattern names the enumerator whose value it is, so decoding never leaves the enum |
| ControlTypes.VOCPct.Code | include/config/bq2579x-config_control_types.hpp:168-178 | each enumerator's value fits the 3-bit field |
| ControlTypes.VOCPctOf | include/config/bq2579x-config_control_types.hpp:168-178 | every 3-bit pattern names the enumerator whose value it is, so decoding never leaves the enum |
| ControlTypes.VOCDelay.Code | include/config/bq2579x-config_control_types.hpp:180-186 | each enumerator's value fits the 2-bit field |
| ControlTypes.VOCDelayOf | include/config/bq2579x-config_control_types.hpp:180-186 | every 2-bit pattern names the enumerator whose value it is, so decoding never leaves the enum |
| ControlTypes.VOCRate.Code | include/config/bq2579x-config_control_types.hpp:188-194 | each enumerator's value fits the 2-bit field |
| ControlTypes.VOCRateOf | include/config/bq2579x-config_control_types.hpp:188-194 | every 2-bit pattern names the enumerator whose value it is, so decoding never leaves the enum |
| ControlTypes.ThermalRegulation.Code | include/config/bq2579x-config_control_types.hpp:224-230 | each enumerator's value fits the 2-bit field |
| ControlTypes.ThermalRegulationOf | include/config/bq2579x-config_control_types.hpp:224-230 | every 2-bit pattern names the enumerator whose value it is, so decoding never leaves the enum |
| ControlTypes.ThermalShutdown.Code | include/config/bq2579x-config_control_types.hpp:232-238 | each enumerator's value fits the 2-bit field |
| ControlTypes.ThermalShutdownOf | include/config/bq2579x-config_control_types.hpp:232-238 | every 2-bit pattern names the enumerator whose value it is, so decoding never leaves the enum |
| ControlTypes.OutputLevel.Code | include/config/bq2579x-config_control_types.hpp:270-280 | each enumerator's value fits the 3-bit field |
| ControlTypes.OutputLevelOf | include/config/bq2579x-config_control_types.hpp:270-280 | every 3-bit pattern names the enumerator whose value it is, so decoding never leaves the enum |
| ControlTypes.PackPrecharge | src/config/bq2579x-config_control_types.cpp:9-11 | decoding the packed byte gives back the values, except that precharge_current_ma is reduced to its 6-bit field of 40-unit steps (wrapping, not saturating) |
| ControlTypes.PrechargeRepack | src/config/bq2579x-config_control_types.cpp:17-18 | packing the decoded fields of any byte gives back the byte |
| ControlTypes.PrechargeExactRoundTrip | src/config/bq2579x-config_control_types.cpp:9-18 | values whose precharge_current_ma is a multiple of 40 up to 2520 decode back unchanged |
| ControlTypes.PrechargeWraps | src/config/bq2579x-config_control_types.cpp:9-11 | precharge_current_ma wraps modulo 2560 instead of saturating |
| ControlTypes.DefaultPrechargePacks | include/config/bq2579x-config_control_types.hpp:26-30 | the default `Values` pack to 0xC3 |
| ControlTypes.PrechargeControlRegister.constructor | include/config/bq2579x-config_control_types.hpp:43 | a new register holds 0 |
| ControlTypes.PrechargeControlRegister.SetRaw | include/config/bq2579x-config_control_types.hpp:35 | stores the byte unchanged |
| ControlTypes.PrechargeControlRegister.SetValues | src/config/bq2579x-config_control_types.cpp:7-12 | stores the packed byte |
| ControlTypes.PackTermination | src/config/bq2579x-config_control_types.cpp:60-63 | decoding the packed byte gives back the values, except that iterm_ma is reduced to its 5-bit field of 40-unit steps (wrapping, not saturating); unused bit 7 always zero |
| ControlTypes.TerminationRepack | src/config/bq2579x-config_control_types.cpp:69-71 | packing the decoded fields of any byte gives back the byte with its unused bit 7 cleared |
| ControlTypes.TerminationExactRoundTrip | src/config/bq2579x-config_control_types.cpp:60-71 | values whose iterm_ma is a multiple of 40 up to 1240 decode back unchanged |
| ControlTypes.TerminationWraps | src/config/bq2579x-config_control_types.cpp:60-63 | iterm_ma wraps modulo 1280 instead of saturating |
| ControlTypes.DefaultTerminationPacks | include/config/bq2579x-config_control_types.hpp:52-57 | the default `Values` pack to 0x05 |
| ControlTypes.TerminationControlRegister.constructor | include/config/bq2579x-config_control_types.hpp:70 | a new register holds 0 |
| ControlTypes.TerminationControlRegister.SetRaw | include/config/bq2579x-config_control_types.hpp:62 | stores the byte unchanged |
| ControlTypes.TerminationControlRegister.SetValues | src/config/bq2579x-config_control_types.cpp:58-64 | stores the packed byte |
| ControlTypes.PackRecharge | src/config/bq2579x-config_control_types.cpp:98-101 | decoding the packed byte gives back the values, except that vrechg_offset_mv is reduced to its 4-bit field of 50-unit steps (wrapping, not saturating) |
| ControlTypes.RechargeRepack | src/config/bq2579x-config_control_types.cpp:107-109 | packing the decoded fields of any byte gives back the byte |
| ControlTypes.RechargeExactRoundTrip | src/config/bq2579x-config_control_types.cpp:98-109 | values whose vrechg_offset_mv is a multiple of 50 up to 750 decode back unchanged |
| ControlTypes.RechargeWraps | src/config/bq2579x-config_control_types.cpp:98-101 | vrechg_offset_mv wraps modulo 800 instead of saturating |
| ControlTypes.DefaultRechargePacks | include/config/bq2579x-config_control_types.hpp:95-100 | the default `Values` pack to 0xE4 |
| ControlTypes.RechargeControlRegister.constructor | include/config/bq2579x-config_control_types.hpp:113 | a new register holds 0 |
| ControlTypes.RechargeControlRegister.SetRaw | include/config/bq2579x-config_control_types.hpp:105 | stores the byte unchanged |
| ControlTypes.RechargeControlRegister.SetValues | src/config/bq2579x-config_control_types.cpp:96-102 | stores the packed byte |
| ControlTypes.PackTimer | src/config/bq2579x-config_control_types.cpp:167 | decoding the packed byte gives back the values |
| ControlTypes.TimerRepack | src/config/bq2579x-config_control_types.cpp:173-178 | packing the decoded fields of any byte gives back the byte |
| ControlTypes.DefaultTimerPacks | include/config/bq2579x-config_control_types.hpp:138-146 | the default `Values` pack to 0x3D |
| ControlTypes.TimerControlRegister.constructor | include/config/bq2579x-config_control_types.hpp:159 | a new register holds 0 |
| ControlTypes.TimerControlRegister.SetRaw | include/config/bq2579x-config_control_types.hpp:151 | stores the byte unchanged |
| ControlTypes.TimerControlRegister.SetValues | src/config/bq2579x-config_control_types.cpp:165-168 | stores the packed byte |
| ControlTypes.PackMppt | src/config/bq2579x-config_control_types.cpp:246 | decoding the packed byte gives back the values |
| ControlTypes.MpptRepack | src/config/bq2579x-config_control_types.cpp:252-255 | packing the decoded fields of any byte gives back the byte |
| ControlTypes.DefaultMpptPacks | include/config/bq2579x-config_control_types.hpp:196-202 | the default `Values` pack to 0xAA |
| ControlTypes.MPPTControlRegister.constructor | include/config/bq2579x-config_control_types.hpp:215 | a new register holds 0 |
| ControlTypes.MPPTControlRegister.SetRaw | include/config/bq2579x-config_control_types.hpp:207 | stores the byte unchanged |
| ControlTypes.MPPTControlRegister.SetValues | src/config/bq2579x-config_control_types.cpp:244-247 | stores the packed byte |
| ControlTypes.PackTemperature | src/config/bq2579x-config_control_types.cpp:345 | decoding the packed byte gives back the values |
| ControlTypes.TemperatureRepack | src/config/bq2579x-config_control_types.cpp:351-356 | packing the decoded fields of any byte gives back the byte |
| ControlTypes.DefaultTemperaturePacks | include/config/bq2579x-config_control_types.hpp:240-248 | the default `Values` pack to 0xC0 |
| ControlTypes.TemperatureControlRegister.constructor | include/config/bq2579x-config_control_types.hpp:261 | a new register holds 0 |
| ControlTypes.TemperatureControlRegister.SetRaw | include/config/bq2579x-config_control_types.hpp:253 | stores the byte unchanged |
| ControlTypes.TemperatureControlRegister.SetValues | src/config/bq2579x-config_control_types.cpp:343-346 | stores the packed byte |
| ControlTypes.PackDpdm | src/config/bq2579x-config_control_types.cpp:426-427 | decoding the packed byte gives back the values; unused bits 1:0 always zero |
| ControlTypes.DpdmRepack | src/config/bq2579x-config_control_types.cpp:433-434 | packing the decoded fields of any byte gives back the byte with its unused bits 1:0 cleared |
| ControlTypes.DefaultDpdmPacks | include/config/bq2579x-config_control_types.hpp:282-286 | the default `Values` pack to 0x00 |
| ControlTypes.DPDMDriverRegister.constructor | include/config/bq2579x-config_control_types.hpp:299 | a new register holds 0 |
| ControlTypes.DPDMDriverRegister.SetRaw | include/config/bq2579x-config_control_types.hpp:291 | stores the byte with bits 1:0 cleared (mask 0xFC) |
| ControlTypes.DPDMDriverRegister.SetValues | src/config/bq2579x-config_control_types.cpp:424-428 | stores the packed byte |
| ChargerTypes.VBUSBackupRatio.Code | include/config/bq2579x-config_control_charger_types.hpp:46-52 | each enumerator's value fits the 2-bit field |
| ChargerTypes.VBUSBackupRatioOf | include/config/bq2579x-config_control_charger_types.hpp:46-52 | every 2-bit pattern names the enumerator whose value it is, so decoding never leaves the enum |
| ChargerTypes.VACOVPThreshold.Code | include/config/bq2579x-config_control_charger_types.hpp:54-60 | each enumerator's value fits the 2-bit field |
| ChargerTypes.VACOVPThresholdOf | include/config/bq2579x-config_control_charger_types.hpp:54-60 | every 2-bit pattern names the enumerator whose value it is, so decoding never leaves the enum |
| ChargerTypes.WatchdogTimeout.Code | include/config/bq2579x-config_control_charger_types.hpp:62-72 | each enumerator's value fits the 3-bit field |
| ChargerTypes.WatchdogTimeoutOf | include/config/bq2579x-config_control_charger_types.hpp:62-72 | every 3-bit pattern names the enumerator whose value it is, so decoding never leaves the enum |
| ChargerTypes.SFETControl.Code | include/config/bq2579x-config_control_charger_types.hpp:102-108 | each enumerator's value fits the 2-bit field |
| ChargerTypes.SFETControlOf | include/config/bq2579x-config_control_charger_types.hpp:102-108 | every 2-bit pattern names the enumerator whose value it is, so decoding never leaves the enum |
| ChargerTypes.IBATRegulation.Code | include/config/bq2579x-config_control_charger_types.hpp:205-211 | each enumerator's value fits the 2-bit field |
| ChargerTypes.IBATRegulationOf | include/config/bq2579x-config_control_charger_types.hpp:205-211 | every 2-bit pattern names the enumerator whose value it is, so decoding never leaves the enum |
| ChargerTypes.PackChargerControl0 | src/config/bq2579x-config_control_charger_types.cpp:8 | decoding the packed byte gives back the values |
| ChargerTypes.ChargerControl0Repack | src/config/bq2579x-config_control_charger_types.cpp:14-21 | packing the decoded fields of any byte gives back the byte |
| ChargerTypes.DefaultChargerControl0Packs | include/config/bq2579x-config_control_charger_types.hpp:14-24 | the default `Values` pack to 0xA2 |
| ChargerTypes.ChargerControl0Register.constructor | include/config/bq2579x-config_control_charger_types.hpp:37 | a new register holds 0 |
| ChargerTypes.ChargerControl0Register.SetRaw | include/config/bq2579x-config_control_charger_types.hpp:29 | stores the byte unchanged |
| ChargerTypes.ChargerControl0Register.SetValues | src/config/bq2579x-config_control_charger_types.cpp:6-9 | stores the packed byte |
| ChargerTypes.PackChargerControl1 | src/config/bq2579x-config_control_charger_types.cpp:27 | decoding the packed byte gives back the values |
| ChargerTypes.ChargerControl1Repack | src/config/bq2579x-config_control_charger_types.cpp:63-66 | packing the decoded fields of any byte gives back the byte |
| ChargerTypes.DefaultChargerControl1Packs | include/config/bq2579x-config_control_charger_types.hpp:74-80 | the default `Values` pack to 0x85 |
| ChargerTypes.ChargerControl1Register.constructor | include/config/bq2579x-config_control_charger_types.hpp:93 | a new register holds 0 |
| ChargerTypes.ChargerControl1Register.SetRaw | include/config/bq2579x-config_control_charger_types.hpp:85 | stores the byte unchanged |
| ChargerTypes.ChargerControl1Register.SetValues | src/config/bq2579x-config_control_charger_types.cpp:25-28 | stores the packed byte |
| ChargerTypes.PackChargerControl2 | src/config/bq2579x-config_control_charger_types.cpp:156 | decoding the packed byte gives back the values |
| ChargerTypes.ChargerControl2Repack | src/config/bq2579x-config_control_charger_types.cpp:162-168 | packing the decoded fields of any byte gives back the byte |
| ChargerTypes.DefaultChargerControl2Packs | include/config/bq2579x-config_control_charger_types.hpp:110-119 | the default `Values` pack to 0x40 |
| ChargerTypes.ChargerControl2Register.constructor | include/config/bq2579x-config_control_charger_types.hpp:132 | a new register holds 0 |
| ChargerTypes.ChargerControl2Register.SetRaw | include/config/bq2579x-config_control_charger_types.hpp:124 | stores the byte unchanged |
| ChargerTypes.ChargerControl2Register.SetValues | src/config/bq2579x-config_control_charger_types.cpp:154-157 | stores the packed byte |
| ChargerTypes.PackChargerControl3 | src/config/bq2579x-config_control_charger_types.cpp:222 | decoding the packed byte gives back the values |
| ChargerTypes.ChargerControl3Repack | src/config/bq2579x-config_control_charger_types.cpp:228-235 | packing the decoded fields of any byte gives back the byte |
| ChargerTypes.DefaultChargerControl3Packs | include/config/bq2579x-config_control_charger_types.hpp:141-151 | the default `Values` pack to 0x00 |
| ChargerTypes.ChargerControl3Register.constructor | include/config/bq2579x-config_control_charger_types.hpp:164 | a new register holds 0 |
| ChargerTypes.ChargerControl3Register.SetRaw | include/config/bq2579x-config_control_charger_types.hpp:156 | stores the byte unchanged |
| ChargerTypes.ChargerControl3Register.SetValues | src/config/bq2579x-config_control_charger_types.cpp:220-223 | stores the packed byte |
| ChargerTypes.PackChargerControl4 | src/config/bq2579x-config_control_charger_types.cpp:275 | decoding the packed byte gives back the values |
| ChargerTypes.ChargerControl4Repack | src/config/bq2579x-config_control_charger_types.cpp:281-288 | packing the decoded fields of any byte gives back the byte |
| ChargerTypes.DefaultChargerControl4Packs | include/config/bq2579x-config_control_charger_types.hpp:173-183 | the default `Values` pack to 0x01 |
| ChargerTypes.ChargerControl4Register.constructor | include/config/bq2579x-config_control_charger_types.hpp:196 | a new register holds 0 |
| ChargerTypes.ChargerControl4Register.SetRaw | include/config/bq2579x-config_control_charger_types.hpp:188 | stores the byte unchanged |
| ChargerTypes.ChargerControl4Register.SetValues | src/config/bq2579x-config_control_charger_types.cpp:273-276 | stores the packed byte |
| ChargerTypes.PackChargerControl5 | src/config/bq2579x-config_control_charger_types.cpp:326 | decoding the packed byte gives back the values; unused bit 6 always zero |
| ChargerTypes.ChargerControl5Repack | src/config/bq2579x-config_control_charger_types.cpp:332-337 | packing the decoded fields of any byte gives back the byte with its unused bit 6 cleared |
| ChargerTypes.DefaultChargerControl5Packs | include/config/bq2579x-config_control_charger_types.hpp:213-221 | the default `Values` pack to 0x1E |
| ChargerTypes.ChargerControl5Register.constructor | include/config/bq2579x-config_control_charger_types.hpp:234 | a new register holds 0 |
| ChargerTypes.ChargerControl5Register.SetRaw | include/config/bq2579x-config_control_charger_types.hpp:226 | stores the byte unchanged |
| ChargerTypes.ChargerControl5Register.SetValues | src/config/bq2579x-config_control_charger_types.cpp:324-327 | stores the packed byte |
| NtcTypes.JEITAVoltage.Code | include/config/bq2579x-config_control_ntc_types.hpp:14-24 | each enumerator's value fits the 3-bit field |
| NtcTypes.JEITAVoltageOf | include/config/bq2579x-config_control_ntc_types.hpp:14-24 | every 3-bit pattern names the enumerator whose value it is, so decoding never leaves the enum |
| NtcTypes.JEITACurrent.Code | include/config/bq2579x-config_control_ntc_types.hpp:26-32 | each enumerator's value fits the 2-bit field |
| NtcTypes.JEITACurrentOf | include/config/bq2579x-config_control_ntc_types.hpp:26-32 | every 2-bit pattern names the enumerator whose value it is, so decoding never leaves the enum |
| NtcTypes.TSCOOL.Code | include/config/bq2579x-config_control_ntc_types.hpp:61-67 | each enumerator's value fits the 2-bit field |
| NtcTypes.TSCOOLOf | include/config/bq2579x-config_control_ntc_types.hpp:61-67 | every 2-bit pattern names the enumerator whose value it is, so decoding never leaves the enum |
| NtcTypes.TSWARM.Code | include/config/bq2579x-config_control_ntc_types.hpp:69-75 | each enumerator's value fits the 2-bit field |
| NtcTypes.TSWARMOf | include/config/bq2579x-config_control_ntc_types.hpp:69-75 | every 2-bit pattern names the enumerator whose value it is, so decoding never leaves the enum |
| NtcTypes.BHOT.Code | include/config/bq2579x-config_control_ntc_types.hpp:77-83 | each enumerator's value fits the 2-bit field |
| NtcTypes.BHOTOf | include/config/bq2579x-config_control_ntc_types.hpp:77-83 | every 2-bit pattern names the enumerator whose value it is, so decoding never leaves the enum |
| NtcTypes.BCOLD.Code | include/config/bq2579x-config_control_ntc_types.hpp:85-89 | each enumerator's value fits the 1-bit field |
| NtcTypes.BCOLDOf | include/config/bq2579x-config_control_ntc_types.hpp:85-89 | every 1-bit pattern names the enumerator whose value it is, so decoding never leaves the enum |
| NtcTypes.PackNtcControl0 | src/config/bq2579x-config_control_ntc_types.cpp:8 | decoding the packed byte gives back the values; unused bit 0 always zero |
| NtcTypes.NtcControl0Repack | src/config/bq2579x-config_control_ntc_types.cpp:14-16 | packing the decoded fields of any byte gives back the byte with its unused bit 0 cleared |
| NtcTypes.DefaultNtcControl0Packs | include/config/bq2579x-config_control_ntc_types.hpp:34-39 | the default `Values` pack to 0x7A |
| NtcTypes.NTCControl0Register.constructor | include/config/bq2579x-config_control_ntc_types.hpp:52 | a new register holds 0 |
| NtcTypes.NTCControl0Register.SetRaw | include/config/bq2579x-config_control_ntc_types.hpp:44 | stores the byte with bit 0 cleared (mask 0xFE) |
| NtcTypes.NTCControl0Register.SetValues | src/config/bq2579x-config_control_ntc_types.cpp:6-9 | stores the packed byte |
| NtcTypes.PackNtcControl1 | src/config/bq2579x-config_control_ntc_types.cpp:86 | decoding the packed byte gives back the values |
| NtcTypes.NtcControl1Repack | src/config/bq2579x-config_control_ntc_types.cpp:92-96 | packing the decoded fields of any byte gives back the byte |
| NtcTypes.DefaultNtcControl1Packs | include/config/bq2579x-config_control_ntc_types.hpp:91-98 | the default `Values` pack to 0x54 |
| NtcTypes.NTCControl1Register.constructor | include/config/bq2579x-config_control_ntc_types.hpp:111 | a new register holds 0 |
| NtcTypes.NTCControl1Register.SetRaw | include/config/bq2579x-config_control_ntc_types.hpp:103 | stores the byte unchanged |
| NtcTypes.NTCControl1Register.SetValues | src/config/bq2579x-config_control_ntc_types.cpp:84-87 | stores the packed byte |
| MaskTypes.PackChargerMask0 | src/config/bq2579x-config_mask_types.cpp:9 | decoding the packed byte gives back the values |
| MaskTypes.ChargerMask0Repack | src/config/bq2579x-config_mask_types.cpp:15-22 | packing the decoded fields of any byte gives back the byte |
| MaskTypes.DefaultChargerMask0Packs | include/config/bq2579x-config_mask_types.hpp:14-24 | the default `Values` pack to 0x00 |
| MaskTypes.ChargerMask0Register.constructor | include/config/bq2579x-config_mask_types.hpp:37 | a new register holds 0 |
| MaskTypes.ChargerMask0Register.SetRaw | include/config/bq2579x-config_mask_types.hpp:29 | stores the byte unchanged |
| MaskTypes.ChargerMask0Register.SetValues | src/config/bq2579x-config_mask_types.cpp:7-10 | stores the packed byte |
| MaskTypes.PackChargerMask1 | src/config/bq2579x-config_mask_types.cpp:28 | decoding the packed byte gives back the values; unused bits 5 and 3 always zero |
| MaskTypes.ChargerMask1Repack | src/config/bq2579x-config_mask_types.cpp:58-63 | packing the decoded fields of any byte gives back the byte with its unused bits 5 and 3 cleared |
| MaskTypes.DefaultChargerMask1Packs | include/config/bq2579x-config_mask_types.hpp:46-54 | the default `Values` pack to 0x00 |
| MaskTypes.ChargerMask1Register.constructor | include/config/bq2579x-config_mask_types.hpp:67 | a new register holds 0 |
| MaskTypes.ChargerMask1Register.SetRaw | include/config/bq2579x-config_mask_types.hpp:59 | stores the byte with bit 3 cleared (mask 0xF7) |
| MaskTypes.ChargerMask1Register.SetValues | src/config/bq2579x-config_mask_types.cpp:26-29 | stores the packed byte |
| MaskTypes.PackChargerMask2 | src/config/bq2579x-config_mask_types.cpp:69 | decoding the packed byte gives back the values; unused bit 7 always zero |
| MaskTypes.ChargerMask2Repack | src/config/bq2579x-config_mask_types.cpp:97-103 | packing the decoded fields of any byte gives back the byte with its unused bit 7 cleared |
| MaskTypes.DefaultChargerMask2Packs | include/config/bq2579x-config_mask_types.hpp:76-85 | the default `Values` pack to 0x00 |
| MaskTypes.ChargerMask2Register.constructor | include/config/bq2579x-config_mask_types.hpp:98 | a new register holds 0 |
| MaskTypes.ChargerMask2Register.SetRaw | include/config/bq2579x-config_mask_types.hpp:90 | stores the byte with bit 7 cleared (mask 0x7F) |
| MaskTypes.ChargerMask2Register.SetValues | src/config/bq2579x-config_mask_types.cpp:67-70 | stores the packed byte |
| MaskTypes.PackChargerMask3 | src/config/bq2579x-config_mask_types.cpp:109 | decoding the packed byte gives back the values; unused bits 7:5 always zero |
| MaskTypes.ChargerMask3Repack | src/config/bq2579x-config_mask_types.cpp:138-142 | packing the decoded fields of any byte gives back the byte with its unused bits 7:5 cleared |
| MaskTypes.DefaultChargerMask3Packs | include/config/bq2579x-config_mask_types.hpp:107-114 | the default `Values` pack to 0x00 |
| MaskTypes.ChargerMask3Register.constructor | include/config/bq2579x-config_mask_types.hpp:127 | a new register holds 0 |
| MaskTypes.ChargerMask3Register.SetRaw | include/config/bq2579x-config_mask_types.hpp:119 | stores the byte with bits 7:5 cleared (mask 0x1F) |
| MaskTypes.ChargerMask3Register.SetValues | src/config/bq2579x-config_mask_types.cpp:107-110 | stores the packed byte |
| MaskTypes.PackFaultMask0 | src/config/bq2579x-config_mask_types.cpp:169 | decoding the packed byte gives back the values |
| MaskTypes.FaultMask0Repack | src/config/bq2579x-config_mask_types.cpp:175-182 | packing the decoded fields of any byte gives back the byte |
| MaskTypes.DefaultFaultMask0Packs | include/config/bq2579x-config_mask_types.hpp:136-146 | the default `Values` pack to 0x00 |
| MaskTypes.FaultMask0Register.constructor | include/config/bq2579x-config_mask_types.hpp:159 | a new register holds 0 |
| MaskTypes.FaultMask0Register.SetRaw | include/config/bq2579x-config_mask_types.hpp:151 | stores the byte unchanged |
| MaskTypes.FaultMask0Register.SetValues | src/config/bq2579x-config_mask_types.cpp:167-170 | stores the packed byte |
| MaskTypes.PackFaultMask1 | src/config/bq2579x-config_mask_types.cpp:212 | decoding the packed byte gives back the values; unused bits 3, 1 and 0 always zero |
| MaskTypes.FaultMask1Repack | src/config/bq2579x-config_mask_types.cpp:219-223 | packing the decoded fields of any byte gives back the byte with its unused bits 3, 1 and 0 cleared |
| MaskTypes.DefaultFaultMask1Packs | include/config/bq2579x-config_mask_types.hpp:168-175 | the default `Values` pack to 0x00 |
| MaskTypes.FaultMask1Register.constructor | include/config/bq2579x-config_mask_types.hpp:188 | a new register holds 0 |
| MaskTypes.FaultMask1Register.SetRaw | include/config/bq2579x-config_mask_types.hpp:180 | stores the byte with bits 3, 1 and 0 cleared (mask 0xF4) |
| MaskTypes.FaultMask1Register.SetValues | src/config/bq2579x-config_mask_types.cpp:210-214 | stores the packed byte |
| AdcTypes.ADCSampleResolution.Code | include/config/bq2579x-config_adc_types.hpp:14-20 | each enumerator's value fits the 2-bit field |
| AdcTypes.ADCSampleResolutionOf | include/config/bq2579x-config_adc_types.hpp:14-20 | every 2-bit pattern names the enumerator whose value it is, so decoding never leaves the enum |
| AdcTypes.PackAdcControl | src/config/bq2579x-config_adc_types.cpp:25 | decoding the packed byte gives back the values; unused bits 1:0 always zero |
| AdcTypes.AdcControlRepack | src/config/bq2579x-config_adc_types.cpp:31-35 | packing the decoded fields of any byte gives back the byte with its unused bits 1:0 cleared |
| AdcTypes.DefaultAdcControlPacks | include/config/bq2579x-config_adc_types.hpp:22-29 | the default `Values` pack to 0x00 |
| AdcTypes.ADCControlRegister.constructor | include/config/bq2579x-config_adc_types.hpp:42 | a new register holds 0 |
| AdcTypes.ADCControlRegister.SetRaw | include/config/bq2579x-config_adc_types.hpp:34 | stores the byte with bits 1:0 cleared (mask 0xFC) |
| AdcTypes.ADCControlRegister.SetValues | src/config/bq2579x-config_adc_types.cpp:23-26 | stores the packed byte |
| AdcTypes.PackAdcFunctionDisable0 | src/config/bq2579x-config_adc_types.cpp:66 | decoding the packed byte gives back the values; unused bit 0 always zero |
| AdcTypes.AdcFunctionDisable0Repack | src/config/bq2579x-config_adc_types.cpp:73-79 | packing the decoded fields of any byte gives back the byte with its unused bit 0 cleared |
| AdcTypes.DefaultAdcFunctionDisable0Packs | include/config/bq2579x-config_adc_types.hpp:51-60 | the default `Values` pack to 0x00 |
| AdcTypes.ADCFunctionDisable0Register.constructor | include/config/bq2579x-config_adc_types.hpp:73 | a new register holds 0 |
| AdcTypes.ADCFunctionDisable0Register.SetRaw | include/config/bq2579x-config_adc_types.hpp:65 | stores the byte with bit 0 cleared (mask 0xFE) |
| AdcTypes.ADCFunctionDisable0Register.SetValues | src/config/bq2579x-config_adc_types.cpp:64-68 | stores the packed byte |
| AdcTypes.PackAdcFunctionDisable1 | src/config/bq2579x-config_adc_types.cpp:114 | decoding the packed byte gives back the values; unused bits 3:0 always zero |
| AdcTypes.AdcFunctionDisable1Repack | src/config/bq2579x-config_adc_types.cpp:121-124 | packing the decoded fields of any byte gives back the byte with its unused bits 3:0 cleared |
| AdcTypes.DefaultAdcFunctionDisable1Packs | include/config/bq2579x-config_adc_types.hpp:82-88 | the default `Values` pack to 0x00 |
| AdcTypes.ADCFunctionDisable1Register.constructor | include/config/bq2579x-config_adc_types.hpp:101 | a new register holds 0 |
| AdcTypes.ADCFunctionDisable1Register.SetRaw | include/config/bq2579x-config_adc_types.hpp:93 | stores the byte with bits 3:0 cleared (mask 0xF0) |
| AdcTypes.ADCFunctionDisable1Register.SetValues | src/config/bq2579x-config_adc_types.cpp:112-116 | stores the packed byte |
| StatusTypes.ChargeStatus.Code | include/status/bq2579x-status_types.hpp:45-55 | each enumerator's value fits the 3-bit field |
| StatusTypes.ChargeStatusOf | include/status/bq2579x-status_types.hpp:45-55 | every 3-bit pattern names the enumerator whose value it is, so decoding never leaves the enum |
| StatusTypes.VbusStatus.Code | include/status/bq2579x-status_types.hpp:57-75 | each enumerator's value fits the 4-bit field |
| StatusTypes.VbusStatusOf | include/status/bq2579x-status_types.hpp:57-75 | every 4-bit pattern names the enumerator whose value it is, so decoding never leaves the enum |
| StatusTypes.ICOStatus.Code | include/status/bq2579x-status_types.hpp:103-109 | each enumerator's value fits the 2-bit field |
| StatusTypes.ICOStatusOf | include/status/bq2579x-status_types.hpp:103-109 | every 2-bit pattern names the enumerator whose value it is, so decoding never leaves the enum |
| StatusTypes.EncodeChargerStatus0 | src/status/bq2579x-status_types.cpp:11-17 | the decoder inverts it: every `Values` is the decoding of some byte, one whose undecoded bit 4 is clear |
| StatusTypes.ChargerStatus0Reencode | src/status/bq2579x-status_types.cpp:11-17 | decoding keeps exactly the bits outside bit 4 |
| StatusTypes.ChargerStatus0DecodesAlike | src/status/bq2579x-status_types.cpp:11-17 | two bytes decode equally iff they agree outside the ignored bit 4 |
| StatusTypes.ChargerStatus0Register.constructor | include/status/bq2579x-status_types.hpp:36 | a new register holds 0 |
| StatusTypes.ChargerStatus0Register.SetRaw | include/status/bq2579x-status_types.hpp:28 | stores the byte unmasked |
| StatusTypes.EncodeChargerStatus1 | src/status/bq2579x-status_types.cpp:70-72 | the decoder inverts it: every `Values` is the decoding of some byte |
| StatusTypes.ChargerStatus1Reencode | src/status/bq2579x-status_types.cpp:70-72 | decoding keeps every bit |
| StatusTypes.ChargerStatus1DecodesAlike | src/status/bq2579x-status_types.cpp:70-72 | two bytes decode equally iff they are equal (the decoder is injective) |
| StatusTypes.ChargerStatus1Register.constructor | include/status/bq2579x-status_types.hpp:94 | a new register holds 0 |
| StatusTypes.ChargerStatus1Register.SetRaw | include/status/bq2579x-status_types.hpp:86 | stores the byte unmasked |
| StatusTypes.EncodeChargerStatus2 | src/status/bq2579x-status_types.cpp:170-173 | the decoder inverts it: every `Values` is the decoding of some byte, one whose undecoded bits 5:3 are clear |
| StatusTypes.ChargerStatus2Reencode | src/status/bq2579x-status_types.cpp:170-173 | decoding keeps exactly the bits outside bits 5:3 |
| StatusTypes.ChargerStatus2DecodesAlike | src/status/bq2579x-status_types.cpp:170-173 | two bytes decode equally iff they agree outside the ignored bits 5:3 |
| StatusTypes.ChargerStatus2Register.constructor | include/status/bq2579x-status_types.hpp:129 | a new register holds 0 |
| StatusTypes.ChargerStatus2Register.SetRaw | include/status/bq2579x-status_types.hpp:121 | stores the byte unmasked |
| StatusTypes.EncodeChargerStatus3 | src/status/bq2579x-status_types.cpp:229-235 | the decoder inverts it: every `Values` is the decoding of some byte, one whose undecoded bit 0 is clear |
| StatusTypes.ChargerStatus3Reencode | src/status/bq2579x-status_types.cpp:229-235 | decoding keeps exactly the bits outside bit 0 |
| StatusTypes.ChargerStatus3DecodesAlike | src/status/bq2579x-status_types.cpp:229-235 | two bytes decode equally iff they agree outside the ignored bit 0 |
| StatusTypes.ChargerStatus3Register.constructor | include/status/bq2579x-status_types.hpp:159 | a new register holds 0 |
| StatusTypes.ChargerStatus3Register.SetRaw | include/status/bq2579x-status_types.hpp:151 | stores the byte unmasked |
| StatusTypes.EncodeChargerStatus4 | src/status/bq2579x-status_types.cpp:284-288 | the decoder inverts it: every `Values` is the decoding of some byte, one whose undecoded bits 7:5 are clear |
| StatusTypes.ChargerStatus4Reencode | src/status/bq2579x-status_types.cpp:284-288 | decoding keeps exactly the bits outside bits 7:5 |
| StatusTypes.ChargerStatus4DecodesAlike | src/status/bq2579x-status_types.cpp:284-288 | two bytes decode equally iff they agree outside the ignored bits 7:5 |
| StatusTypes.ChargerStatus4Register.constructor | include/status/bq2579x-status_types.hpp:187 | a new register holds 0 |
| StatusTypes.ChargerStatus4Register.SetRaw | include/status/bq2579x-status_types.hpp:179 | stores the byte unmasked |
| StatusTypes.EncodeFaultStatus0 | src/status/bq2579x-status_types.cpp:331-338 | the decoder inverts it: every `Values` is the decoding of some byte |
| StatusTypes.FaultStatus0Reencode | src/status/bq2579x-status_types.cpp:331-338 | decoding keeps every bit |
| StatusTypes.FaultStatus0DecodesAlike | src/status/bq2579x-status_types.cpp:331-338 | two bytes decode equally iff they are equal (the decoder is injective) |
| StatusTypes.FaultStatus0Register.constructor | include/status/bq2579x-status_types.hpp:218 | a new register holds 0 |
| StatusTypes.FaultStatus0Register.SetRaw | include/status/bq2579x-status_types.hpp:210 | stores the byte unmasked |
| StatusTypes.EncodeFaultStatus1 | src/status/bq2579x-status_types.cpp:390-394 | the decoder inverts it: every `Values` is the decoding of some byte, one whose undecoded bits 3, 1 and 0 are clear |
| StatusTypes.FaultStatus1Reencode | src/status/bq2579x-status_types.cpp:390-394 | decoding keeps exactly the bits outside bits 3, 1 and 0 |
| StatusTypes.FaultStatus1DecodesAlike | src/status/bq2579x-status_types.cpp:390-394 | two bytes decode equally iff they agree outside the ignored bits 3, 1 and 0 |
| StatusTypes.FaultStatus1Register.constructor | include/status/bq2579x-status_types.hpp:246 | a new register holds 0 |
| StatusTypes.FaultStatus1Register.SetRaw | include/status/bq2579x-status_types.hpp:238 | stores the byte unmasked |
| FlagTypes.EncodeChargerFlag0 | include/status/bq2579x-flags_types.hpp:30-37 | the decoder inverts it: every `Values` is the decoding of some byte |
| FlagTypes.ChargerFlag0Reencode | include/status/bq2579x-flags_types.hpp:30-37 | decoding keeps every bit |
| FlagTypes.ChargerFlag0DecodesAlike | include/status/bq2579x-flags_types.hpp:30-37 | two bytes decode equally iff they are equal (the decoder is injective) |
| FlagTypes.ChargerFlag0Register.constructor | include/status/bq2579x-flags_types.hpp:45 | a new register holds 0 |
| FlagTypes.ChargerFlag0Register.SetRaw | include/status/bq2579x-flags_types.hpp:41 | stores the byte unmasked |
| FlagTypes.EncodeChargerFlag1 | include/status/bq2579x-flags_types.hpp:67-72 | the decoder inverts it: every `Values` is the decoding of some byte, one whose undecoded bits 5 and 3 are clear |
| FlagTypes.ChargerFlag1Reencode | include/status/bq2579x-flags_types.hpp:67-72 | decoding keeps exactly the bits outside bits 5 and 3 |
| FlagTypes.ChargerFlag1DecodesAlike | include/status/bq2579x-flags_types.hpp:67-72 | two bytes decode equally iff they agree outside the ignored bits 5 and 3 |
| FlagTypes.ChargerFlag1Register.constructor | include/status/bq2579x-flags_types.hpp:80 | a new register holds 0 |
| FlagTypes.ChargerFlag1Register.SetRaw | include/status/bq2579x-flags_types.hpp:76 | stores the byte unmasked |
| FlagTypes.EncodeChargerFlag2 | include/status/bq2579x-flags_types.hpp:103-109 | the decoder inverts it: every `Values` is the decoding of some byte, one whose undecoded bit 7 is clear |
| FlagTypes.ChargerFlag2Reencode | include/status/bq2579x-flags_types.hpp:103-109 | decoding keeps exactly the bits outside bit 7 |
| FlagTypes.ChargerFlag2DecodesAlike | include/status/bq2579x-flags_types.hpp:103-109 | two bytes decode equally iff they agree outside the ignored bit 7 |
| FlagTypes.ChargerFlag2Register.constructor | include/status/bq2579x-flags_types.hpp:117 | a new register holds 0 |
| FlagTypes.ChargerFlag2Register.SetRaw | include/status/bq2579x-flags_types.hpp:113 | stores the byte unmasked |
| FlagTypes.EncodeChargerFlag3 | include/status/bq2579x-flags_types.hpp:138-142 | the decoder inverts it: every `Values` is the decoding of some byte, one whose undecoded bits 7:5 are clear |
| FlagTypes.ChargerFlag3Reencode | include/status/bq2579x-flags_types.hpp:138-142 | decoding keeps exactly the bits outside bits 7:5 |
| FlagTypes.ChargerFlag3DecodesAlike | include/status/bq2579x-flags_types.hpp:138-142 | two bytes decode equally iff they agree outside the ignored bits 7:5 |
| FlagTypes.ChargerFlag3Register.constructor | include/status/bq2579x-flags_types.hpp:150 | a new register holds 0 |
| FlagTypes.ChargerFlag3Register.SetRaw | include/status/bq2579x-flags_types.hpp:146 | stores the byte unmasked |
| FlagTypes.EncodeFaultFlag0 | include/status/bq2579x-flags_types.hpp:174-181 | the decoder inverts it: every `Values` is the decoding of some byte |
| FlagTypes.FaultFlag0Reencode | include/status/bq2579x-flags_types.hpp:174-181 | decoding keeps every bit |
| FlagTypes.FaultFlag0DecodesAlike | include/status/bq2579x-flags_types.hpp:174-181 | two bytes decode equally iff they are equal (the decoder is injective) |
| FlagTypes.FaultFlag0Register.constructor | include/status/bq2579x-flags_types.hpp:189 | a new register holds 0 |
| FlagTypes.FaultFlag0Register.SetRaw | include/status/bq2579x-flags_types.hpp:185 | stores the byte unmasked |
| FlagTypes.EncodeFaultFlag1 | include/status/bq2579x-flags_types.hpp:210-214 | the decoder inverts it: every `Values` is the decoding of some byte, one whose undecoded bits 3, 1 and 0 are clear |
| FlagTypes.FaultFlag1Reencode | include/status/bq2579x-flags_types.hpp:210-214 | decoding keeps exactly the bits outside bits 3, 1 and 0 |
| FlagTypes.FaultFlag1DecodesAlike | include/status/bq2579x-flags_types.hpp:210-214 | two bytes decode equally iff they agree outside the ignored bits 3, 1 and 0 |
| FlagTypes.FaultFlag1Register.constructor | include/status/bq2579x-flags_types.hpp:222 | a new register holds 0 |
| FlagTypes.FaultFlag1Register.SetRaw | include/status/bq2579x-flags_types.hpp:218 | stores the byte unmasked |
| LimitTypes.Clamp | src/config/bq2579x-config_limit_types.cpp:9-12 | the two `if`s of a clamped `set_value` give a value within [lo, hi], and leave a value already in range unchanged |
| LimitTypes.AtMost | src/config/bq2579x-config_limit_types.cpp:37-38 | the single `if` of a capped `set_value` gives a value no larger than the cap or the request, and leaves a request within the cap unchanged |
| LimitTypes.VsysminMv | src/config/bq2579x-config_limit_types.cpp:16-19 | a minimal system voltage read back is 2500 mV plus a whole number of 250 mV steps, at most 18250 mV |
| LimitTypes.VsysminCode | src/config/bq2579x-config_limit_types.cpp:7-14 | the stored code is at most 0x36 and reads back as the clamped request rounded down to a 250 mV step |
| LimitTypes.VsysminSaturates | src/config/bq2579x-config_limit_types.cpp:11-13 | a request above 16000 mV stores code 0x36, which reads back as 16000 mV |
| LimitTypes.VsysminCodeRoundTrip | src/config/bq2579x-config_limit_types.cpp:7-19 | every code up to 0x36 is stored again when its own voltage is set |
| LimitTypes.MinimalSystemVoltageRegister.constructor | include/config/bq2579x-config_limit_types.hpp:21 | a new register holds 0 |
| LimitTypes.MinimalSystemVoltageRegister.SetRaw | include/config/bq2579x-config_limit_types.hpp:17 | stores the byte unchanged |
| LimitTypes.MinimalSystemVoltageRegister.SetValue | src/config/bq2579x-config_limit_types.cpp:7-14 | stores the code of the clamped voltage |
| LimitTypes.VregMv | src/config/bq2579x-config_limit_types.cpp:30-33 | a charge voltage read back is a multiple of 10 mV of at most 20470 mV |
| LimitTypes.VregCode | src/config/bq2579x-config_limit_types.cpp:21-28 | the stored code lies in [300, 1880] and reads back as the request clamped to [3000, 18800] mV and rounded down to 10 mV |
| LimitTypes.VregExample | src/config/bq2579x-config_limit_types.cpp:21-33 | 4200 mV is code 0x01A4 and reads back as 4200 mV |
| LimitTypes.VregCodeRoundTrip | src/config/bq2579x-config_limit_types.cpp:21-33 | every code in [300, 1880] is stored again when its own voltage is set |
| LimitTypes.ChargeVoltageLimitRegister.constructor | include/config/bq2579x-config_limit_types.hpp:37 | a new register holds 0 |
| LimitTypes.ChargeVoltageLimitRegister.SetRaw | include/config/bq2579x-config_limit_types.hpp:33 | keeps only bits 10:0 of the word |
| LimitTypes.ChargeVoltageLimitRegister.SetValue | src/config/bq2579x-config_limit_types.cpp:21-28 | stores the code of the clamped voltage |
| LimitTypes.IchgMa | src/config/bq2579x-config_limit_types.cpp:42-45 | a charge current read back is a multiple of 10 mA of at most 10230 mA |
| LimitTypes.IchgCode | src/config/bq2579x-config_limit_types.cpp:35-40 | the stored code is at most 500 and reads back as the request capped at 5000 mA and rounded down to 10 mA |
| LimitTypes.IchgNoLowerClamp | src/config/bq2579x-config_limit_types.cpp:35-40 | with no lower bound a request of 0 mA stores code 0, and 5000 mA stores 500 |
| LimitTypes.ChargeCurrentLimitRegister.constructor | include/config/bq2579x-config_limit_types.hpp:53 | a new register holds 0 |
| LimitTypes.ChargeCurrentLimitRegister.SetRaw | include/config/bq2579x-config_limit_types.hpp:49 | keeps only bits 9:0 of the word |
| LimitTypes.ChargeCurrentLimitRegister.SetValue | src/config/bq2579x-config_limit_types.cpp:35-40 | stores the code of the capped current |
| LimitTypes.VindpmMv | src/config/bq2579x-config_limit_types.cpp:56-59 | an input voltage limit read back is a multiple of 100 mV of at most 25500 mV |
| LimitTypes.VindpmCode | src/config/bq2579x-config_limit_types.cpp:47-54 | the stored code lies in [36, 220], so it fits the byte, and reads back as the clamped request rounded down to 100 mV |
| LimitTypes.VindpmCodeRoundTrip | src/config/bq2579x-config_limit_types.cpp:47-59 | every code in [36, 220] is stored again when its own voltage is set |
| LimitTypes.InputVoltageLimitRegister.constructor | include/config/bq2579x-config_limit_types.hpp:69 | a new register holds 0 |
| LimitTypes.InputVoltageLimitRegister.SetRaw | include/config/bq2579x-config_limit_types.hpp:65 | stores the byte unchanged |
| LimitTypes.InputVoltageLimitRegister.SetValue | src/config/bq2579x-config_limit_types.cpp:47-54 | stores the code of the clamped voltage |
| LimitTypes.IindpmMa | src/config/bq2579x-config_limit_types.cpp:68-71 | the input current read back is the stored word times 10 reduced modulo 2^16, as the `uint16_t` return type does |
| LimitTypes.IindpmCode | src/config/bq2579x-config_limit_types.cpp:61-66 | the stored code is at most 330 and reads back as the request capped at 3300 mA and rounded down to 10 mA |
| LimitTypes.IindpmReadingWraps | src/config/bq2579x-config_limit_types.cpp:68-71 | a stored word of 6554 reads back as 4 mA |
| LimitTypes.IindpmCodeRoundTrip | src/config/bq2579x-config_limit_types.cpp:61-71 | every code up to 330 is stored again when its own current is set |
| LimitTypes.InputCurrentLimitRegister.constructor | include/config/bq2579x-config_limit_types.hpp:85 | a new register holds 0 |
| LimitTypes.InputCurrentLimitRegister.SetRaw | include/config/bq2579x-config_limit_types.hpp:81 | stores the word unmasked |
| LimitTypes.InputCurrentLimitRegister.SetValue | src/config/bq2579x-config_limit_types.cpp:61-66 | stores the code of the capped current |
| LimitTypes.VotgMv | src/config/bq2579x-config_limit_types.cpp:82-85 | an OTG voltage read back is 2800 mV plus a whole number of 10 mV steps, at most 23270 mV |
| LimitTypes.VotgCode | src/config/bq2579x-config_limit_types.cpp:73-80 | the stored code is at most 1920 and reads back as the request clamped to [2800, 22000] mV and rounded down to 10 mV |
| LimitTypes.VotgExample | src/config/bq2579x-config_limit_types.cpp:73-85 | 5000 mV is code 0xDC and reads back as 5000 mV |
| LimitTypes.VotgCodeRoundTrip | src/config/bq2579x-config_limit_types.cpp:73-85 | every code up to 1920 is stored again when its own voltage is set |
| LimitTypes.VOTGRegulationRegister.constructor | include/config/bq2579x-config_limit_types.hpp:101 | a new register holds 0 |
| LimitTypes.VOTGRegulationRegister.SetRaw | include/config/bq2579x-config_limit_types.hpp:97 | keeps only bits 10:0 of the word |
| LimitTypes.VOTGRegulationRegister.SetValue | src/config/bq2579x-config_limit_types.cpp:73-80 | stores the code of the clamped voltage |
| LimitTypes.PackIotg | src/config/bq2579x-config_limit_types.cpp:87-92 | decoding the packed byte gives back the timer flag, and the current rounded down to 40 mA and reduced modulo 128 steps |
| LimitTypes.IotgRepack | src/config/bq2579x-config_limit_types.cpp:87-100 | packing the decoded values of any byte gives that byte back |
| LimitTypes.IotgExactRoundTrip | src/config/bq2579x-config_limit_types.cpp:87-100 | values whose current is a multiple of 40 mA up to 5080 mA survive packing and unpacking |
| LimitTypes.IotgWraps | src/config/bq2579x-config_limit_types.cpp:90 | adding 5120 mA to the current leaves the packed byte unchanged |
| LimitTypes.DefaultIotgPacks | include/config/bq2579x-config_limit_types.hpp:110-114 | the default values, a 2 h timer and 3040 mA, pack to 0x4C |
| LimitTypes.IOTGRegulationRegister.constructor | include/config/bq2579x-config_limit_types.hpp:123 | a new register holds 0 |
| LimitTypes.IOTGRegulationRegister.SetRaw | include/config/bq2579x-config_limit_types.hpp:119 | stores the byte unchanged |
| LimitTypes.IOTGRegulationRegister.SetValues | src/config/bq2579x-config_limit_types.cpp:87-92 | stores the packed byte of the values |
| CtrlTypes.IcoLimitMa | include/ctrl/bq2579x-ctrl_types.hpp:13-15 | the ICO current limit of a 9-bit code is a multiple of 10 mA of at most 5110 mA |
| CtrlTypes.IcoCurrentLimitRegister.constructor | include/ctrl/bq2579x-ctrl_types.hpp:21 | a new register holds 0 |
| CtrlTypes.IcoCurrentLimitRegister.SetRaw | include/ctrl/bq2579x-ctrl_types.hpp:17 | keeps only bits 8:0 of the word |
| CtrlTypes.IbatMa | include/ctrl/bq2579x-ctrl_types.hpp:50-52 | the battery current is the word reinterpreted as a signed 16-bit number: negative exactly when bit 15 is set, and equal to the word modulo 2^16 |
| CtrlTypes.TsMilliPercent | include/ctrl/bq2579x-ctrl_types.hpp:152-157 | the TS reading in thousandths of a percent never exceeds the raw word and fits 32 bits |
| CtrlTypes.TsMonotone | include/ctrl/bq2579x-ctrl_types.hpp:152-157 | a larger raw word never gives a smaller TS reading |
| CtrlTypes.TdieDeciCelsius | include/ctrl/bq2579x-ctrl_types.hpp:172-175 | the die temperature in tenths of a degree is five times the signed word whenever that product fits 16 bits |
| CtrlTypes.TdieReadingWraps | include/ctrl/bq2579x-ctrl_types.hpp:172-175 | the product is truncated to 16 bits: the word 0x2000 reads back as -24576 |
| CtrlTypes.IbusAdcRegister.constructor | include/ctrl/bq2579x-ctrl_types.hpp:38 | a new register holds 0 |
| CtrlTypes.IbusAdcRegister.SetRaw | include/ctrl/bq2579x-ctrl_types.hpp:29 | stores the word unchanged |
| CtrlTypes.IbatAdcRegister.constructor | include/ctrl/bq2579x-ctrl_types.hpp:55 | a new register holds 0 |
| CtrlTypes.IbatAdcRegister.SetRaw | include/ctrl/bq2579x-ctrl_types.hpp:46 | stores the word unchanged |
| CtrlTypes.VbusAdcRegister.constructor | include/ctrl/bq2579x-ctrl_types.hpp:72 | a new register holds 0 |
| CtrlTypes.VbusAdcRegister.SetRaw | include/ctrl/bq2579x-ctrl_types.hpp:63 | stores the word unchanged |
| CtrlTypes.Vac1AdcRegister.constructor | include/ctrl/bq2579x-ctrl_types.hpp:89 | a new register holds 0 |
| CtrlTypes.Vac1AdcRegister.SetRaw | include/ctrl/bq2579x-ctrl_types.hpp:80 | stores the word unchanged |
| CtrlTypes.Vac2AdcRegister.constructor | include/ctrl/bq2579x-ctrl_types.hpp:106 | a new register holds 0 |
| CtrlTypes.Vac2AdcRegister.SetRaw | include/ctrl/bq2579x-ctrl_types.hpp:97 | stores the word unchanged |
| CtrlTypes.VbatAdcRegister.constructor | include/ctrl/bq2579x-ctrl_types.hpp:123 | a new register holds 0 |
| CtrlTypes.VbatAdcRegister.SetRaw | include/ctrl/bq2579x-ctrl_types.hpp:114 | stores the word unchanged |
| CtrlTypes.VsysAdcRegister.constructor | include/ctrl/bq2579x-ctrl_types.hpp:140 | a new register holds 0 |
| CtrlTypes.VsysAdcRegister.SetRaw | include/ctrl/bq2579x-ctrl_types.hpp:131 | stores the word unchanged |
| CtrlTypes.TsAdcRegister.constructor | include/ctrl/bq2579x-ctrl_types.hpp:160 | a new register holds 0 |
| CtrlTypes.TsAdcRegister.SetRaw | include/ctrl/bq2579x-ctrl_types.hpp:148 | stores the word unchanged |
| CtrlTypes.TdieAdcRegister.constructor | include/ctrl/bq2579x-ctrl_types.hpp:178 | a new register holds 0 |
| CtrlTypes.TdieAdcRegister.SetRaw | include/ctrl/bq2579x-ctrl_types.hpp:168 | stores the word unchanged |
| CtrlTypes.DPlusAdcRegister.constructor | include/ctrl/bq2579x-ctrl_types.hpp:195 | a new register holds 0 |
| CtrlTypes.DPlusAdcRegister.SetRaw | include/ctrl/bq2579x-ctrl_types.hpp:186 | stores the word unchanged |
| CtrlTypes.DMinusAdcRegister.constructor | include/ctrl/bq2579x-ctrl_types.hpp:212 | a new register holds 0 |
| CtrlTypes.DMinusAdcRegister.SetRaw | include/ctrl/bq2579x-ctrl_types.hpp:203 | stores the word unchanged |
| CtrlTypes.EncodePartInformation | include/ctrl/bq2579x-ctrl_types.hpp:228-233 | a part number and revision below 8 each have a byte, with bits 7:6 clear, that decodes to exactly them |
| CtrlTypes.PartInformationDecodesAlike | include/ctrl/bq2579x-ctrl_types.hpp:228-233 | two bytes decode to the same part number and revision if and only if their bits 5:0 agree |
| CtrlTypes.PartInformationRegister.constructor | include/ctrl/bq2579x-ctrl_types.hpp:236 | a new register holds 0 |
| CtrlTypes.PartInformationRegister.SetRaw | include/ctrl/bq2579x-ctrl_types.hpp:225 | stores the byte unchanged |
| Transport.RetryAttempts | include/bq2579x-interface.hpp:26-36 | with attempts left, a read makes between one and that many bus reads; with none left it makes none |
| Transport.Failures | include/bq2579x-interface.hpp:28-35 | a run of n failed attempts is 2n bus operations |
| Transport.FailuresSnoc | include/bq2579x-interface.hpp:28-35 | one more failed attempt appends one more read of the same register and length, then one 10 ms delay |
| Transport.FailuresShape | include/bq2579x-interface.hpp:28-35 | in a run of failed attempts every even position is the bus read and every odd one the 10 ms delay |
| Transport.RetryFirstSuccess | include/bq2579x-interface.hpp:26-34 | when the first success comes after a failures, the read makes a + 1 attempts: the failures, each followed by a delay, then the successful read with no delay after it |
| Transport.RetryAllFail | include/bq2579x-interface.hpp:26-39 | when every attempt fails, all of them are made and each is followed by a delay |
| Transport.RetryStopsAtFirstSuccess | include/bq2579x-interface.hpp:26-36 | every attempt before the last one failed, and the last one succeeded unless no attempts were left |
| Transport.RetrySucceedsIffSomeAttemptDoes | include/bq2579x-interface.hpp:26-39 | the last attempt succeeds if and only if one of the allowed attempts would have succeeded |
| Transport.ReadCount | include/bq2579x-interface.hpp:26-36 | a trace holds no more bus reads than operations |
| Transport.RetryTraceReads | include/bq2579x-interface.hpp:26-36 | a read makes exactly one bus read per attempt and never writes to the bus |
| Transport.BeWord | include/bq2579x-interface.hpp:76 | the word read from the byte pair has the first byte as its high byte and the second as its low byte |
| Transport.BeBytes | include/bq2579x-interface.hpp:93-96 | the two bytes sent for a word, MSB first, rebuild that word |
| Transport.BeBytesOfWord | include/bq2579x-interface.hpp:70-98 | the bytes sent for a word read back from a byte pair are that byte pair |
| Transport.Open | include/bq2579x-interface.hpp:19 | a new transport uses the given bus and has made no transfer |
| Transport.ReadRegister | include/bq2579x-interface.hpp:21-40 | reads the register up to 3 times, stopping at the first success and waiting 10 ms after each failure; the error and the buffer returned are those of the last attempt, and one read transfer is recorded |
| Transport.WriteRegister | include/bq2579x-interface.hpp:42-55 | exactly one bus write, with no retry; its status is returned unchanged and one write transfer is recorded |
| Transport.ReadU8 | include/bq2579x-interface.hpp:57-60 | a one-byte read with the retries of read_register: the error returned and the byte read are those of the bus reply to the last attempt, and one read transfer carrying them is recorded |
| Transport.WriteU8 | include/bq2579x-interface.hpp:62-68 | one write of the one byte to the register, its status returned unchanged |
| Transport.ReadU16 | include/bq2579x-interface.hpp:70-78 | a two-byte read with retries: the error returned is that of the bus reply to the last attempt; on success the output is the big-endian word of that reply's two bytes, on failure it keeps its previous value |
| Transport.ReadS16 | include/bq2579x-interface.hpp:80-88 | as ReadU16, with one bus read per attempt, the last reply's error returned, and on success that reply's big-endian word reinterpreted as a signed 16-bit number |
| Transport.WriteU16 | include/bq2579x-interface.hpp:90-98 | one two-byte write carrying the word MSB first, its status returned unchanged |
| Configuration.GetMinimalSystemVoltage | src/config/bq2579x-config.cpp:25-31 | one 1-byte read of register MinimalSystemVoltageRegister; when it succeeds the stored raw value becomes the value read, and when it fails nothing is stored and its error is returned |
| Configuration.SetMinimalSystemVoltage | src/config/bq2579x-config.cpp:33-38 | exactly one 1-byte write to register MinimalSystemVoltageRegister carrying the stored raw value; the write's status is returned |
| Configuration.GetChargeVoltageLimitRegister | src/config/bq2579x-config.cpp:40-46 | one 2-byte read of register ChargeVoltageLimitRegister; when it succeeds the stored raw value becomes the value read modulo 0x800 as `set_raw` does, and when it fails nothing is stored and its error is returned |
| Configuration.SetChargeVoltageLimitRegister | src/config/bq2579x-config.cpp:48-53 | exactly one 2-byte write to register ChargeVoltageLimitRegister carrying the stored raw value big-endian; the write's status is returned |
| Configuration.GetChargeCurrentLimitRegister | src/config/bq2579x-config.cpp:55-61 | one 2-byte read of register ChargeCurrentLimitRegister; when it succeeds the stored raw value becomes the value read modulo 0x400 as `set_raw` does, and when it fails nothing is stored and its error is returned |
| Configuration.SetChargeCurrentLimitRegister | src/config/bq2579x-config.cpp:63-68 | exactly one 2-byte write to register ChargeCurrentLimitRegister carrying the stored raw value big-endian; the write's status is returned |
| Configuration.GetInputVoltageLimitRegister | src/config/bq2579x-config.cpp:70-76 | one 1-byte read of register InputVoltageLimitRegister; when it succeeds the stored raw value becomes the value read, and when it fails nothing is stored and its error is returned |
| Configuration.SetInputVoltageLimitRegister | src/config/bq2579x-config.cpp:78-83 | exactly one 1-byte write to register InputVoltageLimitRegister carrying the stored raw value; the write's status is returned |
| Configuration.GetInputCurrentLimitRegister | src/config/bq2579x-config.cpp:85-91 | one 2-byte read of register InputCurrentLimitRegister; when it succeeds the stored raw value becomes the value read, and when it fails nothing is stored and its error is returned |
| Configuration.SetInputCurrentLimitRegister | src/config/bq2579x-config.cpp:93-98 | exactly one 2-byte write to register InputCurrentLimitRegister carrying the stored raw value big-endian; the write's status is returned |
| Configuration.GetVotgRegulationRegister | src/config/bq2579x-config.cpp:100-106 | one 2-byte read of register VOTGRegulationRegister; when it succeeds the stored raw value becomes the value read modulo 0x800 as `set_raw` does, and when it fails nothing is stored and its error is returned |
| Configuration.SetVotgRegulationRegister | src/config/bq2579x-config.cpp:108-113 | exactly one 2-byte write to register VOTGRegulationRegister carrying the stored raw value big-endian; the write's status is returned |
| Configuration.GetIotgRegulationRegister | src/config/bq2579x-config.cpp:115-121 | one 1-byte read of register IOTGRegulationRegister; when it succeeds the stored raw value becomes the value read, and when it fails nothing is stored and its error is returned |
| Configuration.SetIotgRegulationRegister | src/config/bq2579x-config.cpp:123-128 | exactly one 1-byte write to register IOTGRegulationRegister carrying the stored raw value; the write's status is returned |
| Configuration.GetPrechargeControlRegister | src/config/bq2579x-config.cpp:130-136 | one 1-byte read of register PrechargeControlRegister; when it succeeds the stored raw value becomes the value read, and when it fails nothing is stored and its error is returned |
| Configuration.SetPrechargeControlRegister | src/config/bq2579x-config.cpp:138-143 | exactly one 1-byte write to register PrechargeControlRegister carrying the stored raw value; the write's status is returned |
| Configuration.GetTerminationControlRegister | src/config/bq2579x-config.cpp:145-151 | one 1-byte read of register TerminationControlRegister; when it succeeds the stored raw value becomes the value read, and when it fails nothing is stored and its error is returned |
| Configuration.SetTerminationControlRegister | src/config/bq2579x-config.cpp:153-158 | exactly one 1-byte write to register TerminationControlRegister carrying the stored raw value; the write's status is returned |
| Configuration.GetRechargeControlRegister | src/config/bq2579x-config.cpp:160-166 | one 1-byte read of register RechargeControlRegister; when it succeeds the stored raw value becomes the value read, and when it fails nothing is stored and its error is returned |
| Configuration.SetRechargeControlRegister | src/config/bq2579x-config.cpp:168-173 | exactly one 1-byte write to register RechargeControlRegister carrying the stored raw value; the write's status is returned |
| Configuration.GetTimerControlRegister | src/config/bq2579x-config.cpp:175-181 | one 1-byte read of register TimerControlRegister; when it succeeds the stored raw value becomes the value read, and when it fails nothing is stored and its error is returned |
| Configuration.SetTimerControlRegister | src/config/bq2579x-config.cpp:183-188 | exactly one 1-byte write to register TimerControlRegister carrying the stored raw value; the write's status is returned |
| Configuration.GetChargerControl0Register | src/config/bq2579x-config.cpp:190-196 | one 1-byte read of register ChargerControl0Register; when it succeeds the stored raw value becomes the value read, and when it fails nothing is stored and its error is returned |
| Configuration.SetChargerControl0Register | src/config/bq2579x-config.cpp:198-203 | exactly one 1-byte write to register ChargerControl0Register carrying the stored raw value; the write's status is returned |
| Configuration.GetChargerControl1Register | src/config/bq2579x-config.cpp:205-211 | one 1-byte read of register ChargerControl1Register; when it succeeds the stored raw value becomes the value read, and when it fails nothing is stored and its error is returned |
| Configuration.SetChargerControl1Register | src/config/bq2579x-config.cpp:213-218 | exactly one 1-byte write to register ChargerControl1Register carrying the stored raw value; the write's status is returned |
| Configuration.GetChargerControl2Register | src/config/bq2579x-config.cpp:220-226 | one 1-byte read of register ChargerControl2Register; when it succeeds the stored raw value becomes the value read, and when it fails nothing is stored and its error is returned |
| Configuration.SetChargerControl2Register | src/config/bq2579x-config.cpp:228-233 | exactly one 1-byte write to register ChargerControl2Register carrying the stored raw value; the write's status is returned |
| Configuration.GetChargerControl3Register | src/config/bq2579x-config.cpp:235-241 | one 1-byte read of register ChargerControl3Register; when it succeeds the stored raw value becomes the value read, and when it fails nothing is stored and its error is returned |
| Configuration.SetChargerControl3Register | src/config/bq2579x-config.cpp:243-248 | exactly one 1-byte write to register ChargerControl3Register carrying the stored raw value; the write's status is returned |
| Configuration.GetChargerControl4Register | src/config/bq2579x-config.cpp:250-256 | one 1-byte read of register ChargerControl4Register; when it succeeds the stored raw value becomes the value read, and when it fails nothing is stored and its error is returned |
| Configuration.SetChargerControl4Register | src/config/bq2579x-config.cpp:258-263 | exactly one 1-byte write to register ChargerControl4Register carrying the stored raw value; the write's status is returned |
| Configuration.GetChargerControl5Register | src/config/bq2579x-config.cpp:265-271 | one 1-byte read of register ChargerControl5Register; when it succeeds the stored raw value becomes the value read, and when it fails nothing is stored and its error is returned |
| Configuration.SetChargerControl5Register | src/config/bq2579x-config.cpp:273-278 | exactly one 1-byte write to register ChargerControl5Register carrying the stored raw value; the write's status is returned |
| Configuration.GetMpptControlRegister | src/config/bq2579x-config.cpp:280-286 | one 1-byte read of register MPPTControlRegister; when it succeeds the stored raw value becomes the value read, and when it fails nothing is stored and its error is returned |
| Configuration.SetMpptControlRegister | src/config/bq2579x-config.cpp:288-293 | exactly one 1-byte write to register MPPTControlRegister carrying the stored raw value; the write's status is returned |
| Configuration.GetTemperatureControlRegister | src/config/bq2579x-config.cpp:295-301 | one 1-byte read of register TemperatureControlRegister; when it succeeds the stored raw value becomes the value read, and when it fails nothing is stored and its error is returned |
| Configuration.SetTemperatureControlRegister | src/config/bq2579x-config.cpp:303-308 | exactly one 1-byte write to register TemperatureControlRegister carrying the stored raw value; the write's status is returned |
| Configuration.GetNtcControl0Register | src/config/bq2579x-config.cpp:310-316 | one 1-byte read of register NTCControl0Register; when it succeeds the stored raw value becomes the value read masked with 0xFE as `set_raw` does, and when it fails nothing is stored and its error is returned |
| Configuration.SetNtcControl0Register | src/config/bq2579x-config.cpp:318-323 | exactly one 1-byte write to register NTCControl0Register carrying the stored raw value; the write's status is returned |
| Configuration.GetNtcControl1Register | src/config/bq2579x-config.cpp:325-331 | one 1-byte read of register NTCControl1Register; when it succeeds the stored raw value becomes the value read, and when it fails nothing is stored and its error is returned |
| Configuration.SetNtcControl1Register | src/config/bq2579x-config.cpp:333-338 | exactly one 1-byte write to register NTCControl1Register carrying the stored raw value; the write's status is returned |
| Configuration.GetDpdmDriverRegister | src/config/bq2579x-config.cpp:475-481 | one 1-byte read of register DPDMDriverRegister; when it succeeds the stored raw value becomes the value read masked with 0xFC as `set_raw` does, and when it fails nothing is stored and its error is returned |
| Configuration.SetDpdmDriverRegister | src/config/bq2579x-config.cpp:483-488 | exactly one 1-byte write to register DPDMDriverRegister carrying the stored raw value; the write's status is returned |
| Configuration.GetChargerMask0Register | src/config/bq2579x-config.cpp:340-346 | one 1-byte read of register ChargerMask0Register; when it succeeds the stored raw value becomes the value read, and when it fails nothing is stored and its error is returned |
| Configuration.SetChargerMask0Register | src/config/bq2579x-config.cpp:348-353 | exactly one 1-byte write to register ChargerMask0Register carrying the stored raw value; the write's status is returned |
| Configuration.GetChargerMask1Register | src/config/bq2579x-config.cpp:355-361 | one 1-byte read of register ChargerMask1Register; when it succeeds the stored raw value becomes the value read masked with 0xF7 as `set_raw` does, and when it fails nothing is stored and its error is returned |
| Configuration.SetChargerMask1Register | src/config/bq2579x-config.cpp:363-368 | exactly one 1-byte write to register ChargerMask1Register carrying the stored raw value; the write's status is returned |
| Configuration.GetChargerMask2Register | src/config/bq2579x-config.cpp:370-376 | one 1-byte read of register ChargerMask2Register; when it succeeds the stored raw value becomes the value read masked with 0x7F as `set_raw` does, and when it fails nothing is stored and its error is returned |
| Configuration.SetChargerMask2Register | src/config/bq2579x-config.cpp:378-383 | exactly one 1-byte write to register ChargerMask2Register carrying the stored raw value; the write's status is returned |
| Configuration.GetChargerMask3Register | src/config/bq2579x-config.cpp:385-391 | one 1-byte read of register ChargerMask3Register; when it succeeds the stored raw value becomes the value read masked with 0x1F as `set_raw` does, and when it fails nothing is stored and its error is returned |
| Configuration.SetChargerMask3Register | src/config/bq2579x-config.cpp:393-398 | exactly one 1-byte write to register ChargerMask3Register carrying the stored raw value; the write's status is returned |
| Configuration.GetFaultMask0Register | src/config/bq2579x-config.cpp:400-406 | one 1-byte read of register FaultMask0Register; when it succeeds the stored raw value becomes the value read, and when it fails nothing is stored and its error is returned |
| Configuration.SetFaultMask0Register | src/config/bq2579x-config.cpp:408-413 | exactly one 1-byte write to register FaultMask0Register carrying the stored raw value; the write's status is returned |
| Configuration.GetFaultMask1Register | src/config/bq2579x-config.cpp:415-421 | one 1-byte read of register FaultMask1Register; when it succeeds the stored raw value becomes the value read masked with 0xF4 as `set_raw` does, and when it fails nothing is stored and its error is returned |
| Configuration.SetFaultMask1Register | src/config/bq2579x-config.cpp:423-428 | exactly one 1-byte write to register FaultMask1Register carrying the stored raw value; the write's status is returned |
| Configuration.GetAdcControlRegister | src/config/bq2579x-config.cpp:430-436 | one 1-byte read of register ADCControlRegister; when it succeeds the stored raw value becomes the value read masked with 0xFC as `set_raw` does, and when it fails nothing is stored and its error is returned |
| Configuration.SetAdcControlRegister | src/config/bq2579x-config.cpp:438-443 | exactly one 1-byte write to register ADCControlRegister carrying the stored raw value; the write's status is returned |
| Configuration.GetAdcFunctionDisable0Register | src/config/bq2579x-config.cpp:445-451 | one 1-byte read of register ADCFunctionDisable0Register; when it succeeds the stored raw value becomes the value read masked with 0xFE as `set_raw` does, and when it fails nothing is stored and its error is returned |
| Configuration.SetAdcFunctionDisable0Register | src/config/bq2579x-config.cpp:453-458 | exactly one 1-byte write to register ADCFunctionDisable0Register carrying the stored raw value; the write's status is returned |
| Configuration.GetAdcFunctionDisable1Register | src/config/bq2579x-config.cpp:460-466 | one 1-byte read of register ADCFunctionDisable1Register; when it succeeds the stored raw value becomes the value read masked with 0xF0 as `set_raw` does, and when it fails nothing is stored and its error is returned |
| Configuration.SetAdcFunctionDisable1Register | src/config/bq2579x-config.cpp:468-473 | exactly one 1-byte write to register ADCFunctionDisable1Register carrying the stored raw value; the write's status is returned |
| Configuration.GetLimitRegisters | src/config/bq2579x-config.cpp:490-500 | reads the 7 limit registers in source order and stops at the first failed read, returning its error; the log grows by exactly those transfers, each register read successfully holds its `set_raw` of the value read, and every other stored value is unchanged |
| Configuration.SetLimitRegisters | src/config/bq2579x-config.cpp:502-512 | writes the 7 limit registers in source order, each transfer carrying that register's stored raw value, and stops at the first failed write, returning its error |
| Configuration.GetControlRegisters | src/config/bq2579x-config.cpp:514-532 | reads the 15 control registers in source order and stops at the first failed read, returning its error; the log grows by exactly those transfers, each register read successfully holds its `set_raw` of the value read, and every other stored value is unchanged |
| Configuration.SetControlRegisters | src/config/bq2579x-config.cpp:534-552 | writes the 15 control registers in source order, each transfer carrying that register's stored raw value, and stops at the first failed write, returning its error |
| Configuration.GetMaskRegisters | src/config/bq2579x-config.cpp:554-563 | reads the 6 mask registers in source order and stops at the first failed read, returning its error; the log grows by exactly those transfers, each register read successfully holds its `set_raw` of the value read, and every other stored value is unchanged |
| Configuration.SetMaskRegisters | src/config/bq2579x-config.cpp:565-574 | writes the 6 mask registers in source order, each transfer carrying that register's stored raw value, and stops at the first failed write, returning its error |
| Configuration.GetAdcRegisters | src/config/bq2579x-config.cpp:576-582 | reads the 3 adc registers in source order and stops at the first failed read, returning its error; the log grows by exactly those transfers, each register read successfully holds its `set_raw` of the value read, and every other stored value is unchanged |
| Configuration.SetAdcRegisters | src/config/bq2579x-config.cpp:584-590 | writes the 3 adc registers in source order, each transfer carrying that register's stored raw value, and stops at the first failed write, returning its error |
| Configuration.Get | src/config/bq2579x-config.cpp:592-599 | reads all 31 registers, group after group, and stops at the first failure; a successful run is exactly 31 successful reads, and on a failure the registers before it hold the values read while those after it are untouched |
| Configuration.Set | src/config/bq2579x-config.cpp:601-608 | writes all 31 stored raw values, group after group, in the same order as `get()`, and stops at the first failure; a successful run is exactly 31 successful writes |
| Configuration.ReadFromConcat | src/config/bq2579x-config.cpp:592-608 | reading one run of registers and then the next leaves the same parameters as reading both runs at once, so the group reads compose into the bulk read |
| Status.ReadStatusGroup | src/status/bq2579x-status.cpp:135-145 | a bulk `get_status()` read changes the seven status registers only, each one to its `set_raw` of the value read if its transfer happened and succeeded and to its old value otherwise; every other register is unchanged |
| Status.ReadFlagsGroup | src/status/bq2579x-status.cpp:124-133 | a bulk `get_flags()` read changes the six flag registers only, each one to its `set_raw` of the value read if its transfer happened and succeeded and to its old value otherwise; every other register is unchanged |
| Status.GetChargerStatus0 | src/status/bq2579x-status.cpp:20-26 | one 1-byte read of register ChargerStatus0Register; when it succeeds the stored raw value becomes the value read, and when it fails nothing is stored and its error is returned |
| Status.GetChargerStatus1 | src/status/bq2579x-status.cpp:28-34 | one 1-byte read of register ChargerStatus1Register; when it succeeds the stored raw value becomes the value read, and when it fails nothing is stored and its error is returned |
| Status.GetChargerStatus2 | src/status/bq2579x-status.cpp:36-42 | one 1-byte read of register ChargerStatus2Register; when it succeeds the stored raw value becomes the value read, and when it fails nothing is stored and its error is returned |
| Status.GetChargerStatus3 | src/status/bq2579x-status.cpp:44-50 | one 1-byte read of register ChargerStatus3Register; when it succeeds the stored raw value becomes the value read, and when it fails nothing is stored and its error is returned |
| Status.GetChargerStatus4 | src/status/bq2579x-status.cpp:52-58 | one 1-byte read of register ChargerStatus4Register; when it succeeds the stored raw value becomes the value read, and when it fails nothing is stored and its error is returned |
| Status.GetFaultStatus0 | src/status/bq2579x-status.cpp:60-66 | one 1-byte read of register FaultStatus0Register; when it succeeds the stored raw value becomes the value read, and when it fails nothing is stored and its error is returned |
| Status.GetFaultStatus1 | src/status/bq2579x-status.cpp:68-74 | one 1-byte read of register FaultStatus1Register; when it succeeds the stored raw value becomes the value read, and when it fails nothing is stored and its error is returned |
| Status.GetChargerFlag0 | src/status/bq2579x-status.cpp:76-82 | one 1-byte read of register ChargerFlag0Register; when it succeeds the stored raw value becomes the value read, and when it fails nothing is stored and its error is returned |
| Status.GetChargerFlag1 | src/status/bq2579x-status.cpp:84-90 | one 1-byte read of register ChargerFlag1Register; when it succeeds the stored raw value becomes the value read, and when it fails nothing is stored and its error is returned |
| Status.GetChargerFlag2 | src/status/bq2579x-status.cpp:92-98 | one 1-byte read of register ChargerFlag2Register; when it succeeds the stored raw value becomes the value read, and when it fails nothing is stored and its error is returned |
| Status.GetChargerFlag3 | src/status/bq2579x-status.cpp:100-106 | one 1-byte read of register ChargerFlag3Register; when it succeeds the stored raw value becomes the value read, and when it fails nothing is stored and its error is returned |
| Status.GetFaultFlag0 | src/status/bq2579x-status.cpp:108-114 | one 1-byte read of register FaultFlag0Register; when it succeeds the stored raw value becomes the value read, and when it fails nothing is stored and its error is returned |
| Status.GetFaultFlag1 | src/status/bq2579x-status.cpp:116-122 | one 1-byte read of register FaultFlag1Register; when it succeeds the stored raw value becomes the value read, and when it fails nothing is stored and its error is returned |
| Status.GetStatus | src/status/bq2579x-status.cpp:135-145 | reads the 7 registers of `StatusSlots` in source order, one transfer each and no write, and stops at the first failed read, returning its error; the stored values are those `ReadFrom` gives for exactly those transfers |
| Status.GetFlags | src/status/bq2579x-status.cpp:124-133 | reads the 6 registers of `FlagsSlots` in source order, one transfer each and no write, and stops at the first failed read, returning its error; the stored values are those `ReadFrom` gives for exactly those transfers |
| Ctrl.ReadCtrlGroup | src/ctrl/bq2579X-ctrl.cpp:148-163 | a bulk `get()` read changes the ICO limit and the eleven ADC result words only, each one to its `set_raw` of the value read if its transfer happened and succeeded and to its old value otherwise |
| Ctrl.GetIcoCurrentLimit | src/ctrl/bq2579X-ctrl.cpp:52-58 | one 2-byte read of register IcoCurrentLimitRegister; when it succeeds the stored raw value becomes the value read masked to its low 9 bits as `set_raw` does, and when it fails nothing is stored and its error is returned |
| Ctrl.GetIbusAdc | src/ctrl/bq2579X-ctrl.cpp:60-66 | one 2-byte read of register IbusAdcRegister; when it succeeds the stored raw value becomes the value read, and when it fails nothing is stored and its error is returned |
| Ctrl.GetIbatAdc | src/ctrl/bq2579X-ctrl.cpp:68-74 | one 2-byte read of register IbatAdcRegister; when it succeeds the stored raw value becomes the value read, and when it fails nothing is stored and its error is returned |
| Ctrl.GetVbusAdc | src/ctrl/bq2579X-ctrl.cpp:76-82 | one 2-byte read of register VbusAdcRegister; when it succeeds the stored raw value becomes the value read, and when it fails nothing is stored and its error is returned |
| Ctrl.GetVac1Adc | src/ctrl/bq2579X-ctrl.cpp:84-90 | one 2-byte read of register Vac1AdcRegister; when it succeeds the stored raw value becomes the value read, and when it fails nothing is stored and its error is returned |
| Ctrl.GetVacd2Adc | src/ctrl/bq2579X-ctrl.cpp:92-98 | one 2-byte read of register Vac2AdcRegister; when it succeeds the stored raw value becomes the value read, and when it fails nothing is stored and its error is returned |
| Ctrl.GetVbatAdc | src/ctrl/bq2579X-ctrl.cpp:100-106 | one 2-byte read of register VbatAdcRegister; when it succeeds the stored raw value becomes the value read, and when it fails nothing is stored and its error is returned |
| Ctrl.GetVsysAdc | src/ctrl/bq2579X-ctrl.cpp:108-114 | one 2-byte read of register VsysAdcRegister; when it succeeds the stored raw value becomes the value read, and when it fails nothing is stored and its error is returned |
| Ctrl.GetTsAdc | src/ctrl/bq2579X-ctrl.cpp:116-122 | one 2-byte read of register TsAdcRegister; when it succeeds the stored raw value becomes the value read, and when it fails nothing is stored and its error is returned |
| Ctrl.GetTdieAdc | src/ctrl/bq2579X-ctrl.cpp:124-130 | one 2-byte read of register TdieAdcRegister; when it succeeds the stored raw value becomes the value read, and when it fails nothing is stored and its error is returned |
| Ctrl.GetDplusAdc | src/ctrl/bq2579X-ctrl.cpp:132-138 | one 2-byte read of register DPlusAdcRegister; when it succeeds the stored raw value becomes the value read, and when it fails nothing is stored and its error is returned |
| Ctrl.GetDminusAdc | src/ctrl/bq2579X-ctrl.cpp:140-146 | one 2-byte read of register DMinusAdcRegister; when it succeeds the stored raw value becomes the value read, and when it fails nothing is stored and its error is returned |
| Ctrl.Get | src/ctrl/bq2579X-ctrl.cpp:148-163 | reads the 12 registers of `CtrlSlots` in source order, one transfer each and no write, and stops at the first failed read, returning its error; the stored values are those `ReadFrom` gives for exactly those transfers |
| Configuration.ReadLimitGroup | src/config/bq2579x-config.cpp:490-500 | reading the limit group changes only the limit registers, each as its own read leaves it, and leaves the control, mask and ADC registers as they were |
| Configuration.ReadControlGroup | src/config/bq2579x-config.cpp:514-532 | reading the control group changes only the control registers, each as its own read leaves it |
| Configuration.ReadMaskGroup | src/config/bq2579x-config.cpp:554-563 | reading the mask group changes only the mask registers, each as its own read leaves it |
| Configuration.ReadAdcGroup | src/config/bq2579x-config.cpp:576-582 | reading the ADC group changes only the ADC registers, each as its own read leaves it |
| Ctrl.ReadyOutcomeIff | src/ctrl/bq2579X-ctrl.cpp:21-32 | the device is accepted if and only if the read succeeded and bits 5:3 of the byte are 011; a failed read's error is passed through unchanged, and any other part number gives ESP_ERR_INVALID_RESPONSE |
| Ctrl.Ready | src/ctrl/bq2579X-ctrl.cpp:21-32 | exactly one one-byte read of the part-information register, with the retries of read_register and no write; the result is that read's outcome |
| Ctrl.WithCommandSetsOnlyItsBits | src/ctrl/bq2579X-ctrl.cpp:34-50 | the byte written back has the command bits set and every other bit as it was read |
| Ctrl.WithCommandIdempotent | src/ctrl/bq2579X-ctrl.cpp:34-50 | when the command bits are already set, the byte written back equals the byte read |
| Ctrl.SendReset | src/ctrl/bq2579X-ctrl.cpp:34-41 | reads REG10h; if that fails, nothing is written and the read's error is returned; otherwise the byte read with bit 3 set is written back and the write's status is returned |
| Ctrl.EnAdc | src/ctrl/bq2579X-ctrl.cpp:43-50 | reads REG2Eh; if that fails, nothing is written and the read's error is returned; otherwise the byte read with bit 7 set is written back and the write's status is returned |
| Defaults.KconfigAdcFunctionDisable0 | src/config/bq2579x-config_macro.cpp:143-175 | the die-temperature channel is never disabled, whatever the build settings |
| Defaults.KconfigAdcFunctionDisable0Bits | src/config/bq2579x-config_macro.cpp:143-175 | bits 7:2 of the packed byte are set exactly for the channels the build leaves out, bits 1:0 stay clear, so all channels on gives 0x00 and all off gives 0xFC |
| Defaults.KconfigOtgPacks | src/config/bq2579x-config_macro.cpp:18-22 | an OTG voltage of 5000 mV is code 0xDC, and 3000 mA with the 2 h timer packs to 0x4B |
| Defaults.KconfigPrechargePacks | src/config/bq2579x-config_macro.cpp:24-27 | the start-up precharge settings pack to 0xC3 |
| Defaults.KconfigTerminationPacks | src/config/bq2579x-config_macro.cpp:29-31 | the start-up termination current packs to 0x05 |
| Defaults.KconfigRechargePacks | src/config/bq2579x-config_macro.cpp:33-37 | the start-up recharge settings pack to 0x63 |
| Defaults.KconfigTimerPacks | src/config/bq2579x-config_macro.cpp:39-46 | the start-up timer settings pack to 0x3D |
| Defaults.KconfigChargerControlPacks | src/config/bq2579x-config_macro.cpp:48-105 | the start-up Charger Control 0 to 5 settings pack to 0xA2, 0x85, 0x40, 0x00, 0x21 and 0x1E |
| Defaults.KconfigThermalPacks | src/config/bq2579x-config_macro.cpp:107-128 | the start-up temperature, NTC Control 0 and NTC Control 1 settings pack to 0xC0, 0x7A and 0x54 |
| Defaults.KconfigAdcControlPacks | src/config/bq2579x-config_macro.cpp:130-141 | the start-up ADC control (ADC off, 14-bit, one-shot) packs to 0x50 |
| Defaults.KconfigMiscPacks | src/config/bq2579x-config_macro.cpp:177-194 | the start-up MPPT, D+/D- driver and ADC Function Disable 1 settings pack to 0xAA, 0x00 and 0x00 |
| Defaults.LoadLimits | src/config/bq2579x-config_macro.cpp:10-22 | the limit group holds the codes of the five build-time limits, OTG voltage code 0xDC and OTG current byte 0x4B; nothing else changes |
| Defaults.LoadChargeControl | src/config/bq2579x-config_macro.cpp:24-46 | precharge, termination, recharge and timer hold 0xC3, 0x05, 0x63 and 0x3D; nothing else changes |
| Defaults.LoadChargerControl | src/config/bq2579x-config_macro.cpp:48-105 | Charger Control 0 to 5 hold 0xA2, 0x85, 0x40, 0x00, 0x21 and 0x1E; nothing else changes |
| Defaults.LoadThermalControl | src/config/bq2579x-config_macro.cpp:107-128 | temperature control and NTC Control 0 and 1 hold 0xC0, 0x7A and 0x54; nothing else changes |
| Defaults.LoadAdc | src/config/bq2579x-config_macro.cpp:130-182 | ADC control holds 0x50 whether or not the build enables the ADC, ADC Function Disable 0 holds the byte of the build's channel choice, and ADC Function Disable 1 holds 0x00 |
| Defaults.LoadMpptAndDpdm | src/config/bq2579x-config_macro.cpp:184-194 | MPPT control holds 0xAA and the D+/D- driver 0x00; nothing else changes |
| Defaults.LoadConfigFromKconfig | src/config/bq2579x-config_macro.cpp:5-201 | the start-up parameters: every limit, control and ADC register holds the byte or word the build settings give, and the mask registers keep their zero defaults |
| Manager.ReturnIfNotReady | src/bq2579x.cpp:34-42 | ESP_OK exactly when the charger has been detected, ESP_ERR_INVALID_STATE otherwise |
| Manager.KconfigMeasurementsAreOneshot | src/config/bq2579x-config_macro.cpp:130-141 | with the start-up configuration the ADC control selects one-shot conversions with the ADC off, so get_measurements starts a conversion first |
| Manager.BQ2579XManager.constructor | src/bq2579x.cpp:44-50 | a new manager is not ready, has made no transfer, and holds value-initialised register images |
| Manager.BQ2579XManager.IsReady | src/bq2579x.cpp:75-100 | between 1 and 10 detections of the part number, each a read of the part-information register; every detection but the last failed; it succeeds exactly when the last one did, and otherwise all 10 failed and it returns ESP_ERR_TIMEOUT, not the last error; ready records the outcome and no register image changes |
| Manager.BQ2579XManager.ApplyConfig | src/bq2579x.cpp:102-107 | refused with ESP_ERR_INVALID_STATE and no transfer before detection; otherwise writes the 31 configuration registers in order from the given parameters, stopping at the first failure |
| Manager.BQ2579XManager.HandleAlert | src/bq2579x.cpp:109-115 | refused before detection; otherwise reads the flag registers in order, stopping at the first failure, and the flag images become the values read |
| Manager.BQ2579XManager.Reset | src/bq2579x.cpp:118-122 | refused before detection; otherwise the read-modify-write of REG10h that sets the watchdog-reset bit |
| Manager.BQ2579XManager.GetStatus | src/bq2579x.cpp:126-132 | refused before detection; otherwise reads the status registers in order, stopping at the first failure, and the status images become the values read |
| Manager.BQ2579XManager.StartConversion | src/bq2579x.cpp:136-140 | when the loaded ADC control selects one-shot conversions, the read-modify-write of REG2Eh that sets the ADC-enable bit, and no transfer otherwise |
| Manager.BQ2579XManager.GetMeasurements | src/bq2579x.cpp:134-145 | the ADC is started before the readiness check, so even an undetected charger sees the enable command; a failed enable is returned and nothing is read; then it is refused before detection, and otherwise the ICO limit and ADC results are read in order and become the control images |
| Manager.BQ2579XManager.InitDevice | src/bq2579x.cpp:59-73 | detection first: an undetected charger gives ESP_ERR_TIMEOUT after 10 attempts with no other transfer and no change to configuration or status; once detected, the configuration becomes the start-up parameters, the status registers are read, and only if that succeeds is the whole configuration written |
| Manager.BQ2579XManager.AlertStep | src/bq2579x.cpp:191-201 | one pass of the alert loop calls handle_alert exactly when the alert is handled, and otherwise makes no transfer and changes nothing |

## Left out

- Objects that share one bus by reference: each group's register image and the transport are passed through the methods as values, so the model does not capture aliasing between the manager's groups. In the driver the three groups reach the same bus through one `I2CDevices` reference, and every call runs to completion before the next, so threading that one bus through the calls in order preserves the driver's behaviour.
- `log()`, `to_json()`, `to_string()`, `HANDLE_OUTPUT` and the `OutputFormat` argument: these only present values as text, and the temperature output divides in floating point.
- `ESP_LOG*` calls, including the one inside `RETURN_IF_ERROR`: logging has no effect on the registers or on the results.
- `init()`, `task_wrapper`, `gpio_isr_handler` and `setup_interrupt`: FreeRTOS task creation, interrupt installation and GPIO configuration are outside the model.
- `task_main`: its endless loop and blocking `ulTaskNotifyTake` are not modelled. One pass of the loop is `AlertStep`, which takes the two GPIO levels and the notification count as parameters. The start-up `init_device()` call is `InitDevice`.
- `vTaskDelay`: no time passes in the model. Each delay is a `DelayOp` in the bus trace: 10 ms after a failed read attempt, 50 ms after a failed detection, and 50 ticks after the ADC is enabled.
- `I2CDevices`: the bus class is not part of this model. It is an oracle, a script of replies indexed by the bus-call count.
- The `CONFIG_BQ25798_*` values: they are not visible, so they are the fields of the `Kconfig` parameter. The five limits are held as 16-bit values, i.e. after the conversion to the `uint16_t` parameter of `set_value`.
- The flattened sub-structures: the nested `ConfigParams` sub-structures (charger, NTC, ADC function disable) become flat fields of the group datatypes, in the same register order.
- Manager.BQ2579XManager.IsReady: the contract does not state the 50 ms waits between detections, although the body records them in the bus trace; the per-attempt trace is stated by Ctrl.Ready.
- Manager.BQ2579XManager.StartConversion: the contract does not state the 50-tick wait after a successful enable; the body records it in the bus trace.
- Manager.BQ2579XManager.GetMeasurements: the 50-tick wait is not stated, as for StartConversion.
- Manager.BQ2579XManager.InitDevice: the contract speaks of the transfer log only, not of the bus trace or the waits inside it.
- Configuration.Get: the contract states the transfers made, their order, their payloads and the stored values, not the bus trace of retries beneath each transfer, which Transport.ReadRegister states for one transfer.
- Configuration.Set: the contract states the transfers made, their order, their payloads and the stored values, not the bus trace of retries beneath each transfer, which Transport.ReadRegister states for one transfer.
- Status.GetStatus: the contract states the transfers made, their order, their payloads and the stored values, not the bus trace of retries beneath each transfer, which Transport.ReadRegister states for one transfer.
- Status.GetFlags: the contract states the transfers made, their order, their payloads and the stored values, not the bus trace of retries beneath each transfer, which Transport.ReadRegister states for one transfer.
- Ctrl.Get: the contract states the transfers made, their order, their payloads and the stored values, not the bus trace of retries beneath each transfer, which Transport.ReadRegister states for one transfer.
