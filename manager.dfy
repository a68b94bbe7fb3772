/** `BQ2579XManager`: the object an application holds. It owns the
    configuration, status and control groups over one shared bus, remembers
    whether the charger has been detected, and refuses every register
    operation until it has. */
module Manager {
  import opened Bits
  import opened Bus
  import opened Transport
  import opened Groups
  import opened AdcTypes
  import opened CtrlTypes
  import Configuration
  import Defaults
  import Status
  import Ctrl

  /** `max_attempts` of `is_ready()`. */
  const MAX_ATTEMPTS: nat := 10
  /** `delay_ms` of `is_ready()`: the wait after each failed detection. */
  const RETRY_DELAY_MS: nat := 50
  /** The raw tick count `get_measurements()` waits after starting a conversion. */
  const CONVERSION_TICKS: nat := 50

  /** `return_if_not_ready()`: ESP_OK once the charger has been detected,
      ESP_ERR_INVALID_STATE before. */
  function ReturnIfNotReady(ready: bool): (err: Err)
    ensures err == ESP_OK <==> ready
    ensures !ready ==> err == ESP_ERR_INVALID_STATE
  {
    if !ready then ESP_ERR_INVALID_STATE else ESP_OK
  }

  /** Whether one pass of the alert task's loop calls `handle_alert()`: it
      wakes when the alert line (active low) is already low or a
      notification arrives, and handles the alert only if the line is low
      when it looks again. */
  function AlertHandled(levelBefore: int, notified: nat, levelAfter: int): (handled: bool)
  {
    (levelBefore == 0 || notified != 0) && levelAfter == 0
  }

  /** A pass handles an alert exactly when the line is low at the second
      look and the task was woken; a line already low wakes the task
      without a notification, and a line that has gone high again by the
      second look is never handled, whatever woke the task. */
  lemma AlertHandledIff(levelBefore: int, notified: nat, levelAfter: int)
    ensures AlertHandled(levelBefore, notified, levelAfter)
            <==> levelAfter == 0 && (levelBefore == 0 || notified > 0)
    ensures levelBefore == 0 && levelAfter == 0 ==> AlertHandled(levelBefore, notified, levelAfter)
    ensures levelAfter != 0 ==> !AlertHandled(levelBefore, notified, levelAfter)
  {
  }

  /** `cfg_.datas().adc.acd.get_values().adc_rate_oneshot`: whether the
      loaded ADC control register selects one-shot conversions. */
  function Oneshot(params: Configuration.ConfigParams): bool
  {
    UnpackAdcControl(ByteOf(params.adc.adcControl)).adcRateOneshot
  }

  /** With the start-up configuration, ADC control selects one-shot
      conversions with the ADC off, so `get_measurements()` starts a
      conversion before it reads. */
  lemma KconfigMeasurementsAreOneshot(kc: Defaults.Kconfig, params: Configuration.ConfigParams)
    requires Defaults.FromKconfig(kc, params)
    ensures Oneshot(params)
    ensures !UnpackAdcControl(ByteOf(params.adc.adcControl)).adcEnable
  {
    ByteOfValue(0x50);
  }

  class BQ2579XManager {
    /** The transport shared by the three groups (`i2c_`). */
    var io: Interface
    /** `cfg_.datas()`: the configuration registers as last loaded or read. */
    var cfg: Configuration.ConfigParams
    /** `status_`: the status and flag registers as last read. */
    var status: Status.StatusRegs
    /** `ctrl_`: the ICO limit and ADC results as last read. */
    var ctrl: Ctrl.CtrlRegs
    /** `ready_`: whether the charger has been detected. */
    var ready: bool

    /** `BQ2579XManager(i2c)`: nothing detected, every register image
        value-initialised, no transfer made. */
    constructor(dev: I2CDevices)
      ensures io == Open(dev)
      ensures cfg == Configuration.DefaultParams
      ensures status == Status.DefaultStatusRegs
      ensures ctrl == Ctrl.DefaultCtrlRegs
      ensures !ready
    {
      io := Open(dev);
      cfg := Configuration.DefaultParams;
      status := Status.DefaultStatusRegs;
      ctrl := Ctrl.DefaultCtrlRegs;
      ready := false;
    }

    /** `is_ready()`: up to MAX_ATTEMPTS detections of the part number,
        stopping at the first that succeeds and waiting RETRY_DELAY_MS after
        each that fails. It succeeds exactly when the last detection did;
        otherwise all MAX_ATTEMPTS failed and it reports ESP_ERR_TIMEOUT,
        not the last detection's error. `ready` records the outcome. */
    method IsReady() returns (err: Err, ghost attempts: seq<Transfer>)
      modifies this
      ensures io.transfers == old(io.transfers) + attempts
      ensures 1 <= |attempts| <= MAX_ATTEMPTS
      ensures forall i :: 0 <= i < |attempts| ==> Matches(attempts[i], Slot(PartInformationRegister.Addr, 1), Rd)
      ensures forall i :: 0 <= i < |attempts| - 1 ==> Ctrl.ReadyOutcome(attempts[i]) != ESP_OK
      ensures err == ESP_OK <==> Ctrl.ReadyOutcome(attempts[|attempts| - 1]) == ESP_OK
      ensures err != ESP_OK ==> err == ESP_ERR_TIMEOUT && |attempts| == MAX_ATTEMPTS
      ensures ready <==> err == ESP_OK
      ensures io.dev.script == old(io.dev.script)
      ensures cfg == old(cfg) && status == old(status) && ctrl == old(ctrl)
    {
      err := ESP_OK;
      attempts := [];
      var attempt := 0;
      while attempt < MAX_ATTEMPTS
        invariant 0 <= attempt <= MAX_ATTEMPTS
        invariant |attempts| == attempt
        invariant io.transfers == old(io.transfers) + attempts
        invariant forall i :: 0 <= i < |attempts| ==> Matches(attempts[i], Slot(PartInformationRegister.Addr, 1), Rd)
        invariant forall i :: 0 <= i < |attempts| ==> Ctrl.ReadyOutcome(attempts[i]) != ESP_OK
        invariant attempt > 0 ==> err == Ctrl.ReadyOutcome(attempts[attempt - 1])
        invariant io.dev.script == old(io.dev.script)
        invariant cfg == old(cfg) && status == old(status) && ctrl == old(ctrl)
      {
        var io';
        ghost var t;
        err, io', t := Ctrl.Ready(io);
        io := io';
        attempts := attempts + [t];
        if err == ESP_OK {
          break;
        }
        var dev := Delay(io.dev, RETRY_DELAY_MS);
        io := io.(dev := dev);
        attempt := attempt + 1;
      }
      if err != ESP_OK {
        ready := false;
        err := ESP_ERR_TIMEOUT;
        return;
      }
      ready := true;
    }

    /** `apply_config(cfg)`: refused before detection; otherwise every
        configuration register of `params` is written in order, stopping at
        the first failure. */
    method ApplyConfig(params: Configuration.ConfigParams) returns (err: Err, ghost ts: seq<Transfer>)
      modifies this
      ensures !old(ready) ==> err == ESP_ERR_INVALID_STATE && io == old(io)
      ensures io.transfers == old(io.transfers) + ts
      ensures old(ready) ==> Ran(ts, Configuration.ConfigSlots, Wr, err)
                             && Carried(ts, Configuration.ParamsPayload(params))
      ensures cfg == old(cfg) && status == old(status) && ctrl == old(ctrl) && ready == old(ready)
    {
      ts := [];
      err := ReturnIfNotReady(ready);
      if err != ESP_OK {
        return;
      }
      var io';
      err, io', ts := Configuration.Set(io, params);
      io := io';
    }

    /** `handle_alert()`: refused before detection; otherwise the six flag
        registers are read, which clears them on the device. */
    method HandleAlert() returns (err: Err, ghost ts: seq<Transfer>)
      modifies this
      ensures !old(ready) ==> err == ESP_ERR_INVALID_STATE && io == old(io) && status == old(status)
      ensures io.transfers == old(io.transfers) + ts
      ensures old(ready) ==> Ran(ts, Status.FlagsSlots, Rd, err) && status == Status.ReadFrom(old(status), ts, 7)
      ensures cfg == old(cfg) && ctrl == old(ctrl) && ready == old(ready)
    {
      ts := [];
      err := ReturnIfNotReady(ready);
      if err != ESP_OK {
        return;
      }
      var io';
      err, io', status, ts := Status.GetFlags(io, status);
      io := io';
    }

    /** `reset()`: refused before detection; otherwise the watchdog-reset
        command. */
    method Reset() returns (err: Err, ghost ts: seq<Transfer>)
      modifies this
      ensures !old(ready) ==> err == ESP_ERR_INVALID_STATE && io == old(io)
      ensures io.transfers == old(io.transfers) + ts
      ensures old(ready) ==> Ctrl.CommandRan(ts, Ctrl.REG_RESET, Ctrl.RESET_COMMAND, err)
      ensures cfg == old(cfg) && status == old(status) && ctrl == old(ctrl) && ready == old(ready)
    {
      ts := [];
      err := ReturnIfNotReady(ready);
      if err != ESP_OK {
        return;
      }
      var io';
      err, io', ts := Ctrl.SendReset(io);
      io := io';
    }

    /** `get_status()`: refused before detection; otherwise the seven status
        registers are read. */
    method GetStatus() returns (err: Err, ghost ts: seq<Transfer>)
      modifies this
      ensures !old(ready) ==> err == ESP_ERR_INVALID_STATE && io == old(io) && status == old(status)
      ensures io.transfers == old(io.transfers) + ts
      ensures old(ready) ==> Ran(ts, Status.StatusSlots, Rd, err) && status == Status.ReadFrom(old(status), ts, 0)
      ensures cfg == old(cfg) && ctrl == old(ctrl) && ready == old(ready)
    {
      ts := [];
      err := ReturnIfNotReady(ready);
      if err != ESP_OK {
        return;
      }
      var io';
      err, io', status, ts := Status.GetStatus(io, status);
      io := io';
    }

    /** The first block of `get_measurements()`: when the loaded ADC control
        selects one-shot conversions, enable the ADC and, if that succeeded,
        wait CONVERSION_TICKS ticks for the conversion; otherwise nothing. */
    method StartConversion() returns (err: Err, ghost enable: seq<Transfer>)
      modifies this
      ensures io.transfers == old(io.transfers) + enable
      ensures Oneshot(cfg) ==> Ctrl.CommandRan(enable, Ctrl.REG_ADC_CONTROL, Ctrl.EN_ADC_COMMAND, err)
      ensures !Oneshot(cfg) ==> enable == [] && err == ESP_OK
      ensures cfg == old(cfg) && status == old(status) && ctrl == old(ctrl) && ready == old(ready)
    {
      err, enable := ESP_OK, [];
      if Oneshot(cfg) {
        var io';
        err, io', enable := Ctrl.EnAdc(io);
        io := io';
        if err != ESP_OK {
          return;
        }
        var dev := DelayTicks(io.dev, CONVERSION_TICKS);
        io := io.(dev := dev);
      }
    }

    /** `get_measurements()`: start a conversion as StartConversion does,
        before, and whatever, the readiness check; then, once detected, read
        the ICO limit and the ADC results. */
    method GetMeasurements() returns (err: Err, ghost enable: seq<Transfer>, ghost enableErr: Err, ghost results: seq<Transfer>)
      modifies this
      ensures io.transfers == old(io.transfers) + enable + results
      ensures Oneshot(old(cfg)) ==> Ctrl.CommandRan(enable, Ctrl.REG_ADC_CONTROL, Ctrl.EN_ADC_COMMAND, enableErr)
      ensures !Oneshot(old(cfg)) ==> enable == [] && enableErr == ESP_OK
      ensures enableErr != ESP_OK ==> err == enableErr && results == [] && ctrl == old(ctrl)
      ensures enableErr == ESP_OK && !old(ready) ==> err == ESP_ERR_INVALID_STATE && results == [] && ctrl == old(ctrl)
      ensures enableErr == ESP_OK && old(ready) ==> Ran(results, Ctrl.CtrlSlots, Rd, err) && ctrl == Ctrl.ReadFrom(old(ctrl), results, 0)
      ensures cfg == old(cfg) && status == old(status) && ready == old(ready)
    {
      results := [];
      err, enable := StartConversion();
      enableErr := err;
      if err != ESP_OK {
        return;
      }
      err := ReturnIfNotReady(ready);
      if err != ESP_OK {
        return;
      }
      var io';
      err, io', ctrl, results := Ctrl.Get(io, ctrl);
      io := io';
    }

    /** `init_device()`: detect the charger; if found, load the start-up
        configuration into `cfg`, read the status registers and, if that
        succeeds, write the configuration. An undetected charger leaves the
        configuration and status untouched. */
    method InitDevice(kc: Defaults.Kconfig) returns (err: Err, ghost attempts: seq<Transfer>, ghost statusReads: seq<Transfer>,
                                                     ghost statusErr: Err, ghost writes: seq<Transfer>)
      modifies this
      ensures io.transfers == old(io.transfers) + attempts + statusReads + writes
      ensures 1 <= |attempts| <= MAX_ATTEMPTS
      ensures ready <==> Ctrl.ReadyOutcome(attempts[|attempts| - 1]) == ESP_OK
      ensures !ready ==> err == ESP_ERR_TIMEOUT && |attempts| == MAX_ATTEMPTS && statusReads == [] && writes == []
                         && cfg == old(cfg) && status == old(status)
      ensures ready ==> Defaults.FromKconfig(kc, cfg)
      ensures ready ==> Ran(statusReads, Status.StatusSlots, Rd, statusErr)
                        && status == Status.ReadFrom(old(status), statusReads, 0)
      ensures ready && statusErr != ESP_OK ==> err == statusErr && writes == []
      ensures ready && statusErr == ESP_OK ==> Ran(writes, Configuration.ConfigSlots, Wr, err)
                                               && Carried(writes, Configuration.ParamsPayload(cfg))
      ensures ctrl == old(ctrl)
    {
      statusReads, statusErr, writes := [], ESP_OK, [];
      err, attempts := IsReady();
      if err != ESP_OK {
        return;
      }
      cfg := Defaults.LoadConfigFromKconfig(kc);
      err, statusReads := GetStatus();
      statusErr := err;
      if err != ESP_OK {
        return;
      }
      err, writes := ApplyConfig(cfg);
    }

    /** One pass of the alert task's loop (`task_main()`), given what the
        two looks at the alert line and the notification wait return: the
        flags are read exactly when the pass handles an alert. */
    method AlertStep(levelBefore: int, notified: nat, levelAfter: int) returns (handled: bool, ghost ts: seq<Transfer>)
      modifies this
      ensures handled == AlertHandled(levelBefore, notified, levelAfter)
      ensures io.transfers == old(io.transfers) + ts
      ensures !handled ==> io == old(io) && status == old(status)
      ensures handled && old(ready) ==> exists err :: Ran(ts, Status.FlagsSlots, Rd, err)
      ensures handled && old(ready) ==> status == Status.ReadFrom(old(status), ts, 7)
      ensures handled && !old(ready) ==> io == old(io) && status == old(status)
      ensures cfg == old(cfg) && ctrl == old(ctrl) && ready == old(ready)
    {
      ts := [];
      handled := false;
      if levelBefore == 0 || notified != 0 {
        if levelAfter == 0 {
          handled := true;
          var err;
          err, ts := HandleAlert();
        }
      }
    }
  }
}
