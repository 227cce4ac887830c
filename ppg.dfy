/** The PPG application module: the interrupt handler and read worker, init, start and stop,
    the register accessors and the register worker that reads or writes one sensor register
    and reports the outcome to the client. GPIO, work-queue, sleep, driver and service calls
    are recorded as effects in `trace`; the codes and bytes they return are parameters. */
module Ppg {
  import opened Common
  import opened Sequencing
  import Maxm86161

  datatype IntMode = EdgeToActive | Disabled

  datatype Effect =
    | ConfigureSensEnableHigh               // gpio_pin_configure_dt(&sens_enable, GPIO_OUTPUT_HIGH)
    | ConfigurePinInput                     // gpio_pin_configure_dt(&ppg_int, GPIO_INPUT)
    | InitCallback(pinMask: nat)            // gpio_init_callback(&ppg_int_cb, ppg_int_handler, BIT(pin))
    | AddCallback                           // gpio_add_callback(ppg_int.port, &ppg_int_cb)
    | InitReadWork                          // k_work_init(&read_ppg_data_work, ppg_read_data)
    | InitRegWork                           // k_work_init(&ppg_reg_work.reg_work, ppg_reg_work_handler)
    | PowerOn                               // gpio_pin_set_dt(&sens_enable, 1)
    | SleepMs(ms: nat)                      // k_sleep(K_MSEC(ms))
    | ConfigureInterrupt(mode: IntMode)     // gpio_pin_interrupt_configure_dt(&ppg_int, mode)
    | SensorStart                           // ppg_sensor_start(&i2c)
    | SensorStop                            // ppg_sensor_stop(&i2c)
    | SubmitReadWork                        // k_work_submit(&read_ppg_data_work)
    | SensorGetData                         // ppg_sensor_get_data(&i2c, ppg_data, &sample_count)
    | NotifyPpg(samples: seq<Maxm86161.PpgSample>, count: u8)  // tgm_service_send_ppg_notify(ppg_data, sample_count)
    | RegRead(reg: u8)                      // ppg_sensor_read_reg(&i2c, reg, &data)
    | RegWrite(reg: u8, data: u8)           // ppg_sensor_write_reg(&i2c, reg, data)
    | NotifyReadReply(value: u8)            // tgm_service_send_read_ppg_reg_notify(value)
    | NotifyWriteReply(value: u8)           // tgm_service_send_write_ppg_reg_notify(value)

  /** The calls `ppg_init` makes once the bus and the pin are ready. The code returned by
      configuring the power-enable pin is overwritten before it is tested, so that call is
      never a failure here: only configuring the interrupt pin and adding the callback can
      fail. The two work items are set up last. */
  function InitSteps(pin: PinNumber, configErr: int, addErr: int): (steps: seq<Step<Effect>>)
    ensures |steps| == 6 && steps[0] == Step(ConfigureSensEnableHigh, 0)
    ensures steps[4] == Step(InitReadWork, 0) && steps[5] == Step(InitRegWork, 0)
    ensures forall j :: 0 <= j < |steps| && steps[j].err != 0 ==>
              steps[j] == Step(ConfigurePinInput, configErr) || steps[j] == Step(AddCallback, addErr)
  {
    [Step(ConfigureSensEnableHigh, 0), Step(ConfigurePinInput, configErr),
     Step(InitCallback(Bit(pin)), 0), Step(AddCallback, addErr),
     Step(InitReadWork, 0), Step(InitRegWork, 0)]
  }

  /** The calls `ppg_start` makes: power the sensor, wait 10 ms for it, arm the interrupt,
      start the sensor. */
  function StartSteps(powerErr: int, intErr: int, startErr: int): (steps: seq<Step<Effect>>)
    ensures |steps| == 4 && steps[0] == Step(PowerOn, powerErr) && steps[1] == Step(SleepMs(10), 0)
    ensures steps[2] == Step(ConfigureInterrupt(EdgeToActive), intErr)
    ensures steps[|steps| - 1] == Step(SensorStart, startErr)
  {
    [Step(PowerOn, powerErr), Step(SleepMs(10), 0),
     Step(ConfigureInterrupt(EdgeToActive), intErr), Step(SensorStart, startErr)]
  }

  /** The calls `ppg_stop` makes: stop the sensor, then disarm the interrupt. */
  function StopSteps(stopErr: int, intErr: int): (steps: seq<Step<Effect>>)
    ensures |steps| == 2 && steps[0] == Step(SensorStop, stopErr)
    ensures steps[|steps| - 1] == Step(ConfigureInterrupt(Disabled), intErr)
  {
    [Step(SensorStop, stopErr), Step(ConfigureInterrupt(Disabled), intErr)]
  }

  /** Init stops at a failed pin configuration, after powering the sensor. */
  lemma InitStopsAtPin(pin: PinNumber, configErr: int, addErr: int)
    requires configErr != 0
    ensures RunSteps(InitSteps(pin, configErr, addErr)) ==
            Run([ConfigureSensEnableHigh, ConfigurePinInput], configErr)
  {
    var steps := InitSteps(pin, configErr, addErr);
    RunStopsAtFirstFailure(steps, 1);
    assert Effects(steps[..2]) == [ConfigureSensEnableHigh, ConfigurePinInput];
  }

  /** Init stops at a failed callback add, with the callback initialised for the pin. */
  lemma InitStopsAtCallback(pin: PinNumber, configErr: int, addErr: int)
    requires configErr == 0 && addErr != 0
    ensures RunSteps(InitSteps(pin, configErr, addErr)) ==
            Run([ConfigureSensEnableHigh, ConfigurePinInput, InitCallback(Bit(pin)), AddCallback], addErr)
  {
    var steps := InitSteps(pin, configErr, addErr);
    RunStopsAtFirstFailure(steps, 3);
    assert Effects(steps[..4]) == [ConfigureSensEnableHigh, ConfigurePinInput, InitCallback(Bit(pin)), AddCallback];
  }

  /** Init with both fallible calls succeeding makes all six calls and returns 0. */
  lemma InitCompletes(pin: PinNumber, configErr: int, addErr: int)
    requires configErr == 0 && addErr == 0
    ensures RunSteps(InitSteps(pin, configErr, addErr)) ==
            Run([ConfigureSensEnableHigh, ConfigurePinInput, InitCallback(Bit(pin)), AddCallback,
                 InitReadWork, InitRegWork], 0)
  {
    var steps := InitSteps(pin, configErr, addErr);
    RunAllSucceed(steps);
  }

  /** Both work items are registered if and only if the pin was configured as an input and
      the interrupt callback was added; init then returns 0. */
  lemma InitRegistersWorkIffPinSetUp(pin: PinNumber, configErr: int, addErr: int)
    ensures InitReadWork in RunSteps(InitSteps(pin, configErr, addErr)).done
            <==> configErr == 0 && addErr == 0
    ensures InitRegWork in RunSteps(InitSteps(pin, configErr, addErr)).done
            <==> configErr == 0 && addErr == 0
    ensures RunSteps(InitSteps(pin, configErr, addErr)).err == 0 <==> configErr == 0 && addErr == 0
  {
    if configErr != 0 {
      InitStopsAtPin(pin, configErr, addErr);
    } else if addErr != 0 {
      InitStopsAtCallback(pin, configErr, addErr);
    } else {
      InitCompletes(pin, configErr, addErr);
    }
  }

  /** The sensor is started only when it was powered and its interrupt armed, and the 10 ms
      power-up wait happens only when powering it succeeded. */
  lemma StartPowersAndArmsFirst(powerErr: int, intErr: int, startErr: int)
    ensures SleepMs(10) in RunSteps(StartSteps(powerErr, intErr, startErr)).done <==> powerErr == 0
    ensures SensorStart in RunSteps(StartSteps(powerErr, intErr, startErr)).done
            <==> powerErr == 0 && intErr == 0
    ensures RunSteps(StartSteps(powerErr, intErr, startErr)).err ==
            if powerErr != 0 then powerErr else if intErr != 0 then intErr else startErr
  {
    var steps := StartSteps(powerErr, intErr, startErr);
    if powerErr != 0 {
      RunStopsAtFirstFailure(steps, 0);
      assert Effects(steps[..1]) == [PowerOn];
    } else if intErr != 0 {
      RunStopsAtFirstFailure(steps, 2);
      assert Effects(steps[..3]) == [PowerOn, SleepMs(10), ConfigureInterrupt(EdgeToActive)];
    } else if startErr != 0 {
      RunStopsAtFirstFailure(steps, 3);
      assert Effects(steps[..4])[1] == SleepMs(10) && Effects(steps[..4])[3] == SensorStart;
    } else {
      RunAllSucceed(steps);
      assert Effects(steps)[1] == SleepMs(10) && Effects(steps)[3] == SensorStart;
    }
  }

  /** The interrupt is disarmed only once the sensor has stopped. */
  lemma StopDisarmsInterruptLast(stopErr: int, intErr: int)
    ensures ConfigureInterrupt(Disabled) in RunSteps(StopSteps(stopErr, intErr)).done <==> stopErr == 0
    ensures RunSteps(StopSteps(stopErr, intErr)).err == (if stopErr != 0 then stopErr else intErr)
  {
    var steps := StopSteps(stopErr, intErr);
    if stopErr != 0 {
      RunStopsAtFirstFailure(steps, 0);
      assert Effects(steps[..1]) == [SensorStop];
    } else {
      StepReachedIffEarlierSucceeded(steps, 1);
      assert RunSteps(steps).done[1] == ConfigureInterrupt(Disabled);
    }
  }

  /** `struct ppg_reg_work_t`: the register request the worker carries out. */
  datatype RegWork = RegWork(reg: u8, data: u8, read: bool)

  /** What the register worker does for `work`. `firstErr` is the result of its first bus
      access (the read of a read request, the write of a write request), `readBackErr` that
      of the read that follows a successful write, and `value` the byte the worker holds
      after its reads; when the read-back fails that byte is the uninitialised local. */
  function RegWorkEffects(work: RegWork, firstErr: int, readBackErr: int, value: u8): (es: seq<Effect>)
    ensures |es| >= 1 && es[0] == if work.read then RegRead(work.reg) else RegWrite(work.reg, work.data)
    ensures |es| == 1 <==> firstErr != 0
    ensures !work.read && firstErr == 0 ==> es[1] == RegRead(work.reg)
  {
    if work.read then
      if firstErr != 0 then [RegRead(work.reg)]
      else [RegRead(work.reg), NotifyReadReply(value)]
    else
      if firstErr != 0 then [RegWrite(work.reg, work.data)]
      else [RegWrite(work.reg, work.data), RegRead(work.reg), NotifyWriteReply(value)]
  }

  predicate IsReply(e: Effect)
  {
    e.NotifyReadReply? || e.NotifyWriteReply?
  }

  /** The register worker sends at most one reply, and sends one exactly when its first bus
      access succeeded: a read request is answered with a read reply, a write request with a
      write reply, even when the read-back after the write fails. The register is written
      for a write request and never for a read request. */
  lemma RegWorkRepliesAtMostOnce(work: RegWork, firstErr: int, readBackErr: int, value: u8)
    ensures Occurrences(RegWorkEffects(work, firstErr, readBackErr, value), IsReply) <= 1
    ensures Occurrences(RegWorkEffects(work, firstErr, readBackErr, value), IsReply) == 1 <==> firstErr == 0
    ensures work.read && firstErr == 0 ==> NotifyReadReply(value) in RegWorkEffects(work, firstErr, readBackErr, value)
    ensures !work.read && firstErr == 0 ==> NotifyWriteReply(value) in RegWorkEffects(work, firstErr, readBackErr, value)
    ensures work.read <==> forall e :: e in RegWorkEffects(work, firstErr, readBackErr, value) ==> !e.RegWrite?
  {
    var es := RegWorkEffects(work, firstErr, readBackErr, value);
    assert Occurrences(es, IsReply) == (if IsReply(es[0]) then 1 else 0) + Occurrences(es[1..], IsReply);
    if |es| > 1 {
      assert Occurrences(es[1..], IsReply) == (if IsReply(es[1]) then 1 else 0) + Occurrences(es[2..], IsReply);
    }
    if |es| > 2 {
      assert Occurrences(es[2..], IsReply) == (if IsReply(es[2]) then 1 else 0) + Occurrences(es[3..], IsReply);
    }
  }

  /** The module's statics: the interrupt pin, the pending register request and the calls
      made so far. */
  class PpgApp {
    const intPin: PinNumber
    var regWork: RegWork
    var trace: seq<Effect>

    constructor (intPin: PinNumber)
      ensures this.intPin == intPin && regWork == RegWork(0, 0, false) && trace == []
    {
      this.intPin := intPin;
      regWork := RegWork(0, 0, false);
      trace := [];
    }

    /** `ppg_int_handler`: submits the read work exactly when the callback's pin mask holds
        the PPG interrupt pin. */
    method IntHandler(pins: u32)
      modifies this`trace
      ensures PinInMask(pins, intPin) ==> trace == old(trace) + [SubmitReadWork]
      ensures !PinInMask(pins, intPin) ==> trace == old(trace)
    {
      if (pins / Bit(intPin)) % 2 == 1 {
        trace := trace + [SubmitReadWork];
      }
    }

    /** `ppg_read_data`: reads a frame and notifies it only when the read succeeds; the
        notification's result is only logged. */
    method ReadData(getErr: int, samples: seq<Maxm86161.PpgSample>, count: u8)
      modifies this`trace
      ensures getErr != 0 ==> trace == old(trace) + [SensorGetData]
      ensures getErr == 0 ==> trace == old(trace) + [SensorGetData, NotifyPpg(samples, count)]
    {
      trace := trace + [SensorGetData];
      if getErr != 0 {
        return;
      }
      trace := trace + [NotifyPpg(samples, count)];
    }

    /** `ppg_init`: -ENODEV with no call made when the bus or the interrupt pin is not ready;
        otherwise the init sequence, stopping at the first failure. `sensEnableErr` plays no
        part in the outcome. */
    method Init(busReady: bool, pinReady: bool, sensEnableErr: int, configErr: int, addErr: int) returns (r: int)
      modifies this`trace
      ensures !(busReady && pinReady) ==> r == -ENODEV && trace == old(trace)
      ensures busReady && pinReady ==>
        && r == RunSteps(InitSteps(intPin, configErr, addErr)).err
        && trace == old(trace) + RunSteps(InitSteps(intPin, configErr, addErr)).done
    {
      if !busReady || !pinReady {
        return -ENODEV;
      }
      var err := sensEnableErr;
      trace := trace + [ConfigureSensEnableHigh];
      err := configErr;
      trace := trace + [ConfigurePinInput];
      if err != 0 {
        InitStopsAtPin(intPin, configErr, addErr);
        return err;
      }
      trace := trace + [InitCallback(Bit(intPin)), AddCallback];
      err := addErr;
      if err != 0 {
        InitStopsAtCallback(intPin, configErr, addErr);
        return err;
      }
      trace := trace + [InitReadWork, InitRegWork];
      InitCompletes(intPin, configErr, addErr);
      r := 0;
    }

    /** `ppg_start`: the start sequence, stopping at the first failure. */
    method Start(powerErr: int, intErr: int, startErr: int) returns (r: int)
      modifies this`trace
      ensures r == RunSteps(StartSteps(powerErr, intErr, startErr)).err
      ensures trace == old(trace) + RunSteps(StartSteps(powerErr, intErr, startErr)).done
    {
      trace := trace + [PowerOn];
      if powerErr != 0 {
        RunStopsAtFirstFailure(StartSteps(powerErr, intErr, startErr), 0);
        return powerErr;
      }
      trace := trace + [SleepMs(10), ConfigureInterrupt(EdgeToActive)];
      if intErr != 0 {
        RunStopsAtFirstFailure(StartSteps(powerErr, intErr, startErr), 2);
        return intErr;
      }
      trace := trace + [SensorStart];
      if startErr != 0 {
        RunStopsAtFirstFailure(StartSteps(powerErr, intErr, startErr), 3);
        return startErr;
      }
      RunAllSucceed(StartSteps(powerErr, intErr, startErr));
      r := 0;
    }

    /** `ppg_stop`: the stop sequence, stopping at the first failure. */
    method Stop(stopErr: int, intErr: int) returns (r: int)
      modifies this`trace
      ensures r == RunSteps(StopSteps(stopErr, intErr)).err
      ensures trace == old(trace) + RunSteps(StopSteps(stopErr, intErr)).done
    {
      trace := trace + [SensorStop];
      if stopErr != 0 {
        return stopErr;
      }
      trace := trace + [ConfigureInterrupt(Disabled)];
      if intErr != 0 {
        return intErr;
      }
      r := 0;
    }

    /** `ppg_read_reg`: one register read whose code is returned; the byte read is dropped and
        nothing is reported to the client. */
    method ReadReg(reg: u8, readErr: int) returns (r: int)
      modifies this`trace
      ensures r == readErr
      ensures trace == old(trace) + [RegRead(reg)]
    {
      trace := trace + [RegRead(reg)];
      if readErr != 0 {
        return readErr;
      }
      r := 0;
    }

    /** `ppg_write_reg`: one register write whose code is returned; nothing is reported to
        the client. */
    method WriteReg(reg: u8, data: u8, writeErr: int) returns (r: int)
      modifies this`trace
      ensures r == writeErr
      ensures trace == old(trace) + [RegWrite(reg, data)]
    {
      trace := trace + [RegWrite(reg, data)];
      if writeErr != 0 {
        return writeErr;
      }
      r := 0;
    }

    /** `ppg_reg_work_handler`: carries out the pending register request. */
    method RegWorkHandler(firstErr: int, readBackErr: int, value: u8)
      modifies this`trace
      ensures trace == old(trace) + RegWorkEffects(regWork, firstErr, readBackErr, value)
    {
      if regWork.read {
        trace := trace + [RegRead(regWork.reg)];
        if firstErr != 0 {
          return;
        }
        trace := trace + [NotifyReadReply(value)];
      } else {
        trace := trace + [RegWrite(regWork.reg, regWork.data)];
        if firstErr != 0 {
          return;
        }
        // a failed read-back is only logged: the reply is sent all the same
        trace := trace + [RegRead(regWork.reg), NotifyWriteReply(value)];
      }
    }
  }
}
