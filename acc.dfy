/** The accelerometer application module: the interrupt handler that defers reading to a
    work item, the worker that reads one frame and notifies it, and the init, start and stop
    routines. GPIO, work-queue, driver and service calls are recorded as effects in `trace`;
    the codes they return are parameters. */
module Acc {
  import opened Common
  import opened Sequencing
  import Lis2dtw12

  /** The interrupt modes this module configures on its pin. */
  datatype IntMode = EdgeToActive | Disabled

  datatype Effect =
    | ConfigurePinInput                     // gpio_pin_configure_dt(&acc_int, GPIO_INPUT)
    | InitCallback(pinMask: nat)            // gpio_init_callback(&acc_int_cb, acc_int_handler, BIT(pin))
    | AddCallback                           // gpio_add_callback(acc_int.port, &acc_int_cb)
    | InitReadWork                          // k_work_init(&read_acc_data_work, acc_read_data)
    | ConfigureInterrupt(mode: IntMode)     // gpio_pin_interrupt_configure_dt(&acc_int, mode)
    | SensorStart                           // acc_sensor_start(&i2c)
    | SensorStop                            // acc_sensor_stop(&i2c)
    | SubmitReadWork                        // k_work_submit(&read_acc_data_work)
    | SensorGetData                         // acc_sensor_get_data(&i2c, acc_data, &sample_count)
    | NotifyAcc(samples: seq<Lis2dtw12.AccSample>, count: u8)  // tgm_service_send_acc_notify(acc_data, sample_count)

  /** The calls `acc_init` makes once the bus and the pin are ready, with the codes they
      return: the read work item is set up last, and only configuring the pin and adding the
      callback can fail. */
  function InitSteps(pin: PinNumber, configErr: int, addErr: int): (steps: seq<Step<Effect>>)
    ensures |steps| == 4 && steps[|steps| - 1] == Step(InitReadWork, 0)
    ensures forall j :: 0 <= j < |steps| && steps[j].err != 0 ==>
              steps[j] == Step(ConfigurePinInput, configErr) || steps[j] == Step(AddCallback, addErr)
  {
    [Step(ConfigurePinInput, configErr), Step(InitCallback(Bit(pin)), 0),
     Step(AddCallback, addErr), Step(InitReadWork, 0)]
  }

  /** The calls `acc_start` makes: arm the interrupt, then start the sensor. */
  function StartSteps(intErr: int, startErr: int): (steps: seq<Step<Effect>>)
    ensures |steps| == 2 && steps[0] == Step(ConfigureInterrupt(EdgeToActive), intErr)
    ensures steps[|steps| - 1] == Step(SensorStart, startErr)
  {
    [Step(ConfigureInterrupt(EdgeToActive), intErr), Step(SensorStart, startErr)]
  }

  /** The calls `acc_stop` makes: stop the sensor, then disarm the interrupt. */
  function StopSteps(stopErr: int, intErr: int): (steps: seq<Step<Effect>>)
    ensures |steps| == 2 && steps[0] == Step(SensorStop, stopErr)
    ensures steps[|steps| - 1] == Step(ConfigureInterrupt(Disabled), intErr)
  {
    [Step(SensorStop, stopErr), Step(ConfigureInterrupt(Disabled), intErr)]
  }

  /** The read worker is registered if and only if the pin was configured as an input and the
      interrupt callback was added, and init then returns 0. */
  lemma InitRegistersWorkIffPinSetUp(pin: PinNumber, configErr: int, addErr: int)
    ensures InitReadWork in RunSteps(InitSteps(pin, configErr, addErr)).done
            <==> configErr == 0 && addErr == 0
    ensures RunSteps(InitSteps(pin, configErr, addErr)).err == 0 <==> configErr == 0 && addErr == 0
  {
    var steps := InitSteps(pin, configErr, addErr);
    if configErr != 0 {
      RunStopsAtFirstFailure(steps, 0);
    } else if addErr != 0 {
      RunStopsAtFirstFailure(steps, 2);
      assert Effects(steps[..3]) == [ConfigurePinInput, InitCallback(Bit(pin)), AddCallback];
    } else {
      RunAllSucceed(steps);
      assert Effects(steps)[3] == InitReadWork;
    }
  }

  /** The sensor is started only once its interrupt is armed; a failure to arm it is returned
      and the sensor is left alone. */
  lemma StartArmsInterruptFirst(intErr: int, startErr: int)
    ensures SensorStart in RunSteps(StartSteps(intErr, startErr)).done <==> intErr == 0
    ensures RunSteps(StartSteps(intErr, startErr)).err == (if intErr != 0 then intErr else startErr)
  {
    var steps := StartSteps(intErr, startErr);
    var done := RunSteps(steps).done;
    StepReachedIffEarlierSucceeded(steps, 1);
    if SensorStart in done {
      var k :| 0 <= k < |done| && done[k] == SensorStart;
      assert steps[k].effect == SensorStart;
    }
  }

  /** The interrupt is disarmed only once the sensor has stopped. */
  lemma StopDisarmsInterruptLast(stopErr: int, intErr: int)
    ensures ConfigureInterrupt(Disabled) in RunSteps(StopSteps(stopErr, intErr)).done <==> stopErr == 0
    ensures RunSteps(StopSteps(stopErr, intErr)).err == (if stopErr != 0 then stopErr else intErr)
  {
    var steps := StopSteps(stopErr, intErr);
    var done := RunSteps(steps).done;
    StepReachedIffEarlierSucceeded(steps, 1);
    if ConfigureInterrupt(Disabled) in done {
      var k :| 0 <= k < |done| && done[k] == ConfigureInterrupt(Disabled);
      assert steps[k].effect == ConfigureInterrupt(Disabled);
    }
  }

  /** The module's statics: the interrupt pin from the device tree and the calls made so far. */
  class AccApp {
    const intPin: PinNumber
    var trace: seq<Effect>

    constructor (intPin: PinNumber)
      ensures this.intPin == intPin && trace == []
    {
      this.intPin := intPin;
      trace := [];
    }

    /** `acc_int_handler`: submits the read work exactly when the callback's pin mask holds
        the accelerometer's interrupt pin. */
    method IntHandler(pins: u32)
      modifies this`trace
      ensures PinInMask(pins, intPin) ==> trace == old(trace) + [SubmitReadWork]
      ensures !PinInMask(pins, intPin) ==> trace == old(trace)
    {
      if (pins / Bit(intPin)) % 2 == 1 {
        trace := trace + [SubmitReadWork];
      }
    }

    /** `acc_read_data`: reads a frame and notifies it only when the read succeeds; the
        notification's result is only logged. */
    method ReadData(getErr: int, samples: seq<Lis2dtw12.AccSample>, count: u8)
      modifies this`trace
      ensures getErr != 0 ==> trace == old(trace) + [SensorGetData]
      ensures getErr == 0 ==> trace == old(trace) + [SensorGetData, NotifyAcc(samples, count)]
    {
      trace := trace + [SensorGetData];
      if getErr != 0 {
        return;
      }
      trace := trace + [NotifyAcc(samples, count)];
    }

    /** `acc_init`: -ENODEV with no call made when the bus or the interrupt pin is not ready;
        otherwise the init sequence, stopping at the first failure. */
    method Init(busReady: bool, pinReady: bool, configErr: int, addErr: int) returns (r: int)
      modifies this`trace
      ensures !(busReady && pinReady) ==> r == -ENODEV && trace == old(trace)
      ensures busReady && pinReady ==>
        && r == RunSteps(InitSteps(intPin, configErr, addErr)).err
        && trace == old(trace) + RunSteps(InitSteps(intPin, configErr, addErr)).done
    {
      if !busReady || !pinReady {
        return -ENODEV;
      }
      trace := trace + [ConfigurePinInput];
      if configErr != 0 {
        RunStopsAtFirstFailure(InitSteps(intPin, configErr, addErr), 0);
        return configErr;
      }
      trace := trace + [InitCallback(Bit(intPin)), AddCallback];
      if addErr != 0 {
        RunStopsAtFirstFailure(InitSteps(intPin, configErr, addErr), 2);
        return addErr;
      }
      trace := trace + [InitReadWork];
      RunAllSucceed(InitSteps(intPin, configErr, addErr));
      r := 0;
    }

    /** `acc_start`: the start sequence, stopping at the first failure. */
    method Start(intErr: int, startErr: int) returns (r: int)
      modifies this`trace
      ensures r == RunSteps(StartSteps(intErr, startErr)).err
      ensures trace == old(trace) + RunSteps(StartSteps(intErr, startErr)).done
    {
      trace := trace + [ConfigureInterrupt(EdgeToActive)];
      if intErr != 0 {
        return intErr;
      }
      trace := trace + [SensorStart];
      if startErr != 0 {
        return startErr;
      }
      r := 0;
    }

    /** `acc_stop`: the stop sequence, stopping at the first failure. */
    method Stop(stopErr: int, intErr: int) returns (r: int)
      modifies this`trace
      ensures r == RunSteps(StopSteps(stopErr, intErr)).err
      ensures trace == old(trace) + RunSteps(StopSteps(stopErr, intErr)).done
    {
      trace := trace + [SensorStop];
      if stopErr != 0 {
        return stopErr;
      }
      trace := trace + [ConfigureInterrupt(Disabled)];
      if intErr != 0 {
        return intErr;
      }
      r := 0;
    }
  }
}
