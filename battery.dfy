/** The battery monitor: a delayable work item that powers the voltage divider, samples it
    with the ADC, scales the reading back to the battery voltage, reports it, and schedules
    itself again. GPIO, ADC, sleep, work-queue and service calls are recorded as effects in
    `trace`; the codes and readings they return are parameters. */
module Battery {
  import opened Common
  import opened Sequencing

  /** `VOLTAGE_DIVIDER_SCALE`: the divider feeds the ADC one eleventh of the battery voltage. */
  const VOLTAGE_DIVIDER_SCALE: int := 11

  /** The delay, in seconds, before retrying a measurement whose divider could not be enabled. */
  const RETRY_SECONDS: nat := 1

  datatype Effect =
    | EnableDivider                     // gpio_pin_set_dt(&battery_enable, 1)
    | DisableDivider                    // gpio_pin_set_dt(&battery_enable, 0)
    | SleepMs(ms: nat)                  // k_sleep(K_MSEC(ms))
    | AdcRead                           // adc_read(adc_chan0.dev, &sequence)
    | RawToMillivolts(raw: u16)         // adc_raw_to_millivolts_dt(&adc_chan0, &battery_value)
    | NotifyBattery(mv: i32)            // tgm_service_send_battery_notify(battery_value)
    | AppDataReady(mv: i32)             // app_data_ready(battery_value)
    | Reschedule(seconds: nat)          // k_work_reschedule(&battery_measurement_work, K_SECONDS(seconds))
    | ChannelSetup                      // adc_channel_setup_dt(&adc_chan0)
    | SequenceInit                      // adc_sequence_init_dt(&adc_chan0, &sequence)
    | InitWork                          // k_work_init_delayable(&battery_measurement_work, take_battery_measurement)
    | ConfigureEnablePin                // gpio_pin_configure_dt(&battery_enable, GPIO_OUTPUT)

  /** The stored battery voltage after a reading: the converted value times the divider
      scale, wrapped to the `int32_t` it is stored in. */
  function Scaled(converted: i32): (mv: i32)
    ensures -0x8000_0000 <= converted * VOLTAGE_DIVIDER_SCALE < 0x8000_0000 ==> mv == converted * VOLTAGE_DIVIDER_SCALE
  {
    WrapInt32(converted * VOLTAGE_DIVIDER_SCALE)
  }

  /** What one measurement does. `enableErr`, `adcErr` and `convErr` are the codes of the
      divider enable, the ADC read and the raw-to-millivolt conversion; `raw` is the ADC
      sample and `converted` what the conversion leaves in the value; `hasCallback` tells
      whether an application callback is registered. */
  function MeasurementEffects(enableErr: int, adcErr: int, raw: u16, convErr: int, converted: i32,
                              hasCallback: bool, intervalSeconds: nat): (es: seq<Effect>)
    ensures |es| >= 2 && es[0] == EnableDivider
    ensures es[|es| - 1] == Reschedule(if enableErr != 0 then RETRY_SECONDS else intervalSeconds)
  {
    if enableErr != 0 then [EnableDivider, Reschedule(RETRY_SECONDS)]
    else
      [EnableDivider, SleepMs(1), AdcRead]
      + (if adcErr != 0 then []
         else [RawToMillivolts(raw)]
              + (if convErr != 0 then []
                 else [NotifyBattery(Scaled(converted))] + (if hasCallback then [AppDataReady(Scaled(converted))] else [])))
      + [DisableDivider, Reschedule(intervalSeconds)]
  }

  /** The stored value after one measurement: replaced exactly when the divider was enabled
      and the ADC read succeeded, whether or not the conversion did, and then by the scaled
      conversion result. */
  function MeasuredValue(old_value: i32, enableErr: int, adcErr: int, converted: i32): (v: i32)
    ensures enableErr != 0 || adcErr != 0 ==> v == old_value
    ensures enableErr == 0 && adcErr == 0 ==> v == Scaled(converted)
  {
    if enableErr == 0 && adcErr == 0 then Scaled(converted) else old_value
  }

  predicate IsReschedule(e: Effect)
  {
    e.Reschedule?
  }

  /** Every measurement ends by scheduling exactly one next one: after one second when the
      divider could not be enabled, after the configured interval otherwise. The divider is
      switched off whenever it was switched on. The client and the application hear of a
      value exactly when enable, read and conversion all succeeded, and then it is the
      scaled reading the monitor stores; the application only if it registered a callback. */
  lemma {:induction false} MeasurementReschedulesOnce(enableErr: int, adcErr: int, raw: u16, convErr: int,
                                                      converted: i32, hasCallback: bool, intervalSeconds: nat)
    ensures var es := MeasurementEffects(enableErr, adcErr, raw, convErr, converted, hasCallback, intervalSeconds);
      && Occurrences(es, IsReschedule) == 1
      && es[|es| - 1] == Reschedule(if enableErr != 0 then RETRY_SECONDS else intervalSeconds)
      && (DisableDivider in es <==> enableErr == 0)
      && (AdcRead in es <==> enableErr == 0)
      && (enableErr == 0 ==> es[1] == SleepMs(1) && es[2] == AdcRead)
      && ((exists e :: e in es && e.NotifyBattery?) <==> enableErr == 0 && adcErr == 0 && convErr == 0)
      && ((exists e :: e in es && e.AppDataReady?) <==> enableErr == 0 && adcErr == 0 && convErr == 0 && hasCallback)
      && (forall e :: e in es && (e.NotifyBattery? || e.AppDataReady?) ==>
            e.mv == Scaled(converted))
  {
    var es := MeasurementEffects(enableErr, adcErr, raw, convErr, converted, hasCallback, intervalSeconds);
    var last := Reschedule(if enableErr != 0 then RETRY_SECONDS else intervalSeconds);
    assert es[|es| - 1] == last;
    NoRescheduleBeforeLast(es);
    if enableErr == 0 && adcErr == 0 && convErr == 0 {
      assert es[4] == NotifyBattery(Scaled(converted));
      if hasCallback {
        assert es[5] == AppDataReady(Scaled(converted));
      }
    }
  }

  /** A sequence whose only reschedule is its last element holds exactly one. */
  lemma {:induction false} NoRescheduleBeforeLast(es: seq<Effect>)
    requires |es| > 0 && es[|es| - 1].Reschedule?
    requires forall j :: 0 <= j < |es| - 1 ==> !es[j].Reschedule?
    ensures Occurrences(es, IsReschedule) == 1
  {
    if |es| > 1 {
      NoRescheduleBeforeLast(es[1..]);
    }
  }

  /** The calls `battery_init` makes once the ADC is ready: channel setup and sequence
      init, which can fail, then the work item set-up, which cannot, and last the
      configuration of the divider-enable pin, whose code is returned. */
  function InitSteps(setupErr: int, seqErr: int, pinErr: int): (steps: seq<Step<Effect>>)
    ensures |steps| == 4 && steps[2] == Step(InitWork, 0)
    ensures steps[|steps| - 1] == Step(ConfigureEnablePin, pinErr)
    ensures forall j :: 0 <= j < |steps| - 1 && steps[j].err != 0 ==>
              steps[j] == Step(ChannelSetup, setupErr) || steps[j] == Step(SequenceInit, seqErr)
  {
    [Step(ChannelSetup, setupErr), Step(SequenceInit, seqErr),
     Step(InitWork, 0), Step(ConfigureEnablePin, pinErr)]
  }

  /** Init stops at a failed channel setup, having made no other call. */
  lemma InitStopsAtSetup(setupErr: int, seqErr: int, pinErr: int)
    requires setupErr != 0
    ensures RunSteps(InitSteps(setupErr, seqErr, pinErr)) == Run([ChannelSetup], setupErr)
  {
    RunStopsAtFirstFailure(InitSteps(setupErr, seqErr, pinErr), 0);
  }

  /** Init stops at a failed sequence init, before the work item is set up. */
  lemma InitStopsAtSequence(setupErr: int, seqErr: int, pinErr: int)
    requires setupErr == 0 && seqErr != 0
    ensures RunSteps(InitSteps(setupErr, seqErr, pinErr)) == Run([ChannelSetup, SequenceInit], seqErr)
  {
    var steps := InitSteps(setupErr, seqErr, pinErr);
    RunStopsAtFirstFailure(steps, 1);
    assert Effects(steps[..2]) == [ChannelSetup, SequenceInit];
  }

  /** Once setup and sequence init succeed, init makes all four calls and returns the code of
      the pin configuration. */
  lemma InitReachesEnablePin(setupErr: int, seqErr: int, pinErr: int)
    requires setupErr == 0 && seqErr == 0
    ensures RunSteps(InitSteps(setupErr, seqErr, pinErr)) ==
            Run([ChannelSetup, SequenceInit, InitWork, ConfigureEnablePin], pinErr)
  {
    var steps := InitSteps(setupErr, seqErr, pinErr);
    if pinErr != 0 {
      RunStopsAtFirstFailure(steps, 3);
      assert steps[..4] == steps;
    } else {
      RunAllSucceed(steps);
    }
  }

  /** The module's statics: the measurement interval, the last value, whether an application
      callback is registered, and the calls made so far. */
  class BatteryMonitor {
    /** CONFIG_BATTERY_MEASUREMENT_INTERVAL, in seconds. */
    const intervalSeconds: nat
    var batteryValue: i32
    var hasCallback: bool
    var trace: seq<Effect>

    constructor (intervalSeconds: nat)
      ensures this.intervalSeconds == intervalSeconds
      ensures batteryValue == 0 && !hasCallback && trace == []
    {
      this.intervalSeconds := intervalSeconds;
      batteryValue := 0;
      hasCallback := false;
      trace := [];
    }

    /** `take_battery_measurement`. */
    method TakeMeasurement(enableErr: int, adcErr: int, raw: u16, convErr: int, converted: i32)
      modifies this`batteryValue, this`trace
      ensures batteryValue == MeasuredValue(old(batteryValue), enableErr, adcErr, converted)
      ensures trace == old(trace) + MeasurementEffects(enableErr, adcErr, raw, convErr, converted, hasCallback, intervalSeconds)
    {
      trace := trace + [EnableDivider];
      if enableErr != 0 {
        trace := trace + [Reschedule(RETRY_SECONDS)];
        return;
      }
      trace := trace + [SleepMs(1), AdcRead];
      if adcErr == 0 {
        batteryValue := raw;
        trace := trace + [RawToMillivolts(raw)];
        batteryValue := converted;
        batteryValue := Scaled(batteryValue);
        if convErr == 0 {
          trace := trace + [NotifyBattery(batteryValue)];
          if hasCallback {
            trace := trace + [AppDataReady(batteryValue)];
          }
        }
      }
      trace := trace + [DisableDivider, Reschedule(intervalSeconds)];
    }

    /** `battery_init`: -ENODEV with no call made when the ADC is not ready; otherwise channel
        setup and sequence init, stopping at the first failure. After both succeed the
        callback is stored (a NULL one included) and the work item set up, and the result is
        that of configuring the divider-enable pin. */
    method Init(adcReady: bool, setupErr: int, seqErr: int, callback: bool, pinErr: int) returns (r: int)
      modifies this`hasCallback, this`trace
      ensures !adcReady ==> r == -ENODEV && trace == old(trace) && hasCallback == old(hasCallback)
      ensures adcReady ==>
        && r == RunSteps(InitSteps(setupErr, seqErr, pinErr)).err
        && trace == old(trace) + RunSteps(InitSteps(setupErr, seqErr, pinErr)).done
        && hasCallback == if setupErr == 0 && seqErr == 0 then callback else old(hasCallback)
    {
      if !adcReady {
        return -ENODEV;
      }
      trace := trace + [ChannelSetup];
      if setupErr != 0 {
        InitStopsAtSetup(setupErr, seqErr, pinErr);
        return setupErr;
      }
      trace := trace + [SequenceInit];
      if seqErr != 0 {
        InitStopsAtSequence(setupErr, seqErr, pinErr);
        return seqErr;
      }
      hasCallback := callback;
      trace := trace + [InitWork, ConfigureEnablePin];
      InitReachesEnablePin(setupErr, seqErr, pinErr);
      r := pinErr;
    }

    /** `battery_start_measurement`: schedules a measurement now and passes a negative result
        of the reschedule through; 0 and 1 (already scheduled, rescheduled) both become 0. */
    method StartMeasurement(rescheduleResult: int) returns (r: int)
      modifies this`trace
      ensures trace == old(trace) + [Reschedule(0)]
      ensures r <= 0 && (r < 0 <==> rescheduleResult < 0) && (r < 0 ==> r == rescheduleResult)
    {
      trace := trace + [Reschedule(0)];
      if rescheduleResult < 0 {
        return rescheduleResult;
      }
      r := 0;
    }

    /** `battery_get_last_measurement`: the stored value, with nothing changed. */
    method GetLastMeasurement() returns (mv: i32)
      ensures mv == batteryValue
    {
      mv := batteryValue;
    }
  }
}
