# TGM wearable firmware — verified model of the sensor and BLE core

This project models the core of the TGM wearable's firmware, a Zephyr application on a
Nordic SoC. The core consists of:

- **Two I2C sensor drivers.**
  - LIS2DTW12 accelerometer (`Lis2dtw12`) and MAXM86161 optical PPG sensor (`Maxm86161`).
  - Each driver has its start and stop register sequences.
  - Each driver reads its FIFO and decodes the bytes into samples.
  - The PPG driver also has single-register read and write.
- **The TGM GATT service** (`TgmService`).
  - Four subscription flags, set from the client's CCC writes.
  - The notification gates that send a payload only while its flag is set.
  - Callback registration and the battery pull accessor.
  - The service's attribute table.
- **The application modules.**
  - `Acc`: interrupt handler, read worker, init, start and stop.
  - `Ppg`: the same, plus the register read/write worker.
  - `Battery`: the periodic measurement worker, init, start, and the last-value accessor.

Modules whose C code updates statics step by step are modelled as classes:

- fields hold the statics;
- methods carry `modifies` clauses;
- every call into Zephyr is recorded as an effect: appended to the `trace` field of the `Acc`, `Ppg` and `Battery` classes or to the `calls` field of `TgmService.Service`, or returned by a driver method as a list of bus transfers. These calls go to the GPIO, I2C, ADC, work-queue, sleep and Bluetooth APIs.

What a Zephyr call returns is a parameter of the method: an error code, a byte, a reading. Each method is therefore proved for every possible outcome of the hardware and the stack.

The recurring "call, and return at the first non-zero code" chain has a single definition, `Sequencing.RunSteps`. The init/start/stop methods are proved against it.

C integer behaviour is written out:

- `uint8_t`/`int16_t`/`int32_t` truncation becomes `%` or the `AsInt16`/`WrapInt32` conversions;
- a bit mask becomes a remainder or a quotient;
- an OR of disjoint byte positions becomes a sum.

Where the header documentation and the code disagree, the model follows the code:

- `ppg_read_reg` sends no BLE report;
- the driver's `ppg_sample` has a `green` channel;
- the service's send functions take frame structs.

## Model

| member | source | states |
|---|---|---|
| Common.AsInt16 | drivers/sensor/lis2dtw12/lis2dtw12.c:172-174 | storing a 16-bit pattern in an `int16_t` keeps it modulo 2^16 and is negative exactly when bit 15 is set |
| Common.Int16Bits | drivers/sensor/lis2dtw12/lis2dtw12.c:172-174 | the bit pattern of an `int16_t` converts back to the same value |
| Common.Int16BitsOfAsInt16 | drivers/sensor/lis2dtw12/lis2dtw12.c:172-174 | the pattern-to-int16 conversion is undone by the int16-to-pattern one |
| Common.WrapInt32 | app/src/battery.c:64 | 32-bit wrap-around agrees with the true value modulo 2^32 and is the identity in range |
| Common.LittleEndian16 | app/src/tgm_service.c:65 | the two bytes a `uint16_t` occupies in little-endian memory recombine to the value |
| Common.Bit | app/src/acc.c:40 | `BIT(pin)` is at least 1, so the pin-mask test is always defined; its value is fixed by the lemmas below |
| Common.BitParity | app/src/acc.c:40 | only the mask of pin 0 is odd |
| Common.BitOfSum | app/src/acc.c:40 | `BIT(q + k)` is `BIT(q)` times `BIT(k)`: shifting composes |
| Common.TopBit | app/src/acc.c:40 | the mask of pin 31 is 0x8000_0000 |
| Common.BitFitsWord | app/src/acc.c:100 | every pin mask fits the 32-bit mask passed to `gpio_init_callback` |
| Common.BitQuotient | app/src/acc.c:40 | the mask of p divided by the mask of q is the mask of p - q when q <= p, and 0 otherwise |
| Common.BitSelectsOnlyItsPin | app/src/ppg.c:114 | the callback mask `BIT(pin)` fits 32 bits, and the handler test `pins & BIT(q)` holds on it exactly for q == pin |
| Common.PinInMask | app/src/ppg.c:53 | `pins & BIT(pin)` is non-zero exactly when `pins` modulo `2 * BIT(pin)` reaches `BIT(pin)`, the arithmetic form of "bit pin is set" |
| Sequencing.RunSteps | app/src/acc.c:114-133 | a fail-fast chain makes a prefix of its calls, all but the last made succeeded, the last made supplies the code, and 0 means every call was made and succeeded |
| Sequencing.Effects | app/src/acc.c:114-133 | the effects of a chain in which every call succeeds, one per step |
| Sequencing.RunIsPrefix | app/src/acc.c:114-133 | the calls made are a prefix of the full list, and all of it on success |
| Sequencing.StepReachedIffEarlierSucceeded | app/src/ppg.c:129-159 | call k is made if and only if every earlier call succeeded |
| Sequencing.RunStopsAtFirstFailure | app/src/ppg.c:129-159 | when call k is the first failure, exactly calls 0..k are made and k's code is returned |
| Sequencing.RunAllSucceed | app/src/ppg.c:129-159 | when no call fails, all are made and 0 is returned |
| Sequencing.Occurrences | app/src/ppg.c:207-249 | counts matching effects; zero exactly when none matches |
| Lis2dtw12.FifoCtrl | drivers/sensor/lis2dtw12/lis2dtw12.c:68 | `0x20 \| N` sets bit 5 and keeps every other bit of N |
| Lis2dtw12.FifoCtrlFields | drivers/sensor/lis2dtw12/lis2dtw12.c:67-69 | for frames below 32, FIFO_CTRL holds mode 0b001 in bits 7..5 and the frame size as threshold in bits 4..0 |
| Lis2dtw12.Start | drivers/sensor/lis2dtw12/lis2dtw12.c:63-108 | five single-byte writes (FIFO_CTRL, CTRL6=0x04, CTRL4=0x02, CTRL7=0x20, CTRL1=0x43) are made whatever each returns, and the result is 0 |
| Lis2dtw12.Stop | drivers/sensor/lis2dtw12/lis2dtw12.c:110-131 | CTRL7 then CTRL1 are written with 0 regardless of failures, and the result is 0 |
| Lis2dtw12.Overflowed | drivers/sensor/lis2dtw12/lis2dtw12.c:147 | `status & 0x40` is set exactly when status modulo 0x80 is at least 0x40 |
| Lis2dtw12.FifoLevel | drivers/sensor/lis2dtw12/lis2dtw12.c:154 | `status & 0x3F` is the value below 64 that differs from the status by a multiple of 64, which is the status itself when bits 7 and 6 are clear |
| Lis2dtw12.FifoCount | drivers/sensor/lis2dtw12/lis2dtw12.c:145-156 | after an overflow the frame size, otherwise the FIFO level, unclamped (at most 63) |
| Lis2dtw12.ByteCount | drivers/sensor/lis2dtw12/lis2dtw12.c:159 | the `uint8_t` byte count is 6 per sample modulo 256: exactly 6 per sample below 43 samples, short of it from 43 on |
| Lis2dtw12.Int16LittleEndian | drivers/sensor/lis2dtw12/lis2dtw12.c:172-174 | an axis is the int16 whose bit pattern is low byte plus 256 times high byte |
| Lis2dtw12.AxisBytes | drivers/sensor/lis2dtw12/lis2dtw12.c:172-174 | the byte pair the sensor sends for an axis value |
| Lis2dtw12.AxisRoundTrip | drivers/sensor/lis2dtw12/lis2dtw12.c:172-174 | axis decoding and encoding are inverse in both directions |
| Lis2dtw12.SampleAt | drivers/sensor/lis2dtw12/lis2dtw12.c:169-177 | sample i takes x, y, z from bytes 6i..6i+5, low byte first |
| Lis2dtw12.DecodeExamples | drivers/sensor/lis2dtw12/lis2dtw12.c:172-174 | the burst 10 00 20 00 30 00 decodes as (16, 32, 48), and FF FF as -1 |
| Lis2dtw12.GetData | drivers/sensor/lis2dtw12/lis2dtw12.c:133-180 | the transfers made, a sample count given by the count rule, the first count array entries decoded from the burst and the rest untouched, and a result that is always 0 |
| Lis2dtw12.UnclampedCountOverrunsFrame | drivers/sensor/lis2dtw12/lis2dtw12.c:152-156 | a FIFO level of 63 without overflow asks for more samples than any frame below 63 holds |
| Lis2dtw12.ByteCountWrapsAt43 | drivers/sensor/lis2dtw12/lis2dtw12.c:159 | 43 samples need 258 bytes but the stored byte count is 2 |
| Lis2dtw12.ClampedFifoCount | drivers/sensor/lis2dtw12/lis2dtw12.c:145-156 | corrected count: never above the frame, and equal to the written rule whenever that one fits |
| Lis2dtw12.WideByteCount | drivers/sensor/lis2dtw12/lis2dtw12.c:159 | corrected byte count: six bytes per sample with no wrap, agreeing with the `uint8_t` count exactly below 43 samples |
| Lis2dtw12.CorrectedReadsInBounds | drivers/sensor/lis2dtw12/lis2dtw12.c:159-177 | with the corrected counts every byte read is in the buffer and every sample written is in the frame |
| Maxm86161.FifoConfig1Value | drivers/sensor/maxm86161/maxm86161.c:17-19 | FIFO_CONFIG1 plus 3N is 128 modulo 256, and exactly 128 - 3N when 3N <= 128 |
| Maxm86161.Start | drivers/sensor/maxm86161/maxm86161.c:13-95 | the ten transfers, including the 2-byte INT_STAT read, are made whatever each returns, and the result is 0 |
| Maxm86161.Stop | drivers/sensor/maxm86161/maxm86161.c:97-126 | INT_EN1=0, LED1_PA..=0,0,0, SYSTEM_CONTROL=0x02 are written regardless of failures, and the result is 0 |
| Maxm86161.ClampCount | drivers/sensor/maxm86161/maxm86161.c:151-155 | the count is at most 3N and at most the raw count, unchanged when it fits, and exactly 3N when the raw count exceeds 3N |
| Maxm86161.FifoCount | drivers/sensor/maxm86161/maxm86161.c:140-156 | after a successful count read: at most 3N, the raw count when it fits, exactly 3N when it does not; after a failed one: the unclamped value of the uninitialised local |
| Maxm86161.SampleCount | drivers/sensor/maxm86161/maxm86161.c:166 | the sample count is the entry count divided by 3, rounded down |
| Maxm86161.SampleCountWithinFrame | drivers/sensor/maxm86161/maxm86161.c:140-166 | after a successful count read at most N samples are parsed: raw / 3 when the count fits, and exactly N when the FIFO holds at least 3N entries |
| Maxm86161.Channel | drivers/sensor/maxm86161/maxm86161.c:170-172 | a reading is the 24-bit big-endian value of three bytes, reduced to 19 bits |
| Maxm86161.ChannelBytes | drivers/sensor/maxm86161/maxm86161.c:170-172 | the three bytes the sensor sends for a 19-bit reading |
| Maxm86161.ChannelRoundTrip | drivers/sensor/maxm86161/maxm86161.c:170-172 | decoding the bytes of a 19-bit reading gives it back |
| Maxm86161.SampleAt | drivers/sensor/maxm86161/maxm86161.c:168-174 | red is decoded from bytes 6i..6i+2, IR from 6i+3..6i+5, green from 6i+6..6i+8, each channel below 2^19 |
| Maxm86161.ParseReadsInBuffer | drivers/sensor/maxm86161/maxm86161.c:158-172 | every byte the parse loop reads lies within the buffer of 3 bytes per FIFO entry |
| Maxm86161.GetData | drivers/sensor/maxm86161/maxm86161.c:128-177 | the three reads, the sample count (at most N after a successful count read), the first count entries decoded and the rest untouched, and a result that is always 0 |
| Maxm86161.ReadReg | drivers/sensor/maxm86161/maxm86161.c:179-188 | one 1-byte read whose code is returned unchanged |
| Maxm86161.WriteReg | drivers/sensor/maxm86161/maxm86161.c:190-199 | one 1-byte write whose code is returned unchanged |
| Maxm86161.ConsecutiveSamplesOverlap | drivers/sensor/maxm86161/maxm86161.c:170-172 | as written, sample i's green is decoded from the bytes of sample i+1's red |
| Maxm86161.OverlapExample | drivers/sensor/maxm86161/maxm86161.c:170-172 | the burst of samples (1,2,3),(4,5,6) parses as (3,4,5) at index 1 as written and as (4,5,6) corrected |
| Maxm86161.Packed | drivers/sensor/maxm86161/maxm86161.c:168-174 | the sensor's burst for a list of samples is nine bytes per sample (only the length; the contents are pinned by `Maxm86161.PackedRoundTrip`) |
| Maxm86161.PackedSampleAt | drivers/sensor/maxm86161/maxm86161.c:168-174 | corrected parser with a 9-byte stride yields 19-bit readings |
| Maxm86161.PackedSampleAfterHead | drivers/sensor/maxm86161/maxm86161.c:168-174 | behind one 9-byte sample, the corrected parser's sample i is sample i - 1 of the rest |
| Maxm86161.PackedRoundTrip | drivers/sensor/maxm86161/maxm86161.c:168-174 | the corrected parser recovers every sample of a burst |
| Maxm86161.UnclampedCountAfterReadError | drivers/sensor/maxm86161/maxm86161.c:141-156 | as written, a failed count read whose uninitialised count holds 255 parses 85 samples for a frame of 10 |
| Maxm86161.ClampedFifoCount | drivers/sensor/maxm86161/maxm86161.c:141-156 | corrected count: at most 3N entries and N samples, the raw count when it fits and exactly 3N when it does not, equal to the written rule after a successful read |
| TgmService.CharacteristicAttributes | app/src/tgm_service.c:96-135 | a characteristic has declaration and value attributes, plus a CCC when it notifies |
| TgmService.AttributeTableLayout | app/src/tgm_service.c:93-135 | the 17 attributes of the service in order |
| TgmService.NotifyAttrIndex | app/src/tgm_service.c:147-185 | the indices 4, 6, 8, 10 the send functions use are even positions inside the 17-entry attribute table |
| TgmService.NotifyIndicesMissValues | app/src/tgm_service.c:147-185 | the notify indices 4, 6, 8, 10 name the firmware version value, the battery value, the PPG declaration and the PPG CCC, never the characteristic's own value |
| TgmService.ValueAttrIndex | app/src/tgm_service.c:93-135 | corrected index: the characteristic's value attribute, followed by its CCC |
| TgmService.PpgFrameSize | app/src/tgm_service.h:62-68 | the PPG frame struct is a 4-byte counter followed by exactly n 8-byte samples, a multiple of 4 with no padding |
| TgmService.AccFrameSize | app/src/tgm_service.h:71-77 | the accelerometer frame struct size is the 4-byte counter plus 6 bytes per sample, padded to a multiple of 4 |
| TgmService.DeviceIdValue | app/src/tgm_service.c:79 | the 64-bit device id holds DEVICEID[0] in its low and DEVICEID[1] in its high word |
| TgmService.Service.constructor | app/src/tgm_service.c:17-28 | no subscriptions, no callbacks, battery value 0 at boot |
| TgmService.Service.CccPpgDataChanged | app/src/tgm_service.c:30-34 | the PPG flag becomes (value == NOTIFY) and the other flags are unchanged |
| TgmService.Service.CccAccDataChanged | app/src/tgm_service.c:36-40 | the accelerometer flag becomes (value == NOTIFY) and the other flags are unchanged |
| TgmService.Service.CccTempDataChanged | app/src/tgm_service.c:42-46 | the temperature flag becomes (value == NOTIFY) and the other flags are unchanged |
| TgmService.Service.CccBatteryChanged | app/src/tgm_service.c:48-52 | the battery flag becomes (value == NOTIFY) and the other flags are unchanged |
| TgmService.Service.GetBatValue | app/src/tgm_service.c:55-69 | with a battery callback, the cached value becomes its result mod 2^16 and its two bytes are read, returning the read's result; otherwise 0, with nothing read or changed |
| TgmService.Service.Init | app/src/tgm_service.c:137-145 | a non-NULL callback struct replaces the registration, a NULL one keeps it, and the result is 0 |
| TgmService.Service.SendBatteryNotify | app/src/tgm_service.c:147-155 | -EACCES and no stack call when unsubscribed; otherwise one 4-byte notify whose result is returned |
| TgmService.Service.SendPpgNotify | app/src/tgm_service.c:157-165 | -EACCES and no stack call when unsubscribed; otherwise one frame-sized notify whose result is returned |
| TgmService.Service.SendAccNotify | app/src/tgm_service.c:167-175 | -EACCES and no stack call when unsubscribed; otherwise one frame-sized notify whose result is returned |
| TgmService.Service.SendTempNotify | app/src/tgm_service.c:177-185 | -EACCES and no stack call when unsubscribed; otherwise one 8-byte notify whose result is returned |
| Acc.InitSteps | app/src/acc.c:73-112 | four calls, the read work item set up last, and only the pin configuration and the callback add can fail |
| Acc.StartSteps | app/src/acc.c:114-133 | the interrupt is armed first and the sensor started last, each with its own code |
| Acc.StopSteps | app/src/acc.c:135-154 | the sensor is stopped first and the interrupt disarmed last, each with its own code |
| Acc.InitRegistersWorkIffPinSetUp | app/src/acc.c:73-112 | the read worker is registered, and init returns 0, exactly when pin configuration and callback registration both succeed |
| Acc.StartArmsInterruptFirst | app/src/acc.c:114-133 | the sensor is started exactly when the interrupt was armed, and the first failure's code is returned |
| Acc.StopDisarmsInterruptLast | app/src/acc.c:135-154 | the interrupt is disarmed exactly when the sensor stopped, and the first failure's code is returned |
| Acc.AccApp.constructor | app/src/acc.c:15-24 | the module starts with its interrupt pin and no calls made |
| Acc.AccApp.IntHandler | app/src/acc.c:38-47 | the read work is submitted exactly when the pin mask holds the interrupt pin |
| Acc.AccApp.ReadData | app/src/acc.c:49-71 | the frame is notified exactly when reading it succeeded |
| Acc.AccApp.Init | app/src/acc.c:73-112 | -ENODEV with no call when bus or pin is not ready; otherwise the fail-fast init chain |
| Acc.AccApp.Start | app/src/acc.c:114-133 | the fail-fast chain arm-interrupt, start-sensor |
| Acc.AccApp.Stop | app/src/acc.c:135-154 | the fail-fast chain stop-sensor, disarm-interrupt |
| Ppg.InitSteps | app/src/ppg.c:86-127 | six calls: the power-enable pin first and never a failure, the two work items last, and only the pin configuration and the callback add can fail |
| Ppg.StartSteps | app/src/ppg.c:129-159 | power on, the 10 ms wait, arming the interrupt and last the sensor start, each with its own code |
| Ppg.StopSteps | app/src/ppg.c:161-180 | the sensor is stopped first and the interrupt disarmed last, each with its own code |
| Ppg.InitStopsAtPin | app/src/ppg.c:86-127 | a failed pin configuration ends init after powering the sensor and configuring the pin, returning that code |
| Ppg.InitStopsAtCallback | app/src/ppg.c:86-127 | a failed callback add ends init after the callback was initialised for the pin, returning that code |
| Ppg.InitCompletes | app/src/ppg.c:86-127 | when both fallible calls succeed all six calls are made and init returns 0 |
| Ppg.InitRegistersWorkIffPinSetUp | app/src/ppg.c:86-127 | both work items are registered, and init returns 0, exactly when pin configuration and callback registration succeed; the power-enable pin's code never matters |
| Ppg.StartPowersAndArmsFirst | app/src/ppg.c:129-159 | the 10 ms wait happens exactly when powering succeeded, the sensor starts exactly when powering and arming succeeded, and the first failure's code is returned |
| Ppg.StopDisarmsInterruptLast | app/src/ppg.c:161-180 | the interrupt is disarmed exactly when the sensor stopped, and the first failure's code is returned |
| Ppg.RegWorkEffects | app/src/ppg.c:207-249 | the worker's first access is the request's read or write, it stops there exactly when that access fails, and a write is followed by a read-back |
| Ppg.RegWorkRepliesAtMostOnce | app/src/ppg.c:207-249 | the register worker sends at most one reply, and exactly one when its first access succeeded (a write is answered even when the read-back fails); a read request never writes |
| Ppg.PpgApp.constructor | app/src/ppg.c:15-28 | the module starts with its interrupt pin, a zeroed register request and no calls made |
| Ppg.PpgApp.IntHandler | app/src/ppg.c:51-60 | the read work is submitted exactly when the pin mask holds the interrupt pin |
| Ppg.PpgApp.ReadData | app/src/ppg.c:62-84 | the frame is notified exactly when reading it succeeded |
| Ppg.PpgApp.Init | app/src/ppg.c:86-127 | -ENODEV with no call when bus or pin is not ready; otherwise the fail-fast init chain |
| Ppg.PpgApp.Start | app/src/ppg.c:129-159 | the fail-fast chain power, wait, arm-interrupt, start-sensor |
| Ppg.PpgApp.Stop | app/src/ppg.c:161-180 | the fail-fast chain stop-sensor, disarm-interrupt |
| Ppg.PpgApp.ReadReg | app/src/ppg.c:182-193 | one register read whose code is returned, with no report to the client |
| Ppg.PpgApp.WriteReg | app/src/ppg.c:195-205 | one register write whose code is returned, with no report to the client |
| Ppg.PpgApp.RegWorkHandler | app/src/ppg.c:207-249 | the worker's calls are those of the pending request's read or write path |
| Battery.Scaled | app/src/battery.c:59-64 | the stored voltage is 11 times the converted reading whenever that fits in 32 bits |
| Battery.MeasurementEffects | app/src/battery.c:34-90 | a measurement starts by enabling the divider and ends by rescheduling: after 1 s when the enable failed, after the interval otherwise |
| Battery.MeasuredValue | app/src/battery.c:34-90 | the stored value is kept when the enable or the ADC read fails, and is the scaled reading otherwise |
| Battery.MeasurementReschedulesOnce | app/src/battery.c:34-90 | exactly one reschedule, last: 1 s after an enable failure, the interval otherwise; the divider is switched off, and the ADC read (after the 1 ms wait) made, exactly when it was switched on; a battery notification (of any value) is sent exactly when enable, read and conversion succeed, the app callback exactly when additionally one is registered, and both carry the scaled reading |
| Battery.NoRescheduleBeforeLast | app/src/battery.c:44-88 | a trace whose only reschedule is its last element holds exactly one |
| Battery.InitSteps | app/src/battery.c:92-125 | four calls: the work item set-up third and never a failure, the pin configuration last, and only channel setup and sequence init can fail before it |
| Battery.InitStopsAtSetup | app/src/battery.c:92-125 | a failed channel setup ends init with no other call, returning that code |
| Battery.InitStopsAtSequence | app/src/battery.c:92-125 | a failed sequence init ends init before the work item is set up, returning that code |
| Battery.InitReachesEnablePin | app/src/battery.c:92-125 | once setup and sequence init succeed all four calls are made and the pin configuration's code is returned |
| Battery.BatteryMonitor.constructor | app/src/battery.c:17-32 | no value, no callback, no calls at boot |
| Battery.BatteryMonitor.TakeMeasurement | app/src/battery.c:34-90 | the stored value is replaced exactly when enable and read succeed, even if the conversion failed; the calls are the measurement's |
| Battery.BatteryMonitor.Init | app/src/battery.c:92-125 | -ENODEV with no call when the ADC is not ready; the callback is stored exactly when setup and sequence init succeed; the pin configuration's code is returned |
| Battery.BatteryMonitor.StartMeasurement | app/src/battery.c:127-139 | a negative reschedule result is returned, anything else becomes 0 |
| Battery.BatteryMonitor.GetLastMeasurement | app/src/battery.c:141-144 | the stored value is returned |

## Left out

- `app/src/ble.c` and `app/src/main.c` are not part of this model. They cover advertising, the connection callbacks and the boot sequence.
- Logging calls are left out. Each source error branch that only logs is modelled as a branch that does nothing.
- Zephyr's drivers and stacks are not modelled: I2C, GPIO, ADC, the work queue, `k_sleep` and `bt_gatt_*`. Each call becomes an effect or a transfer, and its outcome becomes a method parameter.
- The `k_work` semantics are not modelled: queuing, coalescing of repeated submits, and concurrency between the ISR, the workers and the Bluetooth thread. Handlers are methods called one at a time.
- `tgm_service_send_read_ppg_reg_notify` and `tgm_service_send_write_ppg_reg_notify` are declared in `tgm_service.h` but have no definition in the service. They appear only as effects of the register worker.
- The header declares `tgm_service_send_*_notify` with signatures that differ from their definitions (samples and count; `int16_t` temperature).
  - The workers call the header form, and `Acc.Effect.NotifyAcc` / `Ppg.Effect.NotifyPpg` record those arguments.
  - The service methods take the defined frame structs.
  - The model does not connect the two.
- Frame counters are never incremented anywhere in the service or the workers. Frames carry whatever counter the caller supplies.
- The firmware version read (`get_fw_version`) is left out. The string is a build product, and the read only passes its length to the stack.
- `get_uuid_value` is modelled only through `TgmService.DeviceIdValue`, which combines the two FICR words. The read itself is a stack call.
- The driver header's `struct ppg_sample` has no `green` field, although the driver writes one. `Maxm86161.PpgSample` keeps `green`, as the driver does. `TgmService.PpgFrameSize` uses the header's 8 bytes per sample.
- The MAXM86161 register addresses are defined in a header that is not part of this model, so registers are named rather than numbered.
- Kconfig frame sizes (`CONFIG_*_SAMPLES_PER_FRAME`) are modelled as `uint8_t` values. The drivers use them only in `uint8_t` expressions.
- Battery.Scaled: `battery_value *= 11` overflowing `int32_t` is undefined behaviour in C. The model wraps it modulo 2^32.
- Lis2dtw12.GetData: requires that the burst holds the `6 * count` bytes the parse loop reads. That fails from 43 samples on, where the C code reads past its buffer; see Findings.
- `Lis2dtw12.GetData` and `Maxm86161.GetData`: require the caller's array to hold the parsed sample count. The C arrays are one frame long, and the as-written count can exceed that; see Findings.
- Ppg.PpgApp.RegWorkHandler: when the read-back after a write fails, the reply carries an uninitialised local. The model lets the caller choose that byte (`value`).
- Ppg.PpgApp.ReadReg: the header says the register is reported over BLE, but the code drops the byte and sends nothing. The model follows the code.
- `app/src/ppg.c` never assigns `ppg_reg_work.reg`, `.data` or `.read` and never submits `ppg_reg_work.reg_work`; it only initialises the work item, so the register worker is unreachable in the firmware. `Ppg.PpgApp.regWork` is a field the handler reads, zeroed at boot as the static is.

## Findings

| source | as written | input that shows it | evidently intended | confidence | as-written member | corrected member |
|---|---|---|---|---|---|---|
| drivers/sensor/lis2dtw12/lis2dtw12.c:152-156 | without the overflow flag the FIFO level is used unclamped | FIFO_SAMPLES = 0x3F with a frame of 10: 63 samples are written into a 10-entry array | clamp the level to the frame size | not executed | Lis2dtw12.UnclampedCountOverrunsFrame | Lis2dtw12.ClampedFifoCount |
| drivers/sensor/lis2dtw12/lis2dtw12.c:159 | `uint8_t byte_count = count * 6` wraps | 43 samples: byte count 2, parse loop reads 258 bytes | keep the byte count in a wider integer | not executed | Lis2dtw12.ByteCountWrapsAt43 | Lis2dtw12.WideByteCount |
| drivers/sensor/maxm86161/maxm86161.c:170-172 | samples parsed with a 6-byte stride although each spans 9 bytes | burst of samples (1,2,3),(4,5,6): index 1 parses as (3,4,5) | stride of 9 bytes per sample | not executed | Maxm86161.ConsecutiveSamplesOverlap | Maxm86161.PackedSampleAt |
| drivers/sensor/maxm86161/maxm86161.c:141-156 | the count is clamped only when its read succeeds | failed FIFO_DATA_CNT read with the uninitialised count holding 255: 85 samples into a 10-sample frame | clamp (or abort) on every path | not executed | Maxm86161.UnclampedCountAfterReadError | Maxm86161.ClampedFifoCount |
| app/src/tgm_service.c:154 | notify attribute indices 4, 6, 8, 10 | battery notifies through index 4, the firmware version value | the value attributes 6, 9, 12, 15 | not executed | TgmService.NotifyIndicesMissValues | TgmService.ValueAttrIndex |
