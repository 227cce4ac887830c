/** Driver for the MAXM86161 optical (PPG) sensor: the register writes that start and stop it,
    the FIFO read that turns a burst of bytes into samples, and single-register read and write.
    As for the accelerometer, each method returns the transfers it issues, and what the bus
    answers is a parameter. The numeric register addresses live in a header that is not part
    of this model, so the registers are named, not numbered. */
module Maxm86161 {
  import opened Common

  /** Registers the driver touches; `Addr` is a register given by number to read_reg/write_reg. */
  datatype Reg =
    | FifoConfig1 | FifoConfig2 | LedSeqReg1 | LedRange1 | PpgConfig1 | PpgConfig2
    | Led1Pa | IntStat1 | IntEn1 | SystemControl | FifoOvfCnt | FifoDataCnt | FifoData
    | Addr(a: u8)

  /** LED channels read per sample: red, IR and green (`COLORS`). */
  const COLORS: nat := 3

  /** Bytes per FIFO entry: one 19-bit channel reading arrives as three bytes, so the burst
      for `count` entries is `count * 3` bytes long. */
  const BYTES_PER_ENTRY: nat := 3

  /** One PPG sample as the driver fills it in: three 19-bit channel readings. The header's
      `struct ppg_sample` declares only `red` and `ir`; the driver also writes `green`. */
  datatype PpgSample = PpgSample(red: u32, ir: u32, green: u32)

  // ---------------------------------------------------------------------------------------
  // Start and stop

  /** FIFO_CONFIG1 (FIFO almost-full threshold): `128 - COLORS * n` computed in `unsigned`
      and stored in a `uint8_t`, that is modulo 256. */
  function FifoConfig1Value(n: u8): (r: u8)
    ensures (r + COLORS * n) % 0x100 == 128
    ensures COLORS * n <= 128 ==> 128 - r == COLORS * n
  {
    (128 - COLORS * n) % 0x100
  }

  /** The transfers of `ppg_sensor_start`, in order: eight register writes and one 2-byte
      read of the interrupt status registers that clears them. */
  function StartTransfers(samplesPerFrame: u8): seq<Transfer<Reg>>
  {
    [BurstWrite(FifoConfig1, [FifoConfig1Value(samplesPerFrame)]),
     BurstWrite(LedSeqReg1, [0x23, 0x01, 0x00]),
     BurstWrite(LedRange1, [0x00, 0x00]),
     BurstWrite(PpgConfig1, [0x17]),
     BurstWrite(PpgConfig2, [0x08]),
     BurstWrite(Led1Pa, [0, 0, 0]),
     BurstRead(IntStat1, 2),
     BurstWrite(FifoConfig2, [0x1A]),
     BurstWrite(IntEn1, [0x80]),
     BurstWrite(SystemControl, [0x0C])]
  }

  /** `ppg_sensor_start`: every transfer is made whatever the earlier ones returned
      (`busErrs[k]` is what transfer `k` returns); failures are only logged and the result is
      always 0. */
  method Start(samplesPerFrame: u8, busErrs: seq<int>) returns (ret: int, transfers: seq<Transfer<Reg>>)
    requires |busErrs| == 10
    ensures ret == 0
    ensures transfers == StartTransfers(samplesPerFrame)
    ensures transfers[0].data == [FifoConfig1Value(samplesPerFrame)]
  {
    transfers := [BurstWrite(FifoConfig1, [FifoConfig1Value(samplesPerFrame)])];
    transfers := transfers + [BurstWrite(LedSeqReg1, [0x23, 0x01, 0x00])];
    transfers := transfers + [BurstWrite(LedRange1, [0x00, 0x00])];
    transfers := transfers + [BurstWrite(PpgConfig1, [0x17])];
    transfers := transfers + [BurstWrite(PpgConfig2, [0x08])];
    transfers := transfers + [BurstWrite(Led1Pa, [0, 0, 0])];
    transfers := transfers + [BurstRead(IntStat1, 2)];
    transfers := transfers + [BurstWrite(FifoConfig2, [0x1A])];
    transfers := transfers + [BurstWrite(IntEn1, [0x80])];
    transfers := transfers + [BurstWrite(SystemControl, [0x0C])];
    ret := 0;
  }

  /** `ppg_sensor_stop`: disable the FIFO interrupt, switch the LEDs off, enter power-save;
      each write is made whatever the earlier ones returned, and the result is always 0. */
  method Stop(busErrs: seq<int>) returns (ret: int, transfers: seq<Transfer<Reg>>)
    requires |busErrs| == 3
    ensures ret == 0
    ensures transfers == [BurstWrite(IntEn1, [0]), BurstWrite(Led1Pa, [0, 0, 0]), BurstWrite(SystemControl, [0x02])]
  {
    transfers := [BurstWrite(IntEn1, [0])];
    transfers := transfers + [BurstWrite(Led1Pa, [0, 0, 0])];
    transfers := transfers + [BurstWrite(SystemControl, [0x02])];
    ret := 0;
  }

  // ---------------------------------------------------------------------------------------
  // FIFO read: sample count

  /** The FIFO entry count clamped to one frame's worth of entries (`COLORS` per sample).
      The clamp only fires when `COLORS * n` is below `raw`, hence below 256, so storing it
      back in the `uint8_t` does not truncate. */
  function ClampCount(raw: u8, n: u8): (c: u8)
    ensures c <= COLORS * n
    ensures c <= raw
    ensures raw <= COLORS * n ==> c == raw
    ensures raw > COLORS * n ==> c == COLORS * n
  {
    if raw > COLORS * n then COLORS * n else raw
  }

  /** The entry count `ppg_sensor_get_data` goes on with: the clamp sits in the success
      branch of the FIFO_DATA_CNT read, so after a failed read the count is whatever the
      uninitialised local holds (`raw`), unclamped. */
  function FifoCount(cntErr: int, raw: u8, n: u8): (c: u8)
    ensures cntErr == 0 ==> c <= COLORS * n && (raw <= COLORS * n ==> c == raw)
    ensures cntErr == 0 && raw > COLORS * n ==> c == COLORS * n
    ensures cntErr != 0 ==> c == raw
  {
    if cntErr != 0 then raw else ClampCount(raw, n)
  }

  /** Samples parsed from `count` FIFO entries: `count / COLORS`, truncating. */
  function SampleCount(count: u8): (k: u8)
    ensures COLORS * k <= count < COLORS * (k + 1)
  {
    count / COLORS
  }

  /** After a successful count read the sample count never exceeds the frame size, and a
      FIFO holding at least a frame's worth of entries yields exactly one frame. */
  lemma SampleCountWithinFrame(raw: u8, n: u8)
    ensures SampleCount(FifoCount(0, raw, n)) <= n
    ensures raw <= COLORS * n ==> SampleCount(FifoCount(0, raw, n)) == raw / COLORS
    ensures raw >= COLORS * n ==> SampleCount(FifoCount(0, raw, n)) == n
  {
  }

  // ---------------------------------------------------------------------------------------
  // FIFO read: decoding

  /** One channel reading: three bytes, most significant first, masked to 19 bits
      (`((b0 << 16) | (b1 << 8) | b2) & 0x7ffff`; the ORs of disjoint byte positions are sums,
      the mask of the low 19 bits a remainder). */
  function Channel(b0: u8, b1: u8, b2: u8): (v: u32)
    ensures v < 0x8_0000
    ensures (b0 * 0x1_0000 + b1 * 0x100 + b2 - v) % 0x8_0000 == 0
  {
    var x := b0 * 0x1_0000 + b1 * 0x100 + b2;
    RemainderLeavesMultiple(x, 0x8_0000);
    x % 0x8_0000
  }

  /** The three FIFO bytes of a 19-bit reading, most significant first. */
  function ChannelBytes(v: u32): (b: seq<u8>)
    requires v < 0x8_0000
    ensures |b| == 3
  {
    [v / 0x1_0000, (v / 0x100) % 0x100, v % 0x100]
  }

  /** Decoding the encoding of a 19-bit reading gives it back. */
  lemma ChannelRoundTrip(v: u32)
    requires v < 0x8_0000
    ensures Channel(ChannelBytes(v)[0], ChannelBytes(v)[1], ChannelBytes(v)[2]) == v
  {
    var b := ChannelBytes(v);
    assert b[0] as int * 0x1_0000 + b[1] as int * 0x100 + b[2] as int == v;
  }

  /** Sample `i` as the parse loop reads it: red from bytes 6i..6i+2, IR from 6i+3..6i+5,
      green from 6i+6..6i+8. The stride is 6 bytes although a sample spans 9. */
  function SampleAt(fifo: seq<u8>, i: nat): (s: PpgSample)
    requires 6 * i + 9 <= |fifo|
    ensures s.red == Channel(fifo[6 * i], fifo[6 * i + 1], fifo[6 * i + 2])
    ensures s.ir == Channel(fifo[6 * i + 3], fifo[6 * i + 4], fifo[6 * i + 5])
    ensures s.green == Channel(fifo[6 * i + 6], fifo[6 * i + 7], fifo[6 * i + 8])
    ensures s.red < 0x8_0000 && s.ir < 0x8_0000 && s.green < 0x8_0000
  {
    PpgSample(Channel(fifo[6 * i], fifo[6 * i + 1], fifo[6 * i + 2]),
              Channel(fifo[6 * i + 3], fifo[6 * i + 4], fifo[6 * i + 5]),
              Channel(fifo[6 * i + 6], fifo[6 * i + 7], fifo[6 * i + 8]))
  }

  /** Every byte the parse loop reads lies in the `count * 3`-byte buffer: for sample
      `i < count / 3` the last byte read, 6i + 8, is below 3 * count. */
  lemma ParseReadsInBuffer(count: u8, i: nat)
    requires i < SampleCount(count)
    ensures 6 * i + 9 <= BYTES_PER_ENTRY * count
  {
    var k: int := SampleCount(count);
    assert 6 * i + 9 <= 6 * k + 3 <= 9 * k;
  }

  /** `ppg_sensor_get_data`. The bus answers FIFO_OVF_CNT with `ovf` (read, never used),
      FIFO_DATA_CNT with `raw` (code `cntErr`), and fills the `count * 3`-byte buffer with
      `fifo`; the result is always 0. The array requirement is where the C code is defined:
      the loop writes `count / 3` samples into the caller's array. */
  method GetData(samplesPerFrame: u8, ovfErr: int, ovf: u8, cntErr: int, raw: u8, dataErr: int,
                 fifo: seq<u8>, ppgData: array<PpgSample>)
    returns (ret: int, sampleCount: u8, transfers: seq<Transfer<Reg>>)
    requires |fifo| == BYTES_PER_ENTRY * FifoCount(cntErr, raw, samplesPerFrame)
    requires SampleCount(FifoCount(cntErr, raw, samplesPerFrame)) <= ppgData.Length
    modifies ppgData
    ensures ret == 0
    ensures sampleCount == SampleCount(FifoCount(cntErr, raw, samplesPerFrame))
    ensures cntErr == 0 ==> sampleCount <= samplesPerFrame
    ensures transfers == [BurstRead(FifoOvfCnt, 1), BurstRead(FifoDataCnt, 1), BurstRead(FifoData, |fifo|)]
    ensures forall i :: 0 <= i < sampleCount ==> ppgData[i] == SampleAt(fifo, i)
    ensures forall i :: sampleCount <= i < ppgData.Length ==> ppgData[i] == old(ppgData[i])
  {
    transfers := [BurstRead(FifoOvfCnt, 1)];
    transfers := transfers + [BurstRead(FifoDataCnt, 1)];

    var fifoDataCount := raw;
    if cntErr == 0 {
      if fifoDataCount > samplesPerFrame * COLORS {
        fifoDataCount := samplesPerFrame * COLORS;
      }
    }

    transfers := transfers + [BurstRead(FifoData, fifoDataCount * BYTES_PER_ENTRY)];

    sampleCount := fifoDataCount / COLORS;
    SampleCountWithinFrame(raw, samplesPerFrame);
    var i := 0;
    while i < sampleCount
      invariant 0 <= i <= sampleCount
      invariant forall k :: 0 <= k < i ==> ppgData[k] == SampleAt(fifo, k)
      invariant forall k :: i <= k < ppgData.Length ==> ppgData[k] == old(ppgData[k])
    {
      ParseReadsInBuffer(fifoDataCount, i);
      ppgData[i] := SampleAt(fifo, i);
      i := i + 1;
    }
    ret := 0;
  }

  // ---------------------------------------------------------------------------------------
  // Single-register access

  /** `ppg_sensor_read_reg`: one 1-byte read; the bus's code is returned unchanged and the
      byte it left in `*data` is handed back (meaningful only when the code is 0). */
  method ReadReg(reg: u8, busErr: int, busValue: u8) returns (err: int, data: u8, transfers: seq<Transfer<Reg>>)
    ensures err == busErr && data == busValue
    ensures transfers == [BurstRead(Addr(reg), 1)]
  {
    transfers := [BurstRead(Addr(reg), 1)];
    err := busErr;
    data := busValue;
  }

  /** `ppg_sensor_write_reg`: one 1-byte write; the bus's code is returned unchanged. */
  method WriteReg(reg: u8, value: u8, busErr: int) returns (err: int, transfers: seq<Transfer<Reg>>)
    ensures err == busErr
    ensures transfers == [BurstWrite(Addr(reg), [value])]
  {
    transfers := [BurstWrite(Addr(reg), [value])];
    err := busErr;
  }

  // ---------------------------------------------------------------------------------------
  // Defects of the parser and the count rule, and their corrections

  /** As written: with a 6-byte stride, the green reading of sample `i` is decoded from the
      same three bytes as the red reading of sample `i + 1`. */
  lemma ConsecutiveSamplesOverlap(fifo: seq<u8>, i: nat)
    requires 6 * (i + 1) + 9 <= |fifo|
    ensures SampleAt(fifo, i + 1).red == SampleAt(fifo, i).green
  {
  }

  /** A concrete burst on which the as-written parser loses data: the 18 bytes of the two
      samples (1, 2, 3), (4, 5, 6) decode as (3, 4, 5) at index 1, where the corrected
      parser finds (4, 5, 6). */
  lemma OverlapExample()
    ensures var fifo := [0, 0, 1, 0, 0, 2, 0, 0, 3, 0, 0, 4, 0, 0, 5, 0, 0, 6];
      && SampleAt(fifo, 1) == PpgSample(3, 4, 5)
      && PackedSampleAt(fifo, 1) == PpgSample(4, 5, 6)
  {
  }

  /** Valid 19-bit readings in every channel. */
  predicate Readings19(s: PpgSample)
  {
    s.red < 0x8_0000 && s.ir < 0x8_0000 && s.green < 0x8_0000
  }

  /** The FIFO burst the sensor produces for `samples`: nine bytes per sample, the three
      channels in LED-sequence order, each most significant byte first. */
  function Packed(samples: seq<PpgSample>): (fifo: seq<u8>)
    requires forall k :: 0 <= k < |samples| ==> Readings19(samples[k])
    ensures |fifo| == 9 * |samples|
  {
    if samples == [] then []
    else
      var s := samples[0];
      assert Readings19(s);
      ChannelBytes(s.red) + ChannelBytes(s.ir) + ChannelBytes(s.green) + Packed(samples[1..])
  }

  /** Corrected parser: sample `i` starts at byte 9i. */
  function PackedSampleAt(fifo: seq<u8>, i: nat): (s: PpgSample)
    requires 9 * i + 9 <= |fifo|
    ensures Readings19(s)
  {
    PpgSample(Channel(fifo[9 * i], fifo[9 * i + 1], fifo[9 * i + 2]),
              Channel(fifo[9 * i + 3], fifo[9 * i + 4], fifo[9 * i + 5]),
              Channel(fifo[9 * i + 6], fifo[9 * i + 7], fifo[9 * i + 8]))
  }

  /** The corrected parser recovers every sample of a packed burst. */
  lemma {:induction false} PackedRoundTrip(samples: seq<PpgSample>, i: nat)
    requires forall k :: 0 <= k < |samples| ==> Readings19(samples[k])
    requires i < |samples|
    ensures PackedSampleAt(Packed(samples), i) == samples[i]
  {
    var s := samples[0];
    var head := ChannelBytes(s.red) + ChannelBytes(s.ir) + ChannelBytes(s.green);
    var fifo := Packed(samples);
    assert fifo == head + Packed(samples[1..]);
    if i == 0 {
      ChannelRoundTrip(s.red);
      ChannelRoundTrip(s.ir);
      ChannelRoundTrip(s.green);
      assert fifo[..9] == head;
    } else {
      PackedRoundTrip(samples[1..], i - 1);
      PackedSampleAfterHead(head, Packed(samples[1..]), i);
    }
  }

  /** Behind a 9-byte head, sample `i` of the corrected parser is sample `i - 1` of the rest. */
  lemma PackedSampleAfterHead(head: seq<u8>, rest: seq<u8>, i: nat)
    requires |head| == 9 && 0 < i && 9 * i + 9 <= |head| + |rest|
    ensures PackedSampleAt(head + rest, i) == PackedSampleAt(rest, i - 1)
  {
    var j := 9 * (i - 1);
    assert 9 * i == j + 9;
    var f := head + rest;
    assert f[j + 9] == rest[j] && f[j + 10] == rest[j + 1] && f[j + 11] == rest[j + 2];
    assert f[j + 12] == rest[j + 3] && f[j + 13] == rest[j + 4] && f[j + 14] == rest[j + 5];
    assert f[j + 15] == rest[j + 6] && f[j + 16] == rest[j + 7] && f[j + 17] == rest[j + 8];
  }

  /** As written: after a failed FIFO_DATA_CNT read the count is not clamped, so an
      uninitialised count holding 255 asks for 85 samples from a frame of 10. */
  lemma UnclampedCountAfterReadError()
    ensures SampleCount(FifoCount(-5, 255, 10)) == 85
  {
  }

  /** Corrected count: clamped whether or not the count read succeeded. */
  function ClampedFifoCount(raw: u8, n: u8): (c: u8)
    ensures c <= COLORS * n
    ensures SampleCount(c) <= n
    ensures c == FifoCount(0, raw, n)
    ensures raw <= COLORS * n ==> c == raw
    ensures raw > COLORS * n ==> c == COLORS * n
  {
    ClampCount(raw, n)
  }
}
