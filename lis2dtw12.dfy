/** Driver for the LIS2DTW12 accelerometer: the register writes that start and stop it and the
    FIFO read that turns a burst of bytes into samples. The I2C bus is not modelled; each
    method returns the transfers it issues, and what the bus answers (error codes, the bytes
    it leaves in the read buffers) is a parameter. */
module Lis2dtw12 {
  import opened Common

  // Register addresses the driver uses (its register map enum).
  const CTRL1: u8 := 0x20
  const CTRL4_INT1_PAD_CTRL: u8 := 0x23
  const CTRL6: u8 := 0x25
  const OUT_X_L: u8 := 0x28
  const FIFO_CTRL: u8 := 0x2E
  const FIFO_SAMPLES: u8 := 0x2F
  const CTRL7: u8 := 0x3F

  /** One accelerometer sample: three signed 16-bit axes. */
  datatype AccSample = AccSample(x: i16, y: i16, z: i16)

  // ---------------------------------------------------------------------------------------
  // Start and stop

  /** `0x20 | n`: FIFO mode 0b001 ("stop collecting when full") in bits 7..5, ORed with
      the threshold `n`. The OR with a single bit is written arithmetically: it adds 0x20
      unless bit 5 of `n` is already set. */
  function FifoCtrl(n: u8): (r: u8)
    ensures (r / 0x20) % 2 == 1
    ensures r % 0x20 == n % 0x20 && r / 0x40 == n / 0x40
  {
    if (n / 0x20) % 2 == 1 then n else n + 0x20
  }

  /** For a frame size below 32, the FIFO mode field (bits 7..5) is 0b001 and the
      threshold field (bits 4..0) is exactly the frame size. */
  lemma FifoCtrlFields(n: u8)
    requires n < 32
    ensures FifoCtrl(n) / 0x20 == 1
    ensures FifoCtrl(n) % 0x20 == n
  {
  }

  /** The register writes of `acc_sensor_start`, in order. */
  function StartWrites(samplesPerFrame: u8): seq<Transfer<u8>>
  {
    [BurstWrite(FIFO_CTRL, [FifoCtrl(samplesPerFrame)]),
     BurstWrite(CTRL6, [0x04]),
     BurstWrite(CTRL4_INT1_PAD_CTRL, [0x02]),
     BurstWrite(CTRL7, [0x20]),
     BurstWrite(CTRL1, [0x43])]
  }

  /** `acc_sensor_start`: five single-byte writes (FIFO_CTRL, CTRL6, CTRL4, CTRL7, CTRL1),
      each made whatever the previous one returned; `writeErrs[k]` is what write `k` returns.
      A failed write is only logged: the result is 0 in every case. */
  method Start(samplesPerFrame: u8, writeErrs: seq<int>) returns (ret: int, transfers: seq<Transfer<u8>>)
    requires |writeErrs| == 5
    ensures ret == 0
    ensures transfers == StartWrites(samplesPerFrame)
    ensures |transfers| == 5 && transfers[0] == BurstWrite(FIFO_CTRL, [FifoCtrl(samplesPerFrame)])
  {
    transfers := [BurstWrite(FIFO_CTRL, [FifoCtrl(samplesPerFrame)])];
    transfers := transfers + [BurstWrite(CTRL6, [0x04])];
    transfers := transfers + [BurstWrite(CTRL4_INT1_PAD_CTRL, [0x02])];
    transfers := transfers + [BurstWrite(CTRL7, [0x20])];
    transfers := transfers + [BurstWrite(CTRL1, [0x43])];
    ret := 0;
  }

  /** `acc_sensor_stop`: disable the interrupts (CTRL7 = 0), then power down (CTRL1 = 0);
      the second write is made even when the first fails, and the result is always 0. */
  method Stop(writeErrs: seq<int>) returns (ret: int, transfers: seq<Transfer<u8>>)
    requires |writeErrs| == 2
    ensures ret == 0
    ensures transfers == [BurstWrite(CTRL7, [0]), BurstWrite(CTRL1, [0])]
  {
    transfers := [BurstWrite(CTRL7, [0])];
    transfers := transfers + [BurstWrite(CTRL1, [0])];
    ret := 0;
  }

  // ---------------------------------------------------------------------------------------
  // FIFO read: sample count

  /** Bit 6 (FIFO_OVR) of FIFO_SAMPLES: the FIFO has overflowed (`status & 0x40`). */
  predicate Overflowed(status: u8)
    ensures Overflowed(status) <==> status % 0x80 >= 0x40
  {
    QuotientParity(status, 0x40);
    (status / 0x40) % 2 == 1
  }

  /** Bits 5..0 of FIFO_SAMPLES: the number of unread samples (`status & 0x3F`): the value
      below 0x40 that differs from `status` by a multiple of 0x40. */
  function FifoLevel(status: u8): (n: u8)
    ensures n < 0x40
    ensures (status - n) % 0x40 == 0
    ensures Overflowed(status) || (status / 0x80 == 0 ==> n == status)
  {
    status % 0x40
  }

  /** The count `acc_sensor_get_data` decides to parse: the frame size after an overflow,
      otherwise the FIFO level, which is NOT clamped to the frame size. */
  function FifoCount(status: u8, samplesPerFrame: u8): (n: u8)
    ensures Overflowed(status) ==> n == samplesPerFrame
    ensures !Overflowed(status) ==> n == FifoLevel(status) && n <= 63
  {
    if Overflowed(status) then samplesPerFrame else FifoLevel(status)
  }

  /** `byte_count = fifo_data_count * 3 * 2` stored in a `uint8_t`: six bytes per sample,
      modulo 256. From 43 samples on, the stored count is shorter than the bytes the parse
      loop reads. */
  function ByteCount(count: u8): (b: u8)
    ensures count < 43 ==> b == 6 * count
    ensures count >= 43 ==> b < 6 * count
    ensures (b - 6 * count) % 0x100 == 0
  {
    (6 * count) % 0x100
  }

  // ---------------------------------------------------------------------------------------
  // FIFO read: decoding

  /** Combines two FIFO bytes into a signed axis value: `(hi << 8) | lo` stored in an
      `int16_t`. The OR of the two disjoint byte positions is their sum. */
  function Int16LittleEndian(lo: u8, hi: u8): (v: i16)
    ensures Int16Bits(v) == lo + 0x100 * hi
  {
    AsInt16(lo + 0x100 * hi)
  }

  /** The two FIFO bytes that carry an axis value: the inverse of Int16LittleEndian. */
  function AxisBytes(v: i16): (b: seq<u8>)
    ensures |b| == 2
  {
    LittleEndian16(Int16Bits(v))
  }

  /** Axis decoding is a bijection between int16 values and byte pairs: decoding the
      encoding gives the value back, and encoding a decoded pair gives the pair back. */
  lemma AxisRoundTrip(v: i16, lo: u8, hi: u8)
    ensures Int16LittleEndian(AxisBytes(v)[0], AxisBytes(v)[1]) == v
    ensures AxisBytes(Int16LittleEndian(lo, hi)) == [lo, hi]
  {
    var b := AxisBytes(v);
    assert Int16Bits(Int16LittleEndian(b[0], b[1])) == Int16Bits(v);
    var u := Int16Bits(Int16LittleEndian(lo, hi));
    assert u == lo + 0x100 * hi;
    assert LittleEndian16(u) == [lo, hi];
  }

  /** Sample `i` of a FIFO burst: axes x, y, z from bytes 6i..6i+5, low byte first. */
  function SampleAt(fifo: seq<u8>, i: nat): (s: AccSample)
    requires 6 * i + 6 <= |fifo|
    ensures Int16Bits(s.x) == fifo[6 * i] as int + 0x100 * fifo[6 * i + 1] as int
    ensures Int16Bits(s.y) == fifo[6 * i + 2] as int + 0x100 * fifo[6 * i + 3] as int
    ensures Int16Bits(s.z) == fifo[6 * i + 4] as int + 0x100 * fifo[6 * i + 5] as int
  {
    AccSample(Int16LittleEndian(fifo[6 * i], fifo[6 * i + 1]),
              Int16LittleEndian(fifo[6 * i + 2], fifo[6 * i + 3]),
              Int16LittleEndian(fifo[6 * i + 4], fifo[6 * i + 5]))
  }

  /** Worked examples: the burst 10 00 20 00 30 00 is the sample (16, 32, 48), and the
      byte pair FF FF is -1. */
  lemma DecodeExamples()
    ensures SampleAt([0x10, 0x00, 0x20, 0x00, 0x30, 0x00], 0) == AccSample(16, 32, 48)
    ensures Int16LittleEndian(0xFF, 0xFF) == -1
  {
  }

  /** `acc_sensor_get_data`. The bus first answers the FIFO_SAMPLES read with `status`
      (code `statusErr`), then fills the `byte_count`-long buffer with `fifo` (code
      `dataErr`); neither code changes what happens next, and the result is always 0.
      The two index requirements are where the C code is defined: the parse loop reads
      `6 * count` bytes of a buffer that is only `ByteCount(count)` long, and writes `count`
      samples into the caller's array. */
  method GetData(samplesPerFrame: u8, statusErr: int, status: u8, dataErr: int, fifo: seq<u8>,
                 accData: array<AccSample>)
    returns (ret: int, sampleCount: u8, transfers: seq<Transfer<u8>>)
    requires |fifo| == ByteCount(FifoCount(status, samplesPerFrame))
    requires 6 * FifoCount(status, samplesPerFrame) <= |fifo|
    requires FifoCount(status, samplesPerFrame) <= accData.Length
    modifies accData
    ensures ret == 0
    ensures sampleCount == FifoCount(status, samplesPerFrame)
    ensures transfers == [BurstRead(FIFO_SAMPLES, 1), BurstRead(OUT_X_L, ByteCount(sampleCount))]
    ensures forall i :: 0 <= i < sampleCount ==> accData[i] == SampleAt(fifo, i)
    ensures forall i :: sampleCount <= i < accData.Length ==> accData[i] == old(accData[i])
  {
    transfers := [BurstRead(FIFO_SAMPLES, 1)];

    var fifoDataCount: u8;
    if Overflowed(status) {
      fifoDataCount := samplesPerFrame;
    } else {
      fifoDataCount := FifoLevel(status);
    }

    var byteCount := ByteCount(fifoDataCount);
    transfers := transfers + [BurstRead(OUT_X_L, byteCount)];

    sampleCount := fifoDataCount;
    var i := 0;
    while i < sampleCount
      invariant 0 <= i <= sampleCount
      invariant forall k :: 0 <= k < i ==> accData[k] == SampleAt(fifo, k)
      invariant forall k :: i <= k < accData.Length ==> accData[k] == old(accData[k])
    {
      assert 6 * i + 6 <= 6 * sampleCount;
      accData[i] := SampleAt(fifo, i);
      i := i + 1;
    }
    ret := 0;
  }

  // ---------------------------------------------------------------------------------------
  // Defects of the count rule, and their corrections

  /** As written: without the overflow flag the level is taken as is, so a FIFO level of 63
      (status 0x3F) asks for 63 samples while the caller's array holds one frame; for any
      frame size below 63 the precondition of GetData on the array fails. */
  lemma UnclampedCountOverrunsFrame(samplesPerFrame: u8)
    requires samplesPerFrame < 63
    ensures !Overflowed(0x3F)
    ensures FifoCount(0x3F, samplesPerFrame) == 63 > samplesPerFrame
  {
  }

  /** As written: 43 samples need 258 bytes, but the `uint8_t` byte count wraps to 2, so the
      parse loop reads 256 bytes past the buffer. */
  lemma ByteCountWrapsAt43()
    ensures ByteCount(43) == 2 && 6 * 43 == 258
  {
  }

  /** Corrected count: the FIFO level clamped to the frame size, as after an overflow. */
  function ClampedFifoCount(status: u8, samplesPerFrame: u8): (n: u8)
    ensures n <= samplesPerFrame
    ensures n == FifoCount(status, samplesPerFrame) || n == samplesPerFrame
    ensures FifoCount(status, samplesPerFrame) <= samplesPerFrame ==> n == FifoCount(status, samplesPerFrame)
  {
    var c := FifoCount(status, samplesPerFrame);
    if c > samplesPerFrame then samplesPerFrame else c
  }

  /** Corrected byte count, kept in a wide integer: six bytes per sample, no wrap. */
  function WideByteCount(count: u8): (b: nat)
    ensures b == 6 * count
    ensures b == ByteCount(count) <==> count < 43
  {
    6 * count
  }

  /** With the corrected count and byte count, every byte the parse loop reads lies in the
      buffer and every sample it writes lies in a frame-sized array. */
  lemma CorrectedReadsInBounds(status: u8, samplesPerFrame: u8, i: nat)
    requires i < ClampedFifoCount(status, samplesPerFrame)
    ensures 6 * i + 5 < WideByteCount(ClampedFifoCount(status, samplesPerFrame))
    ensures i < samplesPerFrame
  {
  }
}
