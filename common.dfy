/** Machine integer widths, error codes and bus transfers shared by the drivers and the
    application modules of the wearable firmware. */
module Common {

  /** C integer types, as value ranges over the unbounded `int`. */
  type u8 = x: int | 0 <= x < 0x100
  type u16 = x: int | 0 <= x < 0x1_0000
  type u32 = x: int | 0 <= x < 0x1_0000_0000
  type u64 = x: int | 0 <= x < 0x1_0000_0000_0000_0000
  type i16 = x: int | -0x8000 <= x < 0x8000
  type i32 = x: int | -0x8000_0000 <= x < 0x8000_0000

  /** Zephyr errno values; the firmware returns them negated. */
  const EACCES: int := 13
  const ENODEV: int := 19

  datatype Option<T> = None | Some(value: T)

  /** One register transaction on a sensor's I2C bus: `i2c_burst_write_dt` of `data`
      starting at `reg`, or `i2c_burst_read_dt` of `len` bytes starting at `reg`. */
  datatype Transfer<R> = BurstWrite(reg: R, data: seq<u8>) | BurstRead(reg: R, len: nat)

  /** Reinterprets a 16-bit pattern as a two's-complement `int16_t`: what storing an
      `int` in 0..65535 into an `int16_t` does on the firmware's compiler. */
  function AsInt16(u: u16): (r: i16)
    ensures (r - u) % 0x1_0000 == 0
    ensures r < 0 <==> u >= 0x8000
  {
    if u < 0x8000 then u else u - 0x1_0000
  }

  /** The 16-bit pattern of an `int16_t`: the inverse of AsInt16 in both directions. */
  function Int16Bits(x: i16): (u: u16)
    ensures AsInt16(u) == x
  {
    if x < 0 then x + 0x1_0000 else x
  }

  /** Int16Bits undoes AsInt16: the two are inverse bijections. */
  lemma Int16BitsOfAsInt16(u: u16)
    ensures Int16Bits(AsInt16(u)) == u
  {
  }

  /** Two's-complement wrap-around of an integer to 32 bits. */
  function WrapInt32(x: int): (r: i32)
    ensures (r - x) % 0x1_0000_0000 == 0
    ensures -0x8000_0000 <= x < 0x8000_0000 ==> r == x
  {
    var m := x % 0x1_0000_0000;
    if m < 0x8000_0000 then m else m - 0x1_0000_0000
  }

  /** The two bytes of a `uint16_t` as they lie in the little-endian memory of the SoC. */
  function LittleEndian16(u: u16): (b: seq<u8>)
    ensures |b| == 2 && b[0] as int + 0x100 * b[1] as int == u
  {
    [u % 0x100, u / 0x100]
  }

  /** A GPIO pin number of one port; `BIT(pin)` is defined for these. */
  type PinNumber = p: nat | p < 32

  /** `BIT(pin)`: the mask with only bit `pin` set. */
  function Bit(pin: PinNumber): (b: nat)
    ensures b >= 1
  {
    if pin == 0 then 1 else 2 * Bit(pin - 1)
  }

  /** Only the mask of pin 0 is odd. */
  lemma BitParity(pin: PinNumber)
    ensures Bit(pin) % 2 == 1 <==> pin == 0
  {
    if pin > 0 {
      assert Bit(pin) == 2 * Bit(pin - 1);
    }
  }

  /** `BIT(q + k)` is `BIT(q)` shifted left by `k` places. */
  lemma {:induction false} BitOfSum(q: PinNumber, k: PinNumber)
    requires q + k < 32
    ensures Bit(q + k) == Bit(q) * Bit(k)
  {
    if k > 0 {
      BitOfSum(q, k - 1);
      var m, n := Bit(q), Bit(k - 1);
      assert Bit(q + k) == 2 * Bit(q + (k - 1)) == 2 * (m * n);
      assert Bit(k) == 2 * n;
      DoubledFactor(m, n);
    }
  }

  /** Doubling a product doubles either factor. */
  lemma DoubledFactor(m: int, n: int)
    ensures 2 * (m * n) == m * (2 * n)
  {
  }

  /** The mask of the highest pin is the top bit of a 32-bit word. */
  lemma TopBit()
    ensures Bit(31) == 0x8000_0000
  {
    assert Bit(3) == 8;
    BitOfSum(3, 3);
    assert Bit(7) == 2 * Bit(6) == 128;
    BitOfSum(7, 7);
    assert Bit(15) == 2 * Bit(14) == 0x8000;
    BitOfSum(15, 15);
    assert Bit(31) == 2 * Bit(30);
  }

  /** The mask of any pin fits the 32-bit pin mask of a port. */
  lemma BitFitsWord(p: PinNumber)
    ensures Bit(p) <= 0x8000_0000
  {
    var k: PinNumber := 31 - p;
    BitOfSum(k, p);
    var m, n := Bit(k), Bit(p);
    assert Bit(31) == Bit(k + p) == m * n;
    TopBit();
    MultipleAtLeast(m, n);
  }

  /** Dividing the mask of `p` by that of `q` gives the mask of `p - q` when `q <= p`, and
      zero when `q > p`. */
  lemma BitQuotient(p: PinNumber, q: PinNumber)
    ensures Bit(p) / Bit(q) == if q <= p then Bit(p - q) else 0
  {
    if q <= p {
      BitOfSum(q, p - q);
      ExactQuotient(Bit(p), Bit(q), Bit(p - q));
    } else {
      BitOfSum(p, q - p - 1);
      assert Bit(q) == 2 * Bit(q - 1);
      SmallerThanDoubleMultiple(Bit(p), Bit(q - p - 1), Bit(q));
      DivModUnique(Bit(p), Bit(q), 0, Bit(p));
    }
  }

  lemma ExactQuotient(x: int, m: int, h: int)
    requires m > 0 && x == m * h
    ensures x / m == h
  {
    DivModUnique(x, m, h, 0);
  }

  lemma SmallerThanDoubleMultiple(a: int, c: int, d: int)
    requires a >= 1 && c >= 1 && d == 2 * (a * c)
    ensures 0 <= a < d
  {
    MultipleAtLeast(c, a);
  }

  /** The mask of a pin selects that pin and no other: the mask a callback is registered
      with matches only its own interrupt pin. */
  lemma BitSelectsOnlyItsPin(p: PinNumber, q: PinNumber)
    ensures Bit(p) < 0x1_0000_0000
    ensures PinInMask(Bit(p), q) <==> p == q
  {
    BitFitsWord(p);
    BitQuotient(p, q);
  }

  /** Division and remainder are determined by any quotient and in-range remainder. */
  lemma DivModUnique(x: int, m: int, h: int, r: int)
    requires m > 0 && x == h * m + r && 0 <= r < m
    ensures x / m == h && x % m == r
  {
    var h', r' := x / m, x % m;
    assert (h - h') * m == r' - r by {
      assert x == h' * m + r';
      assert (h - h') * m == h * m - h' * m;
    }
    if h > h' {
      MultipleAtLeast(h - h', m);
    } else if h < h' {
      MultipleAtLeast(h' - h, m);
    }
  }

  /** Taking the remainder leaves a multiple of the modulus behind. */
  lemma RemainderLeavesMultiple(x: int, m: int)
    requires m > 0
    ensures (x - x % m) % m == 0
  {
    var q := x / m;
    assert x - x % m == q * m;
    DivModUnique(q * m, m, q, 0);
  }

  lemma MultipleAtLeast(a: int, m: int)
    requires a >= 1 && m > 0
    ensures a * m >= m
  {
    assert a * m == (a - 1) * m + m;
  }

  /** Bit `b` of `x` (with `b` a power of two) is set exactly when `x` modulo `2 * b` reaches `b`. */
  lemma QuotientParity(x: nat, b: nat)
    requires b >= 1
    ensures (x / b) % 2 == 1 <==> x % (2 * b) >= b
  {
    var q, r := x / b, x % b;
    var h, s := q / 2, q % 2;
    assert x == h * (2 * b) + (s * b + r) by {
      assert x == q * b + r;
      assert q == 2 * h + s;
    }
    DivModUnique(x, 2 * b, h, s * b + r);
  }

  /** `pins & BIT(pin)` is non-zero: bit `pin` of the GPIO callback's pin mask is set, that is
      `pins` modulo `2 * BIT(pin)` is at least `BIT(pin)`. */
  predicate PinInMask(pins: u32, pin: PinNumber)
    ensures PinInMask(pins, pin) <==> pins % (2 * Bit(pin)) >= Bit(pin)
  {
    QuotientParity(pins, Bit(pin));
    (pins / Bit(pin)) % 2 == 1
  }
}
