/** Fixed-width integers and single-bit helpers shared by every register
    codec. Bytes are `bv8`; 16-bit words and the unit conversions that
    multiply or divide them are integers bounded by their C width. */
module Bits {

  /** `uint8_t` held as an integer: a register's stored raw byte. */
  type u8 = x: int | 0 <= x < 0x100

  /** `uint16_t`. */
  type u16 = x: int | 0 <= x < 0x1_0000

  /** `int16_t`. */
  type i16 = x: int | -0x8000 <= x < 0x8000

  /** `b ? 1 << n : 0`. */
  function Bit(b: bool, n: bv8): bv8
    requires n < 8
  {
    if b then 1 << n else 0
  }

  /** `(raw >> n) & 0x01`, read as a `bool`. */
  function Flag(raw: bv8, n: bv8): bool
    requires n < 8
  {
    (raw >> n) & 1 == 1
  }

  /** The byte holding a value that fits in eight bits (an implicit
      `uint8_t` conversion that loses nothing). It counts up from zero
      instead of casting, so that callers reason from its contract. */
  function ByteOf(x: int): (b: bv8)
    requires 0 <= x < 256
    ensures b as int == x
  {
    if x == 0 then 0 else ByteOf(x - 1) + 1
  }

  /** The field a mask of low bits selects is no larger than the mask. */
  lemma LowBound(raw: bv8, mask: bv8)
    requires mask == 0x0F || mask == 0x1F || mask == 0x3F || mask == 0x7F
    ensures (raw & mask) as int <= mask as int
  {
  }

  /** Widening a byte to an integer and narrowing it back loses nothing. */
  lemma ByteOfValue(b: bv8)
    ensures ByteOf(b as int) == b
  {
    var c := ByteOf(b as int);
    assert (c as int) as bv8 == c;
    assert (b as int) as bv8 == b;
  }

  /** `(uint16_t) x`: reduction modulo 2^16. */
  function Wrap16(x: int): (w: u16)
    ensures (w - x) % 0x1_0000 == 0
  {
    x % 0x1_0000
  }

  /** `static_cast<int16_t>` of a 16-bit pattern: two's complement. */
  function Signed16(w: u16): (s: i16)
    ensures s >= 0 ==> s == w
    ensures s < 0 ==> s + 0x1_0000 == w
  {
    if w < 0x8000 then w else w - 0x1_0000
  }
}
