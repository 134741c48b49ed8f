/**
 * Unsigned 32-bit and 8-bit machine words, with the wrap-around arithmetic
 * of C's `uint32_t`: every result is taken modulo 2^32.
 */
module Word32 {

  const TWO_32: int := 0x1_0000_0000

  /** A value of C type `uint32_t`. */
  type u32 = x: int | 0 <= x < TWO_32

  /** A value of C type `uint8_t`. */
  type u8 = x: int | 0 <= x < 0x100

  /** `a + b` on `uint32_t`. */
  function Add(a: u32, b: u32): (r: u32)
    ensures a + b < TWO_32 ==> r == a + b
    ensures TWO_32 <= a + b ==> r == a + b - TWO_32
  {
    (a + b) % TWO_32
  }

  /** `a++` on `uint32_t`: the successor, wrapping from the largest value to 0. */
  function Inc(a: u32): (r: u32)
    ensures a < TWO_32 - 1 ==> r == a + 1
    ensures a == TWO_32 - 1 ==> r == 0
  {
    (a + 1) % TWO_32
  }

  /**
   * `a - b` on `uint32_t`: the distance from `b` forward to `a` on the
   * wrapping clock, so that adding it back to `b` gives `a`.
   */
  function Sub(a: u32, b: u32): (r: u32)
    ensures Add(b, r) == a
    ensures r == 0 <==> a == b
    ensures b <= a ==> r == a - b
  {
    (a - b) % TWO_32
  }

  /** `a * b` on `uint32_t`. */
  function Mul(a: u32, b: u32): (r: u32)
    ensures a * b < TWO_32 ==> r == a * b
    ensures (a * b - r) % TWO_32 == 0
  {
    var p := a * b;
    assert 0 <= p by { MulNonNegative(a, b); }
    p % TWO_32
  }

  lemma MulNonNegative(a: nat, b: nat)
    ensures 0 <= a * b
  {
  }

  /** The remainder of `x` modulo 2^32, for any integer. */
  function Wrap(x: int): u32
  {
    x % TWO_32
  }

  /** Incrementing a wrapped value is wrapping the incremented value. */
  lemma IncWrap(x: int)
    ensures Inc(Wrap(x)) == Wrap(x + 1)
  {
  }
}
