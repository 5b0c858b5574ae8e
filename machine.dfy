/** Fixed-width integers of the x86-64 build and the C++ conversions between them.
    Dafny's integers are unbounded, so every narrowing cast and every `%` the
    generator applies to a signed value is written out here. */
module Machine {

  const TWO_16: int := 0x1_0000
  const TWO_32: int := 0x1_0000_0000
  const TWO_64: int := 0x1_0000_0000_0000_0000

  const INT_MIN: int := -0x8000_0000
  const INT_MAX: int := 0x7FFF_FFFF

  /** One raw draw of the 64-bit pseudo-random generator. */
  type u64 = x: int | 0 <= x < 0x1_0000_0000_0000_0000
  type u32 = x: int | 0 <= x < 0x1_0000_0000
  type u16 = x: int | 0 <= x < 0x1_0000
  type u8 = x: int | 0 <= x < 0x100
  type i16 = x: int | -0x8000 <= x < 0x8000
  type i8 = x: int | -0x80 <= x < 0x80

  /** `uint32_t(x)`: the low 32 bits of a draw. */
  function Low32(x: u64): (r: u32)
    ensures (x - r) % TWO_32 == 0
  {
    x % TWO_32
  }

  /** `int(x)` for a 64-bit unsigned draw: the low 32 bits read as two's complement. */
  function Int32Of(x: u64): (r: int)
    ensures INT_MIN <= r <= INT_MAX
    ensures (x - r) % TWO_32 == 0
    ensures r < 0 <==> Low32(x) >= 0x8000_0000
  {
    var low := Low32(x);
    if low < 0x8000_0000 then low else low - TWO_32
  }

  /** `int16_t(v)`: the truncating cast of an engine value to 16 bits. */
  function Int16Of(v: int): (r: i16)
    ensures (v - r) % TWO_16 == 0
    ensures -0x8000 <= v < 0x8000 ==> r == v
  {
    var low := v % TWO_16;
    if low < 0x8000 then low else low - TWO_16
  }

  /** C++ `a / b` for `b > 0`: the quotient truncated toward zero. */
  function CQuot(a: int, b: int): int
    requires b > 0
  {
    if a >= 0 then a / b else -((-a) / b)
  }

  /** C++ `a % b` for `b > 0`: the remainder that goes with the truncated quotient,
      so it takes the sign of `a` (Dafny's own `%` never returns a negative value). */
  function CRem(a: int, b: int): (r: int)
    requires b > 0
    ensures -b < r < b
    ensures a >= 0 ==> 0 <= r
    ensures a <= 0 ==> r <= 0
    ensures a == b * CQuot(a, b) + r
  {
    if a >= 0 then a % b else -((-a) % b)
  }

  function Abs(x: int): (r: nat)
    ensures r == x || r == -x
  {
    if x < 0 then -x else x
  }

  /** The two little-endian bytes of a 16-bit unsigned value. */
  function LE16(x: u16): (r: seq<u8>)
    ensures |r| == 2
    ensures r[0] as int + 256 * (r[1] as int) == x
  {
    [x % 256, x / 256]
  }

  function FromLE16(b0: u8, b1: u8): (x: u16)
    ensures LE16(x) == [b0, b1]
  {
    b0 + 256 * b1
  }

  /** Two's complement bit pattern of a signed 16-bit value. */
  function U16OfI16(v: i16): (r: u16)
    ensures (r - v) % TWO_16 == 0
  {
    if v < 0 then v + TWO_16 else v
  }

  function I16OfU16(x: u16): (v: i16)
    ensures U16OfI16(v) == x
  {
    if x < 0x8000 then x else x - TWO_16
  }

  /** Two's complement byte of a signed 8-bit value. */
  function U8OfI8(v: i8): (b: u8)
    ensures (b - v) % 256 == 0
  {
    if v < 0 then v + 256 else v
  }

  function I8OfU8(b: u8): (v: i8)
    ensures U8OfI8(v) == b
  {
    if b < 0x80 then b else b - 256
  }

  /** Bitwise `a & b` on non-negative integers. */
  function BitAnd(a: nat, b: nat): nat
    decreases a
  {
    if a == 0 || b == 0 then 0
    else 2 * BitAnd(a / 2, b / 2) + (if a % 2 == 1 && b % 2 == 1 then 1 else 0)
  }

  /** Bitwise `a | b` on non-negative integers. */
  function BitOr(a: nat, b: nat): nat
    decreases a + b
  {
    if a == 0 then b
    else if b == 0 then a
    else 2 * BitOr(a / 2, b / 2) + (if a % 2 == 1 || b % 2 == 1 then 1 else 0)
  }

  /** `x & 0x0F` keeps exactly the low four bits. */
  lemma {:induction false} MaskLowNibble(x: nat)
    ensures BitAnd(x, 0x0F) == x % 16
  {
    var x1 := x / 2;
    var x2 := x1 / 2;
    var x3 := x2 / 2;
    AndOddMask(x, 15);
    AndOddMask(x1, 7);
    AndOddMask(x2, 3);
    AndOddMask(x3, 1);
    assert BitAnd(x3 / 2, 0) == 0;
    assert x == 16 * (x3 / 2) + 8 * (x3 % 2) + 4 * (x2 % 2) + 2 * (x1 % 2) + x % 2;
  }

  /** And-ing with an odd mask keeps the low bit and goes on with the rest. */
  lemma AndOddMask(a: nat, m: nat)
    requires m % 2 == 1
    ensures BitAnd(a, m) == 2 * BitAnd(a / 2, m / 2) + a % 2
  {
    if a == 0 {
      assert BitAnd(0, m / 2) == 0;
    }
  }

  /** Or-ing a value below `2^n` with a multiple of `2^n` adds them: the bits do not overlap. */
  lemma {:induction false} OrDisjoint(lo: nat, n: nat, hi: nat)
    requires lo < Pow2(n)
    ensures BitOr(lo, Pow2(n) * hi) == lo + Pow2(n) * hi
  {
    if lo != 0 && hi != 0 {
      assert n > 0;
      var k := Pow2(n - 1) * hi;
      assert Pow2(n) * hi == 2 * k;
      OrDisjoint(lo / 2, n - 1, hi);
    }
  }

  function Pow2(n: nat): (r: nat)
    ensures r >= 1
  {
    if n == 0 then 1 else 2 * Pow2(n - 1)
  }
}
