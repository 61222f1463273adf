/**
 * Fixed-width integer arithmetic of the AVR C compiler the firmware is built with.
 *
 * Dafny integers are unbounded; these functions make every wrap-around, truncating
 * cast and truncating division of the C code explicit. On AVR `int` is 16 bits wide,
 * so an expression over `uint16_t` operands is computed modulo 2^16 unless one operand
 * is explicitly widened to 32 bits.
 */
module FixedWidth {

  const U8_MOD: int := 0x100
  const U16_MOD: int := 0x1_0000
  const U32_MOD: int := 0x1_0000_0000

  predicate IsU8(x: int) { 0 <= x < U8_MOD }
  predicate IsU16(x: int) { 0 <= x < U16_MOD }
  predicate IsU32(x: int) { 0 <= x < U32_MOD }
  predicate IsI8(x: int) { -0x80 <= x < 0x80 }
  predicate IsI16(x: int) { -0x8000 <= x < 0x8000 }

  /** Conversion to `uint8_t`: the value modulo 2^8. */
  function U8(x: int): (r: int)
    ensures IsU8(r) && (x - r) % U8_MOD == 0
    ensures IsU8(x) ==> r == x
  {
    x % U8_MOD
  }

  /** Conversion to `uint16_t` (and 16-bit unsigned arithmetic): the value modulo 2^16. */
  function U16(x: int): (r: int)
    ensures IsU16(r) && (x - r) % U16_MOD == 0
    ensures IsU16(x) ==> r == x
  {
    x % U16_MOD
  }

  /** Conversion to `uint32_t` (and 32-bit unsigned arithmetic): the value modulo 2^32. */
  function U32(x: int): (r: int)
    ensures IsU32(r) && (x - r) % U32_MOD == 0
    ensures IsU32(x) ==> r == x
  {
    x % U32_MOD
  }

  /** Conversion to `int8_t`: the two's-complement reading of the low 8 bits. */
  function I8(x: int): (r: int)
    ensures IsI8(r) && (x - r) % U8_MOD == 0
    ensures IsI8(x) ==> r == x
  {
    var u := x % U8_MOD;
    if u < 0x80 then u else u - U8_MOD
  }

  /** Conversion to `int16_t` (and 16-bit signed `int` arithmetic as the compiler performs it). */
  function I16(x: int): (r: int)
    ensures IsI16(r) && (x - r) % U16_MOD == 0
    ensures IsI16(x) ==> r == x
  {
    var u := x % U16_MOD;
    if u < 0x8000 then u else u - U16_MOD
  }

  function Abs(x: int): nat { if x < 0 then -x else x }

  /**
   * C division of integers: the quotient is truncated toward zero (Dafny's `/` is
   * Euclidean). The remainder a - r*b is smaller than b in magnitude and, when it is
   * not zero, has the sign of the dividend.
   */
  function CDiv(a: int, b: int): (r: int)
    requires b != 0
    ensures Abs(a - r * b) < Abs(b)
    ensures a - r * b == 0 || ((a - r * b < 0) <==> (a < 0))
  {
    var q := Abs(a) / Abs(b);
    DivisionRemainder(Abs(a), Abs(b));
    if a >= 0 && b > 0 then q
    else if a < 0 && b < 0 then q
    else if a >= 0 then
      assert (-q) * b == q * Abs(b) by { NegateProduct(q, b); }
      -q
    else
      assert (-q) * b == -(q * Abs(b));
      -q
  }

  lemma DivisionRemainder(x: nat, y: nat)
    requires y > 0
    ensures 0 <= x - (x / y) * y < y
  {
  }

  lemma NegateProduct(q: int, b: int)
    ensures (-q) * b == q * (-b)
  {
  }

  /** For operands that are not negative, C division agrees with Dafny's. */
  lemma CDivNonNegative(a: int, b: int)
    requires a >= 0 && b > 0
    ensures CDiv(a, b) == a / b
  {
  }

  lemma MulMonotonic(a: nat, b: nat, c: nat)
    requires a <= b
    ensures a * c <= b * c
  {
  }

  /** Quotient and remainder are determined by a == d*q + r with 0 <= r < d. */
  lemma DivUnique(a: int, d: int, q: int, r: int)
    requires d > 0 && a == d * q + r && 0 <= r < d
    ensures a / d == q && a % d == r
  {
    var q', r' := a / d, a % d;
    assert a == d * q' + r' && 0 <= r' < d;
    if q' < q {
      assert d * q >= d * (q' + 1) by { MulMonotonicInt(q' + 1, q, d); }
      assert false;
    } else if q' > q {
      assert d * q' >= d * (q + 1) by { MulMonotonicInt(q + 1, q', d); }
      assert false;
    }
  }

  lemma MulMonotonicInt(a: int, b: int, d: int)
    requires a <= b && d > 0
    ensures d * a <= d * b
  {
    assert d * b - d * a == d * (b - a);
  }
}
