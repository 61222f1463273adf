/**
 * The register-bit and ratio macros of PortMacros.h. An AVR I/O register is
 * eight bits wide, so the bit macros are modelled on bv8.
 */
module PortMacros {
  type Reg = bv8

  /** _PIN_MASK(b): the register value with only bit b set. */
  function PinMask(b: nat): (m: Reg)
    requires b < 8
    ensures m != 0 && m & (m - 1) == 0
    ensures m >> b == 1
  {
    1 << b
  }

  /** The bits outside mask m. */
  function Outside(r: Reg, m: Reg): Reg { r & !m }

  /** _SET_MASK: every bit of the mask is turned on, the others are kept. */
  function SetMask(r: Reg, m: Reg): (r': Reg)
    ensures r' & m == m
    ensures Outside(r', m) == Outside(r, m)
  {
    r | m
  }

  /** _CLR_MASK: every bit of the mask is turned off, the others are kept. */
  function ClrMask(r: Reg, m: Reg): (r': Reg)
    ensures r' & m == 0
    ensures Outside(r', m) == Outside(r, m)
  {
    r & !m
  }

  /** _CHG_MASK: every bit of the mask is inverted, the others are kept. */
  function ChgMask(r: Reg, m: Reg): (r': Reg)
    ensures r' & m == !r & m
    ensures Outside(r', m) == Outside(r, m)
  {
    r ^ m
  }

  /** _GET_MASK: the bits of the register that the mask selects, and no others. */
  function GetMask(r: Reg, m: Reg): (v: Reg)
    ensures Outside(v, m) == 0
    ensures SetMask(Outside(r, m), v) == r
  {
    r & m
  }

  /** _BIT_ON(r, b): bit b of the register, as a truth value. */
  function BitOn(r: Reg, b: nat): (on: bool)
    requires b < 8
    ensures on <==> (r >> b) & 1 == 1
  {
    r & PinMask(b) != 0
  }

  /** _BIT_OFF(r, b): true exactly when bit b is clear. */
  function BitOff(r: Reg, b: nat): (off: bool)
    requires b < 8
    ensures off <==> (r >> b) & 1 == 0
  {
    !(r & PinMask(b) != 0)
  }

  /** _SET_BIT(r, b): bit b on, all other bits unchanged. */
  function SetBit(r: Reg, b: nat): (r': Reg)
    requires b < 8
    ensures BitOn(r', b)
    ensures Outside(r', PinMask(b)) == Outside(r, PinMask(b))
  {
    SetMask(r, PinMask(b))
  }

  /** _CLR_BIT(r, b): bit b off, all other bits unchanged. */
  function ClrBit(r: Reg, b: nat): (r': Reg)
    requires b < 8
    ensures BitOff(r', b)
    ensures Outside(r', PinMask(b)) == Outside(r, PinMask(b))
  {
    ClrMask(r, PinMask(b))
  }

  /** _CHG_BIT(r, b): bit b inverted, all other bits unchanged. */
  function ChgBit(r: Reg, b: nat): (r': Reg)
    requires b < 8
    ensures BitOn(r', b) == BitOff(r, b)
    ensures Outside(r', PinMask(b)) == Outside(r, PinMask(b))
  {
    ChgMask(r, PinMask(b))
  }

  /** Toggling the same bit twice gives the register back. */
  lemma ChgBitTwice(r: Reg, b: nat)
    requires b < 8
    ensures ChgBit(ChgBit(r, b), b) == r
  {
  }

  /** _BIT_ON and _BIT_OFF are complements. */
  lemma BitOnOffComplement(r: Reg, b: nat)
    requires b < 8
    ensures BitOn(r, b) == !BitOff(r, b)
  {
  }

  /** Setting then clearing a bit is the same as clearing it. */
  lemma SetThenClr(r: Reg, b: nat)
    requires b < 8
    ensures ClrBit(SetBit(r, b), b) == ClrBit(r, b)
  {
  }

  /**
   * SCALE_RATIO(x, n, d) = (x*n + d/2)/d: x*n/d rounded to the nearest integer,
   * halves rounded up. Operands are non-negative and no wider type is assumed.
   */
  function ScaleRatio(x: nat, n: nat, d: nat): (r: nat)
    requires d > 0
    ensures -(d as int) <= 2 * (x * n - r * d) < d
  {
    var q := (x * n + d / 2) / d;
    assert q * d <= x * n + d / 2 < q * d + d;
    q
  }
}
