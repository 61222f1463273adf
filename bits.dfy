/**
 * Bits and hexadecimal digits of unsigned values, as the binary (%b) and hexadecimal
 * (%x) printers of Serial.c and SerialLong.c emit them.
 */
module Bits {
  import opened FixedWidth

  function Pow2(k: nat): (r: nat)
    ensures r >= 1
  {
    if k == 0 then 1 else 2 * Pow2(k - 1)
  }

  lemma Pow2Values()
    ensures Pow2(8) == 0x100 && Pow2(16) == 0x1_0000 && Pow2(32) == 0x1_0000_0000
  {
    assert Pow2(4) == 16;
    assert Pow2(8) == 0x100;
    assert Pow2(12) == 0x1000;
    assert Pow2(16) == 0x1_0000;
    assert Pow2(20) == 0x10_0000;
    assert Pow2(24) == 0x100_0000;
    assert Pow2(28) == 0x1000_0000;
  }

  /** Bit j of x (0 for negative positions: what a left shift brings in). */
  function Bit(x: nat, j: int): (b: nat)
    ensures b < 2
    decreases if j < 0 then 0 else j
  {
    if j < 0 then 0 else if j == 0 then x % 2 else Bit(x / 2, j - 1)
  }

  function BitChar(b: nat): char { if b == 0 then '0' else '1' }

  /** The characters for bits top, top-1, ..., top-count+1 of v, most significant first. */
  function BitsFrom(v: nat, top: int, count: nat): (s: seq<char>)
    ensures |s| == count
    ensures forall i :: 0 <= i < count ==> s[i] == BitChar(Bit(v, top - i))
    decreases count
  {
    if count == 0 then [] else [BitChar(Bit(v, top))] + BitsFrom(v, top - 1, count - 1)
  }

  /** The number a string of '0'/'1' characters denotes, most significant first. */
  function BinaryValue(s: seq<char>): nat
  {
    if s == [] then 0 else BinaryValue(s[..|s| - 1]) * 2 + (if s[|s| - 1] == '1' then 1 else 0)
  }

  /** The n low bits of v, printed most significant first, read back as v. */
  lemma {:induction false} BinaryRoundTrip(v: nat, n: nat)
    requires v < Pow2(n)
    ensures BinaryValue(BitsFrom(v, n - 1, n)) == v
    decreases n
  {
    if n > 0 {
      var s := BitsFrom(v, n - 1, n);
      assert s[..n - 1] == BitsFrom(v / 2, n - 2, n - 1) by {
        forall i | 0 <= i < n - 1
          ensures s[i] == BitsFrom(v / 2, n - 2, n - 1)[i]
        {
          assert Bit(v, n - 1 - i) == Bit(v / 2, n - 2 - i);
        }
      }
      assert s[n - 1] == BitChar(v % 2);
      BinaryRoundTrip(v / 2, n - 1);
    }
  }

  /** A bit above position i does not change bit i. */
  lemma {:induction false} BitAddHigh(y: nat, k: nat, i: int)
    requires i < k
    ensures Bit(y + Pow2(k), i) == Bit(y, i)
    decreases k
  {
    if i >= 0 {
      assert Pow2(k) == 2 * Pow2(k - 1);
      if i > 0 {
        assert (y + Pow2(k)) / 2 == y / 2 + Pow2(k - 1);
        BitAddHigh(y / 2, k - 1, i - 1);
      }
    }
  }

  /** Bit j of 2y is bit j-1 of y. */
  lemma BitDouble(y: nat, j: int)
    ensures Bit(2 * y, j) == Bit(y, j - 1)
  {
    if j > 0 {
      assert (2 * y) / 2 == y;
    }
  }

  /** `x <<= 1` on a w-bit unsigned value: the carry out of the top bit is dropped. */
  function Shl(x: nat, w: nat): (r: nat)
    ensures r < Pow2(w)
  {
    (x * 2) % Pow2(w)
  }

  /** Shifting a w-bit value left by one (dropping the carry) moves every bit up. */
  lemma ShiftLeftBit(x: nat, w: nat, j: int)
    requires 1 <= w && x < Pow2(w) && j < w
    ensures Bit(Shl(x, w), j) == Bit(x, j - 1)
  {
    assert Pow2(w) == 2 * Pow2(w - 1);
    if x < Pow2(w - 1) {
      DivUnique(x * 2, Pow2(w), 0, 2 * x);
      BitDouble(x, j);
    } else {
      var y := x - Pow2(w - 1);
      DivUnique(x * 2, Pow2(w), 1, 2 * y);
      BitDouble(y, j);
      if j - 1 >= 0 {
        BitAddHigh(y, w - 1, j - 1);
      }
    }
  }

  /**
   * The %b printing loop: `count` times, print whether bit `maskBit` of the value is
   * set (the `Value & <mask>` test), then shift the w-bit value left by one.
   */
  method ShiftOutBits(v: nat, w: nat, maskBit: nat) returns (out: seq<char>)
    requires v < Pow2(w) && maskBit < w
    ensures out == BitsFrom(v, maskBit, w)
  {
    var value: nat := v;
    out := [];
    for t := 0 to w
      invariant value < Pow2(w)
      invariant forall j :: 0 <= j < w ==> Bit(value, j) == Bit(v, j - t)
      invariant out == BitsFrom(v, maskBit, t)
    {
      assert Bit(value, maskBit) == Bit(v, maskBit - t);
      BitsFromSnoc(v, maskBit, t);
      out := out + [BitChar(Bit(value, maskBit))];
      ShiftAll(value, v, w, t);
      value := Shl(value, w);
    }
  }

  /** One more bit at the end of BitsFrom is the next lower bit. */
  lemma BitsFromSnoc(v: nat, top: int, t: nat)
    ensures BitsFrom(v, top, t + 1) == BitsFrom(v, top, t) + [BitChar(Bit(v, top - t))]
  {
    var a := BitsFrom(v, top, t + 1);
    var b := BitsFrom(v, top, t) + [BitChar(Bit(v, top - t))];
    forall i | 0 <= i < t + 1
      ensures a[i] == b[i]
    {
    }
  }

  /** After t + 1 shifts every bit of the w-bit value has moved up t + 1 places. */
  lemma ShiftAll(value: nat, v: nat, w: nat, t: nat)
    requires 1 <= w && value < Pow2(w)
    requires forall j :: 0 <= j < w ==> Bit(value, j) == Bit(v, j - t)
    ensures forall j :: 0 <= j < w ==> Bit(Shl(value, w), j) == Bit(v, j - (t + 1))
  {
    forall j | 0 <= j < w
      ensures Bit(Shl(value, w), j) == Bit(v, j - (t + 1))
    {
      ShiftLeftBit(value, w, j);
      if j >= 1 {
        assert Bit(value, j - 1) == Bit(v, j - 1 - t);
      }
    }
  }

  const HexDigits: seq<char> := "0123456789ABCDEF"

  function HexChar(n: nat): (c: char)
    requires n < 16
  {
    HexDigits[n]
  }

  /** The value of an upper-case hexadecimal digit (the inverse of HexChar). */
  function HexValue(c: char): (n: nat)
    ensures n < 16
  {
    if '0' <= c <= '9' then c as int - '0' as int
    else if 'A' <= c <= 'F' then c as int - 'A' as int + 10
    else 0
  }

  lemma HexCharInverse(n: nat)
    requires n < 16
    ensures HexValue(HexChar(n)) == n
  {
  }

  /** The number a string of hexadecimal digits denotes, most significant first. */
  function HexStringValue(s: seq<char>): nat
  {
    if s == [] then 0 else HexStringValue(s[..|s| - 1]) * 16 + HexValue(s[|s| - 1])
  }

  /** The n low hexadecimal digits of v, most significant first. */
  function HexNibbles(v: nat, n: nat): (s: seq<char>)
    ensures |s| == n
  {
    if n == 0 then [] else HexNibbles(v / 16, n - 1) + [HexChar(v % 16)]
  }

  function Pow16(k: nat): (r: nat)
    ensures r >= 1
  {
    if k == 0 then 1 else 16 * Pow16(k - 1)
  }

  lemma Pow16Values()
    ensures Pow16(0) == 1 && Pow16(1) == 0x10 && Pow16(2) == 0x100 && Pow16(3) == 0x1000
    ensures Pow16(4) == 0x1_0000 && Pow16(5) == 0x10_0000 && Pow16(6) == 0x100_0000
    ensures Pow16(7) == 0x1000_0000 && Pow16(8) == 0x1_0000_0000
  {
    assert Pow16(2) == 0x100;
    assert Pow16(4) == 0x1_0000;
    assert Pow16(6) == 0x100_0000;
  }

  lemma {:induction false} HexRoundTrip(v: nat, n: nat)
    requires v < Pow16(n)
    ensures HexStringValue(HexNibbles(v, n)) == v
    decreases n
  {
    if n > 0 {
      var s := HexNibbles(v, n);
      assert s[..n - 1] == HexNibbles(v / 16, n - 1);
      HexCharInverse(v % 16);
      HexRoundTrip(v / 16, n - 1);
    }
  }

  lemma DivDiv(a: nat, b: nat, c: nat)
    requires b > 0 && c > 0
    ensures a / b / c == a / (b * c)
  {
    var q := a / b / c;
    var r1 := a % b;
    var r2 := (a / b) % c;
    assert a == b * (a / b) + r1;
    assert a / b == c * q + r2;
    assert a == (b * c) * q + (b * r2 + r1) by {
      assert b * (c * q + r2) == (b * c) * q + b * r2;
    }
    assert b * r2 + r1 < b * c by {
      assert r2 <= c - 1;
      assert b * r2 <= b * (c - 1);
    }
    DivUnique(a, b * c, q, b * r2 + r1);
  }

  /** Digit i of HexNibbles(v, n) is the nibble (v >> 4*(n-1-i)) & 0x0F. */
  lemma {:induction false} HexNibbleAt(v: nat, n: nat, i: nat)
    requires i < n
    ensures HexNibbles(v, n)[i] == HexChar((v / Pow16(n - 1 - i)) % 16)
    decreases n
  {
    if i < n - 1 {
      HexNibbleAt(v / 16, n - 1, i);
      DivDiv(v, 16, Pow16(n - 2 - i));
    }
  }
}
