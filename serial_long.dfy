/**
 * Formatted output of 32-bit values (SerialLong.c): decimal (%ld), hexadecimal (%lx)
 * and binary (%lb).
 *
 * PrintLD and PrintLB are modelled as the code is written, and beside each the
 * routine the code evidently means; lemmas show inputs on which the two differ.
 */
module SerialLong {
  import opened FixedWidth
  import opened Decimal
  import opened Bits

  /**
   * PrintLD as written: the loop of PrintD over the ten-entry divisor table, but with
   * the characters-still-to-print count left at `5 - Index`.
   */
  method PrintLD(value: int, width: int) returns (out: seq<char>)
    requires IsU32(value) && IsI8(width)
    ensures out == FormatChars(value, width, 10, 5)
  {
    assert Pow10(10) == 10000000000;
    out := PrintDecimal(value, width, 10, 5);
  }

  /** PrintLD as intended: the count is `10 - Index`, and the output is FormatD. */
  method PrintLDIntended(value: int, width: int) returns (out: seq<char>)
    requires IsU32(value) && IsI8(width)
    ensures out == FormatD(value, width)
  {
    assert Pow10(10) == 10000000000;
    CorrectBaseIsFormatD(value, width, 10);
    out := PrintDecimal(value, width, 10, 10);
  }

  /** The two agree on one-digit values and on unpadded or left-justified fields. */
  lemma PrintLDAgreesUnlessRightJustified(value: nat, width: int)
    requires value < 10 || FieldWidth(width) <= 0
    ensures FormatChars(value, width, 10, 5) == FormatD(value, width)
  {
    DigitCountBounds(value);
    if value < 10 {
      assert |DecimalDigits(value)| == 1;
    }
  }

  /**
   * Right-justifying 12 in five places prints "12 " (a pad after the digits), and in
   * five zero-padded places prints "120", which reads as a different number.
   */
  lemma PrintLDMisjustifies()
    ensures FormatD(12, 5) == "   12"
    ensures FormatChars(12, 5, 10, 5) == "12 "
    ensures FormatD(12, 105) == "00012"
    ensures FormatChars(12, 105, 10, 5) == "120"
  {
    assert DecimalDigits(1) == "1";
    assert DecimalDigits(12) == "12";
    assert U8(5 - 10 + 2) == 253;
    assert I8(253) == -3;
    assert Rep(' ', 1) == " ";
    assert Rep('0', 1) == "0";
    assert Rep(' ', 3) == "   ";
    assert Rep('0', 3) == "000";
  }

  /** PrintLH: the eight nibbles (value >> 28) & 0x0F, ..., value & 0x0F as hex digits. */
  function PrintLH(value: int): (s: seq<char>)
    requires IsU32(value)
    ensures |s| == 8 && HexStringValue(s) == value
  {
    var s := [HexChar((value / 0x1000_0000) % 16), HexChar((value / 0x100_0000) % 16),
              HexChar((value / 0x10_0000) % 16), HexChar((value / 0x1_0000) % 16),
              HexChar((value / 0x1000) % 16), HexChar((value / 0x100) % 16),
              HexChar((value / 0x10) % 16), HexChar(value % 16)];
    Pow16Values();
    HexLongIsNibbles(value, s);
    HexRoundTrip(value, 8);
    s
  }

  lemma HexLongIsNibbles(value: nat, s: seq<char>)
    requires |s| == 8
    requires forall i :: 0 <= i < 8 ==> s[i] == HexChar((value / Pow16(7 - i)) % 16)
    ensures s == HexNibbles(value, 8)
  {
    forall i | 0 <= i < 8
      ensures s[i] == HexNibbles(value, 8)[i]
    {
      HexNibbleAt(value, 8, i);
    }
  }

  /** PrintLB as written: 32 shifts testing the mask 0x800000, which is bit 23. */
  method PrintLB(value: int) returns (out: seq<char>)
    requires IsU32(value)
    ensures out == BitsFrom(value, 23, 32)
  {
    Pow2Values();
    out := ShiftOutBits(value, 32, 23);
  }

  /** PrintLB as intended: mask 0x80000000, all 32 bits most significant first. */
  method PrintLBIntended(value: int) returns (out: seq<char>)
    requires IsU32(value)
    ensures out == BitsFrom(value, 31, 32)
    ensures BinaryValue(out) == value
  {
    Pow2Values();
    out := ShiftOutBits(value, 32, 31);
    BinaryRoundTrip(value, 32);
  }

  /**
   * As written, the output is bits 23..0 followed by eight zeroes: bits 31..24 are never
   * shown and the value 1 prints with its one set bit eight places too far left.
   */
  lemma PrintLBShowsLowBitsShifted(value: nat)
    ensures forall i :: 24 <= i < 32 ==> BitsFrom(value, 23, 32)[i] == '0'
    ensures forall i :: 0 <= i < 24 ==> BitsFrom(value, 23, 32)[i] == BitsFrom(value, 31, 32)[i + 8]
    ensures BitsFrom(1, 23, 32)[23] == '1' && BitsFrom(1, 31, 32)[31] == '1'
  {
  }
}
