/**
 * Formatted output of Serial.c: decimal (%d), hexadecimal (%x) and binary (%b)
 * printing of 16-bit and 8-bit values. The characters the C code hands to PrintChar
 * one by one are returned here as a string.
 */
module Serial {
  import opened FixedWidth
  import opened Decimal
  import opened Bits

  /** PrintD: the decimal digits of a 16-bit value justified in the field coded by `width`. */
  method PrintD(value: int, width: int) returns (out: seq<char>)
    requires IsU16(value) && IsI8(width)
    ensures out == FormatD(value, width)
    ensures DigitsValue(DecimalDigits(value)) == value
  {
    assert Pow10(5) == 100000;
    CorrectBaseIsFormatD(value, width, 5);
    DigitsRoundTrip(value);
    out := PrintDecimal(value, width, 5, 5);
  }

  /** PrintH: a byte as two upper-case hexadecimal digits, high nibble first. */
  function PrintH(byte: int): (s: seq<char>)
    requires IsU8(byte)
    ensures |s| == 2 && HexStringValue(s) == byte
  {
    var s := [HexChar(byte / 16), HexChar(byte % 16)];
    HexCharInverse(byte / 16);
    HexCharInverse(byte % 16);
    assert s[..1] == [s[0]];
    assert HexStringValue(s[..1]) == HexValue(s[0]);
    s
  }

  /** PrintB: the eight bits of a byte, most significant first. */
  method PrintB(byte: int) returns (out: seq<char>)
    requires IsU8(byte)
    ensures out == BitsFrom(byte, 7, 8)
    ensures BinaryValue(out) == byte
  {
    Pow2Values();
    out := ShiftOutBits(byte, 8, 7);
    BinaryRoundTrip(byte, 8);
  }
}
