/**
 * Decimal output shared by Serial.c (PrintD, 16-bit values) and SerialLong.c
 * (PrintLD, 32-bit values).
 *
 * Both routines run the same algorithm: repeated subtraction of the powers of ten
 * from a table, suppression of leading zeroes, and justification of the digits in a
 * field whose width and padding character are coded in one signed byte:
 *
 *     0      unpadded
 *     n      right justified in n characters, padded with spaces
 *     -n     left justified in n characters, padded with spaces
 *     100+n  right justified in n characters, padded with zeroes
 *
 * `FormatD` is the intended meaning of that code. `PrintDecimal` is the loop itself,
 * parameterised by the number of digit places of the value type and by the constant
 * the code subtracts the table index from to get the number of characters still to
 * print (`Chars = <base> - Index`): `FormatChars` describes what the loop prints for
 * any such constant, and `CorrectBaseIsFormatD` shows that it is `FormatD` exactly when
 * the constant equals the number of places.
 */
module Decimal {
  import opened FixedWidth

  function Pow10(k: nat): (r: nat)
    ensures r >= 1
  {
    if k == 0 then 1 else 10 * Pow10(k - 1)
  }

  function Max(a: int, b: int): int { if a < b then b else a }

  predicate IsDigit(c: char) { '0' <= c <= '9' }

  function DigitChar(d: int): (c: char)
    requires 0 <= d < 10
    ensures IsDigit(c)
  {
    ('0' as int + d) as char
  }

  /** The decimal representation of `v` without leading zeroes. */
  function DecimalDigits(v: nat): (s: seq<char>)
    ensures 1 <= |s|
    ensures forall i :: 0 <= i < |s| ==> IsDigit(s[i])
    ensures s[0] == '0' <==> v == 0
    decreases v
  {
    if v < 10 then [DigitChar(v)] else DecimalDigits(v / 10) + [DigitChar(v % 10)]
  }

  /** The number a string of decimal digits denotes (the reference reading of `DecimalDigits`). */
  function DigitsValue(s: seq<char>): nat
    requires forall i :: 0 <= i < |s| ==> IsDigit(s[i])
  {
    if s == [] then 0
    else
      var d := s[|s| - 1] as int - '0' as int;
      assert IsDigit(s[|s| - 1]);
      DigitsValue(s[..|s| - 1]) * 10 + d
  }

  /** Reading back the digits gives the value that was printed. */
  lemma {:induction false} DigitsRoundTrip(v: nat)
    ensures DigitsValue(DecimalDigits(v)) == v
    decreases v
  {
    if v >= 10 {
      var s := DecimalDigits(v);
      assert s[..|s| - 1] == DecimalDigits(v / 10);
      DigitsRoundTrip(v / 10);
    }
  }

  /** A value has n digits exactly when it lies in [10^(n-1), 10^n) (0 has one digit). */
  lemma {:induction false} DigitCountBounds(v: nat)
    ensures v < Pow10(|DecimalDigits(v)|)
    ensures v > 0 ==> Pow10(|DecimalDigits(v)| - 1) <= v
    decreases v
  {
    if v >= 10 {
      DigitCountBounds(v / 10);
    }
  }

  lemma {:induction false} Pow10Monotonic(a: nat, b: nat)
    requires a <= b
    ensures Pow10(a) <= Pow10(b)
    decreases b
  {
    if a < b {
      Pow10Monotonic(a, b - 1);
    }
  }

  lemma {:induction false} Pow10Add(a: nat, b: nat)
    ensures Pow10(a) * Pow10(b) == Pow10(a + b)
    decreases a
  {
    if a > 0 {
      Pow10Add(a - 1, b);
      assert Pow10(a) * Pow10(b) == 10 * (Pow10(a - 1) * Pow10(b));
    }
  }

  lemma DigitCountExact(v: nat, n: nat)
    requires 1 <= n && v < Pow10(n) && (n == 1 || Pow10(n - 1) <= v)
    ensures |DecimalDigits(v)| == n
  {
    var m := |DecimalDigits(v)|;
    DigitCountBounds(v);
    if m < n {
      Pow10Monotonic(m, n - 1);
    } else if m > n {
      Pow10Monotonic(n, m - 1);
    }
  }

  /** Appending k digit places (any remainder below 10^k) adds k digits. */
  lemma DigitCountSplit(hi: nat, k: nat, r: nat)
    requires hi > 0 && r < Pow10(k)
    ensures |DecimalDigits(hi * Pow10(k) + r)| == |DecimalDigits(hi)| + k
  {
    var m := |DecimalDigits(hi)|;
    var v := hi * Pow10(k) + r;
    DigitCountBounds(hi);
    MulMonotonic(Pow10(m - 1), hi, Pow10(k));
    MulMonotonic(hi + 1, Pow10(m), Pow10(k));
    Pow10Add(m - 1, k);
    Pow10Add(m, k);
    assert v < (hi + 1) * Pow10(k);
    DigitCountExact(v, m + k);
  }

  lemma AppendDigit(hi: nat, d: nat)
    requires hi > 0 && d < 10
    ensures DecimalDigits(hi * 10 + d) == DecimalDigits(hi) + [DigitChar(d)]
  {
    assert (hi * 10 + d) / 10 == hi;
    assert (hi * 10 + d) % 10 == d;
  }

  /** n copies of c (none when n is not positive). */
  function Rep(c: char, n: int): (s: seq<char>)
    ensures |s| == Max(0, n)
    ensures forall i :: 0 <= i < |s| ==> s[i] == c
    decreases n
  {
    if n <= 0 then [] else [c] + Rep(c, n - 1)
  }

  /**
   * The digits `ds` justified in a field of |W| characters padded with `p`: on the
   * right for W > 0, on the left otherwise. Digits are never cut.
   */
  function Justify(ds: seq<char>, W: int, p: char): (s: seq<char>)
    ensures W > 0 ==> |s| == Max(W, |ds|) && s[|s| - |ds|..] == ds
                      && forall i :: 0 <= i < |s| - |ds| ==> s[i] == p
    ensures W <= 0 ==> |s| == Max(-W, |ds|) && s[..|ds|] == ds
                       && forall i :: |ds| <= i < |s| ==> s[i] == p
  {
    if W > 0 then Rep(p, W - |ds|) + ds else ds + Rep(p, -W - |ds|)
  }

  /** Field width and padding character coded in PrintD's width byte. */
  function FieldWidth(w: int): int { if w > 100 then w - 100 else w }
  function PadChar(w: int): char { if w > 100 then '0' else ' ' }

  /** The intended output of PrintD/PrintLD: the decimal digits of v in the coded field. */
  function FormatD(v: nat, w: int): (s: seq<char>)
    ensures |s| == Max(if FieldWidth(w) > 0 then FieldWidth(w) else -FieldWidth(w), |DecimalDigits(v)|)
    ensures FieldWidth(w) > 0 ==> s[|s| - |DecimalDigits(v)|..] == DecimalDigits(v)
    ensures FieldWidth(w) <= 0 ==> s[..|DecimalDigits(v)|] == DecimalDigits(v)
  {
    Justify(DecimalDigits(v), FieldWidth(w), PadChar(w))
  }

  /**
   * What the printing loop emits when the number of characters still to print is
   * computed as the `uint8_t` value `base - Index` and then stored in the `int8_t`
   * width. When the first significant digit is found at table index `places - D`
   * (D digits), that count is U8(base - places + D).
   */
  function FormatChars(v: nat, w: int, places: nat, base: int): seq<char>
  {
    var W := FieldWidth(w);
    var p := PadChar(w);
    var ds := DecimalDigits(v);
    var D := |ds|;
    if W > 0 && D >= 2 then
      var C := U8(base - places + D);
      Rep(p, W - C) + ds + Rep(p, -I8(C) - D)
    else
      Justify(ds, W, p)
  }

  /** With the constant equal to the number of digit places, the loop prints FormatD. */
  lemma CorrectBaseIsFormatD(v: nat, w: int, places: nat)
    requires places <= 100 && v < Pow10(places)
    ensures FormatChars(v, w, places, places) == FormatD(v, w)
  {
    var D := |DecimalDigits(v)|;
    DigitCountBounds(v);
    if D > places {
      Pow10Monotonic(places, D - 1);
    }
  }

  /**
   * The inner loop of PrintD/PrintLD: subtract the divisor while the value is at least
   * as large, counting the subtractions (the digit character is '0' plus that count).
   */
  method CountDivisor(value0: nat, divisor: nat) returns (count: nat, value: nat)
    requires divisor > 0
    ensures count * divisor + value == value0 && value < divisor
  {
    value := value0;
    count := 0;
    while value >= divisor
      invariant count * divisor + value == value0
      decreases value
    {
      value := value - divisor;
      count := count + 1;
    }
  }

  /** One step of the digit loop: the quotient is a digit and the value splits around it. */
  lemma DigitStep(v0: nat, hi: nat, p: nat, divisor: nat, q: nat, r: nat)
    requires p == 10 * divisor && v0 == hi * p + q * divisor + r
    requires q * divisor + r < p && r < divisor
    ensures q < 10
    ensures v0 == (hi * 10 + q) * divisor + r
  {
    if q >= 10 {
      MulMonotonic(10, q, divisor);
    }
    assert hi * p == (hi * 10) * divisor;
  }

  lemma RepSnoc(c: char, n: int)
    requires n >= 0
    ensures Rep(c, n) + [c] == Rep(c, n + 1)
  {
    assert Rep(c, n) + [c] == Rep(c, n + 1);
  }

  /**
   * Leading padding once the first significant digit is found: the width is raised to
   * `chars` if below it (the store into the signed byte reads `chars` as I8(chars)),
   * then one pad is printed per unit the width exceeds `chars`.
   */
  method PadLeading(width0: int, chars: int, padChar: char) returns (width: int, pads: seq<char>)
    requires 0 < width0 < 0x80 && IsU8(chars)
    ensures pads == Rep(padChar, width0 - chars)
    ensures width == I8(chars)
  {
    width := width0;
    pads := [];
    if width < chars {
      width := I8(chars);
    }
    while width > chars
      invariant width0 < chars ==> width == I8(chars) <= chars && pads == []
      invariant width0 >= chars ==> chars <= width <= width0 && pads == Rep(padChar, width0 - width)
      decreases width
    {
      RepSnoc(padChar, width0 - width);
      pads := pads + [padChar];
      width := width - 1;
    }
  }

  /** `while (--Width) PrintChar(PadChar);` on a positive width: width - 1 pads. */
  method PadCountdown(width0: int, padChar: char) returns (pads: seq<char>)
    requires width0 > 0
    ensures pads == Rep(padChar, width0 - 1)
  {
    var width := width0 - 1;
    pads := [];
    while width != 0
      invariant 0 <= width <= width0 - 1
      invariant pads == Rep(padChar, width0 - 1 - width)
      decreases width
    {
      RepSnoc(padChar, width0 - 1 - width);
      pads := pads + [padChar];
      width := width - 1;
    }
  }

  /**
   * `while (++CharsPrinted < -Width) PrintChar(PadChar);` after the last digit: pads
   * the field to -width characters when `printed` characters are already out.
   */
  method PadTrailing(printed0: nat, width: int, padChar: char) returns (pads: seq<char>)
    requires width < 0
    ensures pads == Rep(padChar, -width - printed0 - 1)
  {
    var printed := printed0 + 1;
    pads := [];
    while printed < -width
      invariant printed0 + 1 <= printed <= Max(printed0 + 1, -width)
      invariant pads == Rep(padChar, printed - printed0 - 1)
      decreases -width - printed
    {
      RepSnoc(padChar, printed - printed0 - 1);
      pads := pads + [padChar];
      printed := printed + 1;
    }
  }

  ghost function Lead(W: int, C: int, p: char): seq<char>
  {
    if W > 0 then Rep(p, W - C) else []
  }

  /**
   * What has been printed before table index `index`: `hi` holds the digits of v0 above
   * the remaining `places - index` places, `value` the rest. Nothing is printed until a
   * significant digit appears; after that the leading pads and the digits of `hi` are.
   */
  ghost predicate Printed(v0: nat, places: nat, base: int, W: int, p: char, index: nat,
                          hi: nat, value: nat, charsPrinted: nat, width: int, out: seq<char>)
    requires index <= places
  {
    var D := |DecimalDigits(v0)|;
    var C := U8(base - places + D);
    && value < Pow10(places - index)
    && v0 == hi * Pow10(places - index) + value
    && (hi == 0 <==> charsPrinted == 0)
    && (hi == 0 ==> out == [] && width == W)
    && (hi > 0 ==> charsPrinted == |DecimalDigits(hi)|
                   && D == |DecimalDigits(hi)| + (places - index)
                   && out == Lead(W, C, p) + DecimalDigits(hi)
                   && width == (if W > 0 then I8(C) else W))
  }

  /** One pass of the digit loop at table index `index` (divisor 10^(places-1-index)). */
  method PrintPlace(ghost v0: nat, places: nat, base: int, ghost W: int, padChar: char,
                    index: nat, ghost hi: nat, value0: nat, charsPrinted0: nat, width0: int,
                    out0: seq<char>)
    returns (ghost hi': nat, value: nat, charsPrinted: nat, width: int, out: seq<char>)
    requires index < places - 1 && places <= 10 && 0 <= base <= 10 && IsI8(W)
    requires Printed(v0, places, base, W, padChar, index, hi, value0, charsPrinted0, width0, out0)
    ensures Printed(v0, places, base, W, padChar, index + 1, hi', value, charsPrinted, width, out)
  {
    ghost var D := |DecimalDigits(v0)|;
    ghost var C := U8(base - places + D);
    charsPrinted, width, out := charsPrinted0, width0, out0;
    ghost var k := places - (index + 1);
    var divisor := Pow10(places - 1 - index);
    assert divisor == Pow10(k);
    var outDigit;
    outDigit, value := CountDivisor(value0, divisor);
    DigitStep(v0, hi, Pow10(places - index), divisor, outDigit, value);
    hi' := hi * 10 + outDigit;

    if outDigit != 0 || charsPrinted != 0 {
      DigitCountSplit(hi', k, value);
      assert v0 == hi' * Pow10(k) + value;
      if hi == 0 {
        assert DecimalDigits(hi') == [DigitChar(outDigit)];
        assert C == U8(base - index);
      }
      charsPrinted, width, out :=
        PrintSignificant(hi, outDigit, base, index, W, C, padChar, charsPrinted, width, out);
      PrintedSignificant(v0, places, base, W, padChar, index + 1, hi', value, charsPrinted, width, out);
    } else {
      assert hi' == 0 && out == [] && width == W;
    }
  }

  /** Printed, once a significant digit has been printed. */
  lemma PrintedSignificant(v0: nat, places: nat, base: int, W: int, p: char, index: nat,
                           hi: nat, value: nat, charsPrinted: nat, width: int, out: seq<char>)
    requires index <= places && hi > 0
    requires value < Pow10(places - index) && v0 == hi * Pow10(places - index) + value
    requires |DecimalDigits(v0)| == |DecimalDigits(hi)| + (places - index)
    requires charsPrinted == |DecimalDigits(hi)|
    requires var C := U8(base - places + |DecimalDigits(v0)|);
             out == Lead(W, C, p) + DecimalDigits(hi) && width == (if W > 0 then I8(C) else W)
    ensures Printed(v0, places, base, W, p, index, hi, value, charsPrinted, width, out)
  {
    DigitCountBounds(hi);
  }

  /**
   * A significant digit at table index `index`: the leading pads first when it is the
   * first one (`Chars = base - Index` of them to come), then the digit.
   */
  method PrintSignificant(ghost hi: nat, outDigit: nat, base: int, index: nat, ghost W: int,
                          ghost C: int, padChar: char, charsPrinted0: nat, width0: int,
                          out0: seq<char>)
    returns (charsPrinted: nat, width: int, out: seq<char>)
    requires outDigit < 10 && (hi > 0 || outDigit > 0) && IsI8(W)
    requires hi == 0 ==> charsPrinted0 == 0 && out0 == [] && width0 == W && C == U8(base - index)
    requires hi > 0 ==> charsPrinted0 == |DecimalDigits(hi)| && out0 == Lead(W, C, padChar) + DecimalDigits(hi)
                        && width0 == (if W > 0 then I8(C) else W)
    ensures charsPrinted == |DecimalDigits(hi * 10 + outDigit)|
    ensures out == Lead(W, C, padChar) + DecimalDigits(hi * 10 + outDigit)
    ensures width == (if W > 0 then I8(C) else W)
  {
    charsPrinted, width, out := charsPrinted0, width0, out0;
    if charsPrinted == 0 && width > 0 {
      var chars := U8(base - index);
      var pads;
      width, pads := PadLeading(width, chars, padChar);
      out := out + pads;
    }
    if hi > 0 {
      AppendDigit(hi, outDigit);
    } else {
      assert out == Lead(W, C, padChar);
      assert DecimalDigits(hi * 10 + outDigit) == [DigitChar(outDigit)];
    }
    out := out + [DigitChar(outDigit)];
    charsPrinted := charsPrinted + 1;
  }

  /**
   * The printing loop of PrintD/PrintLD: `places` digit places (the divisor table holds
   * 10^(places-1) .. 10), and `Chars = base - Index` as an 8-bit unsigned value.
   */
  method PrintDecimal(v0: nat, width0: int, places: nat, base: int) returns (out: seq<char>)
    requires 2 <= places <= 10 && v0 < Pow10(places)
    requires IsI8(width0) && 0 <= base <= 10
    ensures out == FormatChars(v0, width0, places, base)
  {
    var value := v0;
    var width := width0;
    var charsPrinted := 0;
    var padChar := ' ';
    if width > 100 {
      width := width - 100;
      padChar := '0';
    }
    ghost var W := width;
    ghost var hi: nat := 0;
    out := [];

    for index := 0 to places - 1
      invariant Printed(v0, places, base, W, padChar, index, hi, value, charsPrinted, width, out)
    {
      hi, value, charsPrinted, width, out :=
        PrintPlace(v0, places, base, W, padChar, index, hi, value, charsPrinted, width, out);
    }
    FinishDigits(v0, places, base, width0, hi, value, charsPrinted, width, out);
    out := PrintLast(value, charsPrinted, width, padChar, out);
  }

  /** After the digit loop: the pads still owed, the last digit, the trailing pads. */
  method PrintLast(value: nat, charsPrinted: nat, width0: int, padChar: char, out0: seq<char>)
    returns (out: seq<char>)
    requires value < 10
    ensures out == Finished(out0, value, charsPrinted, width0, padChar)
  {
    var width := width0;
    out := out0;
    if charsPrinted == 0 && width > 0 {
      var pads := PadCountdown(width, padChar);
      out := out + pads;
      width := 0;
    }
    out := out + [DigitChar(value)];
    if width < 0 {
      var pads := PadTrailing(charsPrinted, width, padChar);
      out := out + pads;
    }
  }

  /**
   * What the end of the loop prints after the digit loop: the pads still owed when no
   * digit was significant, the last digit, then the trailing pads of a negative width.
   */
  ghost function Finished(out: seq<char>, last: nat, charsPrinted: nat, width: int, p: char): seq<char>
    requires last < 10
  {
    var tail := if width < 0 then Rep(p, -width - charsPrinted - 1) else [];
    var owed := if charsPrinted == 0 && width > 0 then Rep(p, width - 1) else [];
    out + owed + [DigitChar(last)] + tail
  }

  /** The state after the digit loop determines the printed field. */
  lemma FinishDigits(v0: nat, places: nat, base: int, width0: int, hi: nat, value: nat,
                     charsPrinted: nat, width: int, out: seq<char>)
    requires 2 <= places && IsI8(width0)
    requires Printed(v0, places, base, FieldWidth(width0), PadChar(width0), places - 1,
                     hi, value, charsPrinted, width, out)
    ensures value < 10
    ensures FormatChars(v0, width0, places, base) == Finished(out, value, charsPrinted, width, PadChar(width0))
  {
    if hi == 0 {
      FinishSingle(v0, width0, places, base, value, width);
    } else {
      AppendDigit(hi, value);
      FinishMulti(v0, width0, places, base, hi, value, width, out);
    }
  }

  /** No significant digit before the last place: v0 is that one digit. */
  lemma FinishSingle(v0: nat, width0: int, places: nat, base: int, value: nat, width: int)
    requires v0 == value < 10 && width == FieldWidth(width0)
    ensures FormatChars(v0, width0, places, base) == Finished([], value, 0, width, PadChar(width0))
  {
    var W := FieldWidth(width0);
    var p := PadChar(width0);
    var ds := DecimalDigits(v0);
    assert ds == [DigitChar(value)];
    assert FormatChars(v0, width0, places, base) == Justify(ds, W, p);
  }

  /** hi's digits are out, with the leading pads: the last digit and the trailing pads follow. */
  lemma FinishMulti(v0: nat, width0: int, places: nat, base: int, hi: nat, value: nat,
                    width: int, out: seq<char>)
    requires value < 10 && DecimalDigits(v0) == DecimalDigits(hi) + [DigitChar(value)]
    requires var C := U8(base - places + |DecimalDigits(v0)|);
             var W := FieldWidth(width0);
             out == Lead(W, C, PadChar(width0)) + DecimalDigits(hi) && width == (if W > 0 then I8(C) else W)
    ensures FormatChars(v0, width0, places, base) ==
            Finished(out, value, |DecimalDigits(hi)|, width, PadChar(width0))
  {
    var C := U8(base - places + |DecimalDigits(v0)|);
    var W := FieldWidth(width0);
    if W > 0 {
      FinishRight(v0, width0, places, base, C, DecimalDigits(hi), value, width, out);
    } else {
      FinishLeft(v0, width0, places, base, DecimalDigits(hi), value, width, out);
    }
  }

  /** A positive width: the leading pads, hi's digits, the last digit, no trailing pads. */
  lemma FinishRight(v0: nat, width0: int, places: nat, base: int, C: int, hiDigits: seq<char>,
                    value: nat, width: int, out: seq<char>)
    requires value < 10 && |hiDigits| > 0 && DecimalDigits(v0) == hiDigits + [DigitChar(value)]
    requires FieldWidth(width0) > 0 && C == U8(base - places + |DecimalDigits(v0)|)
    requires out == Rep(PadChar(width0), FieldWidth(width0) - C) + hiDigits && width == I8(C)
    ensures FormatChars(v0, width0, places, base) ==
            Finished(out, value, |hiDigits|, width, PadChar(width0))
  {
    var p := PadChar(width0);
    var lead := FieldWidth(width0) - C;
    calc {
      FormatChars(v0, width0, places, base);
      Rep(p, lead) + (hiDigits + [DigitChar(value)]) + Rep(p, -width - |hiDigits| - 1);
      { PadsAround(p, lead, hiDigits, value, width, out); }
      Finished(out, value, |hiDigits|, width, p);
    }
  }

  /** A width of zero or less: the digits first, then the trailing pads. */
  lemma FinishLeft(v0: nat, width0: int, places: nat, base: int, hiDigits: seq<char>,
                   value: nat, width: int, out: seq<char>)
    requires value < 10 && |hiDigits| > 0 && DecimalDigits(v0) == hiDigits + [DigitChar(value)]
    requires FieldWidth(width0) <= 0 && out == hiDigits && width == FieldWidth(width0)
    ensures FormatChars(v0, width0, places, base) ==
            Finished(out, value, |hiDigits|, width, PadChar(width0))
  {
    var p := PadChar(width0);
    assert out == Rep(p, 0) + hiDigits;
    calc {
      FormatChars(v0, width0, places, base);
      Rep(p, 0) + (hiDigits + [DigitChar(value)]) + Rep(p, -width - |hiDigits| - 1);
      { PadsAround(p, 0, hiDigits, value, width, out); }
      Finished(out, value, |hiDigits|, width, p);
    }
  }

  /** The field a multi-digit number fills, as the loop's three parts. */
  lemma PadsAround(p: char, lead: int, hiDigits: seq<char>, value: nat, width: int, out: seq<char>)
    requires value < 10 && |hiDigits| > 0 && out == Rep(p, lead) + hiDigits
    ensures Rep(p, lead) + (hiDigits + [DigitChar(value)]) + Rep(p, -width - |hiDigits| - 1) ==
            Finished(out, value, |hiDigits|, width, p)
  {
    var n := |hiDigits|;
    var tail := if width < 0 then Rep(p, -width - n - 1) else [];
    assert Rep(p, -width - n - 1) == tail;
  }
}
