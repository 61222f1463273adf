/**
 * The pieces of the C library the command layer relies on, over ASCII: isalpha,
 * toupper, isspace, and avr-libc's 16-bit atoi. A C string is a character sequence
 * read up to its first NUL (or to its end when it holds none).
 */
module LibC {
  import opened FixedWidth
  import opened Decimal

  const NUL: char := '\0'

  /** The C string a character array holds: everything before the first NUL. */
  function CStr(s: seq<char>): (r: seq<char>)
    ensures |r| <= |s| && r == s[..|r|]
    ensures NUL !in r
    ensures |r| < |s| ==> s[|r|] == NUL
  {
    if s == [] || s[0] == NUL then [] else [s[0]] + CStr(s[1..])
  }

  /** A NUL at n with none before it ends the C string there. */
  lemma {:induction false} CStrTerminated(s: seq<char>, n: nat)
    requires n < |s| && s[n] == NUL && forall i :: 0 <= i < n ==> s[i] != NUL
    ensures CStr(s) == s[..n]
    decreases n
  {
    if n > 0 {
      CStrTerminated(s[1..], n - 1);
      assert s[..n] == [s[0]] + s[1..][..n - 1];
    }
  }

  predicate IsAlpha(c: char) { 'A' <= c <= 'Z' || 'a' <= c <= 'z' }

  predicate IsSpace(c: char)
  {
    c == ' ' || c == '\t' || c == '\n' || c == '\U{0B}' || c == '\U{0C}' || c == '\r'
  }

  /** toupper: lower-case letters map to upper case, every other character to itself. */
  function ToUpper(c: char): (r: char)
    ensures 'a' <= c <= 'z' ==> r as int == c as int - 32
    ensures !('a' <= c <= 'z') ==> r == c
    ensures IsAlpha(r) <==> IsAlpha(c)
  {
    if 'a' <= c <= 'z' then (c as int - 32) as char else c
  }

  /** The longest prefix of decimal digits. */
  function LeadingDigits(s: seq<char>): (r: seq<char>)
    ensures |r| <= |s| && r == s[..|r|]
    ensures forall i :: 0 <= i < |r| ==> IsDigit(r[i])
    ensures |r| < |s| ==> !IsDigit(s[|r|])
  {
    if s == [] || !IsDigit(s[0]) then [] else [s[0]] + LeadingDigits(s[1..])
  }

  function SkipSpace(s: seq<char>): (r: seq<char>)
    ensures |r| <= |s| && r == s[|s| - |r|..]
    ensures r == [] || !IsSpace(r[0])
  {
    if s != [] && IsSpace(s[0]) then SkipSpace(s[1..]) else s
  }

  /**
   * The number atoi reads: leading white space, an optional sign, then the decimal
   * digits up to the first other character (0 when there are none).
   */
  function ParsedValue(s: seq<char>): (v: int)
    ensures CStr(s) == [] ==> v == 0
  {
    var t := SkipSpace(s);
    var negative := |t| > 0 && t[0] == '-';
    var u := if |t| > 0 && (t[0] == '-' || t[0] == '+') then t[1..] else t;
    var n: int := DigitsValue(LeadingDigits(u));
    EmptyReadsNothing(s);
    if negative then -n else n
  }

  /** An empty C string has no white space, no sign and no digits to read. */
  lemma EmptyReadsNothing(s: seq<char>)
    ensures CStr(s) == [] ==> SkipSpace(s) == s && (s == [] || (s[0] != '-' && s[0] != '+')) && LeadingDigits(s) == []
  {
    if CStr(s) == [] && s != [] {
      assert s[0] == NUL;
    }
  }

  /**
   * atoi as avr-libc computes it: the number is accumulated in a 16-bit `int`, so the
   * result is the value read, wrapped to int16.
   */
  function Atoi(s: seq<char>): (r: int)
    ensures IsI16(r) && (r - ParsedValue(s)) % U16_MOD == 0
    ensures CStr(s) == [] ==> r == 0
    ensures IsI16(ParsedValue(s)) ==> r == ParsedValue(s)
  {
    I16(ParsedValue(s))
  }

  lemma LeadingDigitsOfDigits(s: seq<char>)
    requires forall i :: 0 <= i < |s| ==> IsDigit(s[i])
    ensures LeadingDigits(s) == s
  {
  }

  /** atoi reads back a printed decimal number, modulo 2^16 as an int16. */
  lemma AtoiOfDecimal(n: nat)
    ensures Atoi(DecimalDigits(n)) == I16(n)
    ensures n < 0x8000 ==> Atoi(DecimalDigits(n)) == n
  {
    ParsedValueOfDecimal(n);
  }

  /** The value read back from a printed decimal number is that number. */
  lemma ParsedValueOfDecimal(n: nat)
    ensures ParsedValue(DecimalDigits(n)) == n
  {
    var ds := DecimalDigits(n);
    assert !IsSpace(ds[0]) && ds[0] != '-' && ds[0] != '+';
    LeadingDigitsOfDigits(ds);
    DigitsRoundTrip(n);
  }
}
