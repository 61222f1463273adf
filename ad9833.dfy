/**
 * The AD9833 waveform generator driver of AD9833.c. Output reprograms the chip with a
 * fixed sequence of 16-bit control words, each sent high byte first; the driver
 * remembers the last frequency programmed and whether the output is on.
 */
module AD9833 {
  import opened FixedWidth

  // Control-word pieces
  const FREQ0: bv16 := 0x4000
  const PHASE0_WORD: bv16 := 0xC000
  /** B28 | RESET in the high byte: 28-bit frequency loads, registers held in reset. */
  const RESET_WORD: bv16 := 0x2100
  const SIN_WORD: bv16 := 0x2000
  /** B28 in the high byte, OPBITEN | DIV2 in the low byte. */
  const SQ_WORD: bv16 := 0x2028
  /** B28 in the high byte, MODE in the low byte. */
  const TRI_WORD: bv16 := 0x2002

  /** The generator's master clock, CLKIN, in Hz. */
  const CLKIN: nat := 25_000_000

  datatype Mode = Off | Sin | Sq | Tri

  /**
   * The frequency-register value for Freq Hz. The datasheet's Freq*2^28/CLKIN is
   * computed as ((Freq << 14)/625 << 8)/625 in uint32, where 625*625 = 5^8 and
   * 2^28/25e6 = 2^22/5^8. No step overflows 32 bits, and the two truncations
   * together lose at most one unit against the exact quotient.
   */
  function Divisor(freq: nat): (d: nat)
    requires IsU16(freq)
    ensures d < 0x1000_0000
    ensures d <= freq * 0x1000_0000 / CLKIN <= d + 1
  {
    var a := U32(freq * 0x4000) / 625;
    var d := U32(a * 0x100) / 625;
    DivisorBounds(freq, a, d);
    d
  }

  lemma DivisorBounds(freq: nat, a: nat, d: nat)
    requires IsU16(freq)
    requires a == U32(freq * 0x4000) / 625 && d == U32(a * 0x100) / 625
    ensures d < 0x1000_0000
    ensures d <= freq * 0x1000_0000 / CLKIN <= d + 1
  {
    var big := freq * 0x4000;
    assert big < U32_MOD;
    var r := big % 625;
    assert big == 625 * a + r;
    assert a * 0x100 < U32_MOD;
    var x := a * 0x100;
    var s := x % 625;
    assert x == 625 * d + s;
    // freq * 2^28 / CLKIN == big * 256 / 390625, with big * 256 == 390625 d + 625 s + 256 r
    assert freq * 0x1000_0000 == 64 * (big * 256) && CLKIN == 64 * 390625;
    assert big * 256 == 390625 * d + (625 * s + 256 * r);
    var rest := 625 * s + 256 * r;
    if rest < 390625 {
      DivUnique(freq * 0x1000_0000, CLKIN, d, 64 * rest);
    } else {
      DivUnique(freq * 0x1000_0000, CLKIN, d + 1, 64 * (rest - 390625));
    }
  }

  /** The 32-bit divisor as a bit-vector, and the little-endian views of its union. */
  function Word0(div: bv32): bv16 { (div & 0xFFFF) as bv16 }
  function Word1(div: bv32): bv16 { (div >> 16) as bv16 }
  function Byte1(div: bv32): bv16 { ((div >> 8) & 0xFF) as bv16 }

  /** FreqLow: the FREQ0 tag and the low 14 bits of the divisor. */
  function FreqLow(div: bv32): (w: bv16)
    ensures w & 0xC000 == FREQ0
    ensures (w & 0x3FFF) as bv32 == div & 0x3FFF
  {
    FREQ0 | (Word0(div) & 0x3FFF)
  }

  /**
   * FreqHigh, assembled from the high word shifted left by two and the top two bits
   * of the second byte: for a 28-bit divisor, the FREQ0 tag and bits 14..27.
   */
  function FreqHigh(div: bv32): (w: bv16)
    requires div < 0x1000_0000
    ensures w & 0xC000 == FREQ0
    ensures (w & 0x3FFF) as bv32 == (div >> 14) & 0x3FFF
  {
    FREQ0 | (Word1(div) << 2) | (Byte1(div) >> 6)
  }

  /** The 28-bit value the chip loads from a pair of FREQ0 words. */
  function Recombine(high: bv16, low: bv16): bv32
  {
    ((high & 0x3FFF) as bv32 << 14) | (low & 0x3FFF) as bv32
  }

  /** The two 14-bit halves put back together give the 28-bit divisor. */
  lemma FreqWordsRecombine(div: bv32)
    requires div < 0x1000_0000
    ensures Recombine(FreqHigh(div), FreqLow(div)) == div
  {
  }

  /** The final control word for each waveform. */
  function ModeWord(mode: Mode): (w: bv16)
    requires mode != Off
    ensures w & 0xFF00 == 0x2000
  {
    match mode
    case Sin => SIN_WORD
    case Sq => SQ_WORD
    case Tri => TRI_WORD
  }

  function HighByte(w: bv16): bv8 { (w >> 8) as bv8 }
  function LowByte(w: bv16): bv8 { (w & 0xFF) as bv8 }

  /** The bytes on the bus: each word high byte first. */
  function WordBytes(words: seq<bv16>): (bytes: seq<bv8>)
    ensures |bytes| == 2 * |words|
  {
    if words == [] then []
    else [HighByte(words[0]), LowByte(words[0])] + WordBytes(words[1..])
  }

  /** Word i goes out as bytes 2i (high) and 2i+1 (low). */
  lemma {:induction false} WordBytesAt(words: seq<bv16>, i: nat)
    requires i < |words|
    ensures WordBytes(words)[2 * i] == HighByte(words[i])
    ensures WordBytes(words)[2 * i + 1] == LowByte(words[i])
    decreases i
  {
    if i > 0 {
      WordBytesAt(words[1..], i - 1);
      assert WordBytes(words)[2 * i] == WordBytes(words[1..])[2 * (i - 1)];
      assert WordBytes(words)[2 * i + 1] == WordBytes(words[1..])[2 * (i - 1) + 1];
    }
  }

  /** A word sent high byte first is rebuilt by the receiver from its two bytes. */
  lemma WordBytesRoundTrip(w: bv16)
    ensures (HighByte(w) as bv16 << 8) | LowByte(w) as bv16 == w
  {
  }

  /** The AD9833 record: the last frequency programmed and whether output is on. */
  class Generator {
    var freq: nat
    var isOn: bool

    ghost predicate Valid()
      reads this
    {
      IsU16(freq)
    }

    constructor()
      ensures Valid()
    {
      freq, isOn := 0, false;
    }

    /** AD9833Init: record zeroed, then output switched off. */
    method Init() returns (words: seq<bv16>)
      modifies this
      ensures Valid() && freq == 0 && !isOn && words == [RESET_WORD]
    {
      freq, isOn := 0, false;
      words := Output(Off, 0);
    }

    /**
     * AD9833Output: always reset first. Off stops there, keeping the recorded
     * frequency; any waveform records the frequency, turns the output on and sends
     * both frequency halves, a zero phase and the waveform's control word.
     */
    method Output(mode: Mode, f: nat) returns (words: seq<bv16>)
      requires Valid() && IsU16(f)
      modifies this
      ensures Valid()
      ensures mode == Off ==> words == [RESET_WORD] && !isOn && freq == old(freq)
      ensures mode != Off ==>
                isOn && freq == f &&
                words == [RESET_WORD, FreqLow(Divisor(f) as bv32), FreqHigh(Divisor(f) as bv32),
                          PHASE0_WORD, ModeWord(mode)]
    {
      words := [RESET_WORD];
      if mode == Off {
        isOn := false;
        return;
      }
      freq := f;
      isOn := true;
      var div := Divisor(f) as bv32;
      words := words + [FreqLow(div), FreqHigh(div), PHASE0_WORD];
      words := words + [ModeWord(mode)];
    }

    /** AD9833IsOn. */
    function IsOn(): (on: bool)
      reads this
    {
      isOn
    }

    /** AD9833GetFreq. */
    function GetFreq(): (f: nat)
      reads this
      requires Valid()
      ensures IsU16(f)
    {
      freq
    }
  }
}
