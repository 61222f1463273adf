/**
 * The MCP4161 (257-step) and MCP4131 (129-step) SPI digital potentiometers of
 * MCP4161.h and MCP4131.h. Both headers define the same macros and differ only in
 * the step count, so one model takes the step count as a parameter. An SPI
 * transaction is the sequence of chip-select edges and bytes it puts on the bus.
 */
module Mcp41x1 {
  import opened FixedWidth
  import PortMacros

  const MCP4161_STEPS: nat := 257
  const MCP4131_STEPS: nat := 129

  predicate IsSteps(steps: nat) { steps == MCP4161_STEPS || steps == MCP4131_STEPS }

  // Operation codes (low nibble of a command byte)
  const WRITE: bv8 := 0x00
  const INCR: bv8 := 0x04
  const DECR: bv8 := 0x08
  const READ: bv8 := 0x0C
  const PULLUP: bv8 := 0x03

  // Register addresses (high nibble of a command byte)
  const VWIPER0: bv8 := 0x00
  const TCON: bv8 := 0x04

  /** R0HW | R0A | R0W | R0B: resistor 0 connected at every terminal. */
  const R0ENB: bv8 := 0x08 | 0x04 | 0x02 | 0x01

  /** R2W: resistance in ohms to wiper steps, rounded, computed in uint32, cast to uint16. */
  function R2W(maxR: nat, steps: nat, r: nat): (w: nat)
    requires 0 < maxR && IsU32(maxR) && IsU32(r)
    ensures IsU16(w)
    ensures r * steps + maxR / 2 < U32_MOD ==> w == U16(PortMacros.ScaleRatio(r, steps, maxR))
  {
    var sum := U32(U32(r * steps) + maxR / 2);
    assert r * steps + maxR / 2 < U32_MOD ==> sum == r * steps + maxR / 2;
    U16(sum / maxR)
  }

  /** W2R: wiper steps to resistance in ohms, rounded, computed in uint32, cast to uint16. */
  function W2R(maxR: nat, steps: nat, w: nat): (r: nat)
    requires IsSteps(steps) && IsU32(maxR) && IsU32(w)
    ensures IsU16(r)
    ensures w * maxR + steps / 2 < U32_MOD ==> r == U16(PortMacros.ScaleRatio(w, maxR, steps))
  {
    var sum := U32(U32(w * maxR) + steps / 2);
    assert w * maxR + steps / 2 < U32_MOD ==> sum == w * maxR + steps / 2;
    U16(sum / steps)
  }

  /** Zero ohms is wiper 0, and the full resistance is wiper STEPS (one past a byte for the MCP4161). */
  lemma R2WEnds(maxR: nat, steps: nat)
    requires 0 < maxR && IsSteps(steps) && maxR * steps + maxR / 2 < U32_MOD
    ensures R2W(maxR, steps, 0) == 0
    ensures R2W(maxR, steps, maxR) == steps
  {
    DivUnique(maxR / 2, maxR, 0, maxR / 2);
    DivUnique(maxR * steps + maxR / 2, maxR, steps, maxR / 2);
  }

  /** Wiper 0 is zero ohms and wiper STEPS is the full resistance. */
  lemma W2REnds(maxR: nat, steps: nat)
    requires IsSteps(steps) && IsU16(maxR)
    ensures W2R(maxR, steps, 0) == 0
    ensures W2R(maxR, steps, steps) == maxR
  {
    DivUnique(steps * maxR + steps / 2, steps, maxR, steps / 2);
  }

  /** One step on the SPI bus. */
  datatype SpiOp = Select | Send(b: bv8) | Deselect

  /** The bytes a sequence of bus steps sends, in order. */
  function Sent(t: seq<SpiOp>): (bytes: seq<bv8>)
    ensures |bytes| <= |t|
  {
    if t == [] then []
    else (if t[0].Send? then [t[0].b] else []) + Sent(t[1..])
  }

  /** A transaction: chip select first, deselect last, and only bytes in between. */
  predicate Framed(t: seq<SpiOp>)
  {
    |t| >= 2 && t[0] == Select && t[|t| - 1] == Deselect &&
    forall i :: 0 < i < |t| - 1 ==> t[i].Send?
  }

  lemma SentFramed(bytes: seq<bv8>)
    ensures Sent([Select] + seq(|bytes|, i requires 0 <= i < |bytes| => Send(bytes[i])) + [Deselect]) == bytes
  {
    var t := [Select] + seq(|bytes|, i requires 0 <= i < |bytes| => Send(bytes[i])) + [Deselect];
    SentSends(bytes);
    assert t[1..] == seq(|bytes|, i requires 0 <= i < |bytes| => Send(bytes[i])) + [Deselect];
    SentAppend(seq(|bytes|, i requires 0 <= i < |bytes| => Send(bytes[i])), [Deselect]);
  }

  lemma {:induction false} SentSends(bytes: seq<bv8>)
    ensures Sent(seq(|bytes|, i requires 0 <= i < |bytes| => Send(bytes[i]))) == bytes
    decreases |bytes|
  {
    if bytes != [] {
      var t := seq(|bytes|, i requires 0 <= i < |bytes| => Send(bytes[i]));
      assert t[1..] == seq(|bytes[1..]|, i requires 0 <= i < |bytes[1..]| => Send(bytes[1..][i]));
      SentSends(bytes[1..]);
    }
  }

  lemma {:induction false} SentAppend(a: seq<SpiOp>, b: seq<SpiOp>)
    ensures Sent(a + b) == Sent(a) + Sent(b)
    decreases |a|
  {
    if a != [] {
      assert (a + b)[0] == a[0] && (a + b)[1..] == a[1..] + b;
      SentAppend(a[1..], b);
      var h := if a[0].Send? then [a[0].b] else [];
      assert Sent(a + b) == h + Sent(a[1..] + b);
      assert Sent(a) == h + Sent(a[1..]);
    } else {
      assert a + b == b;
    }
  }

  /** A framed transaction sending the given bytes. */
  function Transaction(bytes: seq<bv8>): (t: seq<SpiOp>)
    ensures Framed(t) && Sent(t) == bytes && |t| == |bytes| + 2
  {
    SentFramed(bytes);
    [Select] + seq(|bytes|, i requires 0 <= i < |bytes| => Send(bytes[i])) + [Deselect]
  }

  /** A command byte: register address in the high nibble, operation in the low one. */
  function Command(addr: bv8, op: bv8): (b: bv8)
    requires addr < 16 && op < 16
    ensures b >> 4 == addr && b & 0x0F == op
  {
    (addr << 4) | op
  }

  /** MCP41x1Write: command byte, then the data byte. */
  function Write(addr: bv8, outByte: bv8): (t: seq<SpiOp>)
    requires addr < 16
    ensures Framed(t) && Sent(t) == [Command(addr, WRITE), outByte]
  {
    Transaction([Command(addr, WRITE), outByte])
  }

  /** MCP41x1Incr / MCP41x1Inc: a single command byte. */
  function Incr(addr: bv8): (t: seq<SpiOp>)
    requires addr < 16
    ensures Framed(t) && Sent(t) == [Command(addr, INCR)]
  {
    Transaction([Command(addr, INCR)])
  }

  /** MCP41x1Decr / MCP41x1Dec: a single command byte. */
  function Decr(addr: bv8): (t: seq<SpiOp>)
    requires addr < 16
    ensures Framed(t) && Sent(t) == [Command(addr, DECR)]
  {
    Transaction([Command(addr, DECR)])
  }

  /** MCP41x1SetWiper: write the volatile wiper; PutSPIByte keeps the low byte of w. */
  function SetWiper(w: nat): (t: seq<SpiOp>)
    ensures Framed(t) && Sent(t) == [0x00, U8(w) as bv8]
  {
    Write(VWIPER0, U8(w) as bv8)
  }

  /** MCP41x1SetResist: write the wiper step for resistance r. */
  function SetResist(maxR: nat, steps: nat, r: nat): (t: seq<SpiOp>)
    requires 0 < maxR && IsU32(maxR) && IsU32(r)
    ensures Framed(t) && Sent(t) == [0x00, U8(R2W(maxR, steps, r)) as bv8]
  {
    SetWiper(R2W(maxR, steps, r))
  }

  /**
   * The full-scale resistance needs wiper 257 on the MCP4161, which the single data
   * byte cannot carry: the wiper written is 1, at the other end of the scale. The
   * MCP4131's 129 fits.
   */
  lemma SetResistFullScale(maxR: nat)
    requires 0 < maxR && maxR * MCP4161_STEPS + maxR / 2 < U32_MOD
    ensures Sent(SetResist(maxR, MCP4161_STEPS, maxR)) == [0x00, 0x01]
    ensures Sent(SetResist(maxR, MCP4131_STEPS, maxR)) == [0x00, 0x81]
  {
    R2WEnds(maxR, MCP4161_STEPS);
    R2WEnds(maxR, MCP4131_STEPS);
  }

  /** MCP41x1Init: chip select high, TCON = R0ENB, then the wiper at mid scale. */
  function Init(steps: nat): (t: seq<SpiOp>)
    requires IsSteps(steps)
    ensures |t| == 9 && t[0] == Deselect && Framed(t[1..5]) && Framed(t[5..])
    ensures Sent(t) == [0x40, 0x0F, 0x00, (steps / 2) as bv8]
  {
    var t := [Deselect] + Write(TCON, R0ENB) + SetWiper(steps / 2);
    assert t[1..5] == Write(TCON, R0ENB);
    assert t[5..] == SetWiper(steps / 2);
    SentAppend([Deselect], Write(TCON, R0ENB));
    SentAppend([Deselect] + Write(TCON, R0ENB), SetWiper(steps / 2));
    t
  }

  /** MCP41x1PutReg: the top two bits of the 10-bit value ride in the command byte. */
  function PutRegBytes(addr: bv8, value: bv16): (bytes: seq<bv8>)
    requires addr < 16
    ensures |bytes| == 2 && bytes[0] >> 4 == addr
  {
    [Command(addr, WRITE) | ((value >> 8) & 0x03) as bv8, (value & 0xFF) as bv8]
  }

  function PutReg(addr: bv8, value: bv16): (t: seq<SpiOp>)
    requires addr < 16
    ensures Framed(t) && Sent(t) == PutRegBytes(addr, value)
  {
    Transaction(PutRegBytes(addr, value))
  }

  /** MCP41x1GetReg: a read command with the pull-up bits, then 0xFF to clock the reply. */
  function GetReg(addr: bv8): (t: seq<SpiOp>)
    requires addr < 16
    ensures Framed(t) && Sent(t) == [Command(addr, READ) | PULLUP, 0xFF]
  {
    Transaction([Command(addr, READ) | PULLUP, 0xFF])
  }

  /** GetReg's decoding of the two bytes clocked back: the low ten bits of Left:Right. */
  function DecodeReg(left: bv8, right: bv8): (v: bv16)
    ensures v < 1024
  {
    ((left as bv16 << 8) | right as bv16) & 0x3FF
  }

  /** Decoding PutReg's two bytes as GetReg does gives the 10-bit value back. */
  lemma PutGetRoundTrip(addr: bv8, value: bv16)
    requires addr < 16 && value < 1024
    ensures DecodeReg(PutRegBytes(addr, value)[0], PutRegBytes(addr, value)[1]) == value
  {
  }
}
