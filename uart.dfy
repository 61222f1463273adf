/**
 * The interrupt-driven serial port of UART.c: a receive FIFO of 8 characters filled
 * by the receive interrupt and drained by GetUARTByte, and a transmit FIFO of 64
 * characters filled by PutUARTByte and drained by the data-register-empty interrupt.
 * Each FIFO is a ring buffer whose uint8 In/Out indices wrap by masking with SIZE-1.
 */
module Uart {
  import opened LibC

  const IFIFO_SIZE: nat := 8
  const OFIFO_SIZE: nat := 64

  datatype Option<T> = None | Some(value: T)

  /** `x & mask` on uint8 operands. */
  function Wrap(x: nat, mask: nat): nat
    requires x < 0x100 && mask < 0x100
  {
    ((x as bv8) & (mask as bv8)) as nat
  }

  /**
   * For a power-of-two size, masking an index one past the end with SIZE-1 brings
   * it back to 0 and leaves smaller indices alone: it is reduction modulo SIZE.
   */
  lemma WrapIsMod(x: nat, size: nat)
    requires size == IFIFO_SIZE || size == OFIFO_SIZE
    requires x <= size
    ensures Wrap(x, size - 1) == x % size == (if x == size then 0 else x)
  {
    var b := x as bv8;
    if size == IFIFO_SIZE {
      assert (size - 1) as bv8 == 7 && b <= 8;
      assert b & 7 == if b == 8 then 0 else b;
    } else {
      assert (size - 1) as bv8 == 63 && b <= 64;
      assert b & 63 == if b == 64 then 0 else b;
    }
  }

  /** Position i of a ring of length len that starts at out. */
  function Slot(out: nat, i: nat, len: nat): (k: nat)
    requires out < len && i < len
    ensures k < len && k == (out + i) % len
  {
    if out + i < len then out + i else out + i - len
  }

  /** The n characters of ring b starting at position out. */
  ghost function Ring(b: seq<char>, out: nat, n: nat): (s: seq<char>)
    requires out < |b| && n < |b|
    ensures |s| == n
    ensures forall i :: 0 <= i < n ==> s[i] == b[Slot(out, i, |b|)]
  {
    seq(n, i requires 0 <= i < n => b[Slot(out, i, |b|)])
  }

  /** Storing c just past the end of the ring appends it, when a slot is free. */
  lemma RingSnoc(b: seq<char>, out: nat, n: nat, c: char)
    requires out < |b| && n + 1 < |b|
    ensures Ring(b[Slot(out, n, |b|) := c], out, n + 1) == Ring(b, out, n) + [c]
  {
    var b' := b[Slot(out, n, |b|) := c];
    forall i | 0 <= i < n
      ensures Slot(out, i, |b|) != Slot(out, n, |b|)
    {
    }
    assert Ring(b', out, n + 1) == Ring(b, out, n) + [c];
  }

  /** Moving the start forward by one drops the oldest character. */
  lemma RingTail(b: seq<char>, out: nat, n: nat)
    requires out < |b| && 0 < n < |b|
    ensures Ring(b, Slot(out, 1, |b|), n - 1) == Ring(b, out, n)[1..]
  {
    forall i | 0 <= i < n - 1
      ensures Slot(Slot(out, 1, |b|), i, |b|) == Slot(out, i + 1, |b|)
    {
    }
  }

  /** One ring buffer: the characters from Out up to (not including) In. */
  class Fifo {
    const buf: array<char>
    var inIdx: nat
    var outIdx: nat

    ghost predicate Valid()
      reads this
    {
      (buf.Length == IFIFO_SIZE || buf.Length == OFIFO_SIZE) &&
      inIdx < buf.Length && outIdx < buf.Length
    }

    /** The number of characters queued. */
    function Count(): (n: nat)
      reads this
      requires Valid()
      ensures n < buf.Length && inIdx == Slot(outIdx, n, buf.Length)
    {
      if inIdx >= outIdx then inIdx - outIdx else inIdx + buf.Length - outIdx
    }

    /** The queued characters, oldest first. */
    ghost function Contents(): (s: seq<char>)
      reads this, buf
      requires Valid()
      ensures |s| == Count()
    {
      Ring(buf[..], outIdx, Count())
    }

    constructor(size: nat)
      requires size == IFIFO_SIZE || size == OFIFO_SIZE
      ensures Valid() && buf.Length == size && Contents() == [] && fresh(buf)
    {
      buf := new char[size];
      inIdx, outIdx := 0, 0;
    }

    /** The memset of UARTInit, restricted to this FIFO: indices and storage zeroed. */
    method Clear()
      requires Valid()
      modifies this, buf
      ensures Valid() && Contents() == []
      ensures inIdx == 0 && outIdx == 0
      ensures forall i :: 0 <= i < buf.Length ==> buf[i] == NUL
    {
      inIdx, outIdx := 0, 0;
      for i := 0 to buf.Length
        modifies buf
        invariant forall j :: 0 <= j < i ==> buf[j] == NUL
      {
        buf[i] := NUL;
      }
    }

    /**
     * The insertion shared by PutUARTByte and the receive interrupt: store at In and
     * advance In unless the advanced index would meet Out. One slot always stays
     * empty, so a FIFO of SIZE slots holds at most SIZE-1 characters.
     */
    method Put(c: char) returns (ok: bool)
      requires Valid()
      modifies this, buf
      ensures Valid() && outIdx == old(outIdx)
      ensures ok <==> old(Count()) < buf.Length - 1
      ensures ok ==> Contents() == old(Contents()) + [c]
      ensures ok ==> buf[old(inIdx)] == c && inIdx == (old(inIdx) + 1) % buf.Length
      ensures !ok ==> inIdx == old(inIdx) && buf[..] == old(buf[..])
    {
      WrapIsMod(inIdx + 1, buf.Length);
      var newIn := Wrap(inIdx + 1, buf.Length - 1);
      if newIn != outIdx {
        ghost var n := Count();
        RingSnoc(buf[..], outIdx, n, c);
        buf[inIdx] := c;
        inIdx := newIn;
        ok := true;
        assert Count() == n + 1;
      } else {
        ok := false;
      }
    }

    /**
     * The removal shared by GetUARTByte and the transmit interrupt: when the FIFO is
     * not empty, take the character at Out and advance Out.
     */
    method Take() returns (c: Option<char>)
      requires Valid()
      modifies this
      ensures Valid() && inIdx == old(inIdx)
      ensures old(Contents()) == [] ==> c == None && outIdx == old(outIdx)
      ensures old(Contents()) != [] ==>
                c == Some(old(Contents())[0]) && Contents() == old(Contents())[1..] &&
                outIdx == (old(outIdx) + 1) % buf.Length
    {
      if inIdx != outIdx {
        c := Some(buf[outIdx]);
        ghost var n := Count();
        RingTail(buf[..], outIdx, n);
        WrapIsMod(outIdx + 1, buf.Length);
        outIdx := Wrap(outIdx + 1, buf.Length - 1);
        assert Count() == n - 1;
      } else {
        c := None;
      }
    }
  }

  /** The UART record: both FIFOs and the data-register-empty interrupt enable bit. */
  class Port {
    const rx: Fifo
    const tx: Fifo
    /** UDRIE0: the transmit interrupt is enabled. */
    var txInterrupt: bool

    ghost predicate Valid()
      reads this, rx, tx
    {
      rx != tx && rx.buf != tx.buf &&
      rx.Valid() && rx.buf.Length == IFIFO_SIZE &&
      tx.Valid() && tx.buf.Length == OFIFO_SIZE
    }

    constructor()
      ensures Valid() && fresh(rx) && fresh(tx) && fresh(rx.buf) && fresh(tx.buf)
    {
      rx := new Fifo(IFIFO_SIZE);
      tx := new Fifo(OFIFO_SIZE);
      txInterrupt := false;
    }

    /** UARTInit: both FIFOs empty, transmit interrupt off. */
    method Init()
      requires Valid()
      modifies this, rx, rx.buf, tx, tx.buf
      ensures Valid() && rx.Contents() == [] && tx.Contents() == [] && !txInterrupt
    {
      rx.Clear();
      tx.Clear();
      txInterrupt := false;
    }

    /**
     * PutUARTByte: queue a character for sending. False, with the FIFO unchanged,
     * when 63 characters are already waiting. The transmit interrupt is enabled on
     * the way out in either case.
     */
    method PutByte(c: char) returns (ok: bool)
      requires Valid()
      modifies this, tx, tx.buf
      ensures Valid() && txInterrupt
      ensures ok <==> |old(tx.Contents())| < OFIFO_SIZE - 1
      ensures ok ==> tx.Contents() == old(tx.Contents()) + [c]
      ensures !ok ==> tx.Contents() == old(tx.Contents())
      ensures unchanged(rx, rx.buf)
    {
      ok := tx.Put(c);
      txInterrupt := true;
    }

    /** GetUARTByte: the oldest received character, or NUL with nothing changed. */
    method GetByte() returns (c: char)
      requires Valid()
      modifies rx
      ensures Valid()
      ensures old(rx.Contents()) == [] ==> c == NUL && rx.Contents() == []
      ensures old(rx.Contents()) != [] ==>
                c == old(rx.Contents())[0] && rx.Contents() == old(rx.Contents())[1..]
    {
      var r := rx.Take();
      c := if r.Some? then r.value else NUL;
    }

    /** UARTBusy: output is still waiting to be sent. */
    function Busy(): (busy: bool)
      reads this, rx, tx
      requires Valid()
      ensures busy <==> tx.Count() != 0
    {
      tx.inIdx != tx.outIdx
    }

    /** The receive interrupt: queue the received character, or drop it when full. */
    method RxIsr(c: char)
      requires Valid()
      modifies rx, rx.buf
      ensures Valid()
      ensures |old(rx.Contents())| < IFIFO_SIZE - 1 ==> rx.Contents() == old(rx.Contents()) + [c]
      ensures |old(rx.Contents())| == IFIFO_SIZE - 1 ==> rx.Contents() == old(rx.Contents())
    {
      var ok := rx.Put(c);
    }

    /**
     * The data-register-empty interrupt: send the oldest queued character, or, with
     * nothing queued, disable this interrupt.
     */
    method TxIsr() returns (sent: Option<char>)
      requires Valid()
      modifies this, tx
      ensures Valid()
      ensures old(tx.Contents()) == [] ==>
                sent == None && !txInterrupt && tx.Contents() == []
      ensures old(tx.Contents()) != [] ==>
                sent == Some(old(tx.Contents())[0]) && txInterrupt == old(txInterrupt) &&
                tx.Contents() == old(tx.Contents())[1..]
    {
      sent := tx.Take();
      if sent.None? {
        txInterrupt := false;
      }
    }
  }
}
