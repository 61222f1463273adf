/**
 * Command.c: the case-insensitive command comparison StrEQ and the bounded line
 * buffer that collects serial input characters until a carriage return or ESC.
 */
module Command {
  import opened LibC
  import opened Decimal

  const MAX_CMD_LENGTH: nat := 20
  const BACKSPACE: char := '\U{08}'
  const ESC: char := '\U{1B}'
  const ESC_CMD: seq<char> := [ESC]

  datatype Option<T> = None | Some(value: T)

  /** The character a C string pointer reads (NUL past the end). */
  function Peek(s: seq<char>): char { if s == [] then NUL else s[0] }
  function Advance(s: seq<char>): seq<char> { if s == [] then [] else s[1..] }

  /** The case folding StrEQ applies to both sides: toupper on letters only. */
  function Fold(c: char): (r: char)
    ensures r == NUL <==> c == NUL
  {
    if IsAlpha(c) then ToUpper(c) else c
  }

  /**
   * StrEQ: walk String1; a space in it ends the comparison with success, letters
   * compare without regard to case, other characters exactly; at the end of String1,
   * String2 must end too.
   */
  function StrEQ(s1: seq<char>, s2: seq<char>): bool
    decreases |s1|
  {
    var c1 := Peek(s1);
    if c1 == NUL then Peek(s2) == NUL
    else if c1 == ' ' then true
    else if Fold(c1) != Fold(Peek(s2)) then false
    else StrEQ(s1[1..], Advance(s2))
  }

  /** Two strings of one length that are equal up to case folding. */
  predicate FoldEqual(a: seq<char>, b: seq<char>)
  {
    |a| == |b| && forall i :: 0 <= i < |a| ==> Fold(a[i]) == Fold(b[i])
  }

  /** The position of the first space, or the length when there is none. */
  function SpaceIndex(a: seq<char>): (k: nat)
    ensures k <= |a| && ' ' !in a[..k]
    ensures k < |a| ==> a[k] == ' '
  {
    if a == [] then 0 else if a[0] == ' ' then 0 else 1 + SpaceIndex(a[1..])
  }

  /**
   * The reference meaning of StrEQ on the two C strings a and b: if a holds a space,
   * the part of a before it must match the start of b; otherwise a and b must match
   * in full and have the same length.
   */
  predicate StrEQSpec(s1: seq<char>, s2: seq<char>)
  {
    var a := CStr(s1);
    var b := CStr(s2);
    var k := SpaceIndex(a);
    if k < |a| then |b| >= k && FoldEqual(a[..k], b[..k]) else FoldEqual(a, b)
  }

  lemma FoldEqualCons(x: char, y: char, a: seq<char>, b: seq<char>)
    ensures FoldEqual([x] + a, [y] + b) <==> Fold(x) == Fold(y) && FoldEqual(a, b)
  {
    if Fold(x) == Fold(y) && FoldEqual(a, b) {
      forall i | 1 <= i < |a| + 1
        ensures Fold(([x] + a)[i]) == Fold(([y] + b)[i])
      {
        assert ([x] + a)[i] == a[i - 1] && ([y] + b)[i] == b[i - 1];
      }
    }
    if FoldEqual([x] + a, [y] + b) {
      assert ([x] + a)[0] == x && ([y] + b)[0] == y;
      forall i | 0 <= i < |a|
        ensures Fold(a[i]) == Fold(b[i])
      {
        assert ([x] + a)[i + 1] == a[i] && ([y] + b)[i + 1] == b[i];
      }
    }
  }

  lemma {:induction false} StrEQMeaning(s1: seq<char>, s2: seq<char>)
    ensures StrEQ(s1, s2) == StrEQSpec(s1, s2)
    decreases |s1|
  {
    var a, b := CStr(s1), CStr(s2);
    if Peek(s1) == NUL {
      assert a == [];
    } else if Peek(s1) == ' ' {
      assert a[0] == ' ' && SpaceIndex(a) == 0;
    } else if Fold(Peek(s1)) != Fold(Peek(s2)) {
      assert a[0] == s1[0];
      var k := SpaceIndex(a);
      assert k >= 1;
      if b != [] {
        assert b[0] == s2[0];
        if k < |a| && |b| >= k {
          assert a[..k][0] == a[0] && b[..k][0] == b[0];
        }
      }
    } else {
      var a', b' := CStr(s1[1..]), CStr(Advance(s2));
      assert s2 != [] && s2[0] != NUL;
      assert a == [s1[0]] + a' && b == [s2[0]] + b';
      assert SpaceIndex(a) == 1 + SpaceIndex(a');
      StrEQMeaning(s1[1..], Advance(s2));
      var k := SpaceIndex(a');
      if k < |a'| {
        if |b| >= k + 1 {
          assert a[..k + 1] == [a[0]] + a'[..k] && b[..k + 1] == [b[0]] + b'[..k];
          FoldEqualCons(a[0], b[0], a'[..k], b'[..k]);
        }
      } else {
        FoldEqualCons(a[0], b[0], a', b');
      }
    }
  }

  /** Comparing with an empty String1 succeeds exactly when String2 is empty. */
  lemma StrEQEmpty(s: seq<char>)
    ensures StrEQ("", s) <==> CStr(s) == []
  {
  }

  /** "off" and "Of" match "OFF" and "OF"; "OF" does not match "OFF", nor "OFF" match "OF". */
  lemma StrEQExamples()
    ensures StrEQ("off", "OFF") && StrEQ("Of", "OF")
    ensures !StrEQ("OF", "OFF") && !StrEQ("OFF", "OF")
  {
    assert "off"[1..] == "ff" && "ff"[1..] == "f" && "f"[1..] == [];
    assert "OFF"[1..] == "FF" && "FF"[1..] == "F" && "F"[1..] == [];
    assert "Of"[1..] == "f" && "OF"[1..] == "F";
  }

  /** A space in the typed command ends the comparison: "FR 28000" matches "FR". */
  lemma StrEQStopsAtSpace()
    ensures StrEQ("FR 28000", "FR") && !StrEQ("F", "FR")
  {
    assert "FR 28000"[1..] == "R 28000" && "R 28000"[1..] == " 28000";
    assert "FR"[1..] == "R" && "R"[1..] == [];
    assert "F"[1..] == [];
  }

  /**
   * The command line being typed: CommandBuffer[MAX_CMD_LENGTH + 1] and its count
   * nChars. Characters at and after nChars are NUL, so the buffer always holds a
   * terminated string.
   */
  class CommandLine {
    const buffer: array<char>
    var nChars: int

    ghost predicate Valid()
      reads this, buffer
    {
      && buffer.Length == MAX_CMD_LENGTH + 1
      && 0 <= nChars <= MAX_CMD_LENGTH
      && (forall i :: 0 <= i < nChars ==> buffer[i] != NUL)
      && (forall i :: nChars <= i < buffer.Length ==> buffer[i] == NUL)
    }

    /** The characters typed so far. */
    function Line(): (line: seq<char>)
      reads this, buffer
      requires Valid()
      ensures |line| <= MAX_CMD_LENGTH && NUL !in line
      ensures CStr(buffer[..]) == line
    {
      CStrTerminated(buffer[..], nChars);
      buffer[..nChars]
    }

    /** CommandInit: an empty, cleared buffer. */
    constructor ()
      ensures Valid() && Line() == []
    {
      buffer := new char[MAX_CMD_LENGTH + 1](_ => NUL);
      nChars := 0;
    }

    /** InitCommandBuffer: clear every byte and empty the line. */
    method InitCommandBuffer()
      requires buffer.Length == MAX_CMD_LENGTH + 1
      modifies this, buffer
      ensures Valid() && Line() == []
    {
      for i := 0 to buffer.Length
        invariant forall j :: 0 <= j < i ==> buffer[j] == NUL
      {
        buffer[i] := NUL;
      }
      nChars := 0;
    }

    /**
     * ProcessSerialInput: edit the line with one received character. Returns the
     * characters echoed and, on CR or ESC, the line handed to the command dispatcher.
     */
    method ProcessSerialInput(c: char) returns (echo: seq<char>, dispatched: Option<seq<char>>)
      requires Valid()
      modifies this, buffer
      ensures Valid()
      ensures c == NUL ==> echo == [] && dispatched == None && Line() == old(Line())
      ensures c == BACKSPACE ==>
                dispatched == None
                && (old(nChars) == 0 ==> echo == [] && Line() == old(Line()))
                && (old(nChars) > 0 ==> echo == [BACKSPACE, ' ', BACKSPACE]
                                        && Line() == old(Line())[..old(nChars) - 1])
      ensures c == '\r' ==> echo == "\r\n" && dispatched == Some(old(Line())) && Line() == []
      ensures c == ESC ==> echo == [ESC] && dispatched == Some(ESC_CMD) && Line() == []
      ensures c == '\n' ==> echo == [] && dispatched == None && Line() == old(Line())
      ensures c !in {NUL, BACKSPACE, '\r', ESC, '\n'} ==>
                echo == [c] && dispatched == None
                && Line() == if old(nChars) < MAX_CMD_LENGTH then old(Line()) + [c] else old(Line())
    {
      dispatched := None;
      echo := [];
      if c == NUL {
        return;
      }
      if c == BACKSPACE {
        if nChars != 0 {
          nChars := nChars - 1;
          buffer[nChars] := NUL;
          echo := [BACKSPACE, ' ', BACKSPACE];
        }
        return;
      }
      if c == '\r' {
        echo := "\r\n";
      } else if c != '\n' {
        echo := [c];
      }
      if c == '\r' || c == ESC {
        if c == ESC {
          buffer[0] := ESC;
          buffer[1] := NUL;
          CStrTerminated(buffer[..], 1);
          assert buffer[..][..1] == ESC_CMD;
        } else {
          CStrTerminated(buffer[..], nChars);
        }
        dispatched := Some(CStr(buffer[..]));
        InitCommandBuffer();
        return;
      } else if c == '\n' {
        return;
      }
      if nChars < MAX_CMD_LENGTH {
        buffer[nChars] := c;
        nChars := nChars + 1;
      }
    }
  }
}
