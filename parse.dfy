/**
 * Parse.c: splitting the command line into tokens. The cursor LineBuffer walks the
 * line once; each ParseToken call skips spaces and tabs and copies at most
 * MAX_TOKEN_LENGTH following characters into the static Token array.
 */
module Parse {
  import opened LibC
  import opened Decimal

  const MAX_TOKEN_LENGTH: nat := 10

  /** strchr(" \t", c) for a character that is not NUL. */
  predicate IsDelimiter(c: char) { c == ' ' || c == '\t' }

  /** The character under the cursor (*LineBuffer); NUL at and past the end of the line. */
  function At(line: seq<char>, i: nat): char { if i < |line| then line[i] else NUL }

  /** The cursor after the leading delimiters. */
  function SkipDelimiters(line: seq<char>, pos: nat): (p: nat)
    requires pos <= |line|
    ensures pos <= p <= |line|
    ensures forall i :: pos <= i < p ==> IsDelimiter(line[i])
    ensures At(line, p) == NUL || !IsDelimiter(At(line, p))
    decreases |line| - pos
  {
    if At(line, pos) != NUL && IsDelimiter(At(line, pos)) then SkipDelimiters(line, pos + 1) else pos
  }

  /** How many token characters follow `start`, `len` of them already taken. */
  function TokenLength(line: seq<char>, start: nat, len: nat): (n: nat)
    requires start + len <= |line| && len <= MAX_TOKEN_LENGTH
    ensures len <= n <= MAX_TOKEN_LENGTH && start + n <= |line|
    ensures forall i :: start + len <= i < start + n ==> line[i] != NUL && !IsDelimiter(line[i])
    ensures n < MAX_TOKEN_LENGTH ==> At(line, start + n) == NUL || IsDelimiter(At(line, start + n))
    decreases MAX_TOKEN_LENGTH - len
  {
    var c := At(line, start + len);
    if c != NUL && !IsDelimiter(c) && len < MAX_TOKEN_LENGTH then TokenLength(line, start, len + 1) else len
  }

  /**
   * The token ParseToken returns from cursor `pos`, and the cursor after it: delimiters
   * are skipped, then at most ten characters that are neither NUL nor delimiters taken.
   */
  function NextToken(line: seq<char>, pos: nat): (r: (seq<char>, nat))
    requires pos <= |line|
    ensures var (tok, next) := r;
            && pos <= next <= |line|
            && |tok| <= MAX_TOKEN_LENGTH && |tok| <= next
            && tok == line[next - |tok|..next]
            && (forall i :: 0 <= i < |tok| ==> tok[i] != NUL && !IsDelimiter(tok[i]))
            && (forall i :: pos <= i < next - |tok| ==> IsDelimiter(line[i]))
            && (tok == [] <==> At(line, next - |tok|) == NUL)
  {
    var start := SkipDelimiters(line, pos);
    var n := TokenLength(line, start, 0);
    (line[start..start + n], start + n)
  }

  /** The line holds no more tokens from `pos`: only delimiters before its end or NUL. */
  predicate OnlyDelimitersLeft(line: seq<char>, pos: nat)
    requires pos <= |line|
  {
    exists e :: pos <= e <= |line| && At(line, e) == NUL && forall i :: pos <= i < e ==> IsDelimiter(line[i])
  }

  /** ParseToken returns the empty string exactly when no token is left. */
  lemma EmptyTokenMeansExhausted(line: seq<char>, pos: nat)
    requires pos <= |line|
    ensures NextToken(line, pos).0 == [] <==> OnlyDelimitersLeft(line, pos)
  {
    var start := SkipDelimiters(line, pos);
    if NextToken(line, pos).0 == [] {
      assert At(line, start) == NUL;
    }
    if OnlyDelimitersLeft(line, pos) {
      var e :| pos <= e <= |line| && At(line, e) == NUL && forall i :: pos <= i < e ==> IsDelimiter(line[i]);
      assert At(line, start) == NUL || !IsDelimiter(At(line, start));
      assert e < |line| ==> !IsDelimiter(line[e]);
      assert start == e;
    }
  }

  /**
   * A word longer than ten characters is split: the call returns its first ten, and the
   * next call continues from the eleventh without skipping anything.
   */
  lemma LongWordSplits(line: seq<char>, pos: nat)
    requires pos <= |line|
    requires var s := SkipDelimiters(line, pos);
             s + MAX_TOKEN_LENGTH < |line|
             && forall i :: s <= i <= s + MAX_TOKEN_LENGTH ==> line[i] != NUL && !IsDelimiter(line[i])
    ensures var s := SkipDelimiters(line, pos);
            var (tok, next) := NextToken(line, pos);
            && tok == line[s..s + MAX_TOKEN_LENGTH] && next == s + MAX_TOKEN_LENGTH
            && NextToken(line, next).0 != []
            && NextToken(line, next).0[0] == line[s + MAX_TOKEN_LENGTH]
  {
    var s := SkipDelimiters(line, pos);
    var next := NextToken(line, pos).1;
    assert next == s + MAX_TOKEN_LENGTH;
    assert SkipDelimiters(line, next) == next;
  }

  /** The contents of a token array of `size` bytes after ParseToken copied `tok`. */
  function TokenArray(tok: seq<char>, size: nat): seq<char>
  {
    tok + Rep(NUL, size - |tok|)
  }

  /**
   * As written, Token has MAX_TOKEN_LENGTH (10) bytes: a ten-character token fills it
   * and leaves no terminating NUL, so the string returned to the caller runs on past
   * the array.
   */
  lemma TokenBufferUnterminated()
    ensures var tok := NextToken("ABCDEFGHIJ", 0).0;
            |tok| == 10 && NUL !in TokenArray(tok, MAX_TOKEN_LENGTH)
  {
    var line := "ABCDEFGHIJ";
    assert SkipDelimiters(line, 0) == 0;
    assert TokenLength(line, 0, 0) == 10;
  }

  /** With MAX_TOKEN_LENGTH + 1 bytes every token is terminated and reads back whole. */
  lemma TokenBufferTerminated(line: seq<char>, pos: nat)
    requires pos <= |line|
    ensures var tok := NextToken(line, pos).0;
            CStr(TokenArray(tok, MAX_TOKEN_LENGTH + 1)) == tok
  {
    var tok := NextToken(line, pos).0;
    var a := TokenArray(tok, MAX_TOKEN_LENGTH + 1);
    CStrTerminated(a, |tok|);
    assert a[..|tok|] == tok;
  }

  /**
   * The parser state: the line being parsed with the LineBuffer cursor, and the
   * static Token array of `token.Length` bytes (MAX_TOKEN_LENGTH in the source).
   */
  class Parser {
    var line: seq<char>
    var pos: nat
    const token: array<char>

    ghost predicate Valid()
      reads this
    {
      pos <= |line| && token.Length >= MAX_TOKEN_LENGTH
    }

    constructor (tokenSize: nat)
      requires tokenSize >= MAX_TOKEN_LENGTH
      ensures Valid() && line == [] && pos == 0 && token.Length == tokenSize
    {
      line := [];
      pos := 0;
      token := new char[tokenSize](_ => NUL);
    }

    /** ParseInit: start parsing a new command line. */
    method ParseInit(buffer: seq<char>)
      requires Valid()
      modifies this
      ensures Valid() && line == buffer && pos == 0
    {
      line := buffer;
      pos := 0;
    }

    /**
     * ParseToken: clear Token, skip delimiters, copy token characters while fewer than
     * MAX_TOKEN_LENGTH are held.
     */
    method ParseToken() returns (tok: seq<char>)
      requires Valid()
      modifies this, token
      ensures Valid() && line == old(line)
      ensures tok == NextToken(line, old(pos)).0 && pos == NextToken(line, old(pos)).1
      ensures token[..] == TokenArray(tok, token.Length)
    {
      ClearToken();
      SkipLeadingDelimiters();
      tok := CopyToken();
    }

    /** memset(Token, 0, sizeof(Token)). */
    method ClearToken()
      modifies token
      ensures forall j :: 0 <= j < token.Length ==> token[j] == NUL
    {
      for i := 0 to token.Length
        invariant forall j :: 0 <= j < i ==> token[j] == NUL
      {
        token[i] := NUL;
      }
    }

    /** Advance the cursor over spaces and tabs. */
    method SkipLeadingDelimiters()
      requires Valid()
      modifies this
      ensures Valid() && line == old(line)
      ensures pos == SkipDelimiters(line, old(pos))
    {
      while At(line, pos) != NUL && IsDelimiter(At(line, pos))
        invariant line == old(line) && pos <= |line|
        invariant SkipDelimiters(line, old(pos)) == SkipDelimiters(line, pos)
        decreases |line| - pos
      {
        pos := pos + 1;
      }
    }

    /**
     * Copy token characters into the cleared Token. `strlen(Token)` is the count copied
     * so far: the array is NUL beyond it, and once ten are held it is at least ten
     * whether or not a NUL follows.
     */
    method CopyToken() returns (tok: seq<char>)
      requires Valid() && forall j :: 0 <= j < token.Length ==> token[j] == NUL
      requires At(line, pos) == NUL || !IsDelimiter(At(line, pos))
      modifies this, token
      ensures Valid() && line == old(line)
      ensures pos == old(pos) + TokenLength(line, old(pos), 0)
      ensures tok == line[old(pos)..pos]
      ensures token[..] == TokenArray(tok, token.Length)
    {
      var start := pos;
      var len := 0;
      while At(line, start + len) != NUL && !IsDelimiter(At(line, start + len)) && len < MAX_TOKEN_LENGTH
        modifies token
        invariant start + len <= |line| && len <= MAX_TOKEN_LENGTH
        invariant forall j :: 0 <= j < len ==> token[j] == line[start + j]
        invariant forall j :: start <= j < start + len ==> line[j] != NUL && !IsDelimiter(line[j])
        invariant forall j :: len <= j < token.Length ==> token[j] == NUL
        decreases MAX_TOKEN_LENGTH - len
      {
        token[len] := line[start + len];
        len := len + 1;
      }
      pos := start + len;
      tok := token[..len];
      TokenLengthIs(line, start, 0, len);
      assert tok == line[start..pos] by {
        forall j | 0 <= j < len
          ensures tok[j] == line[start..pos][j]
        {
          assert tok[j] == token[j] == line[start + j];
        }
      }
      TokenArrayOf(token[..], tok);
    }
  }

  /** TokenLength counts the token characters: the scan stops at the first other one or at ten. */
  lemma {:induction false} TokenLengthIs(line: seq<char>, start: nat, len: nat, n: nat)
    requires len <= n <= MAX_TOKEN_LENGTH && start + n <= |line|
    requires forall j :: start <= j < start + n ==> line[j] != NUL && !IsDelimiter(line[j])
    requires n < MAX_TOKEN_LENGTH ==> At(line, start + n) == NUL || IsDelimiter(At(line, start + n))
    ensures TokenLength(line, start, len) == n
    decreases n - len
  {
    if len < n {
      TokenLengthIs(line, start, len + 1, n);
    }
  }

  lemma TokenArrayOf(a: seq<char>, tok: seq<char>)
    requires |tok| <= |a| && a[..|tok|] == tok
    requires forall j :: |tok| <= j < |a| ==> a[j] == NUL
    ensures a == TokenArray(tok, |a|)
  {
    var r := TokenArray(tok, |a|);
    assert |r| == |a|;
    forall j | 0 <= j < |a|
      ensures a[j] == r[j]
    {
      if j < |tok| {
        assert a[j] == a[..|tok|][j];
      }
    }
  }
}
