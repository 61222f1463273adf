/**
 * Setup.c: the table of MAX_SETUPS saved driver settings in the EEPROM image, loading
 * and saving a slot, and the typed commands MO (mode), LS (load), PS (print) and SS
 * (save).
 *
 * The EEPROM is its RAM image: a version byte and the array of slots. A command line's
 * words come from the parser; what an MO line asks for is the pure function
 * ModeRequestOf, and the methods are proved to carry it out on the driver's settings.
 */
module Setup {
  import opened FixedWidth
  import opened LibC
  import opened TransducerDefs
  import Command
  import Parse
  import Decimal
  import Transducer
  import Mcp41x1

  const MAX_SETUPS: nat := 10

  /** Ten setups, each in range. */
  predicate ValidSlots(slots: seq<Settings>)
  {
    |slots| == MAX_SETUPS && forall i :: 0 <= i < |slots| ==> ValidSettings(slots[i])
  }

  /** The slots after saving `cfg` in slot n. */
  function SavedSlots(slots: seq<Settings>, n: nat, cfg: Settings): (r: seq<Settings>)
    requires n < |slots|
    ensures |r| == |slots| && r[n] == cfg
    ensures forall m :: 0 <= m < |slots| && m != n ==> r[m] == slots[m]
  {
    slots[n := cfg]
  }

  /** Saving slot n and then loading it gives back what was saved, and no other slot moves. */
  lemma ReloadAfterSave(slots: seq<Settings>, n: nat, m: nat, cfg: Settings)
    requires n < |slots| && m < |slots|
    ensures SavedSlots(slots, n, cfg)[m] == if m == n then cfg else slots[m]
  {
  }

  /**
   * EEPROM: the RAM image of the EEPROM (its layout version byte and the setup slots),
   * together with CurrSetup, the slot last loaded.
   */
  class Store {
    var version: nat
    const setups: array<Settings>
    var currSetup: nat

    ghost predicate Valid()
      reads this, setups
    {
      setups.Length == MAX_SETUPS && IsU8(version) && IsU8(currSetup) && ValidSlots(setups[..])
    }

    /** The image as it is read from the chip at start-up; CurrSetup is not initialised. */
    constructor (version0: nat, slots: seq<Settings>, curr0: nat)
      requires IsU8(version0) && IsU8(curr0) && |slots| == MAX_SETUPS
      requires forall i :: 0 <= i < MAX_SETUPS ==> ValidSettings(slots[i])
      ensures Valid() && version == version0 && setups[..] == slots && currSetup == curr0
    {
      version := version0;
      setups := new Settings[MAX_SETUPS](i => if 0 <= i < |slots| then slots[i] else Defaults);
      currSetup := curr0;
    }

    /**
     * SetupInit: when the image's version differs from the firmware's, every slot is
     * filled with the defaults (CurrSetup is the loop counter) and the version stamped;
     * either way slot 0 is then loaded.
     */
    method Init(d: Transducer.Driver, currVersion: nat)
      requires Valid() && d.Valid() && IsU8(currVersion)
      modifies this, setups, d, d.gen
      ensures Valid() && d.Valid()
      ensures version == currVersion
      ensures old(version) != currVersion ==> forall i :: 0 <= i < MAX_SETUPS ==> setups[i] == Defaults
      ensures old(version) == currVersion ==> setups[..] == old(setups[..])
      ensures currSetup == 0 && d.settings == setups[0] && d.curr == old(d.curr)
      ensures d.genBus == old(d.genBus) + Transducer.SquareWords(setups[0].freq)
      ensures d.potBus == old(d.potBus)
    {
      if version != currVersion {
        DefaultsValid();
        currSetup := 0;
        while currSetup < MAX_SETUPS
          modifies this, setups
          invariant Valid() && currSetup <= MAX_SETUPS
          invariant forall i :: 0 <= i < currSetup ==> setups[i] == Defaults
          invariant version == old(version)
        {
          setups[currSetup] := Defaults;
          currSetup := currSetup + 1;
        }
        version := currVersion;
      }
      Load(d, 0);
    }

    /** LoadSetup: slot n becomes the driver's settings and is set up on the hardware. */
    method Load(d: Transducer.Driver, n: nat)
      requires Valid() && d.Valid() && n < MAX_SETUPS
      modifies this, d, d.gen
      ensures Valid() && d.Valid()
      ensures version == old(version) && setups[..] == old(setups[..])
      ensures currSetup == n && d.settings == setups[n] && d.curr == old(d.curr)
      ensures d.genBus == old(d.genBus) + Transducer.SquareWords(setups[n].freq)
      ensures d.potBus == old(d.potBus)
    {
      currSetup := n;
      d.settings := setups[n];
      d.Setup();
    }

    /** SaveSetup: the driver's settings are stored in slot n; CurrSetup does not move. */
    method Save(cfg: Settings, n: nat)
      requires Valid() && ValidSettings(cfg) && n < MAX_SETUPS
      modifies setups
      ensures Valid()
      ensures setups[..] == SavedSlots(old(setups[..]), n, cfg)
    {
      setups[n] := cfg;
    }
  }

  /** The word that selects each input action in `MO Ix`. */
  function ActionWord(a: Action): string
  {
    match a
    case InputUnused => "U"
    case InputXCtrl => "XC"
    case InputXPoPo => "PO"
    case InputEStop => "ES"
  }

  /** The action a word selects: the four tests run in turn and the last match wins. */
  function ActionOf(word: string): (r: Command.Option<Action>)
    ensures r.Some? ==> Command.StrEQ(word, ActionWord(r.value))
    ensures r.None? ==> forall a: Action :: !Command.StrEQ(word, ActionWord(a))
  {
    if Command.StrEQ(word, "ES") then Command.Some(InputEStop)
    else if Command.StrEQ(word, "PO") then Command.Some(InputXPoPo)
    else if Command.StrEQ(word, "XC") then Command.Some(InputXCtrl)
    else if Command.StrEQ(word, "U") then Command.Some(InputUnused)
    else Command.None
  }

  /** Each action's own word selects it, in either case. */
  lemma ActionWordSelects(a: Action)
    ensures ActionOf(ActionWord(a)) == Command.Some(a)
    ensures ActionOf(Lower(ActionWord(a))) == Command.Some(a)
  {
    match a
    case InputUnused =>
    case InputXCtrl =>
      assert Lower("XC") == "xc" by { assert "XC"[1..] == "C"; }
      assert "XC"[1..] == "C" && "xc"[1..] == "c";
    case InputXPoPo =>
      assert Lower("PO") == "po" by { assert "PO"[1..] == "O"; }
      assert "PO"[1..] == "O" && "po"[1..] == "o";
    case InputEStop =>
      assert Lower("ES") == "es" by { assert "ES"[1..] == "S"; }
      assert "ES"[1..] == "S" && "es"[1..] == "s";
  }

  /** The lower-case spelling of an upper-case word. */
  function Lower(s: string): (r: string)
    ensures |r| == |s|
  {
    if s == [] then []
    else [if 'A' <= s[0] <= 'Z' then (s[0] as int + 32) as char else s[0]] + Lower(s[1..])
  }

  /** The optional word after the action: nothing, or P to announce the input's changes. */
  function PrintFlagOf(word: string): (r: Command.Option<bool>)
    ensures r == Command.Some(false) <==> word == []
  {
    if word == [] then Command.Some(false)
    else if Command.StrEQ(word, "P") then Command.Some(true)
    else Command.None
  }

  /** The input an input number selects: 1 is Input1, any other number Input2. */
  function InputOf(cfg: Settings, id: int): Input
  {
    if id == 1 then cfg.input1 else cfg.input2
  }

  function WithInput(cfg: Settings, id: int, input: Input): (r: Settings)
    ensures InputOf(r, id) == input
    ensures id == 1 ==> r.input2 == cfg.input2
    ensures id != 1 ==> r.input1 == cfg.input1
    ensures r.(input1 := cfg.input1, input2 := cfg.input2) == cfg
  {
    if id == 1 then cfg.(input1 := input) else cfg.(input2 := input)
  }

  /** The argument words of MO, in the order they are tried. */
  datatype ModeVerb = ModeShow | ModeRun | ModeRunTimed | ModeConstFreq | ModeInput(id: int) | ModeOther

  /** The input number of an `I1`/`I2` word: its second character less '0', as a byte. */
  function InputIdOf(word: string): int
  {
    U8(Parse.At(word, 1) as int - '0' as int)
  }

  function ModeVerbOf(word: string): (v: ModeVerb)
    ensures v == ModeShow <==> word == []
  {
    if word == [] then ModeShow
    else if Command.StrEQ(word, "R") then ModeRun
    else if Command.StrEQ(word, "RT") then ModeRunTimed
    else if Command.StrEQ(word, "CF") then ModeConstFreq
    else if Command.StrEQ(word, "I1") || Command.StrEQ(word, "I2") then ModeInput(InputIdOf(word))
    else ModeOther
  }

  /** A word the parser returns: no NUL and no delimiter in it. */
  predicate IsToken(word: string)
  {
    forall i :: 0 <= i < |word| ==> word[i] != NUL && !Parse.IsDelimiter(word[i])
  }

  /** A token that StrEQ matches with a two-character word is that word up to case. */
  lemma TwoCharMatch(word: string, lit: string)
    requires IsToken(word) && |lit| == 2 && lit[0] != NUL && lit[1] != NUL
    requires Command.StrEQ(word, lit)
    ensures |word| == 2 && Command.Fold(word[0]) == Command.Fold(lit[0])
    ensures Command.Fold(word[1]) == Command.Fold(lit[1])
  {
    assert word != [] && word[0] != ' ';
    assert Command.StrEQ(word[1..], lit[1..]);
    assert |word| >= 2 && word[1] != ' ';
    assert Command.StrEQ(word[2..], lit[1..][1..]);
    assert lit[1..][1..] == [];
  }

  /** `I1` and `I2` (in either case) name inputs 1 and 2. */
  lemma InputWordIds(word: string)
    requires IsToken(word)
    ensures Command.StrEQ(word, "I1") ==> ModeVerbOf(word) == ModeInput(1)
    ensures Command.StrEQ(word, "I2") ==> ModeVerbOf(word) == ModeInput(2)
  {
    if Command.StrEQ(word, "I1") {
      TwoCharMatch(word, "I1");
      assert word[1] == '1';
    }
    if Command.StrEQ(word, "I2") {
      TwoCharMatch(word, "I2");
      assert word[1] == '2';
      assert !Command.StrEQ(word, "I1");
    }
    if Command.StrEQ(word, "I1") || Command.StrEQ(word, "I2") {
      assert Command.Fold(word[0]) == 'I';
      assert !Command.StrEQ(word, "R") && !Command.StrEQ(word, "RT") && !Command.StrEQ(word, "CF");
    }
  }

  /**
   * The verb ModeCmd reads when the compiler evaluates ParseToken() before
   * Command[1] - '0' (C leaves the order of arguments open). Command is the parser's
   * own token buffer, so the input number then comes from the action word instead.
   */
  function ModeVerbTokenFirst(word: string, action: string): (v: ModeVerb)
    ensures v.ModeInput? <==> ModeVerbOf(word).ModeInput?
    ensures !v.ModeInput? ==> v == ModeVerbOf(word)
    ensures v.ModeInput? ==> v.id == InputIdOf(action)
  {
    match ModeVerbOf(word)
    case ModeInput(_) => ModeInput(InputIdOf(action))
    case ModeShow => ModeShow
    case ModeRun => ModeRun
    case ModeRunTimed => ModeRunTimed
    case ModeConstFreq => ModeConstFreq
    case ModeOther => ModeOther
  }

  /** No action word has '1' as its second character, so none reads as input 1. */
  lemma ActionWordNotInput1(action: string)
    requires IsToken(action) && ActionOf(action).Some?
    ensures InputIdOf(action) != 1
  {
    if Command.StrEQ(action, "ES") {
      TwoCharMatch(action, "ES");
    } else if Command.StrEQ(action, "PO") {
      TwoCharMatch(action, "PO");
    } else if Command.StrEQ(action, "XC") {
      TwoCharMatch(action, "XC");
    } else {
      assert Command.StrEQ(action, "U");
      assert action != [] && action[0] != ' ';
      assert Command.StrEQ(action[1..], "U"[1..]);
      if |action| >= 2 {
        assert action[1..][0] != NUL && action[1..][0] != ' ';
        assert !Command.StrEQ(action[1..], []);
      }
    }
  }

  /** In that order, an `MO I1` line that sets an input sets input 2 and leaves input 1. */
  lemma {:induction false} TokenFirstSetsInput2(word: string, action: string, flag: string, cfg: Settings)
    requires IsToken(word) && IsToken(action) && Command.StrEQ(word, "I1")
    ensures ModeVerbOf(word) == ModeInput(1)
    ensures var r := ModeRequestOf(ModeVerbTokenFirst(word, action), action, flag);
            r.SetInput? ==> r.id != 1 && ModeSettings(r, cfg) == cfg.(input2 := r.input)
  {
    InputWordIds(word);
    var r := ModeRequestOf(ModeVerbTokenFirst(word, action), action, flag);
    if r.SetInput? {
      ActionWordNotInput1(action);
    }
  }

  /** "MO I1 XC" reads input 19, and a bare "MO I1" input 208 (the cleared buffer). */
  lemma TokenFirstIds()
    ensures ModeVerbTokenFirst("I1", "XC") == ModeInput(19)
    ensures ModeVerbTokenFirst("I1", "") == ModeInput(208)
  {
  }

  /** What an MO line asks for. */
  datatype ModeRequest =
    | ShowCtlMode
    | RunContinuously
    | RunFor(ticks: nat)
    | BadRunTime
    | ConstFreq
    | ShowInput(id: int)
    | BadInputMode
    | BadPrintFlag
    | SetInput(id: int, input: Input)
    | BadModeArg

  /** `MO RT n`: the count must be present and not negative as a 16-bit int. */
  function RunTimeRequest(text: string): (r: ModeRequest)
    ensures r.RunFor? || r == BadRunTime
    ensures r.RunFor? <==> text != [] && Atoi(text) >= 0
    ensures r.RunFor? ==> r.ticks == Atoi(text) && r.ticks < 0x8000
  {
    var ticks := Atoi(text);
    if text == [] || ticks < 0 then BadRunTime else RunFor(ticks)
  }

  /** Every count from 0 to 32767 is accepted as typed; 32768 reads as negative. */
  lemma RunTimeAcceptsRange(n: nat)
    ensures n < 0x8000 ==> RunTimeRequest(Decimal.DecimalDigits(n)) == RunFor(n)
    ensures n == 0x8000 ==> RunTimeRequest(Decimal.DecimalDigits(n)) == BadRunTime
  {
    AtoiOfDecimal(n);
  }

  /** `MO Ix action [P]`: a blank action shows the input; otherwise both words must be known. */
  function InputRequest(id: int, action: string, flag: string): (r: ModeRequest)
    ensures r.SetInput? || r == ShowInput(id) || r == BadInputMode || r == BadPrintFlag
    ensures r.SetInput? <==> action != [] && ActionOf(action).Some? && PrintFlagOf(flag).Some?
    ensures r.SetInput? ==> r.id == id && r.input == Input(ActionOf(action).value, PrintFlagOf(flag).value)
  {
    if action == [] then ShowInput(id)
    else match ActionOf(action)
      case None => BadInputMode
      case Some(a) => FlagRequest(id, a, flag)
  }

  /** The P word after a known action decides whether the input announces its changes. */
  function FlagRequest(id: int, a: Action, flag: string): (r: ModeRequest)
    ensures r.SetInput? || r == BadPrintFlag
    ensures r.SetInput? <==> PrintFlagOf(flag).Some?
    ensures r.SetInput? ==> r == SetInput(id, Input(a, PrintFlagOf(flag).value))
  {
    match PrintFlagOf(flag)
    case None => BadPrintFlag
    case Some(announce) => SetInput(id, Input(a, announce))
  }

  function PrintWord(announce: bool): string { if announce then "P" else "" }

  /** Every action, announced or not, can be chosen by its words. */
  lemma InputWordsSelect(id: int, a: Action, announce: bool)
    ensures InputRequest(id, ActionWord(a), PrintWord(announce)) == SetInput(id, Input(a, announce))
  {
    ActionWordSelects(a);
  }

  /**
   * What an MO line asks for, given the word after MO, the word after that (read by
   * RT and Ix) and the one after that (read by Ix when the action is known).
   */
  function ModeRequestOf(v: ModeVerb, arg: string, flag: string): (r: ModeRequest)
    ensures r.SetInput? ==> v.ModeInput? && r.id == v.id
    ensures r.RunFor? ==> v == ModeRunTimed && r.ticks < 0x8000
  {
    match v
    case ModeShow => ShowCtlMode
    case ModeRun => RunContinuously
    case ModeRunTimed => RunTimeRequest(arg)
    case ModeConstFreq => ConstFreq
    case ModeInput(id) => InputRequest(id, arg, flag)
    case ModeOther => BadModeArg
  }

  /** How many words an MO line reads after its first argument word. */
  function ModeReads(v: ModeVerb, arg: string): (n: nat)
    ensures n <= 2
  {
    match v
    case ModeRunTimed => 1
    case ModeInput(_) => if arg != [] && ActionOf(arg).Some? then 2 else 1
    case _ => 0
  }

  /** The settings after an MO request. */
  function ModeSettings(r: ModeRequest, cfg: Settings): (s: Settings)
    ensures ValidSettings(cfg) && (r.RunFor? ==> IsU16(r.ticks)) ==> ValidSettings(s)
  {
    match r
    case RunContinuously => cfg.(runMode := RunContinuous, runTimer := 0)
    case RunFor(ticks) => cfg.(runMode := RunTimed, runTimer := ticks)
    case ConstFreq => cfg.(ctlMode := CtlConstFreq)
    case SetInput(id, input) => WithInput(cfg, id, input)
    case _ => cfg
  }

  /** No MO line selects any control mode other than constant frequency. */
  lemma OnlyConstFreqSettable(v: ModeVerb, arg: string, flag: string, cfg: Settings)
    ensures var s := ModeSettings(ModeRequestOf(v, arg, flag), cfg);
            s.ctlMode == cfg.ctlMode || s.ctlMode == CtlConstFreq
  {
  }

  /**
   * A word after `MO Ix` that is not an action, or a flag word that is not P, leaves
   * both inputs as they were.
   */
  lemma UnknownWordsKeepInputs(id: int, action: string, flag: string, cfg: Settings)
    requires action == [] || ActionOf(action).None? || PrintFlagOf(flag).None?
    ensures ModeSettings(InputRequest(id, action, flag), cfg) == cfg
  {
  }

  /** `MO RT 0` asks for a timed run with RunTimer 0. */
  lemma RunTimeZeroAccepted()
    ensures RunTimeRequest("0") == RunFor(0)
  {
    AtoiOfDecimal(0);
    assert Decimal.DecimalDigits(0) == "0";
  }

  /**
   * An `MO RT` count that reads as 0 (`0` itself, as RunTimeZeroAccepted shows) is
   * accepted, and a run then switched on lasts 65536 updates: the timer counts down
   * from 0 through 65535.
   */
  lemma RunTimeZeroRunsLongest(arg: string, flag: string, cfg: Settings, c: Status)
    requires arg != [] && Atoi(arg) == 0 && !c.eStop
    ensures var s := ModeSettings(ModeRequestOf(ModeRunTimed, arg, flag), cfg);
            var on := Transducer.SwitchOn(s, c, true);
            s.runMode == RunTimed && s.runTimer == 0 &&
            Transducer.Countdowns(s, on, 0x1_0000 - 1).on && !Transducer.Countdowns(s, on, 0x1_0000).on
  {
    assert ModeRequestOf(ModeRunTimed, arg, flag) == RunFor(0);
    Transducer.SwitchOnTimedFromZero(ModeSettings(RunFor(0), cfg), c);
  }

  /** The message a setup command prints (its text is not modelled, only what it shows). */
  datatype Reply =
    | Quiet
    | CtlModeMsg(mode: CtlMode)
    | RunContinuousMsg
    | RunForMsg(ticks: nat)
    | BadRunTimeMsg
    | ConstFreqMsg
    | InputModeMsg(id: int, input: Input)
    | BadInputModeMsg
    | BadPrintFlagMsg
    | BadModeArgMsg
    | LoadedMsg(slotText: string)
    | SavedMsg(slotText: string)
    | SetupShownMsg(slot: Command.Option<nat>, shown: Settings)

  /** The message for an MO request, given the settings after it. */
  function ModeReply(r: ModeRequest, cfg: Settings): (m: Reply)
    ensures m != Quiet
  {
    match r
    case ShowCtlMode => CtlModeMsg(cfg.ctlMode)
    case RunContinuously => RunContinuousMsg
    case RunFor(ticks) => RunForMsg(ticks)
    case BadRunTime => BadRunTimeMsg
    case ConstFreq => ConstFreqMsg
    case ShowInput(id) => InputModeMsg(id, InputOf(cfg, id))
    case BadInputMode => BadInputModeMsg
    case BadPrintFlag => BadPrintFlagMsg
    case SetInput(id, input) => InputModeMsg(id, InputOf(cfg, id))
    case BadModeArg => BadModeArgMsg
  }

  /** The driver after carrying out an MO request: only its settings change. */
  ghost predicate ModeApplied(d: Transducer.Driver, r: ModeRequest, cfg: Settings, c: Status,
                              genBus: seq<bv16>, potBus: seq<Mcp41x1.SpiOp>)
    reads d
  {
    d.settings == ModeSettings(r, cfg) && d.curr == c && d.genBus == genBus && d.potBus == potBus
  }

  /** The cursor after k more words are read from `pos`. */
  function After(line: string, pos: nat, k: nat): (q: nat)
    requires pos <= |line|
    ensures pos <= q <= |line|
    decreases k
  {
    if k == 0 then pos else After(line, Parse.NextToken(line, pos).1, k - 1)
  }

  /** Word k (from 0) read from `pos`. */
  function Word(line: string, pos: nat, k: nat): string
    requires pos <= |line|
  {
    Parse.NextToken(line, After(line, pos, k)).0
  }

  /** `MO Ix` reads the P word only after an action it knows. */
  function FlagReads(action: string): (n: nat)
    ensures n == 1 <==> action != [] && ActionOf(action).Some?
    ensures n <= 1
  {
    if action != [] && ActionOf(action).Some? then 1 else 0
  }

  /** The P word as `MO Ix` sees it: the next word if it is read, else nothing. */
  function FlagWord(line: string, pos: nat, action: string): string
    requires pos <= |line|
  {
    if FlagReads(action) == 1 then Word(line, pos, 0) else []
  }

  /** The four action tests of ModeInputCmd, each overriding the ones before it. */
  method MatchAction(action: string) returns (argOK: bool, a: Action)
    ensures argOK <==> ActionOf(action).Some?
    ensures argOK ==> a == ActionOf(action).value
  {
    argOK := false;
    a := InputUnused;
    if Command.StrEQ(action, "U") {
      a := InputUnused;
      argOK := true;
    }
    if Command.StrEQ(action, "XC") {
      a := InputXCtrl;
      argOK := true;
    }
    if Command.StrEQ(action, "PO") {
      a := InputXPoPo;
      argOK := true;
    }
    if Command.StrEQ(action, "ES") {
      a := InputEStop;
      argOK := true;
    }
  }

  /**
   * The checks of ModeInputCmd: a blank action word shows the input, an unknown one is
   * refused, otherwise the optional P is read and checked.
   */
  method ReadInputMode(p: Parse.Parser, id: int, action: string) returns (r: ModeRequest)
    requires p.Valid()
    modifies p, p.token
    ensures p.Valid() && p.line == old(p.line)
    ensures p.pos == After(p.line, old(p.pos), FlagReads(action))
    ensures r == InputRequest(id, action, FlagWord(p.line, old(p.pos), action))
  {
    if action == [] {
      r := ShowInput(id);
      return;
    }
    var argOK, a := MatchAction(action);
    if !argOK {
      r := BadInputMode;
      return;
    }
    var flag := p.ParseToken();
    assert flag == Word(p.line, old(p.pos), 0) && p.pos == After(p.line, old(p.pos), 1);
    var announce := false;
    if flag != [] {
      if Command.StrEQ(flag, "P") {
        announce := true;
      } else {
        r := BadPrintFlag;
        return;
      }
    }
    r := SetInput(id, Input(a, announce));
  }

  /** `MO RT`: the count word is read; a blank or negative one is refused. */
  method ReadRunTime(p: Parse.Parser) returns (r: ModeRequest)
    requires p.Valid()
    modifies p, p.token
    ensures p.Valid() && p.line == old(p.line)
    ensures p.pos == After(p.line, old(p.pos), 1)
    ensures r == RunTimeRequest(Word(p.line, old(p.pos), 0))
  {
    var timeText := p.ParseToken();
    var timeTicks := Atoi(timeText);
    if timeText == [] || timeTicks < 0 {
      r := BadRunTime;
    } else {
      r := RunFor(timeTicks);
    }
  }

  /** The tests of ModeCmd: what the line asks for, reading RT's count and Ix's words. */
  method ReadMode(p: Parse.Parser, word: string) returns (r: ModeRequest)
    requires p.Valid()
    modifies p, p.token
    ensures p.Valid() && p.line == old(p.line)
    ensures p.pos == After(p.line, old(p.pos), ModeReads(ModeVerbOf(word), Word(p.line, old(p.pos), 0)))
    ensures r == ModeRequestOf(ModeVerbOf(word), Word(p.line, old(p.pos), 0), Word(p.line, old(p.pos), 1))
  {
    match ModeVerbOf(word) {
      case ModeShow =>
        r := ShowCtlMode;
      case ModeRun =>
        r := RunContinuously;
      case ModeRunTimed =>
        r := ReadRunTime(p);
      case ModeConstFreq =>
        r := ConstFreq;
      case ModeInput(id) =>
        var action := p.ParseToken();
        ghost var pos1 := p.pos;
        r := ReadInputMode(p, id, action);
        assert FlagWord(p.line, pos1, action) == if FlagReads(action) == 1 then Word(p.line, old(p.pos), 1) else [];
      case ModeOther =>
        r := BadModeArg;
    }
  }

  /**
   * What ModeCmd and ModeInputCmd change: the run mode (TransducerRunMode), the
   * control mode (TransducerCtlMode) or the input's action and P flag.
   */
  method ApplyMode(d: Transducer.Driver, r: ModeRequest)
    requires d.Valid() && (r.RunFor? ==> IsU16(r.ticks))
    modifies d
    ensures d.Valid()
    ensures ModeApplied(d, r, old(d.settings), old(d.curr), old(d.genBus), old(d.potBus))
  {
    match r {
      case RunContinuously => d.SetRunMode(RunContinuous, 0);
      case RunFor(ticks) => d.SetRunMode(RunTimed, ticks);
      case ConstFreq => d.SetCtlMode(CtlConstFreq);
      case SetInput(id, input) => d.settings := WithInput(d.settings, id, input);
      case _ =>
    }
  }

  /**
   * ModeCmd: the word after MO selects what to show or set; RT and Ix read further
   * words. Returns what the line asked for, which also decides the message.
   */
  method ModeCmd(d: Transducer.Driver, p: Parse.Parser, word: string) returns (r: ModeRequest)
    requires d.Valid() && p.Valid()
    modifies d, p, p.token
    ensures d.Valid() && p.Valid() && p.line == old(p.line)
    ensures p.pos == After(p.line, old(p.pos), ModeReads(ModeVerbOf(word), Word(p.line, old(p.pos), 0)))
    ensures r == ModeRequestOf(ModeVerbOf(word), Word(p.line, old(p.pos), 0), Word(p.line, old(p.pos), 1))
    ensures ModeApplied(d, r, old(d.settings), old(d.curr), old(d.genBus), old(d.potBus))
  {
    r := ReadMode(p, word);
    ApplyMode(d, r);
  }

  /** The commands of SetupCmd, in the order they are tried. */
  datatype SetupVerb = SetupMode | SetupLoad | SetupPrint | SetupSave | SetupOther

  function SetupVerbOf(command: string): (v: SetupVerb)
    ensures v == SetupOther <==> !Command.StrEQ(command, "MO") && !Command.StrEQ(command, "LS") &&
                                 !Command.StrEQ(command, "PS") && !Command.StrEQ(command, "SS")
  {
    if Command.StrEQ(command, "MO") then SetupMode
    else if Command.StrEQ(command, "LS") then SetupLoad
    else if Command.StrEQ(command, "PS") then SetupPrint
    else if Command.StrEQ(command, "SS") then SetupSave
    else SetupOther
  }

  /** The setup number LS and SS use: atoi of the word, or CurrSetup when it is blank. */
  function SetupNumber(text: string, curr: nat): int
  {
    if text == [] then curr else Atoi(text)
  }

  /** The slot LoadSetup and SaveSetup receive: the setup number as a byte. */
  function SlotOf(text: string, curr: nat): (n: nat)
    ensures IsU8(curr) && text == [] ==> n == curr
    ensures n < U8_MOD
  {
    U8(SetupNumber(text, curr))
  }

  /** Typing the digits of a slot selects that slot. */
  lemma SlotOfDigits(n: nat, curr: nat)
    requires n < MAX_SETUPS
    ensures SlotOf(Decimal.DecimalDigits(n), curr) == n
  {
    AtoiOfDecimal(n);
  }

  /**
   * What the source leaves to its user: the slot of LS and SS, and the number PS
   * reads, must lie in the table.
   */
  predicate SlotInRange(v: SetupVerb, text: string, curr: nat)
  {
    && ((v == SetupLoad || v == SetupSave) ==> SlotOf(text, curr) < MAX_SETUPS)
    && (v == SetupPrint && text != [] ==> 0 <= Atoi(text) < MAX_SETUPS)
  }

  /** The slot number as LS and SS report it: PrintD(n, 0), the plain digits. */
  function SlotText(n: nat): (s: string)
    ensures s == Decimal.DecimalDigits(n)
  {
    Decimal.FormatD(n, 0)
  }

  /** The reported text reads back as the slot number. */
  lemma SlotTextNamesSlot(n: nat)
    ensures Decimal.DigitsValue(SlotText(n)) == n
  {
    Decimal.DigitsRoundTrip(n);
  }

  /** The SS report as written: CurrSetup printed with the saved setup number as its width. */
  function SavedTextAsWritten(curr: nat, setupNum: int): string
  {
    Decimal.FormatD(curr, I8(setupNum))
  }

  /** After `SS 3` with CurrSetup 0 the report reads "  0" instead of "3". */
  lemma SavedTextAsWrittenMisreports()
    ensures SavedTextAsWritten(0, 3) == "  0"
    ensures SlotText(3) == "3"
  {
    assert Decimal.DecimalDigits(0) == "0";
    assert Decimal.DecimalDigits(3) == "3";
    var s := SavedTextAsWritten(0, 3);
    assert |s| == 3 && s[2..] == "0";
    assert Decimal.Rep(' ', 2) == "  ";
  }

  /**
   * PrintSetup's header as written: the working set is passed as -1 in a uint8 SetupID,
   * which the `SetupID == -1` test promotes to int, so that branch is never taken.
   */
  function ShownSlotAsWritten(setupID: int): (r: Command.Option<int>)
    ensures r.Some? && r.value == U8(setupID)
  {
    if U8(setupID) == -1 then Command.None else Command.Some(U8(setupID))
  }

  /** `PS` with no number shows the working set as "Setup 255" rather than "(working)". */
  lemma WorkingSetShownAsSlot255()
    ensures ShownSlotAsWritten(-1) == Command.Some(255)
  {
  }

  /**
   * The state a setup command reads and changes: the command line and its cursor,
   * CurrSetup and the setup slots, and the driver's settings, status and the words
   * sent to the generator and the potentiometer.
   */
  datatype Session = Session(line: string, pos: nat, currSetup: nat, slots: seq<Settings>,
                             settings: Settings, curr: Status, genBus: seq<bv16>,
                             potBus: seq<Mcp41x1.SpiOp>)

  function Snap(st: Store, d: Transducer.Driver, p: Parse.Parser): (s: Session)
    reads st, st.setups, d, p
    ensures s.slots == st.setups[..] && s.settings == d.settings && s.pos == p.pos
  {
    Session(p.line, p.pos, st.currSetup, st.setups[..], d.settings, d.curr, d.genBus, d.potBus)
  }

  /** A session a setup command can start from: what Store, Driver and Parser keep valid. */
  predicate ValidSession(s: Session)
  {
    s.pos <= |s.line| && IsU8(s.currSetup) && ValidSlots(s.slots) && ValidSettings(s.settings)
  }

  /** MO on values: the request read from the line is applied to the settings and answered. */
  function ModeStep(s: Session): (r: (Session, Reply))
    requires ValidSession(s)
    ensures ValidSession(r.0) && r.0 == s.(pos := r.0.pos, settings := r.0.settings)
    ensures r.1 != Quiet
  {
    var (word, pos1) := Parse.NextToken(s.line, s.pos);
    var arg := Word(s.line, pos1, 0);
    var req := ModeRequestOf(ModeVerbOf(word), arg, Word(s.line, pos1, 1));
    var cfg := ModeSettings(req, s.settings);
    (s.(pos := After(s.line, pos1, ModeReads(ModeVerbOf(word), arg)), settings := cfg),
     ModeReply(req, cfg))
  }

  /**
   * LS on values: the slot typed (CurrSetup when blank) becomes current, its settings
   * become the driver's, and its square wave is sent to the generator.
   */
  function LoadStep(s: Session): (r: (Session, Reply))
    requires ValidSession(s)
    requires SlotOf(Parse.NextToken(s.line, s.pos).0, s.currSetup) < MAX_SETUPS
    ensures ValidSession(r.0)
    ensures r.0 == s.(pos := r.0.pos, currSetup := r.0.currSetup, settings := r.0.settings,
                      genBus := r.0.genBus)
    ensures r.1 != Quiet
  {
    var (word, pos1) := Parse.NextToken(s.line, s.pos);
    var n := SlotOf(word, s.currSetup);
    (s.(pos := pos1, currSetup := n, settings := s.slots[n],
        genBus := s.genBus + Transducer.SquareWords(s.slots[n].freq)),
     LoadedMsg(SlotText(n)))
  }

  /** PS on values: the driver's settings (blank) or the slot typed are shown. */
  function PrintStep(s: Session): (r: (Session, Reply))
    requires ValidSession(s)
    requires var word := Parse.NextToken(s.line, s.pos).0; word != [] ==> 0 <= Atoi(word) < MAX_SETUPS
    ensures ValidSession(r.0) && r.0 == s.(pos := r.0.pos)
    ensures r.1 != Quiet
  {
    var (word, pos1) := Parse.NextToken(s.line, s.pos);
    (s.(pos := pos1),
     if word == [] then SetupShownMsg(Command.None, s.settings)
     else SetupShownMsg(Command.Some(Atoi(word)), s.slots[Atoi(word)]))
  }

  /** PS names the working set exactly when no number is typed, and a typed slot is a real one. */
  lemma PrintStepNamesWorkingSet(s: Session)
    requires ValidSession(s)
    requires var word := Parse.NextToken(s.line, s.pos).0; word != [] ==> 0 <= Atoi(word) < MAX_SETUPS
    ensures var reply := PrintStep(s).1;
            && reply.SetupShownMsg?
            && (reply.slot.None? <==> Parse.NextToken(s.line, s.pos).0 == [])
            && (reply.slot.Some? ==> reply.slot.value < MAX_SETUPS)
            && (reply.slot.None? ==> reply.shown == s.settings)
  {
  }

  /** SS on values: the settings are stored in the slot typed (CurrSetup when blank). */
  function SaveStep(s: Session): (r: (Session, Reply))
    requires ValidSession(s)
    requires SlotOf(Parse.NextToken(s.line, s.pos).0, s.currSetup) < MAX_SETUPS
    ensures ValidSession(r.0) && r.0 == s.(pos := r.0.pos, slots := r.0.slots)
    ensures r.1 != Quiet
  {
    var (word, pos1) := Parse.NextToken(s.line, s.pos);
    var n := SlotOf(word, s.currSetup);
    (s.(pos := pos1, slots := SavedSlots(s.slots, n, s.settings)), SavedMsg(SlotText(n)))
  }

  /** SetupCmd on values; anything but MO, LS, PS and SS changes nothing and is not answered. */
  function SetupStep(v: SetupVerb, s: Session): (r: (Session, Reply))
    requires ValidSession(s)
    requires SlotInRange(v, Parse.NextToken(s.line, s.pos).0, s.currSetup)
    ensures ValidSession(r.0)
  {
    match v
    case SetupOther => (s, Quiet)
    case SetupMode => ModeStep(s)
    case SetupLoad => LoadStep(s)
    case SetupPrint => PrintStep(s)
    case SetupSave => SaveStep(s)
  }

  /**
   * A setup command leaves the line, the transducer's status and the potentiometer alone;
   * only LS changes CurrSetup and talks to the generator, only SS changes the slots, only
   * MO and LS change the settings, and only an unknown command goes unanswered.
   */
  lemma SetupStepKeeps(v: SetupVerb, s: Session)
    requires ValidSession(s)
    requires SlotInRange(v, Parse.NextToken(s.line, s.pos).0, s.currSetup)
    ensures var r := SetupStep(v, s);
            && r.0.line == s.line && r.0.curr == s.curr && r.0.potBus == s.potBus
            && (v != SetupLoad ==> r.0.currSetup == s.currSetup && r.0.genBus == s.genBus)
            && (v != SetupSave ==> r.0.slots == s.slots)
            && (v != SetupMode && v != SetupLoad ==> r.0.settings == s.settings)
            && (v == SetupOther <==> r.1 == Quiet)
  {
  }

  /** A driver nothing has written to is as valid as it was. */
  twostate lemma DriverKept(d: Transducer.Driver)
    requires old(d.Valid()) && unchanged(d, d.gen, d.capture, d.sensor)
    ensures d.Valid()
  {
  }

  /** The store, the driver and the parser are each valid. */
  ghost predicate Ready(st: Store, d: Transducer.Driver, p: Parse.Parser)
    reads st, st.setups, d, d.gen, d.capture, d.sensor, p
  {
    st.Valid() && d.Valid() && p.Valid()
  }

  /** MO: read the mode word and its arguments, then apply the request to the driver. */
  method MoVerb(st: Store, d: Transducer.Driver, p: Parse.Parser) returns (reply: Reply)
    requires Ready(st, d, p)
    modifies d, p, p.token
    ensures Ready(st, d, p)
    ensures Snap(st, d, p) == ModeStep(old(Snap(st, d, p))).0
    ensures reply == ModeStep(old(Snap(st, d, p))).1
  {
    var word := p.ParseToken();
    var r := ModeCmd(d, p, word);
    reply := ModeReply(r, d.settings);
  }

  /** LS: read the slot word and load that slot. */
  method LsVerb(st: Store, d: Transducer.Driver, p: Parse.Parser) returns (reply: Reply)
    requires Ready(st, d, p)
    requires SlotOf(Parse.NextToken(p.line, p.pos).0, st.currSetup) < MAX_SETUPS
    modifies st, d, d.gen, p, p.token
    ensures Ready(st, d, p) && st.version == old(st.version)
    ensures Snap(st, d, p) == LoadStep(old(Snap(st, d, p))).0
    ensures reply == LoadStep(old(Snap(st, d, p))).1
  {
    var n := ReadSlot(p, st.currSetup);
    st.Load(d, n);
    reply := LoadedMsg(Decimal.FormatD(st.currSetup, 0));
  }

  /** The slot word of LS and SS: its number as a byte, CurrSetup (`curr`) when blank. */
  method ReadSlot(p: Parse.Parser, curr: nat) returns (n: nat)
    requires p.Valid()
    modifies p, p.token
    ensures p.Valid() && p.line == old(p.line)
    ensures var (text, pos1) := Parse.NextToken(old(p.line), old(p.pos));
            p.pos == pos1 && n == SlotOf(text, curr)
  {
    var text := p.ParseToken();
    var setupNum := Atoi(text);
    if text == [] {
      setupNum := curr;
    }
    n := U8(setupNum);
  }

  /** PS: read the slot word and show the settings it names (`cfg` is the driver's). */
  method ReadShow(st: Store, cfg: Settings, p: Parse.Parser) returns (reply: Reply)
    requires st.Valid() && p.Valid()
    requires var text := Parse.NextToken(p.line, p.pos).0; text != [] ==> 0 <= Atoi(text) < MAX_SETUPS
    modifies p, p.token
    ensures p.Valid() && p.line == old(p.line)
    ensures var (text, pos1) := Parse.NextToken(old(p.line), old(p.pos));
            p.pos == pos1 &&
            reply == (if text == [] then SetupShownMsg(Command.None, cfg)
                      else SetupShownMsg(Command.Some(Atoi(text)), st.setups[Atoi(text)]))
  {
    var text := p.ParseToken();
    var setupNum := Atoi(text);
    if text == [] {
      reply := SetupShownMsg(Command.None, cfg);
    } else {
      reply := SetupShownMsg(Command.Some(setupNum), st.setups[setupNum]);
    }
  }

  /** SS: read the slot word and save the driver's settings `cfg` there. */
  method ReadSave(st: Store, cfg: Settings, p: Parse.Parser) returns (reply: Reply)
    requires st.Valid() && p.Valid() && ValidSettings(cfg)
    requires SlotOf(Parse.NextToken(p.line, p.pos).0, st.currSetup) < MAX_SETUPS
    modifies st.setups, p, p.token
    ensures st.Valid() && p.Valid() && p.line == old(p.line)
    ensures var (text, pos1) := Parse.NextToken(old(p.line), old(p.pos));
            var n := SlotOf(text, old(st.currSetup));
            p.pos == pos1 && st.setups[..] == SavedSlots(old(st.setups[..]), n, cfg) &&
            reply == SavedMsg(SlotText(n))
  {
    var n := ReadSlot(p, st.currSetup);
    st.Save(cfg, n);
    reply := SavedMsg(Decimal.FormatD(n, 0));
  }

  /** PS on the store, the driver and the parser. */
  method PsVerb(st: Store, d: Transducer.Driver, p: Parse.Parser) returns (reply: Reply)
    requires Ready(st, d, p)
    requires var text := Parse.NextToken(p.line, p.pos).0; text != [] ==> 0 <= Atoi(text) < MAX_SETUPS
    modifies p, p.token
    ensures Ready(st, d, p)
    ensures Snap(st, d, p) == PrintStep(old(Snap(st, d, p))).0
    ensures reply == PrintStep(old(Snap(st, d, p))).1
  {
    reply := ReadShow(st, d.settings, p);
    DriverKept(d);
  }

  /** SS on the store, the driver and the parser. */
  method SsVerb(st: Store, d: Transducer.Driver, p: Parse.Parser) returns (reply: Reply)
    requires Ready(st, d, p)
    requires SlotOf(Parse.NextToken(p.line, p.pos).0, st.currSetup) < MAX_SETUPS
    modifies st.setups, p, p.token
    ensures Ready(st, d, p)
    ensures Snap(st, d, p) == SaveStep(old(Snap(st, d, p))).0
    ensures reply == SaveStep(old(Snap(st, d, p))).1
  {
    reply := ReadSave(st, d.settings, p);
    DriverKept(d);
  }

  /**
   * SetupCmd: MO, LS, PS and SS each read one word and act on it; returns whether the
   * command was one of these.
   */
  method SetupCmd(st: Store, d: Transducer.Driver, p: Parse.Parser, command: string)
    returns (handled: bool, reply: Reply)
    requires Ready(st, d, p)
    requires SlotInRange(SetupVerbOf(command), Parse.NextToken(p.line, p.pos).0, st.currSetup)
    modifies st, st.setups, d, d.gen, p, p.token
    ensures Ready(st, d, p) && st.version == old(st.version)
    ensures handled <==> SetupVerbOf(command) != SetupOther
    ensures Snap(st, d, p) == SetupStep(SetupVerbOf(command), old(Snap(st, d, p))).0
    ensures reply == SetupStep(SetupVerbOf(command), old(Snap(st, d, p))).1
  {
    var v := SetupVerbOf(command);
    handled := v != SetupOther;
    reply := RunVerb(st, d, p, v);
  }

  /** The setup verb v, already recognised, run on the store, the driver and the line. */
  method RunVerb(st: Store, d: Transducer.Driver, p: Parse.Parser, v: SetupVerb) returns (reply: Reply)
    requires Ready(st, d, p)
    requires SlotInRange(v, Parse.NextToken(p.line, p.pos).0, st.currSetup)
    modifies st, st.setups, d, d.gen, p, p.token
    ensures Ready(st, d, p) && st.version == old(st.version)
    ensures Snap(st, d, p) == SetupStep(v, old(Snap(st, d, p))).0
    ensures reply == SetupStep(v, old(Snap(st, d, p))).1
  {
    if v == SetupOther {
      reply := Quiet;
    } else if v == SetupMode || v == SetupPrint {
      reply := LineVerb(st, d, p, v);
    } else {
      reply := SlotVerb(st, d, p, v);
    }
  }

  /** MO or PS: the verbs that leave the store alone. */
  method LineVerb(st: Store, d: Transducer.Driver, p: Parse.Parser, v: SetupVerb) returns (reply: Reply)
    requires Ready(st, d, p) && (v == SetupMode || v == SetupPrint)
    requires SlotInRange(v, Parse.NextToken(p.line, p.pos).0, st.currSetup)
    modifies d, p, p.token
    ensures Ready(st, d, p)
    ensures Snap(st, d, p) == SetupStep(v, old(Snap(st, d, p))).0
    ensures reply == SetupStep(v, old(Snap(st, d, p))).1
  {
    if v == SetupMode {
      reply := MoVerb(st, d, p);
    } else {
      reply := PsVerb(st, d, p);
    }
  }

  /** LS or SS: the verbs that address a slot of the store. */
  method SlotVerb(st: Store, d: Transducer.Driver, p: Parse.Parser, v: SetupVerb) returns (reply: Reply)
    requires Ready(st, d, p) && (v == SetupLoad || v == SetupSave)
    requires SlotInRange(v, Parse.NextToken(p.line, p.pos).0, st.currSetup)
    modifies st, st.setups, d, d.gen, p, p.token
    ensures Ready(st, d, p) && st.version == old(st.version)
    ensures Snap(st, d, p) == SetupStep(v, old(Snap(st, d, p))).0
    ensures reply == SetupStep(v, old(Snap(st, d, p))).1
  {
    if v == SetupLoad {
      reply := LsVerb(st, d, p);
    } else {
      reply := SsVerb(st, d, p);
    }
  }
}
