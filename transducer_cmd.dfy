/**
 * The typed commands of TransducerCmd.c that act on the transducer driver, and the
 * handlers of the two digital inputs.
 *
 * A command line's first word selects a verb (compared with StrEQ, so without regard
 * to case); FR, PO and PW read one more word as their argument. What a command asks
 * for is the pure function Interpret; the method TransducerCmd is proved to carry it
 * out on the driver.
 */
module TransducerCmd {
  import opened FixedWidth
  import opened LibC
  import opened TransducerDefs
  import Command
  import Parse
  import Decimal
  import Transducer
  import Mcp41x1

  /** The commands of TransducerCmd, in the order they are tried. */
  datatype Verb = Off | On | EStopSet | EStopReset | Freq | Power
                | Louder | Softer | FreqUp | FreqDown | FreqUpLittle | FreqDownLittle
                | Wiper | Other

  /** The first command word matched, in the order of the source's StrEQ tests. */
  function VerbOf(command: seq<char>): (v: Verb)
    ensures v == Off <==> Command.StrEQ(command, "OF") || Command.StrEQ(command, "OFF")
    ensures v == Other ==> !Command.StrEQ(command, "ON") && !Command.StrEQ(command, "FR")
  {
    if Command.StrEQ(command, "OF") || Command.StrEQ(command, "OFF") then Off
    else if Command.StrEQ(command, "ON") then On
    else if Command.StrEQ(command, "ES") then EStopSet
    else if Command.StrEQ(command, "RE") then EStopReset
    else if Command.StrEQ(command, "FR") then Freq
    else if Command.StrEQ(command, "PO") then Power
    else if Command.StrEQ(command, "L") then Louder
    else if Command.StrEQ(command, "S") then Softer
    else if Command.StrEQ(command, "U") then FreqUp
    else if Command.StrEQ(command, "D") then FreqDown
    else if Command.StrEQ(command, "+") then FreqUpLittle
    else if Command.StrEQ(command, "-") then FreqDownLittle
    else if Command.StrEQ(command, "PW") then Wiper
    else Other
  }

  /** FR, PO and PW read an argument word; the others do not. */
  predicate TakesArgument(v: Verb)
  {
    v == Freq || v == Power || v == Wiper
  }

  /** What a command asks the driver to do. */
  datatype Request =
    | NotOurs
    | SwitchOff
    | SwitchOn
    | SetEStop(stop: bool)
    | ShowFreq
    | SetFreq(f: nat)
    | SetPower(p: nat)
    | SetWiper(w: nat)
    | Refuse(reason: Reply)

  /** The message a command prints (its text is not modelled). */
  datatype Reply =
    | Quiet
    | TransducerOffMsg
    | TransducerOnMsg
    | CantOutputInEStopMsg
    | EStopOnMsg
    | EStopOffMsg
    | FreqMsg(freq: nat)
    | BadFreqMsg
    | BadPowerMsg
    | BadWiperMsg

  /**
   * The FR argument check as written: atoi's 16-bit value compared with
   * TRANSDUCER_MIN_FREQ..TRANSDUCER_MAX_FREQ.
   */
  function FreqRequestAsWritten(arg: seq<char>): (r: Request)
    ensures r.SetFreq? || r == Refuse(BadFreqMsg)
    ensures r.SetFreq? ==> TRANSDUCER_MIN_FREQ <= r.f < 0x8000
  {
    var n := Atoi(arg);
    if n < TRANSDUCER_MIN_FREQ || n > TRANSDUCER_MAX_FREQ then Refuse(BadFreqMsg) else SetFreq(n)
  }

  /** As written, the upper part of the frequency range cannot be set at all. */
  lemma FreqAsWrittenRefusesHighRange(n: nat)
    requires 0x8000 <= n <= TRANSDUCER_MAX_FREQ
    ensures FreqRequestAsWritten(Decimal.DecimalDigits(n)) == Refuse(BadFreqMsg)
  {
    AtoiOfDecimal(n);
    DivUnique(n, U16_MOD, 0, n);
  }

  /** As written, an out-of-range number that wraps into the range is accepted. */
  lemma FreqAsWrittenAcceptsWrapped()
    ensures FreqRequestAsWritten(Decimal.DecimalDigits(85536)) == SetFreq(20000)
  {
    AtoiOfDecimal(85536);
  }

  /**
   * The FR argument check as intended: the number typed is compared with the allowed
   * range before it is narrowed to the 16-bit frequency.
   */
  function FreqRequest(arg: seq<char>): (r: Request)
    ensures r.SetFreq? || r == Refuse(BadFreqMsg)
    ensures r.SetFreq? <==> TRANSDUCER_MIN_FREQ <= ParsedValue(arg) <= TRANSDUCER_MAX_FREQ
    ensures r.SetFreq? ==> r.f == ParsedValue(arg)
  {
    var n := ParsedValue(arg);
    if n < TRANSDUCER_MIN_FREQ || n > TRANSDUCER_MAX_FREQ then Refuse(BadFreqMsg) else SetFreq(n)
  }

  /** Every frequency of the allowed range, typed in decimal, is set. */
  lemma FreqRequestAcceptsRange(n: nat)
    requires TRANSDUCER_MIN_FREQ <= n <= TRANSDUCER_MAX_FREQ
    ensures FreqRequest(Decimal.DecimalDigits(n)) == SetFreq(n)
  {
    ParsedValueOfDecimal(n);
  }

  /** PO: atoi's value, accepted within TRANSDUCER_MIN_POWER..TRANSDUCER_MAX_POWER. */
  function PowerRequest(arg: seq<char>): (r: Request)
    ensures r.SetPower? || r == Refuse(BadPowerMsg)
    ensures r.SetPower? <==> TRANSDUCER_MIN_POWER <= Atoi(arg) <= TRANSDUCER_MAX_POWER
    ensures r.SetPower? ==> r.p == Atoi(arg)
  {
    var n := Atoi(arg);
    if n < TRANSDUCER_MIN_POWER || n > TRANSDUCER_MAX_POWER then Refuse(BadPowerMsg) else SetPower(n)
  }

  /** Every power of the allowed range, typed in decimal, is set. */
  lemma PowerRequestAcceptsRange(n: nat)
    requires TRANSDUCER_MIN_POWER <= n <= TRANSDUCER_MAX_POWER
    ensures PowerRequest(Decimal.DecimalDigits(n)) == SetPower(n)
  {
    AtoiOfDecimal(n);
  }

  /** PW: atoi's value, accepted within 0..PWMPot_MAX_WIPER. */
  function WiperRequest(arg: seq<char>): (r: Request)
    ensures r.SetWiper? || r == Refuse(BadWiperMsg)
    ensures r.SetWiper? <==> 0 <= Atoi(arg) <= PWMPOT_MAX_WIPER
    ensures r.SetWiper? ==> r.w == Atoi(arg)
  {
    var n := Atoi(arg);
    if n < 0 || n > PWMPOT_MAX_WIPER then Refuse(BadWiperMsg) else SetWiper(n)
  }

  /** Every wiper position, typed in decimal, is set. */
  lemma WiperRequestAcceptsRange(n: nat)
    requires n <= PWMPOT_MAX_WIPER
    ensures WiperRequest(Decimal.DecimalDigits(n)) == SetWiper(n)
  {
    AtoiOfDecimal(n);
  }

  /** The frequency bumps: U and D move by 100 Hz, + and - by 20 Hz. */
  function FreqStep(v: Verb): int
  {
    match v
    case FreqUp => 100
    case FreqDown => -100
    case FreqUpLittle => 20
    case FreqDownLittle => -20
    case _ => 0
  }

  /**
   * What a command asks for, given the argument word it reads (ignored by verbs that
   * take none) and the settings. The bump commands compute in 16 bits.
   */
  function Interpret(v: Verb, arg: seq<char>, cfg: Settings): (r: Request)
    ensures r == NotOurs <==> v == Other
    ensures r.SetFreq? ==> IsU16(r.f)
    ensures r.SetPower? ==> IsU16(r.p)
    ensures r.SetWiper? ==> r.w <= PWMPOT_MAX_WIPER
    ensures v == Freq && r.SetFreq? ==> TRANSDUCER_MIN_FREQ <= r.f <= TRANSDUCER_MAX_FREQ
    ensures v == Power && r.SetPower? ==> r.p <= TRANSDUCER_MAX_POWER
  {
    match v
    case Off => SwitchOff
    case On => SwitchOn
    case EStopSet => SetEStop(true)
    case EStopReset => SetEStop(false)
    case Freq => if arg == [] then ShowFreq else FreqRequest(arg)
    case Power => PowerRequest(arg)
    case Louder => SetPower(U16(cfg.power + 10))
    case Softer => SetPower(U16(cfg.power - 10))
    case FreqUp => SetFreq(U16(cfg.freq + FreqStep(v)))
    case FreqDown => SetFreq(U16(cfg.freq + FreqStep(v)))
    case FreqUpLittle => SetFreq(U16(cfg.freq + FreqStep(v)))
    case FreqDownLittle => SetFreq(U16(cfg.freq + FreqStep(v)))
    case Wiper => WiperRequest(arg)
    case Other => NotOurs
  }

  /** The bump commands are unchecked: S at zero power wraps to 65526, far above the maximum. */
  lemma SofterWrapsAtZero(cfg: Settings)
    requires cfg.power == 0
    ensures Interpret(Softer, [], cfg) == SetPower(65526)
    ensures 65526 > TRANSDUCER_MAX_POWER
  {
  }

  /** U at the top of the range leaves the allowed frequencies. */
  lemma FreqUpLeavesRange(cfg: Settings)
    requires cfg.freq == TRANSDUCER_MAX_FREQ
    ensures Interpret(FreqUp, [], cfg) == SetFreq(TRANSDUCER_MAX_FREQ + 100)
  {
  }

  /** The settings after a request. */
  function SettingsAfter(r: Request, cfg: Settings): (s: Settings)
    ensures s.(freq := cfg.freq, power := cfg.power) == cfg
  {
    match r
    case SetFreq(f) => cfg.(freq := f)
    case SetPower(p) => cfg.(power := p)
    case _ => cfg
  }

  /** The status after a request. */
  function StatusAfter(r: Request, cfg: Settings, c: Status): (s: Status)
    ensures Transducer.Safe(c) ==> Transducer.Safe(s)
    ensures s.on ==> c.on || r == SwitchOn
    ensures r.SetEStop? && r.stop ==> s.eStop && !s.on
  {
    match r
    case SwitchOff => Transducer.SwitchOn(cfg, c, false)
    case SwitchOn => Transducer.SwitchOn(cfg, c, true)
    case SetEStop(stop) => Transducer.SetEStop(cfg, c, stop)
    case SetWiper(w) => c.(pwmWiper := w)
    case _ => c
  }

  /** The message printed for a request, given the status after it. */
  function ReplyTo(r: Request, cfg: Settings, after: Status): Reply
  {
    match r
    case SwitchOff => TransducerOffMsg
    case SwitchOn => if after.eStop then CantOutputInEStopMsg else TransducerOnMsg
    case SetEStop(stop) => if stop then EStopOnMsg else EStopOffMsg
    case ShowFreq => FreqMsg(cfg.freq)
    case Refuse(reason) => reason
    case _ => Quiet
  }

  /** ON succeeds exactly when not in EStop, and says so. */
  lemma OnCommandOutcome(cfg: Settings, c: Status)
    ensures var after := StatusAfter(SwitchOn, cfg, c);
            (after.on <==> !c.eStop || c.on) &&
            (ReplyTo(SwitchOn, cfg, after) == CantOutputInEStopMsg <==> c.eStop)
  {
  }

  /** The request a command makes and the state it leaves, tied together. */
  ghost predicate Performed(d: Transducer.Driver, r: Request, cfg: Settings, c: Status,
                            genBus: seq<bv16>, potBus: seq<Mcp41x1.SpiOp>, reply: Reply)
    reads d
  {
    d.settings == SettingsAfter(r, cfg) &&
    d.curr == StatusAfter(r, cfg, c) &&
    reply == ReplyTo(r, cfg, d.curr) &&
    d.genBus == genBus + (if r.SetFreq? && IsU16(r.f) then Transducer.SquareWords(r.f) else []) &&
    d.potBus == potBus + (if r.SetWiper? then Mcp41x1.SetWiper(r.w) else [])
  }

  /**
   * TransducerCmd: the command word is compared with each command in turn (VerbOf);
   * FR, PO and PW read their argument from the parser. Returns whether the command
   * was one of these.
   */
  method TransducerCmd(d: Transducer.Driver, p: Parse.Parser, command: seq<char>)
    returns (handled: bool, reply: Reply)
    requires d.Valid() && p.Valid()
    modifies d, d.gen, p, p.token
    ensures d.Valid() && p.Valid() && p.line == old(p.line)
    ensures var v := VerbOf(command);
            var arg := if TakesArgument(v) then Parse.NextToken(p.line, old(p.pos)).0 else [];
            var r := Interpret(v, arg, old(d.settings));
            handled == (r != NotOurs) &&
            Performed(d, r, old(d.settings), old(d.curr), old(d.genBus), old(d.potBus), reply) &&
            p.pos == (if TakesArgument(v) then Parse.NextToken(p.line, old(p.pos)).1 else old(p.pos))
  {
    var v := VerbOf(command);
    handled := v != Other;
    if TakesArgument(v) {
      reply := ArgumentCommand(d, p, v);
    } else {
      reply := PlainCommand(d, v);
    }
  }

  /** FR, PO and PW: read the argument word, then act on it. */
  method ArgumentCommand(d: Transducer.Driver, p: Parse.Parser, v: Verb) returns (reply: Reply)
    requires d.Valid() && p.Valid() && TakesArgument(v)
    modifies d, d.gen, p, p.token
    ensures d.Valid() && p.Valid() && p.line == old(p.line)
    ensures var (arg, pos1) := Parse.NextToken(p.line, old(p.pos));
            p.pos == pos1 &&
            Performed(d, Interpret(v, arg, old(d.settings)), old(d.settings), old(d.curr),
                      old(d.genBus), old(d.potBus), reply)
  {
    var text := p.ParseToken();
    if v == Freq {
      reply := FreqCommand(d, text);
    } else if v == Power {
      reply := PowerCommand(d, text);
    } else {
      reply := WiperCommand(d, text);
    }
  }

  /** The commands without an argument word. */
  method PlainCommand(d: Transducer.Driver, v: Verb) returns (reply: Reply)
    requires d.Valid() && !TakesArgument(v)
    modifies d, d.gen
    ensures d.Valid()
    ensures Performed(d, Interpret(v, [], old(d.settings)), old(d.settings), old(d.curr),
                      old(d.genBus), old(d.potBus), reply)
  {
    match v {
      case Off => reply := SwitchCommand(d, v);
      case On => reply := SwitchCommand(d, v);
      case EStopSet => reply := SwitchCommand(d, v);
      case EStopReset => reply := SwitchCommand(d, v);
      case Louder => reply := PowerBump(d, v);
      case Softer => reply := PowerBump(d, v);
      case Other => reply := Quiet;
      case FreqUp | FreqDown | FreqUpLittle | FreqDownLittle => reply := FreqBump(d, v);
    }
  }

  /** OF/OFF, ON, ES and RE. */
  method SwitchCommand(d: Transducer.Driver, v: Verb) returns (reply: Reply)
    requires d.Valid() && v in {Off, On, EStopSet, EStopReset}
    modifies d
    ensures d.Valid()
    ensures Performed(d, Interpret(v, [], old(d.settings)), old(d.settings), old(d.curr),
                      old(d.genBus), old(d.potBus), reply)
  {
    if v == Off {
      d.On(false);
      reply := TransducerOffMsg;
    } else if v == On {
      d.On(true);
      if d.curr.eStop {
        reply := CantOutputInEStopMsg;
        return;
      }
      reply := TransducerOnMsg;
    } else if v == EStopSet {
      d.EStop(true);
      reply := EStopOnMsg;
    } else {
      d.EStop(false);
      reply := EStopOffMsg;
    }
  }

  /** L and S: bump the set power by 10, in 16 bits. */
  method PowerBump(d: Transducer.Driver, v: Verb) returns (reply: Reply)
    requires d.Valid() && v in {Louder, Softer}
    modifies d
    ensures d.Valid()
    ensures Performed(d, Interpret(v, [], old(d.settings)), old(d.settings), old(d.curr),
                      old(d.genBus), old(d.potBus), reply)
  {
    reply := Quiet;
    if v == Louder {
      assert Interpret(v, [], d.settings) == SetPower(U16(d.settings.power + 10));
      d.SetPower(U16(d.settings.power + 10));
    } else {
      assert Interpret(v, [], d.settings) == SetPower(U16(d.settings.power - 10));
      d.SetPower(U16(d.settings.power - 10));
    }
  }

  /** U, D, + and -: bump the set frequency by 100 or 20, in 16 bits. */
  method FreqBump(d: Transducer.Driver, v: Verb) returns (reply: Reply)
    requires d.Valid() && (v == FreqUp || v == FreqDown || v == FreqUpLittle || v == FreqDownLittle)
    modifies d, d.gen
    ensures d.Valid()
    ensures Performed(d, Interpret(v, [], old(d.settings)), old(d.settings), old(d.curr),
                      old(d.genBus), old(d.potBus), reply)
  {
    reply := Quiet;
    var f := U16(d.settings.freq + FreqStep(v));
    assert Interpret(v, [], d.settings) == SetFreq(f);
    d.SetFreq(f);
  }

  /** FR: a blank argument shows the set frequency; otherwise check and set it. */
  method FreqCommand(d: Transducer.Driver, freqText: seq<char>) returns (reply: Reply)
    requires d.Valid()
    modifies d, d.gen
    ensures d.Valid()
    ensures Performed(d, Interpret(Freq, freqText, old(d.settings)), old(d.settings), old(d.curr),
                      old(d.genBus), old(d.potBus), reply)
  {
    if freqText == [] {
      reply := FreqMsg(d.settings.freq);
      return;
    }
    var r := FreqRequest(freqText);
    assert Interpret(Freq, freqText, d.settings) == r;
    if !r.SetFreq? {
      reply := BadFreqMsg;
      return;
    }
    d.SetFreq(r.f);
    reply := Quiet;
  }

  /** PO: check the argument against the power range and set it. */
  method PowerCommand(d: Transducer.Driver, powerText: seq<char>) returns (reply: Reply)
    requires d.Valid()
    modifies d
    ensures d.Valid()
    ensures Performed(d, Interpret(Power, powerText, old(d.settings)), old(d.settings), old(d.curr),
                      old(d.genBus), old(d.potBus), reply)
  {
    var powerNum := Atoi(powerText);
    if powerNum < TRANSDUCER_MIN_POWER || powerNum > TRANSDUCER_MAX_POWER {
      reply := BadPowerMsg;
      return;
    }
    d.SetPower(powerNum);
    reply := Quiet;
  }

  /** PW: check the argument against the wiper range, record it and send it. */
  method WiperCommand(d: Transducer.Driver, wiperText: seq<char>) returns (reply: Reply)
    requires d.Valid()
    modifies d
    ensures d.Valid()
    ensures Performed(d, Interpret(Wiper, wiperText, old(d.settings)), old(d.settings), old(d.curr),
                      old(d.genBus), old(d.potBus), reply)
  {
    var wiperNum := Atoi(wiperText);
    if wiperNum < 0 || wiperNum > PWMPOT_MAX_WIPER {
      reply := BadWiperMsg;
      return;
    }
    assert Interpret(Wiper, wiperText, d.settings) == SetWiper(wiperNum);
    d.SetWiper(wiperNum);
    reply := Quiet;
  }

  /**
   * What an input edge does under an action: XCTRL follows the input, XPOPO toggles
   * the output on a press, ESTOP enters EStop on a press.
   */
  function InputEffect(action: Action, pressed: bool, cfg: Settings, c: Status): (r: Status)
    ensures Transducer.Safe(c) ==> Transducer.Safe(r)
    ensures action == InputUnused || (!pressed && action != InputXCtrl) ==> r == c
    ensures action == InputEStop && pressed ==> r.eStop && !r.on
  {
    match action
    case InputUnused => c
    case InputXCtrl => Transducer.SwitchOn(cfg, c, pressed)
    case InputXPoPo => if pressed then Transducer.SwitchOn(cfg, c, !c.on) else c
    case InputEStop => if pressed then Transducer.SetEStop(cfg, c, true) else c
  }

  /** Outside EStop, two presses of a push-on/push-off input return to the first state of the output. */
  lemma PushOnPushOff(cfg: Settings, c: Status)
    requires !c.eStop
    ensures var once := InputEffect(InputXPoPo, true, cfg, c);
            once.on == !c.on &&
            InputEffect(InputXPoPo, true, cfg, once).on == c.on
  {
  }

  /** A release of a direct-control input always switches the output off. */
  lemma DirectControlRelease(cfg: Settings, c: Status)
    ensures !InputEffect(InputXCtrl, false, cfg, c).on
    ensures InputEffect(InputXCtrl, false, cfg, c).runTimer == 0
  {
  }

  /** ProcessInput1: announce the edge when Input1 asks to, then apply Input1's action. */
  method ProcessInput1(d: Transducer.Driver, pressed: bool) returns (announce: bool)
    requires d.Valid()
    modifies d
    ensures d.Valid() && d.settings == old(d.settings)
    ensures announce == d.settings.input1.announce
    ensures d.curr == InputEffect(d.settings.input1.action, pressed, d.settings, old(d.curr))
    ensures d.genBus == old(d.genBus) && d.potBus == old(d.potBus)
  {
    announce := d.settings.input1.announce;
    match d.settings.input1.action {
      case InputUnused =>
      case InputXCtrl =>
        d.On(pressed);
      case InputXPoPo =>
        if pressed {
          d.On(!d.curr.on);
        }
      case InputEStop =>
        if pressed {
          d.EStop(true);
        }
    }
  }

  /** Whether ProcessInput2 announces an edge, as written: it tests Input1's flag. */
  function Input2AnnouncesAsWritten(cfg: Settings): (announce: bool)
    ensures announce == cfg.input1.announce
  {
    cfg.input1.announce
  }

  /** Whether ProcessInput2 announces an edge, as intended: Input2's own flag. */
  function Input2Announces(cfg: Settings): (announce: bool)
    ensures announce == cfg.input2.announce
  {
    cfg.input2.announce
  }

  /** As written, setting Input2's print flag has no effect, and Input1's flag announces Input2. */
  lemma Input2AnnounceDiscrepancy(cfg: Settings)
    requires cfg.input2.announce != cfg.input1.announce
    ensures Input2AnnouncesAsWritten(cfg) != Input2Announces(cfg)
  {
  }

  /** ProcessInput2 (announcing by Input2's own flag): apply Input2's action. */
  method ProcessInput2(d: Transducer.Driver, pressed: bool) returns (announce: bool)
    requires d.Valid()
    modifies d
    ensures d.Valid() && d.settings == old(d.settings)
    ensures announce == Input2Announces(d.settings)
    ensures d.curr == InputEffect(d.settings.input2.action, pressed, d.settings, old(d.curr))
    ensures d.genBus == old(d.genBus) && d.potBus == old(d.potBus)
  {
    announce := Input2Announces(d.settings);
    match d.settings.input2.action {
      case InputUnused =>
      case InputXCtrl =>
        d.On(pressed);
      case InputXPoPo =>
        if pressed {
          d.On(!d.curr.on);
        }
      case InputEStop =>
        if pressed {
          d.EStop(true);
        }
    }
  }
}
