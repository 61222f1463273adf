/**
 * The data model of Transducer.h: project bounds, the run-mode, control-mode and
 * input-action enumerations with their index macros, and the TRANSDUCER_SET record
 * of user settings.
 */
module TransducerDefs {
  import opened FixedWidth

  const TRANSDUCER_MIN_FREQ: nat := 20000
  const TRANSDUCER_DEF_FREQ: nat := 28000
  const TRANSDUCER_MAX_FREQ: nat := 35000

  /** Power limits, in watts x 10. */
  const TRANSDUCER_MIN_POWER: nat := 0
  const TRANSDUCER_MAX_POWER: nat := 100 * 10

  const TRANSDUCER_DRIVE_VOLTS: nat := 12

  /** The PWM potentiometer: a 10 kOhm MCP4161 whose wiper the driver keeps at or below 255. */
  const PWMPOT_MAXR: nat := 10000
  const PWMPOT_MAX_WIPER: nat := 255

  lemma FrequencyBoundsOrdered()
    ensures TRANSDUCER_MIN_FREQ <= TRANSDUCER_DEF_FREQ <= TRANSDUCER_MAX_FREQ
    ensures IsU16(TRANSDUCER_MAX_FREQ) && TRANSDUCER_MAX_POWER == 1000
  {
  }

  datatype RunMode = RunContinuous | RunTimed
  datatype CtlMode = CtlConstFreq | CtlMaxEff
  datatype Action = InputUnused | InputXCtrl | InputXPoPo | InputEStop

  /** The enumerators' values in C: each enumeration starts at its own hundred. */
  function RunModeCode(m: RunMode): int
  {
    match m
    case RunContinuous => 100
    case RunTimed => 101
  }

  function CtlModeCode(m: CtlMode): int
  {
    match m
    case CtlConstFreq => 200
    case CtlMaxEff => 201
  }

  function ActionCode(a: Action): int
  {
    match a
    case InputUnused => 300
    case InputXCtrl => 301
    case InputXPoPo => 302
    case InputEStop => 303
  }

  /** NUM_RUN_MODES, NUM_CTL_MODES and NUM_ACTIONS: last enumerator minus first, plus one. */
  const NUM_RUN_MODES: int := RunModeCode(RunTimed) - RunModeCode(RunContinuous) + 1
  const NUM_CTL_MODES: int := CtlModeCode(CtlMaxEff) - CtlModeCode(CtlConstFreq) + 1
  const NUM_ACTIONS: int := ActionCode(InputEStop) - ActionCode(InputUnused) + 1

  lemma EnumCounts()
    ensures NUM_RUN_MODES == 2 && NUM_CTL_MODES == 2 && NUM_ACTIONS == 4
  {
  }

  /** IDX_CTL_MODE: the position of a control mode in the mode-name table. */
  function IdxCtlMode(m: CtlMode): (i: int)
    ensures 0 <= i < NUM_CTL_MODES
  {
    CtlModeCode(m) - CtlModeCode(CtlConstFreq)
  }

  /** IDX_ACTION: the position of an input action in the action-name table. */
  function IdxAction(a: Action): (i: int)
    ensures 0 <= i < NUM_ACTIONS
  {
    ActionCode(a) - ActionCode(InputUnused)
  }

  /** The control mode at a table position: the inverse of IDX_CTL_MODE. */
  function CtlModeAt(i: int): (m: CtlMode)
    requires 0 <= i < NUM_CTL_MODES
    ensures IdxCtlMode(m) == i
  {
    if i == 0 then CtlConstFreq else CtlMaxEff
  }

  /** The input action at a table position: the inverse of IDX_ACTION. */
  function ActionAt(i: int): (a: Action)
    requires 0 <= i < NUM_ACTIONS
    ensures IdxAction(a) == i
  {
    if i == 0 then InputUnused else if i == 1 then InputXCtrl else if i == 2 then InputXPoPo else InputEStop
  }

  /** Distinct enumerators have distinct table positions, and every position has one. */
  lemma IndexesDistinct(m1: CtlMode, m2: CtlMode, a1: Action, a2: Action)
    ensures IdxCtlMode(m1) == IdxCtlMode(m2) ==> m1 == m2
    ensures IdxAction(a1) == IdxAction(a2) ==> a1 == a2
    ensures CtlModeAt(IdxCtlMode(m1)) == m1 && ActionAt(IdxAction(a1)) == a1
  {
  }

  /** INPUT: what an input does when it changes, and whether to announce it. */
  datatype Input = Input(action: Action, announce: bool)

  /** TRANSDUCER_SET: the settings the user asks for. */
  datatype Settings = Settings(
    freq: nat,          // target frequency, Hz
    power: nat,         // target power, watts x 10
    runMode: RunMode,
    runTimer: nat,      // ticks to run in RunTimed
    ctlMode: CtlMode,
    input1: Input,
    input2: Input)

  predicate ValidSettings(s: Settings)
  {
    IsU16(s.freq) && IsU16(s.power) && IsU16(s.runTimer)
  }

  /** TRANSDUCER_CURR: what the driver measures and its on/off state. */
  datatype Status = Status(
    freq: nat,          // measured frequency, Hz
    power: nat,         // measured power, watts x 10
    runTimer: nat,      // ticks left in RunTimed
    current: nat,       // measured current (the sensor's int16 read as uint16)
    pwm: nat,           // measured duty cycle, % x 10
    pwmWiper: nat,      // PWM potentiometer wiper
    eStop: bool,
    on: bool)

  predicate ValidStatus(c: Status)
  {
    IsU16(c.freq) && IsU16(c.power) && IsU16(c.runTimer) && IsU16(c.current) &&
    IsU16(c.pwm) && IsU16(c.pwmWiper)
  }

  /** The memset of TransducerInit: everything zero or false. */
  const ZeroStatus: Status := Status(0, 0, 0, 0, 0, 0, false, false)

  /** TransducerDefaults (and the SetupDefaults slot of Setup.c, which holds the same values). */
  const Defaults: Settings :=
    Settings(TRANSDUCER_DEF_FREQ, 20, RunContinuous, 0, CtlConstFreq, Input(InputUnused, false), Input(InputUnused, false))

  lemma DefaultsValid()
    ensures ValidSettings(Defaults)
    ensures TRANSDUCER_MIN_FREQ <= Defaults.freq <= TRANSDUCER_MAX_FREQ
    ensures Defaults.power <= TRANSDUCER_MAX_POWER
  {
  }
}
