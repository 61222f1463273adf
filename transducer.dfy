/**
 * The transducer driver of Transducer.c: the user's settings (TransducerSet), the
 * measured status (TransducerCurr), the SG3525 shutdown line, the AD9833 generator, the
 * PWM capture, the ACS712 current sensor and the MCP4161 power potentiometer.
 *
 * Every state change is described by a pure function on the two records; the driver's
 * methods are proved to perform exactly those functions, and the lemmas below state
 * what the functions guarantee: output is never on in EStop, a timed run stops after
 * exactly RunTimer updates, the power regulator moves the wiper one step toward the
 * set point.
 */
module Transducer {
  import opened FixedWidth
  import opened TransducerDefs
  import AD9833
  import PwmCapture
  import CurrentSensor
  import Mcp41x1

  /** The safety invariant: the output is never on while in EStop. */
  predicate Safe(c: Status)
  {
    c.eStop ==> !c.on
  }

  /**
   * TransducerOn on the records: off always succeeds and clears the run timer; on is
   * refused in EStop, and otherwise loads the run timer when the run is timed.
   */
  function SwitchOn(cfg: Settings, c: Status, on: bool): (r: Status)
    ensures r.(on := c.on, runTimer := c.runTimer) == c
    ensures r.on <==> on && (c.on || !c.eStop)
    ensures !on ==> r.runTimer == 0
    ensures on && !c.eStop && cfg.runMode == RunTimed ==> r.runTimer == cfg.runTimer
    ensures on && (c.eStop || cfg.runMode == RunContinuous) ==> r.runTimer == c.runTimer
    ensures Safe(c) ==> Safe(r)
  {
    if !on then c.(runTimer := 0, on := false)
    else if c.eStop then c
    else if cfg.runMode == RunTimed then c.(runTimer := cfg.runTimer, on := true)
    else c.(on := true)
  }

  /** TransducerEStop on the records: entering EStop switches the output off. */
  function SetEStop(cfg: Settings, c: Status, stop: bool): (r: Status)
    ensures r.eStop == stop && Safe(r)
    ensures stop ==> !r.on && r.runTimer == 0
    ensures !stop ==> r == c.(eStop := false)
    ensures r.(eStop := c.eStop, on := c.on, runTimer := c.runTimer) == c
  {
    var e := c.(eStop := stop);
    if stop then SwitchOn(cfg, e, false) else e
  }

  /** Once in EStop, no request to switch on has any effect. */
  lemma EStopBlocksOn(cfg: Settings, c: Status, stop: Status)
    requires stop == SetEStop(cfg, c, true)
    ensures SwitchOn(cfg, stop, true) == stop && !stop.on
  {
  }

  /** Releasing EStop does not switch the output back on. */
  lemma ReleaseLeavesOff(cfg: Settings, c: Status)
    ensures !SetEStop(cfg, SetEStop(cfg, c, true), false).on
  {
  }

  /**
   * The power computed by TransducerUpdate, in watts x 10: current (amps x 10) times
   * the drive volts, times the duty cycle (% x 10), over 1000. The first product is
   * 16-bit, the second 32-bit, and the quotient is truncated to 16 bits.
   */
  function PowerOf(current: nat, pwm: nat): (p: nat)
    ensures IsU16(p)
    ensures current * TRANSDUCER_DRIVE_VOLTS < U16_MOD && current * TRANSDUCER_DRIVE_VOLTS * pwm < 1000 * U16_MOD ==>
              p * 1000 <= current * TRANSDUCER_DRIVE_VOLTS * pwm < p * 1000 + 1000
  {
    var p := U16(U32(U16(current * TRANSDUCER_DRIVE_VOLTS) * pwm) / 1000);
    PowerExact(current * TRANSDUCER_DRIVE_VOLTS, pwm, p);
    p
  }

  /** Without a wrap of the 16-bit product or of the quotient, the power is exact. */
  lemma PowerExact(volts: nat, pwm: nat, p: int)
    requires p == U16(U32(U16(volts) * pwm) / 1000)
    ensures IsU16(volts) && volts * pwm < 1000 * U16_MOD ==> p * 1000 <= volts * pwm < p * 1000 + 1000
  {
    if IsU16(volts) && volts * pwm < 1000 * U16_MOD {
      var x := volts * pwm;
      assert U16(volts) == volts;
      assert U32(x) == x;
      var q := x / 1000;
      assert q < U16_MOD;
      assert p == q;
    }
  }

  /**
   * The measurements TransducerUpdate copies into the status: the PWM frequency, twice
   * the captured duty cycle (16-bit), the sensor's current read as uint16, and the
   * power computed from them.
   */
  function Measure(c: Status, freq: nat, duty: nat, current: nat): (r: Status)
    ensures r.(freq := c.freq, pwm := c.pwm, current := c.current, power := c.power) == c
    ensures r.freq == freq && r.current == current && r.pwm == U16(2 * duty)
    ensures r.power == PowerOf(current, r.pwm)
  {
    var pwm := U16(duty * 2);
    c.(freq := freq, pwm := pwm, current := current, power := PowerOf(current, pwm))
  }

  /**
   * The run-timer step of TransducerUpdate: when on in a timed run the 16-bit timer is
   * decremented, and the output switched off when it reaches zero.
   */
  function Countdown(cfg: Settings, c: Status): (r: Status)
    ensures r.eStop == c.eStop && (Safe(c) ==> Safe(r))
    ensures r.(on := c.on, runTimer := c.runTimer) == c
    ensures !(c.on && cfg.runMode == RunTimed) ==> r == c
    ensures r.on ==> c.on
  {
    if c.on && cfg.runMode == RunTimed then
      var t := U16(c.runTimer - 1);
      if t == 0 then SwitchOn(cfg, c.(runTimer := t), false) else c.(runTimer := t)
    else c
  }

  /** n successive countdown steps. */
  function Countdowns(cfg: Settings, c: Status, n: nat): Status
    decreases n
  {
    if n == 0 then c else Countdowns(cfg, Countdown(cfg, c), n - 1)
  }

  /** Before the timer runs out, each step only decrements it. */
  lemma {:induction false} CountdownRunning(cfg: Settings, c: Status, k: nat)
    requires cfg.runMode == RunTimed && c.on && IsU16(c.runTimer) && k < c.runTimer
    ensures Countdowns(cfg, c, k) == c.(runTimer := c.runTimer - k)
    decreases k
  {
    if k > 0 {
      var next := Countdown(cfg, c);
      assert next == c.(runTimer := c.runTimer - 1);
      CountdownRunning(cfg, next, k - 1);
    }
  }

  /** A timed run started with RunTimer = n >= 1 is on for n - 1 updates and off after n. */
  lemma TimedRunLength(cfg: Settings, c: Status)
    requires cfg.runMode == RunTimed && c.on && IsU16(c.runTimer) && c.runTimer >= 1
    ensures Countdowns(cfg, c, c.runTimer - 1).on
    ensures Countdowns(cfg, c, c.runTimer - 1).runTimer == 1
    ensures !Countdowns(cfg, c, c.runTimer).on
    ensures Countdowns(cfg, c, c.runTimer).runTimer == 0
  {
    var n := c.runTimer;
    CountdownRunning(cfg, c, n - 1);
    var last := Countdowns(cfg, c, n - 1);
    CountdownsSplit(cfg, c, n - 1);
    assert Countdowns(cfg, c, n) == Countdown(cfg, last);
  }

  lemma {:induction false} CountdownsSplit(cfg: Settings, c: Status, k: nat)
    ensures Countdowns(cfg, c, k + 1) == Countdown(cfg, Countdowns(cfg, c, k))
    decreases k
  {
    if k > 0 {
      CountdownsSplit(cfg, Countdown(cfg, c), k - 1);
    }
  }

  /** A timed run switched on with RunTimer = 0 does not stop: the timer wraps to 65535. */
  lemma TimedRunFromZero(cfg: Settings, c: Status)
    requires cfg.runMode == RunTimed && c.on && c.runTimer == 0
    ensures Countdown(cfg, c).on && Countdown(cfg, c).runTimer == 0xFFFF
  {
  }

  /** Once switched on, a timed run with RunTimer = 0 runs 65536 updates. */
  lemma TimedRunFromZeroLength(cfg: Settings, c: Status)
    requires cfg.runMode == RunTimed && c.on && c.runTimer == 0
    ensures Countdowns(cfg, c, 0x1_0000 - 1).on
    ensures !Countdowns(cfg, c, 0x1_0000).on
  {
    var c1 := Countdown(cfg, c);
    TimedRunLength(cfg, c1);
    assert Countdowns(cfg, c, 0x1_0000 - 1) == Countdowns(cfg, c1, 0xFFFF - 1);
    assert Countdowns(cfg, c, 0x1_0000) == Countdowns(cfg, c1, 0xFFFF);
  }

  /** Switching on a timed run whose RunTimer is 0 starts that 65536-update run. */
  lemma SwitchOnTimedFromZero(cfg: Settings, c: Status)
    requires cfg.runMode == RunTimed && cfg.runTimer == 0 && !c.eStop
    ensures Countdowns(cfg, SwitchOn(cfg, c, true), 0x1_0000 - 1).on
    ensures !Countdowns(cfg, SwitchOn(cfg, c, true), 0x1_0000).on
  {
    TimedRunFromZeroLength(cfg, SwitchOn(cfg, c, true));
  }

  /**
   * AdjustPower's choice of wiper: one step down when the measured power is above the
   * set point (unless the duty cycle or the wiper is already zero), one step up when it
   * is below (unless the duty cycle is above 96% or the wiper at PWMPot_MAX_WIPER), and
   * no change while off.
   */
  function AdjustedWiper(cfg: Settings, c: Status): (w: nat)
    ensures c.pwmWiper - 1 <= w <= c.pwmWiper + 1
    ensures w < c.pwmWiper ==> c.on && c.power > cfg.power && c.pwm != 0
    ensures w > c.pwmWiper ==> c.on && c.power < cfg.power && c.pwm <= 960
    ensures c.on && c.power > cfg.power && c.pwm != 0 && c.pwmWiper != 0 ==> w < c.pwmWiper
    ensures c.on && c.power < cfg.power && c.pwm <= 960 && c.pwmWiper < PWMPOT_MAX_WIPER ==>
              w > c.pwmWiper
    ensures c.pwmWiper <= PWMPOT_MAX_WIPER ==> w <= PWMPOT_MAX_WIPER
  {
    if !c.on then c.pwmWiper
    else if c.power > cfg.power then
      if c.pwm == 0 || c.pwmWiper == 0 then c.pwmWiper else c.pwmWiper - 1
    else if c.power < cfg.power then
      if c.pwm > 96 * 10 || c.pwmWiper >= PWMPOT_MAX_WIPER then c.pwmWiper else c.pwmWiper + 1
    else c.pwmWiper
  }

  /** At the set point, or switched off, the regulator leaves the wiper alone. */
  lemma AdjustSteady(cfg: Settings, c: Status)
    requires !c.on || c.power == cfg.power
    ensures AdjustedWiper(cfg, c) == c.pwmWiper
  {
  }

  /** The words AD9833Output(AD9833_SQ, f) sends. */
  function SquareWords(f: nat): (words: seq<bv16>)
    requires IsU16(f)
    ensures |words| == 5 && words[0] == AD9833.RESET_WORD
  {
    var div := AD9833.Divisor(f) as bv32;
    [AD9833.RESET_WORD, AD9833.FreqLow(div), AD9833.FreqHigh(div), AD9833.PHASE0_WORD,
     AD9833.ModeWord(AD9833.Sq)]
  }

  /** The initial wiper of TransducerInit (about 24% duty cycle). */
  const INIT_WIPER: nat := 30

  class Driver {
    /** TransducerSet. */
    var settings: Settings
    /** TransducerCurr. */
    var curr: Status
    /** The SG3525 shutdown line: high holds the controller off. */
    var shutdown: bool
    const gen: AD9833.Generator
    const capture: PwmCapture.Capture
    const sensor: CurrentSensor.Sensor
    /** The words sent to the AD9833 so far. */
    var genBus: seq<bv16>
    /** The SPI traffic sent to the power potentiometer so far. */
    var potBus: seq<Mcp41x1.SpiOp>

    /** The records are in range and the sub-components consistent. */
    ghost predicate Sound()
      reads this, gen, capture, sensor
    {
      ValidSettings(settings) && ValidStatus(curr) && curr.pwmWiper <= PWMPOT_MAX_WIPER &&
      gen.Valid() && capture.Valid() && sensor.Valid()
    }

    /** Sound, never on in EStop, and the SG3525 held off exactly when the output is off. */
    ghost predicate Valid()
      reads this, gen, capture, sensor
    {
      Sound() && Safe(curr) && shutdown == !curr.on
    }

    constructor(fCpu: nat)
      requires IsU32(fCpu)
      ensures Valid() && fresh(gen) && fresh(capture) && fresh(sensor)
      ensures capture.fCpu == fCpu && genBus == [] && potBus == []
    {
      settings := Defaults;
      curr := ZeroStatus;
      shutdown := true;
      gen := new AD9833.Generator();
      capture := new PwmCapture.Capture(fCpu);
      sensor := new CurrentSensor.Sensor();
      genBus, potBus := [], [];
      DefaultsValid();
    }

    /**
     * TransducerInit: the sub-components are initialised, the settings take their
     * defaults and are applied, the output is off and in EStop, and the power
     * potentiometer is settings to its starting wiper.
     */
    method Init()
      requires Valid()
      modifies this, gen, capture, sensor
      ensures Valid()
      ensures settings == Defaults
      ensures curr == ZeroStatus.(eStop := true, pwmWiper := INIT_WIPER)
      ensures gen.isOn && gen.freq == TRANSDUCER_DEF_FREQ
      ensures genBus == old(genBus) + [AD9833.RESET_WORD] + SquareWords(TRANSDUCER_DEF_FREQ)
      ensures potBus == old(potBus) + Mcp41x1.Init(Mcp41x1.MCP4161_STEPS) + Mcp41x1.SetWiper(INIT_WIPER)
      ensures sensor.samples == 0 && sensor.total == 0 && sensor.cycles == 0
      ensures capture.freqTotal == 0 && capture.pwmTotal == 0 && capture.freqCycles == 0
    {
      Reset();
      Setup();
      On(false);
      EStop(true);
      curr := curr.(pwmWiper := INIT_WIPER);
      potBus := potBus + Mcp41x1.SetWiper(curr.pwmWiper);
    }

    /** The first half of TransducerInit: the parts reset and the records set to their defaults. */
    method Reset()
      requires Valid()
      modifies this, gen, capture, sensor
      ensures Valid() && settings == Defaults && curr == ZeroStatus
      ensures genBus == old(genBus) + [AD9833.RESET_WORD]
      ensures potBus == old(potBus) + Mcp41x1.Init(Mcp41x1.MCP4161_STEPS)
      ensures sensor.samples == 0 && sensor.total == 0 && sensor.cycles == 0
      ensures capture.freqTotal == 0 && capture.pwmTotal == 0 && capture.freqCycles == 0
    {
      shutdown := true;
      var words := gen.Init();
      genBus := genBus + words;
      sensor.Init();
      potBus := potBus + Mcp41x1.Init(Mcp41x1.MCP4161_STEPS);
      capture.Init();
      DefaultsValid();
      settings := Defaults;
      curr := ZeroStatus;
    }

    /** TransducerEStop. */
    method EStop(stop: bool)
      requires Valid()
      modifies this
      ensures Valid()
      ensures curr == SetEStop(settings, old(curr), stop)
      ensures settings == old(settings) && genBus == old(genBus) && potBus == old(potBus)
    {
      curr := curr.(eStop := stop);
      if curr.eStop {
        On(false);
      }
    }

    /** TransducerOn. */
    method On(on: bool)
      requires Sound() && (on ==> Valid())
      modifies this
      ensures Valid()
      ensures curr == SwitchOn(settings, old(curr), on) && shutdown == !curr.on
      ensures settings == old(settings) && genBus == old(genBus) && potBus == old(potBus)
    {
      if !on {
        curr := curr.(runTimer := 0, on := false);
        shutdown := true;
        return;
      }
      if curr.eStop {
        return;
      }
      if settings.runMode == RunTimed {
        curr := curr.(runTimer := settings.runTimer);
      }
      curr := curr.(on := true);
      shutdown := false;
    }

    /** TransducerRunMode. */
    method SetRunMode(mode: RunMode, ticks: nat)
      requires Valid() && IsU16(ticks)
      modifies this
      ensures Valid()
      ensures settings == old(settings).(runMode := mode, runTimer := ticks) && curr == old(curr)
      ensures genBus == old(genBus) && potBus == old(potBus)
    {
      settings := settings.(runMode := mode, runTimer := ticks);
    }

    /** TransducerCtlMode. */
    method SetCtlMode(mode: CtlMode)
      requires Valid()
      modifies this
      ensures Valid()
      ensures settings == old(settings).(ctlMode := mode) && curr == old(curr)
      ensures genBus == old(genBus) && potBus == old(potBus)
    {
      settings := settings.(ctlMode := mode);
    }

    /** TransducerFreq: the settings frequency is recorded and a square wave programmed at it. */
    method SetFreq(f: nat)
      requires Valid() && IsU16(f)
      modifies this, gen
      ensures Valid()
      ensures settings == old(settings).(freq := f) && curr == old(curr)
      ensures gen.isOn && gen.freq == f
      ensures genBus == old(genBus) + SquareWords(f) && potBus == old(potBus)
    {
      settings := settings.(freq := f);
      var words := gen.Output(AD9833.Sq, settings.freq);
      genBus := genBus + words;
    }

    /** TransducerPower. */
    method SetPower(p: nat)
      requires Valid() && IsU16(p)
      modifies this
      ensures Valid()
      ensures settings == old(settings).(power := p) && curr == old(curr)
      ensures genBus == old(genBus) && potBus == old(potBus)
    {
      settings := settings.(power := p);
    }

    /** The PW command's `PWMPotSetWiper(TransducerCurr.PWMWiper = w)`. */
    method SetWiper(w: nat)
      requires Valid() && w <= PWMPOT_MAX_WIPER
      modifies this
      ensures Valid()
      ensures curr == old(curr).(pwmWiper := w) && settings == old(settings)
      ensures genBus == old(genBus) && potBus == old(potBus) + Mcp41x1.SetWiper(w)
    {
      curr := curr.(pwmWiper := w);
      potBus := potBus + Mcp41x1.SetWiper(curr.pwmWiper);
    }

    /** TransducerSetup: re-applies the settings; only the generator changes. */
    method Setup()
      requires Valid()
      modifies this, gen
      ensures Valid()
      ensures settings == old(settings) && curr == old(curr)
      ensures gen.isOn && gen.freq == settings.freq
      ensures genBus == old(genBus) + SquareWords(settings.freq) && potBus == old(potBus)
    {
      SetFreq(settings.freq);
      SetPower(settings.power);
      SetRunMode(settings.runMode, settings.runTimer);
      SetCtlMode(settings.ctlMode);
    }

    /**
     * AdjustPower: one regulator step; a changed wiper is sent to the power
     * potentiometer.
     */
    method AdjustPower()
      requires Valid()
      modifies this
      ensures Valid()
      ensures curr == old(curr).(pwmWiper := AdjustedWiper(settings, old(curr))) && settings == old(settings)
      ensures potBus == old(potBus) +
                (if curr.pwmWiper == old(curr.pwmWiper) then [] else Mcp41x1.SetWiper(curr.pwmWiper))
      ensures genBus == old(genBus)
    {
      if !curr.on {
        return;
      }
      if curr.power > settings.power {
        if curr.pwm == 0 {
          return;
        }
        if curr.pwmWiper == 0 {
          return;
        }
        curr := curr.(pwmWiper := curr.pwmWiper - 1);
        potBus := potBus + Mcp41x1.SetWiper(curr.pwmWiper);
        return;
      }
      if curr.power < settings.power {
        if curr.pwm > 96 * 10 {
          return;
        }
        if curr.pwmWiper >= PWMPOT_MAX_WIPER {
          return;
        }
        curr := curr.(pwmWiper := curr.pwmWiper + 1);
        potBus := potBus + Mcp41x1.SetWiper(curr.pwmWiper);
        return;
      }
    }

    /**
     * TransducerUpdate: the capture and the sensor are drained, the measurements
     * copied into the status and the power computed, then a timed run counts down.
     * The power regulator is not called (it is commented out in the source).
     */
    method Update()
      requires Valid() && sensor.cycles > 0
      modifies this, capture, sensor
      ensures Valid() && settings == old(settings)
      ensures curr == Countdown(settings, Measure(old(curr), capture.freq, capture.pwm, sensor.GetCurrent()))
      ensures capture.freqTotal == 0 && capture.pwmTotal == 0 && capture.freqCycles == 0
      ensures old(capture.freqTotal) == 0 ==> capture.pwm == 0 && capture.freq == 0
      ensures old(capture.freqTotal) != 0 ==>
                capture.pwm == PwmCapture.DutyPerMille(old(capture.pwmTotal), old(capture.freqTotal)) &&
                capture.freq == PwmCapture.FrequencyHz(capture.fCpu, old(capture.freqCycles), old(capture.freqTotal))
      ensures sensor.total == 0 && sensor.cycles == 0
      ensures sensor.current == CurrentSensor.Current(old(sensor.total), old(sensor.cycles))
      ensures genBus == old(genBus) && potBus == old(potBus)
    {
      capture.Update();
      sensor.Update();
      curr := curr.(freq := capture.GetPWMFreq());
      curr := curr.(pwm := U16(capture.GetPWM() * 2));
      curr := curr.(current := sensor.GetCurrent());
      curr := curr.(power := PowerOf(curr.current, curr.pwm));
      if curr.on && settings.runMode == RunTimed {
        curr := curr.(runTimer := U16(curr.runTimer - 1));
        if curr.runTimer == 0 {
          On(false);
        }
      }
    }
  }
}
