/**
 * The system tick of Timer.c and the time macros of Timer.h. The compare-match
 * interrupt fires every fifth of a tick period; every TIMER_COUNT-th interrupt marks
 * one tick, and TimerUpdate turns each observed tick into 40 ms of clock time.
 */
module Timer {
  import opened FixedWidth

  const TICKS_PER_SEC: nat := 25
  const TIMER_COUNT: nat := 5
  const MS_PER_TICK: nat := 1000 / TICKS_PER_SEC

  lemma MsPerTickValue()
    ensures MS_PER_TICK == 40 && MS_PER_TICK * TICKS_PER_SEC == 1000
  {
  }

  /** SECONDS(t): the number of ticks in t seconds, as a TIME_T (uint32). */
  function Seconds(t: nat): (r: nat)
    ensures IsU32(r) && r == U32(25 * t)
  {
    var q := (t * 1000 + MS_PER_TICK / 2) / MS_PER_TICK;
    DivUnique(t * 1000 + 20, 40, 25 * t, 20);
    U32(q)
  }

  /** Multiplying before or after reducing modulo 2^32 gives the same uint32. */
  lemma {:induction false} U32Scale(k: nat, x: int)
    ensures U32(k * U32(x)) == U32(k * x)
  {
    var m := (x - U32(x)) / U32_MOD;
    assert x == U32(x) + m * U32_MOD;
    assert k * x == k * U32(x) + (k * m) * U32_MOD;
    DivUnique(k * x, U32_MOD, (k * U32(x)) / U32_MOD + k * m, (k * U32(x)) % U32_MOD);
  }

  /** MINUTES(t): 60 times SECONDS(t), again as a uint32. */
  function Minutes(t: nat): (r: nat)
    ensures IsU32(r) && r == U32(1500 * t)
  {
    U32Scale(60, 25 * t);
    U32(60 * Seconds(t))
  }

  /** HOURS(t): 60 times MINUTES(t), again as a uint32. */
  function Hours(t: nat): (r: nat)
    ensures IsU32(r) && r == U32(90000 * t)
  {
    U32Scale(60, 1500 * t);
    U32(60 * Minutes(t))
  }

  /** For times that fit in a TIME_T, 25 ticks per second, 60 seconds per minute, 60 minutes per hour. */
  lemma TimesExact(t: nat)
    requires 90000 * t < U32_MOD
    ensures Seconds(t) == TICKS_PER_SEC * t
    ensures Minutes(t) == 60 * Seconds(t) && Hours(t) == 60 * Minutes(t)
  {
  }

  /**
   * The Timer record. `ticks` counts the ticks TimerUpdate has processed and
   * `interrupts` the compare-match interrupts since TimerInit; neither exists in
   * the firmware.
   */
  class Clock {
    var seconds: nat
    var ms: nat
    var countdown: nat
    var changed: bool
    ghost var ticks: nat
    ghost var interrupts: nat

    /** Seconds and MS always hold 40 ms per processed tick, Seconds wrapping at 2^32. */
    ghost predicate Valid()
      reads this
    {
      ms == (MS_PER_TICK * ticks) % 1000 &&
      seconds == ((MS_PER_TICK * ticks) / 1000) % U32_MOD &&
      countdown == TIMER_COUNT - interrupts % TIMER_COUNT
    }

    constructor()
      ensures Valid() && ticks == 0 && interrupts == 0
    {
      seconds, ms, countdown, changed := 0, 0, TIMER_COUNT, false;
      ticks, interrupts := 0, 0;
    }

    /** TimerInit: all zero, with the countdown at TIMER_COUNT. */
    method Init()
      modifies this
      ensures Valid() && ticks == 0 && interrupts == 0
      ensures seconds == 0 && ms == 0 && countdown == TIMER_COUNT && !changed
    {
      seconds, ms, changed := 0, 0, false;
      countdown := TIMER_COUNT;
      ticks, interrupts := 0, 0;
    }

    /** TimerGetSeconds. */
    function GetSeconds(): (s: nat)
      reads this
      requires Valid()
      ensures IsU32(s) && s == ((MS_PER_TICK * ticks) / 1000) % U32_MOD
    {
      seconds
    }

    /** TimerGetMS. */
    function GetMS(): (m: nat)
      reads this
      requires Valid()
      ensures m < 1000 && m % MS_PER_TICK == 0
    {
      assert (MS_PER_TICK * ticks) % 1000 == 40 * (ticks % 25) by {
        DivUnique(40 * ticks, 1000, ticks / 25, 40 * (ticks % 25));
      }
      ms
    }

    /**
     * TimerUpdate: without a pending tick, false and nothing changes; otherwise
     * 40 ms more on the clock (carrying into Seconds), the tick consumed, and true.
     */
    method Update() returns (ticked: bool)
      requires Valid()
      modifies this
      ensures Valid() && interrupts == old(interrupts) && countdown == old(countdown)
      ensures ticked == old(changed) && !changed
      ensures !ticked ==> seconds == old(seconds) && ms == old(ms) && ticks == old(ticks)
      ensures ticked ==> ticks == old(ticks) + 1
      ensures ticked ==> if old(ms) + MS_PER_TICK >= 1000
                         then ms == old(ms) + MS_PER_TICK - 1000 && seconds == U32(old(seconds) + 1)
                         else ms == old(ms) + MS_PER_TICK && seconds == old(seconds)
    {
      if !changed {
        return false;
      }
      AdvanceLemma(ticks);
      ms := ms + MS_PER_TICK;
      if ms >= 1000 {
        ms := ms - 1000;
        seconds := U32(seconds + 1);
      }
      changed := false;
      ticks := ticks + 1;
      ticked := true;
    }

    /**
     * The compare-match interrupt: count down, and at zero restart the countdown and
     * flag a tick. The flag is a boolean, so ticks not yet seen by TimerUpdate merge.
     */
    method Isr()
      requires Valid()
      modifies this
      ensures Valid() && interrupts == old(interrupts) + 1
      ensures ticks == old(ticks) && seconds == old(seconds) && ms == old(ms)
      ensures changed == (old(changed) || interrupts % TIMER_COUNT == 0)
    {
      countdown := U16(countdown - 1);
      interrupts := interrupts + 1;
      if countdown != 0 {
        return;
      }
      countdown := TIMER_COUNT;
      changed := true;
    }
  }

  /** One more tick adds 40 ms, carrying into the seconds (which wrap at 2^32). */
  lemma AdvanceLemma(t: nat)
    ensures (40 * (t + 1)) % 1000 ==
            if (40 * t) % 1000 + 40 >= 1000 then (40 * t) % 1000 + 40 - 1000 else (40 * t) % 1000 + 40
    ensures ((40 * (t + 1)) / 1000) % U32_MOD ==
            if (40 * t) % 1000 + 40 >= 1000
            then U32(((40 * t) / 1000) % U32_MOD + 1)
            else ((40 * t) / 1000) % U32_MOD
  {
    var q, r := (40 * t) / 1000, (40 * t) % 1000;
    if r + 40 >= 1000 {
      DivUnique(40 * (t + 1), 1000, q + 1, r + 40 - 1000);
      U32Scale(1, q + 1);
      assert U32(q % U32_MOD + 1) == U32(q + 1) by {
        DivUnique(q, U32_MOD, q / U32_MOD, q % U32_MOD);
        var s := q % U32_MOD + 1;
        if s == U32_MOD {
          DivUnique(q + 1, U32_MOD, q / U32_MOD + 1, 0);
        } else {
          DivUnique(q + 1, U32_MOD, q / U32_MOD, s);
        }
      }
    } else {
      DivUnique(40 * (t + 1), 1000, q, r + 40);
    }
  }
}
