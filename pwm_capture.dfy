/**
 * The PWM measurement of PWM.c. The input-capture interrupt timestamps the edges of
 * the drive signal (uint16 timer ticks): a falling edge, then a rising edge, then the
 * next rising edge closes one cycle, whose period and high time are added to running
 * totals. Only one cycle in ten is measured. PWMUpdate drains the totals and reduces
 * them to a duty cycle in tenths of a percent and a frequency in Hz.
 */
module PwmCapture {
  import opened FixedWidth

  const SKIP_MAX: int := 10

  /**
   * The duty cycle of a drained measurement in tenths of a percent: the uint32
   * quotient PWMTotal*1000/FreqTotal, stored in a uint16.
   */
  function DutyPerMille(pwmTotal: nat, freqTotal: nat): (duty: nat)
    requires IsU16(pwmTotal) && IsU16(freqTotal) && freqTotal > 0
    ensures IsU16(duty)
    ensures pwmTotal <= freqTotal ==>
              duty <= 1000 && duty * freqTotal <= pwmTotal * 1000 < (duty + 1) * freqTotal
  {
    assert pwmTotal * 1000 < U32_MOD;
    var q := U32(pwmTotal * 1000) / freqTotal;
    if pwmTotal <= freqTotal then
      QuotientBounds(pwmTotal * 1000, freqTotal, 1000, q);
      U16(q)
    else
      U16(q)
  }

  /** A quotient of a numerator at most bound*d by d is at most bound, and brackets it. */
  lemma QuotientBounds(n: nat, d: nat, bound: nat, q: nat)
    requires d > 0 && q == n / d && n <= bound * d
    ensures q <= bound && q * d <= n < (q + 1) * d
  {
    DivisionRemainder(n, d);
    if q > bound {
      MulMonotonic(bound + 1, q, d);
    }
  }

  /**
   * The frequency of a drained measurement in Hz: cycles counted over the ticks they
   * took at fCpu ticks per second, as the uint32 quotient fCpu*Cycles/FreqTotal
   * stored in a uint16.
   */
  function FrequencyHz(fCpu: nat, cycles: nat, freqTotal: nat): (hz: nat)
    requires IsU32(fCpu) && IsU16(cycles) && IsU16(freqTotal) && freqTotal > 0
    ensures IsU16(hz)
    ensures fCpu * cycles < U32_MOD && fCpu * cycles / freqTotal < U16_MOD ==>
              hz * freqTotal <= fCpu * cycles < (hz + 1) * freqTotal
  {
    QuotientNoWrap(fCpu * cycles, freqTotal);
    U16(U32(fCpu * cycles) / freqTotal)
  }

  /** When nothing wraps, the narrowed quotient is the whole number of d's in n. */
  lemma QuotientNoWrap(n: nat, d: nat)
    requires d > 0
    ensures var q := U16(U32(n) / d);
            n < U32_MOD && n / d < U16_MOD ==> q * d <= n < (q + 1) * d
  {
    if n < U32_MOD && n / d < U16_MOD {
      var q := n / d;
      assert U32(n) == n;
      assert U16(q) == q;
      DivisionRemainder(n, d);
      assert (q + 1) * d == q * d + d;
    }
  }

  /** The static PWM record. fCpu is the CPU clock (F_CPU), which drives the timer. */
  class Capture {
    const fCpu: nat
    var captLow: nat
    var captHigh: nat
    var freqTotal: nat
    var freqCycles: nat
    var pwmTotal: nat
    var pwm: nat
    var freq: nat
    var skipCount: int
    var freqEnd: bool
    /** The ICES bit of TCCRB: the next capture is on a rising edge. */
    var risingEdge: bool

    ghost predicate Valid()
      reads this
    {
      IsU32(fCpu) && IsU16(captLow) && IsU16(captHigh) && IsU16(freqTotal) &&
      IsU16(freqCycles) && IsU16(pwmTotal) && IsU16(pwm) && IsU16(freq) && IsI8(skipCount)
    }

    constructor(fCpu: nat)
      requires IsU32(fCpu)
      ensures Valid() && this.fCpu == fCpu
    {
      this.fCpu := fCpu;
      captLow, captHigh, freqTotal, freqCycles, pwmTotal, pwm, freq := 0, 0, 0, 0, 0, 0, 0;
      skipCount, freqEnd, risingEdge := 0, false, false;
    }

    /** PWMInit: everything zero, SkipCount at SKIP_MAX, capturing falling edges. */
    method Init()
      requires Valid()
      modifies this
      ensures Valid()
      ensures captLow == 0 && captHigh == 0 && freqTotal == 0 && freqCycles == 0 && pwmTotal == 0
      ensures pwm == 0 && freq == 0 && skipCount == SKIP_MAX && !freqEnd && !risingEdge
    {
      captLow, captHigh, freqTotal, freqCycles, pwmTotal, pwm, freq := 0, 0, 0, 0, 0, 0, 0;
      freqEnd := false;
      skipCount := SKIP_MAX;
      risingEdge := false;
    }

    /**
     * PWMUpdate: take the totals and zero them (one atomic step), then reduce them,
     * with no division when no tick was counted.
     */
    method Update()
      requires Valid()
      modifies this
      ensures Valid()
      ensures freqTotal == 0 && pwmTotal == 0 && freqCycles == 0
      ensures old(freqTotal) == 0 ==> pwm == 0 && freq == 0
      ensures old(freqTotal) != 0 ==>
                pwm == DutyPerMille(old(pwmTotal), old(freqTotal)) &&
                freq == FrequencyHz(fCpu, old(freqCycles), old(freqTotal))
      ensures old(pwmTotal) <= old(freqTotal) ==> pwm <= 1000
      ensures captLow == old(captLow) && captHigh == old(captHigh) && skipCount == old(skipCount)
      ensures freqEnd == old(freqEnd) && risingEdge == old(risingEdge)
    {
      var freqLocal, pwmLocal, cyclesLocal := freqTotal, pwmTotal, freqCycles;
      freqTotal, pwmTotal, freqCycles := 0, 0, 0;
      if freqLocal == 0 {
        pwm, freq := 0, 0;
      } else {
        pwm := DutyPerMille(pwmLocal, freqLocal);
        freq := FrequencyHz(fCpu, cyclesLocal, freqLocal);
      }
    }

    /** GetPWM: the last duty cycle, in tenths of a percent. */
    function GetPWM(): (p: nat)
      reads this
      requires Valid()
      ensures IsU16(p)
    {
      pwm
    }

    /** GetPWMFreq: the last frequency, in Hz. */
    function GetPWMFreq(): (f: nat)
      reads this
      requires Valid()
      ensures IsU16(f)
    {
      freq
    }

    /** The low time of the cycle being measured: from the falling to the first rising edge. */
    function LowTime(): nat
      reads this
    {
      U16(captHigh - captLow)
    }

    /**
     * The capture interrupt with timer value icr. SkipCount is pre-decremented and
     * only a count at or below zero goes on; it is reset only when a cycle closes,
     * so the falling edge and both rising edges after a skip are taken back to back.
     */
    method Isr(icr: nat)
      requires Valid() && IsU16(icr)
      modifies this
      ensures Valid() && pwm == old(pwm) && freq == old(freq)
      ensures I8(old(skipCount) - 1) > 0 ==>
                skipCount == I8(old(skipCount) - 1) &&
                captLow == old(captLow) && captHigh == old(captHigh) && freqEnd == old(freqEnd) &&
                risingEdge == old(risingEdge) && freqTotal == old(freqTotal) &&
                pwmTotal == old(pwmTotal) && freqCycles == old(freqCycles)
      // falling edge: note when the low phase started, then wait for a rising edge
      ensures I8(old(skipCount) - 1) <= 0 && !old(risingEdge) ==>
                skipCount == I8(old(skipCount) - 1) &&
                captLow == icr && !freqEnd && risingEdge && captHigh == old(captHigh) &&
                freqTotal == old(freqTotal) && pwmTotal == old(pwmTotal) && freqCycles == old(freqCycles)
      // first rising edge: note when the cycle started
      ensures I8(old(skipCount) - 1) <= 0 && old(risingEdge) && !old(freqEnd) ==>
                skipCount == I8(old(skipCount) - 1) &&
                captHigh == icr && freqEnd && risingEdge && captLow == old(captLow) &&
                freqTotal == old(freqTotal) && pwmTotal == old(pwmTotal) && freqCycles == old(freqCycles)
      // second rising edge: one whole period, of which the part after LowTime was high
      ensures I8(old(skipCount) - 1) <= 0 && old(risingEdge) && old(freqEnd) ==>
                var period := U16(icr - old(captHigh));
                skipCount == SKIP_MAX && !risingEdge && freqEnd &&
                captLow == old(captLow) && captHigh == old(captHigh) &&
                freqTotal == U16(old(freqTotal) + period) &&
                pwmTotal == U16(old(pwmTotal) + period - old(LowTime())) &&
                freqCycles == U16(old(freqCycles) + 1) &&
                (old(pwmTotal) <= old(freqTotal) && old(LowTime()) <= period &&
                 old(freqTotal) + period < U16_MOD ==>
                   pwmTotal <= freqTotal)
    {
      skipCount := I8(skipCount - 1);
      if skipCount > 0 {
        return;
      }
      if !risingEdge {
        captLow := icr;
        freqEnd := false;
        risingEdge := true;
        return;
      }
      if !freqEnd {
        captHigh := icr;
        freqEnd := true;
        return;
      }
      CloseCycle(icr);
    }

    /** The second rising edge of Isr: add one period and its high time to the totals. */
    method CloseCycle(icr: nat)
      requires Valid() && IsU16(icr)
      modifies this
      ensures Valid() && pwm == old(pwm) && freq == old(freq)
      ensures var period := U16(icr - old(captHigh));
              skipCount == SKIP_MAX && !risingEdge && freqEnd == old(freqEnd) &&
              captLow == old(captLow) && captHigh == old(captHigh) &&
              freqTotal == U16(old(freqTotal) + period) &&
              pwmTotal == U16(old(pwmTotal) + period - old(LowTime())) &&
              freqCycles == U16(old(freqCycles) + 1) &&
              (old(pwmTotal) <= old(freqTotal) && old(LowTime()) <= period &&
               old(freqTotal) + period < U16_MOD ==>
                 pwmTotal <= freqTotal)
    {
      var freqCount := U16(icr - captHigh);
      if pwmTotal <= freqTotal && LowTime() <= freqCount && freqTotal + freqCount < U16_MOD {
        PwmWithinFreq(freqTotal, pwmTotal, freqCount, LowTime());
      }
      freqTotal := U16(freqTotal + freqCount);
      pwmTotal := U16(pwmTotal + freqCount - U16(captHigh - captLow));
      freqCycles := U16(freqCycles + 1);
      skipCount := SKIP_MAX;
      risingEdge := false;
    }
  }

  /** A high time no longer than the period keeps the PWM total within the period total. */
  lemma PwmWithinFreq(ft: int, pt: int, period: int, low: int)
    requires 0 <= low && 0 <= pt <= ft && low <= period && ft + period < U16_MOD
    ensures U16(pt + period - low) <= U16(ft + period)
  {
    assert IsU16(pt + period - low);
  }
}
