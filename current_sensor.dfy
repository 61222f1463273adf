/**
 * The ACS712 current sensor of ACS712.c. The ADC interrupt restarts a conversion
 * every time and adds one sample in sixteen to a running total; ACS712Update drains
 * the total and turns its average into a voltage (hundredths of a volt over a 5 V,
 * 10-bit range) and then a current in tenths of an ampere. ACS712_REVERSE is
 * defined, so the current is 250 minus the voltage.
 */
module CurrentSensor {
  import opened FixedWidth

  const ACS712_SKIP: nat := 16
  const MAX_ADC: nat := 0x3FF
  /** Full-scale ADC voltage in hundredths of a volt. */
  const VADC: nat := 500

  /**
   * MAX_ADC*Cycles, computed in the AVR's 16-bit int: exact up to 32 cycles and
   * wrapped from 33 on (negative from 33 to 64). It is never zero for a non-zero count.
   */
  function AdcDivisor(cycles: nat): (d: int)
    requires 0 < cycles < U8_MOD
    ensures IsI16(d) && d != 0
    ensures cycles <= 32 ==> d == MAX_ADC * cycles
    ensures cycles >= 33 ==> d != MAX_ADC * cycles
    ensures 33 <= cycles <= 64 ==> d < 0
  {
    var x := MAX_ADC * cycles;
    assert x != 0x1_0000 && x != 0x2_0000 && x != 0x3_0000 && x < 0x4_0000;
    I16(x)
  }

  /**
   * The voltage of a drained measurement: the total read as an int16, times VADC,
   * over the 16-bit divisor, in 32-bit arithmetic with C's truncating division.
   */
  function Voltage(total: nat, cycles: nat): (v: int)
    requires IsU16(total) && 0 < cycles < U8_MOD
    ensures v == CDiv(I16(total) * VADC, AdcDivisor(cycles))
    ensures cycles <= 32 && total <= MAX_ADC * cycles ==>
              0 <= v <= VADC && v * (MAX_ADC * cycles) <= total * VADC < (v + 1) * (MAX_ADC * cycles)
  {
    var v := CDiv(I16(total) * VADC, AdcDivisor(cycles));
    VoltageInRange(total, cycles, v);
    v
  }

  lemma VoltageInRange(total: nat, cycles: nat, v: int)
    requires IsU16(total) && 0 < cycles < U8_MOD
    requires v == CDiv(I16(total) * VADC, AdcDivisor(cycles))
    ensures cycles <= 32 && total <= MAX_ADC * cycles ==>
              0 <= v <= VADC && v * (MAX_ADC * cycles) <= total * VADC < (v + 1) * (MAX_ADC * cycles)
  {
    if cycles <= 32 && total <= MAX_ADC * cycles {
      assert IsI16(total);
      CDivNonNegative(total * VADC, MAX_ADC * cycles);
      VoltageBounds(total, MAX_ADC * cycles, v);
    }
  }

  lemma VoltageBounds(total: nat, d: nat, v: int)
    requires 0 < d && total <= d && v == (total * VADC) / d
    ensures 0 <= v <= VADC && v * d <= total * VADC < (v + 1) * d
  {
    DivisionRemainder(total * VADC, d);
    MulMonotonic(total, d, VADC);
    if v > VADC {
      MulMonotonic(VADC + 1, v, d);
    }
  }

  /** The current in tenths of an ampere (reverse mode), stored in an int16. */
  function Current(total: nat, cycles: nat): (c: int)
    requires IsU16(total) && 0 < cycles < U8_MOD
    ensures IsI16(c)
    ensures cycles <= 32 && total <= MAX_ADC * cycles ==>
              c == 250 - Voltage(total, cycles) && -250 <= c <= 250
  {
    I16(250 - Voltage(total, cycles))
  }

  /** The static ACS712 record. `samples` counts conversions since ACS712Init. */
  class Sensor {
    var current: int
    var total: nat
    var cycles: nat
    var skipCount: nat
    ghost var samples: nat

    ghost predicate Valid()
      reads this
    {
      IsI16(current) && IsU16(total) && IsU8(cycles) &&
      skipCount == ACS712_SKIP - samples % ACS712_SKIP
    }

    constructor()
      ensures Valid() && samples == 0
    {
      current, total, cycles, skipCount := 0, 0, 0, ACS712_SKIP;
      samples := 0;
    }

    /** ACS712Init: everything zero, SkipCount at ACS712_SKIP. */
    method Init()
      modifies this
      ensures Valid() && samples == 0
      ensures current == 0 && total == 0 && cycles == 0 && skipCount == ACS712_SKIP
    {
      current, total, cycles := 0, 0, 0;
      skipCount := ACS712_SKIP;
      samples := 0;
    }

    /**
     * ACS712Update: take the total and cycle count and zero them (one atomic step),
     * then compute the current. The division has no guard, so at least one sample
     * must have been accumulated.
     */
    method Update()
      requires Valid() && cycles > 0
      modifies this
      ensures Valid() && samples == old(samples) && skipCount == old(skipCount)
      ensures total == 0 && cycles == 0
      ensures current == Current(old(total), old(cycles))
    {
      var totalLocal, cyclesLocal := total, cycles;
      total, cycles := 0, 0;
      current := Current(totalLocal, cyclesLocal);
    }

    /** ACS712GetCurrent: the int16 current returned as a uint16, so negatives wrap. */
    function GetCurrent(): (r: nat)
      reads this
      requires Valid()
      ensures IsU16(r)
      ensures current >= 0 ==> r == current
      ensures current < 0 ==> r == current + U16_MOD
    {
      U16(current)
    }

    /**
     * The ADC interrupt with conversion result adc: the sample is added (and the
     * cycle counted) only on every ACS712_SKIP-th conversion.
     */
    method Isr(adc: nat)
      requires Valid() && adc <= MAX_ADC
      modifies this
      ensures Valid() && samples == old(samples) + 1 && current == old(current)
      ensures samples % ACS712_SKIP != 0 ==> total == old(total) && cycles == old(cycles)
      ensures samples % ACS712_SKIP == 0 ==>
                total == U16(old(total) + adc) && cycles == U8(old(cycles) + 1)
    {
      samples := samples + 1;
      skipCount := U8(skipCount - 1);
      if skipCount > 0 {
        return;
      }
      skipCount := ACS712_SKIP;
      cycles := U8(cycles + 1);
      total := U16(total + adc);
    }
  }
}
