/**
 * The snapshot a sensor read returns (`CountData`) and the readings derived
 * from it: rotation rate in revolutions per minute, and revolutions.
 */
module Readings {
  import opened Word32

  /** The sentinel a rate or revolution read returns while the sensor is disabled. */
  const NO_READING: int := -1

  /** Microseconds in one minute: the numerator of the rate formula. */
  const MICROS_PER_MINUTE: int := 60000000

  datatype CountData = CountData(
    Count: u32,          // pulses since the last reset
    LastCountTime: u32,  // clock value of the last pulse
    LastInterval: u32,   // microseconds between the last two pulses, 0 if unknown
    CountsPerRev: u8,    // the sensor's pulses per revolution
    SensorID: u8)        // the sensor's pin
  {
    /**
     * The divisor of the rate formula, `LastInterval * CountsPerRev` computed
     * in 32-bit unsigned arithmetic (so it wraps for very long intervals).
     */
    function Divisor(): (r: u32)
      ensures LastInterval * CountsPerRev < TWO_32 ==> r == LastInterval * CountsPerRev
      ensures (LastInterval * CountsPerRev - r) % TWO_32 == 0
    {
      Mul(LastInterval, CountsPerRev)
    }

    /** The rate formula does not divide by zero. */
    predicate RpmDefined()
    {
      LastInterval == 0 || Divisor() != 0
    }

    /**
     * Revolutions per minute: 0 when no interval is known, otherwise the
     * whole number of times the time of one revolution fits into a minute
     * (the quotient truncated toward zero).
     */
    function RPM(): (r: int)
      requires RpmDefined()
      ensures 0 <= r
      ensures LastInterval == 0 ==> r == 0
      ensures LastInterval != 0 ==> r * Divisor() <= MICROS_PER_MINUTE < (r + 1) * Divisor()
    {
      if LastInterval == 0 then 0
      else
        var d := Divisor();
        QuotientBounds(MICROS_PER_MINUTE, d);
        MICROS_PER_MINUTE / d
    }

    /**
     * Revolutions since the last reset, as an exact fraction (an idealisation
     * of the single-precision division the driver performs).
     */
    function Revs(): (r: real)
      requires CountsPerRev != 0
      ensures r * CountsPerRev as real == Count as real
      ensures 0.0 <= r
    {
      Count as real / CountsPerRev as real
    }
  }

  /** The default snapshot: every field zero. */
  const Default: CountData := CountData(0, 0, 0, 0, 0)

  /** Truncated division brackets its numerator between two multiples of the divisor. */
  lemma QuotientBounds(n: nat, d: int)
    requires 0 < d
    ensures 0 <= n / d
    ensures (n / d) * d <= n < (n / d + 1) * d
  {
  }

  /** The default snapshot has all five fields zero, so it has no interval and its rate is 0. */
  lemma DefaultReadsZero()
    ensures Default.Count == 0 && Default.LastCountTime == 0 && Default.LastInterval == 0
    ensures Default.CountsPerRev == 0 && Default.SensorID == 0
    ensures Default.RpmDefined() && Default.RPM() == 0
  {
  }

  /**
   * The disabled sentinel differs from every rate the formula can produce and
   * from every pulse count.
   */
  lemma NoReadingIsDistinct(d: CountData)
    requires d.RpmDefined()
    ensures d.RPM() != NO_READING
    ensures d.Count != NO_READING
    ensures d.CountsPerRev != 0 ==> d.Revs() != NO_READING as real
  {
  }

  /**
   * When the 32-bit product does not wrap, the rate is the exact truncated
   * quotient of a minute by the time per revolution.
   */
  lemma RpmWithoutWrap(d: CountData)
    requires d.LastInterval != 0 && d.CountsPerRev != 0
    requires d.LastInterval * d.CountsPerRev < TWO_32
    ensures d.RpmDefined()
    ensures d.RPM() == MICROS_PER_MINUTE / (d.LastInterval * d.CountsPerRev)
  {
    assert d.LastInterval * d.CountsPerRev > 0 by {
      PositiveProduct(d.LastInterval, d.CountsPerRev);
    }
  }

  lemma PositiveProduct(a: int, b: int)
    requires 0 < a && 0 < b
    ensures 0 < a * b
  {
  }
}
