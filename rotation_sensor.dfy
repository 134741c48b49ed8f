/**
 * The rotation sensor driver: one `RotationSensor` object per sensor, and the
 * process-wide dispatch table `Dispatcher` with one slot per interrupt line.
 *
 * Hardware interrupts are modelled as explicit, sequential calls of the
 * dispatcher's entry points `Isr0` and `Isr1`; the clock value the handler
 * would read from the platform is passed in as `now`. Every method is
 * therefore atomic, and the critical sections of the driver are implicit.
 *
 * Configuration fields: the driver packs pulses per revolution into 8 bits,
 * the pin into 5 bits and the interrupt line into 2 unsigned bits. The model
 * keeps their intended meaning instead of the truncation: the constructor
 * requires a pin below 32 and a pulses-per-revolution value of at most 255,
 * and the line is an `Option<LineIndex>` (see InterruptLines for what the
 * 2-bit field does to NOT_AN_INTERRUPT as written).
 */
module RotationSensorDriver {
  import opened Word32
  import opened Wrappers
  import opened InterruptLines
  import opened PulseState
  import opened Readings

  /** A pin number that fits the 5-bit configuration field. */
  type PinNumber = p: int | 0 <= p < 32

  /** A pulses-per-revolution setting: at least 1, and fits the 8-bit field. */
  type PulsesPerRev = n: int | 1 <= n < 0x100 witness 1

  class RotationSensor {
    const pin: PinNumber
    const pulsesPerRev: PulsesPerRev
    const line: Option<LineIndex>
    var enabled: bool

    // The counter triple written by the interrupt handler.
    var count: u32
    var lastPulseTime: u32
    var prevPulseTime: u32

    /** The counter triple as a value. */
    ghost function State(): SensorState
      reads this
    {
      SensorState(count, lastPulseTime, prevPulseTime)
    }

    /**
     * A sensor on `pin`, with `pulsesPerRev` clamped to at least 1;
     * `resolvedLine` is the platform's interrupt line for the pin (or
     * NOT_AN_INTERRUPT), passed first so that `pulsesPerRev` keeps its
     * default of 1. The sensor starts disabled with zero counters.
     */
    constructor (resolvedLine: int, pin: int, pulsesPerRev: int := 1)
      requires 0 <= pin < 32
      requires pulsesPerRev < 0x100
      ensures this.pin == pin
      ensures this.pulsesPerRev == if pulsesPerRev < 1 then 1 else pulsesPerRev
      ensures line == ResolveLine(resolvedLine)
      ensures !enabled
      ensures State() == Zero
    {
      this.pin := pin;
      this.pulsesPerRev := if 1 < pulsesPerRev then pulsesPerRev else 1;
      line := ResolveLine(resolvedLine);
      enabled := false;
      count, lastPulseTime, prevPulseTime := 0, 0, 0;
    }

    /** Zeroes the counter triple; the configuration and the table are untouched. */
    method Reset()
      modifies this`count, this`lastPulseTime, this`prevPulseTime
      ensures State() == Zero
    {
      count := 0;
      lastPulseTime := 0;
      prevPulseTime := 0;
    }

    /**
     * Turns counting on or off. A pin without an interrupt line changes
     * nothing. Turning on from off resets the counters and binds this sensor
     * to its line's slot (evicting any other occupant); turning on when
     * already on changes nothing; turning off always empties the slot of the
     * sensor's line, whoever occupied it.
     */
    method Enable(table: Dispatcher, on: bool := true)
      requires table.slots.Length == LINE_COUNT
      modifies this`enabled, this`count, this`lastPulseTime, this`prevPulseTime, table.slots
      ensures line.None? ==>
        enabled == old(enabled) && State() == old(State()) && table.slots[..] == old(table.slots[..])
      ensures line.Some? ==> enabled == on
      ensures line.Some? && on && !old(enabled) ==>
        State() == Zero && table.slots[..] == old(table.slots[..])[line.value := this]
      ensures line.Some? && on && old(enabled) ==>
        State() == old(State()) && table.slots[..] == old(table.slots[..])
      ensures line.Some? && !on ==>
        State() == old(State()) && table.slots[..] == old(table.slots[..])[line.value := null]
      ensures old(table.Coherent()) ==> table.Coherent()
    {
      if line.None? {
        return;
      }
      var irq := line.value;
      if on && !enabled {
        Reset();
        table.slots[irq] := this;
      } else if !on {
        table.slots[irq] := null;
      }
      enabled := on;
    }

    /** Exactly `Enable(table, false)`. */
    method Disable(table: Dispatcher)
      requires table.slots.Length == LINE_COUNT
      modifies this`enabled, this`count, this`lastPulseTime, this`prevPulseTime, table.slots
      ensures line.None? ==>
        enabled == old(enabled) && State() == old(State()) && table.slots[..] == old(table.slots[..])
      ensures line.Some? ==>
        !enabled && State() == old(State()) && table.slots[..] == old(table.slots[..])[line.value := null]
      ensures old(table.Coherent()) ==> table.Coherent()
    {
      Enable(table, false);
    }

    /** Counting is on: the pin has a line and the flag is set. */
    predicate Enabled()
      reads this
      ensures Enabled() ==> line.Some?
    {
      line.Some? && enabled
    }

    /** The pulses-per-revolution setting. */
    function Resolution(): (r: int)
      ensures 1 <= r < 0x100
      ensures r == pulsesPerRev
    {
      pulsesPerRev
    }

    /** The sensor's identity: its pin number. */
    function ID(): (r: int)
      ensures 0 <= r < 32
      ensures r == pin
    {
      pin
    }

    /** What `Read` returns in the current state. */
    ghost function Snapshot(): (d: CountData)
      reads this
      ensures d.SensorID == pin && d.CountsPerRev == pulsesPerRev
      ensures !Enabled() ==> d.Count == 0 && d.LastCountTime == 0 && d.LastInterval == 0
      ensures Enabled() ==> d.Count == count && d.LastCountTime == lastPulseTime
      ensures Enabled() ==> d.LastInterval == State().Interval()
    {
      var d := Default.(SensorID := pin, CountsPerRev := pulsesPerRev);
      if Enabled() then
        d.(Count := count, LastCountTime := lastPulseTime, LastInterval := State().Interval())
      else
        d
    }

    /**
     * A snapshot of the counters: identity and resolution always, and the
     * count, last pulse time and last interval only while enabled.
     */
    method Read() returns (data: CountData)
      ensures data == Snapshot()
      ensures data.SensorID == pin && data.CountsPerRev == pulsesPerRev
      ensures !Enabled() ==> data.Count == 0 && data.LastCountTime == 0 && data.LastInterval == 0
      ensures Enabled() && prevPulseTime == 0 ==> data.LastInterval == 0
      ensures Enabled() && prevPulseTime != 0 ==> Add(prevPulseTime, data.LastInterval) == lastPulseTime
    {
      data := Default;
      data := data.(SensorID := pin);
      data := data.(CountsPerRev := pulsesPerRev);
      if Enabled() {
        var c := count;
        var endTime := lastPulseTime;
        var prevTime := prevPulseTime;
        data := data.(Count := c);
        data := data.(LastCountTime := endTime);
        data := data.(LastInterval := if prevTime == 0 then 0 else Sub(endTime, prevTime));
      }
    }

    /** The pulse count alone: 0 while disabled, and the count `Read` would report. */
    method ReadCount() returns (n: u32)
      ensures !Enabled() ==> n == 0
      ensures Enabled() ==> n == count
      ensures n == Snapshot().Count
    {
      n := 0;
      if Enabled() {
        n := count;
      }
    }

    /**
     * The rotation rate: NO_READING while disabled, otherwise the rate of the
     * current snapshot (0 until two pulses have been timed).
     */
    method ReadRPM() returns (rpm: int)
      requires Enabled() ==> Snapshot().RpmDefined()
      ensures !Enabled() ==> rpm == NO_READING
      ensures Enabled() ==> rpm == Snapshot().RPM() && 0 <= rpm
    {
      if !Enabled() {
        return NO_READING;
      }
      var data := Read();
      rpm := data.RPM();
    }

    /** Revolutions since the last reset: NO_READING while disabled. */
    method ReadRevs() returns (revs: real)
      ensures !Enabled() ==> revs == NO_READING as real
      ensures Enabled() ==> revs == Snapshot().Revs()
      ensures Enabled() ==> revs * pulsesPerRev as real == count as real
    {
      if !Enabled() {
        return NO_READING as real;
      }
      var data := Read();
      revs := data.Revs();
    }

    /**
     * The pulse handler: the last timestamp becomes the previous one, `now`
     * becomes the last, and the count goes up by one modulo 2^32.
     */
    method CountIsr(now: u32)
      modifies this`count, this`lastPulseTime, this`prevPulseTime
      ensures State() == old(State()).Tick(now)
      ensures prevPulseTime == old(lastPulseTime) && lastPulseTime == now
      ensures count == Wrap(old(count) + 1)
    {
      prevPulseTime := lastPulseTime;
      lastPulseTime := now;
      count := Inc(count);
    }
  }

  /**
   * The process-wide table `pSensors`: slot i holds the sensor bound to
   * interrupt line i, or null.
   */
  class Dispatcher {
    const slots: array<RotationSensor?>

    /** Every occupant sits in its own line's slot and is enabled. */
    ghost predicate Coherent()
      reads slots, set i | 0 <= i < slots.Length :: slots[i]
    {
      forall i :: 0 <= i < slots.Length && slots[i] != null ==>
        slots[i].line == Some(i) && slots[i].enabled
    }

    /** An empty table of LINE_COUNT slots. */
    constructor ()
      ensures fresh(slots) && slots.Length == LINE_COUNT
      ensures forall i :: 0 <= i < LINE_COUNT ==> slots[i] == null
      ensures Coherent()
    {
      slots := new RotationSensor?[LINE_COUNT](_ => null);
    }

    /**
     * An edge on interrupt line `i`: forwarded to the slot's occupant, if
     * any; with an empty slot nothing changes.
     */
    method Pulse(i: LineIndex, now: u32)
      requires slots.Length == LINE_COUNT
      modifies slots[i]
      ensures slots[i] != null ==>
        slots[i].State() == old(slots[i].State()).Tick(now) && slots[i].enabled == old(slots[i].enabled)
      ensures old(Coherent()) ==> Coherent()
      ensures old(Coherent()) && slots[i] != null ==> slots[i].Enabled()
    {
      var sensor := slots[i];
      if sensor != null {
        sensor.CountIsr(now);
      }
    }

    /** The entry point for line 0 (`RotationSensor_ISR_0`). */
    method Isr0(now: u32)
      requires slots.Length == LINE_COUNT
      modifies slots[0]
      ensures slots[0] != null ==>
        slots[0].State() == old(slots[0].State()).Tick(now) && slots[0].enabled == old(slots[0].enabled)
      ensures old(Coherent()) ==> Coherent()
      ensures old(Coherent()) && slots[0] != null ==> slots[0].Enabled()
    {
      Pulse(0, now);
    }

    /** The entry point for line 1 (`RotationSensor_ISR_1`). */
    method Isr1(now: u32)
      requires slots.Length == LINE_COUNT
      modifies slots[1]
      ensures slots[1] != null ==>
        slots[1].State() == old(slots[1].State()).Tick(now) && slots[1].enabled == old(slots[1].enabled)
      ensures old(Coherent()) ==> Coherent()
      ensures old(Coherent()) && slots[1] != null ==> slots[1].Enabled()
    {
      Pulse(1, now);
    }
  }
}
