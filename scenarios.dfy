/**
 * Sequences of driver calls, with hardware edges as explicit calls of the
 * dispatcher's entry points, and what the driver's contracts say they read.
 */
module Scenarios {
  import opened Word32
  import opened InterruptLines
  import opened Readings
  import opened RotationSensorDriver

  /**
   * Enabling and at most one pulse give a rate of 0; after a second pulse at
   * `t2` following one at a non-zero `t1`, the interval is `t2 - t1` on the
   * wrapping clock.
   */
  method TwoPulsesAfterEnable(t1: u32, t2: u32) returns (rpmNone: int, rpmOne: int, count: u32, interval: u32)
    requires t1 != 0
    ensures rpmNone == 0 && rpmOne == 0
    ensures count == 2
    ensures interval == Sub(t2, t1)
  {
    var table := new Dispatcher();
    var sensor := new RotationSensor(0, 2, 1);
    sensor.Enable(table, true);
    rpmNone := sensor.ReadRPM();
    table.Isr0(t1);
    rpmOne := sensor.ReadRPM();
    table.Isr0(t2);
    var data := sensor.Read();
    count, interval := data.Count, data.LastInterval;
  }

  /**
   * Pulses at 0 and 10000 with one pulse per revolution: the pulse at clock
   * value 0 is taken for "no earlier pulse", so the interval and the rate are
   * still 0 after the second pulse. A third pulse at 20000, with two pulses
   * per revolution, gives an interval of 10000, 3000 RPM and 1.5 revolutions.
   */
  method PulseTrainFromTimeZero()
    returns (interval2: u32, rpm2: int, interval3: u32, rpm3: int, revs3: real)
    ensures interval2 == 0 && rpm2 == 0
    ensures interval3 == 10000 && rpm3 == 3000 && revs3 == 1.5
  {
    var table := new Dispatcher();
    var one := new RotationSensor(1, 3, 1);
    one.Enable(table, true);
    table.Isr1(0);
    table.Isr1(10000);
    var data := one.Read();
    interval2 := data.LastInterval;
    rpm2 := one.ReadRPM();
    one.Disable(table);

    var two := new RotationSensor(1, 3, 2);
    two.Enable(table, true);
    table.Isr1(0);
    table.Isr1(10000);
    table.Isr1(20000);
    data := two.Read();
    interval3 := data.LastInterval;
    assert data.Divisor() == 20000;
    rpm3 := two.ReadRPM();
    revs3 := two.ReadRevs();
  }

  /**
   * Re-enabling an enabled sensor keeps its counters; enabling a second
   * sensor on the same line takes the slot over, so only the newcomer
   * counts the next edge, while the evicted sensor still reports itself
   * enabled.
   */
  method EnableIsIdempotentAndLastEnableWins(now: u32)
    returns (countKept: u32, countEvicted: u32, countNewcomer: u32, evictedEnabled: bool)
    ensures countKept == 1
    ensures countEvicted == 1 && countNewcomer == 1
    ensures evictedEnabled
  {
    var table := new Dispatcher();
    var first := new RotationSensor(0, 2, 1);
    var second := new RotationSensor(0, 2, 4);
    first.Enable(table, true);
    table.Isr0(now);
    first.Enable(table, true);
    countKept := first.ReadCount();
    second.Enable(table, true);
    table.Isr0(now);
    countEvicted := first.ReadCount();
    countNewcomer := second.ReadCount();
    evictedEnabled := first.Enabled();
  }

  /**
   * A disabled sensor reads the sentinel for rate and revolutions and zero
   * for the counts; disabling it empties its slot so later edges are ignored.
   */
  method ReadsWhileDisabled(now: u32)
    returns (rpm: int, revs: real, count: u32, data: CountData, slotEmpty: bool)
    ensures rpm == NO_READING && revs == NO_READING as real
    ensures count == 0
    ensures data.Count == 0 && data.LastInterval == 0 && data.SensorID == 2 && data.CountsPerRev == 5
    ensures slotEmpty
  {
    var table := new Dispatcher();
    var sensor := new RotationSensor(0, 2, 5);
    sensor.Enable(table, true);
    table.Isr0(now);
    sensor.Disable(table);
    table.Isr0(now);
    rpm := sensor.ReadRPM();
    revs := sensor.ReadRevs();
    count := sensor.ReadCount();
    data := sensor.Read();
    slotEmpty := table.slots[0] == null;
  }

  /**
   * A sensor on a pin without an interrupt line is never enabled and never
   * takes a slot, and its pulses-per-revolution setting is clamped to 1.
   */
  method PinWithoutLine() returns (enabled: bool, slotsEmpty: bool, resolution: int)
    ensures !enabled && slotsEmpty
    ensures resolution == 1
  {
    var table := new Dispatcher();
    var sensor := new RotationSensor(NOT_AN_INTERRUPT, 7, 0);
    sensor.Enable(table, true);
    enabled := sensor.Enabled();
    slotsEmpty := table.slots[0] == null && table.slots[1] == null;
    resolution := sensor.Resolution();
  }
}
