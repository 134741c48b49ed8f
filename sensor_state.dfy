/**
 * The per-sensor counter triple that the interrupt handler updates: the pulse
 * count and the timestamps (in microseconds of the wrapping clock) of the last
 * two pulses. Zero in `prevPulseTime` means "no earlier pulse recorded".
 */
module PulseState {
  import opened Word32

  datatype SensorState = SensorState(count: u32, lastPulseTime: u32, prevPulseTime: u32)
  {
    /** The state after one pulse arriving at clock value `now`. */
    function Tick(now: u32): SensorState
    {
      SensorState(Inc(count), now, lastPulseTime)
    }

    /**
     * The interval between the last two pulses, or 0 when no earlier pulse is
     * recorded; it spans the two timestamps exactly, across a clock wrap.
     */
    function Interval(): (r: u32)
      ensures prevPulseTime == 0 ==> r == 0
      ensures prevPulseTime != 0 ==> Add(prevPulseTime, r) == lastPulseTime
      ensures prevPulseTime != 0 && prevPulseTime <= lastPulseTime ==> r == lastPulseTime - prevPulseTime
    {
      if prevPulseTime == 0 then 0 else Sub(lastPulseTime, prevPulseTime)
    }
  }

  /** The state after a reset: all three counters zero. */
  const Zero: SensorState := SensorState(0, 0, 0)

  /** The state after pulses arriving at the clock values `ts`, in order. */
  function AfterPulses(s: SensorState, ts: seq<u32>): SensorState
    decreases |ts|
  {
    if ts == [] then s else AfterPulses(s.Tick(ts[0]), ts[1..])
  }

  /** Every pulse adds one to the count, modulo 2^32. */
  lemma {:induction false} AfterPulsesCount(s: SensorState, ts: seq<u32>)
    ensures AfterPulses(s, ts).count == Wrap(s.count + |ts|)
    decreases |ts|
  {
    if ts == [] {
    } else {
      AfterPulsesCount(s.Tick(ts[0]), ts[1..]);
      IncWrap(s.count);
      assert Wrap(Inc(s.count) + |ts[1..]|) == Wrap(s.count + |ts|);
    }
  }

  /**
   * After at least one pulse the last timestamp is the last pulse's, and the
   * previous one is the pulse before it (or the old last timestamp when
   * there was a single pulse).
   */
  lemma {:induction false} AfterPulsesTimes(s: SensorState, ts: seq<u32>)
    requires |ts| >= 1
    ensures AfterPulses(s, ts).lastPulseTime == ts[|ts| - 1]
    ensures AfterPulses(s, ts).prevPulseTime == if |ts| == 1 then s.lastPulseTime else ts[|ts| - 2]
    decreases |ts|
  {
    if |ts| > 1 {
      AfterPulsesTimes(s.Tick(ts[0]), ts[1..]);
    }
  }

  /**
   * The interval after a pulse train is the wrapped difference of its last
   * two pulses, unless the earlier of the two arrived at clock value 0, which
   * is indistinguishable from "no earlier pulse".
   */
  lemma IntervalOfLastTwo(s: SensorState, ts: seq<u32>)
    requires |ts| >= 2
    ensures ts[|ts| - 2] != 0 ==> AfterPulses(s, ts).Interval() == Sub(ts[|ts| - 1], ts[|ts| - 2])
    ensures ts[|ts| - 2] == 0 ==> AfterPulses(s, ts).Interval() == 0
  {
    AfterPulsesTimes(s, ts);
  }

  /** From a reset, zero or one pulse leaves the interval at 0. */
  lemma AtMostOnePulseNoInterval(ts: seq<u32>)
    requires |ts| <= 1
    ensures AfterPulses(Zero, ts).Interval() == 0
    ensures AfterPulses(Zero, ts).count == |ts|
  {
    if |ts| == 1 {
      assert AfterPulses(Zero, ts) == AfterPulses(Zero.Tick(ts[0]), []);
    }
  }
}
