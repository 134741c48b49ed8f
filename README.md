# RotationSensor driver — a Dafny model

This project models the core of an interrupt-driven rotation sensor driver for
a microcontroller. A `RotationSensor` is bound to one pin that can raise
edge interrupts. Its pulse handler shifts the last pulse timestamp into the
previous one, records the new timestamp and increments a 32-bit pulse count.
Foreground code reads snapshots (`CountData`) of that counter triple and
derives the rotation rate (RPM) and the number of revolutions. A process-wide
dispatch table with two slots (`pSensors[2]`, one per interrupt line) routes
each hardware edge to the sensor bound to that line.

Modules:

- `Word32` — `uint32_t` / `uint8_t` words and wrap-around `+`, `++`, `-`, `*`.
- `Wrappers` — `Option`.
- `InterruptLines` — the two supported lines, the pin-to-line resolution, and
  the 2-bit bit-field storage of the line as written (see Findings).
- `PulseState` — the counter triple as a value (`SensorState`), one pulse
  (`Tick`), the interval rule, and a whole pulse train (`AfterPulses`).
- `Readings` — `CountData`, `NO_READING`, the RPM and revolution formulas.
- `RotationSensorDriver` — class `RotationSensor` (configuration as `const`
  fields, the enabled flag and counter triple as mutable fields) and class
  `Dispatcher` (the slot table as an `array<RotationSensor?>` of length 2,
  with the entry points `Isr0`, `Isr1`).
- `Scenarios` — call sequences, with hardware edges as explicit calls.

Interrupts are explicit sequential calls of `Dispatcher.Isr0` / `Isr1`. The
clock value the handler would read (`micros()`) is the parameter `now`. The
process-wide table is passed to `Enable` / `Disable` as a `Dispatcher`
parameter. The platform's pin-to-line answer (`digitalPinToInterrupt`) is a
constructor argument.

The `Dispatcher.Coherent` invariant says every occupant of slot `i` is on line
`i` and has its enabled flag set. Every mutating method preserves it.

`prevPulseTime == 0` stands for "no earlier pulse" (RotationSensor.cpp:152),
so a pulse at clock value 0 never starts an interval. Pulses at 0 and 10000
read interval 0 and 0 RPM (`Scenarios.PulseTrainFromTimeZero`).

## Model

| member | source | states |
|---|---|---|
| `RotationSensorDriver.RotationSensor.constructor` | RotationSensor.cpp:44-55 | stores the pin (0 to 31), pulses per revolution clamped to at least 1, and the resolved line; starts disabled with zero counters |
| `RotationSensorDriver.RotationSensor.Reset` | RotationSensor.cpp:61-68 | zeroes count and both timestamps; its frame leaves the configuration, the enabled flag and the table untouched |
| `RotationSensorDriver.RotationSensor.Enable` | RotationSensor.cpp:88-114 | no line: no state changes; on from off: counters zeroed, own slot set to this, flag set; on when on: counters and slots unchanged; off: own slot emptied even if another sensor held it, flag cleared; the other slot is never touched; keeps `Coherent` |
| `RotationSensorDriver.RotationSensor.Disable` | RotationSensor.h:57 | the same effect as `Enable(false)` |
| `RotationSensorDriver.RotationSensor.Enabled` | RotationSensor.cpp:120-123 | true only if the pin has an interrupt line, whatever the flag |
| `RotationSensorDriver.RotationSensor.Resolution` | RotationSensor.h:64 | returns the stored pulses per revolution, which is between 1 and 255 |
| `RotationSensorDriver.RotationSensor.ID` | RotationSensor.h:69 | returns the stored pin, below 32 |
| `RotationSensorDriver.RotationSensor.Snapshot` | RotationSensor.cpp:132-158 | the snapshot always carries pin and resolution; disabled: count, time and interval are 0; enabled: count, last time and the interval rule |
| `RotationSensorDriver.RotationSensor.Read` | RotationSensor.cpp:132-158 | returns the snapshot; when enabled with a previous pulse, previous time plus interval is the last time modulo 2^32, else the interval is 0 |
| `RotationSensorDriver.RotationSensor.ReadCount` | RotationSensor.cpp:164-177 | 0 when disabled, the count when enabled; always equal to the count a full `Read` reports |
| `RotationSensorDriver.RotationSensor.ReadRPM` | RotationSensor.cpp:190-197 | `NO_READING` when disabled; otherwise the RPM of the snapshot, which is non-negative |
| `RotationSensorDriver.RotationSensor.ReadRevs` | RotationSensor.cpp:205-212 | `NO_READING` when disabled; otherwise revolutions whose product with the resolution is the count |
| `RotationSensorDriver.RotationSensor.CountIsr` | RotationSensor.cpp:216-224 | previous time becomes the old last time, last time becomes `now`, count grows by one modulo 2^32 |
| `RotationSensorDriver.Dispatcher.constructor` | RotationSensor.cpp:36 | a table of two empty slots |
| `RotationSensorDriver.Dispatcher.Pulse` | RotationSensor.cpp:247-260 | forwards one pulse to the slot's occupant; with an empty slot nothing may change; other sensors are outside its frame; keeps `Coherent`, under which an edge reaches only an enabled sensor |
| `RotationSensorDriver.Dispatcher.Isr0` | RotationSensor.cpp:247-252 | a pulse on line 0 reaches only the occupant of slot 0, which under `Coherent` is enabled |
| `RotationSensorDriver.Dispatcher.Isr1` | RotationSensor.cpp:255-260 | a pulse on line 1 reaches only the occupant of slot 1, which under `Coherent` is enabled |
| `Word32.Inc` | RotationSensor.cpp:224 | the count's successor wraps from 2^32-1 to 0 |
| `Word32.Sub` | RotationSensor.cpp:152 | unsigned difference: adding it back to the subtrahend gives the minuend; zero exactly when equal; the plain difference when no wrap |
| `Word32.Mul` | RotationSensor.h:33 | the 32-bit product is congruent to the true product modulo 2^32, and equals it when it fits |
| `PulseState.SensorState.Interval` | RotationSensor.cpp:152 | 0 with no previous pulse; otherwise previous time plus interval is the last time modulo 2^32 |
| `PulseState.AfterPulsesCount` | RotationSensor.cpp:216-224 | after n pulses the count is the old count plus n modulo 2^32 |
| `PulseState.AfterPulsesTimes` | RotationSensor.cpp:222-223 | after a pulse train, the last time is the last pulse and the previous time the one before it |
| `PulseState.IntervalOfLastTwo` | RotationSensor.cpp:145-152 | the interval after a train is the wrapped difference of its last two pulses, or 0 if the earlier one was at clock value 0 |
| `PulseState.AtMostOnePulseNoInterval` | RotationSensor.h:90-93 | from a reset, zero or one pulse leaves the interval at 0 |
| `Readings.CountData.Divisor` | RotationSensor.h:33 | the divisor is `LastInterval * CountsPerRev` modulo 2^32, and the plain product when it fits |
| `Readings.CountData.RPM` | RotationSensor.h:33 | 0 without an interval; otherwise the truncated quotient of 60000000 by the divisor, characterised by its bracketing multiples |
| `Readings.CountData.Revs` | RotationSensor.h:35 | revolutions times resolution equals the count (exact fraction) |
| `Readings.DefaultReadsZero` | RotationSensor.h:31 | the default snapshot has all five fields zero, and rate 0 |
| `Readings.NoReadingIsDistinct` | RotationSensor.h:21 | `NO_READING` (-1) differs from every rate, count and revolution value |
| `Readings.RpmWithoutWrap` | RotationSensor.h:33 | without wrap, the rate is 60000000 divided by interval times resolution |
| `InterruptLines.StoredIrqAsWritten` | RotationSensor.h:117 | a 2-bit unsigned field stores the resolved line modulo 4 |
| `InterruptLines.NoLineGuardNeverFiresAsWritten` | RotationSensor.cpp:90 | as written, the no-line guard is false for every resolved value |
| `InterruptLines.NotAnInterruptStoredAsLineThree` | RotationSensor.cpp:48-51 | as written, NOT_AN_INTERRUPT is stored as 3, passes the guard, and is past the end of the two-slot table |
| `InterruptLines.ResolveLine` | RotationSensor.cpp:48 | a line exists exactly when the platform's answer is a slot of the table, and it is that answer |
| `InterruptLines.NotAnInterruptHasNoLine` | RotationSensor.cpp:90-94 | with the intended resolution, NOT_AN_INTERRUPT and every answer of 2 or more mean "no line" |
| `InterruptLines.LinesAboveOneAsWritten` | RotationSensor.cpp:96-105 | as written, answers 2 and 3 pass the guard and index past the table; 4 and 5 are stored as lines 0 and 1 |
| `Scenarios.TwoPulsesAfterEnable` | RotationSensor.h:86-93 | rate 0 after enabling and after one pulse; after a second pulse the interval is `t2 - t1` modulo 2^32 |
| `Scenarios.PulseTrainFromTimeZero` | RotationSensor.cpp:145-152 | pulses at 0 and 10000 read interval 0; a third at 20000 with 2 pulses per revolution reads 10000, 3000 RPM and 1.5 revolutions |
| `Scenarios.EnableIsIdempotentAndLastEnableWins` | RotationSensor.cpp:98-113 | re-enabling keeps counters; a second sensor on the same line takes the slot, and the evicted one stays flagged enabled |
| `Scenarios.ReadsWhileDisabled` | RotationSensor.cpp:164-212 | disabled reads give -1 for rate and revolutions and zeros for counts; edges after disabling are ignored |
| `Scenarios.PinWithoutLine` | RotationSensor.cpp:90-94 | a pin without a line never enables or takes a slot; resolution 0 clamps to 1 |

## Left out

- The critical sections (`cli()` / `sei()`) and `volatile`: every method is one atomic step here, so foreground and interrupt code do not interleave.
- `micros()`: the clock value is the parameter `now` of the pulse handler.
- `digitalPinToInterrupt`: its answer is the constructor argument `resolvedLine`.
- `pinMode`, `attachInterrupt`, `detachInterrupt`: platform calls. Attaching and detaching are modelled as the slot writes only.
- Debug logging, `RotationSensor_DebugDump` and the debug buffers: diagnostics only.
- The commented-out 200 µs debounce: it is dead code.
- RotationSensorDriver.RotationSensor.constructor: requires a pin between 0 and 31 and at most 255 pulses per revolution. The 5-bit and 8-bit fields would truncate larger values; 256 would be stored as 0 and make the rate divide by zero.
- RotationSensorDriver.RotationSensor.constructor: zeroes the counters. The C++ constructor leaves them unset, which is zero only for objects with static storage.
- Readings.CountData.RPM: exact integer division, truncated. The source divides in floating point and converts to `int`. This matches for 64-bit `double` and 32-bit `int`. On 8-bit AVR targets `double` is single precision and `int` is 16 bits, so rounding and overflow there are not modelled.
- Readings.CountData.RPM: requires a non-zero 32-bit divisor. The source would divide by zero when the wrapped product is 0.
- RotationSensorDriver.RotationSensor.ReadRPM: requires, when enabled, that the snapshot's wrapped divisor is non-zero. An enabled sensor can reach a zero divisor, for example 2 pulses per revolution and a pulse gap of 2^31 µs (about 36 minutes). There the source computes `60000000.0 / 0`, which is infinity, and its conversion to `int` is undefined behaviour, so the model has no value to give.
- InterruptLines.ResolveLine: treats every platform answer other than 0 and 1 as "no line". As written, answers 2 and 3 index the table past its end, and 4 and 5 are stored as lines 0 and 1 (see Findings).
- Readings.CountData.Revs and RotationSensorDriver.RotationSensor.ReadRevs: exact `real` division, an idealisation of the float division in the source.
- RotationSensorDriver.RotationSensor.ReadRPM: returns an `int` where the source returns a `float`. The rate is a whole number, so the value is the same.
- RotationSensorDriver.RotationSensor.ReadRevs: returns a `real` where the source returns a `float`.

## Findings

| source | as written | input that shows it | evidently intended | confidence | as-written member | corrected member |
|---|---|---|---|---|---|---|
| RotationSensor.h:117, RotationSensor.cpp:90 | the line is stored in a 2-bit unsigned bit-field and then compared with NOT_AN_INTERRUPT (-1) | a pin whose line resolves to -1: stored as 3, the guard at line 90 passes, and `Enable(true)` writes `pSensors[3]` past the end of the table; `Enabled()` then reports true | a pin without an interrupt line makes `Enable` a no-op and `Enabled()` false | high (not executed) | `InterruptLines.NotAnInterruptStoredAsLineThree` | `InterruptLines.ResolveLine` |
| RotationSensor.h:117, RotationSensor.cpp:96-105 | a resolved line of 2 or more is stored modulo 4 and used as a slot index | answer 2: `pSensors[2]` is written past the end of the table; answer 4: stored as 0, so the sensor takes slot 0 and the handler of line 0 is attached (`attachInterrupt(0, …)`) | a line without a slot in the table is no usable line | medium (not executed) | `InterruptLines.LinesAboveOneAsWritten` | `InterruptLines.ResolveLine` |
