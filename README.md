# bitbot_bsp core, modelled in Dafny

A model of the firmware of a two-wheeled micro:bit robot that follows light and
stops near obstacles. It covers four pieces of the firmware:

- **`Micrometers`** (`ultrasonic.dfy`, module `Ultrasonic`): a `u32` distance in
  micrometers, with truncating accessors, multiplying constructors, conversion
  to and from a time of flight, and scalar `Div`/`Mul`.
- **The ultrasonic measurement** (`ultrasonic.dfy`, `gpio.dfy`). One GPIO line
  is used first as an output and then as an input. `generate_pulse` sends the
  trigger pulse. `measure_pulse` makes two waits, each against a timer of the
  same `MAX_DURATION`. `measure_distance` maps the pulse result to
  `Result<Option<Micrometers>, ()>`. The line is a `Gpio.Pin` class with a
  `mode` and a `level`, plus a ghost trace of the actions on it. Each HAL
  operation is allowed only in the mode that provides it. The class invariant
  is that replaying the trace from a free line is valid and ends in the
  current mode.
- **The wheel actuator** (`wheels.dfy`, module `Wheels`): the `duties` closure
  maps a signed speed to a (forward, reverse) duty pair. `set_speed` writes four
  PWM channels, held in a 4-element array owned by the `Wheels` class.
- **The control policy of the `bb` binary** (`control.dfy`, module `Control`):
  `map_speed`, the rule from distance band to base speed, and the
  light-differential steering. The loop body is the pure function
  `ControlStep`. The method `Tick` runs one iteration against the pin and wheel
  models.

`rust_types.dfy` gives the Rust integer widths as subset types, so a Rust
overflow or panic becomes a precondition. `arith.dfy` holds the division facts
the proofs need. `src/lib.rs` repeats `src/ultrasonic.rs` and `src/wheels.rs`
inline (lines 7-208), so one model serves both copies. There are two
differences. First, `src/lib.rs:34-37` uses `.unwrap()` where
`src/wheels.rs:43-47` uses `unwrap_unchecked()`, and `Duties` proves that
neither call can fail. Second, the `src/lib.rs` copy of `Wheels` is fixed to
the `PWM0` peripheral, while `src/wheels.rs` is generic over any PWM
`Instance`. The model has one abstract set of four channels, so both copies
are the same to it.
Some rows below cite the `src/lib.rs` copy.

Times are abstract. An `Ultrasonic.Echo` says when the awaited edges arrive:
the first edge is timed from the start of the first wait, and the second edge
from the first. `Gpio.Select` decides each race between an edge and a timer.
`select` polls the edge future first, so an edge that arrives exactly at the
timeout still wins.

**Code versus the doc comment.** The doc comment of `measure_distance`
(`src/ultrasonic.rs:103-104`) says that no response before the timeout gives
`Ok(None)`. The code does something else, and the model follows the code:

- If the first wait (for the rising edge) times out, `measure_pulse` returns
  `AwaitOppositeTimeout` (`src/ultrasonic.rs:160-166`). `measure_distance` turns
  this into `Err(())` (line 116), and the control loop sets the base speed
  to 0. Steering still applies, so with a large light difference the robot
  turns in place instead of standing still.
- If the second wait (for the falling edge) times out, `measure_pulse` returns
  `AwaitEdgeTimeout` (line 175). `measure_distance` turns this into `Ok(None)`
  (line 117), and the control loop sets the base speed to 100, with
  steering added as usual.

`Ultrasonic.Measurement` states both cases as if-and-only-if facts about the
echo.

## Model

| member | source | states |
|---|---|---|
| `Gpio.Select` | src/ultrasonic.rs:160-166 | one `select` of an edge wait against a timer: the edge wins if and only if it arrives within the timeout, and then at its arrival time |
| `Gpio.Step` | src/ultrasonic.rs:106-110 | which actions each mode allows: a free line can be taken as an output or an input, driving needs an output, awaiting an edge needs an input, and only a taken line can be released |
| `Gpio.ReplayAppend` | src/ultrasonic.rs:105-119 | replaying a history in two parts gives the same result as replaying it whole; this is what lets each pin operation keep the invariant that the history is valid and ends in the current mode |
| `Gpio.Pin.constructor` | src/ultrasonic.rs:11-13 | the sensor line starts unconfigured, with an empty history, which satisfies the invariant `Valid()`: replaying the history from a free line gives the current mode |
| `Gpio.Pin.ConfigureOutput` | src/ultrasonic.rs:106 | `Output::new(.., Level::Low, ..)` needs a free line; afterwards the line is an output that drives the given level |
| `Gpio.Pin.ConfigureInput` | src/ultrasonic.rs:110 | `Input::new` needs a free line; afterwards the line is an input |
| `Gpio.Pin.Release` | src/ultrasonic.rs:109 | dropping a handle frees the line; only this event is added to the history |
| `Gpio.Pin.Set` | src/ultrasonic.rs:130-146 | `set_high`/`set_low` are allowed only on an output, set the level and record one drive event |
| `Gpio.Pin.WaitForEdge` | src/ultrasonic.rs:161-164 | an edge wait is allowed only on an input; its outcome is `Select`, and the awaited edge is recorded |
| `Ultrasonic.AsMillimeters` | src/ultrasonic.rs:21-23 | the result is the whole number of millimeters, truncated: `r*1000 <= um < (r+1)*1000` |
| `Ultrasonic.AsCentimeters` | src/ultrasonic.rs:25-27 | the whole number of centimeters, truncated |
| `Ultrasonic.AsDecimeters` | src/ultrasonic.rs:29-31 | the whole number of decimeters, truncated |
| `Ultrasonic.AsMeters` | src/ultrasonic.rs:33-35 | the whole number of meters, truncated |
| `Ultrasonic.AccessorsTruncate` | src/ultrasonic.rs:21-35 | each coarser accessor is the next finer one divided by 10 (`as_centimeters == as_millimeters / 10`, and so on up to meters) |
| `Ultrasonic.FromMillimeters` | src/ultrasonic.rs:37-39 | defined when `d * 1000` fits `u32`; `as_millimeters` gives `d` back |
| `Ultrasonic.FromCentimeters` | src/ultrasonic.rs:41-43 | defined when `d * 10_000` fits `u32`; `as_centimeters` gives `d` back |
| `Ultrasonic.FromDecimeters` | src/ultrasonic.rs:45-47 | defined when `d * 100_000` fits `u32`; `as_decimeters` gives `d` back |
| `Ultrasonic.FromMeters` | src/ultrasonic.rs:49-51 | defined when `d * 1_000_000` fits `u32`; `as_meters` gives `d` back |
| `Ultrasonic.AsU32` | src/ultrasonic.rs:56 | `as u32` keeps the low 32 bits, and changes nothing below 2^32 |
| `Ultrasonic.FromDuration` | src/ultrasonic.rs:54-57 | defined when the `u32` product does not overflow; for durations below 2^32 µs the distance is speed × microseconds |
| `Ultrasonic.IntoDuration` | src/ultrasonic.rs:60-62 | needs a nonzero speed; the result is the whole number of microseconds to travel the distance: `r*v <= um < (r+1)*v` |
| `Ultrasonic.DurationRoundTrip` | src/ultrasonic.rs:54-62 | `into_duration(from_duration(d, v), v) == d` when `v > 0` and `v * d` fits `u32` |
| `Ultrasonic.DistanceRoundTrip` | src/lib.rs:96-102 | `from_duration(into_duration(m, v), v)` loses less than `v` micrometers, and never overflows |
| `Ultrasonic.Div` | src/ultrasonic.rs:65-71 | needs a nonzero divisor; the result is the truncated quotient: `r*k <= um < (r+1)*k` |
| `Ultrasonic.Mul` | src/ultrasonic.rs:73-79 | defined when the product fits `u32`; dividing by the same nonzero factor gives the distance back |
| `Ultrasonic.MaxDistance` | src/ultrasonic.rs:85 | `MAX_DISTANCE` is 4 m, i.e. 4 000 000 µm |
| `Ultrasonic.MaxDuration` | src/ultrasonic.rs:88-89 | `MAX_DURATION` is 23323 µs: the round trip over 4 m at 343 m/s, truncated |
| `Ultrasonic.ActiveLevel` | src/ultrasonic.rs:130-137 | the level driven at the start of a pulse is the pulse's own level: high if and only if the pulse is `High` |
| `Ultrasonic.StartEdge` | src/ultrasonic.rs:161-163 | the first wait is for the edge after which the line shows the pulse level (rising for `High`, falling for `Low`) |
| `Ultrasonic.IdleLevel` | src/ultrasonic.rs:139-146 | the level after a pulse is the opposite of the pulse level: high if and only if the pulse is `Low` |
| `Ultrasonic.EndEdge` | src/ultrasonic.rs:171-174 | the second wait is for the edge opposite to the first one, after which the line shows the idle level |
| `Ultrasonic.GeneratePulse` | src/ultrasonic.rs:129-147 | needs an output; drives the pulse level and then the opposite level, so after a `High` pulse the line is low, with history high then low |
| `Ultrasonic.PulseDecision` | src/ultrasonic.rs:155-179 | no starting edge within the timeout gives `AwaitOppositeTimeout`; a start with no closing edge within the timeout after it gives `AwaitEdgeTimeout`; otherwise the result is `Pulse` of the time since the first edge, which is at most the timeout |
| `Ultrasonic.PulseDecisionIgnoresStartTime` | src/lib.rs:196-204 | the second timer starts at the first edge, so when the pulse starts (within the first timeout) does not change the result |
| `Ultrasonic.AwaitedEdges` | src/ultrasonic.rs:161-175 | the waits made: always the starting edge, and the closing edge unless the first wait timed out |
| `Ultrasonic.MeasurePulse` | src/ultrasonic.rs:155-179 | on an input, returns `PulseDecision` of the echo and records exactly the edges it awaited |
| `Ultrasonic.DistanceOutcome` | src/ultrasonic.rs:112-118 | `Err(())` if and only if `AwaitOppositeTimeout`; `Ok(None)` if and only if `AwaitEdgeTimeout`; a pulse gives `Ok(Some(m))`, where `m` is half the round-trip distance `343 × width`, truncated |
| `Ultrasonic.Measurement` | src/ultrasonic.rs:105-119 | for an echo: an error if and only if no rising edge comes within `MAX_DURATION`; `Ok(None)` if and only if the pulse starts but does not end within it; otherwise `343 × width / 2` µm, always less than `MAX_DISTANCE` |
| `Ultrasonic.Ultrasonic.constructor` | src/ultrasonic.rs:91-93 | the sensor owns the given line |
| `Ultrasonic.Ultrasonic.MeasurementEvents` | src/ultrasonic.rs:105-119 | the line's history for one measurement: output low, trigger high then low, release, input, one or two edge waits, release |
| `Ultrasonic.Ultrasonic.MeasureDistance` | src/lib.rs:133-147 | on a free line, returns `Measurement(echo)`, frees the line again and appends exactly the `MeasurementEvents` history, keeping the pin's invariant, so the line is never read while it is an output |
| `Wheels.Duties` | src/wheels.rs:38-54 | at most one of (forward, reverse) is nonzero; a negative speed drives only reverse and any other speed only forward; the duty is zero if and only if the speed is 0; the duty is `min(abs(s), 100) * 0x7FFF / 100` truncated, never above `0x7FFF`, and equal to it for abs(s) ≥ 100, including -128 |
| `Wheels.DutiesMonotone` | src/lib.rs:31-43 | a larger speed magnitude never gives a smaller duty |
| `Wheels.DutiesMirror` | src/wheels.rs:39-53 | `s` and `-s` give the same duty on opposite channels |
| `Wheels.ChannelDuties` | src/wheels.rs:55-60 | four channel values, at most one nonzero per wheel, all at most `0x7FFF` |
| `Wheels.ChannelsPerWheel` | src/lib.rs:44-49 | channels 0 and 1 depend only on `left`, channels 2 and 3 only on `right` |
| `Wheels.Wheels.constructor` | src/wheels.rs:33 | the four channels start at duty 0 |
| `Wheels.Wheels.SetSpeed` | src/wheels.rs:37-61 | writes all four channels: `[fwd(left), rev(left), fwd(right), rev(right)]` |
| `Control.MapSpeed` | src/bin/bb.rs:13-31 | needs an input other than -128; the output is 0 if and only if abs(x) ≤ 2; for x > 2 it lies in (20, 100], for x < -2 in [-100, -20); the magnitude is 100 for abs(x) ≥ 100; above the dead zone the magnitude is exactly 20 + floor(80 · min(abs(x), 100) / 100), stated as floor bounds (so the smallest nonzero magnitude is 22) |
| `Control.MapSpeedExamples` | src/bin/bb.rs:22-24 | `map_speed` of 0, ±2, 3, 55, 75, 100 and 127 is 0, 0, 22, 64, 80, 100 and 100 |
| `Control.MapSpeedOdd` | src/bin/bb.rs:22-30 | `map_speed(-x) == -map_speed(x)` for every x except -128 |
| `Control.MapSpeedMonotone` | src/bin/bb.rs:23-24 | `map_speed` never decreases as its input grows |
| `Control.MapSpeedMagnitudeMonotone` | src/bin/bb.rs:22-30 | the output magnitude never decreases as the input magnitude grows |
| `Control.MapSpeedNotIdempotent` | src/bin/bb.rs:13-31 | `map_speed(50) == 60` but `map_speed(60) == 68` |
| `Control.BaseSpeed` | src/bin/bb.rs:52-67 | 0 at ≤ 25 cm; `50 + (cm - 25)` for 25 < cm ≤ 50 (the `.min(75)` never applies); 75 beyond; 100 for `Ok(None)`; 0 for `Err(())`; always in [0, 100] |
| `Control.BaseSpeedMonotone` | src/bin/bb.rs:56-63 | a farther object never gives a lower base speed |
| `Control.BaseSpeedStops` | src/bin/bb.rs:52-67 | the base speed is 0 if and only if the measurement is an error or an object is within 25 cm |
| `Control.TruncDiv` | src/bin/bb.rs:72 | Rust's signed `/`: the quotient has the sign of the dividend and `abs(q)*b <= abs(a) < (abs(q)+1)*b` |
| `Control.TruncDivOfNegative` | src/bin/bb.rs:72 | Rust's `-31 / 30` is -1, where Euclidean division gives -2 |
| `Control.Steering` | src/bin/bb.rs:70-72 | the steering term is at most 25 and has no lower bound; it is ≥ 0 if and only if `right - left > -30`, and 0 if and only if abs(right - left) < 30; it is (right - left) / 30 rounded toward zero when the difference is below 780, and exactly 25 from 780 up |
| `Control.Steer` | src/bin/bb.rs:74-75 | `left + right == 2·base`, `left - right == 2·steering`, and `left >= right` if and only if `right - left > -30` |
| `Control.TargetsAvoidMinI8` | src/bin/bb.rs:77-78 | when both targets convert to `i8`, neither is -128, so the `abs` in `map_speed` cannot overflow |
| `Control.ControlStep` | src/bin/bb.rs:52-78 | defined when the loop body does not panic; both wheel speeds lie in [-100, 100] |
| `Control.SteersByLight` | src/bin/bb.rs:70-78 | the left wheel gets at least the right wheel's speed when `right - left > -30`, and at most otherwise |
| `Control.StopsWhenBlocked` | src/bin/bb.rs:52-78 | on an error or an object within 25 cm, with abs(right - left) < 90, both wheels get 0 |
| `Control.FullSpeedWhenClear` | src/bin/bb.rs:65-78 | with `Ok(None)` and abs(right - left) < 30, both wheels get 100 |
| `Control.ControlStepExample` | src/bin/bb.rs:52-78 | light (right 500, left 200) at 40 cm gives base 65, steering 10 and wheel speeds (80, 64) |
| `Control.SteeringOverflows` | src/bin/bb.rs:72-78 | light (right 0, left 840) with `Ok(None)` gives targets (72, 128), so the right `try_into().unwrap()` panics |
| `Control.SteeringClamped` | src/bin/bb.rs:72 | a steering term clamped to [-25, 25]; it is ≥ 0 if and only if `right - left > -30`, and it equals the source's term for every difference above -780, that is wherever the source's term is at least -25 |
| `Control.ControlStepClamped` | src/bin/bb.rs:72-78 | with the clamped term the step is defined for every light reading, its speeds lie in [-100, 100], and it equals `ControlStep` wherever the source's term is at least -25 |
| `Control.Tick` | src/bin/bb.rs:50-80 | one loop iteration: the wheels end with `ChannelDuties` of `ControlStep(light, Measurement(echo))`, and the sensor line is free again, its history extended by exactly the actions of one `measure_distance` |

## Left out

- `LightSensors` (`src/light_sensors.rs`, `src/lib.rs:210-253`): SAADC calibration and sampling are peripheral calls. The reading is a parameter of `Control.Tick`, already split into `right` (sample 0) and `left` (sample 1).
- `src/buzzer.rs`: a wrapper around the board's speaker driver. No logic.
- `Wheels::new` (`src/wheels.rs:20-34`, `src/lib.rs:20-28`): PWM prescaler, period and enable are hardware setup. `Wheels.Wheels.constructor` only allocates the four duty channels.
- Real time: the 2 µs settle, interrupt latency, and the instant `Instant::now()` is read after the first edge. Elapsed times are the abstract edge times of `Ultrasonic.Echo`. Simultaneous edge and timer events count as the edge winning, following `select`'s polling order.
- Cancellation of the losing future in each `select`: the HAL does it and it has no effect on the model's state.
- `Duration` resolution: a `Duration` is modelled in whole microseconds. The timer's tick rate and the rounding of `Duration::from_micros` at other tick rates are not modelled.
- Ultrasonic.GeneratePulse: the hold of `duration` between the two level changes is not recorded in the pin's history. The contract states the order of the levels, not the 10 µs width.
- Ultrasonic.Ultrasonic.MeasureDistance: what the HAL does to the pin's electrical configuration when a handle is dropped is not modelled. The model records the release and leaves the line free.
- Rust overflow and panics are preconditions, not wrap-around or panic paths. This covers the `u32` multiplications in the `From*` constructors, `FromDuration` and `Mul`; division by zero in `Div` and `IntoDuration`; `i8::abs(-128)` in `MapSpeed`; the `i16` light subtraction and the `i8` conversions in `ControlStep`.
- `main`'s board bring-up, interrupt binding, `defmt` logging, the 100 ms `Timer::after_millis` delay and the endless `loop`: `Control.Tick` models one iteration.

## Findings

| source | as written | input that shows it | evidently intended | confidence | as-written member | corrected member |
|---|---|---|---|---|---|---|
| src/bin/bb.rs:72 | `(diff / 30).min(25)` caps the steering term from above only, so `speed - diff` can exceed 127 and `right.try_into().unwrap()` (line 78) panics | light right = 0, left = 840, measurement `Ok(None)`: base 100, steering -28, right target 128 | clamp the steering term to [-25, 25], as the upper cap suggests | medium, not executed | `Control.SteeringOverflows` | `Control.ControlStepClamped` |

`Control.ControlStep` and `Control.Tick` keep the code as written, because they model the shipped loop. `Control.ControlStepClamped` is the corrected step. It is proved to be defined for every light reading and to agree with `ControlStep` wherever the lower clamp is not reached.
