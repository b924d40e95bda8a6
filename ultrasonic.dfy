/** The ultrasonic range sensor: the `Micrometers` distance type, the pulse
    primitives `generate_pulse` and `measure_pulse` on the shared
    trigger/echo line, and `Ultrasonic::measure_distance`, which turns the
    width of the echo pulse into a distance.

    Timers and edge interrupts are abstracted: an `Echo` says when the edges
    the driver waits for occur, and each wait is decided by `Gpio.Select`. */
module Ultrasonic {
  import opened RustTypes
  import opened Gpio
  import opened Arith

  // ---------------------------------------------------------------------
  // Micrometers
  // ---------------------------------------------------------------------

  /** A distance with micrometer resolution, held in a `u32`. */
  datatype Micrometers = Micrometers(um: u32)

  /** An `embassy_time::Duration`, at microsecond resolution. */
  datatype Duration = Duration(micros: u64)

  function AsMillimeters(m: Micrometers): (r: u32)
    ensures r * 1_000 <= m.um < (r + 1) * 1_000
  {
    m.um / 1_000
  }

  function AsCentimeters(m: Micrometers): (r: u32)
    ensures r * 10_000 <= m.um < (r + 1) * 10_000
  {
    m.um / 10_000
  }

  function AsDecimeters(m: Micrometers): (r: u32)
    ensures r * 100_000 <= m.um < (r + 1) * 100_000
  {
    m.um / 100_000
  }

  function AsMeters(m: Micrometers): (r: u32)
    ensures r * 1_000_000 <= m.um < (r + 1) * 1_000_000
  {
    m.um / 1_000_000
  }

  /** Each coarser accessor truncates the next finer one by a factor of ten. */
  lemma AccessorsTruncate(m: Micrometers)
    ensures AsCentimeters(m) == AsMillimeters(m) / 10
    ensures AsDecimeters(m) == AsCentimeters(m) / 10
    ensures AsMeters(m) == AsDecimeters(m) / 10
  {
    DivDiv(m.um, 1_000, 10);
    DivDiv(m.um, 10_000, 10);
    DivDiv(m.um, 100_000, 10);
  }

  // The constructors multiply; the `u32` product must not overflow.

  function FromMillimeters(d: u32): (m: Micrometers)
    requires d * 1_000 <= U32_MAX
    ensures AsMillimeters(m) == d
  {
    Micrometers(d * 1_000)
  }

  function FromCentimeters(d: u32): (m: Micrometers)
    requires d * 10_000 <= U32_MAX
    ensures AsCentimeters(m) == d
  {
    Micrometers(d * 10_000)
  }

  function FromDecimeters(d: u32): (m: Micrometers)
    requires d * 100_000 <= U32_MAX
    ensures AsDecimeters(m) == d
  {
    Micrometers(d * 100_000)
  }

  function FromMeters(d: u32): (m: Micrometers)
    requires d * 1_000_000 <= U32_MAX
    ensures AsMeters(m) == d
  {
    Micrometers(d * 1_000_000)
  }

  /** Rust's `x as u32` on a `u64`: keeps the low 32 bits. */
  function AsU32(x: u64): (r: u32)
    ensures x <= U32_MAX ==> r == x
  {
    x % 0x1_0000_0000
  }

  /** `from_duration`: the distance sound travels at `speedMps` m/s during
      `d`, i.e. `speedMps` micrometers per microsecond. The microsecond count
      is cut to 32 bits before the (non-overflowing) `u32` multiplication. */
  function FromDuration(d: Duration, speedMps: u32): (m: Micrometers)
    requires speedMps * AsU32(d.micros) <= U32_MAX
    ensures d.micros <= U32_MAX ==> m.um == speedMps * d.micros
  {
    Micrometers(speedMps * AsU32(d.micros))
  }

  /** `into_duration`: the time sound needs to travel `m` at `speedMps` m/s,
      truncated to whole microseconds. Division by a zero speed panics. */
  function IntoDuration(m: Micrometers, speedMps: u32): (d: Duration)
    requires speedMps > 0
    ensures d.micros * speedMps <= m.um < (d.micros + 1) * speedMps
  {
    DivBounds(m.um, speedMps);
    Duration(m.um / speedMps)
  }

  /** A duration turned into a distance and back is unchanged. */
  lemma DurationRoundTrip(d: Duration, speedMps: u32)
    requires speedMps > 0 && speedMps * d.micros <= U32_MAX
    ensures IntoDuration(FromDuration(d, speedMps), speedMps) == d
  {
    MulAtLeast(speedMps, d.micros);
    assert AsU32(d.micros) == d.micros;
    assert FromDuration(d, speedMps).um == d.micros * speedMps;
    MulDivCancel(d.micros, speedMps);
  }

  /** A distance turned into a duration and back loses less than one
      microsecond's worth of travel. */
  lemma DistanceRoundTrip(m: Micrometers, speedMps: u32)
    requires speedMps > 0
    ensures speedMps * IntoDuration(m, speedMps).micros <= U32_MAX
    ensures m.um - speedMps < FromDuration(IntoDuration(m, speedMps), speedMps).um <= m.um
  {
    DivBounds(m.um, speedMps);
  }

  /** `impl Div<u32> for Micrometers`; division by zero panics. */
  function Div(m: Micrometers, k: u32): (r: Micrometers)
    requires k > 0
    ensures r.um * k <= m.um < (r.um + 1) * k
  {
    DivBounds(m.um, k);
    Micrometers(m.um / k)
  }

  /** `impl Mul<u32> for Micrometers`; the product must fit a `u32`.
      Dividing by the same nonzero factor gives the distance back. */
  function Mul(m: Micrometers, k: u32): (r: Micrometers)
    requires m.um * k <= U32_MAX
    ensures k > 0 ==> Div(r, k) == m
  {
    MulDivCancel(m.um, k);
    Micrometers(m.um * k)
  }

  // ---------------------------------------------------------------------
  // Sensor constants
  // ---------------------------------------------------------------------

  const SPEED_OF_SOUND_MPS: u32 := 343

  /** `MAX_DISTANCE`: four meters. */
  function MaxDistance(): (m: Micrometers)
    ensures AsMeters(m) == 4 && m.um == 4_000_000
  {
    FromMeters(4)
  }

  /** `MAX_DURATION`: the round-trip time of flight over `MAX_DISTANCE`,
      truncated to whole microseconds. */
  function MaxDuration(): (d: Duration)
    ensures d.micros == 23323
    ensures d.micros * SPEED_OF_SOUND_MPS <= 2 * MaxDistance().um < (d.micros + 1) * SPEED_OF_SOUND_MPS
  {
    IntoDuration(Micrometers(MaxDistance().um * 2), SPEED_OF_SOUND_MPS)
  }

  // ---------------------------------------------------------------------
  // Pulse primitives
  // ---------------------------------------------------------------------

  /** Which level the pulse drives (generate) or is expected to show (measure). */
  datatype Pulse = Low | High

  /** The level held during a pulse of this kind. */
  function ActiveLevel(p: Pulse): (l: Level)
    ensures l.High? <==> p.High?
  {
    match p
    case Low => Level.Low
    case High => Level.High
  }

  /** The level the line returns to when the pulse ends. */
  function IdleLevel(p: Pulse): (l: Level)
    ensures l != ActiveLevel(p)
    ensures l.High? <==> p.Low?
  {
    match p
    case Low => Level.High
    case High => Level.Low
  }

  /** The edge that starts a pulse of this kind. */
  function StartEdge(p: Pulse): (e: Edge)
    ensures After(e) == ActiveLevel(p)
  {
    match p
    case Low => Falling
    case High => Rising
  }

  /** The edge that ends a pulse of this kind. */
  function EndEdge(p: Pulse): (e: Edge)
    ensures e != StartEdge(p)
    ensures After(e) == IdleLevel(p)
  {
    match p
    case Low => Rising
    case High => Falling
  }

  /** `generate_pulse`: drive the pulse level, hold it for `duration`, then
      drive the opposite level. */
  method GeneratePulse(pin: Pin, pulse: Pulse, duration: Duration)
    requires pin.Valid() && pin.mode == Output
    modifies pin
    ensures pin.Valid()
    ensures pin.mode == Output && pin.level == IdleLevel(pulse)
    ensures pin.events == old(pin.events) + [Drive(ActiveLevel(pulse)), Drive(IdleLevel(pulse))]
  {
    match pulse {
      case Low => pin.Set(Level.Low);
      case High => pin.Set(Level.High);
    }
    // Timer::after(duration).await: the hold is not modelled.
    match pulse {
      case Low => pin.Set(Level.High);
      case High => pin.Set(Level.Low);
    }
  }

  /** What `measure_pulse` can report. */
  datatype PulseResult =
    | Pulse(width: Duration)
    | AwaitOppositeTimeout
    | AwaitEdgeTimeout

  /** When the edges `measure_pulse` waits for occur on the line: `startAt`,
      from the start of the first wait, is when the pulse's starting edge
      arrives, and `endAt`, from that edge, is when the closing edge arrives;
      `None` means the edge never comes. */
  datatype Echo = Echo(startAt: Option<nat>, endAt: Option<nat>)

  /** The decision `measure_pulse` takes: each of its two waits races the
      awaited edge against a fresh timer of the same `timeout`. A first wait
      that times out yields `AwaitOppositeTimeout`, a second one
      `AwaitEdgeTimeout`, and two edges yield the time between them. */
  function PulseDecision(echo: Echo, timeout: Duration): (r: PulseResult)
    ensures r.AwaitOppositeTimeout? <==> !EdgeWithin(echo.startAt, timeout.micros)
    ensures r.AwaitEdgeTimeout? <==>
      EdgeWithin(echo.startAt, timeout.micros) && !EdgeWithin(echo.endAt, timeout.micros)
    ensures r.Pulse? <==>
      EdgeWithin(echo.startAt, timeout.micros) && EdgeWithin(echo.endAt, timeout.micros)
    ensures r.Pulse? ==> r.width.micros == echo.endAt.value <= timeout.micros
  {
    match Select(echo.startAt, timeout.micros)
    case TimerFired => AwaitOppositeTimeout
    case EdgeSeen(_) =>
      match Select(echo.endAt, timeout.micros)
      case TimerFired => AwaitEdgeTimeout
      case EdgeSeen(elapsed) => Pulse(Duration(elapsed))
  }

  /** The second timer starts at the first edge, so how late the pulse starts
      (within the first timeout) has no effect on the outcome. */
  lemma PulseDecisionIgnoresStartTime(s1: nat, s2: nat, endAt: Option<nat>, timeout: Duration)
    requires s1 <= timeout.micros && s2 <= timeout.micros
    ensures PulseDecision(Echo(Some(s1), endAt), timeout) == PulseDecision(Echo(Some(s2), endAt), timeout)
  {
  }

  /** The edges `measure_pulse` awaits, in order, given its result. */
  function AwaitedEdges(pulse: Pulse, r: PulseResult): (es: seq<PinEvent>)
    ensures |es| == (if r.AwaitOppositeTimeout? then 1 else 2)
    ensures es[0] == Await(StartEdge(pulse))
    ensures |es| == 2 ==> es[1] == Await(EndEdge(pulse))
  {
    if r.AwaitOppositeTimeout? then [Await(StartEdge(pulse))]
    else [Await(StartEdge(pulse)), Await(EndEdge(pulse))]
  }

  /** `measure_pulse`: wait for the pulse's starting edge, then, from that
      instant, for its closing edge, each against `timeout`. */
  method MeasurePulse(pin: Pin, pulse: Pulse, timeout: Duration, echo: Echo) returns (r: PulseResult)
    requires pin.Valid() && pin.mode == Input
    modifies pin
    ensures pin.Valid()
    ensures r == PulseDecision(echo, timeout)
    ensures pin.mode == Input
    ensures pin.events == old(pin.events) + AwaitedEdges(pulse, r)
  {
    var first := pin.WaitForEdge(StartEdge(pulse), echo.startAt, timeout.micros);
    if first.TimerFired? {
      return AwaitOppositeTimeout;
    }
    // `begin = Instant::now()`: times in `echo.endAt` are measured from here.
    var second := pin.WaitForEdge(EndEdge(pulse), echo.endAt, timeout.micros);
    if second.TimerFired? {
      return AwaitEdgeTimeout;
    }
    r := Pulse(Duration(second.at));
  }

  // ---------------------------------------------------------------------
  // measure_distance
  // ---------------------------------------------------------------------

  /** How `measure_distance` turns a pulse result into its return value: a
      pulse width is a round trip at the speed of sound, halved to the
      one-way distance; a timeout in the first wait is an error and a
      timeout in the second wait is "no distance". */
  function DistanceOutcome(p: PulseResult): (r: Result<Option<Micrometers>, ()>)
    requires p.Pulse? ==> SPEED_OF_SOUND_MPS * AsU32(p.width.micros) <= U32_MAX
    ensures r.Err? <==> p.AwaitOppositeTimeout?
    ensures r == Ok(None) <==> p.AwaitEdgeTimeout?
    ensures p.Pulse? ==> r.Ok? && r.value.Some?
    ensures p.Pulse? ==>
      var roundTrip := SPEED_OF_SOUND_MPS * AsU32(p.width.micros);
      2 * r.value.value.um <= roundTrip < 2 * r.value.value.um + 2
  {
    match p
    case Pulse(d) => Ok(Some(Div(FromDuration(d, SPEED_OF_SOUND_MPS), 2)))
    case AwaitOppositeTimeout => Err(())
    case AwaitEdgeTimeout => Ok(None)
  }

  /** The result of a whole measurement for a given echo: no starting edge
      within `MAX_DURATION` is an error, a pulse that does not end within
      `MAX_DURATION` is `Ok(None)`, and a complete pulse of `w` microseconds
      is a distance of `343 * w / 2` micrometers, always short of
      `MAX_DISTANCE`. */
  function Measurement(echo: Echo): (r: Result<Option<Micrometers>, ()>)
    ensures r.Err? <==> !EdgeWithin(echo.startAt, MaxDuration().micros)
    ensures r == Ok(None) <==>
      EdgeWithin(echo.startAt, MaxDuration().micros) && !EdgeWithin(echo.endAt, MaxDuration().micros)
    ensures r.Ok? && r.value.Some? ==>
      echo.endAt.Some? && r.value.value.um == (SPEED_OF_SOUND_MPS * echo.endAt.value) / 2
    ensures r.Ok? && r.value.Some? ==> r.value.value.um < MaxDistance().um
  {
    var p := PulseDecision(echo, MaxDuration());
    DistanceOutcome(p)
  }

  /** The sensor, owning its trigger/echo line. */
  class Ultrasonic {
    const pin: Pin

    constructor (pin: Pin)
      ensures this.pin == pin
    {
      this.pin := pin;
    }

    /** The line's history during one `measure_distance`, given its result. */
    static function MeasurementEvents(r: Result<Option<Micrometers>, ()>): (es: seq<PinEvent>)
      ensures |es| == (if r.Err? then 8 else 9)
      ensures es[0] == Configure(Output) && es[|es| - 1] == Dropped
    {
      [Configure(Output), Drive(Level.Low), Drive(Level.High), Drive(Level.Low), Dropped,
       Configure(Input), Await(Rising)]
      + (if r.Err? then [] else [Await(Falling)])
      + [Dropped]
    }

    /** `measure_distance`: drive the line low, send a high trigger pulse,
        switch the line to input and measure the echo pulse. */
    method MeasureDistance(echo: Echo) returns (r: Result<Option<Micrometers>, ()>)
      requires pin.Valid() && pin.mode == Disconnected
      modifies pin
      ensures pin.Valid()
      ensures r == Measurement(echo)
      ensures pin.mode == Disconnected
      ensures pin.events == old(pin.events) + MeasurementEvents(r)
    {
      pin.ConfigureOutput(Level.Low);
      // Timer::after_micros(2).await: the settle time is not modelled.
      GeneratePulse(pin, Pulse.High, Duration(10));
      pin.Release();
      pin.ConfigureInput();
      var pulse := MeasurePulse(pin, Pulse.High, MaxDuration(), echo);
      r := DistanceOutcome(pulse);
      pin.Release();
    }
  }
}
