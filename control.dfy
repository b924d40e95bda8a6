/** The robot's control policy (the `bb` binary): `map_speed`, and the body of
    `main`'s loop, which turns a light reading and a distance measurement into
    the two wheel speeds. */
module Control {
  import opened RustTypes
  import opened Arith
  import Ultrasonic
  import Wheels
  import Gpio

  // `map_speed`'s constants.
  const MIN: int := 20
  const MAX: int := 100
  const REST: int := MAX - MIN
  const ZERO_LIMIT: int := 2

  /** `map_speed`: inputs within `ZERO_LIMIT` of zero stop the wheel; any
      other magnitude, capped at `MAX`, is mapped linearly onto
      `MIN..=MAX`, keeping the sign. `ideal.abs()` overflows on -128. */
  function MapSpeed(ideal: i8): (s: i8)
    requires ideal != -128
    ensures s == 0 <==> -ZERO_LIMIT <= ideal <= ZERO_LIMIT
    ensures ideal > ZERO_LIMIT ==> MIN < s <= MAX
    ensures ideal < -ZERO_LIMIT ==> -MAX <= s < -MIN
    ensures Abs(ideal) >= MAX ==> Abs(s) == MAX
    ensures Abs(ideal) > ZERO_LIMIT ==>
      (Abs(s) - MIN) * 100 <= REST * Min(Abs(ideal), MAX) < (Abs(s) - MIN + 1) * 100
  {
    if -ZERO_LIMIT <= ideal <= ZERO_LIMIT then
      0
    else
      var reverse := ideal < 0;
      var magnitude := Min(Abs(ideal), MAX);
      var speed: i8 := MIN + (REST * magnitude) / 100;
      if reverse then -speed else speed
  }

  /** Above the dead zone the result is `20 + 80 * min(x, 100) / 100`. */
  lemma MapSpeedExamples()
    ensures MapSpeed(0) == 0 && MapSpeed(2) == 0 && MapSpeed(-2) == 0
    ensures MapSpeed(3) == 22 && MapSpeed(55) == 64 && MapSpeed(75) == 80
    ensures MapSpeed(100) == 100 && MapSpeed(127) == 100
  {
  }

  /** `map_speed` is odd: negating the input negates the output. */
  lemma MapSpeedOdd(x: i8)
    requires -127 <= x
    ensures MapSpeed(-x) == -MapSpeed(x)
  {
  }

  /** `map_speed` never decreases as its input grows. */
  lemma MapSpeedMonotone(x: i8, y: i8)
    requires -128 < x <= y
    ensures MapSpeed(x) <= MapSpeed(y)
  {
    if ZERO_LIMIT < x {
      MulMonotone(Min(x, MAX), Min(y, MAX), REST);
      DivMonotone(REST * Min(x, MAX), REST * Min(y, MAX), 100);
    } else if y < -ZERO_LIMIT {
      MulMonotone(Min(-y, MAX), Min(-x, MAX), REST);
      DivMonotone(REST * Min(-y, MAX), REST * Min(-x, MAX), 100);
    }
  }

  /** The magnitude of `map_speed` never decreases as the input's magnitude grows. */
  lemma MapSpeedMagnitudeMonotone(x: i8, y: i8)
    requires x != -128 && y != -128 && Abs(x) <= Abs(y)
    ensures Abs(MapSpeed(x)) <= Abs(MapSpeed(y))
  {
    var ax: i8, ay: i8 := Abs(x), Abs(y);
    MapSpeedMonotone(ax, ay);
    MapSpeedOdd(x);
    MapSpeedOdd(y);
  }

  /** `map_speed` expects an ideal speed, not an actuator speed: applying it
      twice is not the same as applying it once. */
  lemma MapSpeedNotIdempotent()
    ensures MapSpeed(50) == 60 && MapSpeed(MapSpeed(50)) == 68
  {
  }

  // ---------------------------------------------------------------------
  // Distance policy
  // ---------------------------------------------------------------------

  /** The base forward speed for one measurement: stop when an object is 25 cm
      away or closer, ramp from 51 at 26 cm to 75 at 50 cm, 75 beyond; full
      speed when there is no echo to time, and stop on a sensor error. */
  function BaseSpeed(m: Result<Option<Ultrasonic.Micrometers>, ()>): (s: nat)
    ensures s <= 100
    ensures m.Err? ==> s == 0
    ensures m == Ok(None) ==> s == 100
    ensures m.Ok? && m.value.Some? ==>
      var cm := Ultrasonic.AsCentimeters(m.value.value);
      && (cm <= 25 ==> s == 0)
      && (25 < cm <= 50 ==> s == 50 + (cm - 25))
      && (50 < cm ==> s == 75)
  {
    match m
    case Ok(Some(distance)) =>
      var distance := Ultrasonic.AsCentimeters(distance);
      if distance <= 25 then
        0
      else if distance <= 50 then
        var delta := distance - 25;
        Min(50 + delta, 75)
      else
        75
    case Ok(None) => 100
    case Err(()) => 0
  }

  /** A farther object never lowers the base speed. */
  lemma BaseSpeedMonotone(d1: Ultrasonic.Micrometers, d2: Ultrasonic.Micrometers)
    requires d1.um <= d2.um
    ensures BaseSpeed(Ok(Some(d1))) <= BaseSpeed(Ok(Some(d2)))
  {
    DivMonotone(d1.um, d2.um, 10_000);
  }

  /** The robot stops for an error or an object within 25 cm, and only then. */
  lemma BaseSpeedStops(m: Result<Option<Ultrasonic.Micrometers>, ()>)
    ensures BaseSpeed(m) == 0 <==>
      m.Err? || (m.value.Some? && Ultrasonic.AsCentimeters(m.value.value) <= 25)
  {
  }

  // ---------------------------------------------------------------------
  // Light steering
  // ---------------------------------------------------------------------

  /** A reading of the two light sensors (right first, as sampled). */
  datatype LightValues = LightValues(right: i16, left: i16)

  /** Rust's `/` on signed integers: the quotient rounded toward zero. */
  function TruncDiv(a: int, b: int): (q: int)
    requires b > 0
    ensures Abs(q) * b <= Abs(a) < (Abs(q) + 1) * b
    ensures (a >= 0 ==> q >= 0) && (a <= 0 ==> q <= 0)
  {
    var magnitude := Abs(a) / b;
    DivBounds(Abs(a), b);
    assert Abs(if a >= 0 then magnitude else -magnitude) == magnitude;
    if a >= 0 then magnitude else -magnitude
  }

  /** Rounding toward zero differs from Dafny's Euclidean division on
      negative dividends. */
  lemma TruncDivOfNegative()
    ensures TruncDiv(-31, 30) == -1 && -31 / 30 == -2
  {
  }

  /** `light.right - light.left` is computed in `i16`. */
  predicate LightDiffFits(light: LightValues)
  {
    -32768 <= light.right - light.left <= 32767
  }

  /** The steering term: the light difference divided by 30 (toward zero),
      capped at 25 from above only. */
  function Steering(light: LightValues): (d: int)
    requires LightDiffFits(light)
    ensures d <= 25
    ensures d >= 0 <==> light.right - light.left > -30
    ensures d == 0 <==> -30 < light.right - light.left < 30
    ensures light.right - light.left < 30 * 26 ==> d == TruncDiv(light.right - light.left, 30)
    ensures light.right - light.left >= 30 * 26 ==> d == 25
  {
    var diff := light.right - light.left;
    Min(TruncDiv(diff, 30), 25)
  }

  /** The two wheel targets before `map_speed`. */
  datatype Targets = Targets(left: int, right: int)

  /** The base speed plus the steering term for the left wheel, minus it for the right. */
  function Steer(base: nat, light: LightValues): (t: Targets)
    requires LightDiffFits(light)
    ensures t.left + t.right == 2 * base
    ensures t.left - t.right == 2 * Steering(light)
    ensures t.left >= t.right <==> light.right - light.left > -30
  {
    var diff := Steering(light);
    Targets(base + diff, base - diff)
  }

  /** The loop body does not panic: the light difference fits `i16` and both
      targets convert to `i8`. */
  predicate StepDefined(light: LightValues, m: Result<Option<Ultrasonic.Micrometers>, ()>)
  {
    LightDiffFits(light) &&
    var t := Steer(BaseSpeed(m), light);
    -128 <= t.left <= 127 && -128 <= t.right <= 127
  }

  /** The two wheel speeds of one loop iteration. */
  datatype Command = Command(left: i8, right: i8)

  /** Whenever both targets convert to `i8`, neither is -128, so `map_speed`
      never takes the absolute value that overflows. */
  lemma TargetsAvoidMinI8(light: LightValues, m: Result<Option<Ultrasonic.Micrometers>, ()>)
    requires StepDefined(light, m)
    ensures Steer(BaseSpeed(m), light).left != -128
    ensures Steer(BaseSpeed(m), light).right != -128
  {
  }

  /** One iteration of `main`'s loop, as written: the base speed from the
      measurement, the steering term from the light, both targets through
      `map_speed`. */
  function ControlStep(light: LightValues, m: Result<Option<Ultrasonic.Micrometers>, ()>): (c: Command)
    requires StepDefined(light, m)
    ensures -MAX <= c.left <= MAX && -MAX <= c.right <= MAX
  {
    var speed := BaseSpeed(m);
    var t := Steer(speed, light);
    TargetsAvoidMinI8(light, m);
    var left: i8, right: i8 := t.left, t.right;
    Command(MapSpeed(left), MapSpeed(right))
  }

  /** The left wheel is commanded at least as fast as the right one when the
      right sensor reads no less than 30 below the left one, and at most as
      fast otherwise. */
  lemma SteersByLight(light: LightValues, m: Result<Option<Ultrasonic.Micrometers>, ()>)
    requires StepDefined(light, m)
    ensures light.right - light.left > -30 ==> ControlStep(light, m).left >= ControlStep(light, m).right
    ensures light.right - light.left <= -30 ==> ControlStep(light, m).left <= ControlStep(light, m).right
  {
    var t := Steer(BaseSpeed(m), light);
    TargetsAvoidMinI8(light, m);
    if t.left >= t.right {
      MapSpeedMonotone(t.right, t.left);
    } else {
      MapSpeedMonotone(t.left, t.right);
    }
  }

  /** With an error or an object within 25 cm, the robot stands still unless
      the light difference is at least 90. */
  lemma StopsWhenBlocked(light: LightValues, m: Result<Option<Ultrasonic.Micrometers>, ()>)
    requires LightDiffFits(light) && -90 < light.right - light.left < 90
    requires m.Err? || (m.value.Some? && Ultrasonic.AsCentimeters(m.value.value) <= 25)
    ensures StepDefined(light, m)
    ensures ControlStep(light, m) == Command(0, 0)
  {
    BaseSpeedStops(m);
  }

  /** With no echo to time and balanced light, both wheels run at full speed. */
  lemma FullSpeedWhenClear(light: LightValues)
    requires LightDiffFits(light) && -30 < light.right - light.left < 30
    ensures StepDefined(light, Ok(None))
    ensures ControlStep(light, Ok(None)) == Command(MAX, MAX)
  {
  }

  /** Right sensor at 500, left at 200, an object at 40 cm: base speed 65,
      steering 10, targets 75 and 55, wheel speeds 80 and 64. */
  lemma ControlStepExample()
    ensures StepDefined(LightValues(500, 200), Ok(Some(Ultrasonic.Micrometers(400_000))))
    ensures ControlStep(LightValues(500, 200), Ok(Some(Ultrasonic.Micrometers(400_000)))) == Command(80, 64)
  {
    assert BaseSpeed(Ok(Some(Ultrasonic.Micrometers(400_000)))) == 65;
    assert Steering(LightValues(500, 200)) == 10;
  }

  /** A left sensor 840 brighter than the right one on a clear path makes the
      right target 128, which does not fit `i8`: `try_into().unwrap()` panics. */
  lemma SteeringOverflows()
    ensures LightDiffFits(LightValues(0, 840))
    ensures Steer(BaseSpeed(Ok(None)), LightValues(0, 840)) == Targets(72, 128)
    ensures !StepDefined(LightValues(0, 840), Ok(None))
  {
    assert Steering(LightValues(0, 840)) == -28;
  }

  /** The steering term clamped to -25..=25 on both sides. */
  function SteeringClamped(light: LightValues): (d: int)
    requires LightDiffFits(light)
    ensures -25 <= d <= 25
    ensures light.right - light.left > -30 * 26 ==> d == Steering(light)
    ensures d >= 0 <==> light.right - light.left > -30
  {
    var diff := light.right - light.left;
    if TruncDiv(diff, 30) < -25 then -25 else Min(TruncDiv(diff, 30), 25)
  }

  /** The loop body with the steering term clamped on both sides: defined for
      every reading whose difference fits `i16`, and equal to `ControlStep`
      wherever the lower clamp is not reached. */
  function ControlStepClamped(light: LightValues, m: Result<Option<Ultrasonic.Micrometers>, ()>): (c: Command)
    requires LightDiffFits(light)
    ensures -MAX <= c.left <= MAX && -MAX <= c.right <= MAX
    ensures light.right - light.left > -30 * 26 ==>
      StepDefined(light, m) && c == ControlStep(light, m)
  {
    var speed := BaseSpeed(m);
    var diff := SteeringClamped(light);
    var left: i8, right: i8 := speed + diff, speed - diff;
    Command(MapSpeed(left), MapSpeed(right))
  }

  /** One iteration of `main`'s loop on the hardware model: measure the
      distance, compute the command, and write it to the wheels. Reading the
      light sensors and the 100 ms delay are not modelled; the reading is a
      parameter. */
  method Tick(wheels: Wheels.Wheels, sonar: Ultrasonic.Ultrasonic, light: LightValues, echo: Ultrasonic.Echo)
    returns (c: Command)
    requires wheels.Valid() && sonar.pin.Valid() && sonar.pin.mode == Gpio.Disconnected
    requires StepDefined(light, Ultrasonic.Measurement(echo))
    modifies wheels.duty, sonar.pin
    ensures c == ControlStep(light, Ultrasonic.Measurement(echo))
    ensures wheels.duty[..] == Wheels.ChannelDuties(c.left, c.right)
    ensures sonar.pin.Valid() && sonar.pin.mode == Gpio.Disconnected
    ensures sonar.pin.events ==
      old(sonar.pin.events) + Ultrasonic.Ultrasonic.MeasurementEvents(Ultrasonic.Measurement(echo))
  {
    var distance := sonar.MeasureDistance(echo);
    ghost var events := sonar.pin.events;
    c := ControlStep(light, distance);
    wheels.SetSpeed(c.left, c.right);
    assert sonar.pin.events == events;
  }
}
