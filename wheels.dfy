/** The two wheel motors, each driven by a pair of PWM channels (forward,
    reverse): `Wheels::set_speed` and its `duties` closure. */
module Wheels {
  import opened RustTypes
  import opened Arith

  /** `Wheels::MAX_SPEED`: the largest speed magnitude, in percent. */
  const MAX_SPEED: i8 := 100
  /** `Wheels::MAX_DUTY`: the duty at full speed. */
  const MAX_DUTY: u16 := 0x7FFF

  /** The duties of one wheel's forward and reverse channels. */
  datatype DutyPair = DutyPair(forward: u16, reverse: u16)
  {
    /** The duty of whichever channel is driven. */
    function Magnitude(): int
    {
      forward + reverse
    }
  }

  /** The `duties` closure of `set_speed`: the sign picks the channel, the
      magnitude (at most `MAX_SPEED`) is scaled onto `0..=MAX_DUTY`, and the
      other channel gets 0. */
  function Duties(speed: i8): (p: DutyPair)
    ensures p.forward == 0 || p.reverse == 0
    ensures speed < 0 ==> p.forward == 0
    ensures speed >= 0 ==> p.reverse == 0
    ensures (p.forward == 0 && p.reverse == 0) <==> speed == 0
    ensures var m := Min(Abs(speed), MAX_SPEED);
      p.Magnitude() * MAX_SPEED <= m * MAX_DUTY < (p.Magnitude() + 1) * MAX_SPEED
    ensures p.Magnitude() <= MAX_DUTY
    ensures Abs(speed) >= MAX_SPEED ==> p.Magnitude() == MAX_DUTY
  {
    var reverse := speed < 0;
    // `speed.unsigned_abs().min(MAX_SPEED as u8)`: also defined for -128.
    var magnitude := Min(Abs(speed), MAX_SPEED);
    MulMonotone(magnitude, MAX_SPEED, MAX_DUTY);
    DivBounds(magnitude * MAX_DUTY, MAX_SPEED);
    var duty: u16 := (magnitude * MAX_DUTY) / MAX_SPEED;
    if reverse then DutyPair(0, duty) else DutyPair(duty, 0)
  }

  /** A faster speed never gets a smaller duty. */
  lemma DutiesMonotone(s: i8, t: i8)
    requires Abs(s) <= Abs(t)
    ensures Duties(s).Magnitude() <= Duties(t).Magnitude()
  {
    var ms, mt := Min(Abs(s), MAX_SPEED), Min(Abs(t), MAX_SPEED);
    MulMonotone(ms, mt, MAX_DUTY);
    DivMonotone(ms * MAX_DUTY, mt * MAX_DUTY, MAX_SPEED);
  }

  /** Speeds of opposite sign and equal magnitude drive opposite channels
      with the same duty. */
  lemma DutiesMirror(s: i8)
    requires 0 < s
    ensures Duties(-s) == DutyPair(Duties(s).reverse, Duties(s).forward)
  {
  }

  /** The four channel duties `set_speed` writes: channels 0 and 1 are the
      left wheel's forward and reverse, channels 2 and 3 the right wheel's. */
  function ChannelDuties(left: i8, right: i8): (c: seq<u16>)
    ensures |c| == 4
    ensures c[0] == 0 || c[1] == 0
    ensures c[2] == 0 || c[3] == 0
    ensures forall i :: 0 <= i < 4 ==> c[i] <= MAX_DUTY
  {
    var l, r := Duties(left), Duties(right);
    [l.forward, l.reverse, r.forward, r.reverse]
  }

  /** Each wheel's channels depend on that wheel's speed alone. */
  lemma ChannelsPerWheel(left: i8, right: i8, left': i8, right': i8)
    ensures ChannelDuties(left, right)[..2] == ChannelDuties(left, right')[..2]
    ensures ChannelDuties(left, right)[2..] == ChannelDuties(left', right)[2..]
  {
  }

  /** The PWM peripheral with its four duty channels. Its configuration
      (prescaler, period, enable) is hardware setup and is not modelled. */
  class Wheels {
    const duty: array<u16>

    ghost predicate Valid()
      reads this
    {
      duty.Length == 4
    }

    constructor ()
      ensures Valid() && fresh(duty)
      ensures duty[..] == [0, 0, 0, 0]
    {
      duty := new u16[4](_ => 0);
    }

    /** `set_speed`: write both wheels' duties, one channel at a time. */
    method SetSpeed(left: i8, right: i8)
      requires Valid()
      modifies duty
      ensures duty[..] == ChannelDuties(left, right)
    {
      var p := Duties(left);
      duty[0] := p.forward;
      duty[1] := p.reverse;
      p := Duties(right);
      duty[2] := p.forward;
      duty[3] := p.reverse;
      assert duty[..] == [duty[0], duty[1], duty[2], duty[3]];
    }
  }
}
