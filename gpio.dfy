/** The single GPIO line the ultrasonic sensor uses for both trigger and echo,
    as the HAL exposes it: an `Output` handle that drives a level, an `Input`
    handle that can wait for an edge, and dropping a handle to release the
    line. Each operation is allowed only in the mode that provides it, and the
    ghost `events` trace records what was done to the line, in order. */
module Gpio {
  import opened RustTypes

  datatype Level = Low | High

  datatype Mode = Disconnected | Output | Input

  datatype Edge = Rising | Falling

  /** The level the line shows once the edge has happened. */
  function After(e: Edge): Level
  {
    match e
    case Rising => High
    case Falling => Low
  }

  /** One observable action on the line. */
  datatype PinEvent =
    | Configure(mode: Mode)
    | Drive(level: Level)
    | Await(edge: Edge)
    | Dropped

  /** The mode after one action taken in mode `m`, or `None` when the action
      is not available in `m`: a free line can be taken as an output or an
      input, only an output can be driven, only an input can be awaited, and
      only a taken line can be released. */
  function Step(m: Mode, e: PinEvent): (r: Option<Mode>)
    ensures r.Some? && e.Drive? ==> m == Output
    ensures r.Some? && e.Await? ==> m == Input
  {
    match e
    case Configure(target) => if m == Disconnected && target != Disconnected then Some(target) else None
    case Drive(_) => if m == Output then Some(Output) else None
    case Await(_) => if m == Input then Some(Input) else None
    case Dropped => if m != Disconnected then Some(Disconnected) else None
  }

  /** Replays a history of actions from mode `m`: the final mode when every
      action was available when it was taken, `None` otherwise. */
  function Replay(m: Mode, es: seq<PinEvent>): Option<Mode>
    decreases |es|
  {
    if es == [] then Some(m)
    else
      match Step(m, es[0])
      case None => None
      case Some(m') => Replay(m', es[1..])
  }

  /** Replaying two histories one after the other is replaying their concatenation. */
  lemma {:induction false} ReplayAppend(m: Mode, a: seq<PinEvent>, b: seq<PinEvent>)
    ensures Replay(m, a + b) ==
      match Replay(m, a)
      case None => None
      case Some(m') => Replay(m', b)
    decreases |a|
  {
    if a != [] {
      assert (a + b)[0] == a[0] && (a + b)[1..] == a[1..] + b;
      match Step(m, a[0])
      case None =>
      case Some(m') => ReplayAppend(m', a[1..], b);
    } else {
      assert a + b == b;
    }
  }

  /** Outcome of `select(wait_for_edge, Timer::after(timeout))`: the edge
      future won at a time measured from the start of the wait, or the timer
      fired first. */
  datatype Race = EdgeSeen(at: nat) | TimerFired

  /** True when an edge at `at` (from the start of the wait) is seen before the
      timer of length `timeout` completes the race. `select` polls the edge
      future first, so an edge at exactly `timeout` still wins. */
  predicate EdgeWithin(at: Option<nat>, timeout: nat)
  {
    at.Some? && at.value <= timeout
  }

  /** The race of one edge wait against one timer. */
  function Select(at: Option<nat>, timeout: nat): (r: Race)
    ensures r.EdgeSeen? <==> EdgeWithin(at, timeout)
    ensures r.EdgeSeen? ==> r.at == at.value && r.at <= timeout
  {
    if EdgeWithin(at, timeout) then EdgeSeen(at.value) else TimerFired
  }

  class Pin {
    var mode: Mode
    var level: Level
    ghost var events: seq<PinEvent>

    /** The history is a valid use of the line and ends in the current mode. */
    ghost predicate Valid()
      reads this
    {
      Replay(Disconnected, events) == Some(mode)
    }

    /** Taking `es` in the current mode is valid and ends in `m'`. */
    lemma Extend(es: seq<PinEvent>, m': Mode)
      requires Valid() && Replay(mode, es) == Some(m')
      ensures Replay(Disconnected, events + es) == Some(m')
    {
      ReplayAppend(Disconnected, events, es);
    }

    /** The peripheral as the board hands it over: not yet configured. */
    constructor ()
      ensures Valid()
      ensures mode == Disconnected && level == Low && events == []
    {
      mode := Disconnected;
      level := Low;
      events := [];
    }

    /** `Output::new(pin, initial, ..)`: take the line as an output that
        drives `initial`. */
    method ConfigureOutput(initial: Level)
      requires Valid()
      requires mode == Disconnected
      modifies this
      ensures Valid()
      ensures mode == Output && level == initial
      ensures events == old(events) + [Configure(Output), Drive(initial)]
    {
      assert [Configure(Output), Drive(initial)][1..] == [Drive(initial)];
      assert Replay(Output, [Drive(initial)]) == Some(Output);
      Extend([Configure(Output), Drive(initial)], Output);
      mode := Output;
      level := initial;
      events := events + [Configure(Output), Drive(initial)];
    }

    /** `Input::new(pin, Pull::None)`: take the line as an input. */
    method ConfigureInput()
      requires Valid()
      requires mode == Disconnected
      modifies this
      ensures Valid()
      ensures mode == Input && level == old(level)
      ensures events == old(events) + [Configure(Input)]
    {
      Extend([Configure(Input)], Input);
      mode := Input;
      events := events + [Configure(Input)];
    }

    /** Dropping the `Output` or `Input` handle gives the line back. */
    method Release()
      requires Valid()
      requires mode != Disconnected
      modifies this
      ensures Valid()
      ensures mode == Disconnected && level == old(level)
      ensures events == old(events) + [Dropped]
    {
      Extend([Dropped], Disconnected);
      mode := Disconnected;
      events := events + [Dropped];
    }

    /** `set_high` / `set_low` on an output. */
    method Set(l: Level)
      requires Valid()
      requires mode == Output
      modifies this
      ensures Valid()
      ensures mode == Output && level == l
      ensures events == old(events) + [Drive(l)]
    {
      Extend([Drive(l)], Output);
      level := l;
      events := events + [Drive(l)];
    }

    /** `select(pin.wait_for_<edge>(), Timer::after(timeout))` on an input;
        `at` is when the awaited edge occurs on the line, if it does. */
    method WaitForEdge(edge: Edge, at: Option<nat>, timeout: nat) returns (r: Race)
      requires Valid()
      requires mode == Input
      modifies this
      ensures Valid()
      ensures r == Select(at, timeout)
      ensures mode == Input && level == old(level)
      ensures events == old(events) + [Await(edge)]
    {
      Extend([Await(edge)], Input);
      r := Select(at, timeout);
      events := events + [Await(edge)];
    }
  }
}
