/** Typestate with one door type generic over a state value. `Door<S>` holds the state itself
    beside the shared color, so a state can carry its own data: an open door has an angle, a
    closed door has nothing. The angle is readable only through `Door<Opened>`. */
module GenericState {
  import opened DoorMachine

  datatype Opened = Opened(angle: real)

  datatype Closed = Closed

  datatype Door<S> = Door(state: S, color: string)

  /** The angle `Open` installs. */
  const OpenedAngle: real := 90.0

  /** Exists only for an open door; borrows it, so the door is the same afterwards. */
  function LookThrough(d: Door<Opened>): (after: Door<Opened>)
    ensures after == d
  {
    d
  }

  /** Transition: an open door becomes a closed door of the same color; `Closed` has no
      field to keep the angle in. */
  function Close(d: Door<Opened>): (r: Door<Closed>)
    ensures Color(r) == Color(d)
  {
    Door(Closed, d.color)
  }

  /** State-specific data, readable only while open. */
  function OpenAngle(d: Door<Opened>): (angle: real)
    ensures d.state == Opened(angle)
  {
    d.state.angle
  }

  /** Exists only for a closed door; borrows it, so the door is the same afterwards. */
  function Knock(d: Door<Closed>): (after: Door<Closed>)
    ensures after == d
  {
    d
  }

  /** Transition: a closed door becomes an open door of the same color, opened to 90 degrees. */
  function Open(d: Door<Closed>): (r: Door<Opened>)
    ensures Color(r) == Color(d)
    ensures OpenAngle(r) == OpenedAngle
  {
    Door(Opened(OpenedAngle), d.color)
  }

  /** Defined once for every state. */
  function Color<S>(d: Door<S>): (color: string)
    ensures color == d.color
  {
    d.color
  }

  /** Closing and reopening keeps the color and resets the angle to 90 degrees, whatever it
      was (the crate's test door stands at 45); a closed door has no data besides its color,
      so opening and closing it gives it back. */
  lemma RoundTrips(o: Door<Opened>, k: Door<Closed>)
    ensures Open(Close(o)) == Door(Opened(OpenedAngle), Color(o))
    ensures Close(Open(k)) == k
  {
    assert k.state == Closed;
  }

  /** A door in either state, as a caller holds it between calls. */
  datatype AnyDoor = AtOpen(o: Door<Opened>) | AtClosed(k: Door<Closed>)

  function IsOpen(d: AnyDoor): (b: bool)
  {
    d.AtOpen?
  }

  function ColorOf(d: AnyDoor): (color: string)
  {
    match d
    case AtOpen(o) => Color(o)
    case AtClosed(k) => Color(k)
  }

  /** What the type checker allows: a call goes through only when the door's instantiation
      declares that operation; `None` is a call that does not compile. */
  function Apply(d: AnyDoor, c: Call): (r: Option<AnyDoor>)
    ensures r.Some? <==> MachineStep(IsOpen(d), c).Some?
    ensures r.Some? ==> IsOpen(r.value) == MachineStep(IsOpen(d), c).value
    ensures r.Some? ==> ColorOf(r.value) == ColorOf(d)
  {
    match d
    case AtOpen(o) =>
      if c.LookThrough? then Some(AtOpen(LookThrough(o)))
      else if c.Close? then Some(AtClosed(Close(o)))
      else None
    case AtClosed(k) =>
      if c.Knock? then Some(AtClosed(Knock(k)))
      else if c.Open? then Some(AtOpen(Open(k)))
      else None
  }

  lemma ApplyFollowsMachine()
    ensures forall d, c :: MachineStep(IsOpen(d), c) == MapOption(Apply(d, c), IsOpen)
  {
  }

  /** The type checker accepts exactly the call sequences the state machine allows, rejects
      the others at the first call that leaves the machine, and an accepted sequence ends in
      the same state. */
  lemma TypedCallsFollowMachine(d: AnyDoor, calls: seq<Call>)
    ensures Run(MachineStep, IsOpen(d), calls) == MapOutcome(Run(Apply, d, calls), IsOpen)
  {
    ApplyFollowsMachine();
    RunSimulates(Apply, MachineStep, IsOpen, d, calls);
  }

  /** The color survives every accepted sequence of calls. */
  lemma ColorSurvives(d: AnyDoor, calls: seq<Call>)
    ensures Run(Apply, d, calls).Accepted? ==> ColorOf(Run(Apply, d, calls).last) == ColorOf(d)
  {
    var color := ColorOf(d);
    forall t, c | ColorOf(t) == color && Apply(t, c).Some?
      ensures ColorOf(Apply(t, c).value) == color
    {
    }
    RunPreserves(Apply, e => ColorOf(e) == color, d, calls);
  }

  /** The angle is set exactly when the door enters the open state: if an accepted sequence
      ends open and contains an `Open`, the angle is 90 degrees; if it contains none, the
      door started open and is the same door, angle included. */
  lemma {:induction false} AngleSetOnEntry(d: AnyDoor, calls: seq<Call>, e: Door<Opened>)
    requires Run(Apply, d, calls) == Accepted(AtOpen(e))
    ensures Call.Open in calls ==> OpenAngle(e) == OpenedAngle
    ensures Call.Open !in calls ==> d == AtOpen(e)
    decreases |calls|
  {
    if calls != [] {
      var t := Apply(d, calls[0]).value;
      assert Run(Apply, t, calls[1..]) == Accepted(AtOpen(e));
      AngleSetOnEntry(t, calls[1..], e);
      assert calls == [calls[0]] + calls[1..];
    }
  }

  /** The crate's test: an open brown door at 45 degrees can be looked through; the
      commented-out continuation, closing it and looking through again, is rejected at its
      last call. */
  lemma TestSequences()
    ensures Run(Apply, AtOpen(Door(Opened(45.0), "brown")), [Call.LookThrough]) ==
      Accepted(AtOpen(Door(Opened(45.0), "brown")))
    ensures Run(Apply, AtOpen(Door(Opened(45.0), "brown")), [Call.LookThrough, Call.Close, Call.LookThrough]) ==
      Refused(2)
  {
  }
}
