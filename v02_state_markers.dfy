/** Typestate with one door type generic over a state marker. `Door<S>` holds the color that
    every state shares; the markers `Opened` and `Closed` only tag the type, and an operation
    exists only for the instantiation of its state. A transition builds a door of the other
    instantiation and carries the color forward. */
module StateMarkers {
  import opened DoorMachine

  /** State markers. The door never holds a marker value: `S` appears only in its type. */
  datatype Opened = Opened

  datatype Closed = Closed

  datatype Door<S> = Door(color: string)

  /** Exists only for an open door; borrows it, so the door is the same afterwards. */
  function LookThrough(d: Door<Opened>): (after: Door<Opened>)
    ensures after == d
  {
    d
  }

  /** Transition: an open door becomes a closed door of the same color. */
  function Close(d: Door<Opened>): (r: Door<Closed>)
    ensures Color(r) == Color(d)
  {
    Door(d.color)
  }

  /** Exists only for a closed door; borrows it, so the door is the same afterwards. */
  function Knock(d: Door<Closed>): (after: Door<Closed>)
    ensures after == d
  {
    d
  }

  /** Transition: a closed door becomes an open door of the same color. */
  function Open(d: Door<Closed>): (r: Door<Opened>)
    ensures Color(r) == Color(d)
  {
    Door(d.color)
  }

  /** Defined once for every state. */
  function Color<S>(d: Door<S>): (color: string)
    ensures color == d.color
  {
    d.color
  }

  /** The color is the only data, so the two transitions undo each other. */
  lemma RoundTrips(o: Door<Opened>, k: Door<Closed>)
    ensures Open(Close(o)) == o
    ensures Close(Open(k)) == k
  {
  }

  /** A door in either state, as a caller holds it between calls. */
  datatype AnyDoor = AtOpen(o: Door<Opened>) | AtClosed(k: Door<Closed>)

  function IsOpen(d: AnyDoor): (b: bool)
  {
    d.AtOpen?
  }

  function ColorOf(d: AnyDoor): (color: string)
  {
    match d
    case AtOpen(o) => Color(o)
    case AtClosed(k) => Color(k)
  }

  /** What the type checker allows: a call goes through only when the door's instantiation
      declares that operation; `None` is a call that does not compile. */
  function Apply(d: AnyDoor, c: Call): (r: Option<AnyDoor>)
    ensures r.Some? <==> MachineStep(IsOpen(d), c).Some?
    ensures r.Some? ==> IsOpen(r.value) == MachineStep(IsOpen(d), c).value
    ensures r.Some? ==> ColorOf(r.value) == ColorOf(d)
  {
    match d
    case AtOpen(o) =>
      if c.LookThrough? then Some(AtOpen(LookThrough(o)))
      else if c.Close? then Some(AtClosed(Close(o)))
      else None
    case AtClosed(k) =>
      if c.Knock? then Some(AtClosed(Knock(k)))
      else if c.Open? then Some(AtOpen(Open(k)))
      else None
  }

  lemma ApplyFollowsMachine()
    ensures forall d, c :: MachineStep(IsOpen(d), c) == MapOption(Apply(d, c), IsOpen)
  {
  }

  /** The type checker accepts exactly the call sequences the state machine allows, rejects
      the others at the first call that leaves the machine, and an accepted sequence ends in
      the same state. */
  lemma TypedCallsFollowMachine(d: AnyDoor, calls: seq<Call>)
    ensures Run(MachineStep, IsOpen(d), calls) == MapOutcome(Run(Apply, d, calls), IsOpen)
  {
    ApplyFollowsMachine();
    RunSimulates(Apply, MachineStep, IsOpen, d, calls);
  }

  /** The color survives every accepted sequence of calls. */
  lemma ColorSurvives(d: AnyDoor, calls: seq<Call>)
    ensures Run(Apply, d, calls).Accepted? ==> ColorOf(Run(Apply, d, calls).last) == ColorOf(d)
  {
    var color := ColorOf(d);
    forall t, c | ColorOf(t) == color && Apply(t, c).Some?
      ensures ColorOf(Apply(t, c).value) == color
    {
    }
    RunPreserves(Apply, e => ColorOf(e) == color, d, calls);
  }

  /** The crate's test: an open brown door can be looked through; the commented-out
      continuation, closing it and looking through again, is rejected at its last call. */
  lemma TestSequences()
    ensures Run(Apply, AtOpen(Door("brown")), [Call.LookThrough]) == Accepted(AtOpen(Door("brown")))
    ensures Run(Apply, AtOpen(Door("brown")), [Call.LookThrough, Call.Close, Call.LookThrough]) == Refused(2)
  {
  }
}
