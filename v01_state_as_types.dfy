/** Typestate with one type per state. `OpenDoor` and `ClosedDoor` carry no data; an
    operation exists only on the type of the state it belongs to, so calling `LookThrough` on a
    closed door or `Knock` on an open one is a type error rather than a runtime failure. A
    transition takes the old door and returns the other type. */
module StateAsTypes {
  import opened DoorMachine
  import RuntimeDoor

  datatype OpenDoor = OpenDoor

  datatype ClosedDoor = ClosedDoor

  /** Exists only for an open door; borrows it, so the door is the same afterwards. */
  function LookThrough(d: OpenDoor): (after: OpenDoor)
    ensures after == d
  {
    d
  }

  /** Transition: consumes an open door, returns a closed one. */
  function Close(d: OpenDoor): (r: ClosedDoor)
    ensures Open(r) == d
  {
    ClosedDoor
  }

  /** Exists only for a closed door; borrows it, so the door is the same afterwards. */
  function Knock(d: ClosedDoor): (after: ClosedDoor)
    ensures after == d
  {
    d
  }

  /** Transition: consumes a closed door, returns an open one. */
  function Open(d: ClosedDoor): (r: OpenDoor)
    ensures r == OpenDoor
  {
    OpenDoor
  }

  /** The types carry no data, so the two transitions undo each other. */
  lemma RoundTrips(o: OpenDoor, k: ClosedDoor)
    ensures Open(Close(o)) == o
    ensures Close(Open(k)) == k
  {
  }

  /** A door of either type, as a caller holds it between calls. */
  datatype Door = AtOpen(o: OpenDoor) | AtClosed(k: ClosedDoor)

  function IsOpen(d: Door): (b: bool)
  {
    d.AtOpen?
  }

  /** What the type checker allows: a call goes through only when the door's type declares
      that operation; `None` is a call that does not compile. */
  function Apply(d: Door, c: Call): (r: Option<Door>)
    ensures r.Some? <==> MachineStep(IsOpen(d), c).Some?
    ensures r.Some? ==> IsOpen(r.value) == MachineStep(IsOpen(d), c).value
  {
    match d
    case AtOpen(o) =>
      if c.LookThrough? then Some(AtOpen(LookThrough(o)))
      else if c.Close? then Some(AtClosed(Close(o)))
      else None
    case AtClosed(k) =>
      if c.Knock? then Some(AtClosed(Knock(k)))
      else if c.Open? then Some(AtOpen(Open(k)))
      else None
  }

  lemma ApplyFollowsMachine()
    ensures forall d, c :: MachineStep(IsOpen(d), c) == MapOption(Apply(d, c), IsOpen)
  {
  }

  /** The type checker accepts exactly the call sequences the state machine allows, rejects
      the others at the first call that leaves the machine, and an accepted sequence ends in
      the same state. */
  lemma TypedCallsFollowMachine(d: Door, calls: seq<Call>)
    ensures Run(MachineStep, IsOpen(d), calls) == MapOutcome(Run(Apply, d, calls), IsOpen)
  {
    ApplyFollowsMachine();
    RunSimulates(Apply, MachineStep, IsOpen, d, calls);
  }

  /** Every call sequence that panics on the runtime-checked door is rejected here, at the
      panicking call or before it, and every sequence accepted here runs on the
      runtime-checked door to the same state. */
  lemma TypedCallsRejectRuntimePanics(d: Door, calls: seq<Call>)
    ensures Run(RuntimeDoor.Step, IsOpen(d), calls).Refused? ==>
      Run(Apply, d, calls).Refused? && Run(Apply, d, calls).at <= Run(RuntimeDoor.Step, IsOpen(d), calls).at
    ensures Run(Apply, d, calls).Accepted? ==>
      Run(RuntimeDoor.Step, IsOpen(d), calls) == Accepted(IsOpen(Run(Apply, d, calls).last))
  {
    TypedCallsFollowMachine(d, calls);
    RuntimeDoor.RuntimeChecksExtendMachine(IsOpen(d), calls);
  }

  /** The crate's test: an open door can be looked through; the commented-out continuation,
      closing a door and looking through it, is rejected at its last call. The source closes a
      fresh `OpenDoor` literal rather than the door it looked through; the two are the same
      value, since `OpenDoor` has only one. */
  lemma TestSequences()
    ensures Run(Apply, AtOpen(OpenDoor), [Call.LookThrough]) == Accepted(AtOpen(OpenDoor))
    ensures Run(Apply, AtOpen(OpenDoor), [Call.LookThrough, Call.Close, Call.LookThrough]) == Refused(2)
  {
  }
}
