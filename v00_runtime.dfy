/** The runtime-checked door: one mutable flag, and a call in the wrong state panics. This is
    the baseline the typestate variants improve on, so every panic here is a precondition:
    Dafny refuses a caller that cannot show the door is in the right state. */
module RuntimeDoor {
  import opened DoorMachine

  class Door {
    var isOpen: bool

    /** The struct literal `Door { is_open }`. */
    constructor (isOpen: bool)
      ensures this.isOpen == isOpen
    {
      this.isOpen := isOpen;
    }

    /** Panics on a closed door; only reads the flag. */
    method LookThrough()
      requires isOpen
      ensures unchanged(this)
    {
    }

    /** Panics on an open door; only reads the flag. */
    method Knock()
      requires !isOpen
      ensures unchanged(this)
    {
    }

    /** Whatever the door was, it is open afterwards. */
    method Open()
      modifies this
      ensures isOpen
    {
      isOpen := true;
    }

    /** Whatever the door was, it is closed afterwards. */
    method Close()
      modifies this
      ensures !isOpen
    {
      isOpen := false;
    }
  }

  /** One call of `Door`'s methods on a door whose flag is `isOpen`: `None` where the method
      panics, otherwise the flag afterwards. */
  function Step(isOpen: bool, c: Call): (r: Option<bool>)
    ensures r.None? <==> (c.LookThrough? && !isOpen) || (c.Knock? && isOpen)
    ensures r.Some? && (c.LookThrough? || c.Knock?) ==> r.value == isOpen
    ensures r.Some? && (c.Open? || c.Close?) ==> r.value == c.Open?
  {
    match c
    case LookThrough => if isOpen then Some(isOpen) else None
    case Knock => if isOpen then None else Some(isOpen)
    case Open => Some(true)
    case Close => Some(false)
  }

  /** Sends `c` to the method of that name; `Step` is what that method does to the flag. */
  method Do(door: Door, c: Call)
    requires Step(door.isOpen, c).Some?
    modifies door
    ensures door.isOpen == Step(old(door.isOpen), c).value
  {
    match c
    case LookThrough => door.LookThrough();
    case Knock => door.Knock();
    case Open => door.Open();
    case Close => door.Close();
  }

  /** Makes the calls one by one on `door`, stopping before the first one that would panic;
      the outcome is the one `Run` gives, and the door is left as the accepted calls left it. */
  method Replay(door: Door, calls: seq<Call>) returns (r: Outcome<bool>)
    modifies door
    ensures r == Run(Step, old(door.isOpen), calls)
    ensures r.Accepted? ==> door.isOpen == r.last
    ensures r.Refused? ==> Run(Step, old(door.isOpen), calls[..r.at]) == Accepted(door.isOpen)
  {
    ghost var start := door.isOpen;
    var i := 0;
    while i < |calls|
      invariant 0 <= i <= |calls|
      invariant Run(Step, start, calls[..i]) == Accepted(door.isOpen)
    {
      if Step(door.isOpen, calls[i]).None? {
        RefusedAtFirstUnacceptedCall(Step, start, calls, i);
        return Refused(i);
      }
      ghost var before := door.isOpen;
      Do(door, calls[i]);
      assert calls[..i + 1] == calls[..i] + [calls[i]];
      RunAppend(Step, start, calls[..i], [calls[i]]);
      assert Run(Step, before, [calls[i]]) == Accepted(door.isOpen);
      i := i + 1;
    }
    assert calls[..i] == calls;
    r := Accepted(door.isOpen);
  }

  /** The crate's test: the first `LookThrough` and the `Close` go through, and the door is
      then closed, so the precondition of the second `LookThrough` cannot be met. */
  method ShouldNotLookThroughAClosedDoor() returns (door: Door)
    ensures !door.isOpen
  {
    door := new Door(true);
    door.LookThrough();
    door.Close();
  }

  /** The same test as a call sequence: it is refused at its third call, the second
      `LookThrough`. */
  lemma TestSequenceRefused()
    ensures Run(Step, true, [Call.LookThrough, Call.Close, Call.LookThrough]) == Refused(2)
  {
  }

  /** `LookThrough` and `Knock` never change the flag. */
  lemma {:induction false} BorrowsKeepFlag(isOpen: bool, calls: seq<Call>)
    requires forall i :: 0 <= i < |calls| ==> calls[i].LookThrough? || calls[i].Knock?
    ensures Run(Step, isOpen, calls).Accepted? ==> Run(Step, isOpen, calls).last == isOpen
    decreases |calls|
  {
    if calls != [] && Step(isOpen, calls[0]).Some? {
      BorrowsKeepFlag(isOpen, calls[1..]);
    }
  }

  /** `Open` and `Close` overwrite the flag: after the last of them, and any number of
      `LookThrough` and `Knock` calls, the door is open exactly when that last call was
      `Open`, whatever came before. */
  lemma TransitionsOverwrite(isOpen: bool, before: seq<Call>, c: Call, after: seq<Call>)
    requires c.Open? || c.Close?
    requires forall i :: 0 <= i < |after| ==> after[i].LookThrough? || after[i].Knock?
    ensures Run(Step, isOpen, before + [c] + after).Accepted? ==>
      Run(Step, isOpen, before + [c] + after).last == c.Open?
  {
    assert before + [c] + after == before + ([c] + after);
    RunAppend(Step, isOpen, before, [c] + after);
    if Run(Step, isOpen, before).Accepted? {
      var t := Run(Step, isOpen, before).last;
      assert ([c] + after)[0] == c && ([c] + after)[1..] == after;
      BorrowsKeepFlag(c.Open?, after);
      match Run(Step, c.Open?, after)
      case Accepted(_) =>
      case Refused(_) =>
    }
  }

  /** `Close` then `Open` leaves the door open, `Open` then `Close` leaves it closed, and a
      second `Open` or `Close` changes nothing, from either state. */
  lemma TransitionPairs(isOpen: bool)
    ensures Run(Step, isOpen, [Call.Close, Call.Open]) == Accepted(true)
    ensures Run(Step, isOpen, [Call.Open, Call.Close]) == Accepted(false)
    ensures Run(Step, isOpen, [Call.Open, Call.Open]) == Run(Step, isOpen, [Call.Open])
    ensures Run(Step, isOpen, [Call.Close, Call.Close]) == Run(Step, isOpen, [Call.Close])
  {
  }

  lemma StepExtendsMachine()
    ensures forall x, c :: MachineStep(x, c).Some? ==> Step(x, c) == MachineStep(x, c)
  {
  }

  /** The runtime checks let through every sequence the state machine allows, ending in the
      same state, and every sequence that panics is one the state machine rules out, at the
      panicking call or before it. */
  lemma RuntimeChecksExtendMachine(isOpen: bool, calls: seq<Call>)
    ensures Run(MachineStep, isOpen, calls).Accepted? ==>
      Run(Step, isOpen, calls) == Run(MachineStep, isOpen, calls)
    ensures Run(Step, isOpen, calls).Refused? ==>
      Run(MachineStep, isOpen, calls).Refused? &&
      Run(MachineStep, isOpen, calls).at <= Run(Step, isOpen, calls).at
  {
    StepExtendsMachine();
    RunExtends(MachineStep, Step, isOpen, calls);
  }

  /** The extension is strict: opening an open door or closing a closed one does not panic
      here, although the state machine has no such edge. */
  lemma RuntimeAcceptsRepeatedTransitions()
    ensures Run(Step, true, [Call.Open]) == Accepted(true)
    ensures Run(MachineStep, true, [Call.Open]) == Refused(0)
    ensures Run(Step, false, [Call.Close]) == Accepted(false)
    ensures Run(MachineStep, false, [Call.Close]) == Refused(0)
  {
  }
}
