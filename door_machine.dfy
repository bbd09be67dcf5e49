/** The door state machine that all four variants implement: a door is open or closed,
    `LookThrough` belongs to the open door, `Knock` to the closed one, `Close` takes an open
    door to closed and `Open` a closed door to open.

    A variant is described here by its one-call step: for a door value and a call, either the
    door value after the call, or `None` where the variant refuses the call (a panic in the
    runtime-checked door, a call that does not type-check in the typestate doors). `Run` replays
    a sequence of calls through a step and stops at the first refused call. */
module DoorMachine {

  /** The operations of the door. */
  datatype Call = LookThrough | Knock | Open | Close

  datatype Option<T> = None | Some(value: T)

  /** The edges of the state machine, on the flag "the door is open": `LookThrough` and
      `Knock` keep the state, `Close` leads from open to closed, `Open` from closed to open,
      and no other call exists in a state. */
  function MachineStep(isOpen: bool, c: Call): (r: Option<bool>)
    ensures r.Some? <==> (isOpen <==> c.LookThrough? || c.Close?)
    ensures r.Some? ==> r.value == (c.LookThrough? || c.Open?)
  {
    match c
    case LookThrough => if isOpen then Some(true) else None
    case Knock => if isOpen then None else Some(false)
    case Open => if isOpen then None else Some(true)
    case Close => if isOpen then Some(false) else None
  }

  function MapOption<S, T>(o: Option<S>, f: S -> T): (r: Option<T>)
  {
    match o
    case None => None
    case Some(s) => Some(f(s))
  }

  /** How a sequence of calls ends: every call was accepted and the door ended as `last`, or
      the call at index `at` was refused and nothing after it ran. */
  datatype Outcome<S> = Accepted(last: S) | Refused(at: nat)

  function MapOutcome<S, T>(o: Outcome<S>, f: S -> T): (r: Outcome<T>)
  {
    match o
    case Accepted(s) => Accepted(f(s))
    case Refused(k) => Refused(k)
  }

  /** The outcome of calls that come after `n` accepted ones: a refusal index moves by `n`. */
  function Shift<S>(o: Outcome<S>, n: nat): (r: Outcome<S>)
  {
    match o
    case Accepted(_) => o
    case Refused(k) => Refused(k + n)
  }

  /** Replays `calls` from `s`; a refusal names a call that exists. */
  function Run<S>(step: (S, Call) -> Option<S>, s: S, calls: seq<Call>): (r: Outcome<S>)
    ensures r.Refused? ==> r.at < |calls|
    decreases |calls|
  {
    if calls == [] then Accepted(s)
    else match step(s, calls[0])
      case None => Refused(0)
      case Some(t) => Shift(Run(step, t, calls[1..]), 1)
  }

  /** Running `a + b` is running `a`, then `b` from where `a` left the door. */
  lemma {:induction false} RunAppend<S>(step: (S, Call) -> Option<S>, s: S, a: seq<Call>, b: seq<Call>)
    ensures Run(step, s, a + b) ==
      match Run(step, s, a)
      case Refused(k) => Refused(k)
      case Accepted(t) => Shift(Run(step, t, b), |a|)
    decreases |a|
  {
    if a == [] {
      assert a + b == b;
      match Run(step, s, b)
      case Accepted(_) =>
      case Refused(_) =>
    } else {
      assert (a + b)[0] == a[0];
      assert (a + b)[1..] == a[1..] + b;
      match step(s, a[0])
      case None =>
      case Some(t) =>
        RunAppend(step, t, a[1..], b);
        match Run(step, t, a[1..])
        case Refused(_) =>
        case Accepted(u) =>
          match Run(step, u, b)
          case Accepted(_) =>
          case Refused(_) =>
    }
  }

  /** The call at index `k` is refused exactly when the calls before it were all accepted and
      the step does not accept it in the state they left. */
  lemma RefusedAtFirstUnacceptedCall<S>(step: (S, Call) -> Option<S>, s: S, calls: seq<Call>, k: nat)
    ensures Run(step, s, calls) == Refused(k) <==>
      k < |calls| && Run(step, s, calls[..k]).Accepted? &&
      step(Run(step, s, calls[..k]).last, calls[k]).None?
  {
    if k < |calls| {
      assert calls == calls[..k] + calls[k..];
      RunAppend(step, s, calls[..k], calls[k..]);
      match Run(step, s, calls[..k])
      case Refused(j) =>
        assert j < k;
      case Accepted(t) =>
        assert calls[k..][0] == calls[k];
        match step(t, calls[k])
        case None =>
        case Some(u) =>
          match Run(step, u, calls[k + 1..])
          case Accepted(_) =>
          case Refused(_) =>
    }
  }

  /** A sequence is accepted exactly when every call is accepted in the state the calls
      before it leave the door in. */
  lemma AcceptedIffEveryCallAccepted<S>(step: (S, Call) -> Option<S>, s: S, calls: seq<Call>)
    ensures Run(step, s, calls).Accepted? <==>
      forall k :: 0 <= k < |calls| && Run(step, s, calls[..k]).Accepted? ==>
        step(Run(step, s, calls[..k]).last, calls[k]).Some?
  {
    if Run(step, s, calls).Refused? {
      RefusedAtFirstUnacceptedCall(step, s, calls, Run(step, s, calls).at);
    } else {
      forall k | 0 <= k < |calls| && Run(step, s, calls[..k]).Accepted?
        ensures step(Run(step, s, calls[..k]).last, calls[k]).Some?
      {
        RefusedAtFirstUnacceptedCall(step, s, calls, k);
      }
    }
  }

  /** A property of door values that every accepted call keeps holds after every accepted
      sequence. */
  lemma {:induction false} RunPreserves<S>(step: (S, Call) -> Option<S>, inv: S -> bool, s: S, calls: seq<Call>)
    requires inv(s)
    requires forall t, c :: inv(t) && step(t, c).Some? ==> inv(step(t, c).value)
    ensures Run(step, s, calls).Accepted? ==> inv(Run(step, s, calls).last)
    decreases |calls|
  {
    if calls != [] {
      match step(s, calls[0])
      case None =>
      case Some(t) =>
        RunPreserves(step, inv, t, calls[1..]);
    }
  }

  /** When `fine` refines `coarse` through `abs` call by call, the two accept the same
      sequences, refuse at the same call, and end in corresponding states. */
  lemma {:induction false} RunSimulates<S, T>(fine: (S, Call) -> Option<S>, coarse: (T, Call) -> Option<T>,
                                             abs: S -> T, s: S, calls: seq<Call>)
    requires forall x, c :: coarse(abs(x), c) == MapOption(fine(x, c), abs)
    ensures Run(coarse, abs(s), calls) == MapOutcome(Run(fine, s, calls), abs)
    decreases |calls|
  {
    if calls != [] {
      assert coarse(abs(s), calls[0]) == MapOption(fine(s, calls[0]), abs);
      match fine(s, calls[0])
      case None =>
      case Some(t) =>
        RunSimulates(fine, coarse, abs, t, calls[1..]);
        match Run(fine, t, calls[1..])
        case Accepted(_) =>
        case Refused(_) =>
    }
  }

  /** When `lenient` agrees with `strict` on every call `strict` accepts, it completes every
      sequence `strict` accepts, in the same state; and a sequence `lenient` refuses at a call
      is refused by `strict` at that call or earlier. */
  lemma {:induction false} RunExtends<S>(strict: (S, Call) -> Option<S>, lenient: (S, Call) -> Option<S>,
                                        s: S, calls: seq<Call>)
    requires forall x, c :: strict(x, c).Some? ==> lenient(x, c) == strict(x, c)
    ensures Run(strict, s, calls).Accepted? ==> Run(lenient, s, calls) == Run(strict, s, calls)
    ensures Run(lenient, s, calls).Refused? ==>
      Run(strict, s, calls).Refused? && Run(strict, s, calls).at <= Run(lenient, s, calls).at
    decreases |calls|
  {
    if calls != [] {
      match strict(s, calls[0])
      case None =>
      case Some(t) =>
        RunExtends(strict, lenient, t, calls[1..]);
        match Run(strict, t, calls[1..])
        case Accepted(_) =>
        case Refused(_) =>
          match Run(lenient, t, calls[1..])
          case Accepted(_) =>
          case Refused(_) =>
    }
  }
}
