# Typestate door, four ways

The demo crate implements one state machine four times. The machine is a door that is open or
closed. `look_through` belongs to the open door and `knock` to the closed one. `close` goes
from open to closed and `open` from closed to open. Each version rules out illegal calls in a
different way, and this project models each version in its own module:

- `RuntimeDoor` (`v00_runtime.rs`): a class with one mutable `isOpen` flag. `Open` and `Close`
  overwrite the flag. `LookThrough` and `Knock` panic in the wrong state, so each carries that
  state as a precondition: Dafny rejects a caller that cannot show the door is in the right
  state.
- `StateAsTypes` (`v01_state_as_types.rs`): two data-less types, `OpenDoor` and `ClosedDoor`.
  Every operation takes the type of its own state, so an illegal call does not type-check.
- `StateMarkers` (`v02_state_markers.rs`): one `Door<S>` holding the shared color, with `S` a
  state marker used only in the type. Operations are defined on `Door<Opened>` or on
  `Door<Closed>`. `Color` is generic over `S`.
- `GenericState` (`v03_generic_state.rs`): `Door<S>` holds the state value beside the color.
  The open state `Opened(angle)` carries an angle and `Closed` carries nothing. `Open` installs
  90 degrees, and `OpenAngle` reads the angle, only on an open door.

The Rust state types `Open` and `Closed` of the last two versions are called `Opened` and
`Closed` here. Dafny keeps types and functions in one namespace, and the transition `Open`
needs the name.

`DoorMachine` holds what the four versions share:
- the call alphabet `Call`;
- the state machine itself (`MachineStep`), with exactly its four edges;
- a generic replay `Run(step, door, calls)` that takes a one-call step and stops at the first
  refused call.

For `RuntimeDoor` the step is `Step`: a refused call is a panic. The method `Do` sends a call
to the class method of that name and is proved to change the flag as `Step` says, and the loop
`Replay` makes a whole sequence of calls on a `Door` and is proved to end as `Run(Step, …)`
does, so the sequence lemmas about `Step` hold of the class. For each typestate version the
step is `Apply`: a refused call is one that names an operation the door's type does not have,
that is, a call that would not compile. The generic lemmas over `Run` are:
- the first refused call is characterised (`RefusedAtFirstUnacceptedCall`,
  `AcceptedIffEveryCallAccepted`);
- replay splits over concatenation (`RunAppend`);
- invariants carry through a replay (`RunPreserves`);
- steps that correspond call by call give replays that correspond (`RunSimulates`,
  `RunExtends`).

From these, each version is related to the state machine. The three typestate versions accept
exactly the sequences the machine allows. They refuse the others at the same call, and they
end in the same state. The runtime-checked door is more lenient than the machine: opening an
open door or closing a closed one does not panic there. So it completes everything the machine
allows, and everything that panics on it is refused by the machine at that call or earlier.
In particular, the crate's own v00 test sequence is refused at its third call.

## Model

| member | source | states |
|---|---|---|
| RuntimeDoor.Door.constructor | demo/src/v00_runtime.rs:16-18 | The struct literal `Door { is_open }` builds a door with exactly the given flag. |
| RuntimeDoor.Door.LookThrough | demo/src/v00_runtime.rs:21-27 | Callable only on an open door (the closed branch panics); it changes nothing, since it takes `&self`. |
| RuntimeDoor.Door.Knock | demo/src/v00_runtime.rs:29-35 | Callable only on a closed door (the open branch panics); it changes nothing. |
| RuntimeDoor.Door.Open | demo/src/v00_runtime.rs:37-39 | The door is open afterwards whatever it was before, so a second `Open` changes nothing. |
| RuntimeDoor.Door.Close | demo/src/v00_runtime.rs:41-43 | The door is closed afterwards whatever it was before, so a second `Close` changes nothing. |
| RuntimeDoor.ShouldNotLookThroughAClosedDoor | demo/src/v00_runtime.rs:51-59 | The test's first two calls (`look_through` on an open door, then `close`) go through and leave the door closed, so the precondition of the final `look_through` cannot be met. |
| RuntimeDoor.TestSequenceRefused | demo/src/v00_runtime.rs:51-59 | Replayed as a call sequence from an open door, the test panics at index 2, the second `look_through`, and at no earlier call. |
| RuntimeDoor.Step | demo/src/v00_runtime.rs:21-43 | One call on the runtime-checked door as a value: it panics exactly for `look_through` on a closed door and `knock` on an open one. Otherwise `look_through` and `knock` keep the flag, and `open`/`close` set it to open/closed. |
| RuntimeDoor.Do | demo/src/v00_runtime.rs:21-43 | Sends a call to the `Door` method of that name. Callable exactly where that method does not panic, and the flag afterwards is the one `Step` gives; this ties every sequence lemma about `Step` to the class. |
| RuntimeDoor.Replay | demo/src/v00_runtime.rs:51-59 | Makes a sequence of calls on a `Door` one by one, as the test does, stopping before the first call that would panic. Its outcome is exactly `Run(Step, …)` from the door's initial flag. The door ends as the accepted calls left it. |
| RuntimeDoor.BorrowsKeepFlag | demo/src/v00_runtime.rs:21-35 | Any sequence of only `look_through` and `knock` calls that completes leaves the flag as it was. |
| RuntimeDoor.TransitionsOverwrite | demo/src/v00_runtime.rs:37-43 | After any history, a final `open` or `close` followed only by borrowing calls leaves the door open exactly when that last transition was `open`. |
| RuntimeDoor.TransitionPairs | demo/src/v00_runtime.rs:37-43 | From either state, `close` then `open` ends open, `open` then `close` ends closed, and repeating `open` or `close` is the same as doing it once. |
| RuntimeDoor.StepExtendsMachine | demo/src/v00_runtime.rs:21-43 | On every call the state machine allows, the runtime-checked door does the same thing. |
| RuntimeDoor.RuntimeChecksExtendMachine | demo/src/v00_runtime.rs:21-43 | Every sequence the state machine allows completes without panicking, in the same state. Every sequence that panics is refused by the machine at the panicking call or earlier. |
| RuntimeDoor.RuntimeAcceptsRepeatedTransitions | demo/src/v00_runtime.rs:37-43 | The extension is strict: `open` on an open door and `close` on a closed door complete here, yet the machine has no such edge. |
| DoorMachine.MachineStep | demo/src/lib.rs:4-6 | The diagram all four versions implement: a call is allowed exactly when it belongs to the current state (`look_through`/`close` when open, `knock`/`open` when closed), and the door is open afterwards exactly after `look_through` or `open`. |
| StateAsTypes.LookThrough | demo/src/v01_state_as_types.rs:28-32 | Defined only for `OpenDoor`; the borrowed door is unchanged. |
| StateAsTypes.Knock | demo/src/v01_state_as_types.rs:42-46 | Defined only for `ClosedDoor`; the borrowed door is unchanged. |
| StateAsTypes.Close | demo/src/v01_state_as_types.rs:37-39 | Takes an `OpenDoor`, returns a `ClosedDoor` that `open` maps back to the same door. |
| StateAsTypes.Open | demo/src/v01_state_as_types.rs:47-49 | Takes a `ClosedDoor`, returns the (only) `OpenDoor`. |
| StateAsTypes.Apply | demo/src/v01_state_as_types.rs:28-50 | What type-checks: a call on a door of either type goes through exactly when the state machine allows it, and the door's type afterwards is the state the machine reaches. |
| StateAsTypes.RoundTrips | demo/src/v01_state_as_types.rs:24-49 | `close` maps `OpenDoor` to `ClosedDoor` and `open` maps back; since the types carry no data, `open(close(d)) == d` and `close(open(c)) == c`. |
| StateAsTypes.ApplyFollowsMachine | demo/src/v01_state_as_types.rs:28-49 | The methods the two types declare are exactly the state machine's edges, call by call. |
| StateAsTypes.TypedCallsFollowMachine | demo/src/v01_state_as_types.rs:1-10 | A call sequence type-checks exactly when the state machine allows it. It is rejected at the first call outside the machine, and when accepted it ends in the machine's final state. |
| StateAsTypes.TypedCallsRejectRuntimePanics | demo/src/v01_state_as_types.rs:9-10 | Every sequence that panics on the runtime-checked door fails to type-check, at the panicking call or earlier. Every sequence that type-checks runs on the runtime-checked door to the same state. |
| StateAsTypes.TestSequences | demo/src/v01_state_as_types.rs:56-67 | `look_through` on an open door is accepted. The commented-out continuation (close, then look through) is rejected at its last call. |
| StateMarkers.LookThrough | demo/src/v02_state_markers.rs:77-80 | Defined only for `Door<Opened>`; the borrowed door is unchanged. |
| StateMarkers.Close | demo/src/v02_state_markers.rs:82-88 | Turns a `Door<Opened>` into a `Door<Closed>` with the same color. |
| StateMarkers.Knock | demo/src/v02_state_markers.rs:91-94 | Defined only for `Door<Closed>`; the borrowed door is unchanged. |
| StateMarkers.Open | demo/src/v02_state_markers.rs:96-101 | Turns a `Door<Closed>` into a `Door<Opened>` with the same color. |
| StateMarkers.Color | demo/src/v02_state_markers.rs:104-108 | One definition for every `S`: returns the stored color. |
| StateMarkers.Apply | demo/src/v02_state_markers.rs:77-102 | What type-checks: a call goes through exactly when the state machine allows it, the door's instantiation afterwards is the state the machine reaches, and the color is unchanged. |
| StateMarkers.RoundTrips | demo/src/v02_state_markers.rs:51-101 | The color is the only data, so `open(close(d)) == d` and `close(open(c)) == c`. |
| StateMarkers.ApplyFollowsMachine | demo/src/v02_state_markers.rs:77-101 | The operations on the two instantiations are exactly the state machine's edges, call by call. |
| StateMarkers.TypedCallsFollowMachine | demo/src/v02_state_markers.rs:68-76 | A call sequence type-checks exactly when the state machine allows it. It is rejected at the first call outside the machine and ends in the machine's final state. |
| StateMarkers.ColorSurvives | demo/src/v02_state_markers.rs:104-108 | The state-generic `color()` returns the door's original color after every accepted sequence of calls, whatever its length and whatever state it ends in. |
| StateMarkers.TestSequences | demo/src/v02_state_markers.rs:114-126 | An open door built with color "brown" accepts `look_through`. The commented-out continuation is rejected at its last call. |
| GenericState.LookThrough | demo/src/v03_generic_state.rs:31-34 | Defined only for `Door<Opened>`; the borrowed door is unchanged. |
| GenericState.Close | demo/src/v03_generic_state.rs:36-41 | Turns a `Door<Opened>` into a `Door<Closed>` with the same color. `Closed` has no field, so the angle is gone. |
| GenericState.OpenAngle | demo/src/v03_generic_state.rs:43-46 | Defined only for `Door<Opened>`; returns exactly the angle stored in the open state. |
| GenericState.Knock | demo/src/v03_generic_state.rs:49-52 | Defined only for `Door<Closed>`; the borrowed door is unchanged. |
| GenericState.Open | demo/src/v03_generic_state.rs:54-59 | Turns a `Door<Closed>` into a `Door<Opened>` with the same color, whose `open_angle()` is 90.0. |
| GenericState.Color | demo/src/v03_generic_state.rs:62-66 | One definition for every `S`: returns the stored color. |
| GenericState.Apply | demo/src/v03_generic_state.rs:31-60 | What type-checks: a call goes through exactly when the state machine allows it, the door's instantiation afterwards is the state the machine reaches, and the color is unchanged. |
| GenericState.RoundTrips | demo/src/v03_generic_state.rs:36-59 | `open(close(d))` has `d`'s color and angle 90.0 whatever `d`'s angle was (the test's 45.0 becomes 90.0). A closed door has only its color, so `close(open(c)) == c`. |
| GenericState.ApplyFollowsMachine | demo/src/v03_generic_state.rs:31-59 | The operations on the two instantiations are exactly the state machine's edges, call by call. |
| GenericState.TypedCallsFollowMachine | demo/src/v03_generic_state.rs:1-16 | A call sequence type-checks exactly when the state machine allows it. It is rejected at the first call outside the machine and ends in the machine's final state. |
| GenericState.ColorSurvives | demo/src/v03_generic_state.rs:62-66 | The state-generic `color()` returns the door's original color after every accepted sequence of calls. |
| GenericState.AngleSetOnEntry | demo/src/v03_generic_state.rs:43-59 | Consider an accepted sequence that ends open. If it contains an `open`, the angle `open_angle()` reads is 90.0. If it contains none, the door started open and is unchanged, angle included. |
| GenericState.TestSequences | demo/src/v03_generic_state.rs:72-84 | An open brown door at 45.0 degrees accepts `look_through`. The commented-out continuation is rejected at its last call. |

## Left out

- The `println!` messages of `look_through` and `knock` are console output. These operations
  are modelled only by their state (precondition or parameter type), and they return the door
  they borrow unchanged.
- Moves are not modelled. Rust moves the old door into a transition, so it cannot be used
  again. Dafny values are immutable and can be reused, so the model returns a new value and
  cannot state that the old one is gone.
- In `StateMarkers`, the unused type parameter of `datatype Door<S> = Door(color: string)`
  plays the role of the `state: PhantomData<S>` field: the state lives only in the type. What
  differs is the markers: Dafny has no empty datatypes, so `Opened` and `Closed` are
  single-constructor datatypes that are never built, where Rust's variant-less enums cannot be
  built at all.
- The angle is a `real`. The source only stores the literal 90.0 and reads it back, so IEEE
  floating point is not modelled.
- The commented-out, compile-failing test lines are modelled as sequences that `Apply`
  refuses. This is a statement about the model's typing step, not a run of Rust's type checker.
- `demo/src/lib.rs` (module declarations and documentation) and the SVG diagrams included as
  documentation are not part of this model.
- `DoorMachine.Call` has no `open_angle` or `color` call, so the sequence lemmas say nothing
  about them. That `open_angle` is callable only while open rests on the parameter type of
  `GenericState.OpenAngle` alone (it takes a `Door<Opened>`); `color` is callable in every state
  because `Color` is generic over `S`.
