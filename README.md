# HDMI HPD switch — Dafny model

A model of the control logic of a small RP2040 firmware that drives the HDMI
Hot Plug Detect (HPD) line from one push button.

- `hpd.dfy`, module `Hpd` (from `src/hpd.rs`): the timing constants, the
  logical state `HpdState` (Connected, Disconnected, Pulsing), the command set
  `HpdCommand`, and the class `HpdController`, whose fields are the output pin
  level (`pin`, `true` = high = HPD asserted), the logical `state`, and the wait
  a timed sequence is in (`dwell`). `Assert`, `Deassert` and `Toggle` change the
  fields at once. `PulseDuration` and `ReconnectCycle` are each split into a
  step that starts the low dwell (`BeginPulse`, `BeginReconnect`) and a step run
  once the dwell is over (`FinishPulse`, `FinishReconnect`). The flag the pulse
  carries across its wait (whether the line was Connected) is kept in the
  `PulseDwell` value of `dwell`, together with the dwell length. The function
  `AfterCommand` gives the state each command leaves once it has run to
  completion, and `DwellsOf` the timed dwells it starts on the way; the
  methods are proved against both. The ghost field `timedDwells` records the
  dwell each timed sequence has started, in order. Only `BeginPulse` and
  `BeginReconnect` add to it, and their contracts state that the pin is low
  while the dwell lasts; the contracts of the complete sequences state which
  dwells were started and how long each is.
- `firmware.dfy`, module `Firmware` (from `src/main.rs`): the button task's
  debounce check and press classification as functions (`Debounced`,
  `Classify`), its loop as the method `ButtonHandler` over a run of observed
  falling edges, the main task's `match` as `Dispatch`, its receive loop as
  `ProcessCommands`, the power-up sequence as `Startup`, and both tasks
  together as `RunFirmware`. End-to-end lemmas follow from these, for instance
  that two short presses return the line to where it was.

The invariant kept throughout is `HpdController.Valid()`: the pin is high
exactly when the state is Connected. `Idle()` is the state between commands:
no dwell pending and not Pulsing.

Points of behaviour worth stating: the long-press threshold is 500 ms; the
debounce is a single re-read of the line 50 ms after the falling edge, not a
per-tick filter; and there is no busy flag — the main task simply runs each
command to completion before receiving the next, which the model states
directly. A pulse from Disconnected is carried out (Pulsing, pin low, for the
dwell) and ends Disconnected with the pin still low.

`HpdController::new` does not drive the pin, although its doc comment says it
sets HPD low; it relies on the caller having created the output at a low
level, which the firmware does (`src/main.rs:46`). The constructor therefore
takes the initial level and the invariant holds exactly when that level is low.

The press duration the button task measures runs from the moment the press is
confirmed (after the first debounce wait) to the end of the debounce wait after
the release. Counted from the falling edge, the two waits cancel out, so the
measured duration is the time the line was held low (`PressDurationMs`).

## Model

| member | source | states |
|---|---|---|
| `Hpd.DwellsOrdered` | src/hpd.rs:16-22 | the minimum pulse (100 ms) ≤ the recommended pulse (200 ms) ≤ the reconnect dwell (500 ms) |
| `Hpd.AfterCommand` | src/hpd.rs:65-128 | the state each command leaves when run to completion; from a non-Pulsing state no command leaves Pulsing |
| `Hpd.AssertIdempotent` | src/hpd.rs:65-69 | asserting ends Connected from any state, and asserting again changes nothing |
| `Hpd.DeassertIdempotent` | src/hpd.rs:72-76 | de-asserting ends Disconnected from any state, and de-asserting again changes nothing |
| `Hpd.ToggleTwice` | src/hpd.rs:79-85 | outside Pulsing a toggle changes the state, and two toggles return to the original state |
| `Hpd.PulseRestores` | src/hpd.rs:107-112 | outside Pulsing a completed pulse leaves the logical state as it was |
| `Hpd.ReconnectEndsConnected` | src/hpd.rs:120-128 | a reconnect cycle ends Connected whatever the starting state |
| `Hpd.DwellsOf` | src/hpd.rs:93-128 | a pulse or a reconnect starts exactly one timed dwell, the immediate commands add no timed dwell; every timed dwell is at least the 100 ms minimum |
| `Hpd.HpdController.constructor` | src/hpd.rs:52-57 | a new controller is Disconnected with no dwell, the pin at the level it was given; the invariant holds iff that level is low |
| `Hpd.HpdController.State` | src/hpd.rs:60-62 | the state read back; under the invariant it is Connected iff the pin is high, and between commands it is never Pulsing |
| `Hpd.HpdController.Assert` | src/hpd.rs:65-69 | pin high, state Connected, nothing else changed; the invariant holds afterwards; asserting when already Connected changes nothing |
| `Hpd.HpdController.Deassert` | src/hpd.rs:72-76 | pin low, state Disconnected, nothing else changed; the invariant holds afterwards; de-asserting when already Disconnected changes nothing |
| `Hpd.HpdController.Toggle` | src/hpd.rs:79-85 | Connected → Disconnected with pin low, Disconnected → Connected with pin high, Pulsing → unchanged; preserves the invariant |
| `Hpd.HpdController.BeginPulse` | src/hpd.rs:99-105 | during the dwell the state is Pulsing, the pin is low, and the dwell records the requested length and whether the line was Connected |
| `Hpd.HpdController.FinishPulse` | src/hpd.rs:107-112 | after the dwell, a line that was Connected is Connected with pin high; otherwise Disconnected with pin low; the dwell is cleared |
| `Hpd.HpdController.PulseDuration` | src/hpd.rs:98-115 | starts exactly one timed dwell, of `durationMs`, recording whether the line was Connected; then ends in AfterCommand's Pulse state with the invariant; from a valid Disconnected state the pin and state are as before |
| `Hpd.HpdController.Pulse` | src/hpd.rs:93-95 | runs `PulseDuration` with the recommended 200 ms: exactly one timed dwell of 200 ms (DwellsOf's Pulse entry), then the state AfterCommand gives, with the invariant and no dwell pending |
| `Hpd.HpdController.BeginReconnect` | src/hpd.rs:123-124 | while the reconnect waits, the state is Disconnected, the pin low, and the dwell is the 500 ms long one |
| `Hpd.HpdController.FinishReconnect` | src/hpd.rs:126-127 | after the reconnect dwell the line is Connected with pin high and no dwell pending |
| `Hpd.HpdController.ReconnectCycle` | src/hpd.rs:120-128 | starts exactly one timed dwell, the long 500 ms one, then is Connected with pin high from any starting state |
| `Firmware.PressDurationMs` | src/main.rs:116-132 | the duration measured from `press_start` (falling edge + 50 ms) to after the release debounce (rising edge + 50 ms) equals the time the line was held low |
| `Firmware.Classify` | src/main.rs:134-142 | Pulse exactly when the duration is ≥ 500 ms, Toggle exactly when it is shorter |
| `Firmware.ClassifyBoundary` | src/main.rs:134 | 500 ms gives Pulse and 499 ms gives Toggle |
| `Firmware.ClassifyMonotone` | src/main.rs:134 | a longer press than a long press is long too |
| `Firmware.Debounced` | src/main.rs:116-121 | no command exactly when the line reads high after the debounce wait; otherwise Pulse or Toggle, Pulse iff the duration reaches the threshold |
| `Firmware.LongPressFromFallingEdge` | src/main.rs:113-142 | a falling edge yields Pulse iff it is confirmed and the line was held low ≥ 500 ms, and Toggle iff confirmed and held shorter |
| `Firmware.ButtonCommands` | src/main.rs:113-143 | the button task sends at most one command per falling edge, and only Pulse or Toggle |
| `Firmware.BounceSendsNothing` | src/main.rs:119-121 | an edge that bounced back high adds no command |
| `Firmware.ButtonHandler` | src/main.rs:113-143 | the task's loop sends exactly ButtonCommands of the edges it sees, in order |
| `Firmware.RunCommands` | src/main.rs:78-97 | the state after a run of commands, each to completion; a run ending in Assert or Reconnect is Connected, one ending in Deassert is Disconnected |
| `Firmware.RunNeverPulsing` | src/main.rs:78-100 | from a non-Pulsing state, running any sequence of commands to completion never ends Pulsing |
| `Firmware.RunDwells` | src/main.rs:78-97 | the timed dwells a run of commands starts, command by command; at most one per command |
| `Firmware.RunDwellsLongEnough` | src/main.rs:78-100 | every timed dwell started by any run of commands is at least the 100 ms minimum |
| `Firmware.Dispatch` | src/main.rs:81-97 | the new state is AfterCommand of the old and the timed dwells added are exactly DwellsOf the command: none for Assert, Deassert, Toggle; the 200 ms pulse for Pulse; the 500 ms dwell for Reconnect; invariant and idleness kept |
| `Firmware.ProcessCommands` | src/main.rs:78-100 | commands run one at a time in order; the final state and the timed dwells are those of the run; the state read after each command is the run of the commands so far and never Pulsing |
| `Firmware.Startup` | src/main.rs:46-72 | after start-up the controller is Connected with the pin high, the invariant holding and no timed dwell yet, before any command is taken |
| `Firmware.RunFirmware` | src/main.rs:34-100 | the final state and timed dwells are those of the button's commands run from Connected; the state observed after each command is the run so far and never Pulsing |
| `Firmware.TwoShortPressesRestore` | src/main.rs:138-141 | two short presses send two Toggles, start no timed dwell, and end in the starting state |
| `Firmware.LongPressRestores` | src/main.rs:134-137 | a long press sends Pulse, holds the line low once for 200 ms, and ends in the starting state |
| `Firmware.ShortPressesToggle` | src/main.rs:138-141 | a run of short presses sends exactly one Toggle per press |
| `Firmware.TogglesParity` | src/hpd.rs:79-85 | n toggles from a settled state give the state after an even n, the toggled state after an odd n |
| `Firmware.ShortPressesFromStartup` | src/main.rs:72-141 | after start-up, a run of short presses ends Connected iff their number is even |

## Left out

- GPIO set-up, the `Output`/`Input` objects and the edge waits: the pin is a `bool` field and each observed press is a `FallingEdge` value.
- `Timer::after`, `Instant::now` and `elapsed`: durations are `nat` milliseconds counted from the falling edge; every wait is the boundary between a begin and a finish step (or between the two start-up steps, where the 500 ms power-stabilisation wait sits); timer latency is not modelled, and the rising edge awaited is taken to be the one that ends the hold.
- `timedDwells` is a ghost record of the timed dwells; the source keeps no such history, and it is there only so that contracts can speak of the pulse and reconnect waveforms.
- Low times made by the immediate commands: `Deassert`, or `Toggle` from Connected, leaves the line low until whatever command comes next, for any length the command stream gives. Queued commands run back to back, so for example two short presses made during a pulse, or a Deassert followed by an Assert, can make a low glitch far shorter than 100 ms. The model bounds only the timed dwells.
- FallingEdge: the type admits a confirmed press whose `heldLowMs` is below the 50 ms debounce, which the hardware cannot produce (the line still reads low at 50 ms, so the release comes later); no well-formedness predicate excludes it, and such an edge classifies as Toggle.
- The command channel (capacity 4), the executor and task spawning: the model keeps only the order, every command sent by the button task is run in order after start-up, each to completion. Back-pressure on a full channel is not modelled.
- The LED task, `defmt` logging and the `pins` constants: they affect no HPD state.
- `timing::EDID_READ_DELAY` and `timing::DEBOUNCE` in `src/hpd.rs`: unused by the code; the button task uses its own 50 ms debounce.
- A watchdog against a lost dwell timer: the code has none.
