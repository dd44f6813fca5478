/** Model of the HPD (Hot Plug Detect) output controller.
    The controller owns one output pin (modelled as its level, `true` = high =
    HPD asserted) and a logical state. The two timed sequences, a pulse and a
    full reconnect cycle, are split into a step that starts the wait and a step
    that runs when the wait is over; the wait in progress is the `dwell` field. */
module Hpd {

  // Timing constants, in milliseconds.

  /** Shortest low pulse that makes an HDMI source re-read the EDID. */
  const HpdPulseMinMs: nat := 100
  /** Low pulse used by `Pulse`. */
  const HpdPulseRecommendedMs: nat := 200
  /** Low time of a full reconnect cycle. */
  const HpdPulseLongMs: nat := 500

  datatype HpdState = Connected | Disconnected | Pulsing

  datatype HpdCommand = Assert | Deassert | Toggle | Pulse | Reconnect

  /** The wait a timed sequence is in, if any. `wasConnected` is what the
      pulse restores once its wait is over. */
  datatype Dwell =
    | NoDwell
    | PulseDwell(wasConnected: bool, ms: nat)
    | ReconnectDwell(ms: nat)

  /** The low dwells are ordered: the recommended pulse is at least the
      minimum, and a reconnect holds the line low at least as long as a pulse. */
  lemma DwellsOrdered()
    ensures HpdPulseMinMs <= HpdPulseRecommendedMs <= HpdPulseLongMs
  {
  }

  /** The logical state after `cmd` has run to completion from state `s`:
      the reference definition the controller's methods are proved against. */
  function AfterCommand(s: HpdState, cmd: HpdCommand): (r: HpdState)
    ensures s != Pulsing ==> r != Pulsing
  {
    match cmd
    case Assert => Connected
    case Deassert => Disconnected
    case Toggle =>
      (match s
       case Connected => Disconnected
       case Disconnected => Connected
       case Pulsing => Pulsing)
    case Pulse => if s == Connected then Connected else Disconnected
    case Reconnect => Connected
  }

  lemma AssertIdempotent(s: HpdState)
    ensures AfterCommand(AfterCommand(s, Assert), Assert) == AfterCommand(s, Assert) == Connected
  {
  }

  lemma DeassertIdempotent(s: HpdState)
    ensures AfterCommand(AfterCommand(s, Deassert), Deassert) == AfterCommand(s, Deassert) == Disconnected
  {
  }

  /** Toggle swaps Connected and Disconnected, so twice is the identity. */
  lemma ToggleTwice(s: HpdState)
    requires s != Pulsing
    ensures AfterCommand(s, Toggle) != s
    ensures AfterCommand(AfterCommand(s, Toggle), Toggle) == s
  {
  }

  /** A completed pulse leaves the logical state where it was (outside Pulsing). */
  lemma PulseRestores(s: HpdState)
    requires s != Pulsing
    ensures AfterCommand(s, Pulse) == s
  {
  }

  lemma ReconnectEndsConnected(s: HpdState)
    ensures AfterCommand(s, Reconnect) == Connected
  {
  }

  /** The timed dwells a command starts when run to completion from state `s`:
      one for a pulse (recommended length) or a reconnect cycle (long length),
      none for the immediate commands, which start no timed wait. */
  function DwellsOf(s: HpdState, cmd: HpdCommand): (r: seq<Dwell>)
    ensures |r| == 1 <==> cmd.Pulse? || cmd.Reconnect?
    ensures |r| == 0 <==> cmd.Assert? || cmd.Deassert? || cmd.Toggle?
    ensures forall i :: 0 <= i < |r| ==> !r[i].NoDwell? && r[i].ms >= HpdPulseMinMs
  {
    match cmd
    case Pulse => [PulseDwell(s == Connected, HpdPulseRecommendedMs)]
    case Reconnect => [ReconnectDwell(HpdPulseLongMs)]
    case _ => []
  }

  class HpdController {
    /** Level of the HPD output pin: `true` is high (asserted). */
    var pin: bool
    var state: HpdState
    /** The wait a timed sequence is in; `NoDwell` between commands. */
    var dwell: Dwell
    /** The dwell each timed sequence has started, in order. An entry is added
        only by `BeginPulse` and `BeginReconnect`, whose contracts say that the
        pin is low while it lasts; immediate commands add none. */
    ghost var timedDwells: seq<Dwell>

    /** The pin is high exactly when the controller says Connected. */
    predicate Valid()
      reads this
    {
      pin <==> state == Connected
    }

    /** Between commands: no timed sequence is waiting. */
    predicate Idle()
      reads this
    {
      dwell == NoDwell && state != Pulsing
    }

    /** The controller takes an output that is already configured at
        `initialLevel` and does not drive it; it starts Disconnected. */
    constructor (initialLevel: bool)
      ensures state == Disconnected && pin == initialLevel && dwell == NoDwell
      ensures timedDwells == []
      ensures Idle()
      ensures Valid() <==> !initialLevel
    {
      pin := initialLevel;
      state := Disconnected;
      dwell := NoDwell;
      timedDwells := [];
    }

    /** The current logical state; under the invariant it also tells the pin level. */
    function State(): (s: HpdState)
      reads this
      ensures Valid() ==> (pin <==> s == Connected)
      ensures Idle() ==> s != Pulsing
    {
      state
    }

    /** Drive the pin high and record Connected. */
    method Assert()
      modifies this
      ensures pin && state == Connected && dwell == old(dwell) && timedDwells == old(timedDwells)
      ensures Valid()
      ensures old(pin) && old(state) == Connected ==> unchanged(this)
    {
      pin := true;
      state := Connected;
    }

    /** Drive the pin low and record Disconnected. */
    method Deassert()
      modifies this
      ensures !pin && state == Disconnected && dwell == old(dwell) && timedDwells == old(timedDwells)
      ensures Valid()
      ensures !old(pin) && old(state) == Disconnected ==> unchanged(this)
    {
      pin := false;
      state := Disconnected;
    }

    /** Connected becomes Disconnected and the reverse; nothing happens while Pulsing. */
    method Toggle()
      modifies this
      ensures dwell == old(dwell) && timedDwells == old(timedDwells)
      ensures old(state) == Connected ==> !pin && state == Disconnected
      ensures old(state) == Disconnected ==> pin && state == Connected
      ensures old(state) == Pulsing ==> pin == old(pin) && state == Pulsing
      ensures state == AfterCommand(old(state), HpdCommand.Toggle)
      ensures old(Valid()) ==> Valid()
    {
      match state
      case Connected => Deassert();
      case Disconnected => Assert();
      case Pulsing =>
    }

    /** First half of a pulse: remember whether the line was Connected, then
        hold it low in the Pulsing state for `durationMs`. */
    method BeginPulse(durationMs: nat)
      modifies this
      ensures state == Pulsing && !pin
      ensures dwell == PulseDwell(old(state) == Connected, durationMs)
      ensures timedDwells == old(timedDwells) + [dwell]
      ensures Valid()
    {
      var wasConnected := state == Connected;
      state := Pulsing;
      pin := false;
      dwell := PulseDwell(wasConnected, durationMs);
      timedDwells := timedDwells + [dwell];
    }

    /** Second half of a pulse, once the dwell is over: a line that was
        Connected is driven high again; otherwise it is left low and recorded
        as Disconnected. */
    method FinishPulse()
      requires dwell.PulseDwell? && state == Pulsing && !pin
      modifies this
      ensures dwell == NoDwell && timedDwells == old(timedDwells)
      ensures old(dwell.wasConnected) ==> pin && state == Connected
      ensures !old(dwell.wasConnected) ==> !pin && state == Disconnected
      ensures Valid() && Idle()
    {
      if dwell.wasConnected {
        pin := true;
        state := Connected;
      } else {
        state := Disconnected;
      }
      dwell := NoDwell;
    }

    /** A low pulse of `durationMs`, run to completion: it starts exactly one
        timed dwell, of that length (held low in Pulsing, by `BeginPulse`). */
    method PulseDuration(durationMs: nat)
      modifies this
      ensures timedDwells == old(timedDwells) + [PulseDwell(old(state) == Connected, durationMs)]
      ensures Valid() && Idle()
      ensures state == AfterCommand(old(state), HpdCommand.Pulse)
      ensures old(state) == Connected ==> pin && state == Connected
      ensures old(state) == Disconnected ==> !pin && state == Disconnected
      ensures old(Valid()) && old(state) == Disconnected ==> pin == old(pin) && state == old(state)
    {
      BeginPulse(durationMs);
      FinishPulse();
    }

    /** A pulse of the recommended length, run to completion. */
    method Pulse()
      modifies this
      ensures timedDwells == old(timedDwells) + DwellsOf(old(state), HpdCommand.Pulse)
      ensures timedDwells == old(timedDwells) + [PulseDwell(old(state) == Connected, HpdPulseRecommendedMs)]
      ensures Valid() && Idle()
      ensures state == AfterCommand(old(state), HpdCommand.Pulse)
      ensures old(state) == Disconnected ==> !pin && state == Disconnected
      ensures old(Valid()) && old(state) == Disconnected ==> pin == old(pin) && state == old(state)
    {
      PulseDuration(HpdPulseRecommendedMs);
    }

    /** First half of a reconnect cycle: de-assert and wait the long dwell. */
    method BeginReconnect()
      modifies this
      ensures !pin && state == Disconnected
      ensures dwell == ReconnectDwell(HpdPulseLongMs)
      ensures timedDwells == old(timedDwells) + [dwell]
      ensures Valid()
    {
      Deassert();
      dwell := ReconnectDwell(HpdPulseLongMs);
      timedDwells := timedDwells + [dwell];
    }

    /** Second half of a reconnect cycle: assert. */
    method FinishReconnect()
      requires dwell.ReconnectDwell?
      modifies this
      ensures pin && state == Connected && dwell == NoDwell
      ensures timedDwells == old(timedDwells)
      ensures Valid() && Idle()
    {
      Assert();
      dwell := NoDwell;
    }

    /** A full reconnect cycle, run to completion: one long timed dwell, in the
        Disconnected state, then Connected whatever the start. */
    method ReconnectCycle()
      modifies this
      ensures timedDwells == old(timedDwells) + DwellsOf(old(state), Reconnect)
      ensures timedDwells == old(timedDwells) + [ReconnectDwell(HpdPulseLongMs)]
      ensures pin && state == Connected
      ensures Valid() && Idle()
      ensures state == AfterCommand(old(state), Reconnect)
    {
      BeginReconnect();
      FinishReconnect();
    }
  }
}
