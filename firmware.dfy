/** Model of the firmware's top level: the button task that turns presses
    into commands, and the main task that brings the HPD line up and then
    runs each queued command on the controller, one at a time, to completion.
    Edge waits and timers are not modelled as such: what the button task
    observes of one press is a `FallingEdge` value, and each wait is the
    boundary between two steps. */
module Firmware {
  import opened Hpd

  datatype Option<T> = None | Some(value: T)

  /** A press held at least this long is a long press. */
  const LongPressThresholdMs: nat := 500
  /** Wait after each edge before the line is trusted. */
  const DebounceMs: nat := 50

  /** What the button task observes after one falling edge on the (active low)
      button line: whether the line still reads low once the debounce wait is
      over, and how long the line was held low, from the falling edge to the
      rising edge that ends the press. */
  datatype FallingEdge = FallingEdge(stillLowAfterDebounce: bool, heldLowMs: nat)

  /** Time, counted from the falling edge, at which the task takes `press_start`:
      right after the first debounce wait. */
  const PressStartMs: nat := DebounceMs

  /** Time, counted from the falling edge, at which the task reads the elapsed
      time: after the rising edge and the second debounce wait. */
  function PressEndMs(e: FallingEdge): (t: nat)
    ensures t >= PressStartMs
  {
    e.heldLowMs + DebounceMs
  }

  /** The press duration the task measures, from `press_start` to the end of
      the release debounce: the two debounce waits cancel out, so it is the
      time the line was held low. */
  function PressDurationMs(e: FallingEdge): (d: nat)
    ensures d == e.heldLowMs
  {
    PressEndMs(e) - PressStartMs
  }

  /** A long press pulses the line; any shorter press toggles it. */
  function Classify(durationMs: nat): (c: HpdCommand)
    ensures c == Pulse <==> durationMs >= LongPressThresholdMs
    ensures c == Toggle <==> durationMs < LongPressThresholdMs
  {
    if durationMs >= LongPressThresholdMs then Pulse else Toggle
  }

  /** The threshold belongs to the long side. */
  lemma ClassifyBoundary()
    ensures Classify(LongPressThresholdMs) == Pulse
    ensures Classify(LongPressThresholdMs - 1) == Toggle
  {
  }

  /** Holding longer never turns a long press into a short one. */
  lemma ClassifyMonotone(d1: nat, d2: nat)
    requires d1 <= d2 && Classify(d1) == Pulse
    ensures Classify(d2) == Pulse
  {
  }

  /** The command one falling edge produces: none when the line has bounced
      back high by the end of the debounce wait, otherwise the classified press. */
  function Debounced(stillLowAfterDebounce: bool, durationMs: nat): (r: Option<HpdCommand>)
    ensures r == None <==> !stillLowAfterDebounce
    ensures r.Some? ==> r.value.Pulse? || r.value.Toggle?
    ensures r.Some? ==> (r.value == Pulse <==> durationMs >= LongPressThresholdMs)
  {
    if !stillLowAfterDebounce then None else Some(Classify(durationMs))
  }

  /** A falling edge yields a Pulse exactly when it is confirmed and the line
      was held low, counted from the falling edge, for the threshold or more. */
  lemma LongPressFromFallingEdge(e: FallingEdge)
    ensures Debounced(e.stillLowAfterDebounce, PressDurationMs(e)) == Some(Pulse)
            <==> e.stillLowAfterDebounce && e.heldLowMs >= LongPressThresholdMs
    ensures Debounced(e.stillLowAfterDebounce, PressDurationMs(e)) == Some(Toggle)
            <==> e.stillLowAfterDebounce && e.heldLowMs < LongPressThresholdMs
  {
  }

  /** The commands the button task sends, in order, for a run of falling edges. */
  function ButtonCommands(edges: seq<FallingEdge>): (cmds: seq<HpdCommand>)
    ensures |cmds| <= |edges|
    ensures forall i :: 0 <= i < |cmds| ==> cmds[i].Pulse? || cmds[i].Toggle?
    decreases |edges|
  {
    if edges == [] then []
    else
      var last := edges[|edges| - 1];
      var before := ButtonCommands(edges[..|edges| - 1]);
      match Debounced(last.stillLowAfterDebounce, PressDurationMs(last))
      case None => before
      case Some(c) => before + [c]
  }

  /** A bounce at the end of a run adds no command. */
  lemma BounceSendsNothing(edges: seq<FallingEdge>, heldLowMs: nat)
    ensures ButtonCommands(edges + [FallingEdge(false, heldLowMs)]) == ButtonCommands(edges)
  {
    var all := edges + [FallingEdge(false, heldLowMs)];
    assert all[..|all| - 1] == edges;
  }

  /** The button task's loop over a run of falling edges: a bounce is skipped,
      a confirmed press is measured, classified and sent. */
  method ButtonHandler(edges: seq<FallingEdge>) returns (sent: seq<HpdCommand>)
    ensures sent == ButtonCommands(edges)
  {
    sent := [];
    var i := 0;
    while i < |edges|
      invariant 0 <= i <= |edges|
      invariant sent == ButtonCommands(edges[..i])
    {
      assert edges[..i + 1][..i] == edges[..i];
      var edge := edges[i];
      i := i + 1;
      if !edge.stillLowAfterDebounce {
        continue;
      }
      var pressStart := PressStartMs;
      var elapsedAt := edge.heldLowMs + DebounceMs;
      var pressDuration := elapsedAt - pressStart;
      if pressDuration >= LongPressThresholdMs {
        sent := sent + [Pulse];
      } else {
        sent := sent + [Toggle];
      }
    }
    assert edges[..i] == edges;
  }

  /** The logical state after running `cmds` in order, each to completion. */
  function RunCommands(s: HpdState, cmds: seq<HpdCommand>): (r: HpdState)
    ensures cmds != [] && (cmds[|cmds| - 1].Assert? || cmds[|cmds| - 1].Reconnect?) ==> r == Connected
    ensures cmds != [] && cmds[|cmds| - 1].Deassert? ==> r == Disconnected
    decreases |cmds|
  {
    if cmds == [] then s
    else AfterCommand(RunCommands(s, cmds[..|cmds| - 1]), cmds[|cmds| - 1])
  }

  /** Since every command runs to completion, no state between commands is Pulsing. */
  lemma {:induction false} RunNeverPulsing(s: HpdState, cmds: seq<HpdCommand>)
    requires s != Pulsing
    ensures RunCommands(s, cmds) != Pulsing
    decreases |cmds|
  {
    if cmds != [] {
      RunNeverPulsing(s, cmds[..|cmds| - 1]);
    }
  }

  /** The timed dwells started while `cmds` run in order from `s`. */
  ghost function RunDwells(s: HpdState, cmds: seq<HpdCommand>): (r: seq<Dwell>)
    ensures |r| <= |cmds|
    decreases |cmds|
  {
    if cmds == [] then []
    else
      var front := cmds[..|cmds| - 1];
      RunDwells(s, front) + DwellsOf(RunCommands(s, front), cmds[|cmds| - 1])
  }

  /** Every timed dwell the main task ever starts is at least the 100 ms an
      HDMI source needs to notice a disconnect. */
  lemma {:induction false} RunDwellsLongEnough(s: HpdState, cmds: seq<HpdCommand>)
    ensures forall i :: 0 <= i < |RunDwells(s, cmds)| ==>
              !RunDwells(s, cmds)[i].NoDwell? && RunDwells(s, cmds)[i].ms >= HpdPulseMinMs
    decreases |cmds|
  {
    if cmds != [] {
      RunDwellsLongEnough(s, cmds[..|cmds| - 1]);
    }
  }

  /** Run one command on the controller: each command goes to its own method. */
  method Dispatch(hpd: HpdController, cmd: HpdCommand)
    requires hpd.Valid() && hpd.Idle()
    modifies hpd
    ensures hpd.Valid() && hpd.Idle()
    ensures hpd.state == AfterCommand(old(hpd.state), cmd)
    ensures hpd.timedDwells == old(hpd.timedDwells) + DwellsOf(old(hpd.state), cmd)
  {
    match cmd
    case Assert => hpd.Assert();
    case Deassert => hpd.Deassert();
    case Toggle => hpd.Toggle();
    case Pulse => hpd.Pulse();
    case Reconnect => hpd.ReconnectCycle();
  }

  /** The main task's loop over the commands it receives: each is dispatched
      and completed before the next is taken, and the state read after each
      one is recorded in `observed`. */
  method ProcessCommands(hpd: HpdController, cmds: seq<HpdCommand>) returns (observed: seq<HpdState>)
    requires hpd.Valid() && hpd.Idle()
    modifies hpd
    ensures hpd.Valid() && hpd.Idle()
    ensures hpd.state == RunCommands(old(hpd.state), cmds)
    ensures hpd.timedDwells == old(hpd.timedDwells) + RunDwells(old(hpd.state), cmds)
    ensures |observed| == |cmds|
    ensures forall i :: 0 <= i < |cmds| ==> observed[i] == RunCommands(old(hpd.state), cmds[..i + 1])
    ensures forall i :: 0 <= i < |observed| ==> observed[i] != Pulsing
  {
    ghost var start := hpd.state;
    ghost var dwellsBefore := hpd.timedDwells;
    observed := [];
    var i := 0;
    while i < |cmds|
      invariant 0 <= i <= |cmds|
      invariant hpd.Valid() && hpd.Idle()
      invariant hpd.state == RunCommands(start, cmds[..i])
      invariant hpd.timedDwells == dwellsBefore + RunDwells(start, cmds[..i])
      invariant |observed| == i
      invariant forall j :: 0 <= j < i ==> observed[j] == RunCommands(start, cmds[..j + 1])
      invariant forall j :: 0 <= j < i ==> observed[j] != Pulsing
    {
      assert cmds[..i + 1][..i] == cmds[..i];
      Dispatch(hpd, cmds[i]);
      observed := observed + [hpd.State()];
      i := i + 1;
    }
    assert cmds[..i] == cmds;
  }

  /** Power-up: the HPD output starts low, and after the start-up delay the
      line is asserted, before any queued command is taken. */
  method Startup() returns (hpd: HpdController)
    ensures fresh(hpd)
    ensures hpd.Valid() && hpd.Idle()
    ensures hpd.pin && hpd.state == Connected
    ensures hpd.timedDwells == []
  {
    hpd := new HpdController(false);
    // the power-stabilisation wait is the boundary between these two steps
    hpd.Assert();
  }

  /** The whole firmware over a run of falling edges on the button: start-up,
      then every command the button task sends, in order. */
  method RunFirmware(edges: seq<FallingEdge>) returns (hpd: HpdController, observed: seq<HpdState>)
    ensures fresh(hpd)
    ensures hpd.Valid() && hpd.Idle()
    ensures hpd.state == RunCommands(Connected, ButtonCommands(edges))
    ensures hpd.timedDwells == RunDwells(Connected, ButtonCommands(edges))
    ensures |observed| == |ButtonCommands(edges)|
    ensures forall i :: 0 <= i < |observed| ==>
              observed[i] == RunCommands(Connected, ButtonCommands(edges)[..i + 1])
    ensures forall i :: 0 <= i < |observed| ==> observed[i] != Pulsing
  {
    var sent := ButtonHandler(edges);
    hpd := Startup();
    observed := ProcessCommands(hpd, sent);
  }

  /** A press confirmed after the debounce and shorter than the threshold. */
  predicate ShortPress(e: FallingEdge)
  {
    e.stillLowAfterDebounce && PressDurationMs(e) < LongPressThresholdMs
  }

  /** Two short presses toggle twice and bring the line back where it was. */
  lemma TwoShortPressesRestore(s: HpdState, e1: FallingEdge, e2: FallingEdge)
    requires s != Pulsing
    requires ShortPress(e1) && ShortPress(e2)
    ensures ButtonCommands([e1, e2]) == [Toggle, Toggle]
    ensures RunCommands(s, ButtonCommands([e1, e2])) == s
    ensures RunDwells(s, ButtonCommands([e1, e2])) == []
  {
    assert [e1, e2][..1] == [e1];
    assert [e1][..0] == [];
    assert ButtonCommands([e1]) == [Toggle];
    var cmds := [Toggle, Toggle];
    assert cmds[..1] == [Toggle];
    assert [Toggle][..0] == [];
    var mid := AfterCommand(s, Toggle);
    assert RunCommands(s, [Toggle]) == mid;
    assert RunDwells(s, [Toggle]) == [];
    ToggleTwice(s);
  }

  /** A long press from a settled state pulses and leaves the state unchanged. */
  lemma LongPressRestores(s: HpdState, e: FallingEdge)
    requires s != Pulsing
    requires e.stillLowAfterDebounce && PressDurationMs(e) >= LongPressThresholdMs
    ensures ButtonCommands([e]) == [Pulse]
    ensures RunCommands(s, ButtonCommands([e])) == s
    ensures RunDwells(s, ButtonCommands([e])) == [PulseDwell(s == Connected, HpdPulseRecommendedMs)]
  {
    assert [e][..0] == [];
    assert [Pulse][..0] == [];
  }

  /** A run of short presses sends one Toggle per press. */
  lemma {:induction false} ShortPressesToggle(edges: seq<FallingEdge>)
    requires forall i :: 0 <= i < |edges| ==> ShortPress(edges[i])
    ensures ButtonCommands(edges) == seq(|edges|, _ => Toggle)
    decreases |edges|
  {
    if edges != [] {
      var front := edges[..|edges| - 1];
      ShortPressesToggle(front);
      assert seq(|edges|, _ => Toggle) == seq(|front|, _ => Toggle) + [Toggle];
    }
  }

  /** Running n Toggles from a settled state flips it n times. */
  lemma {:induction false} TogglesParity(s: HpdState, n: nat)
    requires s != Pulsing
    ensures RunCommands(s, seq(n, _ => Toggle)) == if n % 2 == 0 then s else AfterCommand(s, Toggle)
    decreases n
  {
    if n > 0 {
      var cmds := seq(n, _ => Toggle);
      assert cmds[..n - 1] == seq(n - 1, _ => Toggle);
      TogglesParity(s, n - 1);
      ToggleTwice(s);
    }
  }

  /** After start-up, a run of short presses leaves the line Connected exactly
      when there was an even number of them. */
  lemma ShortPressesFromStartup(edges: seq<FallingEdge>)
    requires forall i :: 0 <= i < |edges| ==> ShortPress(edges[i])
    ensures RunCommands(Connected, ButtonCommands(edges)) == Connected <==> |edges| % 2 == 0
  {
    ShortPressesToggle(edges);
    TogglesParity(Connected, |edges|);
  }
}
