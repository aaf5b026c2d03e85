/** The action families (`ShiftAction`, `ReleaseAction`, `GlobalAction`,
    `TransportAction`) and the two process-wide globals they share,
    `controllerMode` and `shiftModifier`. Each action is given both as a
    method that drives the host and the LED driver as the source does, and
    as the function `Perform` on a value `Model` of everything an action can
    change, which the dispatcher's specification uses. */
module Actions {
  import opened HostApi
  import opened Leds

  /** `ctrlUser` .. `ctrlPlaylist`. */
  const User := 0
  const Transport := 1
  const Mixer := 2
  const Browser := 3
  const Pattern := 4
  const Playlist := 5

  /** The operations the note table names; `callAction` picks the method by
      name, here by constructor. */
  datatype Op =
    | SetTransportMode | SetMixerMode | SetBrowserMode
    | SetPatternMode | SetPlayListMode | SetUserMode
    | ReleaseFastForward | ReleaseRewind
    | TogglePlay | ToggleRecord
    | ToggleLoopMode | PressFastForward | PressRewind

  predicate IsModeSetter(op: Op)
  {
    op.SetTransportMode? || op.SetMixerMode? || op.SetBrowserMode? ||
    op.SetPatternMode? || op.SetPlayListMode? || op.SetUserMode?
  }

  /** The mode each `ShiftAction` setter passes to `changeMode`. */
  function TargetMode(op: Op): (m: int)
    requires IsModeSetter(op)
    ensures User <= m <= Playlist
  {
    match op
    case SetTransportMode => Transport
    case SetMixerMode => Mixer
    case SetBrowserMode => Browser
    case SetPatternMode => Pattern
    case SetPlayListMode => Playlist
    case SetUserMode => User
  }

  /** Everything the actions can change: the two globals, the messages sent
      to the controller, the transport calls, and (for the dispatcher) the
      list of operations `callAction` has run. */
  datatype Model = Model(mode: int, shift: int, out: seq<int>, calls: seq<TransportCall>, invoked: seq<Op>)

  /** What `changeMode(ctrlMode, note)` sends: every LED off, then the
      triggering button solid. */
  function ChangeModeMsgs(note: int): seq<int>
  {
    KillAllLightsMsgs() + SetLedMonoMsgs(note, false)
  }

  /** The effect of one action on the model, for the button `note` that
      triggered it and the host's current `isPlaying()`. */
  function Perform(op: Op, note: int, isPlaying: bool, m: Model): (r: Model)
    ensures r.shift == m.shift && r.invoked == m.invoked
    ensures IsModeSetter(op) ==> r.mode == TargetMode(op)
    ensures !IsModeSetter(op) ==> r.mode == m.mode
    ensures IsModeSetter(op) ==> r.calls == m.calls
    ensures !IsModeSetter(op) ==> |r.out| <= |m.out| + 1
    ensures m.out <= r.out && m.calls <= r.calls
  {
    match op
    case SetTransportMode | SetMixerMode | SetBrowserMode | SetPatternMode | SetPlayListMode | SetUserMode =>
      m.(mode := TargetMode(op), out := m.out + ChangeModeMsgs(note))
    case ReleaseFastForward =>
      if m.mode == Transport then m.(calls := m.calls + [FastForward(0)], out := m.out + LedOffMsgs(note)) else m
    case ReleaseRewind =>
      if m.mode == Transport then m.(calls := m.calls + [Rewind(0)], out := m.out + LedOffMsgs(note)) else m
    case TogglePlay =>
      m.(calls := m.calls + [if isPlaying then Stop else Start])
    case ToggleRecord =>
      if !isPlaying then m.(calls := m.calls + [Record]) else m
    case ToggleLoopMode =>
      if !isPlaying then m.(calls := m.calls + [SetLoopMode]) else m
    case PressFastForward =>
      m.(calls := m.calls + [FastForward(2)], out := m.out + SetLedMonoMsgs(note, false))
    case PressRewind =>
      m.(calls := m.calls + [Rewind(2)], out := m.out + SetLedMonoMsgs(note, false))
  }

  /** `changeMode` sends exactly: off for 82..86, for 0..39 and for 64..71,
      then one solid message for the triggering button if it is a
      single-colour button, and nothing else. */
  lemma ChangeModeOrder(note: int)
    ensures |ChangeModeMsgs(note)| == if IsMonoButton(note) then 54 else 53
    ensures forall i :: 0 <= i < 53 ==> ChangeModeMsgs(note)[i] == Command(KillOrder(i), 0)
    ensures IsMonoButton(note) ==> ChangeModeMsgs(note)[53] == NoteOnCode + note * 256 + 1 * 65536
  {
    KillAllLightsOrder();
  }

  /** After `changeMode`, whatever the lamps showed before: every pad
      `killAllLights` walks is off except the triggering button, which is
      solid if it is a single-colour button; no other lamp has changed. */
  lemma ChangeModeLeds(leds: map<int, Lamp>, note: int)
    ensures forall p :: Killed(p) ==>
              p in LedsAfter(leds, ChangeModeMsgs(note)) &&
              LedsAfter(leds, ChangeModeMsgs(note))[p] ==
                (if p == note && IsMonoButton(note) then Lamp(NoteOnCode, 1) else OffLamp)
    ensures forall p :: !Killed(p) ==> SameAt(LedsAfter(leds, ChangeModeMsgs(note)), leds, p)
  {
    var killed := LedsAfter(leds, KillAllLightsMsgs());
    KillAllLightsLeds(leds);
    LedsAfterAppend(leds, KillAllLightsMsgs(), SetLedMonoMsgs(note, false));
    if IsMonoButton(note) {
      DecodeEncode(NoteOnCode, note, 1);
      assert LedsAfter(leds, ChangeModeMsgs(note)) == killed[note := Lamp(NoteOnCode, 1)];
    }
  }

  /** Repeating a mode change gives the same mode and the same lamps as
      doing it once. */
  lemma ChangeModeIdempotent(leds: map<int, Lamp>, op: Op, note: int, isPlaying: bool, m: Model)
    requires IsModeSetter(op)
    ensures Perform(op, note, isPlaying, Perform(op, note, isPlaying, m)).mode == Perform(op, note, isPlaying, m).mode
    ensures LedsAfter(LedsAfter(leds, ChangeModeMsgs(note)), ChangeModeMsgs(note)) == LedsAfter(leds, ChangeModeMsgs(note))
  {
    LedsAfterIdempotent(leds, ChangeModeMsgs(note));
  }

  /** Code 81 (`setUserMode`) is not a single-colour button: the mode change
      lights nothing again and leaves the lamp of 81 as it was. */
  lemma UserModeNoRelight(leds: map<int, Lamp>)
    ensures ChangeModeMsgs(81) == KillAllLightsMsgs()
    ensures SameAt(LedsAfter(leds, ChangeModeMsgs(81)), leds, 81)
  {
    ChangeModeLeds(leds, 81);
  }

  // ---------------------------------------------------------------------
  // The imperative side.

  /** The module-level globals of the script. */
  class Globals {
    var controllerMode: int
    var shiftModifier: int

    constructor ()
      ensures controllerMode == User && shiftModifier == 0
    {
      controllerMode, shiftModifier := User, 0;
    }
  }

  /** `ShiftAction.changeMode`. */
  method ChangeMode(g: Globals, led: LedControl, ctrlMode: int, note: int)
    modifies g`controllerMode, led.host
    ensures g.controllerMode == ctrlMode
    ensures led.host.out == old(led.host.out) + ChangeModeMsgs(note)
    ensures led.host.calls == old(led.host.calls)
  {
    led.KillAllLights();
    g.controllerMode := ctrlMode;
    led.SetLedMono(note, false);
  }

  /** `ShiftAction.setTransportMode` .. `setUserMode`. */
  method SetTransportModeAction(g: Globals, led: LedControl, note: int)
    modifies g`controllerMode, led.host
    ensures g.controllerMode == Transport
    ensures led.host.out == old(led.host.out) + ChangeModeMsgs(note)
    ensures led.host.calls == old(led.host.calls)
  {
    ChangeMode(g, led, Transport, note);
  }

  method SetMixerModeAction(g: Globals, led: LedControl, note: int)
    modifies g`controllerMode, led.host
    ensures g.controllerMode == Mixer
    ensures led.host.out == old(led.host.out) + ChangeModeMsgs(note)
    ensures led.host.calls == old(led.host.calls)
  {
    ChangeMode(g, led, Mixer, note);
  }

  method SetBrowserModeAction(g: Globals, led: LedControl, note: int)
    modifies g`controllerMode, led.host
    ensures g.controllerMode == Browser
    ensures led.host.out == old(led.host.out) + ChangeModeMsgs(note)
    ensures led.host.calls == old(led.host.calls)
  {
    ChangeMode(g, led, Browser, note);
  }

  method SetPatternModeAction(g: Globals, led: LedControl, note: int)
    modifies g`controllerMode, led.host
    ensures g.controllerMode == Pattern
    ensures led.host.out == old(led.host.out) + ChangeModeMsgs(note)
    ensures led.host.calls == old(led.host.calls)
  {
    ChangeMode(g, led, Pattern, note);
  }

  method SetPlayListModeAction(g: Globals, led: LedControl, note: int)
    modifies g`controllerMode, led.host
    ensures g.controllerMode == Playlist
    ensures led.host.out == old(led.host.out) + ChangeModeMsgs(note)
    ensures led.host.calls == old(led.host.calls)
  {
    ChangeMode(g, led, Playlist, note);
  }

  method SetUserModeAction(g: Globals, led: LedControl, note: int)
    modifies g`controllerMode, led.host
    ensures g.controllerMode == User
    ensures led.host.out == old(led.host.out) + ChangeModeMsgs(note)
    ensures led.host.calls == old(led.host.calls)
  {
    ChangeMode(g, led, User, note);
  }

  /** `ReleaseAction.releaseFastForward`: stops seeking and turns the
      button off, in Transport mode only. */
  method ReleaseFastForwardAction(g: Globals, led: LedControl, note: int)
    modifies led.host
    ensures g.controllerMode == Transport ==>
              led.host.calls == old(led.host.calls) + [FastForward(0)] &&
              led.host.out == old(led.host.out) + LedOffMsgs(note)
    ensures g.controllerMode != Transport ==>
              led.host.calls == old(led.host.calls) && led.host.out == old(led.host.out)
  {
    if g.controllerMode == Transport {
      led.host.Transport(FastForward(0));
      led.LedOff(note);
    }
  }

  /** `ReleaseAction.releaseRewind`. */
  method ReleaseRewindAction(g: Globals, led: LedControl, note: int)
    modifies led.host
    ensures g.controllerMode == Transport ==>
              led.host.calls == old(led.host.calls) + [Rewind(0)] &&
              led.host.out == old(led.host.out) + LedOffMsgs(note)
    ensures g.controllerMode != Transport ==>
              led.host.calls == old(led.host.calls) && led.host.out == old(led.host.out)
  {
    if g.controllerMode == Transport {
      led.host.Transport(Rewind(0));
      led.LedOff(note);
    }
  }

  /** `GlobalAction.togglePlay`: starts when stopped, stops when playing. */
  method TogglePlayAction(host: Host, isPlaying: bool)
    modifies host
    ensures host.calls == old(host.calls) + [if isPlaying then Stop else Start]
    ensures host.out == old(host.out)
  {
    if !isPlaying {
      host.Transport(Start);
    } else {
      host.Transport(Stop);
    }
  }

  /** `GlobalAction.toggleRecord`: only while not playing. */
  method ToggleRecordAction(host: Host, isPlaying: bool)
    modifies host
    ensures host.calls == old(host.calls) + (if isPlaying then [] else [Record])
    ensures host.out == old(host.out)
  {
    if !isPlaying {
      host.Transport(Record);
    }
  }

  /** `TransportAction.toggleLoopMode`: only while not playing. */
  method ToggleLoopModeAction(host: Host, isPlaying: bool)
    modifies host
    ensures host.calls == old(host.calls) + (if isPlaying then [] else [SetLoopMode])
    ensures host.out == old(host.out)
  {
    if !isPlaying {
      host.Transport(SetLoopMode);
    }
  }

  /** `TransportAction.pressFastForward`: seek forward and light the button. */
  method PressFastForwardAction(led: LedControl, note: int)
    modifies led.host
    ensures led.host.calls == old(led.host.calls) + [FastForward(2)]
    ensures led.host.out == old(led.host.out) + SetLedMonoMsgs(note, false)
  {
    led.host.Transport(FastForward(2));
    led.SetLedMono(note, false);
  }

  /** `TransportAction.pressRewind`: seek backward and light the button. */
  method PressRewindAction(led: LedControl, note: int)
    modifies led.host
    ensures led.host.calls == old(led.host.calls) + [Rewind(2)]
    ensures led.host.out == old(led.host.out) + SetLedMonoMsgs(note, false)
  {
    led.host.Transport(Rewind(2));
    led.SetLedMono(note, false);
  }
}
