/** The script's module level: the singletons built at load (`start`,
    `midiIn`, `led`, `live`), the two globals, and the hooks the host calls. */
module Script {
  import opened HostApi
  import opened Leds
  import opened Knobs
  import opened Actions
  import opened Dispatch
  import opened Handler
  import opened Live

  class Session {
    const host: Host
    const globals: Globals
    const midiIn: MidiInHandler
    const led: LedControl
    const live: PerformanceMode

    /** The objects are wired to one host and the knob tracker is sound. */
    ghost predicate Valid()
      reads this, midiIn, midiIn.knobs, live
    {
      led.host == host && live.led == led && midiIn.knobs.Valid()
    }

    /** Loading the script: User mode, shift released, every knob at 1, the
        beat indicator off, and the grid repainted from the live status. */
    constructor (status: (int, int) -> int)
      ensures Valid()
      ensures globals.controllerMode == User && globals.shiftModifier == 0
      ensures forall k :: k in midiIn.knobs.knobs ==> midiIn.knobs.knobs[k] == MinValue
      ensures midiIn.invoked == [] && led.prevBeat == 0
      ensures host.out == Repaint(status) && host.calls == []
    {
      var h := new Host();
      var l := new LedControl(h);
      host := h;
      globals := new Globals();
      midiIn := new MidiInHandler();
      led := l;
      live := new PerformanceMode(l, status);
    }

    /** `OnInit` (`startTheShow`): Transport mode, as if 82 had been
        pressed with shift. */
    method OnInit()
      requires Valid()
      modifies globals`controllerMode, host
      ensures Valid()
      ensures globals.controllerMode == Transport && globals.shiftModifier == old(globals.shiftModifier)
      ensures host.out == old(host.out) + ChangeModeMsgs(82)
      ensures host.calls == old(host.calls)
    {
      SetTransportModeAction(globals, led, 82);
    }

    /** `OnDeInit`: every LED off. */
    method OnDeInit()
      requires Valid()
      modifies host
      ensures Valid()
      ensures host.out == old(host.out) + KillAllLightsMsgs()
      ensures host.calls == old(host.calls)
    {
      led.KillAllLights();
    }

    method OnMidiIn(event: MidiEvent)
      requires Valid()
      modifies midiIn.knobs, event`data2
      ensures Valid()
      ensures FirstKnob < event.data1 < KnobsEnd && (old(event.data2) == Down || old(event.data2) == Up) ==>
                midiIn.knobs.knobs == old(midiIn.knobs.knobs)[event.data1 := Adjusted(old(midiIn.knobs.knobs)[event.data1], old(event.data2))] &&
                event.data2 == midiIn.knobs.knobs[event.data1]
      ensures !(FirstKnob < event.data1 < KnobsEnd && (old(event.data2) == Down || old(event.data2) == Up)) ==>
                midiIn.knobs.knobs == old(midiIn.knobs.knobs) && event.data2 == old(event.data2)
    {
      midiIn.OnMidiIn(event);
    }

    /** `OnMidiMsg`, with the host's `transport.isPlaying()` at the time. */
    method OnMidiMsg(event: MidiEvent, isPlaying: bool)
      requires Valid()
      modifies midiIn`invoked, globals, host, event`data1, event`handled
      ensures Valid()
      ensures event.data1 == Pads.Remap(old(event.data1))
      ensures State(midiIn.ModelOf(globals, host), event.handled) ==
                Handle(event.midiChan, event.pmeFlags, event.midiId, old(event.data1), isPlaying,
                       old(State(midiIn.ModelOf(globals, host), event.handled)))
    {
      midiIn.OnMidiMsg(event, globals, led, isPlaying);
    }

    method OnUpdateBeatIndicator(value: int)
      requires Valid()
      modifies led, host
      ensures Valid()
      ensures led.prevBeat == value
      ensures host.out == old(host.out) + BeatMsgs(old(led.prevBeat), value)
      ensures host.calls == old(host.calls)
    {
      led.OnUpdateBeatIndicator(value);
    }

    /** `OnUpdateLiveMode`, with the playlist's live block status. */
    method OnUpdateLiveMode(value: int, status: (int, int) -> int)
      requires Valid()
      modifies host
      ensures Valid()
      ensures host.out == old(host.out) + Repaint(status)
      ensures host.calls == old(host.calls)
    {
      live.OnUpdateLiveMode(value, status);
    }
  }
}
