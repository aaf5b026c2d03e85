/** `MidiInHandler`: the knob tracker behind `OnMidiIn`, and `OnMidiMsg`,
    which remaps the pad, filters the event and walks the code's action list
    against the global mode and shift latch. Each method is proved against
    the functions of `Dispatch` and `Knobs`. */
module Handler {
  import opened HostApi
  import opened Leds
  import opened Knobs
  import opened Pads
  import opened Actions
  import opened Dispatch

  class MidiInHandler {
    const knobs: KnobHandler
    /** The operations `callAction` has run, oldest first. */
    ghost var invoked: seq<Op>

    constructor ()
      ensures fresh(knobs) && knobs.Valid()
      ensures forall k :: k in knobs.knobs ==> knobs.knobs[k] == MinValue
      ensures invoked == []
    {
      knobs := new KnobHandler();
      invoked := [];
    }

    /** The model `Dispatch` works on: the globals, the host's traces and
        the log of operations run. */
    ghost function ModelOf(g: Globals, h: Host): Model
      reads this, g, h
    {
      Model(g.controllerMode, g.shiftModifier, h.out, h.calls, invoked)
    }

    /** `OnMidiIn`: only knobs 48..55 are passed to the tracker; knob 47 is
        tracked but never adjusted, and every other value of `data1` is left
        alone. */
    method OnMidiIn(event: MidiEvent)
      requires knobs.Valid()
      modifies knobs, event`data2
      ensures knobs.Valid()
      ensures FirstKnob < event.data1 < KnobsEnd && (old(event.data2) == Down || old(event.data2) == Up) ==>
                knobs.knobs == old(knobs.knobs)[event.data1 := Adjusted(old(knobs.knobs)[event.data1], old(event.data2))] &&
                event.data2 == knobs.knobs[event.data1]
      ensures !(FirstKnob < event.data1 < KnobsEnd && (old(event.data2) == Down || old(event.data2) == Up)) ==>
                knobs.knobs == old(knobs.knobs) && event.data2 == old(event.data2)
      ensures knobs.knobs[FirstKnob] == old(knobs.knobs[FirstKnob])
    {
      if event.data1 < 56 && event.data1 > 47 {
        knobs.Adjust(event);
      }
    }

    /** `callAction`: runs `op` for button `note` on the host and the LED
        driver, and logs it. */
    method CallAction(op: Op, note: int, g: Globals, led: LedControl, isPlaying: bool)
      modifies this`invoked, g`controllerMode, led.host
      ensures g.shiftModifier == old(g.shiftModifier)
      ensures ModelOf(g, led.host) == Dispatch.CallAction(op, note, isPlaying, old(ModelOf(g, led.host)))
    {
      invoked := invoked + [op];
      match op
      case SetTransportMode => SetTransportModeAction(g, led, note);
      case SetMixerMode => SetMixerModeAction(g, led, note);
      case SetBrowserMode => SetBrowserModeAction(g, led, note);
      case SetPatternMode => SetPatternModeAction(g, led, note);
      case SetPlayListMode => SetPlayListModeAction(g, led, note);
      case SetUserMode => SetUserModeAction(g, led, note);
      case ReleaseFastForward => ReleaseFastForwardAction(g, led, note);
      case ReleaseRewind => ReleaseRewindAction(g, led, note);
      case TogglePlay => TogglePlayAction(led.host, isPlaying);
      case ToggleRecord => ToggleRecordAction(led.host, isPlaying);
      case ToggleLoopMode => ToggleLoopModeAction(led.host, isPlaying);
      case PressFastForward => PressFastForwardAction(led, note);
      case PressRewind => PressRewindAction(led, note);
    }

    /** One pass of `OnMidiMsg`'s loop, for the entry `noteFunc` of the
        list of the already remapped code `event.data1`. */
    method HandleEntry(noteFunc: Entry, event: MidiEvent, g: Globals, led: LedControl, isPlaying: bool)
      modifies this`invoked, g, led.host, event`handled
      ensures State(ModelOf(g, led.host), event.handled) ==
                Step(noteFunc, event.data1, event.midiId, isPlaying, old(State(ModelOf(g, led.host), event.handled)))
    {
      if noteFunc.NotHandled? && event.data1 != ShiftButton && g.controllerMode != User {
        event.handled := true;
      } else if event.midiId == MidiNoteOff {
        event.handled := true;
        if event.data1 == ShiftButton {
          g.shiftModifier := 0;
        } else if noteFunc.Call? && noteFunc.family == ReleaseAction && g.shiftModifier == 0 {
          CallAction(noteFunc.op, event.data1, g, led, isPlaying);
          event.handled := true;
        }
      } else if event.midiId == MidiNoteOn {
        event.handled := true;
        if event.data1 == ShiftButton {
          g.shiftModifier := 1;
        }
        if noteFunc.Call? && noteFunc.family == ShiftAction && g.shiftModifier == 1 {
          CallAction(noteFunc.op, event.data1, g, led, isPlaying);
        } else if noteFunc.Call? && noteFunc.family == GlobalAction && g.shiftModifier == 0 {
          CallAction(noteFunc.op, event.data1, g, led, isPlaying);
        } else if noteFunc.Call? && noteFunc.family == TransportAction && g.controllerMode == Transport && g.shiftModifier == 0 {
          CallAction(noteFunc.op, event.data1, g, led, isPlaying);
        } else if noteFunc.Call? && noteFunc.family == MixerAction && g.controllerMode == Mixer && g.shiftModifier == 0 {
          CallAction(noteFunc.op, event.data1, g, led, isPlaying);
        } else if g.controllerMode == User && event.data1 != ShiftButton {
          event.handled := false;
        }
      }
    }

    /** `OnMidiMsg` with the host's current `isPlaying()`: `data1` ends
        remapped, and the model and `handled` end as `Dispatch.Handle`
        says. */
    method OnMidiMsg(event: MidiEvent, g: Globals, led: LedControl, isPlaying: bool)
      modifies this`invoked, g, led.host, event`data1, event`handled
      ensures event.data1 == Remap(old(event.data1))
      ensures State(ModelOf(g, led.host), event.handled) ==
                Handle(event.midiChan, event.pmeFlags, event.midiId, old(event.data1), isPlaying,
                       old(State(ModelOf(g, led.host), event.handled)))
    {
      if event.data1 in PadTable {
        event.data1 := PadTable[event.data1];
      }
      ghost var start := State(ModelOf(g, led.host), event.handled);
      if event.midiChan == 0 && event.pmeFlags != 0 && PmeSystem != 0 {
        var noteFuncList := NoteDict(event.data1);
        ghost var code := event.data1;
        ghost var midiId := event.midiId;
        var i := 0;
        while i < |noteFuncList|
          invariant 0 <= i <= |noteFuncList|
          invariant event.data1 == code && event.midiId == midiId
          invariant Run(noteFuncList[i..], code, midiId, isPlaying, State(ModelOf(g, led.host), event.handled)) ==
                    Run(noteFuncList, code, midiId, isPlaying, start)
        {
          HandleEntry(noteFuncList[i], event, g, led, isPlaying);
          assert noteFuncList[i..][1..] == noteFuncList[i + 1..];
          i := i + 1;
        }
        assert noteFuncList[i..] == [];
      }
    }
  }
}
