/** The dispatch state machine of `MidiInHandler.OnMidiMsg`, as a function:
    the note table, one pass of the loop over a code's action list, and the
    whole handler, together with the properties the guards give it. */
module Dispatch {
  import opened HostApi
  import opened Leds
  import opened Actions
  import opened Pads

  const ShiftButton := 98
  /** The status values `OnMidiMsg` compares `midiId` with. */
  const MidiNoteOn := 144
  const MidiNoteOff := 128
  /** `midi.PME_System`: a nonzero flag constant of the host. */
  const PmeSystem := 2

  datatype Family = ShiftAction | ReleaseAction | GlobalAction | TransportAction | MixerAction

  /** An entry of the note table; `NotHandled` is the `("notHandled", "")`
      default of `dict.get`. */
  datatype Entry = NotHandled | Call(family: Family, op: Op)

  /** `noteDict`'s dictionary. */
  const NoteTable: map<int, seq<Entry>> := map[
    91 := [Call(GlobalAction, TogglePlay)],
    93 := [Call(GlobalAction, ToggleRecord)],
    82 := [Call(ShiftAction, SetTransportMode)],
    83 := [Call(ShiftAction, SetMixerMode)],
    84 := [Call(ShiftAction, SetBrowserMode)],
    85 := [Call(ShiftAction, SetPatternMode)],
    86 := [Call(ShiftAction, SetPlayListMode), Call(TransportAction, ToggleLoopMode)],
    81 := [Call(ShiftAction, SetUserMode)],
    66 := [Call(TransportAction, PressRewind), Call(ReleaseAction, ReleaseRewind)],
    67 := [Call(TransportAction, PressFastForward), Call(ReleaseAction, ReleaseFastForward)]
  ]

  /** `noteDict(i)`: the ordered action list of a logical code. */
  function NoteDict(i: int): (r: seq<Entry>)
    ensures r != []
    ensures i !in NoteTable ==> r == [NotHandled]
  {
    if i in NoteTable then NoteTable[i] else [NotHandled]
  }

  /** The family whose class defines each operation. */
  function FamilyOf(op: Op): Family
  {
    if IsModeSetter(op) then ShiftAction
    else if op.ReleaseFastForward? || op.ReleaseRewind? then ReleaseAction
    else if op.TogglePlay? || op.ToggleRecord? then GlobalAction
    else TransportAction
  }

  /** Every entry of the table names an operation of its own family. */
  predicate WellFormed(es: seq<Entry>)
  {
    forall j :: 0 <= j < |es| ==> es[j].Call? ==> es[j].family == FamilyOf(es[j].op)
  }

  lemma NoteTableWellFormed(i: int)
    ensures WellFormed(NoteDict(i))
  {
  }

  /** The model together with the event's `handled` flag. */
  datatype State = State(m: Model, handled: bool)

  /** `callAction`: runs the operation and records that it ran. */
  function CallAction(op: Op, note: int, isPlaying: bool, m: Model): (r: Model)
    ensures r.invoked == m.invoked + [op]
  {
    Perform(op, note, isPlaying, m.(invoked := m.invoked + [op]))
  }

  /** One pass of `OnMidiMsg`'s loop body for entry `e`, on logical code
      `code` and message type `midiId`. Only the shift button moves the
      latch; at most one operation runs; an entry clears `handled` only by
      leaving the model as it was; and a message that is neither NoteOn nor
      NoteOff changes nothing, except on the unmapped-code branch. */
  function Step(e: Entry, code: int, midiId: int, isPlaying: bool, s: State): (r: State)
    ensures r.m.shift == (if code == ShiftButton && midiId == MidiNoteOff then 0
                          else if code == ShiftButton && midiId == MidiNoteOn then 1
                          else s.m.shift)
    ensures s.m.invoked <= r.m.invoked && |r.m.invoked| <= |s.m.invoked| + 1
    ensures !r.handled ==> r.m == s.m
    ensures !r.handled && s.handled ==> midiId == MidiNoteOn && s.m.mode == User && code != ShiftButton
    ensures midiId != MidiNoteOn && midiId != MidiNoteOff && !(e.NotHandled? && code != ShiftButton && s.m.mode != User) ==>
              r == s
  {
    if e.NotHandled? && code != ShiftButton && s.m.mode != User then
      s.(handled := true)
    else if midiId == MidiNoteOff then
      if code == ShiftButton then State(s.m.(shift := 0), true)
      else if e.Call? && e.family == ReleaseAction && s.m.shift == 0 then
        State(CallAction(e.op, code, isPlaying, s.m), true)
      else s.(handled := true)
    else if midiId == MidiNoteOn then
      var m := if code == ShiftButton then s.m.(shift := 1) else s.m;
      if e.Call? && e.family == ShiftAction && m.shift == 1 then
        State(CallAction(e.op, code, isPlaying, m), true)
      else if e.Call? && e.family == GlobalAction && m.shift == 0 then
        State(CallAction(e.op, code, isPlaying, m), true)
      else if e.Call? && e.family == TransportAction && m.mode == Transport && m.shift == 0 then
        State(CallAction(e.op, code, isPlaying, m), true)
      else if e.Call? && e.family == MixerAction && m.mode == Mixer && m.shift == 0 then
        State(CallAction(e.op, code, isPlaying, m), true)
      else if m.mode == User && code != ShiftButton then
        State(m, false)
      else
        State(m, true)
    else
      s
  }

  /** The loop over an action list, entry by entry: each entry runs on the
      state the previous one left, so a later entry sees the mode an
      earlier ShiftAction has just set. The log grows by at most one
      operation per entry, and only the shift button moves the latch. */
  function Run(es: seq<Entry>, code: int, midiId: int, isPlaying: bool, s: State): (r: State)
    ensures s.m.invoked <= r.m.invoked && |r.m.invoked| <= |s.m.invoked| + |es|
    ensures code != ShiftButton ==> r.m.shift == s.m.shift
    decreases |es|
  {
    if es == [] then s else Run(es[1..], code, midiId, isPlaying, Step(es[0], code, midiId, isPlaying, s))
  }

  /** A one-entry list is one step. */
  lemma RunSingle(e: Entry, code: int, midiId: int, isPlaying: bool, s: State)
    ensures Run([e], code, midiId, isPlaying, s) == Step(e, code, midiId, isPlaying, s)
  {
    assert [e][1..] == [];
  }

  /** The event filter: channel 0 and a nonzero `pmeFlags`. */
  predicate Accepted(midiChan: int, pmeFlags: int)
  {
    midiChan == 0 && pmeFlags != 0 && PmeSystem != 0
  }

  /** `OnMidiMsg` on an event with the given fields, after the pad remap. */
  function Handle(midiChan: int, pmeFlags: int, midiId: int, data1: int, isPlaying: bool, s: State): (r: State)
    ensures !Accepted(midiChan, pmeFlags) ==> r == s
  {
    var code := Remap(data1);
    if Accepted(midiChan, pmeFlags) then Run(NoteDict(code), code, midiId, isPlaying, s) else s
  }

  /** Only whether the event passes the filter matters: every accepted
      channel and flag set behaves as channel 0 with flags 1, the instance
      the per-button lemmas below use. */
  lemma FilterOnly(midiChan: int, pmeFlags: int, midiId: int, data1: int, isPlaying: bool, s: State)
    requires Accepted(midiChan, pmeFlags)
    ensures Handle(midiChan, pmeFlags, midiId, data1, isPlaying, s) == Handle(0, 1, midiId, data1, isPlaying, s)
  {
  }

  // ---------------------------------------------------------------------
  // The guards.

  /** What must hold of the event and of the state before it for an
      operation of each family to run. */
  predicate Guard(op: Op, midiId: int, shift: int, mode: int)
  {
    FamilyGuard(FamilyOf(op), midiId, shift, mode)
  }

  /** The condition of each family's branch in the loop body. */
  predicate FamilyGuard(f: Family, midiId: int, shift: int, mode: int)
  {
    match f
    case ShiftAction => midiId == MidiNoteOn && shift == 1
    case GlobalAction => midiId == MidiNoteOn && shift == 0
    case TransportAction => midiId == MidiNoteOn && shift == 0 && mode == Transport
    case MixerAction => midiId == MidiNoteOn && shift == 0 && mode == Mixer
    case ReleaseAction => midiId == MidiNoteOff && shift == 0
  }

  /** What stays true along the loop for a code other than the shift button,
      relative to the state `s0` before it: the latch does not move, the mode
      moves only when shift is held, and every operation run so far passed
      its family's guard against `s0`. */
  predicate GuardsKept(s0: State, s: State, midiId: int)
  {
    s.m.shift == s0.m.shift &&
    (s.m.mode != s0.m.mode ==> s0.m.shift == 1) &&
    s0.m.invoked <= s.m.invoked &&
    forall k :: |s0.m.invoked| <= k < |s.m.invoked| ==> Guard(s.m.invoked[k], midiId, s0.m.shift, s0.m.mode)
  }

  lemma {:induction false} RunKeepsGuards(es: seq<Entry>, code: int, midiId: int, isPlaying: bool, s0: State, s: State)
    requires code != ShiftButton && WellFormed(es)
    requires GuardsKept(s0, s, midiId)
    ensures GuardsKept(s0, Run(es, code, midiId, isPlaying, s), midiId)
    decreases |es|
  {
    if es != [] {
      var t := Step(es[0], code, midiId, isPlaying, s);
      if t.m.invoked != s.m.invoked {
        var op := es[0].op;
        assert t.m.invoked == s.m.invoked + [op];
        assert Guard(op, midiId, s0.m.shift, s0.m.mode);
        forall k | |s0.m.invoked| <= k < |t.m.invoked|
          ensures Guard(t.m.invoked[k], midiId, s0.m.shift, s0.m.mode)
        {
          if k < |s.m.invoked| {
            assert t.m.invoked[k] == s.m.invoked[k];
          }
        }
      }
      assert WellFormed(es[1..]);
      RunKeepsGuards(es[1..], code, midiId, isPlaying, s0, t);
    }
  }

  /** Every operation one event runs passed its family's guard against the
      state before the event: ShiftAction only on NoteOn with shift held,
      GlobalAction only on NoteOn without shift, TransportAction also only in
      Transport mode, ReleaseAction only on NoteOff without shift. The shift
      latch and the mode change only as `callAction` and the shift button
      change them. */
  lemma HandleGuards(midiChan: int, pmeFlags: int, midiId: int, data1: int, isPlaying: bool, s: State)
    requires Remap(data1) != ShiftButton
    ensures GuardsKept(s, Handle(midiChan, pmeFlags, midiId, data1, isPlaying, s), midiId)
  {
    var code := Remap(data1);
    NoteTableWellFormed(code);
    RunKeepsGuards(NoteDict(code), code, midiId, isPlaying, s, s);
  }

  /** Code 86 carries both `setPlayListMode` and `toggleLoopMode`; their
      guards exclude each other, so one event never runs both. */
  lemma PlaylistButtonNeverBoth(midiChan: int, pmeFlags: int, midiId: int, isPlaying: bool, s: State)
    ensures var r := Handle(midiChan, pmeFlags, midiId, 86, isPlaying, s);
            s.m.invoked <= r.m.invoked &&
            !(SetPlayListMode in r.m.invoked[|s.m.invoked|..] && ToggleLoopMode in r.m.invoked[|s.m.invoked|..])
  {
    var r := Handle(midiChan, pmeFlags, midiId, 86, isPlaying, s);
    RemapKeepsButtons(86, ShiftButton);
    HandleGuards(midiChan, pmeFlags, midiId, 86, isPlaying, s);
  }

  // ---------------------------------------------------------------------
  // `handled`, the filter and the shift latch.

  /** A code with no table entry, other than the shift button, outside User
      mode: the event is consumed and nothing else happens. */
  lemma UnmappedConsumed(midiId: int, data1: int, isPlaying: bool, s: State)
    requires Remap(data1) !in NoteTable && Remap(data1) != ShiftButton && s.m.mode != User
    ensures Handle(0, 1, midiId, data1, isPlaying, s) == s.(handled := true)
  {
    RunSingle(NotHandled, Remap(data1), midiId, isPlaying, s);
  }

  /** Whether an operation of family `f` would run on a NoteOn with this
      model. */
  predicate FiresOnNoteOn(f: Family, m: Model)
  {
    FamilyGuard(f, MidiNoteOn, m.shift, m.mode)
  }

  lemma {:induction false} RunUnhandledInUserMode(es: seq<Entry>, code: int, isPlaying: bool, s: State)
    requires s.m.mode == User && code != ShiftButton
    requires forall j :: 0 <= j < |es| ==> es[j].Call? ==> !FiresOnNoteOn(es[j].family, s.m)
    ensures Run(es, code, MidiNoteOn, isPlaying, s) == (if es == [] then s else s.(handled := false))
    decreases |es|
  {
    if es != [] {
      RunUnhandledInUserMode(es[1..], code, isPlaying, s.(handled := false));
    }
  }

  /** In User mode a NoteOn for any code but the shift button whose entries'
      guards all fail is left unhandled, so the host's own note handling
      still takes it; nothing is run or sent. */
  lemma UserModeLeavesUnhandled(data1: int, isPlaying: bool, s: State)
    requires s.m.mode == User && Remap(data1) != ShiftButton
    requires forall j :: 0 <= j < |NoteDict(Remap(data1))| ==>
               NoteDict(Remap(data1))[j].Call? ==> !FiresOnNoteOn(NoteDict(Remap(data1))[j].family, s.m)
    ensures Handle(0, 1, MidiNoteOn, data1, isPlaying, s) == s.(handled := false)
  {
    RunUnhandledInUserMode(NoteDict(Remap(data1)), Remap(data1), isPlaying, s);
  }

  /** A grid pad pressed in User mode stays with the host. */
  lemma UserModePadUnhandled(data1: int, isPlaying: bool, s: State)
    requires s.m.mode == User && 0 <= data1 < 40
    ensures Handle(0, 1, MidiNoteOn, data1, isPlaying, s) == s.(handled := false)
  {
    var code := Remap(data1);
    RemapAt(data1 / 8, data1 % 8);
    assert code < 56;
    UserModeLeavesUnhandled(data1, isPlaying, s);
  }

  /** The shift button latches on NoteOn and releases on NoteOff, in every
      mode; nothing else changes and the event is consumed. */
  lemma ShiftLatch(isPlaying: bool, s: State)
    ensures Handle(0, 1, MidiNoteOn, ShiftButton, isPlaying, s) == State(s.m.(shift := 1), true)
    ensures Handle(0, 1, MidiNoteOff, ShiftButton, isPlaying, s) == State(s.m.(shift := 0), true)
  {
    RemapKeepsButtons(ShiftButton, ShiftButton);
    RunSingle(NotHandled, ShiftButton, MidiNoteOn, isPlaying, s);
    RunSingle(NotHandled, ShiftButton, MidiNoteOff, isPlaying, s);
  }

  // ---------------------------------------------------------------------
  // The buttons, one by one.

  /** Play/pause (91) without shift starts when stopped and stops when
      playing; with shift held it does nothing. */
  lemma PlayButton(isPlaying: bool, s: State)
    ensures s.m.shift == 0 ==>
              Handle(0, 1, MidiNoteOn, 91, isPlaying, s).m ==
              s.m.(calls := s.m.calls + [if isPlaying then Stop else Start], invoked := s.m.invoked + [TogglePlay])
    ensures s.m.shift == 1 ==> Handle(0, 1, MidiNoteOn, 91, isPlaying, s).m == s.m
  {
    RemapKeepsButtons(91, 91);
    RunSingle(Call(GlobalAction, TogglePlay), 91, MidiNoteOn, isPlaying, s);
  }

  /** Record (93) without shift arms recording only while stopped; with
      shift held it does nothing. */
  lemma RecordButton(isPlaying: bool, s: State)
    ensures s.m.shift == 0 ==>
              Handle(0, 1, MidiNoteOn, 93, isPlaying, s).m ==
              s.m.(calls := s.m.calls + (if isPlaying then [] else [Record]), invoked := s.m.invoked + [ToggleRecord])
    ensures s.m.shift == 1 ==> Handle(0, 1, MidiNoteOn, 93, isPlaying, s).m == s.m
  {
    RemapKeepsButtons(93, 93);
    RunSingle(Call(GlobalAction, ToggleRecord), 93, MidiNoteOn, isPlaying, s);
  }

  /** With shift held, the entries after a mode setter do not fire. */
  lemma {:induction false} RunIdleWithShift(es: seq<Entry>, code: int, isPlaying: bool, s: State)
    requires code != ShiftButton && s.m.shift == 1 && s.handled
    requires es == [] || s.m.mode != User
    requires forall j :: 0 <= j < |es| ==> es[j].Call? && es[j].family != ShiftAction
    ensures Run(es, code, MidiNoteOn, isPlaying, s) == s
    decreases |es|
  {
    if es != [] {
      RunIdleWithShift(es[1..], code, isPlaying, s);
    }
  }

  /** With shift held, each mode button sets its mode, clears every LED and
      relights itself. */
  lemma ModeButtons(code: int, isPlaying: bool, s: State)
    requires 81 <= code <= 86 && s.m.shift == 1
    ensures Handle(0, 1, MidiNoteOn, code, isPlaying, s).m.mode == code - 81
    ensures Handle(0, 1, MidiNoteOn, code, isPlaying, s).m.out == s.m.out + ChangeModeMsgs(code)
    ensures Handle(0, 1, MidiNoteOn, code, isPlaying, s).m.calls == s.m.calls
  {
    RemapKeepsButtons(code, code);
    var es := NoteDict(code);
    assert es[0].Call? && es[0].family == ShiftAction && IsModeSetter(es[0].op) && TargetMode(es[0].op) == code - 81;
    var t := Step(es[0], code, MidiNoteOn, isPlaying, s);
    assert t.m == CallAction(es[0].op, code, isPlaying, s.m) && t.handled;
    RunIdleWithShift(es[1..], code, isPlaying, t);
  }

  /** Code 86 without shift in Transport mode toggles the song/pattern loop
      mode, only while stopped, and leaves the mode alone. */
  lemma LoopButton(isPlaying: bool, s: State)
    requires s.m.shift == 0 && s.m.mode == Transport
    ensures Handle(0, 1, MidiNoteOn, 86, isPlaying, s).m ==
              s.m.(calls := s.m.calls + (if isPlaying then [] else [SetLoopMode]), invoked := s.m.invoked + [ToggleLoopMode])
  {
    RemapKeepsButtons(86, 86);
  }

  /** Pressing rewind (66) or fast-forward (67) in Transport mode without
      shift seeks at speed 2 and lights the button solid. */
  lemma SeekPress(code: int, isPlaying: bool, s: State)
    requires (code == 66 || code == 67) && s.m.shift == 0 && s.m.mode == Transport
    ensures Handle(0, 1, MidiNoteOn, code, isPlaying, s).m.calls ==
              s.m.calls + [if code == 66 then Rewind(2) else FastForward(2)]
    ensures Handle(0, 1, MidiNoteOn, code, isPlaying, s).m.out == s.m.out + [Command(code, 1)]
    ensures Handle(0, 1, MidiNoteOn, code, isPlaying, s).m.mode == Transport
    ensures Handle(0, 1, MidiNoteOn, code, isPlaying, s).m.shift == 0
  {
    RemapKeepsButtons(code, code);
  }

  /** Releasing 66 or 67 without shift runs the release action, which stops
      the seek and turns the button off only in Transport mode. */
  lemma SeekRelease(code: int, isPlaying: bool, s: State)
    requires (code == 66 || code == 67) && s.m.shift == 0
    ensures Handle(0, 1, MidiNoteOff, code, isPlaying, s).m.calls ==
              s.m.calls + (if s.m.mode != Transport then [] else [if code == 66 then Rewind(0) else FastForward(0)])
    ensures Handle(0, 1, MidiNoteOff, code, isPlaying, s).m.out ==
              s.m.out + (if s.m.mode != Transport then [] else [Command(code, 0)])
  {
    RemapKeepsButtons(code, code);
  }

  /** Press then release rewind in Transport mode: `rewind(2)` then
      `rewind(0)`, and the button's lamp ends off, whatever it showed. */
  lemma RewindPressRelease(leds: map<int, Lamp>, isPlaying: bool, s: State)
    requires s.m.shift == 0 && s.m.mode == Transport
    ensures var s1 := Handle(0, 1, MidiNoteOn, 66, isPlaying, s);
            var s2 := Handle(0, 1, MidiNoteOff, 66, isPlaying, s1);
            s2.m.calls == s.m.calls + [Rewind(2), Rewind(0)] &&
            s2.m.out == s.m.out + [Command(66, 1), Command(66, 0)] &&
            66 in LedsAfter(leds, s2.m.out) && !Lit(LedsAfter(leds, s2.m.out)[66])
  {
    var s1 := Handle(0, 1, MidiNoteOn, 66, isPlaying, s);
    SeekPress(66, isPlaying, s);
    SeekRelease(66, isPlaying, s1);
    var s2 := Handle(0, 1, MidiNoteOff, 66, isPlaying, s1);
    LedsAfterAppend(leds, s.m.out + [Command(66, 1)], [Command(66, 0)]);
    DecodeEncode(NoteOnCode, 66, 0);
  }
}
