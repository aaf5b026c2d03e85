# Akai APC Key 25 MK2 control-surface script, modelled in Dafny

This is a model of an FL Studio MIDI script for the Akai APC Key 25 MK2 controller. All of the script lives in `device_APCKey25.py`. The host is FL Studio's `device`, `transport`, `midi` and `playlist` modules. It is modelled as a recorder, `HostApi.Host`, with two traces:

- `out`: every value passed to `device.midiOutMsg`;
- `calls`: every transport command.

Two host queries are inputs of the operations that use them:

- `transport.isPlaying()` is the `isPlaying` argument;
- `playlist.getLiveBlockStatus(idx, blockNum, 0)` is the `status` function.

The modules follow the script's parts:

- `Knobs`: `KnobHandler`. It turns relative encoder ticks into absolute values clamped to 1..128 and rewrites `event.data2`.
- `Pads`: the 40-entry pad remap table of `MidiInHandler`.
- `Leds`: `LedControl`. It covers how LED commands are packed into messages, the range check of each command, the kill loops and the edge-triggered beat indicator. It also has a lamp-state abstraction, `LedsAfter`, which says what each pad shows after a run of messages.
- `Actions`: the action classes `ShiftAction`, `ReleaseAction`, `GlobalAction` and `TransportAction`, and the globals `controllerMode` and `shiftModifier`. Each action is given twice:
  - as a method that drives the host;
  - as a pure function `Perform` on a value `Model`, which holds the mode, the shift latch, the two traces and a log of the operations run.
- `Dispatch`: `noteDict` and `OnMidiMsg` as functions.
  - `Step` is one pass of the loop, `Run` is the loop, and `Handle` is the whole handler.
  - The lemmas prove the filter, the shift latch, the family guards and the effect of each button.
- `Handler`: `MidiInHandler` as a class. Its `OnMidiMsg` method runs the loop over the action list and is proved to end in the state `Dispatch.Handle` gives.
- `Live`: `PerformanceMode`. It repaints the 5x8 grid from the live block status. The nested loop is proved to send the 40 messages of `Repaint`, and after a repaint every grid pad shows its block.
- `Script`: the objects built when the script loads, and the hooks the host calls (`OnInit`, `OnDeInit`, `OnMidiIn`, `OnMidiMsg`, `OnUpdateBeatIndicator`, `OnUpdateLiveMode`).

Several points in the code are easy to misread. The model follows the code on each of them:

- The event filter needs both `midiChan == 0` and a nonzero `pmeFlags`.
- The pad remap is injective on 0..39, but it is not onto 0..39. Its image is 0..7, 12..19, 24..31, 36..43 and 48..55.
- The range checks are inclusive at both ends:
  - `ledOn` and `ledPulse`: 0..40;
  - `ledOff`: 0..40, 64..72 and 82..87.
- `killAllLights` walks `range(82, 87)`, `range(40)` and `range(64, 72)`.
- Code 81 (User mode) is not a single-colour button, so `changeMode` does not relight it.

## Model

| member | source | states |
|---|---|---|
| Knobs.Adjusted | device_APCKey25.py:98-110 | One tick keeps a value in 1..128. Tick 1 steps down and tick 127 steps up, each by exactly one away from the bounds. Neither moves past the bounds. Any other tick leaves the value alone. |
| Knobs.TicksStayInRange | device_APCKey25.py:98-110 | No run of ticks takes a value out of 1..128. |
| Knobs.UpTicksSaturate | device_APCKey25.py:106-109 | `n` up-ticks from `v` give `min(v + n, 128)`: turning up saturates at 128 and never wraps. |
| Knobs.DownTicksSaturate | device_APCKey25.py:101-105 | `n` down-ticks from `v` give `max(v - n, 1)`. |
| Knobs.OtherTicksIgnored | device_APCKey25.py:98-110 | Ticks other than 1 and 127 never move a knob, however many there are. |
| Knobs.KnobHandler.constructor | device_APCKey25.py:91-96 | The tracked knobs are exactly 47..55, and each starts at 1. |
| Knobs.KnobHandler.Adjust | device_APCKey25.py:98-110 | Ticks 1 and 127 store the adjusted value and write it into `data2`. Other ticks change neither the table nor `data2`. The table stays valid. |
| Pads.Remap | device_APCKey25.py:271-274 | A code without a table entry passes through unchanged. |
| Pads.PadTableKeys | device_APCKey25.py:159-203 | The table has an entry for exactly the codes 0..39. |
| Pads.RemapAt | device_APCKey25.py:159-203 | Physical row `r`, column `c` maps to logical code `48 - 12r + c`. |
| Pads.RemapInjective | device_APCKey25.py:159-203 | No two physical pads share a logical code. |
| Pads.RemapImage | device_APCKey25.py:159-203 | A code is the image of a physical pad if and only if it is in 0..7, 12..19, 24..31, 36..43 or 48..55. |
| Pads.RemapMisses | device_APCKey25.py:159-203 | No pad maps onto 8..11, 20..23 or 32..35, so the map is not onto 0..39. |
| Pads.RemapKeepsButtons | device_APCKey25.py:271-274 | For every code 56 and above (the buttons, including shift 98), the remap yields that code exactly when the input is that code. |
| Leds.Encode | device_APCKey25.py:486-487 | The packing `status + (data1 << 8) + (data2 << 16)` used at 436, 452 and 487. Three byte-sized fields pack into a value below 2^24. |
| Leds.DecodeEncode | device_APCKey25.py:486-487 | Packing `status + (data1 << 8) + (data2 << 16)` is exact on bytes: all three read back. |
| Leds.LedOnMsgs | device_APCKey25.py:431-438 | `ledOn` sends at most one message, and one exactly when the pad is in 0..40. |
| Leds.LedOffMsgs | device_APCKey25.py:440-445 | `ledOff` sends one message exactly when the pad is in 0..40, 82..87 or 64..72, all inclusive. Otherwise it sends nothing. |
| Leds.LedPulseMsgs | device_APCKey25.py:447-454 | `ledPulse` sends one message exactly when the pad is in 0..40. |
| Leds.SetLedMonoMsgs | device_APCKey25.py:456-462 | `setLedMono` sends one message exactly when the note is a single-colour button (64..71 or 82..86). |
| Leds.LedOnWire | device_APCKey25.py:431-438 | On the wire, `ledOn` sends status byte 144 + brightness, the pad as data 1 and the colour as data 2. |
| Leds.LedPulseWire | device_APCKey25.py:447-454 | On the wire, `ledPulse` sends status byte 150 + speed, the pad and the colour. |
| Leds.LedOffWire | device_APCKey25.py:440-445 | On the wire, `ledOff` sends note-on 144 with the pad and velocity 0. |
| Leds.OffRunStep | device_APCKey25.py:472-484 | One more `ledOff(i)` on an accepted pad extends the kill run by that pad's off message. |
| Leds.KillAllLightsOrder | device_APCKey25.py:467-484 | `killAllLights` sends exactly 53 messages: off for 82..86, then for 0..39, then for 64..71, in that order. |
| Leds.OffRunLeds | device_APCKey25.py:472-484 | A kill loop over `range(lo, hi)` leaves exactly those pads off and every other lamp as it was. |
| Leds.KillAllLightsLeds | device_APCKey25.py:467-484 | After `killAllLights` every pad it walks is off, whatever it showed before, and no other lamp has changed. |
| Leds.BeatMsgs | device_APCKey25.py:417-429 | The beat indicator reacts to edges only. Going from 0 to nonzero sends `ledOn(7, 50, 6)`. Going from nonzero to 0 sends `ledOff(7)`. Anything else sends nothing. |
| Leds.BeatKeepsIndicator | device_APCKey25.py:417-429 | Suppose pad 7 is lit at colour 50, brightness 6, exactly when the previous beat value is nonzero. Then that still holds after every update. |
| Leds.BeatRepeatSendsNothing | device_APCKey25.py:417-429 | Repeating a beat value sends nothing. |
| Leds.LedControl.constructor | device_APCKey25.py:407-415 | The driver starts with `PrevBeat == 0`. |
| Leds.LedControl.OnUpdateBeatIndicator | device_APCKey25.py:417-429 | Sends `BeatMsgs(old PrevBeat, value)`, then records the value, including on a change from one nonzero value to another. |
| Leds.LedControl.LedOn | device_APCKey25.py:431-438 | Sends exactly `LedOnMsgs`; issues no transport call. |
| Leds.LedControl.LedOff | device_APCKey25.py:440-445 | Sends exactly `LedOffMsgs`. |
| Leds.LedControl.LedPulse | device_APCKey25.py:447-454 | Sends exactly `LedPulseMsgs`. |
| Leds.LedControl.SetLedMono | device_APCKey25.py:456-462 | Sends exactly `SetLedMonoMsgs`: colour 2 when blinking, 1 when solid. |
| Leds.LedControl.SetLedOff | device_APCKey25.py:464-465 | Always sends the off message, with no range check. |
| Leds.LedControl.KillAllLights | device_APCKey25.py:467-470 | Sends the right-side, grid and under-grid runs in that order. |
| Leds.LedControl.KillRightSideLights | device_APCKey25.py:472-474 | Its loop sends the off run for 82..86. |
| Leds.LedControl.KillUnderLights | device_APCKey25.py:476-479 | Its loop sends the off run for 64..71. |
| Leds.LedControl.KillGridLights | device_APCKey25.py:481-484 | Its loop sends the off run for 0..39. |
| Leds.LedControl.SendMidiCommand | device_APCKey25.py:486-487 | Sends one note-on message for the note and the colour code. |
| Actions.TargetMode | device_APCKey25.py:42-47 | Each mode setter targets a mode in 0..5. |
| Actions.Perform | device_APCKey25.py:324-404 | No action touches the shift latch. A mode setter sets its mode and issues no transport call. Any other action keeps the mode and sends at most one message. The traces only grow. |
| Actions.ChangeModeOrder | device_APCKey25.py:349-355 | `changeMode(m, note)` sends exactly the 53 kill messages in order. For a single-colour button it then sends `144 + (note << 8) + (1 << 16)`, and for any other note nothing more. |
| Actions.ChangeModeLeds | device_APCKey25.py:349-355 | After `changeMode` every killed pad is off except the triggering single-colour button, which is solid. No other lamp changes. |
| Actions.ChangeModeIdempotent | device_APCKey25.py:349-355 | Repeating the same mode change gives the same mode and the same lamps. |
| Actions.UserModeNoRelight | device_APCKey25.py:345-355 | Entering User mode with its button 81 sends only the kill messages and leaves 81's lamp as it was. |
| Actions.Globals.constructor | device_APCKey25.py:49-52 | The script starts in User mode with shift released. |
| Actions.ChangeMode | device_APCKey25.py:349-355 | Sets the mode and sends exactly `ChangeModeMsgs(note)`. |
| Actions.SetTransportModeAction | device_APCKey25.py:325-327 | Sets mode 1 (Transport) through `changeMode`. |
| Actions.SetMixerModeAction | device_APCKey25.py:329-331 | Sets mode 2 (Mixer) through `changeMode`. |
| Actions.SetBrowserModeAction | device_APCKey25.py:333-335 | Sets mode 3 (Browser) through `changeMode`. |
| Actions.SetPatternModeAction | device_APCKey25.py:337-339 | Sets mode 4 (Pattern) through `changeMode`. |
| Actions.SetPlayListModeAction | device_APCKey25.py:341-343 | Sets mode 5 (Playlist) through `changeMode`. |
| Actions.SetUserModeAction | device_APCKey25.py:345-347 | Sets mode 0 (User) through `changeMode`. |
| Actions.ReleaseFastForwardAction | device_APCKey25.py:359-364 | In Transport mode it calls `fastForward(0)` and turns the button off. In any other mode it does nothing. |
| Actions.ReleaseRewindAction | device_APCKey25.py:365-370 | In Transport mode it calls `rewind(0)` and turns the button off. In any other mode it does nothing. |
| Actions.TogglePlayAction | device_APCKey25.py:374-381 | Starts when stopped, stops when playing. |
| Actions.ToggleRecordAction | device_APCKey25.py:382-385 | Calls `record` only when not playing. |
| Actions.ToggleLoopModeAction | device_APCKey25.py:389-392 | Calls `setLoopMode` only when not playing. |
| Actions.PressFastForwardAction | device_APCKey25.py:394-398 | Calls `fastForward(2)` and lights the button solid. |
| Actions.PressRewindAction | device_APCKey25.py:400-404 | Calls `rewind(2)` and lights the button solid. |
| Dispatch.NoteDict | device_APCKey25.py:241-255 | Every code has a non-empty action list. A code outside the table gets the single `notHandled` entry. |
| Dispatch.CallAction | device_APCKey25.py:257-260 | Running an operation appends it to the log of operations run. |
| Dispatch.Step | device_APCKey25.py:294-321 | One pass of the loop body. It follows the if/elif chain branch by branch. <br>- NoteOff of 98 clears the shift latch and NoteOn of 98 sets it; no other code moves the latch. <br>- At most one operation runs, and it is appended to the log. <br>- `handled` ends false only with the model unchanged. Starting from true, that takes a NoteOn in User mode on a code other than 98. <br>- A message that is neither NoteOn nor NoteOff changes nothing, except on the unmapped-code branch. |
| Dispatch.Run | device_APCKey25.py:293-321 | The `for` loop over the action list. Each entry runs on the state the previous one left, so a later entry sees a mode that an earlier ShiftAction has just set. The log grows by at most one operation per entry. For any code but 98 the shift latch ends as it started. |
| Dispatch.Handle | device_APCKey25.py:263-321 | An event off channel 0, or with `pmeFlags` zero, changes neither mode, shift, traces nor `handled`. |
| Dispatch.FilterOnly | device_APCKey25.py:291 | Only the filter's verdict matters. Every event on channel 0 with any nonzero `pmeFlags` is handled as channel 0 with flags 1, the instance the per-button lemmas below use. |
| Dispatch.RunKeepsGuards | device_APCKey25.py:296-321 | Every loop pass keeps the guard invariant, for a code other than shift: the latch never moves, and the mode moves only with shift held. Each operation run so far passed its family's guard against the state before the event. |
| Dispatch.HandleGuards | device_APCKey25.py:299-319 | Each operation one event runs passed its family's guard against the state before the event: <br>- ShiftAction: NoteOn with shift on. <br>- GlobalAction: NoteOn with shift off. <br>- TransportAction: NoteOn with shift off in Transport mode. <br>- MixerAction: NoteOn with shift off in Mixer mode. <br>- ReleaseAction: NoteOff with shift off. |
| Dispatch.PlaylistButtonNeverBoth | device_APCKey25.py:250 | One event on code 86 never runs both `setPlayListMode` and `toggleLoopMode`. |
| Dispatch.UnmappedConsumed | device_APCKey25.py:296-297 | Take a code with no table entry, other than shift, outside User mode. It sets `handled` and changes nothing else. |
| Dispatch.RunUnhandledInUserMode | device_APCKey25.py:320-321 | In User mode, a loop over entries whose guards all fail on NoteOn ends with `handled == False` and nothing else changed. |
| Dispatch.UserModeLeavesUnhandled | device_APCKey25.py:300-321 | In User mode, a NoteOn for a non-shift code whose entries' guards all fail is left unhandled. Nothing runs and nothing is sent. |
| Dispatch.UserModePadUnhandled | device_APCKey25.py:271-321 | In User mode, a grid pad press is left unhandled, for the host to play as a note. |
| Dispatch.ShiftLatch | device_APCKey25.py:299-310 | In every mode, NoteOn of 98 sets shift to 1 and NoteOff clears it. The event is consumed and nothing else changes. |
| Dispatch.PlayButton | device_APCKey25.py:374-381 | Code 91 without shift starts or stops playback by `isPlaying()`. With shift held it does nothing. |
| Dispatch.RecordButton | device_APCKey25.py:382-385 | Code 93 without shift records only while stopped. With shift held it does nothing. |
| Dispatch.ModeButtons | device_APCKey25.py:324-355 | With shift held, codes 81..86 set modes 0..5, send exactly `ChangeModeMsgs(code)` and issue no transport call. |
| Dispatch.LoopButton | device_APCKey25.py:389-392 | Code 86 without shift in Transport mode toggles loop mode only while stopped and keeps the mode. |
| Dispatch.SeekPress | device_APCKey25.py:394-404 | Pressing 66 or 67 in Transport mode without shift calls `rewind(2)` or `fastForward(2)`. It sends that code's solid message and keeps Transport mode with shift released. |
| Dispatch.SeekRelease | device_APCKey25.py:358-370 | Releasing 66 or 67 without shift calls `rewind(0)` or `fastForward(0)` and sends the off message, but only in Transport mode. |
| Dispatch.RewindPressRelease | device_APCKey25.py:252 | Pressing then releasing 66 in Transport mode gives `rewind(2)`, `rewind(0)`, a solid message, then an off message. The lamp ends off. |
| Handler.MidiInHandler.constructor | device_APCKey25.py:141-143 | The handler starts with a fresh, valid knob tracker, every knob at 1. |
| Handler.MidiInHandler.OnMidiIn | device_APCKey25.py:208-210 | Only knobs 48..55 are adjusted, so knob 47 never changes. Other codes change neither the knobs nor `data2`. |
| Handler.MidiInHandler.CallAction | device_APCKey25.py:257-260 | The match on the operation has the effect on globals and host that `Dispatch.CallAction` gives. |
| Handler.MidiInHandler.HandleEntry | device_APCKey25.py:293-321 | One loop pass changes the state as `Dispatch.Step` says. |
| Handler.MidiInHandler.OnMidiMsg | device_APCKey25.py:263-321 | After the call, `data1` holds the remapped code, and the mode, shift, traces, invoked log and `handled` are as `Dispatch.Handle` gives. |
| Live.PadAt | device_APCKey25.py:494-500 | Every cell of rows 1..5 holds a pad in 0..39. |
| Live.PadAtClosedForm | device_APCKey25.py:494-500 | Row `idx`, column `c` holds pad `8(5 - idx) + c`. |
| Live.PosCoversGrid | device_APCKey25.py:494-500 | Rows 1..5 of `pos` and pads 0..39 are in one-to-one correspondence. |
| Live.CellMsgs | device_APCKey25.py:545-553 | Each grid cell sends exactly one message. |
| Live.Repaint | device_APCKey25.py:542-553 | One refresh sends 40 messages. |
| Live.RepaintStep | device_APCKey25.py:542-553 | The visits go row by row, then column by column. Each adds that cell's message to the prefix. |
| Live.RepaintPrefixLeds | device_APCKey25.py:542-553 | After the first `n` visits, every pad visited shows its block, and all other lamps are unchanged. |
| Live.RepaintLeds | device_APCKey25.py:542-553 | After a refresh, pad `p` in 0..39 shows its block. Status 0 gives off, status 7 gives brightness 6, and any other status gives brightness 1, all in colour 30. Lamps outside the grid are unchanged. |
| Live.RepaintIdempotent | device_APCKey25.py:542-553 | Refreshing twice with the same status shows the same as refreshing once. |
| Live.PerformanceMode.constructor | device_APCKey25.py:490-503 | Building the performance mode repaints the grid at once. |
| Live.PerformanceMode.OnUpdateLiveMode | device_APCKey25.py:542-553 | Its nested loop sends exactly `Repaint(status)` and issues no transport call. |
| Script.Session.constructor | device_APCKey25.py:560-563 | After load: User mode, shift released, knobs at 1 and the beat indicator state at 0. The only messages sent are the grid repaint. |
| Script.Session.OnInit | device_APCKey25.py:84-88 | `OnInit` enters Transport mode as if 82 were pressed with shift, sending `ChangeModeMsgs(82)`. |
| Script.Session.OnDeInit | device_APCKey25.py:603-604 | `OnDeInit` sends exactly the kill messages. |
| Script.Session.OnMidiIn | device_APCKey25.py:594-595 | Delegates to the knob branch of `MidiInHandler.OnMidiIn`. |
| Script.Session.OnMidiMsg | device_APCKey25.py:591-592 | Ends as `Dispatch.Handle` says. |
| Script.Session.OnUpdateBeatIndicator | device_APCKey25.py:568-569 | Sends `BeatMsgs` and records the value. |
| Script.Session.OnUpdateLiveMode | device_APCKey25.py:565-566 | Sends exactly one `Repaint(status)`. |

## Left out

- Printing: `info`, `debug` and `msg`, and every diagnostic line in `OnMidiIn`, `OnMidiMsg` and `OnUpdateLiveMode`. They have no effect.
- `DeviceHandler`: it only pretty-prints the host's device ID.
- The pattern and track queries of `OnUpdateLiveMode` and its `firstRun` flag. They only feed diagnostics.
- The internals of the host modules. `device.midiOutMsg` and the `transport` calls are recorded in `Host`. `transport.isPlaying()` is a `bool` argument, and `playlist.getLiveBlockStatus` is a function argument.
  - The source compares `isPlaying()` with 0 and 1. The model assumes it returns one of those two values. It also assumes the value does not change during one event.
- The reflective `callAction`, which looks methods up by name with `getattr`. It is replaced by the operation datatype `Op` and a `match`.
- The unused hooks `OnChannelPressure`, `OnControlChange`, `OnSysEx`, `OnNoteOn`, `OnNoteOff`, `OnIdle` and `OnMidiOutMsg`.
- Unused fields and constants: `playing`, `colorCode`, `ledOffCode`, `mapPadFunction`, `inPerformanceMode`, `APCKeyVersion` and the colour names.
- The relative order of outbound messages and transport calls. Each trace keeps its own order, but how the two interleave is not recorded.
- The actions build a fresh `LedControl` on each call; the model uses the one driver. Those methods never read or write `PrevBeat`, so nothing observable differs.
- `midi.PME_System` is a host constant. It is taken to be nonzero, as the filter only ever tests it against zero.
- The MixerAction family has no entry in the note table and no class in the source. Its guard is modelled, but no operation belongs to it.
- Knobs.KnobHandler.Adjust: requires a known knob for ticks 1 and 127. The source raises `KeyError` for an unknown one, and `OnMidiIn` only ever passes 48..55.
- The message encoding is not reduced to a machine word, because Python's integers are unbounded. `DecodeEncode` states the round trip only for byte-sized fields.
