/** The LED driver (`LedControl`): how LED commands are encoded as outbound
    MIDI messages, which pads each command accepts, the edge-triggered beat
    indicator, and what the controller's lamps show after a run of messages. */
module Leds {
  import opened HostApi

  /** `midi.MIDI_NOTEON`, also `LedControl.ledOnCode`. */
  const NoteOnCode := 144
  /** `LedControl.pulseChannel`: pulsing messages start six above note-on. */
  const PulseChannel := NoteOnCode + 6
  /** The pad that `OnUpdateBeatIndicator` blinks, and how it lights it. */
  const BeatPad := 7
  const BeatColor := 50
  const BeatBrightness := 6

  /** `status + (data1 << 8) + (data2 << 16)`; on Python's unbounded
      integers a left shift is a multiplication, for negative operands too. */
  function Encode(status: int, data1: int, data2: int): (r: int)
    ensures 0 <= status < 256 && 0 <= data1 < 256 && 0 <= data2 < 256 ==> 0 <= r < 0x100_0000
  {
    status + data1 * 256 + data2 * 65536
  }

  /** The three bytes the controller reads out of a packed message. */
  function StatusOf(m: int): int { m % 256 }
  function Data1Of(m: int): int { (m / 256) % 256 }
  function Data2Of(m: int): int { (m / 65536) % 256 }

  /** The packing is exact on bytes: the controller reads back the status,
      the pad and the colour that were packed. */
  lemma DecodeEncode(status: int, data1: int, data2: int)
    requires 0 <= status < 256 && 0 <= data1 < 256 && 0 <= data2 < 256
    ensures StatusOf(Encode(status, data1, data2)) == status
    ensures Data1Of(Encode(status, data1, data2)) == data1
    ensures Data2Of(Encode(status, data1, data2)) == data2
  {
    var m := Encode(status, data1, data2);
    var q := data1 + data2 * 256;
    assert m == status + 256 * q;
    assert m / 256 == q && m % 256 == status;
    assert q / 256 == data2 && q % 256 == data1;
    assert m / 65536 == q / 256;
  }

  /** The pad range `ledOn` and `ledPulse` accept (inclusive of 40). */
  predicate InGrid(pad: int) { 0 <= pad <= 40 }

  /** The ranges `ledOff` accepts; all three are inclusive at both ends. */
  predicate InOffZone(pad: int) { InGrid(pad) || 82 <= pad <= 87 || 64 <= pad <= 72 }

  /** The single-colour buttons `setLedMono` accepts: under the grid and to
      its right. */
  predicate IsMonoButton(note: int) { 64 <= note <= 71 || 82 <= note <= 86 }

  /** `sendMidiCommand(note, colorCode)`. */
  function Command(note: int, colorCode: int): int
  {
    Encode(NoteOnCode, note, colorCode)
  }

  /** The messages `ledOn(pad, color, brightness)` sends. */
  function LedOnMsgs(pad: int, color: int, brightness: int): (r: seq<int>)
    ensures |r| <= 1 && (r != [] <==> InGrid(pad))
  {
    if InGrid(pad) then [Encode(NoteOnCode + brightness, pad, color)] else []
  }

  /** The messages `ledOff(pad)` sends. */
  function LedOffMsgs(pad: int): (r: seq<int>)
    ensures |r| <= 1 && (r != [] <==> InOffZone(pad))
  {
    if InOffZone(pad) then [Command(pad, 0)] else []
  }

  /** The messages `ledPulse(pad, color, speed)` sends. */
  function LedPulseMsgs(pad: int, color: int, speed: int): (r: seq<int>)
    ensures |r| <= 1 && (r != [] <==> InGrid(pad))
  {
    if InGrid(pad) then [Encode(PulseChannel + speed, pad, color)] else []
  }

  /** The messages `setLedMono(note, blink)` sends: colour code 2 blinks,
      1 is solid. */
  function SetLedMonoMsgs(note: int, blink: bool): (r: seq<int>)
    ensures |r| <= 1 && (r != [] <==> IsMonoButton(note))
  {
    if IsMonoButton(note) then [Command(note, if blink then 2 else 1)] else []
  }

  /** What `ledOn` puts on the wire, byte by byte: a note-on whose channel
      is the brightness, the pad as first data byte, the colour as second. */
  lemma LedOnWire(pad: int, color: int, brightness: int)
    requires InGrid(pad) && 0 <= color < 256 && 0 <= brightness <= 6
    ensures |LedOnMsgs(pad, color, brightness)| == 1
    ensures StatusOf(LedOnMsgs(pad, color, brightness)[0]) == NoteOnCode + brightness
    ensures Data1Of(LedOnMsgs(pad, color, brightness)[0]) == pad
    ensures Data2Of(LedOnMsgs(pad, color, brightness)[0]) == color
  {
    DecodeEncode(NoteOnCode + brightness, pad, color);
  }

  /** What `ledPulse` puts on the wire: note-on channels 6..15 carry the
      pulse speed. */
  lemma LedPulseWire(pad: int, color: int, speed: int)
    requires InGrid(pad) && 0 <= color < 256 && 0 <= speed <= 9
    ensures |LedPulseMsgs(pad, color, speed)| == 1
    ensures StatusOf(LedPulseMsgs(pad, color, speed)[0]) == NoteOnCode + 6 + speed
    ensures Data1Of(LedPulseMsgs(pad, color, speed)[0]) == pad
    ensures Data2Of(LedPulseMsgs(pad, color, speed)[0]) == color
  {
    DecodeEncode(PulseChannel + speed, pad, color);
  }

  /** What `ledOff` puts on the wire: a note-on of velocity zero for the pad. */
  lemma LedOffWire(pad: int)
    requires InOffZone(pad)
    ensures |LedOffMsgs(pad)| == 1
    ensures StatusOf(LedOffMsgs(pad)[0]) == NoteOnCode
    ensures Data1Of(LedOffMsgs(pad)[0]) == pad
    ensures Data2Of(LedOffMsgs(pad)[0]) == 0
  {
    DecodeEncode(NoteOnCode, pad, 0);
  }

  /** One off message per pad `i` in `range(lo, hi)`, in increasing order:
      what a loop of `ledOff(i)` sends when every pad passes the range check. */
  function OffRun(lo: int, hi: int): (r: seq<int>)
    requires lo <= hi
  {
    seq(hi - lo, k => Command(lo + k, 0))
  }

  /** Extending a loop of `ledOff` calls by one pad of an accepted zone. */
  lemma OffRunStep(lo: int, i: int)
    requires lo <= i && InOffZone(i)
    ensures OffRun(lo, i + 1) == OffRun(lo, i) + LedOffMsgs(i)
  {
    assert OffRun(lo, i + 1) == OffRun(lo, i) + [Command(i, 0)];
  }

  /** `killRightSideLights`, `killGridLights`, `killUnderLights`, in the
      order `killAllLights` calls them. */
  function KillAllLightsMsgs(): seq<int>
  {
    OffRun(RightLo, RightHi) + OffRun(GridLo, GridHi) + OffRun(UnderLo, UnderHi)
  }

  /** The `range` bounds of `killRightSideLights`, `killGridLights` and
      `killUnderLights`. */
  const RightLo := 82
  const RightHi := 87
  const GridLo := 0
  const GridHi := 40
  const UnderLo := 64
  const UnderHi := 72

  /** The `i`-th pad `killAllLights` turns off: 82..86, then 0..39, then
      64..71. */
  function KillOrder(i: int): int
  {
    if i < 5 then RightLo + i else if i < 45 then i - 5 else UnderLo + (i - 45)
  }

  /** `killAllLights` sends exactly 53 off messages, in that order. */
  lemma KillAllLightsOrder()
    ensures |KillAllLightsMsgs()| == 53
    ensures forall i :: 0 <= i < 53 ==> KillAllLightsMsgs()[i] == Command(KillOrder(i), 0)
  {
    var right, grid, under := OffRun(RightLo, RightHi), OffRun(GridLo, GridHi), OffRun(UnderLo, UnderHi);
    var all := right + grid + under;
    assert all == KillAllLightsMsgs();
    forall i | 0 <= i < 53 ensures all[i] == Command(KillOrder(i), 0) {
      if i < 5 {
        assert all[i] == right[i];
      } else if i < 45 {
        assert all[i] == grid[i - 5];
      } else {
        assert all[i] == under[i - 45];
      }
    }
  }

  /** The pads `killAllLights` walks. */
  predicate Killed(p: int) { 82 <= p < 87 || 0 <= p < 40 || 64 <= p < 72 }

  /** The messages `OnUpdateBeatIndicator(value)` sends when the previous
      beat value was `prev`: a rising edge lights the indicator, a falling
      edge turns it off, anything else sends nothing. */
  function BeatMsgs(prev: int, value: int): (r: seq<int>)
    ensures prev == 0 && value != 0 ==> r == LedOnMsgs(BeatPad, BeatColor, BeatBrightness)
    ensures prev != 0 && value == 0 ==> r == LedOffMsgs(BeatPad)
    ensures (prev == 0) == (value == 0) ==> r == []
  {
    if prev == 0 then
      if prev != value then LedOnMsgs(BeatPad, BeatColor, BeatBrightness) else []
    else
      if prev != value && value == 0 then LedOffMsgs(BeatPad) else []
  }

  // ---------------------------------------------------------------------
  // What the lamps show. A note-on message sets the lamp of pad `data1` to
  // its status (which carries brightness or pulse speed) and its velocity
  // (the colour; zero is off).

  datatype Lamp = Lamp(status: int, velocity: int)

  function LampOf(m: int): Lamp { Lamp(StatusOf(m), Data2Of(m)) }

  predicate Lit(l: Lamp) { l.velocity != 0 }

  const OffLamp := Lamp(NoteOnCode, 0)

  /** The lamps after the controller has received `ms`, starting from `leds`. */
  function LedsAfter(leds: map<int, Lamp>, ms: seq<int>): map<int, Lamp>
    decreases |ms|
  {
    if ms == [] then leds else LedsAfter(leds[Data1Of(ms[0]) := LampOf(ms[0])], ms[1..])
  }

  /** Pad `p` shows the same in `a` and `b`. */
  predicate SameAt(a: map<int, Lamp>, b: map<int, Lamp>, p: int)
  {
    (p in a <==> p in b) && (p in a ==> a[p] == b[p])
  }

  lemma {:induction false} LedsAfterAppend(leds: map<int, Lamp>, a: seq<int>, b: seq<int>)
    ensures LedsAfter(leds, a + b) == LedsAfter(LedsAfter(leds, a), b)
    decreases |a|
  {
    if a != [] {
      assert (a + b)[0] == a[0] && (a + b)[1..] == a[1..] + b;
      LedsAfterAppend(leds[Data1Of(a[0]) := LampOf(a[0])], a[1..], b);
    } else {
      assert a + b == b;
    }
  }

  /** One message sets one lamp. */
  lemma LedsAfterOne(leds: map<int, Lamp>, m: int)
    ensures LedsAfter(leds, [m]) == leds[Data1Of(m) := LampOf(m)]
  {
    assert [m][1..] == [];
  }

  /** Receiving `ms` overlays what `ms` writes on whatever was shown before. */
  lemma {:induction false} LedsAfterOverlay(leds: map<int, Lamp>, ms: seq<int>)
    ensures LedsAfter(leds, ms) == leds + LedsAfter(map[], ms)
    decreases |ms|
  {
    if ms != [] {
      var p, l := Data1Of(ms[0]), LampOf(ms[0]);
      LedsAfterOverlay(leds[p := l], ms[1..]);
      LedsAfterOverlay(map[p := l], ms[1..]);
      var w := LedsAfter(map[], ms[1..]);
      assert leds[p := l] + w == leds + (map[p := l] + w);
    }
  }

  /** Sending the same messages twice leaves the lamps as sending them once. */
  lemma LedsAfterIdempotent(leds: map<int, Lamp>, ms: seq<int>)
    ensures LedsAfter(LedsAfter(leds, ms), ms) == LedsAfter(leds, ms)
  {
    var w := LedsAfter(map[], ms);
    LedsAfterOverlay(leds, ms);
    LedsAfterOverlay(leds + w, ms);
    assert (leds + w) + w == leds + w;
  }

  /** One more pad of the run sets just that pad's lamp to off. */
  lemma OffRunLast(leds: map<int, Lamp>, lo: int, hi: int)
    requires 0 <= lo < hi <= 256
    ensures LedsAfter(leds, OffRun(lo, hi)) == LedsAfter(leds, OffRun(lo, hi - 1))[hi - 1 := OffLamp]
  {
    assert OffRun(lo, hi) == OffRun(lo, hi - 1) + [Command(hi - 1, 0)];
    LedsAfterAppend(leds, OffRun(lo, hi - 1), [Command(hi - 1, 0)]);
    LedsAfterOne(LedsAfter(leds, OffRun(lo, hi - 1)), Command(hi - 1, 0));
    DecodeEncode(NoteOnCode, hi - 1, 0);
  }

  /** The pads of `[lo, hi)` are off in `a` and every other pad shows what
      it shows in `leds`. */
  ghost predicate OffExactly(a: map<int, Lamp>, leds: map<int, Lamp>, lo: int, hi: int)
  {
    (forall p :: lo <= p < hi ==> p in a && a[p] == OffLamp) &&
    (forall p :: !(lo <= p < hi) ==> SameAt(a, leds, p))
  }

  lemma OffExactlyStep(a: map<int, Lamp>, leds: map<int, Lamp>, lo: int, hi: int)
    requires lo < hi && OffExactly(a, leds, lo, hi - 1)
    ensures OffExactly(a[hi - 1 := OffLamp], leds, lo, hi)
  {
    var after := a[hi - 1 := OffLamp];
    forall p | !(lo <= p < hi) ensures SameAt(after, leds, p) {
      assert p != hi - 1 && SameAt(a, leds, p);
    }
  }

  /** The off messages for `range(lo, hi)` turn off exactly those pads and
      leave every other lamp alone. */
  lemma {:induction false} OffRunLeds(leds: map<int, Lamp>, lo: int, hi: int)
    requires 0 <= lo <= hi <= 256
    ensures forall p :: lo <= p < hi ==> p in LedsAfter(leds, OffRun(lo, hi)) && LedsAfter(leds, OffRun(lo, hi))[p] == OffLamp
    ensures forall p :: !(lo <= p < hi) ==> SameAt(LedsAfter(leds, OffRun(lo, hi)), leds, p)
    decreases hi - lo
  {
    if lo < hi {
      OffRunLeds(leds, lo, hi - 1);
      OffRunLast(leds, lo, hi);
      OffExactlyStep(LedsAfter(leds, OffRun(lo, hi - 1)), leds, lo, hi);
    } else {
      assert OffRun(lo, hi) == [];
    }
  }

  /** After `killAllLights` every pad it walks is off, whatever the lamps
      showed before, and no other lamp has changed. */
  lemma KillAllLightsLeds(leds: map<int, Lamp>)
    ensures forall p :: Killed(p) ==> p in LedsAfter(leds, KillAllLightsMsgs()) && LedsAfter(leds, KillAllLightsMsgs())[p] == OffLamp
    ensures forall p :: !Killed(p) ==> SameAt(LedsAfter(leds, KillAllLightsMsgs()), leds, p)
  {
    var right, grid, under := OffRun(RightLo, RightHi), OffRun(GridLo, GridHi), OffRun(UnderLo, UnderHi);
    var a := LedsAfter(leds, right);
    var b := LedsAfter(a, grid);
    OffRunLeds(leds, RightLo, RightHi);
    OffRunLeds(a, GridLo, GridHi);
    OffRunLeds(b, UnderLo, UnderHi);
    LedsAfterAppend(leds, right, grid);
    LedsAfterAppend(leds, right + grid, under);
    var c := LedsAfter(b, under);
    assert LedsAfter(leds, KillAllLightsMsgs()) == c;
    forall p | Killed(p) ensures p in c && c[p] == OffLamp {
      if !(UnderLo <= p < UnderHi) {
        assert SameAt(c, b, p);
        if !(GridLo <= p < GridHi) {
          assert SameAt(b, a, p);
        }
      }
    }
    forall p | !Killed(p) ensures SameAt(c, leds, p) {
      assert SameAt(a, leds, p) && SameAt(b, a, p) && SameAt(c, b, p);
    }
  }

  /** What the beat indicator shows for a previous beat value: lit at the
      beat colour and full brightness exactly while that value is nonzero. */
  predicate IndicatorShows(leds: map<int, Lamp>, prev: int)
  {
    BeatPad in leds &&
    if prev != 0 then leds[BeatPad] == Lamp(NoteOnCode + BeatBrightness, BeatColor)
    else !Lit(leds[BeatPad])
  }

  /** Every beat update keeps the indicator in step with `PrevBeat`. */
  lemma BeatKeepsIndicator(leds: map<int, Lamp>, prev: int, value: int)
    requires IndicatorShows(leds, prev)
    ensures IndicatorShows(LedsAfter(leds, BeatMsgs(prev, value)), value)
  {
    if prev == 0 && value != 0 {
      LedOnWire(BeatPad, BeatColor, BeatBrightness);
    } else if prev != 0 && value == 0 {
      LedOffWire(BeatPad);
    }
  }

  /** A repeated beat value sends nothing the second time. */
  lemma BeatRepeatSendsNothing(prev: int, value: int)
    ensures BeatMsgs(value, value) == []
    ensures BeatMsgs(prev, value) + BeatMsgs(value, value) == BeatMsgs(prev, value)
  {
  }

  /** `LedControl`: the LED commands of the script, sent through the host. */
  class LedControl {
    const host: Host
    var prevBeat: int

    constructor (host: Host)
      ensures this.host == host && prevBeat == 0
    {
      this.host := host;
      prevBeat := 0;
    }

    /** `OnUpdateBeatIndicator(value)`. */
    method OnUpdateBeatIndicator(value: int)
      modifies this, host
      ensures prevBeat == value
      ensures host.out == old(host.out) + BeatMsgs(old(prevBeat), value)
      ensures host.calls == old(host.calls)
    {
      if prevBeat == 0 {
        if prevBeat != value {
          LedOn(BeatPad, BeatColor, BeatBrightness);
          prevBeat := value;
        }
      } else {
        if prevBeat != value {
          if value == 0 {
            LedOff(BeatPad);
          }
          prevBeat := value;
        }
      }
    }

    method LedOn(pad: int, color: int, brightness: int)
      modifies host
      ensures host.out == old(host.out) + LedOnMsgs(pad, color, brightness)
      ensures host.calls == old(host.calls)
    {
      if 0 <= pad <= 40 {
        host.MidiOutMsg(Encode(NoteOnCode + brightness, pad, color));
      }
    }

    method LedOff(pad: int)
      modifies host
      ensures host.out == old(host.out) + LedOffMsgs(pad)
      ensures host.calls == old(host.calls)
    {
      if (0 <= pad <= 40) || (82 <= pad <= 87) || (64 <= pad <= 72) {
        SendMidiCommand(pad, 0);
      }
    }

    method LedPulse(pad: int, color: int, speed: int)
      modifies host
      ensures host.out == old(host.out) + LedPulseMsgs(pad, color, speed)
      ensures host.calls == old(host.calls)
    {
      if 0 <= pad <= 40 {
        host.MidiOutMsg(Encode(PulseChannel + speed, pad, color));
      }
    }

    method SetLedMono(note: int, blink: bool)
      modifies host
      ensures host.out == old(host.out) + SetLedMonoMsgs(note, blink)
      ensures host.calls == old(host.calls)
    {
      if (64 <= note <= 71) || (82 <= note <= 86) {
        var colorCode := if blink then 2 else 1;
        SendMidiCommand(note, colorCode);
      }
    }

    /** `setLedOff(note)`: no range check, always sends. */
    method SetLedOff(note: int)
      modifies host
      ensures host.out == old(host.out) + [Command(note, 0)]
      ensures host.calls == old(host.calls)
    {
      SendMidiCommand(note, 0);
    }

    method KillAllLights()
      modifies host
      ensures host.out == old(host.out) + KillAllLightsMsgs()
      ensures host.calls == old(host.calls)
    {
      KillRightSideLights();
      KillGridLights();
      KillUnderLights();
    }

    method KillRightSideLights()
      modifies host
      ensures host.out == old(host.out) + OffRun(RightLo, RightHi)
      ensures host.calls == old(host.calls)
    {
      for i := RightLo to RightHi
        invariant host.out == old(host.out) + OffRun(RightLo, i)
        invariant host.calls == old(host.calls)
      {
        LedOff(i);
        OffRunStep(RightLo, i);
      }
    }

    method KillUnderLights()
      modifies host
      ensures host.out == old(host.out) + OffRun(UnderLo, UnderHi)
      ensures host.calls == old(host.calls)
    {
      for i := UnderLo to UnderHi
        invariant host.out == old(host.out) + OffRun(UnderLo, i)
        invariant host.calls == old(host.calls)
      {
        LedOff(i);
        OffRunStep(UnderLo, i);
      }
    }

    method KillGridLights()
      modifies host
      ensures host.out == old(host.out) + OffRun(GridLo, GridHi)
      ensures host.calls == old(host.calls)
    {
      for i := GridLo to GridHi
        invariant host.out == old(host.out) + OffRun(GridLo, i)
        invariant host.calls == old(host.calls)
      {
        LedOff(i);
        OffRunStep(GridLo, i);
      }
    }

    method SendMidiCommand(note: int, colorCode: int)
      modifies host
      ensures host.out == old(host.out) + [Command(note, colorCode)]
      ensures host.calls == old(host.calls)
    {
      host.MidiOutMsg(Command(note, colorCode));
    }
  }
}
