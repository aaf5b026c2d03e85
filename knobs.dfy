/** The knob tracker (`KnobHandler`): the controller's knobs send relative
    ticks, 1 for one step down and 127 for one step up; the tracker keeps an
    absolute value per knob, clamped to 1..128, and rewrites the event's
    `data2` to that value. */
module Knobs {
  import opened HostApi

  /** `range(47, 56)`: the knobs the tracker knows. */
  const FirstKnob := 47
  const KnobsEnd := 56

  /** The two tick values and the clamp bounds. */
  const Down := 1
  const Up := 127
  const MinValue := 1
  const MaxValue := 128

  predicate IsKnob(k: int) { FirstKnob <= k < KnobsEnd }

  /** The value a knob holds after one tick: a step down or up that stops
      at the bounds; any other tick value leaves it as it is. */
  function Adjusted(v: int, tick: int): (r: int)
    ensures MinValue <= v <= MaxValue ==> MinValue <= r <= MaxValue
    ensures tick != Down && tick != Up ==> r == v
    ensures tick == Down ==> r <= v && (v > MinValue ==> r == v - 1)
    ensures tick == Up ==> r >= v && (v < MaxValue ==> r == v + 1)
    ensures (tick == Down && v <= MinValue) || (tick == Up && v >= MaxValue) ==> r == v
  {
    if tick == Down then
      if v > MinValue then v - 1 else v
    else if tick == Up then
      if v < MaxValue then v + 1 else v
    else v
  }

  /** The value after a run of ticks, one `adjust` call per tick. */
  function AfterTicks(v: int, ticks: seq<int>): int
    decreases |ticks|
  {
    if ticks == [] then v else AfterTicks(Adjusted(v, ticks[0]), ticks[1..])
  }

  /** `n` copies of the same tick. */
  function Repeat(tick: int, n: nat): (r: seq<int>)
    ensures |r| == n && forall i :: 0 <= i < n ==> r[i] == tick
  {
    if n == 0 then [] else [tick] + Repeat(tick, n - 1)
  }

  /** Whatever the ticks, the value never leaves 1..128. */
  lemma {:induction false} TicksStayInRange(v: int, ticks: seq<int>)
    requires MinValue <= v <= MaxValue
    ensures MinValue <= AfterTicks(v, ticks) <= MaxValue
    decreases |ticks|
  {
    if ticks != [] {
      TicksStayInRange(Adjusted(v, ticks[0]), ticks[1..]);
    }
  }

  /** Turning up saturates at 128: there is no wrap-around to the bottom. */
  lemma {:induction false} UpTicksSaturate(v: int, n: nat)
    requires MinValue <= v <= MaxValue
    ensures AfterTicks(v, Repeat(Up, n)) == if v + n < MaxValue then v + n else MaxValue
    decreases n
  {
    if n > 0 {
      assert Repeat(Up, n)[0] == Up && Repeat(Up, n)[1..] == Repeat(Up, n - 1);
      UpTicksSaturate(Adjusted(v, Up), n - 1);
    }
  }

  /** Turning down saturates at 1. */
  lemma {:induction false} DownTicksSaturate(v: int, n: nat)
    requires MinValue <= v <= MaxValue
    ensures AfterTicks(v, Repeat(Down, n)) == if v - n > MinValue then v - n else MinValue
    decreases n
  {
    if n > 0 {
      assert Repeat(Down, n)[0] == Down && Repeat(Down, n)[1..] == Repeat(Down, n - 1);
      DownTicksSaturate(Adjusted(v, Down), n - 1);
    }
  }

  /** Ticks other than 1 and 127 never move a knob, however many there are. */
  lemma {:induction false} OtherTicksIgnored(v: int, ticks: seq<int>)
    requires forall i :: 0 <= i < |ticks| ==> ticks[i] != Down && ticks[i] != Up
    ensures AfterTicks(v, ticks) == v
    decreases |ticks|
  {
    if ticks != [] {
      OtherTicksIgnored(v, ticks[1..]);
    }
  }

  class KnobHandler {
    var knobs: map<int, int>

    /** The tracked knobs are exactly 47..55 and every value is in 1..128. */
    ghost predicate Valid()
      reads this
    {
      (forall k :: k in knobs <==> IsKnob(k)) &&
      forall k :: k in knobs ==> MinValue <= knobs[k] <= MaxValue
    }

    constructor ()
      ensures Valid() && forall k :: k in knobs ==> knobs[k] == MinValue
    {
      knobs := map[];
      new;
      var a := FirstKnob;
      while a < KnobsEnd
        invariant FirstKnob <= a <= KnobsEnd
        invariant forall k :: k in knobs <==> FirstKnob <= k < a
        invariant forall k :: k in knobs ==> knobs[k] == MinValue
      {
        knobs := knobs[a := MinValue];
        a := a + 1;
      }
    }

    /** `adjust(event)`: a tick of 1 or 127 on knob `data1` moves the stored
        value and writes it into `data2`; other ticks change nothing. The
        lookup of an unknown knob raises in the source, which is what the
        second precondition excludes. */
    method Adjust(event: MidiEvent)
      requires Valid()
      requires event.data1 in knobs || (event.data2 != Down && event.data2 != Up)
      modifies this, event`data2
      ensures Valid()
      ensures old(event.data2) == Down || old(event.data2) == Up ==>
                knobs == old(knobs)[event.data1 := Adjusted(old(knobs)[event.data1], old(event.data2))] &&
                event.data2 == knobs[event.data1]
      ensures old(event.data2) != Down && old(event.data2) != Up ==>
                knobs == old(knobs) && event.data2 == old(event.data2)
    {
      var knob := event.data1;
      var state := event.data2;
      if state == Down {
        if knobs[knob] > MinValue {
          knobs := knobs[knob := knobs[knob] - 1];
        }
        event.data2 := knobs[knob];
      }
      if state == Up {
        if knobs[knob] < MaxValue {
          knobs := knobs[knob := knobs[knob] + 1];
        }
        event.data2 := knobs[knob];
      }
    }
  }
}
