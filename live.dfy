/** `PerformanceMode`: repaints the 5x8 grid from the playlist's live block
    status, one pad per block, top row first. The host's
    `playlist.getLiveBlockStatus(idx, blockNum, 0)` is the parameter
    `status`. */
module Live {
  import opened HostApi
  import opened Leds

  /** The colour of a live block and the brightness of a playing one and of
      any other active one. */
  const LiveColor := 30
  const PlayingStatus := 7
  const PlayingBrightness := 6
  const ActiveBrightness := 1

  /** `self.pos`: row `idx` (1 at the top, 5 at the bottom) and column
      `blockNum` to the pad number; row 0 is a placeholder. */
  const Pos: seq<seq<int>> := [
    [0],
    [32, 33, 34, 35, 36, 37, 38, 39],
    [24, 25, 26, 27, 28, 29, 30, 31],
    [16, 17, 18, 19, 20, 21, 22, 23],
    [8, 9, 10, 11, 12, 13, 14, 15],
    [0, 1, 2, 3, 4, 5, 6, 7]
  ]

  predicate IsCell(idx: int, blockNum: int) { 1 <= idx < 6 && 0 <= blockNum < 8 }

  /** The pad of a cell: the rows run from pads 32..39 at the top down to
      0..7 at the bottom. */
  function PadAt(idx: int, blockNum: int): (r: int)
    requires IsCell(idx, blockNum)
    ensures 0 <= r < 40
  {
    Pos[idx][blockNum]
  }

  lemma PadAtClosedForm(idx: int, blockNum: int)
    requires IsCell(idx, blockNum)
    ensures PadAt(idx, blockNum) == 8 * (5 - idx) + blockNum
  {
  }

  /** The cell showing grid pad `p`. */
  function RowOf(p: int): int { 5 - p / 8 }
  function ColOf(p: int): int { p % 8 }

  /** Every grid pad belongs to exactly one cell: the cells and pads 0..39
      are in one-to-one correspondence. */
  lemma PosCoversGrid(p: int, idx: int, blockNum: int)
    ensures 0 <= p < 40 ==> IsCell(RowOf(p), ColOf(p)) && PadAt(RowOf(p), ColOf(p)) == p
    ensures IsCell(idx, blockNum) ==> RowOf(PadAt(idx, blockNum)) == idx && ColOf(PadAt(idx, blockNum)) == blockNum
  {
    if 0 <= p < 40 {
      PadAtClosedForm(RowOf(p), ColOf(p));
    }
    if IsCell(idx, blockNum) {
      PadAtClosedForm(idx, blockNum);
    }
  }

  /** The messages for one block: off when inactive, bright when playing
      and dim otherwise, always in the live colour. */
  function CellMsgs(pad: int, active: int): (r: seq<int>)
    ensures InGrid(pad) ==> |r| == 1
  {
    if active != 0 then
      if active == PlayingStatus then LedOnMsgs(pad, LiveColor, PlayingBrightness)
      else LedOnMsgs(pad, LiveColor, ActiveBrightness)
    else LedOffMsgs(pad)
  }

  /** What a block makes its pad show. */
  function CellLamp(active: int): Lamp
  {
    if active == 0 then OffLamp
    else if active == PlayingStatus then Lamp(NoteOnCode + PlayingBrightness, LiveColor)
    else Lamp(NoteOnCode + ActiveBrightness, LiveColor)
  }

  /** The cell visited `k`-th by the two nested loops. */
  function IdxOf(k: int): int { 1 + k / 8 }
  function BlockOf(k: int): int { k % 8 }

  lemma CellIndex(idx: int, blockNum: int)
    requires IsCell(idx, blockNum)
    ensures IdxOf(8 * (idx - 1) + blockNum) == idx && BlockOf(8 * (idx - 1) + blockNum) == blockNum
  {
  }

  /** The single message the `k`-th visit sends. */
  function CellMsg(status: (int, int) -> int, k: int): int
    requires 0 <= k < 40
  {
    var idx, blockNum := IdxOf(k), BlockOf(k);
    CellMsgs(PadAt(idx, blockNum), status(idx, blockNum))[0]
  }

  /** What the first `n` visits send. */
  function RepaintPrefix(status: (int, int) -> int, n: int): (r: seq<int>)
    requires 0 <= n <= 40
    ensures |r| == n
  {
    seq(n, k requires 0 <= k < n => CellMsg(status, k))
  }

  /** Everything one repaint sends. */
  function Repaint(status: (int, int) -> int): (r: seq<int>)
    ensures |r| == 40
  {
    RepaintPrefix(status, 40)
  }

  lemma RepaintStep(status: (int, int) -> int, idx: int, blockNum: int)
    requires IsCell(idx, blockNum)
    ensures RepaintPrefix(status, 8 * (idx - 1) + blockNum + 1) ==
            RepaintPrefix(status, 8 * (idx - 1) + blockNum) + CellMsgs(PadAt(idx, blockNum), status(idx, blockNum))
  {
    var k := 8 * (idx - 1) + blockNum;
    CellIndex(idx, blockNum);
    assert RepaintPrefix(status, k + 1) == RepaintPrefix(status, k) + [CellMsg(status, k)];
  }

  lemma CellMsgLamp(status: (int, int) -> int, k: int)
    requires 0 <= k < 40
    ensures var p := PadAt(IdxOf(k), BlockOf(k));
            Data1Of(CellMsg(status, k)) == p && LampOf(CellMsg(status, k)) == CellLamp(status(IdxOf(k), BlockOf(k)))
  {
    var p := PadAt(IdxOf(k), BlockOf(k));
    var a := status(IdxOf(k), BlockOf(k));
    if a == 0 {
      DecodeEncode(NoteOnCode, p, 0);
    } else if a == PlayingStatus {
      DecodeEncode(NoteOnCode + PlayingBrightness, p, LiveColor);
    } else {
      DecodeEncode(NoteOnCode + ActiveBrightness, p, LiveColor);
    }
  }

  /** The pad the `k`-th visit paints, and the visit that paints pad `p`. */
  function PadOfVisit(k: int): (r: int)
    requires 0 <= k < 40
    ensures 0 <= r < 40
  {
    PadAt(IdxOf(k), BlockOf(k))
  }

  function VisitOf(p: int): int { 8 * (RowOf(p) - 1) + ColOf(p) }

  lemma VisitOfPad(k: int)
    requires 0 <= k < 40
    ensures VisitOf(PadOfVisit(k)) == k
  {
    PosCoversGrid(PadOfVisit(k), IdxOf(k), BlockOf(k));
  }

  lemma PadOfVisitOf(p: int)
    requires 0 <= p < 40
    ensures 0 <= VisitOf(p) < 40 && PadOfVisit(VisitOf(p)) == p
  {
    PosCoversGrid(p, 1, 0);
    CellIndex(RowOf(p), ColOf(p));
  }

  /** The `k`-th visit sets its pad's lamp to its block's status. */
  lemma RepaintPrefixStep(leds: map<int, Lamp>, status: (int, int) -> int, k: int)
    requires 0 <= k < 40
    ensures LedsAfter(leds, RepaintPrefix(status, k + 1)) ==
            LedsAfter(leds, RepaintPrefix(status, k))[PadOfVisit(k) := VisitLamp(status, k)]
  {
    assert RepaintPrefix(status, k + 1) == RepaintPrefix(status, k) + [CellMsg(status, k)];
    LedsAfterAppend(leds, RepaintPrefix(status, k), [CellMsg(status, k)]);
    LedsAfterOne(LedsAfter(leds, RepaintPrefix(status, k)), CellMsg(status, k));
    CellMsgLamp(status, k);
  }

  /** What a visit makes its pad show. */
  function VisitLamp(status: (int, int) -> int, k: int): Lamp
  {
    CellLamp(status(IdxOf(k), BlockOf(k)))
  }

  /** `L` shows the first `n` visits painted over `leds`: each pad visited
      shows its block, every other lamp is as in `leds`. */
  ghost predicate Painted(L: map<int, Lamp>, leds: map<int, Lamp>, status: (int, int) -> int, n: int)
    requires 0 <= n <= 40
  {
    VisitedShow(L, status, n) && OthersKept(L, leds, n)
  }

  ghost predicate VisitedShow(L: map<int, Lamp>, status: (int, int) -> int, n: int)
    requires 0 <= n <= 40
  {
    forall k :: 0 <= k < n ==> PadOfVisit(k) in L && L[PadOfVisit(k)] == VisitLamp(status, k)
  }

  /** Pad `p` is among the first `n` visited. */
  predicate Visited(p: int, n: int) { 0 <= p < 40 && VisitOf(p) < n }

  ghost predicate OthersKept(L: map<int, Lamp>, leds: map<int, Lamp>, n: int)
  {
    forall p :: !Visited(p, n) ==> SameAt(L, leds, p)
  }

  lemma VisitedShowStep(L: map<int, Lamp>, status: (int, int) -> int, k: int)
    requires 0 <= k < 40 && VisitedShow(L, status, k)
    ensures VisitedShow(L[PadOfVisit(k) := VisitLamp(status, k)], status, k + 1)
  {
    var after := L[PadOfVisit(k) := VisitLamp(status, k)];
    VisitOfPad(k);
    forall j | 0 <= j < k + 1
      ensures PadOfVisit(j) in after && after[PadOfVisit(j)] == VisitLamp(status, j)
    {
      VisitOfPad(j);
    }
  }

  lemma OthersKeptStep(L: map<int, Lamp>, leds: map<int, Lamp>, k: int, lamp: Lamp)
    requires 0 <= k < 40 && OthersKept(L, leds, k)
    ensures OthersKept(L[PadOfVisit(k) := lamp], leds, k + 1)
  {
    var q, n := PadOfVisit(k), k + 1;
    var after := L[q := lamp];
    VisitOfPad(k);
    forall p | !Visited(p, n)
      ensures SameAt(after, leds, p)
    {
      assert SameAt(L, leds, p) && p != q;
    }
  }

  lemma PaintedStep(L: map<int, Lamp>, leds: map<int, Lamp>, status: (int, int) -> int, k: int)
    requires 0 <= k < 40 && Painted(L, leds, status, k)
    ensures Painted(L[PadOfVisit(k) := VisitLamp(status, k)], leds, status, k + 1)
  {
    VisitedShowStep(L, status, k);
    OthersKeptStep(L, leds, k, VisitLamp(status, k));
  }

  /** After the first `n` visits, each pad visited shows its block and every
      other lamp is as before. */
  lemma {:induction false} RepaintPrefixLeds(leds: map<int, Lamp>, status: (int, int) -> int, n: int)
    requires 0 <= n <= 40
    ensures Painted(LedsAfter(leds, RepaintPrefix(status, n)), leds, status, n)
    decreases n
  {
    if n > 0 {
      RepaintPrefixLeds(leds, status, n - 1);
      RepaintPrefixStep(leds, status, n - 1);
      PaintedStep(LedsAfter(leds, RepaintPrefix(status, n - 1)), leds, status, n - 1);
    } else {
      assert RepaintPrefix(status, 0) == [];
    }
  }

  /** All forty visits painted: every grid pad shows the block of its cell. */
  lemma PaintedAll(L: map<int, Lamp>, leds: map<int, Lamp>, status: (int, int) -> int)
    requires Painted(L, leds, status, 40)
    ensures forall p :: 0 <= p < 40 ==> p in L && L[p] == CellLamp(status(RowOf(p), ColOf(p)))
    ensures forall p :: !(0 <= p < 40) ==> SameAt(L, leds, p)
  {
    forall p | 0 <= p < 40
      ensures p in L && L[p] == CellLamp(status(RowOf(p), ColOf(p)))
    {
      PadOfVisitOf(p);
      PosCoversGrid(p, 1, 0);
      CellIndex(RowOf(p), ColOf(p));
      assert PadOfVisit(VisitOf(p)) in L && L[PadOfVisit(VisitOf(p))] == VisitLamp(status, VisitOf(p));
    }
  }

  /** After a repaint every grid pad 0..39 shows its block's status,
      whatever the lamps showed before, and nothing outside the grid has
      changed. */
  lemma RepaintLeds(leds: map<int, Lamp>, status: (int, int) -> int)
    ensures forall p :: 0 <= p < 40 ==>
              p in LedsAfter(leds, Repaint(status)) &&
              LedsAfter(leds, Repaint(status))[p] == CellLamp(status(RowOf(p), ColOf(p)))
    ensures forall p :: !(0 <= p < 40) ==> SameAt(LedsAfter(leds, Repaint(status)), leds, p)
  {
    RepaintPrefixLeds(leds, status, 40);
    PaintedAll(LedsAfter(leds, Repaint(status)), leds, status);
  }

  /** A repaint with an unchanged status changes no lamp. */
  lemma RepaintIdempotent(leds: map<int, Lamp>, status: (int, int) -> int)
    ensures LedsAfter(LedsAfter(leds, Repaint(status)), Repaint(status)) == LedsAfter(leds, Repaint(status))
  {
    LedsAfterIdempotent(leds, Repaint(status));
  }

  class PerformanceMode {
    const led: LedControl

    /** Built at script load, it repaints the grid at once. */
    constructor (led: LedControl, status: (int, int) -> int)
      modifies led.host
      ensures this.led == led
      ensures led.host.out == old(led.host.out) + Repaint(status)
      ensures led.host.calls == old(led.host.calls)
    {
      this.led := led;
      new;
      OnUpdateLiveMode(0, status);
    }

    /** `OnUpdateLiveMode`: one message per cell, rows top to bottom,
        columns left to right. */
    method OnUpdateLiveMode(value: int, status: (int, int) -> int)
      modifies led.host
      ensures led.host.out == old(led.host.out) + Repaint(status)
      ensures led.host.calls == old(led.host.calls)
    {
      for idx := 1 to 6
        invariant led.host.out == old(led.host.out) + RepaintPrefix(status, 8 * (idx - 1))
        invariant led.host.calls == old(led.host.calls)
      {
        for blockNum := 0 to 8
          invariant led.host.out == old(led.host.out) + RepaintPrefix(status, 8 * (idx - 1) + blockNum)
          invariant led.host.calls == old(led.host.calls)
        {
          var active := status(idx, blockNum);
          if active != 0 {
            if active == PlayingStatus {
              led.LedOn(Pos[idx][blockNum], LiveColor, PlayingBrightness);
            } else {
              led.LedOn(Pos[idx][blockNum], LiveColor, ActiveBrightness);
            }
          } else {
            led.LedOff(Pos[idx][blockNum]);
          }
          RepaintStep(status, idx, blockNum);
        }
      }
    }
  }
}
