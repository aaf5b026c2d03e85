/** The pad remapper (`MidiInHandler.map`): the grid reports its pads bottom
    row first, 0..39; the script's logic expects them top row first, on a
    layout whose rows start every 12 codes. Codes outside the table, such as
    the buttons around the grid and the knobs, pass through unchanged. */
module Pads {

  /** `self.map`: physical pad code to logical pad code. */
  const PadTable: map<int, int> := map[
      0 := 48, 1 := 49, 2 := 50, 3 := 51, 4 := 52, 5 := 53, 6 := 54, 7 := 55,
      8 := 36, 9 := 37, 10 := 38, 11 := 39, 12 := 40, 13 := 41, 14 := 42, 15 := 43,
      16 := 24, 17 := 25, 18 := 26, 19 := 27, 20 := 28, 21 := 29, 22 := 30, 23 := 31,
      24 := 12, 25 := 13, 26 := 14, 27 := 15, 28 := 16, 29 := 17, 30 := 18, 31 := 19,
      32 := 0, 33 := 1, 34 := 2, 35 := 3, 36 := 4, 37 := 5, 38 := 6, 39 := 7
    ]

  /** `event.data1 = self.map[event.data1]`, with the `KeyError` fallback
      that leaves unknown codes as they are. */
  function Remap(code: int): (r: int)
    ensures code !in PadTable ==> r == code
  {
    if code in PadTable then PadTable[code] else code
  }

  /** The table covers exactly the 40 physical pads. */
  lemma PadTableKeys(code: int)
    ensures code in PadTable <==> 0 <= code < 40
  {
  }

  // One lemma per grid row keeps each lookup in the 40-entry table small.
  lemma RemapRow0(col: int)
    requires 0 <= col < 8
    ensures Remap(col) == 48 + col
  {
  }

  lemma RemapRow1(col: int)
    requires 0 <= col < 8
    ensures Remap(8 + col) == 36 + col
  {
  }

  lemma RemapRow2(col: int)
    requires 0 <= col < 8
    ensures Remap(16 + col) == 24 + col
  {
  }

  lemma RemapRow3(col: int)
    requires 0 <= col < 8
    ensures Remap(24 + col) == 12 + col
  {
  }

  lemma RemapRow4(col: int)
    requires 0 <= col < 8
    ensures Remap(32 + col) == col
  {
  }

  /** Row `row` (counted from the bottom) and column `col` of the grid go to
      logical row `4 - row`, whose codes start at `12 * (4 - row)`. */
  lemma RemapAt(row: int, col: int)
    requires 0 <= row < 5 && 0 <= col < 8
    ensures Remap(8 * row + col) == 48 - 12 * row + col
  {
    if row == 0 { RemapRow0(col); }
    else if row == 1 { RemapRow1(col); }
    else if row == 2 { RemapRow2(col); }
    else if row == 3 { RemapRow3(col); }
    else { RemapRow4(col); }
  }

  /** The logical codes the grid produces: five rows of eight, 12 apart. */
  predicate LogicalPad(y: int)
  {
    0 <= y < 8 || 12 <= y < 20 || 24 <= y < 32 || 36 <= y < 44 || 48 <= y < 56
  }

  /** No two physical pads share a logical code. */
  lemma RemapInjective(a: int, b: int)
    requires 0 <= a < 40 && 0 <= b < 40
    requires Remap(a) == Remap(b)
    ensures a == b
  {
    RemapAt(a / 8, a % 8);
    RemapAt(b / 8, b % 8);
  }

  /** The image of the 40 physical pads is exactly the logical layout. */
  lemma RemapImage(y: int)
    ensures (exists c :: 0 <= c < 40 && Remap(c) == y) <==> LogicalPad(y)
  {
    if LogicalPad(y) {
      var row := 4 - y / 12;
      RemapAt(row, y % 12);
      assert Remap(8 * row + y % 12) == y;
    }
    forall c | 0 <= c < 40 && Remap(c) == y ensures LogicalPad(y) {
      RemapAt(c / 8, c % 8);
    }
  }

  /** So the remap is not onto 0..39: codes 8..11, 20..23 and 32..35 come
      out of no input code at all. */
  lemma RemapMisses(c: int, y: int)
    requires 0 <= y < 40 && !LogicalPad(y)
    ensures Remap(c) != y
  {
    PadTableKeys(c);
    if 0 <= c < 40 {
      RemapImage(y);
    }
  }

  /** Codes 56 and up, the buttons among them, are never produced by a
      pad and so keep their meaning: `Remap(c) == y` only for `c == y`. */
  lemma RemapKeepsButtons(c: int, y: int)
    requires y >= 56
    ensures Remap(c) == y <==> c == y
  {
    PadTableKeys(c);
    PadTableKeys(y);
    if 0 <= c < 40 {
      RemapImage(Remap(c));
    }
  }
}
