/** The text-mode terminal of kernel.c: an 80x25 grid of 16-bit cells and two
    cursor counters, the linear cell index `VGA_INDEX` and the row `Y_INDEX`.

    The functions on `Screen` are the specification; the class `Terminal` holds
    the cell array and the counters and its methods are proved to compute them. */
module Vga {
  import opened CTypes

  const WIDTH: nat := 80
  const HEIGHT: nat := 25
  const SIZE: nat := 2000
  const WHITE_COLOR: bv16 := 15

  /** A cell: the character in the low byte, the colour attribute in the high byte. */
  type Cell = bv16

  function VgaEntry(ch: Char8): (cell: Cell)
    ensures cell & 0xFF == ch as bv16
    ensures cell >> 8 == WHITE_COLOR
  {
    (ch as bv16) | (WHITE_COLOR << 8)
  }

  const BLANK: Cell := VgaEntry(' ')

  /** The abstract terminal: the cells in row-major order, `index` (VGA_INDEX) and `row` (Y_INDEX). */
  datatype Screen = Screen(cells: seq<Cell>, index: nat, row: nat)

  /** The bound every operation keeps: the cursor row is on the grid and the
      cell index is before the end of the cursor row, so every write is in bounds. */
  predicate Inv(s: Screen) {
    |s.cells| == SIZE && s.row < HEIGHT && s.index < (s.row + 1) * WIDTH
  }

  /** The cursor lies on its own row. `PutChar` keeps this, `Erase` at column 0 breaks it. */
  predicate Aligned(s: Screen) {
    s.row * WIDTH <= s.index
  }

  function Blanks(n: nat): (r: seq<Cell>)
    ensures |r| == n
    ensures forall k :: 0 <= k < n ==> r[k] == BLANK
  {
    seq(n, _ => BLANK)
  }

  /** Row `y` of a grid. */
  function Row(cells: seq<Cell>, y: nat): seq<Cell>
    requires |cells| == SIZE && y < HEIGHT
  {
    cells[y * WIDTH..(y + 1) * WIDTH]
  }

  /** The screen after `clearScreen`. */
  function Cleared(): Screen {
    Screen(Blanks(SIZE), 0, 0)
  }

  /** The grid moved up by one row: row 0 is lost, the last row is blank. */
  function ShiftUp(cells: seq<Cell>): seq<Cell>
    requires |cells| == SIZE
  {
    cells[WIDTH..] + Blanks(WIDTH)
  }

  /** `scrollIfNeeded`: scroll once if the row has left the grid, then put the index at column 0 of the row. */
  function Scroll(s: Screen): (r: Screen)
    requires |s.cells| == SIZE
    ensures |r.cells| == SIZE && r.row < HEIGHT && r.index == r.row * WIDTH
    ensures s.row < HEIGHT ==> r.cells == s.cells && r.row == s.row
  {
    if s.row >= HEIGHT then Screen(ShiftUp(s.cells), (HEIGHT - 1) * WIDTH, HEIGHT - 1)
    else s.(index := s.row * WIDTH)
  }

  /** `printChar`. */
  function PutChar(s: Screen, c: Char8): (r: Screen)
    requires Inv(s)
    ensures Inv(r)
  {
    if c == '\n' then
      Scroll(s.(row := s.row + 1))
    else
      var written := s.(cells := s.cells[s.index := VgaEntry(c)], index := s.index + 1);
      if written.index % WIDTH == 0 then Scroll(written.(row := s.row + 1)) else written
  }

  /** `printString`: `printChar` on every character in turn. */
  function PutString(s: Screen, t: seq<Char8>): (r: Screen)
    requires Inv(s)
    ensures Inv(r)
    decreases |t|
  {
    if t == [] then s else PutString(PutChar(s, t[0]), t[1..])
  }

  /** The text `printLine` writes: the line and a newline. */
  function Ln(t: seq<Char8>): (r: seq<Char8>)
    ensures |r| == |t| + 1 && r[..|t|] == t && r[|t|] == '\n'
  {
    t + "\n"
  }

  lemma LnAfter(p: seq<Char8>, t: seq<Char8>)
    ensures p + Ln(t) == Ln(p + t)
  {
  }

  /** `backspace`. */
  function Erase(s: Screen): (r: Screen)
    requires Inv(s)
    ensures Inv(r)
  {
    if s.index > 0 then Screen(s.cells[s.index - 1 := BLANK], s.index - 1, s.row) else s
  }

  // ---------------------------------------------------------------------------
  // Properties of the specification

  /** After a clear every cell is blank and the cursor is at the origin. */
  lemma ClearedIsBlank()
    ensures Inv(Cleared()) && Aligned(Cleared())
    ensures Cleared().index == 0 && Cleared().row == 0
    ensures forall k :: 0 <= k < SIZE ==> Cleared().cells[k] == VgaEntry(' ')
    ensures VgaEntry(' ') == 0x0F20
  {
  }

  lemma ShiftUpAt(cells: seq<Cell>, k: nat)
    requires |cells| == SIZE && k < SIZE
    ensures |ShiftUp(cells)| == SIZE
    ensures ShiftUp(cells)[k] == if k < (HEIGHT - 1) * WIDTH then cells[k + WIDTH] else BLANK
  {
  }

  /** The exact shift of a scroll: new row y-1 is old row y, the last row is blank. */
  lemma ShiftUpRows(cells: seq<Cell>)
    requires |cells| == SIZE
    ensures |ShiftUp(cells)| == SIZE
    ensures forall y :: 1 <= y < HEIGHT ==> Row(ShiftUp(cells), y - 1) == Row(cells, y)
    ensures Row(ShiftUp(cells), HEIGHT - 1) == Blanks(WIDTH)
  {
    var shifted := ShiftUp(cells);
    forall y | 1 <= y < HEIGHT
      ensures Row(shifted, y - 1) == Row(cells, y)
    {
      forall x | 0 <= x < WIDTH
        ensures Row(shifted, y - 1)[x] == Row(cells, y)[x]
      {
        ShiftUpAt(cells, (y - 1) * WIDTH + x);
      }
    }
    var last := Row(shifted, HEIGHT - 1);
    forall x | 0 <= x < WIDTH
      ensures last[x] == BLANK
    {
      ShiftUpAt(cells, (HEIGHT - 1) * WIDTH + x);
    }
  }

  /** Scrolling leaves the index at column 0 of the row; it moves cells only when the row has left the grid. */
  lemma ScrollPins(s: Screen)
    requires |s.cells| == SIZE && s.row <= HEIGHT
    ensures Scroll(s).row < HEIGHT && Scroll(s).index == Scroll(s).row * WIDTH
    ensures s.row < HEIGHT ==> Scroll(s).cells == s.cells && Scroll(s).row == s.row
    ensures s.row == HEIGHT ==> Scroll(s).row == HEIGHT - 1 && Scroll(s).cells == ShiftUp(s.cells)
  {
  }

  /** A newline writes no cell: it moves to column 0 of the next row, scrolling once on the last row. */
  lemma NewlineMovesDown(s: Screen)
    requires Inv(s)
    ensures var r := PutChar(s, '\n');
      r.index == r.row * WIDTH &&
      (s.row + 1 < HEIGHT ==> r.row == s.row + 1 && r.cells == s.cells) &&
      (s.row + 1 == HEIGHT ==> r.row == HEIGHT - 1 && r.cells == ShiftUp(s.cells))
  {
  }

  /** Any other character is written to exactly cell `index`; the index advances, and on
      reaching a multiple of the width the cursor goes to the start of the next row. */
  lemma PrintableWritesOneCell(s: Screen, c: Char8)
    requires Inv(s) && c != '\n'
    ensures var written := s.cells[s.index := VgaEntry(c)];
      var r := PutChar(s, c);
      ((s.index + 1) % WIDTH != 0 ==> r == Screen(written, s.index + 1, s.row)) &&
      ((s.index + 1) % WIDTH == 0 && s.row + 1 < HEIGHT ==> r == Screen(written, (s.row + 1) * WIDTH, s.row + 1)) &&
      ((s.index + 1) % WIDTH == 0 && s.row + 1 == HEIGHT ==> r == Screen(ShiftUp(written), (HEIGHT - 1) * WIDTH, HEIGHT - 1))
  {
  }

  /** On an aligned cursor a character advances the column within the row, or wraps to the next row. */
  lemma PutCharKeepsAligned(s: Screen, c: Char8)
    requires Inv(s) && Aligned(s)
    ensures Aligned(PutChar(s, c))
    ensures c != '\n' && s.index % WIDTH < WIDTH - 1 ==>
      PutChar(s, c).row == s.row && PutChar(s, c).index % WIDTH == s.index % WIDTH + 1
  {
  }

  /** `backspace` at index 0 does nothing; otherwise it blanks exactly the cell before the
      index and steps back, linearly, keeping the row (so it may leave the cursor row). */
  lemma EraseOneCell(s: Screen)
    requires Inv(s)
    ensures s.index == 0 ==> Erase(s) == s
    ensures s.index > 0 ==>
      Erase(s).index == s.index - 1 && Erase(s).row == s.row &&
      Erase(s).cells[s.index - 1] == BLANK &&
      forall k :: 0 <= k < SIZE && k != s.index - 1 ==> Erase(s).cells[k] == s.cells[k]
  {
  }

  /** `backspace` undoes a character that did not end a row, leaving its cell blank. */
  lemma EraseUndoesPutChar(s: Screen, c: Char8)
    requires Inv(s) && c != '\n' && (s.index + 1) % WIDTH != 0
    ensures Erase(PutChar(s, c)) == Screen(s.cells[s.index := BLANK], s.index, s.row)
  {
  }

  /** A quirk of the linear backspace: erasing at column 0 of a row and typing again writes
      the last cell of the previous row and then moves the cursor to the row after the cursor row. */
  lemma EraseAtColumnZeroThenPut(s: Screen, c: Char8)
    requires Inv(s) && s.row > 0 && s.index == s.row * WIDTH && c != '\n' && s.row + 1 < HEIGHT
    ensures var r := PutChar(Erase(s), c);
      r.cells == s.cells[s.index - 1 := VgaEntry(c)] && r.row == s.row + 1 && r.index == (s.row + 1) * WIDTH
  {
    assert s.index % WIDTH == 0;
  }

  lemma PutStringCons(s: Screen, t: seq<Char8>)
    requires Inv(s) && t != []
    ensures PutString(s, t) == PutString(PutChar(s, t[0]), t[1..])
  {
  }

  /** Printing a concatenation is printing one part after the other. */
  lemma {:induction false} PutStringAppend(s: Screen, a: seq<Char8>, b: seq<Char8>)
    requires Inv(s)
    ensures PutString(s, a + b) == PutString(PutString(s, a), b)
    decreases |a|
  {
    if a != [] {
      assert (a + b)[0] == a[0] && (a + b)[1..] == a[1..] + b;
      PutStringAppend(PutChar(s, a[0]), a[1..], b);
    } else {
      assert a + b == b;
    }
  }

  lemma PutCharInRow(s: Screen, c: Char8)
    requires Inv(s) && Aligned(s) && c != '\n' && s.index % WIDTH + 1 < WIDTH
    ensures PutChar(s, c) == Screen(s.cells[s.index := VgaEntry(c)], s.index + 1, s.row)
    ensures Aligned(PutChar(s, c)) && PutChar(s, c).index % WIDTH == s.index % WIDTH + 1
  {
  }

  /** Text without newlines that fits in the rest of the cursor row is written to
      consecutive cells from the index; no other cell changes. */
  lemma {:induction false} PutStringInRow(s: Screen, t: seq<Char8>)
    requires Inv(s) && Aligned(s)
    requires forall k :: 0 <= k < |t| ==> t[k] != '\n'
    requires s.index % WIDTH + |t| < WIDTH
    ensures PutString(s, t).row == s.row && PutString(s, t).index == s.index + |t|
    ensures forall k :: 0 <= k < |t| ==> PutString(s, t).cells[s.index + k] == VgaEntry(t[k])
    ensures forall k :: 0 <= k < SIZE && !(s.index <= k < s.index + |t|) ==>
      PutString(s, t).cells[k] == s.cells[k]
    decreases |t|
  {
    if t != [] {
      var s1 := PutChar(s, t[0]);
      PutCharInRow(s, t[0]);
      PutStringInRow(s1, t[1..]);
      var r := PutString(s, t);
      assert r == PutString(s1, t[1..]);
      forall k | 0 <= k < |t|
        ensures r.cells[s.index + k] == VgaEntry(t[k])
      {
        if k > 0 {
          assert s.index + k == s1.index + (k - 1);
          assert t[k] == t[1..][k - 1];
        } else {
          assert r.cells[s.index] == s1.cells[s.index];
        }
      }
      forall k | 0 <= k < SIZE && !(s.index <= k < s.index + |t|)
        ensures r.cells[k] == s.cells[k]
      {
        assert r.cells[k] == s1.cells[k];
      }
    }
  }

  // ---------------------------------------------------------------------------
  // The terminal as kernel.c keeps it: the cell buffer and the two cursor globals.

  class Terminal {
    /** TERMINAL_BUFFER */
    const cells: array<Cell>
    /** VGA_INDEX */
    var index: nat
    /** Y_INDEX */
    var row: nat

    ghost function State(): Screen
      reads this, cells
    {
      Screen(cells[..], index, row)
    }

    ghost predicate Valid()
      reads this, cells
    {
      cells.Length == SIZE && Inv(State())
    }

    /** The grid's contents before the first clear are whatever the memory holds. */
    constructor ()
      ensures Valid() && fresh(cells)
      ensures index == 0 && row == 0
    {
      cells := new Cell[SIZE];
      index, row := 0, 0;
    }

    /** One pass of the inner loop of `scrollIfNeeded`: row `y` is copied over row `y - 1`. */
    method MoveRowUp(y: nat)
      requires cells.Length == SIZE && 1 <= y < HEIGHT
      modifies cells
      ensures forall k :: 0 <= k < SIZE ==>
        cells[k] == if (y - 1) * WIDTH <= k < y * WIDTH then old(cells[k + WIDTH]) else old(cells[k])
    {
      var x := 0;
      while x < WIDTH
        invariant 0 <= x <= WIDTH
        invariant forall k :: 0 <= k < SIZE ==>
          cells[k] == if (y - 1) * WIDTH <= k < (y - 1) * WIDTH + x then old(cells[k + WIDTH]) else old(cells[k])
      {
        var dst := (y - 1) * WIDTH + x;
        assert y * WIDTH + x == dst + WIDTH;
        cells[dst] := cells[dst + WIDTH];
        x := x + 1;
      }
    }

    /** The last loop of `scrollIfNeeded`: the bottom row is blanked. */
    method BlankLastRow()
      requires cells.Length == SIZE
      modifies cells
      ensures forall k :: 0 <= k < SIZE ==>
        cells[k] == if (HEIGHT - 1) * WIDTH <= k then BLANK else old(cells[k])
    {
      var x := 0;
      while x < WIDTH
        invariant 0 <= x <= WIDTH
        invariant forall k :: 0 <= k < SIZE ==>
          cells[k] == if (HEIGHT - 1) * WIDTH <= k < (HEIGHT - 1) * WIDTH + x then BLANK else old(cells[k])
      {
        cells[(HEIGHT - 1) * WIDTH + x] := VgaEntry(' ');
        x := x + 1;
      }
    }

    method ScrollIfNeeded()
      requires cells.Length == SIZE
      modifies this, cells
      ensures State() == Scroll(old(State()))
    {
      if row >= HEIGHT {
        var y := 1;
        while y < HEIGHT
          invariant 1 <= y <= HEIGHT
          invariant forall k :: 0 <= k < (y - 1) * WIDTH ==> cells[k] == old(cells[k + WIDTH])
          invariant forall k :: (y - 1) * WIDTH <= k < SIZE ==> cells[k] == old(cells[k])
          modifies cells
        {
          MoveRowUp(y);
          y := y + 1;
        }
        BlankLastRow();
        row := HEIGHT - 1;
        forall k | 0 <= k < SIZE
          ensures cells[..][k] == ShiftUp(old(cells[..]))[k]
        {
          ShiftUpAt(old(cells[..]), k);
        }
      }
      index := row * WIDTH;
    }

    method ClearScreen()
      requires cells.Length == SIZE
      modifies this, cells
      ensures Valid() && State() == Cleared()
    {
      var i := 0;
      while i < SIZE
        invariant 0 <= i <= SIZE
        invariant forall k :: 0 <= k < i ==> cells[k] == BLANK
        modifies cells
      {
        cells[i] := VgaEntry(' ');
        i := i + 1;
      }
      index := 0;
      row := 0;
      assert cells[..] == Blanks(SIZE);
    }

    method PrintChar(c: Char8)
      requires Valid()
      modifies this, cells
      ensures Valid() && State() == PutChar(old(State()), c)
    {
      if c == '\n' {
        row := row + 1;
        ScrollIfNeeded();
        return;
      }
      cells[index] := VgaEntry(c);
      index := index + 1;
      if index % WIDTH == 0 {
        row := row + 1;
        ScrollIfNeeded();
      }
    }

    method PrintString(t: seq<Char8>)
      requires Valid()
      modifies this, cells
      ensures Valid() && State() == PutString(old(State()), t)
    {
      var i := 0;
      while i < |t|
        invariant 0 <= i <= |t|
        invariant Valid()
        invariant PutString(State(), t[i..]) == PutString(old(State()), t)
      {
        assert t[i..][1..] == t[i + 1..];
        PrintChar(t[i]);
        i := i + 1;
      }
    }

    method PrintLine(t: seq<Char8>)
      requires Valid()
      modifies this, cells
      ensures Valid() && State() == PutString(old(State()), Ln(t))
    {
      PrintString(t);
      PrintChar('\n');
      PutStringAppend(old(State()), t, ['\n']);
    }

    method Backspace()
      requires Valid()
      modifies this, cells
      ensures Valid() && State() == Erase(old(State()))
    {
      if index > 0 {
        index := index - 1;
        cells[index] := VgaEntry(' ');
      }
    }
  }
}
