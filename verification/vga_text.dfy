/**
 * The VGA text console shared by the three C kernels: an 80x25 grid of
 * 16-bit cells (colour byte high, character byte low), a cursor and a colour.
 * The console state is modelled as a value; the drivers are classes over an
 * array whose methods are proved against the functions here.
 */
module VgaText {
  const Width: int := 80
  const Height: int := 25
  const CellCount: int := 2000

  /** A C `char` restricted to 7-bit ASCII, so that no sign extension reaches the colour byte. */
  type Ascii = c: char | c as int < 128


  const NUL: Ascii := 0 as char
  /** Backspace, 0x08. */
  const BS: Ascii := 8 as char

  /** A 7-bit character other than NUL: what a C string holds before its terminator. */
  type TextChar = c: Ascii | c != NUL witness ' '

  /** A string literal, once each of its characters is known to be 7-bit and not NUL. */
  function Lit(s: string): (t: seq<TextChar>)
    requires forall i :: 0 <= i < |s| ==> 0 < s[i] as int < 128
    ensures t == s
  {
    s
  }

  /**
   * Which control characters `putchar` interprets: terminal.c and kernel.c
   * handle newline, carriage return, tab and backspace; kernel_micropython.c
   * only newline and carriage return.
   */
  datatype Dialect = Full | LineOnly

  /** The cell `(color << 8) | c`. */
  function Cell(color: bv8, c: Ascii): (r: bv16)
    ensures r >> 8 == color as bv16
    ensures r & 0xFF == c as int as bv16
  {
    (color as bv16 << 8) | (c as int as bv16)
  }

  function Blank(color: bv8): bv16 {
    Cell(color, ' ')
  }

  /** Cursor column and row, current colour and the 2000 cells, row-major. */
  datatype Screen = Screen(x: int, y: int, color: bv8, cells: seq<bv16>)

  /** The cursor is on the grid and the buffer has its full size. */
  predicate Valid(s: Screen) {
    0 <= s.x < Width && 0 <= s.y < Height && |s.cells| == CellCount
  }

  /** Rows 1..24 moved up one row, last row blank in `color`. */
  function Scrolled(cells: seq<bv16>, color: bv8): (r: seq<bv16>)
    requires |cells| == CellCount
    ensures |r| == CellCount
    ensures forall i :: 0 <= i < CellCount - Width ==> r[i] == cells[i + Width]
    ensures forall i :: CellCount - Width <= i < CellCount ==> r[i] == Blank(color)
  {
    cells[Width..] + seq(Width, _ => Blank(color))
  }

  /** Every cell blank in `color`. */
  function Cleared(color: bv8): (r: seq<bv16>)
    ensures |r| == CellCount
    ensures forall i :: 0 <= i < CellCount ==> r[i] == Blank(color)
  {
    seq(CellCount, _ => Blank(color))
  }

  /**
   * Scrolling puts the cursor on the last row and keeps its column and colour;
   * rows 1..24 move up one row and the last row is blank.
   */
  function Scroll(s: Screen): (r: Screen)
    requires |s.cells| == CellCount
    ensures r.x == s.x && r.y == Height - 1 && r.color == s.color && |r.cells| == CellCount
    ensures r.cells[..CellCount - Width] == s.cells[Width..]
    ensures r.cells[CellCount - Width..] == seq(Width, _ => Blank(s.color))
  {
    s.(y := Height - 1, cells := Scrolled(s.cells, s.color))
  }

  /** Clearing blanks every cell in the current colour and homes the cursor. */
  function Clear(s: Screen): (r: Screen)
    ensures Valid(r) && r.x == 0 && r.y == 0 && r.color == s.color
    ensures forall i :: 0 <= i < CellCount ==> r.cells[i] == Blank(s.color)
  {
    Screen(0, 0, s.color, Cleared(s.color))
  }

  predicate IsControl(c: Ascii, d: Dialect) {
    c == '\n' || c == '\r' || (d == Full && (c == '\t' || c == BS))
  }

  /** Index of the cell under the cursor. */
  function At(s: Screen): int {
    s.y * Width + s.x
  }

  /**
   * The character-dependent half of `putchar`, before wrapping and scrolling:
   * a glyph is stored under the cursor, which advances; a control character
   * writes no cell, except backspace, which may blank the cell before the
   * cursor; only newline moves to the next row, and the cursor may end one
   * column or one row past the grid.
   */
  function Interpret(s: Screen, c: Ascii, d: Dialect): (r: Screen)
    requires Valid(s)
    ensures !IsControl(c, d) ==> r == s.(x := s.x + 1, cells := s.cells[At(s) := Cell(s.color, c)])
    ensures IsControl(c, d) ==>
      r.cells == s.cells || (c == BS && s.x > 0 && r.cells == s.cells[At(s) - 1 := Blank(s.color)])
    ensures r.color == s.color && |r.cells| == CellCount && 0 <= r.x <= Width
    ensures r.y == (if c == '\n' then s.y + 1 else s.y)
  {
    if c == '\n' then s.(x := 0, y := s.y + 1)
    else if c == '\r' then s.(x := 0)
    else if d == Full && c == '\t' then s.(x := (s.x + 4) / 4 * 4)
    else if d == Full && c == BS then
      (if s.x > 0 then s.(x := s.x - 1, cells := s.cells[At(s) - 1 := Blank(s.color)]) else s)
    else s.(x := s.x + 1, cells := s.cells[At(s) := Cell(s.color, c)])
  }

  /** `putchar`: interpret the character, wrap at column 80, scroll at row 25. */
  function Put(s: Screen, c: Ascii, d: Dialect): (r: Screen)
    requires Valid(s)
    ensures Valid(r) && r.color == s.color
  {
    var t := Interpret(s, c, d);
    var u := if t.x >= Width then t.(x := 0, y := t.y + 1) else t;
    if u.y >= Height then Scroll(u) else u
  }

  /** `kprint`/`print`: the characters of `str` put one after the other. */
  function PutString(s: Screen, str: seq<Ascii>, d: Dialect): (r: Screen)
    requires Valid(s)
    ensures Valid(r) && r.color == s.color
    decreases |str|
  {
    if str == [] then s else Put(PutString(s, str[..|str| - 1], d), str[|str| - 1], d)
  }

  lemma {:induction false} PutStringAppend(s: Screen, a: seq<Ascii>, b: seq<Ascii>, d: Dialect)
    requires Valid(s)
    ensures PutString(s, a + b, d) == PutString(PutString(s, a, d), b, d)
    decreases |b|
  {
    if b == [] {
      assert a + b == a;
    } else {
      assert (a + b)[..|a + b| - 1] == a + b[..|b| - 1];
      PutStringAppend(s, a, b[..|b| - 1], d);
    }
  }

  /**
   * A character that is not a control character of the dialect is stored at
   * the cursor in the current colour and the cursor advances; at column 79 it
   * wraps to the next row, and on the last row the screen scrolls.
   */
  lemma PutGlyph(s: Screen, c: Ascii, d: Dialect)
    requires Valid(s) && !IsControl(c, d)
    ensures var written := s.cells[At(s) := Cell(s.color, c)];
      Put(s, c, d) ==
        if s.x + 1 < Width then s.(x := s.x + 1, cells := written)
        else if s.y + 1 < Height then s.(x := 0, y := s.y + 1, cells := written)
        else s.(x := 0, y := Height - 1, cells := Scrolled(written, s.color))
  {
  }

  /** Newline: column 0 of the next row, scrolling on the last row; no cell is written. */
  lemma PutNewline(s: Screen, d: Dialect)
    requires Valid(s)
    ensures Put(s, '\n', d) ==
      if s.y + 1 < Height then s.(x := 0, y := s.y + 1)
      else s.(x := 0, y := Height - 1, cells := Scrolled(s.cells, s.color))
  {
  }

  /** Carriage return: column 0 of the same row; nothing else changes. */
  lemma PutCarriageReturn(s: Screen, d: Dialect)
    requires Valid(s)
    ensures Put(s, '\r', d) == s.(x := 0)
  {
  }

  /**
   * Tab (Full dialect): the cursor moves to the next multiple of 4 strictly
   * after it on the same row, or wraps to the next row from column 76 on;
   * no cell is written.
   */
  lemma PutTab(s: Screen)
    requires Valid(s)
    ensures var r := Put(s, '\t', Full);
      && (s.x < Width - 4 ==>
            r == s.(x := r.x) && r.x % 4 == 0 && s.x < r.x <= s.x + 4)
      && (s.x >= Width - 4 ==>
            r == Put(s, '\n', Full))
  {
  }

  /**
   * Backspace (Full dialect): with the cursor past column 0 it steps back and
   * blanks that cell in the current colour; at column 0 nothing changes, so
   * the cursor never moves to the previous row.
   */
  lemma PutBackspace(s: Screen)
    requires Valid(s)
    ensures s.x > 0 ==> Put(s, BS, Full) == s.(x := s.x - 1, cells := s.cells[At(s) - 1 := Blank(s.color)])
    ensures s.x == 0 ==> Put(s, BS, Full) == s
  {
  }

  /** The LineOnly dialect writes tab and backspace as glyphs. */
  lemma LineOnlyWritesTabAndBackspace(s: Screen, c: Ascii)
    requires Valid(s) && (c == '\t' || c == BS) && s.x + 1 < Width
    ensures Put(s, c, LineOnly) == s.(x := s.x + 1, cells := s.cells[At(s) := Cell(s.color, c)])
  {
  }

  /** A colour change shows in the high byte of every later glyph. */
  lemma GlyphCarriesColor(s: Screen, color: bv8, c: Ascii, d: Dialect)
    requires Valid(s) && !IsControl(c, d) && s.x + 1 < Width
    ensures Put(s.(color := color), c, d).cells[At(s)] >> 8 == color as bv16
  {
    var painted := s.(color := color);
    PutGlyph(painted, c, d);
    assert At(painted) == At(s);
    var glyph := Cell(color, c);
    assert Put(painted, c, d).cells[At(s)] == glyph;
  }
}
