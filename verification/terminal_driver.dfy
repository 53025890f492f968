/**
 * terminal.c: the VGA text-console driver.  The statics `cursor_x`,
 * `cursor_y` and `current_color` become fields, the memory-mapped VGA buffer
 * an array of 2000 cells, and `kb_buffer` the keyboard ring.  Moving the
 * hardware cursor through the CRT controller ports is not modelled.
 */
module TerminalDriver {
  import opened VgaText
  import Keyboard

  /** The colour set at start-up and by `terminal_init`: light grey on black. */
  const DefaultColor: bv8 := 0x07

  class Terminal {
    const vga: array<bv16>
    var cursorX: int
    var cursorY: int
    var currentColor: bv8
    const kb: Keyboard.Ring

    ghost predicate Valid()
      reads this, kb
    {
      vga.Length == CellCount && 0 <= cursorX < Width && 0 <= cursorY < Height && kb.Valid()
    }

    /** The console as a value. */
    function View(): Screen
      reads this, vga
    {
      Screen(cursorX, cursorY, currentColor, vga[..])
    }

    constructor (vga: array<bv16>, kb: Keyboard.Ring)
      requires vga.Length == CellCount && kb.Valid()
      ensures Valid() && this.vga == vga && this.kb == kb
      ensures cursorX == 0 && cursorY == 0 && currentColor == DefaultColor
    {
      this.vga, this.kb := vga, kb;
      cursorX, cursorY, currentColor := 0, 0, DefaultColor;
    }

    /** `terminal_init`: cursor home and default colour; the cells are left as they are. */
    method Init()
      requires Valid()
      modifies this`cursorX, this`cursorY, this`currentColor
      ensures Valid()
      ensures View() == old(View()).(x := 0, y := 0, color := DefaultColor)
    {
      cursorX, cursorY, currentColor := 0, 0, DefaultColor;
    }

    /** `terminal_set_color`: only the colour changes. */
    method SetColor(color: bv8)
      requires Valid()
      modifies this`currentColor
      ensures Valid()
      ensures View() == old(View()).(color := color)
    {
      currentColor := color;
    }

    /**
     * `terminal_scroll`: rows 1..24 move up, row 24 is blanked in the current
     * colour and the cursor goes to row 24, keeping its column.
     */
    method Scroll()
      requires vga.Length == CellCount
      modifies this`cursorY, vga
      ensures cursorY == Height - 1
      ensures vga[..] == Scrolled(old(vga[..]), currentColor)
    {
      var blank := Blank(currentColor);
      var i := 0;
      while i < (Height - 1) * Width
        invariant 0 <= i <= (Height - 1) * Width
        invariant forall k :: 0 <= k < i ==> vga[k] == old(vga[k + Width])
        invariant forall k :: i <= k < CellCount ==> vga[k] == old(vga[k])
      {
        vga[i] := vga[i + Width];
        i := i + 1;
      }
      i := (Height - 1) * Width;
      while i < Height * Width
        invariant (Height - 1) * Width <= i <= Height * Width
        invariant forall k :: 0 <= k < (Height - 1) * Width ==> vga[k] == old(vga[k + Width])
        invariant forall k :: (Height - 1) * Width <= k < i ==> vga[k] == blank
      {
        vga[i] := blank;
        i := i + 1;
      }
      cursorY := Height - 1;
      assert vga[..] == Scrolled(old(vga[..]), currentColor);
    }

    /** `terminal_clear`: every cell blank in the current colour, cursor home. */
    method Clear()
      requires Valid()
      modifies this`cursorX, this`cursorY, vga
      ensures Valid()
      ensures View() == VgaText.Clear(old(View()))
    {
      var blank := Blank(currentColor);
      var i := 0;
      while i < Width * Height
        invariant 0 <= i <= Width * Height
        invariant forall k :: 0 <= k < i ==> vga[k] == blank
      {
        vga[i] := blank;
        i := i + 1;
      }
      cursorX, cursorY := 0, 0;
      assert vga[..] == Cleared(currentColor);
    }

    /** `terminal_write_char`, against the Full dialect of `putchar`. */
    method WriteChar(c: Ascii)
      requires Valid()
      modifies this`cursorX, this`cursorY, vga
      ensures Valid()
      ensures View() == Put(old(View()), c, Full)
    {
      Advance(c);
      if cursorX >= Width {
        cursorX := 0;
        cursorY := cursorY + 1;
      }
      if cursorY >= Height {
        Scroll();
      }
    }

    /**
     * The first half of `terminal_write_char`, which depends on the
     * character; the cursor may be left one past the last column or the
     * last row.
     */
    method Advance(c: Ascii)
      requires Valid()
      modifies this`cursorX, this`cursorY, vga
      ensures 0 <= cursorX <= Width && 0 <= cursorY <= Height
      ensures View() == VgaText.Interpret(old(View()), c, Full)
    {
      if c == '\n' {
        cursorX := 0;
        cursorY := cursorY + 1;
      } else if c == '\r' {
        cursorX := 0;
      } else if c == '\t' {
        cursorX := (cursorX + 4) / 4 * 4;
      } else if c == BS {
        if cursorX > 0 {
          cursorX := cursorX - 1;
          vga[cursorY * Width + cursorX] := Blank(currentColor);
        }
      } else {
        vga[cursorY * Width + cursorX] := Cell(currentColor, c);
        cursorX := cursorX + 1;
      }
    }

    /** `terminal_write_string`: the characters of the C string whose text is `s`, in order, up to its NUL. */
    method WriteString(s: seq<Ascii>)
      requires Valid() && NUL !in s
      modifies this`cursorX, this`cursorY, vga
      ensures Valid()
      ensures View() == PutString(old(View()), s, Full)
    {
      var i := 0;
      while i < |s|
        invariant 0 <= i <= |s|
        invariant Valid()
        invariant View() == PutString(old(View()), s[..i], Full)
      {
        assert s[..i + 1][..i] == s[..i];
        WriteChar(s[i]);
        i := i + 1;
      }
      assert s[..i] == s;
    }

    /** `terminal_has_input`: true iff scancodes are pending in the ring. */
    function HasInput(): (b: bool)
      reads this, kb
      ensures b <==> kb.Pending() > 0
    {
      kb.writeIdx != kb.readIdx
    }

    /** `terminal_read_char`: takes the oldest pending scancode. */
    method ReadChar() returns (ch: Keyboard.Byte)
      requires Valid()
      modifies kb`readIdx
      ensures Valid()
      ensures ch == kb.buffer[old(kb.readIdx)]
      ensures kb.readIdx == (old(kb.readIdx) + 1) % Keyboard.RingSize
      ensures old(HasInput()) ==> ch == old(kb.Unread())[0] && kb.Unread() == old(kb.Unread())[1..]
    {
      ch := kb.Read();
    }
  }
}
