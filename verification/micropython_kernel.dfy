/**
 * kernel_micropython.c: the console and keyboard primitives the MicroPython
 * kernel exposes to Python as the `scutoid` module.  Its `putchar` knows only
 * newline and carriage return (the LineOnly dialect); tab and backspace are
 * drawn as glyphs.  The start-up colour is light cyan on black.
 */
module MicroPythonKernel {
  import opened Wrappers
  import opened VgaText
  import opened KernelLib
  import Keyboard

  /** `(COLOR_BLACK << 4) | COLOR_LIGHT_CYAN`. */
  const StartColor: bv8 := 0x0B

  class Machine {
    const vga: array<bv16>
    var cursorX: int
    var cursorY: int
    var currentColor: bv8
    const kb: Keyboard.Ring

    ghost predicate Valid()
      reads this, kb
    {
      vga.Length == CellCount && 0 <= cursorX < Width && 0 <= cursorY < Height && kb.Valid()
    }

    /** The console as a value. */
    function View(): Screen
      reads this, vga
    {
      Screen(cursorX, cursorY, currentColor, vga[..])
    }

    constructor (vga: array<bv16>, kb: Keyboard.Ring)
      requires vga.Length == CellCount && kb.Valid()
      ensures Valid() && this.vga == vga && this.kb == kb
      ensures cursorX == 0 && cursorY == 0 && currentColor == StartColor
    {
      this.vga, this.kb := vga, kb;
      cursorX, cursorY, currentColor := 0, 0, StartColor;
    }

    /** `clear_screen`: every cell blank in the current colour, cursor home. */
    method ClearScreen()
      requires Valid()
      modifies this`cursorX, this`cursorY, vga
      ensures Valid()
      ensures View() == VgaText.Clear(old(View()))
    {
      var blank := Blank(currentColor);
      var i := 0;
      while i < Width * Height
        invariant 0 <= i <= Width * Height
        invariant forall k :: 0 <= k < i ==> vga[k] == blank
      {
        vga[i] := blank;
        i := i + 1;
      }
      cursorX, cursorY := 0, 0;
      assert vga[..] == Cleared(currentColor);
    }

    /** `scroll_screen`: rows 1..24 move up, row 24 is blanked and the cursor goes to row 24. */
    method ScrollScreen()
      requires vga.Length == CellCount
      modifies this`cursorY, vga
      ensures cursorY == Height - 1
      ensures vga[..] == Scrolled(old(vga[..]), currentColor)
    {
      var blank := Blank(currentColor);
      var i := 0;
      while i < (Height - 1) * Width
        invariant 0 <= i <= (Height - 1) * Width
        invariant forall k :: 0 <= k < i ==> vga[k] == old(vga[k + Width])
        invariant forall k :: i <= k < CellCount ==> vga[k] == old(vga[k])
      {
        vga[i] := vga[i + Width];
        i := i + 1;
      }
      i := (Height - 1) * Width;
      while i < Height * Width
        invariant (Height - 1) * Width <= i <= Height * Width
        invariant forall k :: 0 <= k < (Height - 1) * Width ==> vga[k] == old(vga[k + Width])
        invariant forall k :: (Height - 1) * Width <= k < i ==> vga[k] == blank
      {
        vga[i] := blank;
        i := i + 1;
      }
      cursorY := Height - 1;
      assert vga[..] == Scrolled(old(vga[..]), currentColor);
    }

    /** `putchar`: newline and carriage return move the cursor, every other character is drawn. */
    method Putchar(c: Ascii)
      requires Valid()
      modifies this`cursorX, this`cursorY, vga
      ensures Valid()
      ensures View() == Put(old(View()), c, LineOnly)
    {
      Advance(c);
      if cursorX >= Width {
        cursorX := 0;
        cursorY := cursorY + 1;
      }
      if cursorY >= Height {
        ScrollScreen();
      }
    }

    /**
     * The first half of `putchar`, which depends on the character; the
     * cursor may be left one past the last column or the last row.
     */
    method Advance(c: Ascii)
      requires Valid()
      modifies this`cursorX, this`cursorY, vga
      ensures 0 <= cursorX <= Width && 0 <= cursorY <= Height
      ensures View() == VgaText.Interpret(old(View()), c, LineOnly)
    {
      if c == '\n' {
        cursorX := 0;
        cursorY := cursorY + 1;
      } else if c == '\r' {
        cursorX := 0;
      } else {
        vga[cursorY * Width + cursorX] := Cell(currentColor, c);
        cursorX := cursorX + 1;
      }
    }

    /** `print`: the characters of the C string `str` up to its NUL. */
    method Print(str: seq<Ascii>)
      requires Valid() && NUL in str
      modifies this`cursorX, this`cursorY, vga
      ensures Valid()
      ensures View() == PutString(old(View()), str[..NulIndex(str)], LineOnly)
    {
      var i := 0;
      while str[i] != NUL
        invariant 0 <= i <= NulIndex(str)
        invariant Valid()
        invariant View() == PutString(old(View()), str[..i], LineOnly)
        decreases NulIndex(str) - i
      {
        assert str[..i + 1][..i] == str[..i];
        Putchar(str[i]);
        i := i + 1;
      }
    }

    /** `set_color`: only the colour changes. */
    method SetColor(color: bv8)
      requires Valid()
      modifies this`currentColor
      ensures Valid()
      ensures View() == old(View()).(color := color)
    {
      currentColor := color;
    }

    /** `scutoid.keyboard_available()`: true iff the ring's indices differ. */
    function KeyboardAvailable(): (b: bool)
      reads this, kb
      ensures b <==> kb.Pending() > 0
    {
      kb.writeIdx != kb.readIdx
    }

    /**
     * `scutoid.keyboard_read()`: the scancode under the read index; the
     * index advances modulo 256 and the write index is left alone.
     */
    method KeyboardRead() returns (scancode: Keyboard.Byte)
      requires Valid()
      modifies kb`readIdx
      ensures Valid()
      ensures scancode == kb.buffer[old(kb.readIdx)]
      ensures kb.readIdx == (old(kb.readIdx) + 1) % Keyboard.RingSize
      ensures old(KeyboardAvailable()) ==> kb.Unread() == old(kb.Unread())[1..]
    {
      scancode := kb.Read();
    }
  }

  /** Printing a string with its NUL stops at that NUL; later characters are never drawn. */
  lemma PrintStopsAtNul(s: Screen, text: seq<Ascii>, rest: seq<Ascii>)
    requires Valid(s) && NUL !in text
    ensures NUL in text + [NUL] + rest
    ensures var str := text + [NUL] + rest;
      PutString(s, str[..NulIndex(str)], LineOnly) == PutString(s, text, LineOnly)
  {
    var str := text + [NUL] + rest;
    assert str[|text|] == NUL;
    assert str[..|text|] == text;
    TextUpTo(str, |text|);
  }
}
