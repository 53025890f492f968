/**
 * kernel.c: the ScutoidOS kernel shell.  The statics `cx`, `cy`, `color`,
 * `cmdbuf` and `cmdlen` become fields of `Kernel`, the VGA buffer an array
 * of 2000 cells and the keyboard ring a `Keyboard.Ring`.  Every method is
 * proved against a function on `Screen` values, and the properties of the
 * shell (command dispatch, the line editor) are lemmas about those functions.
 */
module KernelShell {
  import opened Wrappers
  import opened VgaText
  import opened KernelLib
  import Keyboard

  /** `CMD_MAX`: the command buffer holds at most 255 characters and the NUL. */
  const CmdMax: int := 256
  const DefaultColor: bv8 := 0x07
  const PromptColor: bv8 := 0x0A
  const TitleColor: bv8 := 0x0E

  /** What `run_command` does with a line, once the leading spaces are skipped. */
  datatype Command =
    | NoCommand
    | HelpCmd
    | AboutCmd
    | MemCmd
    | ClearCmd
    | ColorsCmd
    | EchoCmd(text: seq<Ascii>)
    | RebootCmd
    | UnknownCmd(text: seq<Ascii>)

  // ---- the line as `run_command` sees it ----

  /** The line from its first character that is not a space. */
  function SkipSpaces(line: seq<Ascii>): (r: seq<Ascii>)
    ensures |r| <= |line|
    ensures r == [] || r[0] != ' '
  {
    if line != [] && line[0] == ' ' then SkipSpaces(line[1..]) else line
  }

  /**
   * The dispatch of `run_command`: exact matches for the keywords, a prefix
   * match for "echo ", anything else unknown.  Only the empty line is no
   * command, echo is chosen exactly on the prefix, and an unknown command
   * keeps the whole text (`ClassifyRoundTrip` gives the text back for all).
   */
  function Classify(cmd: seq<Ascii>): (r: Command)
    ensures r == NoCommand <==> cmd == []
    ensures r.EchoCmd? <==> |cmd| >= 5 && cmd[..5] == "echo "
    ensures r.EchoCmd? ==> r.text == cmd[5..]
    ensures r.UnknownCmd? ==> r.text == cmd
  {
    assert |cmd| >= 5 && cmd[..5] == "echo " ==> cmd[0] == 'e' && cmd[4] == ' ';
    if cmd == [] then NoCommand
    else if cmd == "help" then HelpCmd
    else if cmd == "about" then AboutCmd
    else if cmd == "mem" then MemCmd
    else if cmd == "clear" then ClearCmd
    else if cmd == "colors" then ColorsCmd
    else if "echo " <= cmd then EchoCmd(cmd[5..])
    else if cmd == "reboot" then RebootCmd
    else UnknownCmd(cmd)
  }

  /** The texts a command prints after `run_command` has matched it hold no NUL. */
  predicate NulFree(c: Command) {
    (c.EchoCmd? || c.UnknownCmd?) ==> NUL !in c.text
  }

  /** The text that names a command: the inverse of `Classify`. */
  function CommandText(c: Command): seq<Ascii> {
    match c
    case NoCommand => ""
    case HelpCmd => "help"
    case AboutCmd => "about"
    case MemCmd => "mem"
    case ClearCmd => "clear"
    case ColorsCmd => "colors"
    case EchoCmd(t) => "echo " + t
    case RebootCmd => "reboot"
    case UnknownCmd(t) => t
  }

  // ---- what the commands print ----

  /** `kprint`: the Full dialect of `putchar`, character by character. */
  function Print(s: Screen, t: seq<Ascii>): (r: Screen)
    requires Valid(s)
    ensures Valid(r) && r.color == s.color
  {
    PutString(s, t, Full)
  }

  /** `print_hex`: "0x" and eight upper-case digits. */
  function PrintHex(s: Screen, val: nat): (r: Screen)
    requires Valid(s)
    ensures Valid(r) && r.color == s.color
  {
    Print(Print(s, "0x"), HexDigits(val))
  }

  /** `prompt`: "scutoidos" in light green, "> " in light grey, then the caller's colour again. */
  function PromptSpec(s: Screen): (r: Screen)
    requires Valid(s)
    ensures Valid(r)
  {
    Print(Print(s.(color := PromptColor), "scutoidos").(color := DefaultColor), "> ").(color := s.color)
  }

  // The lines `cmd_help` prints, in order.
  const HelpHeader: seq<TextChar> := "commands:\n"
  const HelpForHelp: seq<TextChar> := "  help      show this\n"
  const HelpForAbout: seq<TextChar> := "  about     system info\n"
  const HelpForMem: seq<TextChar> := "  mem       memory layout\n"
  const HelpForClear: seq<TextChar> := "  clear     clear screen\n"
  const HelpForColors: seq<TextChar> := "  colors    color test\n"
  const HelpForEcho: seq<TextChar> := "  echo ...  print text\n"
  const HelpForReboot: seq<TextChar> := "  reboot    restart\n"

  /** `cmd_help`: the command list, one line per command. */
  function Help(s: Screen): (r: Screen)
    requires Valid(s)
    ensures Valid(r) && r.color == s.color
  {
    var a := Print(s, HelpHeader);
    var b := Print(a, HelpForHelp);
    var c := Print(b, HelpForAbout);
    var d := Print(c, HelpForMem);
    var e := Print(d, HelpForClear);
    var f := Print(e, HelpForColors);
    var g := Print(f, HelpForEcho);
    Print(g, HelpForReboot)
  }

  // The lines `cmd_about` prints: the title, then two lines of description.
  const AboutTitle: seq<TextChar> := "ScutoidOS v0.1\n"
  const AboutKernel: seq<TextChar> := "x86 kernel, hand-rolled from scratch\n"
  const AboutBoot: seq<TextChar> := Lit("bootloader -> protected mode -> this shell\n")

  /** `cmd_about`: the title in yellow, two lines in light grey; the colour is left light grey. */
  function About(s: Screen): (r: Screen)
    requires Valid(s)
    ensures Valid(r) && r.color == DefaultColor
  {
    var t := Print(s.(color := TitleColor), AboutTitle);
    Print(Print(t.(color := DefaultColor), AboutKernel), AboutBoot)
  }

  /** One line of `cmd_mem`: a label, an address in hexadecimal, a newline. */
  function MemLine(s: Screen, caption: seq<Ascii>, val: nat): (r: Screen)
    requires Valid(s)
    ensures Valid(r) && r.color == s.color
  {
    Print(PrintHex(Print(s, caption), val), "\n")
  }

  const KernelBase: nat := 0x10000
  const VgaBase: nat := 0xB8000
  const KbBufferBase: nat := 0x9000

  /** The captions of the four lines of `cmd_mem`. */
  const MemCaptions: seq<seq<TextChar>> := ["stack:    ", "kernel:   ", "vga:      ", "kb buf:   "]

  /** `cmd_mem`: the stack pointer and the three fixed addresses. */
  function Mem(s: Screen, esp: nat): (r: Screen)
    requires Valid(s)
    ensures Valid(r) && r.color == s.color
  {
    var a := MemLine(s, MemCaptions[0], esp);
    var b := MemLine(a, MemCaptions[1], KernelBase);
    var c := MemLine(b, MemCaptions[2], VgaBase);
    MemLine(c, MemCaptions[3], KbBufferBase)
  }

  const ColorNames: seq<seq<TextChar>> := [
    "black", "blue", "green", "cyan",
    "red", "magenta", "brown", "grey",
    "dark grey", "lt blue", "lt green", "lt cyan",
    "lt red", "lt magenta", "yellow", "white"]

  /** The first `n` lines of `cmd_colors`: line i is the i-th colour name, drawn in colour i. */
  function ColorLines(s: Screen, n: nat): (r: Screen)
    requires Valid(s) && n <= 16
    ensures Valid(r)
    ensures n > 0 ==> r.color == (n - 1) as bv8
  {
    if n == 0 then s
    else Print(Print(Print(ColorLines(s, n - 1).(color := (n - 1) as bv8), "  "), ColorNames[n - 1]), "\n")
  }

  /** `cmd_colors`: the sixteen lines, then light grey again. */
  function Colors(s: Screen): (r: Screen)
    requires Valid(s)
    ensures Valid(r) && r.color == DefaultColor
  {
    ColorLines(s, 16).(color := DefaultColor)
  }

  /** What `run_command` prints for each command; reboot resets the machine and is left as it stands. */
  function Execute(s: Screen, cmd: Command, esp: nat): (r: Screen)
    requires Valid(s)
    ensures Valid(r)
  {
    match cmd
    case NoCommand => s
    case HelpCmd => Help(s)
    case AboutCmd => About(s)
    case MemCmd => Mem(s, esp)
    case ClearCmd => VgaText.Clear(s)
    case ColorsCmd => Colors(s)
    case EchoCmd(t) => Print(Print(s, t), "\n")
    case RebootCmd => s
    case UnknownCmd(t) => Print(Print(Print(s, "? "), t), "\n")
  }

  /**
   * The line editor of `kernel_main` given a character `ch` (not NUL): the
   * new screen, the new line and the command run, if `ch` is Enter.
   */
  function Keypress(s: Screen, line: seq<Ascii>, ch: Ascii, esp: nat)
    : (r: (Screen, seq<Ascii>, Option<Command>))
    requires Valid(s) && |line| < CmdMax
    ensures Valid(r.0) && |r.1| < CmdMax
    ensures NUL !in line && ch != NUL ==> NUL !in r.1
  {
    if ch == '\n' then
      var cmd := Classify(SkipSpaces(line));
      (PromptSpec(Execute(Print(s, "\n"), cmd, esp)), [], Some(cmd))
    else if ch == BS then
      if |line| > 0 then (Put(s, BS, Full), line[..|line| - 1], None) else (s, line, None)
    else if |line| < CmdMax - 1 then (Put(s, ch, Full), line + [ch], None)
    else (s, line, None)
  }

  /**
   * One iteration of the loop in `kernel_main` that found a scancode `sc`:
   * key releases (bit 7 set) and keys without a character are ignored.
   */
  function EditorStep(s: Screen, line: seq<Ascii>, sc: Keyboard.Byte, esp: nat)
    : (r: (Screen, seq<Ascii>, Option<Command>))
    requires Valid(s) && |line| < CmdMax
    ensures Valid(r.0) && |r.1| < CmdMax
    ensures NUL !in line ==> NUL !in r.1
  {
    if sc >= 0x80 || Keyboard.ScToAscii(sc) == NUL then (s, line, None)
    else Keypress(s, line, Keyboard.ScToAscii(sc), esp)
  }

  // ---- the kernel's state ----

  class Kernel {
    const vga: array<bv16>
    var cx: int
    var cy: int
    var color: bv8
    const kb: Keyboard.Ring
    const cmdbuf: array<Ascii>
    var cmdlen: int

    ghost predicate Valid()
      reads this, kb, cmdbuf
    {
      && vga.Length == CellCount && 0 <= cx < Width && 0 <= cy < Height
      && kb.Valid()
      && cmdbuf.Length == CmdMax && 0 <= cmdlen < CmdMax && NUL !in cmdbuf[..cmdlen]
    }

    /** The console as a value. */
    function View(): Screen
      reads this`cx, this`cy, this`color, vga
    {
      Screen(cx, cy, color, vga[..])
    }

    /** The characters typed so far on the command line. */
    function Line(): seq<Ascii>
      reads this`cmdlen, cmdbuf
      requires 0 <= cmdlen <= cmdbuf.Length
    {
      cmdbuf[..cmdlen]
    }

    constructor (vga: array<bv16>, kb: Keyboard.Ring, cmdbuf: array<Ascii>)
      requires vga.Length == CellCount && kb.Valid() && cmdbuf.Length == CmdMax
      ensures Valid() && this.vga == vga && this.kb == kb && this.cmdbuf == cmdbuf
      ensures cx == 0 && cy == 0 && color == DefaultColor && Line() == []
    {
      this.vga, this.kb, this.cmdbuf := vga, kb, cmdbuf;
      cx, cy, color, cmdlen := 0, 0, DefaultColor, 0;
    }

    /** `scroll`: rows 1..24 move up, row 24 is blanked and the cursor goes to row 24. */
    method Scroll()
      requires vga.Length == CellCount
      modifies this`cy, vga
      ensures cy == Height - 1
      ensures vga[..] == Scrolled(old(vga[..]), color)
    {
      var blank := Blank(color);
      var i := 0;
      while i < (Height - 1) * Width
        invariant 0 <= i <= (Height - 1) * Width
        invariant forall k :: 0 <= k < i ==> vga[k] == old(vga[k + Width])
        invariant forall k :: i <= k < CellCount ==> vga[k] == old(vga[k])
      {
        vga[i] := vga[i + Width];
        i := i + 1;
      }
      i := (Height - 1) * Width;
      while i < Height * Width
        invariant (Height - 1) * Width <= i <= Height * Width
        invariant forall k :: 0 <= k < (Height - 1) * Width ==> vga[k] == old(vga[k + Width])
        invariant forall k :: (Height - 1) * Width <= k < i ==> vga[k] == blank
      {
        vga[i] := blank;
        i := i + 1;
      }
      cy := Height - 1;
      assert vga[..] == Scrolled(old(vga[..]), color);
    }

    /** `clear_screen`: every cell blank in the current colour, cursor home. */
    method ClearScreen()
      requires Valid()
      modifies this`cx, this`cy, vga
      ensures Valid()
      ensures View() == VgaText.Clear(old(View()))
    {
      var blank := Blank(color);
      var i := 0;
      while i < Width * Height
        invariant 0 <= i <= Width * Height
        invariant forall k :: 0 <= k < i ==> vga[k] == blank
      {
        vga[i] := blank;
        i := i + 1;
      }
      cx, cy := 0, 0;
      assert vga[..] == Cleared(color);
    }

    /** `putchar`, with newline, carriage return, tab and backspace. */
    method Putchar(c: Ascii)
      requires Valid()
      modifies this`cx, this`cy, vga
      ensures Valid()
      ensures View() == Put(old(View()), c, Full)
    {
      Advance(c);
      if cx >= Width {
        cx := 0;
        cy := cy + 1;
      }
      if cy >= Height {
        Scroll();
      }
    }

    /**
     * The first half of `putchar`, which depends on the character; the
     * cursor may be left one past the last column or the last row.
     */
    method Advance(c: Ascii)
      requires Valid()
      modifies this`cx, this`cy, vga
      ensures 0 <= cx <= Width && 0 <= cy <= Height
      ensures View() == VgaText.Interpret(old(View()), c, Full)
    {
      if c == '\n' {
        cx := 0;
        cy := cy + 1;
      } else if c == '\r' {
        cx := 0;
      } else if c == '\t' {
        cx := (cx + 4) / 4 * 4;
      } else if c == BS {
        if cx > 0 {
          cx := cx - 1;
          vga[cy * Width + cx] := Blank(color);
        }
      } else {
        vga[cy * Width + cx] := Cell(color, c);
        cx := cx + 1;
      }
    }

    /** `kprint`: the characters of the C string whose text is `t`, in order, up to its NUL. */
    method KPrint(t: seq<Ascii>)
      requires Valid() && NUL !in t
      modifies this`cx, this`cy, vga
      ensures Valid()
      ensures View() == Print(old(View()), t)
    {
      var i := 0;
      while i < |t|
        invariant 0 <= i <= |t|
        invariant Valid()
        invariant View() == Print(old(View()), t[..i])
      {
        assert t[..i + 1][..i] == t[..i];
        Putchar(t[i]);
        i := i + 1;
      }
      assert t[..i] == t;
    }

    /** `print_hex`: "0x", then the eight digits. */
    method PrintHexDigits(val: nat)
      requires Valid() && val < 0x1_0000_0000
      modifies this`cx, this`cy, vga
      ensures Valid()
      ensures View() == PrintHex(old(View()), val)
    {
      KPrint("0x");
      PutNibbles(val);
    }

    /** The loop of `print_hex`: the nibbles from bit 28 down to bit 0, most significant first. */
    method PutNibbles(val: nat)
      requires Valid()
      modifies this`cx, this`cy, vga
      ensures Valid()
      ensures View() == Print(old(View()), HexDigits(val))
    {
      ghost var start := View();
      var digits := HexDigits(val);
      // k counts nibbles: the C loop's shift `i` is 4 * k, from 28 down to 0,
      // and digits[7 - k] is hex[(val >> i) & 0xF]
      var k := 7;
      while k >= 0
        invariant -1 <= k <= 7
        invariant Valid()
        invariant View() == Print(start, digits[..7 - k])
      {
        PrintOneMore(start, digits, 7 - k);
        Putchar(digits[7 - k]);
        k := k - 1;
      }
      assert k == -1 && digits[..7 - k] == digits;
    }

    /** `prompt`: the caller's colour is restored afterwards. */
    method Prompt()
      requires Valid()
      modifies this`cx, this`cy, this`color, vga
      ensures Valid()
      ensures View() == PromptSpec(old(View()))
    {
      var saved := color;
      color := PromptColor;
      KPrint("scutoidos");
      color := DefaultColor;
      KPrint("> ");
      color := saved;
    }

    /** `cmd_help`. */
    method CmdHelp()
      requires Valid()
      modifies this`cx, this`cy, vga
      ensures Valid()
      ensures View() == Help(old(View()))
    {
      KPrint(HelpHeader);
      KPrint(HelpForHelp);
      KPrint(HelpForAbout);
      KPrint(HelpForMem);
      KPrint(HelpForClear);
      KPrint(HelpForColors);
      KPrint(HelpForEcho);
      KPrint(HelpForReboot);
    }

    /** `cmd_about`. */
    method CmdAbout()
      requires Valid()
      modifies this`cx, this`cy, this`color, vga
      ensures Valid()
      ensures View() == About(old(View()))
    {
      color := TitleColor;
      KPrint(AboutTitle);
      color := DefaultColor;
      KPrint(AboutKernel);
      KPrint(AboutBoot);
    }

    /** `cmd_mem`, the stack pointer being a parameter. */
    method CmdMem(esp: nat)
      requires Valid() && esp < 0x1_0000_0000
      modifies this`cx, this`cy, vga
      ensures Valid()
      ensures View() == Mem(old(View()), esp)
    {
      PrintMemLine(MemCaptions[0], esp);
      PrintMemLine(MemCaptions[1], KernelBase);
      PrintMemLine(MemCaptions[2], VgaBase);
      PrintMemLine(MemCaptions[3], KbBufferBase);
    }

    /** One line of `cmd_mem`: `kprint` of the caption, `print_hex`, `kprint` of a newline. */
    method PrintMemLine(caption: seq<TextChar>, val: nat)
      requires Valid() && val < 0x1_0000_0000
      modifies this`cx, this`cy, vga
      ensures Valid()
      ensures View() == MemLine(old(View()), caption, val)
    {
      KPrint(caption);
      PrintHexDigits(val);
      KPrint("\n");
    }

    /** `cmd_colors`. */
    method CmdColors()
      requires Valid()
      modifies this`cx, this`cy, this`color, vga
      ensures Valid()
      ensures View() == Colors(old(View()))
    {
      var i := 0;
      while i < 16
        invariant 0 <= i <= 16
        invariant Valid()
        invariant View() == ColorLines(old(View()), i)
      {
        color := i as bv8;
        PrintColorLine(ColorNames[i]);
        i := i + 1;
      }
      color := DefaultColor;
    }

    /** One line of `cmd_colors`, in the current colour: two spaces, the name, a newline. */
    method PrintColorLine(name: seq<TextChar>)
      requires Valid()
      modifies this`cx, this`cy, vga
      ensures Valid()
      ensures View() == Print(Print(Print(old(View()), "  "), name), "\n")
    {
      KPrint("  ");
      KPrint(name);
      KPrint("\n");
    }

    /**
     * The comparisons of `run_command`, in its order, on the C string `p`
     * that starts at the first character that is not a space.
     */
    method Recognize(p: seq<Ascii>) returns (cmd: Command)
      requires NUL in p
      ensures cmd == Classify(Text(p))
    {
      if p[0] == NUL {
        assert Text(p) == [];
        return NoCommand;
      }
      var b := Equals(p, "help");
      if b {
        return HelpCmd;
      }
      b := Equals(p, "about");
      if b {
        return AboutCmd;
      }
      b := Equals(p, "mem");
      if b {
        return MemCmd;
      }
      b := Equals(p, "clear");
      if b {
        return ClearCmd;
      }
      b := Equals(p, "colors");
      if b {
        return ColorsCmd;
      }
      b := StartsWith(p, "echo ");
      if b {
        return EchoCmd(Text(p)[5..]);
      }
      b := Equals(p, "reboot");
      if b {
        return RebootCmd;
      }
      return UnknownCmd(Text(p));
    }

    /** The branch of `run_command` that the command selects. */
    method Perform(cmd: Command, esp: nat)
      requires Valid() && esp < 0x1_0000_0000 && NulFree(cmd)
      modifies this`cx, this`cy, this`color, vga
      ensures Valid()
      ensures View() == Execute(old(View()), cmd, esp)
    {
      match cmd
      case NoCommand =>
      case HelpCmd => CmdHelp();
      case AboutCmd => CmdAbout();
      case MemCmd => CmdMem(esp);
      case ClearCmd => ClearScreen();
      case ColorsCmd => CmdColors();
      case EchoCmd(t) =>
        KPrint(t);
        KPrint("\n");
      case RebootCmd =>
      case UnknownCmd(t) =>
        KPrint("? ");
        KPrint(t);
        KPrint("\n");
    }

    /**
     * `run_command`: terminates the line with a NUL, skips the leading
     * spaces, recognises the command and runs it.  The line is unchanged.
     */
    /** `cmd_buffer[cmd_len] = '\0'`: the line itself is unchanged. */
    method Terminate()
      requires Valid()
      modifies cmdbuf
      ensures Valid() && Line() == old(Line()) && cmdbuf[cmdlen] == NUL
    {
      cmdbuf[cmdlen] := NUL;
      assert Line() == old(Line());
    }

    /** The loop of `run_command` that steps over the leading spaces. */
    method SkipLeading() returns (i: nat)
      requires Valid() && cmdbuf[cmdlen] == NUL
      ensures i <= cmdlen && SkipSpaces(Line()) == Line()[i..]
    {
      i := 0;
      while cmdbuf[i] == ' '
        invariant 0 <= i <= cmdlen
        invariant forall k :: 0 <= k < i ==> cmdbuf[k] == ' '
        decreases cmdlen - i
      {
        i := i + 1;
      }
      SkipSpacesFrom(Line(), i);
    }

    /**
     * The parsing half of `run_command`: terminate the line with NUL, skip
     * the leading spaces and match what is left against the command names.
     */
    method ReadCommand() returns (cmd: Command)
      requires Valid()
      modifies cmdbuf
      ensures Valid() && Line() == old(Line())
      ensures cmd == Classify(SkipSpaces(Line())) && NulFree(cmd)
    {
      Terminate();
      var i := SkipLeading();
      var p := cmdbuf[i..];
      DropTake(cmdbuf[..], i, cmdlen);
      TextUpTo(p, cmdlen - i);
      cmd := Recognize(p);
      ClassifyNulFree(Text(p));
    }

    /** `run_command`: parse the line, then run what it names. */
    method RunCommand(esp: nat) returns (cmd: Command)
      requires Valid() && esp < 0x1_0000_0000
      modifies this`cx, this`cy, this`color, vga, cmdbuf
      ensures Valid() && cmdlen == old(cmdlen) && Line() == old(Line())
      ensures cmd == Classify(SkipSpaces(old(Line())))
      ensures View() == Execute(old(View()), cmd, esp)
    {
      cmd := ReadCommand();
      Perform(cmd, esp);
    }

    /**
     * The line editor of `kernel_main` on character `ch`: Enter runs the
     * line, backspace deletes, any other character is appended while there
     * is room.
     */
    method Edit(ch: Ascii, esp: nat) returns (executed: Option<Command>)
      requires Valid() && esp < 0x1_0000_0000 && ch != NUL
      modifies this`cx, this`cy, this`color, this`cmdlen, vga, cmdbuf
      ensures Valid()
      ensures (View(), Line(), executed) == Keypress(old(View()), old(Line()), ch, esp)
    {
      if ch == '\n' {
        KPrint("\n");
        var cmd := RunCommand(esp);
        cmdlen := 0;
        Prompt();
        return Some(cmd);
      } else if ch == BS {
        if cmdlen > 0 {
          cmdlen := cmdlen - 1;
          assert Line() == old(Line())[..cmdlen];
          Putchar(BS);
        }
      } else {
        if cmdlen < CmdMax - 1 {
          cmdbuf[cmdlen] := ch;
          cmdlen := cmdlen + 1;
          assert Line() == old(Line()) + [ch];
          Putchar(ch);
        }
      }
      return None;
    }

    /** The body of the loop in `kernel_main` once a scancode `sc` has been read. */
    method HandleScancode(sc: Keyboard.Byte, esp: nat) returns (executed: Option<Command>)
      requires Valid() && esp < 0x1_0000_0000
      modifies this`cx, this`cy, this`color, this`cmdlen, vga, cmdbuf
      ensures Valid()
      ensures (View(), Line(), executed) == EditorStep(old(View()), old(Line()), sc, esp)
    {
      // `sc & 0x80`: the key-release bit
      if sc >= 0x80 {
        return None;
      }
      var ch := Keyboard.ScToAscii(sc);
      if ch == NUL {
        return None;
      }
      executed := Edit(ch, esp);
    }

    /** One iteration of the loop in `kernel_main`: a pending scancode is read and handled. */
    method Step(esp: nat) returns (executed: Option<Command>)
      requires Valid() && esp < 0x1_0000_0000
      modifies this`cx, this`cy, this`color, this`cmdlen, vga, cmdbuf, kb`readIdx
      ensures Valid()
      ensures !old(kb.HasInput()) ==>
        View() == old(View()) && Line() == old(Line()) && kb.readIdx == old(kb.readIdx) && executed == None
      ensures old(kb.HasInput()) ==>
        && kb.Unread() == old(kb.Unread())[1..]
        && (View(), Line(), executed) == EditorStep(old(View()), old(Line()), old(kb.Unread())[0], esp)
    {
      if !kb.HasInput() {
        return None;
      }
      var sc := kb.Read();
      executed := HandleScancode(sc, esp);
    }
  }

  /** `kstrcmp(p, w) == 0` for a literal `w`. */
  method Equals(p: seq<char>, w: seq<char>) returns (b: bool)
    requires NUL in p && NUL !in w
    ensures b <==> Text(p) == w
  {
    var r := KStrcmp(p, w + [NUL]);
    TextOfLiteral(w);
    b := r == 0;
  }

  /** `kstrncmp(p, w, |w|) == 0` for a literal `w`. */
  method StartsWith(p: seq<char>, w: seq<char>) returns (b: bool)
    requires NUL in p && NUL !in w
    ensures b <==> w <= Text(p)
  {
    var r := KStrncmp(p, w + [NUL], |w|);
    PrefixCompare(p, w);
    b := r == 0;
  }

  // ---- properties ----

  /** A command read from a text without NUL prints no NUL. */
  lemma ClassifyNulFree(cmd: seq<Ascii>)
    requires NUL !in cmd
    ensures NulFree(Classify(cmd))
  {
    if "echo " <= cmd {
      assert forall k :: 5 <= k < |cmd| ==> cmd[5..][k - 5] == cmd[k];
    }
  }

  /** Skipping drops a run of spaces from the front and stops at a non-space or the end. */
  lemma {:induction false} SkipSpacesShape(line: seq<Ascii>)
    ensures var r := SkipSpaces(line);
      && |r| <= |line| && r == line[|line| - |r|..]
      && (forall k :: 0 <= k < |line| - |r| ==> line[k] == ' ')
      && (r == [] || r[0] != ' ')
  {
    if line != [] && line[0] == ' ' {
      var t := line[1..];
      SkipSpacesShape(t);
      var r := SkipSpaces(t);
      assert SkipSpaces(line) == r;
      assert t[|t| - |r|..] == line[|line| - |r|..];
      forall k | 0 <= k < |line| - |r|
        ensures line[k] == ' '
      {
        if k > 0 {
          assert line[k] == t[k - 1];
        }
      }
    }
  }

  /** Dropping `i` characters and then keeping `n - i` is keeping `n` and then dropping `i`. */
  lemma DropTake(a: seq<Ascii>, i: nat, n: nat)
    requires i <= n <= |a|
    ensures a[i..][..n - i] == a[..n][i..]
  {
  }

  /** After `i` leading spaces and a non-space (or the end), the command starts at `i`. */
  lemma {:induction false} SkipSpacesFrom(line: seq<Ascii>, i: nat)
    requires i <= |line| && (forall k :: 0 <= k < i ==> line[k] == ' ')
    requires i == |line| || line[i] != ' '
    ensures SkipSpaces(line) == line[i..]
  {
    if i > 0 {
      assert line[1..][i - 1..] == line[i..];
      SkipSpacesFrom(line[1..], i - 1);
    }
  }

  /** Printing one more character of `t` puts it after what was printed before. */
  lemma PrintOneMore(s: Screen, t: seq<Ascii>, n: nat)
    requires Valid(s) && n < |t|
    ensures Print(s, t[..n + 1]) == Put(Print(s, t[..n]), t[n], Full)
  {
    assert t[..n + 1][..n] == t[..n];
  }

  /** Leading spaces never change which command runs. */
  lemma {:induction false} LeadingSpacesIgnored(pre: seq<Ascii>, line: seq<Ascii>)
    requires forall k :: 0 <= k < |pre| ==> pre[k] == ' '
    ensures SkipSpaces(pre + line) == SkipSpaces(line)
  {
    if pre != [] {
      var x := pre + line;
      assert x[0] == ' ' && x[1..] == pre[1..] + line;
      LeadingSpacesIgnored(pre[1..], line);
    } else {
      assert pre + line == line;
    }
  }

  /** A line of spaces only, or an empty one, runs nothing (and `Execute` prints nothing for it). */
  lemma BlankLineDoesNothing(line: seq<Ascii>)
    requires forall k :: 0 <= k < |line| ==> line[k] == ' '
    ensures SkipSpaces(line) == [] && Classify(SkipSpaces(line)) == NoCommand
  {
  }

  /** Every command but the empty one is named by exactly the text it was read from. */
  lemma ClassifyRoundTrip(cmd: seq<Ascii>)
    ensures CommandText(Classify(cmd)) == cmd
  {
    if "echo " <= cmd {
      assert cmd == "echo " + cmd[5..];
    }
  }

  /** The keywords are matched exactly: a trailing space or upper case makes a command unknown. */
  lemma KeywordsMatchExactly()
    ensures Classify("help") == HelpCmd
    ensures Classify("help ") == UnknownCmd("help ")
    ensures Classify("HELP") == UnknownCmd("HELP")
  {
    assert "help " != "help" && "help "[0] != "echo "[0];
    assert "HELP"[0] != "help"[0] && "HELP"[0] != "echo "[0];
  }

  /** "echo" needs its space; the rest of the line after it is echoed as typed. */
  lemma EchoNeedsItsSpace()
    ensures Classify("echo") == UnknownCmd("echo")
    ensures Classify("echo ") == EchoCmd("")
    ensures Classify("echo  hi ") == EchoCmd(" hi ")
  {
    assert "echo " <= "echo  hi ";
    assert "echo  hi "[5..] == " hi ";
  }

  /** Keys released (scancodes with bit 7 set) and unmapped keys change nothing. */
  lemma IgnoredScancodes(s: Screen, line: seq<Ascii>, sc: Keyboard.Byte, esp: nat)
    requires Valid(s) && |line| < CmdMax
    requires sc >= 0x80 || Keyboard.ScToAscii(sc) == NUL
    ensures EditorStep(s, line, sc, esp) == (s, line, None)
  {
  }

  /** Enter runs the line with its leading spaces skipped and empties it. */
  lemma EnterRunsLine(s: Screen, line: seq<Ascii>, esp: nat)
    requires Valid(s) && |line| < CmdMax
    ensures var r := Keypress(s, line, '\n', esp);
      r.1 == [] && r.2 == Some(Classify(SkipSpaces(line)))
  {
  }

  /** Only Enter runs a command. */
  lemma OtherKeysRunNothing(s: Screen, line: seq<Ascii>, ch: Ascii, esp: nat)
    requires Valid(s) && |line| < CmdMax && ch != '\n'
    ensures Keypress(s, line, ch, esp).2 == None
  {
  }

  /** The line holds at most 255 characters: once full, typed characters are dropped. */
  lemma FullLineDropsKeys(s: Screen, line: seq<Ascii>, ch: Ascii, esp: nat)
    requires Valid(s) && |line| == CmdMax - 1 && ch != '\n' && ch != BS
    ensures Keypress(s, line, ch, esp) == (s, line, None)
  {
  }

  /**
   * Typing a character and then backspace gives the line back, and on a row
   * with room leaves the screen as it was except for a blank under the cursor.
   */
  lemma TypeThenErase(s: Screen, line: seq<Ascii>, ch: Ascii, esp: nat)
    requires Valid(s) && |line| < CmdMax - 1 && s.x + 1 < Width
    requires ch != NUL && !IsControl(ch, Full)
    ensures var a := Keypress(s, line, ch, esp);
      var b := Keypress(a.0, a.1, BS, esp);
      b.1 == line && b.0 == s.(cells := s.cells[At(s) := Blank(s.color)])
  {
    var a := Keypress(s, line, ch, esp);
    PutGlyph(s, ch, Full);
    assert a.0 == s.(x := s.x + 1, cells := s.cells[At(s) := Cell(s.color, ch)]);
    assert a.1 == line + [ch];
    assert (line + [ch])[..|line|] == line;
    PutBackspace(a.0);
  }

  /** Backspace on an empty line changes nothing. */
  lemma BackspaceOnEmptyLine(s: Screen, esp: nat)
    requires Valid(s)
    ensures Keypress(s, [], BS, esp) == (s, [], None)
  {
  }

  /** The prompt hands the colour back to its caller. */
  lemma PromptKeepsColor(s: Screen)
    requires Valid(s)
    ensures PromptSpec(s).color == s.color
  {
  }
}
