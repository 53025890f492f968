/**
 * main.py: the shell MicroPython runs after the kernel hands over.  Its
 * fields `running` and `buf` belong to `Shell`; what a command prints is
 * returned as an `Output` event.
 */
module MainShell {
  import opened Wrappers
  import opened PyStr
  import opened LineEdit

  /** What a command prints. */
  datatype Output =
    | Silent
    | HelpText
    | AboutText
    | MemoryMap
    | ClearScreen
    | Palette
    | Echo(text: string)
    | Bye
    | Unknown(command: string)

  /** The effect of one command line: whether the shell stops, and what it prints. */
  datatype Reply = Reply(stop: bool, output: Output)

  /** `cmd.strip().lower()`: the whole line is lower-cased, not just its first word. */
  function Normal(raw: string): (r: string)
    ensures |r| == |Strip(raw)| <= |raw|
    ensures NoCapitals(r)
  {
    LowerHasNoCapitals(Strip(raw));
    Lower(Strip(raw))
  }

  /**
   * `dispatch` as a value.  Only "shutdown" stops the shell; "echo X"
   * prints the lower-cased X; an empty line does nothing.
   */
  function Interpret(raw: string): (r: Reply)
    ensures Normal(raw) == [] ==> r == Reply(false, Silent)
    ensures r.stop <==> Normal(raw) == "shutdown"
    ensures r.output.Echo? <==> "echo " <= Normal(raw)
    ensures "echo " <= Normal(raw) ==> r.output == Echo(Normal(raw)[5..])
  {
    var cmd := Normal(raw);
    if cmd == [] then Reply(false, Silent)
    else if cmd == "help" then Reply(false, HelpText)
    else if cmd == "about" then Reply(false, AboutText)
    else if cmd == "mem" then Reply(false, MemoryMap)
    else if cmd == "clear" then Reply(false, ClearScreen)
    else if cmd == "colors" then Reply(false, Palette)
    else if "echo " <= cmd then Reply(false, Echo(cmd[5..]))
    else if cmd == "shutdown" then Reply(true, Bye)
    else Reply(false, Unknown(cmd))
  }

  class Shell {
    var running: bool
    var buf: string

    constructor ()
      ensures running && buf == []
    {
      running, buf := true, [];
    }

    /** `dispatch`: only "shutdown" changes `running`. */
    method Dispatch(raw: string) returns (out: Output)
      modifies this`running
      ensures var r := Interpret(raw);
        running == (old(running) && !r.stop) && out == r.output
    {
      var cmd := Lower(Strip(raw));
      if cmd == [] {
        return Silent;
      }
      if cmd == "help" {
        out := HelpText;
      } else if cmd == "about" {
        out := AboutText;
      } else if cmd == "mem" {
        out := MemoryMap;
      } else if cmd == "clear" {
        out := ClearScreen;
      } else if cmd == "colors" {
        out := Palette;
      } else if "echo " <= cmd {
        out := Echo(cmd[5..]);
      } else if cmd == "shutdown" {
        out := Bye;
        running := false;
      } else {
        out := Unknown(cmd);
      }
    }

    /** `on_key`: Enter dispatches the buffer and then always empties it; other keys edit it. */
    method OnKey(ch: char) returns (out: Option<Output>)
      modifies this`running, this`buf
      ensures ch == '\n' ==>
        var r := Interpret(old(buf));
        buf == [] && running == (old(running) && !r.stop) && out == Some(r.output)
      ensures ch != '\n' ==> buf == Edit(old(buf), ch) && running == old(running) && out == None
    {
      out := None;
      if ch == '\n' {
        var o := Dispatch(buf);
        out := Some(o);
        buf := [];
      } else if ch == Backspace {
        if buf != [] {
          buf := buf[..|buf| - 1];
        }
      } else {
        buf := buf + [ch];
      }
    }
  }

  /** Echoed text holds no upper-case letter, whatever was typed. */
  lemma EchoIsLowerCase(raw: string)
    requires Interpret(raw).output.Echo?
    ensures NoCapitals(Interpret(raw).output.text)
  {
    var cmd := Normal(raw);
    var t := Interpret(raw).output.text;
    assert t == cmd[5..];
    LowerHasNoCapitals(Strip(raw));
    forall k | 0 <= k < |t|
      ensures !('A' <= t[k] <= 'Z')
    {
      assert t[k] == cmd[k + 5];
    }
  }

  /** "echo " alone is stripped to "echo", which is not a command. */
  lemma BareEchoIsUnknown()
    ensures Interpret("echo ") == Reply(false, Unknown("echo"))
  {
    var s := "echo ";
    assert IsSpace(s[4]) && !IsSpace(s[0]);
    assert Strip(s) == "echo";
    LowerWithoutCapitals("echo");
  }

  /** Upper-case input is a command all the same: "SHUTDOWN" stops the shell. */
  lemma ShutdownInCapitals()
    ensures Interpret("SHUTDOWN").stop
  {
    var s := "SHUTDOWN";
    assert Normal(s) == "shutdown" by {
      assert !IsSpace(s[0]) && !IsSpace(s[|s| - 1]);
      assert Strip(s) == s;
    }
  }
}
