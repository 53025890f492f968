/**
 * programs/Terminal/main.py: the compact terminal shipped as a program.  Its
 * fields `buf`, `history`, `running` and `cwd` are fields of `Terminal`; what
 * a command prints is returned as an `Output` event.  Unlike the Apps
 * terminal it has no `date` command and answers an unknown one with "? cmd".
 */
module ProgramsTerminal {
  import opened Wrappers
  import opened PyStr
  import opened ShellPath
  import opened LineEdit

  /** What a command prints. */
  datatype Output =
    | Silent
    | HelpText
    | ClearScreen
    | Listing(dir: string)
    | WorkingDir(dir: string)
    | Echo(text: string)
    | SystemName
    | AppList
    | Unknown(command: string)

  /** The effect of one command line: the new directory, whether the terminal stops, and what it prints. */
  datatype Outcome = Outcome(dir: string, stop: bool, output: Output)

  /**
   * `exec` as a value.  A line without words does nothing; otherwise the
   * lower-cased first word is the command and the other words its arguments.
   */
  function Interpret(raw: string, dir: string): (o: Outcome)
    ensures Words(raw) == [] ==> o == Outcome(dir, false, Silent)
    ensures Words(raw) != [] ==> o == Run(CommandWord(raw), Words(raw)[1..], dir)
  {
    var parts := Words(raw);
    if parts == [] then Outcome(dir, false, Silent)
    else Run(Lower(parts[0]), parts[1..], dir)
  }

  /** A line without words does nothing; only exit/quit stop the terminal and only cd moves it. */
  lemma InterpretEffects(raw: string, dir: string)
    ensures var o := Interpret(raw, dir);
      && (Words(raw) == [] ==> o == Outcome(dir, false, Silent))
      && (o.stop <==> CommandWord(raw) == "exit" || CommandWord(raw) == "quit")
      && (o.dir != dir ==> CommandWord(raw) == "cd")
      && (CommandWord(raw) == "cd" ==> o.dir == ChangeDir(dir, Words(raw)[1..]) && o.output == Silent)
  {
  }

  /** The command chain of `exec`: only exit/quit stop the terminal and only cd moves it. */
  function Run(command: string, args: seq<string>, dir: string): (o: Outcome)
    ensures o.stop <==> command == "exit" || command == "quit"
    ensures o.dir != dir ==> command == "cd"
    ensures command == "cd" ==> o.dir == ChangeDir(dir, args) && o.output == Silent
  {
    if command == "help" then Outcome(dir, false, HelpText)
    else if command == "clear" || command == "cls" then Outcome(dir, false, ClearScreen)
    else if command == "ls" then Outcome(dir, false, Listing(dir))
    else if command == "cd" then Outcome(ChangeDir(dir, args), false, Silent)
    else if command == "pwd" then Outcome(dir, false, WorkingDir(dir))
    else if command == "echo" then Outcome(dir, false, Echo(Join(args, " ")))
    else if command == "uname" then Outcome(dir, false, SystemName)
    else if command == "apps" then Outcome(dir, false, AppList)
    else if command == "exit" || command == "quit" then Outcome(dir, true, Silent)
    else Outcome(dir, false, Unknown(command))
  }

  class Terminal {
    var buf: string
    var history: seq<string>
    var running: bool
    var cwd: string

    constructor ()
      ensures buf == [] && history == [] && running && cwd == HomeDir
    {
      buf, history, running, cwd := [], [], true, HomeDir;
    }

    /** `do_cd`. */
    method DoCd(args: seq<string>)
      modifies this`cwd
      ensures cwd == ChangeDir(old(cwd), args)
    {
      if args == [] {
        cwd := HomeDir;
      } else if args[0] == ".." {
        if cwd != "/" {
          var parts := SplitOn(StripRightChar(cwd, '/'), '/');
          var joined := Join(parts[..|parts| - 1], "/");
          cwd := if joined == [] then "/" else joined;
        }
      } else if args[0] == "/" {
        cwd := "/";
      } else if "/" <= args[0] {
        cwd := args[0];
      } else {
        cwd := CollapseSlashes(cwd + "/" + args[0]);
      }
    }

    /** `exec`: changes `running` and `cwd` as `Interpret` says. */
    method Exec(cmd: string) returns (out: Output)
      modifies this`running, this`cwd
      ensures var o := Interpret(cmd, old(cwd));
        cwd == o.dir && running == (old(running) && !o.stop) && out == o.output
    {
      var parts := Words(cmd);
      if parts == [] {
        return Silent;
      }
      var command := Lower(parts[0]);
      var args := parts[1..];
      out := Dispatch(command, args);
    }

    /** The command chain of `exec`, on the lower-cased command word and the remaining words. */
    method Dispatch(command: string, args: seq<string>) returns (out: Output)
      modifies this`running, this`cwd
      ensures var o := Run(command, args, old(cwd));
        cwd == o.dir && running == (old(running) && !o.stop) && out == o.output
    {
      if command == "help" {
        out := HelpText;
      } else if command == "clear" || command == "cls" {
        out := ClearScreen;
      } else if command == "ls" {
        out := Listing(cwd);
      } else if command == "cd" {
        DoCd(args);
        out := Silent;
      } else if command == "pwd" {
        out := WorkingDir(cwd);
      } else if command == "echo" {
        out := Echo(Join(args, " "));
      } else if command == "uname" {
        out := SystemName;
      } else if command == "apps" {
        out := AppList;
      } else if command == "exit" || command == "quit" {
        running := false;
        out := Silent;
      } else {
        out := Unknown(command);
      }
    }

    /**
     * `on_key`: Enter on a non-empty buffer records it in the
     * history, runs it and empties the buffer; Enter on an empty buffer
     * changes nothing; every other key edits the buffer and nothing else.
     */
    method OnKey(ch: char) returns (out: Option<Output>)
      modifies this`buf, this`history, this`running, this`cwd
      ensures ch == '\n' && old(buf) != [] ==>
        var o := Interpret(old(buf), old(cwd));
        && history == old(history) + [old(buf)] && buf == []
        && cwd == o.dir && running == (old(running) && !o.stop) && out == Some(o.output)
      ensures ch == '\n' && old(buf) == [] ==>
        && buf == [] && history == old(history)
        && cwd == old(cwd) && running == old(running) && out == None
      ensures ch != '\n' ==>
        && buf == Edit(old(buf), ch) && history == old(history)
        && cwd == old(cwd) && running == old(running) && out == None
    {
      out := None;
      if ch == '\n' {
        if buf != [] {
          var o := Submit();
          out := Some(o);
        }
      } else if ch == Backspace {
        if buf != [] {
          buf := buf[..|buf| - 1];
        }
      } else {
        buf := buf + [ch];
      }
    }

    /** Enter on a non-empty line: record it in the history, run it, empty the buffer. */
    method Submit() returns (out: Output)
      modifies this`buf, this`history, this`running, this`cwd
      ensures var o := Interpret(old(buf), old(cwd));
        && history == old(history) + [old(buf)] && buf == []
        && cwd == o.dir && running == (old(running) && !o.stop) && out == o.output
    {
      history := history + [buf];
      out := Exec(buf);
      buf := [];
    }
  }

  /** A blank or all-whitespace line does nothing. */
  lemma BlankLineDoesNothing(raw: string, dir: string)
    requires Blank(raw)
    ensures Interpret(raw, dir) == Outcome(dir, false, Silent)
  {
    BlankHasNoWords(raw);
  }

  /** The command word is lower-cased, so "EXIT" stops the terminal. */
  lemma ExitInCapitalsStops(dir: string)
    ensures Interpret("EXIT", dir).stop
  {
    ExitInCapitals();
  }

  /** "date" is not a command here: it changes nothing and is answered as unknown. */
  lemma NoDateCommand(args: seq<string>, dir: string)
    ensures Run("date", args, dir) == Outcome(dir, false, Unknown("date"))
  {
    RunUnknown("date", args, dir);
  }

  /** A command word the terminal does not know keeps the directory and the terminal running, and names itself. */
  lemma RunUnknown(command: string, args: seq<string>, dir: string)
    requires command !in {"help", "clear", "cls", "ls", "cd", "pwd", "echo", "uname", "apps", "exit", "quit"}
    ensures Run(command, args, dir) == Outcome(dir, false, Unknown(command))
  {
  }
}
