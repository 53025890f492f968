/**
 * Apps/Terminal/main.py: the ScutoidOS terminal.  The fields the source
 * updates (`command_buffer`, `history`, `history_index`, `running`,
 * `current_dir`) are fields of `Terminal`; what a command prints is returned
 * as an `Output` event instead of being written to the screen.
 */
module AppsTerminal {
  import opened Wrappers
  import opened PyStr
  import opened ShellPath
  import opened LineEdit

  /** What a command prints. */
  datatype Output =
    | Silent
    | HelpText
    | ClearScreen
    | Listing(dir: string)
    | WorkingDir(dir: string)
    | Echo(text: string)
    | SystemName
    | Date
    | AppList
    | NotFound(command: string)

  /** The effect of one command line: the new directory, whether the terminal stops, and what it prints. */
  datatype Outcome = Outcome(dir: string, stop: bool, output: Output)

  /**
   * `execute_command` as a value.  A line without words does nothing;
   * otherwise the lower-cased first word is the command and the other words
   * its arguments.
   */
  function Interpret(raw: string, dir: string): (o: Outcome)
    ensures Words(raw) == [] ==> o == Outcome(dir, false, Silent)
    ensures Words(raw) != [] ==> o == Run(CommandWord(raw), Words(raw)[1..], dir)
  {
    var parts := Words(raw);
    if parts == [] then Outcome(dir, false, Silent)
    else Run(Lower(parts[0]), parts[1..], dir)
  }

  /** A line without words does nothing; only exit/quit stop the terminal and only cd moves it. */
  lemma InterpretEffects(raw: string, dir: string)
    ensures var o := Interpret(raw, dir);
      && (Words(raw) == [] ==> o == Outcome(dir, false, Silent))
      && (o.stop <==> CommandWord(raw) == "exit" || CommandWord(raw) == "quit")
      && (o.dir != dir ==> CommandWord(raw) == "cd")
      && (CommandWord(raw) == "cd" ==> o.dir == ChangeDir(dir, Words(raw)[1..]) && o.output == Silent)
  {
  }

  /** The command chain of `execute_command`: only exit/quit stop the terminal and only cd moves it. */
  function Run(command: string, args: seq<string>, dir: string): (o: Outcome)
    ensures o.stop <==> command == "exit" || command == "quit"
    ensures o.dir != dir ==> command == "cd"
    ensures command == "cd" ==> o.dir == ChangeDir(dir, args) && o.output == Silent
  {
    if command == "help" then Outcome(dir, false, HelpText)
    else if command == "clear" || command == "cls" then Outcome(dir, false, ClearScreen)
    else if command == "ls" then Outcome(dir, false, Listing(dir))
    else if command == "cd" then Outcome(ChangeDir(dir, args), false, Silent)
    else if command == "pwd" then Outcome(dir, false, WorkingDir(dir))
    else if command == "echo" then Outcome(dir, false, Echo(Join(args, " ")))
    else if command == "uname" then Outcome(dir, false, SystemName)
    else if command == "date" then Outcome(dir, false, Date)
    else if command == "apps" then Outcome(dir, false, AppList)
    else if command == "exit" || command == "quit" then Outcome(dir, true, Silent)
    else Outcome(dir, false, NotFound(command))
  }

  class Terminal {
    var commandBuffer: string
    var history: seq<string>
    var historyIndex: int
    var running: bool
    var currentDir: string

    constructor ()
      ensures commandBuffer == [] && history == [] && historyIndex == 0
      ensures running && currentDir == HomeDir
    {
      commandBuffer, history, historyIndex := [], [], 0;
      running, currentDir := true, HomeDir;
    }

    /** `cmd_cd`. */
    method CmdCd(args: seq<string>)
      modifies this`currentDir
      ensures currentDir == ChangeDir(old(currentDir), args)
    {
      if args == [] {
        currentDir := HomeDir;
      } else if args[0] == ".." {
        if currentDir != "/" {
          var parts := SplitOn(StripRightChar(currentDir, '/'), '/');
          var joined := Join(parts[..|parts| - 1], "/");
          currentDir := if joined == [] then "/" else joined;
        }
      } else if args[0] == "/" {
        currentDir := "/";
      } else if "/" <= args[0] {
        currentDir := args[0];
      } else {
        currentDir := CollapseSlashes(currentDir + "/" + args[0]);
      }
    }

    /** `execute_command`: changes `running` and `current_dir` as `Interpret` says. */
    method ExecuteCommand(cmd: string) returns (out: Output)
      modifies this`running, this`currentDir
      ensures var o := Interpret(cmd, old(currentDir));
        currentDir == o.dir && running == (old(running) && !o.stop) && out == o.output
    {
      var parts := Words(cmd);
      if parts == [] {
        return Silent;
      }
      var command := Lower(parts[0]);
      var args := parts[1..];
      out := Dispatch(command, args);
    }

    /** The command chain of `execute_command`, on the lower-cased command word and the remaining words. */
    method Dispatch(command: string, args: seq<string>) returns (out: Output)
      modifies this`running, this`currentDir
      ensures var o := Run(command, args, old(currentDir));
        currentDir == o.dir && running == (old(running) && !o.stop) && out == o.output
    {
      if command == "help" {
        out := HelpText;
      } else if command == "clear" || command == "cls" {
        out := ClearScreen;
      } else if command == "ls" {
        out := Listing(currentDir);
      } else if command == "cd" {
        CmdCd(args);
        out := Silent;
      } else if command == "pwd" {
        out := WorkingDir(currentDir);
      } else if command == "echo" {
        out := Echo(Join(args, " "));
      } else if command == "uname" {
        out := SystemName;
      } else if command == "date" {
        out := Date;
      } else if command == "apps" {
        out := AppList;
      } else if command == "exit" || command == "quit" {
        running := false;
        out := Silent;
      } else {
        out := NotFound(command);
      }
    }

    /**
     * `handle_keyboard`: Enter on a non-empty buffer records it in the
     * history, runs it and empties the buffer; Enter on an empty buffer
     * changes nothing; every other key edits the buffer and nothing else.
     */
    method HandleKeyboard(ch: char) returns (out: Option<Output>)
      modifies this`commandBuffer, this`history, this`running, this`currentDir
      ensures ch == '\n' && old(commandBuffer) != [] ==>
        var o := Interpret(old(commandBuffer), old(currentDir));
        && history == old(history) + [old(commandBuffer)] && commandBuffer == []
        && currentDir == o.dir && running == (old(running) && !o.stop) && out == Some(o.output)
      ensures ch == '\n' && old(commandBuffer) == [] ==>
        && commandBuffer == [] && history == old(history)
        && currentDir == old(currentDir) && running == old(running) && out == None
      ensures ch != '\n' ==>
        && commandBuffer == Edit(old(commandBuffer), ch) && history == old(history)
        && currentDir == old(currentDir) && running == old(running) && out == None
    {
      out := None;
      if ch == '\n' {
        if commandBuffer != [] {
          var o := Submit();
          out := Some(o);
        }
      } else if ch == Backspace {
        if commandBuffer != [] {
          commandBuffer := commandBuffer[..|commandBuffer| - 1];
        }
      } else {
        commandBuffer := commandBuffer + [ch];
      }
    }

    /** Enter on a non-empty line: record it in the history, run it, empty the buffer. */
    method Submit() returns (out: Output)
      modifies this`commandBuffer, this`history, this`running, this`currentDir
      ensures var o := Interpret(old(commandBuffer), old(currentDir));
        && history == old(history) + [old(commandBuffer)] && commandBuffer == []
        && currentDir == o.dir && running == (old(running) && !o.stop) && out == o.output
    {
      history := history + [commandBuffer];
      out := ExecuteCommand(commandBuffer);
      commandBuffer := [];
    }
  }

  /** A blank or all-whitespace line does nothing. */
  lemma BlankLineDoesNothing(raw: string, dir: string)
    requires Blank(raw)
    ensures Interpret(raw, dir) == Outcome(dir, false, Silent)
  {
    BlankHasNoWords(raw);
  }

  /** The command word is lower-cased, so "EXIT" stops the terminal. */
  lemma ExitInCapitalsStops(dir: string)
    ensures Interpret("EXIT", dir).stop
  {
    ExitInCapitals();
  }

  /** A command the terminal does not know keeps the directory and the terminal running, and names itself. */
  lemma UnknownCommandChangesNothing(raw: string, dir: string)
    requires Words(raw) != []
    requires CommandWord(raw) !in {"help", "clear", "cls", "ls", "cd", "pwd", "echo", "uname", "date", "apps", "exit", "quit"}
    ensures Interpret(raw, dir) == Outcome(dir, false, NotFound(CommandWord(raw)))
  {
  }
}
