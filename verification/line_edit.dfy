/**
 * The command-line buffer of the Python shells (Apps/Terminal,
 * programs/Terminal and the MicroPython `Shell` in main.py): every key but
 * Enter edits a Python string, and Enter hands the buffer to the command
 * interpreter, which splits it into words.
 */
module LineEdit {
  import opened PyStr

  /** Python's '\b'. */
  const Backspace: char := 8 as char

  /** A key other than Enter: backspace drops the last character if there is one, anything else is appended. */
  function Edit(buf: string, ch: char): (r: string)
    requires ch != '\n'
    ensures ch == Backspace ==> r <= buf && |r| == (if buf == [] then 0 else |buf| - 1)
    ensures ch != Backspace ==> |r| == |buf| + 1 && r[..|buf|] == buf && r[|buf|] == ch
  {
    if ch == Backspace then (if buf != [] then buf[..|buf| - 1] else buf)
    else buf + [ch]
  }

  /** Typing a character and then backspace gives the line back. */
  lemma TypeThenErase(buf: string, ch: char)
    requires ch != '\n' && ch != Backspace
    ensures Edit(Edit(buf, ch), Backspace) == buf
  {
    assert (buf + [ch])[..|buf|] == buf;
  }

  /** Typing a string key by key builds exactly that string after the buffer. */
  function TypeAll(buf: string, keys: string): (r: string)
    requires '\n' !in keys && Backspace !in keys
    ensures r == buf + keys
  {
    if keys == [] then buf
    else
      assert keys == keys[..|keys| - 1] + [keys[|keys| - 1]];
      Edit(TypeAll(buf, keys[..|keys| - 1]), keys[|keys| - 1])
  }

  /**
   * `raw.strip().split()`: the words of a command line, none of them empty
   * or holding whitespace, at most one per character.
   */
  function Words(raw: string): (r: seq<string>)
    ensures |r| <= |raw|
    ensures forall i :: 0 <= i < |r| ==> r[i] != [] && NoSpace(r[i])
  {
    SplitWords(Strip(raw));
    Split(Strip(raw))
  }

  /** The lower-cased command word: empty exactly when the line has no word, else the first word lower-cased. */
  function CommandWord(raw: string): (r: string)
    ensures r == [] <==> Words(raw) == []
    ensures Words(raw) != [] ==>
      |r| == |Words(raw)[0]| && forall i :: 0 <= i < |r| ==> r[i] == LowerChar(Words(raw)[0][i])
  {
    var ws := Words(raw);
    if ws == [] then [] else Lower(ws[0])
  }

  /** A line of whitespace has no words. */
  lemma {:induction false} BlankHasNoWords(raw: string)
    requires Blank(raw)
    ensures Words(raw) == []
  {
    assert StripLeft(raw) == [];
  }

  /** A single word with no surrounding whitespace is its own split. */
  lemma SingleWord(w: string)
    requires w != [] && NoSpace(w)
    ensures Words(w) == [w]
  {
    SplitJoin([w]);
  }

  /** "EXIT" is the command word "exit": the command word ignores case. */
  lemma ExitInCapitals()
    ensures CommandWord("EXIT") == "exit"
  {
    var w := "EXIT";
    assert CommandWord(w) == Lower(w) by {
      SingleWord(w);
    }
    assert Lower(w) == "exit" by {
      var l := Lower(w);
      assert l[0] == 'e' && l[1] == 'x' && l[2] == 'i' && l[3] == 't';
    }
  }
}
