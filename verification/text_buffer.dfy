/**
 * The line buffer of the two TextEdit programs (`TextEdit.insert_char` in
 * Apps/TextEdit/main.py, `TextEdit.insert` in programs/TextEdit/main.py):
 * a list of lines and the index of the current one, edited one key at a
 * time.  Enter opens an empty line after the current one and moves to it,
 * backspace shortens the current line, any other key is appended to it.
 */
module TextBuffer {
  import opened LineEdit

  /** The editor's invariant: an empty buffer at line 0, or a current line inside the buffer. */
  predicate Valid(lines: seq<string>, cur: int) {
    (lines == [] && cur == 0) || 0 <= cur < |lines|
  }

  /** The buffer once the first key has been seen: an empty buffer gains one empty line. */
  function Started(lines: seq<string>): (r: seq<string>)
    ensures r != [] && (lines != [] ==> r == lines)
  {
    if lines == [] then [""] else lines
  }

  /**
   * One key.  Enter inserts "" just after the current line and moves there,
   * so the lines up to the current one stay and the later ones shift by one;
   * any other key changes the current line only, as the line editor does
   * (backspace never joins two lines).
   */
  function InsertKey(lines: seq<string>, cur: int, ch: char): (r: (seq<string>, int))
    requires Valid(lines, cur)
    ensures Valid(r.0, r.1) && r.0 != []
    ensures ch == '\n' ==>
      var b := Started(lines);
      && r.1 == cur + 1 && |r.0| == |b| + 1
      && r.0[..cur + 1] == b[..cur + 1] && r.0[cur + 1] == "" && r.0[cur + 2..] == b[cur + 1..]
    ensures ch != '\n' ==>
      var b := Started(lines);
      && r.1 == cur && |r.0| == |b| && r.0[cur] == Edit(b[cur], ch)
      && forall i :: 0 <= i < |b| && i != cur ==> r.0[i] == b[i]
  {
    var b := Started(lines);
    if ch == '\n' then
      var r := b[..cur + 1] + [""] + b[cur + 1..];
      assert r[cur + 2..] == b[cur + 1..];
      (r, cur + 1)
    else if ch == Backspace then
      (if |b[cur]| > 0 then b[cur := b[cur][..|b[cur]| - 1]] else b, cur)
    else
      (b[cur := b[cur] + [ch]], cur)
  }

  /** The buffer after a run of keys. */
  function InsertKeys(lines: seq<string>, cur: int, keys: string): (r: (seq<string>, int))
    requires Valid(lines, cur)
    ensures Valid(r.0, r.1)
  {
    if keys == [] then (lines, cur)
    else
      var prev := InsertKeys(lines, cur, keys[..|keys| - 1]);
      InsertKey(prev.0, prev.1, keys[|keys| - 1])
  }

  /** How many Enter keys a run holds. */
  function Newlines(keys: string): nat {
    if keys == [] then 0
    else Newlines(keys[..|keys| - 1]) + (if keys[|keys| - 1] == '\n' then 1 else 0)
  }

  /** Starting from an empty editor, a non-empty run of keys leaves one line more than it has Enter keys. */
  lemma {:induction false} LineCount(keys: string)
    requires keys != []
    ensures |InsertKeys([], 0, keys).0| == Newlines(keys) + 1
  {
    var init := keys[..|keys| - 1];
    var prev := InsertKeys([], 0, init);
    if init != [] {
      LineCount(init);
      assert prev.0 == InsertKey(InsertKeys([], 0, init[..|init| - 1]).0, InsertKeys([], 0, init[..|init| - 1]).1, init[|init| - 1]).0;
      assert Started(prev.0) == prev.0;
    } else {
      assert prev == ([], 0);
    }
  }

  /** Typing a character and then backspace gives the started buffer back. */
  lemma TypeThenErase(lines: seq<string>, cur: int, ch: char)
    requires Valid(lines, cur) && ch != '\n' && ch != Backspace
    ensures var r := InsertKey(lines, cur, ch);
      InsertKey(r.0, r.1, Backspace) == (Started(lines), cur)
  {
    var b := Started(lines);
    var r := InsertKey(lines, cur, ch);
    LineEdit.TypeThenErase(b[cur], ch);
    assert r.0 == b[cur := b[cur] + [ch]];
    var line := r.0[cur];
    assert line[..|line| - 1] == b[cur];
    assert r.0[cur := b[cur]] == b;
  }

  /** Backspace straight after Enter removes nothing: the new empty line stays. */
  lemma EnterThenBackspace(lines: seq<string>, cur: int)
    requires Valid(lines, cur)
    ensures var r := InsertKey(lines, cur, '\n');
      InsertKey(r.0, r.1, Backspace) == r
  {
  }
}
