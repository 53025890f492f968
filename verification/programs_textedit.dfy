/**
 * programs/TextEdit/main.py: the editor's `lines` (a Python list changed in
 * place) and `cur` are fields of `TextEdit`.  Drawing and saving are not
 * part of this model.
 */
module ProgramsTextEdit {
  import opened LineEdit
  import TextBuffer

  class TextEdit {
    var lines: seq<string>
    var cur: int
    var fname: string

    constructor ()
      ensures lines == [] && cur == 0 && fname == "untitled.txt"
      ensures TextBuffer.Valid(lines, cur)
    {
      lines, cur, fname := [], 0, "untitled.txt";
    }

    /** `insert`: one key applied to the buffer; the editor invariant is kept. */
    method Insert(ch: char)
      requires TextBuffer.Valid(lines, cur)
      modifies this`lines, this`cur
      ensures TextBuffer.Valid(lines, cur)
      ensures (lines, cur) == TextBuffer.InsertKey(old(lines), old(cur), ch)
    {
      if lines == [] {
        lines := lines + [""];
      }
      assert lines == TextBuffer.Started(old(lines));
      if ch == '\n' {
        cur := cur + 1;
        lines := lines[..cur] + [""] + lines[cur..];
      } else if ch == Backspace {
        if lines[cur] != [] {
          lines := lines[cur := lines[cur][..|lines[cur]| - 1]];
        }
      } else {
        lines := lines[cur := lines[cur] + [ch]];
      }
    }
  }
}
