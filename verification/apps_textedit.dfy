/**
 * Apps/TextEdit/main.py: the editor's `buffer` (a Python list changed in
 * place) and `current_line` are fields of `TextEdit`.  Drawing the buffer
 * and saving it to a file are not part of this model.
 */
module AppsTextEdit {
  import opened LineEdit
  import TextBuffer

  class TextEdit {
    var buffer: seq<string>
    var currentLine: int
    var filename: string

    constructor ()
      ensures buffer == [] && currentLine == 0 && filename == "untitled.txt"
      ensures TextBuffer.Valid(buffer, currentLine)
    {
      buffer, currentLine, filename := [], 0, "untitled.txt";
    }

    /** `insert_char`: one key applied to the buffer; the editor invariant is kept. */
    method InsertChar(ch: char)
      requires TextBuffer.Valid(buffer, currentLine)
      modifies this`buffer, this`currentLine
      ensures TextBuffer.Valid(buffer, currentLine)
      ensures (buffer, currentLine) == TextBuffer.InsertKey(old(buffer), old(currentLine), ch)
    {
      if |buffer| == 0 {
        buffer := buffer + [""];
      }
      assert buffer == TextBuffer.Started(old(buffer));
      if ch == '\n' {
        currentLine := currentLine + 1;
        buffer := buffer[..currentLine] + [""] + buffer[currentLine..];
      } else if ch == Backspace {
        if |buffer[currentLine]| > 0 {
          buffer := buffer[currentLine := buffer[currentLine][..|buffer[currentLine]| - 1]];
        }
      } else {
        buffer := buffer[currentLine := buffer[currentLine] + [ch]];
      }
    }
  }
}
