/**
 * programs/Calculator/main.py: the calculator's fields `display`, `op`,
 * `stored` and `fresh` (here `freshNumber`, as `fresh` is a Dafny keyword)
 * belong to `Calc`.  Number entry, clearing and the key dispatch are modelled;
 * the floating-point step `operate` is not, and the handlers report
 * where it would run instead.
 */
module ProgramsCalculator {
  import opened Wrappers
  import CalcEntry

  /** What `handle` reports: keep going, stop, or the arithmetic step for an operator (None for '='). */
  datatype Reply = Continue | Quit | Arithmetic(op: Option<char>)

  class Calc {
    var display: string
    var op: Option<char>
    var stored: real
    var freshNumber: bool

    constructor ()
      ensures display == "0" && op == None && stored == 0.0 && freshNumber
    {
      display, op, stored, freshNumber := "0", None, 0.0, true;
    }

    /** `digit`. */
    method Digit(d: char)
      requires CalcEntry.IsDigit(d)
      modifies this`display, this`freshNumber
      ensures (display, freshNumber) == CalcEntry.Digit(old(display), old(freshNumber), d)
    {
      if freshNumber {
        display := [d];
        freshNumber := false;
      } else if |display| < CalcEntry.MaxDisplay {
        display := if display == "0" then [d] else display + [d];
      }
    }

    /** `decimal`. */
    method Decimal()
      modifies this`display, this`freshNumber
      ensures (display, freshNumber) == CalcEntry.Decimal(old(display), old(freshNumber))
    {
      if '.' !in display {
        if freshNumber {
          display := "0.";
          freshNumber := false;
        } else {
          display := display + ".";
        }
      }
    }

    /** `equals`: with no pending operator nothing happens; with one, the arithmetic step is due. */
    method Equals() returns (r: Reply)
      ensures r == if op == None then Continue else Arithmetic(None)
    {
      if op != None {
        r := Arithmetic(None);
      } else {
        r := Continue;
      }
    }

    /** `clear`: back to the start-up state, whatever the state was. */
    method Clear()
      modifies this`display, this`op, this`stored, this`freshNumber
      ensures display == "0" && op == None && stored == 0.0 && freshNumber
    {
      display := "0";
      op := None;
      stored := 0.0;
      freshNumber := true;
    }

    /**
     * `handle`: only 'q'/'Q' answer False (Quit); keys that are not handled
     * leave every field as it was.
     */
    method Handle(ch: char) returns (r: Reply)
      modifies this`display, this`op, this`stored, this`freshNumber
      ensures r == Quit <==> CalcEntry.KeyOf(ch) == CalcEntry.QuitKey
      ensures CalcEntry.KeyOf(ch) == CalcEntry.DigitKey ==>
        && (display, freshNumber) == CalcEntry.Digit(old(display), old(freshNumber), ch)
        && op == old(op) && stored == old(stored) && r == Continue
      ensures CalcEntry.KeyOf(ch) == CalcEntry.PointKey ==>
        && (display, freshNumber) == CalcEntry.Decimal(old(display), old(freshNumber))
        && op == old(op) && stored == old(stored) && r == Continue
      ensures CalcEntry.KeyOf(ch) == CalcEntry.ClearKey ==>
        display == "0" && op == None && stored == 0.0 && freshNumber && r == Continue
      ensures CalcEntry.KeyOf(ch) == CalcEntry.OperatorKey ==> r == Arithmetic(Some(ch)) && unchanged(this)
      ensures CalcEntry.KeyOf(ch) == CalcEntry.EqualsKey ==>
        r == (if old(op) == None then Continue else Arithmetic(None)) && unchanged(this)
      ensures CalcEntry.KeyOf(ch) in {CalcEntry.QuitKey, CalcEntry.OtherKey} ==> unchanged(this)
    {
      r := Continue;
      if ch in "0123456789" {
        Digit(ch);
      } else if ch == '.' {
        Decimal();
      } else if ch in "+-*/" {
        r := Arithmetic(Some(ch));
      } else if ch == '=' || ch == '\n' {
        r := Equals();
      } else if ch == 'c' || ch == 'C' {
        Clear();
      } else if ch == 'q' || ch == 'Q' {
        r := Quit;
      }
    }
  }
}
