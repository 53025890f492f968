/**
 * Apps/Calculator/main.py: the calculator's fields `display_text`,
 * `current_value`, `operation`, `stored_value` and `new_number` belong to
 * `Calculator`.  Number entry, clearing and the key dispatch are modelled;
 * the floating-point step `handle_operation` is not, and the handlers report
 * where it would run instead.
 */
module AppsCalculator {
  import opened Wrappers
  import opened CalcEntry

  /** What `handle_input` reports: keep going, stop, or the arithmetic step for an operator (None for '='). */
  datatype Reply = Continue | Quit | Arithmetic(op: Option<char>)

  class Calculator {
    var displayText: string
    var currentValue: real
    var operation: Option<char>
    var storedValue: real
    var newNumber: bool

    constructor ()
      ensures displayText == "0" && currentValue == 0.0 && operation == None
      ensures storedValue == 0.0 && newNumber
    {
      displayText, currentValue, operation := "0", 0.0, None;
      storedValue, newNumber := 0.0, true;
    }

    /** `handle_digit`. */
    method HandleDigit(digit: char)
      requires IsDigit(digit)
      modifies this`displayText, this`newNumber
      ensures (displayText, newNumber) == Digit(old(displayText), old(newNumber), digit)
    {
      if newNumber {
        displayText := [digit];
        newNumber := false;
      } else {
        if |displayText| < MaxDisplay {
          if displayText == "0" {
            displayText := [digit];
          } else {
            displayText := displayText + [digit];
          }
        }
      }
    }

    /** `handle_decimal`. */
    method HandleDecimal()
      modifies this`displayText, this`newNumber
      ensures (displayText, newNumber) == Decimal(old(displayText), old(newNumber))
    {
      if '.' !in displayText {
        if newNumber {
          displayText := "0.";
          newNumber := false;
        } else {
          displayText := displayText + ".";
        }
      }
    }

    /** `handle_equals`: with no pending operation nothing happens; with one, the arithmetic step is due. */
    method HandleEquals() returns (r: Reply)
      ensures r == if operation == None then Continue else Arithmetic(None)
    {
      if operation != None {
        r := Arithmetic(None);
      } else {
        r := Continue;
      }
    }

    /** `handle_clear`: back to the start-up state, whatever the state was. */
    method HandleClear()
      modifies this`displayText, this`currentValue, this`operation, this`storedValue, this`newNumber
      ensures displayText == "0" && currentValue == 0.0 && operation == None
      ensures storedValue == 0.0 && newNumber
    {
      displayText := "0";
      currentValue := 0.0;
      operation := None;
      storedValue := 0.0;
      newNumber := true;
    }

    /**
     * `handle_input`: only 'q'/'Q' answer False (Quit); keys that are not
     * handled leave every field as it was.
     */
    method HandleInput(ch: char) returns (r: Reply)
      modifies this`displayText, this`currentValue, this`operation, this`storedValue, this`newNumber
      ensures r == Quit <==> KeyOf(ch) == QuitKey
      ensures KeyOf(ch) == DigitKey ==>
        && (displayText, newNumber) == Digit(old(displayText), old(newNumber), ch)
        && currentValue == old(currentValue) && operation == old(operation) && storedValue == old(storedValue)
        && r == Continue
      ensures KeyOf(ch) == PointKey ==>
        && (displayText, newNumber) == Decimal(old(displayText), old(newNumber))
        && currentValue == old(currentValue) && operation == old(operation) && storedValue == old(storedValue)
        && r == Continue
      ensures KeyOf(ch) == ClearKey ==>
        && displayText == "0" && currentValue == 0.0 && operation == None && storedValue == 0.0 && newNumber
        && r == Continue
      ensures KeyOf(ch) == OperatorKey ==> r == Arithmetic(Some(ch)) && unchanged(this)
      ensures KeyOf(ch) == EqualsKey ==>
        && r == (if old(operation) == None then Continue else Arithmetic(None)) && unchanged(this)
      ensures KeyOf(ch) in {QuitKey, OtherKey} ==> unchanged(this)
    {
      r := Continue;
      if ch in "0123456789" {
        HandleDigit(ch);
      } else if ch == '.' {
        HandleDecimal();
      } else if ch in "+-*/" {
        r := Arithmetic(Some(ch));
      } else if ch == '=' || ch == '\n' {
        r := HandleEquals();
      } else if ch == 'c' || ch == 'C' {
        HandleClear();
      } else if ch == 'q' || ch == 'Q' {
        r := Quit;
      }
    }
  }
}
