/**
 * Number entry in the two Calculator programs (Apps/Calculator/main.py and
 * programs/Calculator/main.py, which agree on it): the display string, the
 * "next digit starts a new number" flag, and how a key is classified.
 */
module CalcEntry {

  /** Digits are appended only while the display is shorter than this. */
  const MaxDisplay := 15

  predicate IsDigit(c: char) {
    '0' <= c <= '9'
  }

  /**
   * A number as typed: digits and at most one '.', with no leading zero in
   * front of another digit ("0", "12", "0.", "3.14", "120").
   */
  predicate Typed(s: string) {
    && s != []
    && (forall k :: 0 <= k < |s| ==> IsDigit(s[k]) || s[k] == '.')
    && (forall i, j :: 0 <= i < j < |s| && s[i] == '.' ==> s[j] != '.')
    && !(|s| >= 2 && s[0] == '0' && IsDigit(s[1]))
  }

  /** The calculator's entry invariant: either a new number is due, or the display is a typed number. */
  predicate Entry(display: string, newNumber: bool) {
    newNumber || Typed(display)
  }

  /**
   * A digit key.  A new number starts with the digit; otherwise the digit
   * replaces a lone "0" or is appended, but only while the display is
   * shorter than 15 characters.
   */
  function Digit(display: string, newNumber: bool, d: char): (r: (string, bool))
    requires IsDigit(d)
    ensures !r.1
    ensures newNumber ==> r.0 == [d]
    ensures !newNumber && |display| < MaxDisplay ==> r.0 == if display == "0" then [d] else display + [d]
    ensures |r.0| > |display| ==> |r.0| <= MaxDisplay
    ensures !newNumber && |display| >= MaxDisplay ==> r.0 == display
    ensures Entry(display, newNumber) ==> Entry(r.0, r.1)
  {
    if newNumber then ([d], false)
    else if |display| < MaxDisplay then
      (if display == "0" then [d] else display + [d], false)
    else (display, false)
  }

  /**
   * The '.' key.  Nothing happens when the display already holds a '.';
   * otherwise a new number starts as "0." and a number being typed gets a
   * '.' appended (whatever its length).
   */
  function Decimal(display: string, newNumber: bool): (r: (string, bool))
    ensures '.' in r.0
    ensures '.' in display ==> r == (display, newNumber)
    ensures '.' !in display ==> !r.1 && r.0 == if newNumber then "0." else display + "."
    ensures Entry(display, newNumber) ==> Entry(r.0, r.1)
  {
    if '.' !in display then
      if newNumber then ("0.", false) else (display + ".", false)
    else (display, newNumber)
  }

  /** What a key does, in the order the handlers test it. */
  datatype Key = DigitKey | PointKey | OperatorKey | EqualsKey | ClearKey | QuitKey | OtherKey

  function KeyOf(ch: char): (k: Key)
    ensures k == DigitKey <==> IsDigit(ch)
    ensures k == QuitKey <==> ch == 'q' || ch == 'Q'
    ensures k == OperatorKey <==> ch in "+-*/"
  {
    if ch in "0123456789" then DigitKey
    else if ch == '.' then PointKey
    else if ch in "+-*/" then OperatorKey
    else if ch == '=' || ch == '\n' then EqualsKey
    else if ch == 'c' || ch == 'C' then ClearKey
    else if ch == 'q' || ch == 'Q' then QuitKey
    else OtherKey
  }

  /** The decimal key is idempotent. */
  lemma DecimalTwice(display: string, newNumber: bool)
    ensures var r := Decimal(display, newNumber);
      Decimal(r.0, r.1) == r
  {
  }

  /** Digits typed one after another stop being appended at 15 characters. */
  function DigitsTyped(display: string, newNumber: bool, ds: string): (r: (string, bool))
    requires forall k :: 0 <= k < |ds| ==> IsDigit(ds[k])
    ensures ds != [] ==> !r.1
    ensures |display| <= MaxDisplay ==> |r.0| <= MaxDisplay
  {
    if ds == [] then (display, newNumber)
    else
      var prev := DigitsTyped(display, newNumber, ds[..|ds| - 1]);
      Digit(prev.0, prev.1, ds[|ds| - 1])
  }

  /** From a cleared display, typing digits shows exactly them, up to fifteen and leading zeros dropped. */
  lemma {:induction false} TypedDigits(ds: string)
    requires forall k :: 0 <= k < |ds| ==> '1' <= ds[k] <= '9'
    ensures DigitsTyped("0", true, ds).0 == if ds == [] then "0" else ds[..if |ds| < MaxDisplay then |ds| else MaxDisplay]
  {
    if ds != [] {
      var init := ds[..|ds| - 1];
      TypedDigits(init);
      if init != [] {
        var shown := DigitsTyped("0", true, init);
        assert shown.0 != "0" by {
          assert shown.0[0] == ds[0];
        }
        if |init| < MaxDisplay {
          assert ds[..|ds|] == init + [ds[|ds| - 1]];
        }
      }
    }
  }

  /** From a cleared display, digits and then the '.' key show the digits followed by a '.'. */
  lemma PointAfterTypedDigits(ds: string)
    requires ds != [] && |ds| <= MaxDisplay
    requires forall k :: 0 <= k < |ds| ==> '1' <= ds[k] <= '9'
    ensures var typed := DigitsTyped("0", true, ds);
      Decimal(typed.0, typed.1) == (ds + ".", false)
  {
    TypedDigits(ds);
    assert ds[..|ds|] == ds;
    assert '.' !in ds;
  }

  /**
   * After a computed result that holds a '.', the '.' key does nothing and
   * the next digit replaces the result: ".5" typed after "2.5" shows "5".
   */
  lemma DecimalAfterDottedResult()
    ensures var r := Decimal("2.5", true);
      r == ("2.5", true) && Digit(r.0, r.1, '5').0 == "5"
  {
    assert "2.5"[1] == '.';
  }

  /** A '.' after fifteen digits is still appended: the display can reach 16 characters. */
  lemma DecimalIgnoresCap()
    ensures |Decimal("123456789012345", false).0| == 16
  {
    var s := "123456789012345";
    assert forall k :: 0 <= k < |s| ==> s[k] != '.';
  }
}
