/**
 * The Python `str` operations the ScutoidOS apps use on command lines and
 * paths: `strip()`, `split()`, `split(sep)`, `sep.join(...)`, `lower()`,
 * `rstrip(ch)` and `replace('//', '/')`.  Python strings are sequences of
 * code points, here `string`.
 */
module PyStr {

  /**
   * The whitespace of MicroPython's `strip()` and `split()`: space, tab,
   * newline, vertical tab, form feed and carriage return.  No other
   * character counts, not even the further Unicode spaces CPython knows.
   */
  predicate IsSpace(c: char) {
    c == ' ' || '\t' <= c <= '\r'
  }

  predicate NoSpace(s: string) {
    forall k :: 0 <= k < |s| ==> !IsSpace(s[k])
  }

  /** Every character of `s` is whitespace. */
  predicate Blank(s: string) {
    forall k :: 0 <= k < |s| ==> IsSpace(s[k])
  }

  /** No ASCII capital letter occurs in `s`. */
  predicate NoCapitals(s: string) {
    forall k :: 0 <= k < |s| ==> !('A' <= s[k] <= 'Z')
  }

  /** `s.lstrip()`. */
  function StripLeft(s: string): (r: string)
    ensures |r| <= |s| && r == s[|s| - |r|..]
    ensures forall k :: 0 <= k < |s| - |r| ==> IsSpace(s[k])
    ensures r == [] || !IsSpace(r[0])
  {
    if s != [] && IsSpace(s[0]) then StripLeft(s[1..]) else s
  }

  /** `s.rstrip()`. */
  function StripRight(s: string): (r: string)
    ensures |r| <= |s| && r == s[..|r|]
    ensures forall k :: |r| <= k < |s| ==> IsSpace(s[k])
    ensures r == [] || !IsSpace(r[|r| - 1])
  {
    if s != [] && IsSpace(s[|s| - 1]) then StripRight(s[..|s| - 1]) else s
  }

  /**
   * `s.strip()`: neither starts nor ends with whitespace, and a string that
   * does neither is left as it is.
   */
  function Strip(s: string): (r: string)
    ensures |r| <= |s|
    ensures |r| <= |StripLeft(s)| && r == StripLeft(s)[..|r|]
    ensures r == [] || (!IsSpace(r[0]) && !IsSpace(r[|r| - 1]))
    ensures (s == [] || (!IsSpace(s[0]) && !IsSpace(s[|s| - 1]))) ==> r == s
  {
    StripEnds(s);
    StripUnchanged(s);
    StripRight(StripLeft(s))
  }

  /** `s.strip()` neither starts nor ends with whitespace. */
  lemma StripEnds(s: string)
    ensures var r := StripRight(StripLeft(s));
      r == [] || (!IsSpace(r[0]) && !IsSpace(r[|r| - 1]))
  {
    var l := StripLeft(s);
    var r := StripRight(l);
    if r != [] {
      assert r[0] == l[0];
    }
  }

  /** A string that neither starts nor ends with whitespace is its own `lstrip()` and `rstrip()`. */
  lemma StripUnchanged(s: string)
    ensures (s == [] || (!IsSpace(s[0]) && !IsSpace(s[|s| - 1]))) ==> StripLeft(s) == s && StripRight(s) == s
  {
    if s != [] && !IsSpace(s[0]) && !IsSpace(s[|s| - 1]) {
      assert StripLeft(s) == s;
      assert StripRight(s) == s;
    }
  }

  /** Length of the leading run of characters that are not whitespace. */
  function WordLen(s: string): (n: nat)
    ensures n <= |s| && NoSpace(s[..n])
    ensures n == |s| || IsSpace(s[n])
  {
    if s == [] || IsSpace(s[0]) then 0 else 1 + WordLen(s[1..])
  }

  /**
   * `s.split()`: the maximal runs of non-whitespace characters, in order.
   * There are at most as many words as characters, a string without
   * whitespace is one word, and a string of whitespace has none.
   */
  function Split(s: string): (r: seq<string>)
    ensures |r| <= |s|
    ensures s != [] && NoSpace(s) ==> r == [s]
    ensures Blank(s) ==> r == []
  {
    if s == [] then []
    else if IsSpace(s[0]) then Split(s[1..])
    else
      var n := WordLen(s);
      assert NoSpace(s) ==> s[..n] == s && s[n..] == [];
      [s[..n]] + Split(s[n..])
  }

  /** `sep.join(ws)`: empty for no words, the word itself for one, at least one separator between two words. */
  function Join(ws: seq<string>, sep: string): (r: string)
    ensures ws == [] ==> r == []
    ensures |ws| == 1 ==> r == ws[0]
    ensures |ws| >= 2 ==> |r| >= |ws[0]| + |sep| + |ws[|ws| - 1]|
  {
    if ws == [] then []
    else if |ws| == 1 then ws[0]
    else ws[0] + sep + Join(ws[1..], sep)
  }

  /** Index of the first occurrence of `d`. */
  function IndexOf(s: string, d: char): (i: nat)
    requires d in s
    ensures i < |s| && s[i] == d && d !in s[..i]
  {
    if s[0] == d then 0 else 1 + IndexOf(s[1..], d)
  }

  /** Index of the last occurrence of `d`. */
  function LastIndexOf(s: string, d: char): (i: nat)
    requires d in s
    ensures i < |s| && s[i] == d && d !in s[i + 1..]
  {
    if s[|s| - 1] == d then |s| - 1 else LastIndexOf(s[..|s| - 1], d)
  }

  /** `s.split(d)`: the pieces between the occurrences of `d`, empty ones included. */
  function SplitOn(s: string, d: char): (parts: seq<string>)
    ensures |parts| >= 1
    decreases |s|
  {
    if d !in s then [s]
    else
      var i := IndexOf(s, d);
      [s[..i]] + SplitOn(s[i + 1..], d)
  }

  /** `c.lower()` for ASCII letters; other characters are left alone. */
  function LowerChar(c: char): char {
    if 'A' <= c <= 'Z' then (c as int + 32) as char else c
  }

  /** `s.lower()`, character by character. */
  function Lower(s: string): (r: string)
    ensures |r| == |s|
    ensures forall i :: 0 <= i < |s| ==> r[i] == LowerChar(s[i])
  {
    seq(|s|, i requires 0 <= i < |s| => LowerChar(s[i]))
  }

  /** `s.rstrip(d)`. */
  function StripRightChar(s: string, d: char): (r: string)
    ensures |r| <= |s| && r == s[..|r|]
    ensures forall k :: |r| <= k < |s| ==> s[k] == d
    ensures r == [] || r[|r| - 1] != d
  {
    if s != [] && s[|s| - 1] == d then StripRightChar(s[..|s| - 1], d) else s
  }

  /** No "//" occurs in `s`. */
  predicate NoPair(s: string) {
    forall k :: 0 <= k < |s| - 1 ==> !(s[k] == '/' && s[k + 1] == '/')
  }

  /** `s.replace('//', '/')`: Python scans left to right and replaces non-overlapping pairs. */
  function CollapseSlashes(s: string): (r: string)
    ensures |r| <= |s|
  {
    if |s| >= 2 && s[0] == '/' && s[1] == '/' then "/" + CollapseSlashes(s[2..])
    else if s == [] then []
    else [s[0]] + CollapseSlashes(s[1..])
  }

  // ---- properties ----

  /** Every word `split()` returns is non-empty and holds no whitespace. */
  lemma {:induction false} SplitWords(s: string)
    ensures forall i :: 0 <= i < |Split(s)| ==> Split(s)[i] != [] && NoSpace(Split(s)[i])
  {
    if s != [] {
      if IsSpace(s[0]) {
        SplitWords(s[1..]);
      } else {
        var n := WordLen(s);
        SplitWords(s[n..]);
      }
    }
  }

  /** The word at the front of `w + rest` is `w` when `w` has no whitespace and `rest` starts with some. */
  lemma {:induction false} WordLenOf(w: string, rest: string)
    requires NoSpace(w) && (rest == [] || IsSpace(rest[0]))
    ensures WordLen(w + rest) == |w|
  {
    if w != [] {
      assert (w + rest)[1..] == w[1..] + rest;
      WordLenOf(w[1..], rest);
    } else {
      assert w + rest == rest;
    }
  }

  /**
   * Joining non-empty words without whitespace by single spaces and
   * splitting again gives the words back.
   */
  lemma {:induction false} SplitJoin(ws: seq<string>)
    requires forall i :: 0 <= i < |ws| ==> ws[i] != [] && NoSpace(ws[i])
    ensures Split(Join(ws, " ")) == ws
  {
    if |ws| >= 2 {
      SplitWordSpace(ws[0], Join(ws[1..], " "));
      SplitJoin(ws[1..]);
    }
  }

  /** A word followed by a space splits into that word and the split of the rest. */
  lemma SplitWordSpace(w: string, rest: string)
    requires w != [] && NoSpace(w)
    ensures Split(w + " " + rest) == [w] + Split(rest)
  {
    var s := w + " " + rest;
    assert s == w + (" " + rest);
    WordLenOf(w, " " + rest);
    assert s[..|w|] == w;
    assert s[|w|..] == [' '] + rest;
    assert ([' '] + rest)[1..] == rest;
  }

  /** No piece of `s.split(d)` holds `d`. */
  lemma {:induction false} SplitOnPieces(s: string, d: char)
    ensures forall i :: 0 <= i < |SplitOn(s, d)| ==> d !in SplitOn(s, d)[i]
    decreases |s|
  {
    if d in s {
      var i := IndexOf(s, d);
      SplitOnPieces(s[i + 1..], d);
    }
  }

  /** Splitting on `d` and joining with `d` gives the string back. */
  lemma {:induction false} JoinSplitOn(s: string, d: char)
    ensures Join(SplitOn(s, d), [d]) == s
    decreases |s|
  {
    if d in s {
      var i := IndexOf(s, d);
      var head, tail := s[..i], s[i + 1..];
      JoinSplitOn(tail, d);
      SplitOnCons(s, d);
      JoinCons(head, SplitOn(tail, d), [d]);
      Around(s, i);
    }
  }

  /** A string is the part before position `i`, the character there, and the part after it. */
  lemma Around(s: string, i: nat)
    requires i < |s|
    ensures s == s[..i] + [s[i]] + s[i + 1..]
  {
  }

  /** A prefix reaching past position `i` is the part before `i`, `s[i]`, and the start of the part after it. */
  lemma SliceAround(s: string, i: nat, j: nat)
    requires i + 1 + j <= |s|
    ensures s[..i + 1 + j] == s[..i] + [s[i]] + s[i + 1..][..j]
  {
    var a, b := s[..i + 1 + j], s[..i] + [s[i]] + s[i + 1..][..j];
    assert |a| == |b|;
    forall k | 0 <= k < |a|
      ensures a[k] == b[k]
    {
      if k > i {
        assert b[k] == s[i + 1..][..j][k - i - 1];
      }
    }
  }

  /** Joining a word in front of at least one more. */
  lemma JoinCons(a: string, xs: seq<string>, sep: string)
    requires xs != []
    ensures Join([a] + xs, sep) == a + sep + Join(xs, sep)
  {
    assert ([a] + xs)[1..] == xs;
  }

  /** `s.split(d)` on a string holding `d`: the part before the first `d`, then the split of the rest. */
  lemma SplitOnCons(s: string, d: char)
    requires d in s
    ensures var i := IndexOf(s, d);
      SplitOn(s, d) == [s[..i]] + SplitOn(s[i + 1..], d) && |SplitOn(s, d)| >= 2
  {
  }

  /** Joining at least two words: the join of all but the last, the separator, the last word. */
  lemma {:induction false} JoinSnoc(ws: seq<string>, sep: string)
    requires |ws| >= 2
    ensures Join(ws, sep) == Join(ws[..|ws| - 1], sep) + sep + ws[|ws| - 1]
  {
    var init := ws[..|ws| - 1];
    assert init[1..] == ws[1..][..|ws| - 2];
    if |ws| > 2 {
      JoinSnoc(ws[1..], sep);
    }
  }

  /**
   * Joining all pieces of `s.split(d)` but the last gives `s` up to its last
   * `d` (nothing when there is no `d`).
   */
  lemma JoinAllButLast(s: string, d: char)
    ensures var parts := SplitOn(s, d);
      Join(parts[..|parts| - 1], [d]) == if d in s then s[..LastIndexOf(s, d)] else []
  {
    var parts := SplitOn(s, d);
    if d in s {
      SplitOnCons(s, d);
      var front, last := Join(parts[..|parts| - 1], [d]), parts[|parts| - 1];
      JoinSnoc(parts, [d]);
      JoinSplitOn(s, d);
      SplitOnPieces(s, d);
      BeforeLast(s, d, front, last);
    }
  }

  /** The last `d` of `s` is the last `d` of what follows the first one, when there is one there. */
  lemma LastIndexInTail(s: string, d: char, i: nat)
    requires d in s && i == IndexOf(s, d)
    ensures d in s[i + 1..] ==> LastIndexOf(s, d) == i + 1 + LastIndexOf(s[i + 1..], d)
    ensures d !in s[i + 1..] ==> LastIndexOf(s, d) == i
  {
    var l := LastIndexOf(s, d);
    var tail := s[i + 1..];
    if d in tail {
      var j := LastIndexOf(tail, d);
      assert s[i + 1 + j] == d;
    }
  }

  /** The last `d` of `a + [d] + b` is the one between them when `b` holds none. */
  lemma LastIndexBefore(a: string, d: char, b: string)
    requires d !in b
    ensures d in a + [d] + b && LastIndexOf(a + [d] + b, d) == |a|
  {
    var s := a + [d] + b;
    assert s[|a|] == d;
  }

  /** When `s` is `front`, `d`, then a `last` without `d`, the part before the last `d` is `front`. */
  lemma BeforeLast(s: string, d: char, front: string, last: string)
    requires s == front + [d] + last && d !in last
    ensures d in s && s[..LastIndexOf(s, d)] == front
  {
    LastIndexBefore(front, d, last);
    assert s[..|front|] == front;
  }

  /** A string without capital letters is its own lower case. */
  lemma LowerWithoutCapitals(s: string)
    requires NoCapitals(s)
    ensures Lower(s) == s
  {
    assert forall k :: 0 <= k < |s| ==> Lower(s)[k] == s[k];
  }

  /** A lower-cased string holds no capital letter. */
  lemma LowerHasNoCapitals(s: string)
    ensures NoCapitals(Lower(s))
  {
    forall k | 0 <= k < |s|
      ensures !('A' <= Lower(s)[k] <= 'Z')
    {
      assert Lower(s)[k] == LowerChar(s[k]);
    }
  }

  /** Lower-casing is idempotent. */
  lemma LowerIdempotent(s: string)
    ensures Lower(Lower(s)) == Lower(s)
  {
  }

  /** Lower-casing keeps whitespace where it was. */
  lemma LowerKeepsSpaces(c: char)
    ensures IsSpace(LowerChar(c)) <==> IsSpace(c)
  {
  }

  /** A string without "//" is left alone by the replacement. */
  lemma {:induction false} CollapseWithoutPairs(s: string)
    requires NoPair(s)
    ensures CollapseSlashes(s) == s
  {
    if s != [] {
      CollapseWithoutPairs(s[1..]);
    }
  }

  /**
   * The replacement at the first "//": when `a` holds no "//" and does not
   * end in '/', `a` is kept, the pair becomes one '/', and the replacement
   * goes on after the pair.  Every string either holds no "//" or is
   * `a + "//" + b` for such an `a`, so with `CollapseWithoutPairs` this
   * determines the result on every string.
   */
  lemma {:induction false} CollapseFirstPair(a: string, b: string)
    requires NoPair(a + "/")
    ensures CollapseSlashes(a + "//" + b) == a + "/" + CollapseSlashes(b)
    decreases |a|
  {
    var s := a + "//" + b;
    if a == [] {
      assert s[..2] == "//" && s[2..] == b;
    } else {
      var a' := a[1..];
      assert (a + "/")[0] == s[0] && (a + "/")[1] == s[1];
      assert a' + "/" == (a + "/")[1..];
      assert s[1..] == a' + "//" + b;
      assert CollapseSlashes(s) == [s[0]] + CollapseSlashes(s[1..]);
      CollapseFirstPair(a', b);
      assert [a[0]] + (a' + "/" + CollapseSlashes(b)) == a + "/" + CollapseSlashes(b);
    }
  }

  /**
   * Only whitespace lies on either side of `s.strip()`: `s` is the
   * whitespace `lstrip()` skips, `s.strip()`, and the whitespace dropped.
   */
  lemma StripShape(s: string)
    ensures var i, r := |s| - |StripLeft(s)|, Strip(s);
      && (forall k :: 0 <= k < i ==> IsSpace(s[k]))
      && (forall k :: i + |r| <= k < |s| ==> IsSpace(s[k]))
  {
    var l := StripLeft(s);
    var i := |s| - |l|;
    var r := Strip(s);
    forall k | i + |r| <= k < |s|
      ensures IsSpace(s[k])
    {
      assert s[k] == l[k - i];
    }
  }

  /** One pass only: three slashes become two, not one. */
  lemma CollapseIsOnePass()
    ensures CollapseSlashes("///") == "//"
  {
    assert "///"[2..] == "/";
    assert "/"[1..] == "";
  }
}
