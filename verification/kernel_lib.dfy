/**
 * The side-effect-free helpers of kernel.c: NUL-terminated string comparison
 * (`kstrcmp`, `kstrncmp`) and the digits `print_hex` emits.  A C string is a
 * character buffer that holds a NUL; its text is everything before the first
 * NUL.
 */
module KernelLib {
  import opened VgaText

  /** Index of the first NUL. */
  function NulIndex(s: seq<char>): (i: nat)
    requires NUL in s
    ensures i < |s| && s[i] == NUL
    ensures forall k :: 0 <= k < i ==> s[k] != NUL
  {
    if s[0] == NUL then 0 else 1 + NulIndex(s[1..])
  }

  /** The text of a C string. */
  function Text(s: seq<char>): (t: seq<char>)
    requires NUL in s
    ensures NUL !in t && t + [NUL] <= s
  {
    s[..NulIndex(s)]
  }

  /** The text of a string literal is the literal itself. */
  lemma TextOfLiteral(w: seq<char>)
    requires NUL !in w
    ensures NUL in w + [NUL] && Text(w + [NUL]) == w
  {
    var s := w + [NUL];
    assert s[|w|] == NUL;
    var i := NulIndex(s);
    assert forall k :: 0 <= k < |w| ==> s[k] == w[k];
    assert s[..i] == w;
  }

  /** A buffer whose first `n` characters are not NUL and whose `n`-th is holds the text `a[..n]`. */
  lemma TextUpTo(a: seq<char>, n: nat)
    requires n < |a| && a[n] == NUL && NUL !in a[..n]
    ensures NUL in a && Text(a) == a[..n]
  {
    assert forall k :: 0 <= k < n ==> a[k] == a[..n][k];
  }

  /** The first `n` characters of a text (all of it when shorter, none when n <= 0). */
  function Take(t: seq<char>, n: int): seq<char> {
    if n <= 0 then [] else if n < |t| then t[..n] else t
  }

  /** `kstrcmp`: returns 0 exactly when the two texts are equal. */
  method KStrcmp(a: seq<char>, b: seq<char>) returns (r: int)
    requires NUL in a && NUL in b
    ensures r == 0 <==> Text(a) == Text(b)
  {
    var i := 0;
    while a[i] != NUL && a[i] == b[i]
      invariant 0 <= i <= NulIndex(a) && i <= NulIndex(b)
      invariant a[..i] == b[..i]
      decreases NulIndex(a) - i
    {
      i := i + 1;
    }
    r := a[i] as int - b[i] as int;
    assert Text(a)[..i] == a[..i] == b[..i] == Text(b)[..i];
    if a[i] == NUL {
      assert NulIndex(a) == i;
      if b[i] != NUL {
        assert |Text(b)| > i;
      } else {
        assert NulIndex(b) == i;
      }
    } else {
      assert |Text(a)| > i && Text(a)[i] == a[i];
      if b[i] != NUL {
        assert |Text(b)| > i && Text(b)[i] == b[i];
      } else {
        assert NulIndex(b) == i;
      }
    }
  }

  /**
   * `kstrncmp`: returns 0 exactly when the texts agree on their first `n`
   * characters, a text shorter than `n` ending at its NUL.
   */
  method KStrncmp(a: seq<char>, b: seq<char>, n: int) returns (r: int)
    requires NUL in a && NUL in b
    ensures r == 0 <==> Take(Text(a), n) == Take(Text(b), n)
  {
    var i := 0;
    while i < n
      invariant 0 <= i <= NulIndex(a) && i <= NulIndex(b)
      invariant i <= n || i == 0
      invariant a[..i] == b[..i]
    {
      if a[i] != b[i] {
        r := a[i] as int - b[i] as int;
        assert r != 0;
        DifferAt(a, b, n, i);
        return;
      }
      if a[i] == NUL {
        EndTogether(a, b, n, i);
        return 0;
      }
      Agree(a, b, i);
      i := i + 1;
    }
    r := 0;
    if n > 0 {
      AgreeOn(a, b, n);
    }
  }

  /** Texts agreeing before position `i` and on a character other than NUL at it agree one further. */
  lemma Agree(a: seq<char>, b: seq<char>, i: nat)
    requires NUL in a && NUL in b
    requires i <= NulIndex(a) && i <= NulIndex(b) && a[..i] == b[..i] && a[i] == b[i] && a[i] != NUL
    ensures i + 1 <= NulIndex(a) && i + 1 <= NulIndex(b) && a[..i + 1] == b[..i + 1]
  {
    assert a[..i + 1] == a[..i] + [a[i]] && b[..i + 1] == b[..i] + [b[i]];
  }

  /** Texts agreeing before position `i < n` and differing at it differ on their first `n` characters. */
  lemma DifferAt(a: seq<char>, b: seq<char>, n: int, i: nat)
    requires NUL in a && NUL in b
    requires i < n && i <= NulIndex(a) && i <= NulIndex(b) && a[..i] == b[..i] && a[i] != b[i]
    ensures Take(Text(a), n) != Take(Text(b), n)
  {
    assert Text(a)[..i] == a[..i] == b[..i] == Text(b)[..i];
    if a[i] == NUL {
      assert NulIndex(a) == i && |Text(b)| > i;
      assert |Take(Text(a), n)| == i < |Take(Text(b), n)|;
    } else if b[i] == NUL {
      assert NulIndex(b) == i && |Text(a)| > i;
      assert |Take(Text(b), n)| == i < |Take(Text(a), n)|;
    } else {
      assert Take(Text(a), n)[i] == a[i] && Take(Text(b), n)[i] == b[i];
    }
  }

  /** Texts agreeing before position `i` and both ending there are equal. */
  lemma EndTogether(a: seq<char>, b: seq<char>, n: int, i: nat)
    requires NUL in a && NUL in b
    requires i <= NulIndex(a) && i <= NulIndex(b) && a[..i] == b[..i] && a[i] == NUL && b[i] == NUL
    ensures Take(Text(a), n) == Take(Text(b), n)
  {
    assert NulIndex(a) == i && NulIndex(b) == i;
  }

  /** Texts at least `n` long agreeing on their first `n` characters. */
  lemma AgreeOn(a: seq<char>, b: seq<char>, n: nat)
    requires NUL in a && NUL in b
    requires 0 < n <= NulIndex(a) && n <= NulIndex(b) && a[..n] == b[..n]
    ensures Take(Text(a), n) == Take(Text(b), n)
  {
    assert Text(a)[..n] == a[..n] == b[..n] == Text(b)[..n];
  }

  /** `strncmp`-style prefix test: the text starts with the literal `w`. */
  lemma PrefixCompare(a: seq<char>, w: seq<char>)
    requires NUL in a && NUL !in w
    ensures NUL in w + [NUL]
    ensures Take(Text(a), |w|) == Take(Text(w + [NUL]), |w|) <==> w <= Text(a)
  {
    TextOfLiteral(w);
  }

  // ---- print_hex ----

  const HexAlphabet: seq<Ascii> := "0123456789ABCDEF"

  /** `val >> 4k`: k shifts right by one hexadecimal digit. */
  function Shift(val: nat, k: nat): nat {
    if k == 0 then val else Shift(val / 16, k - 1)
  }

  /** The k-th hexadecimal digit of `val`, counted from the least significant: `(val >> 4k) & 0xF`. */
  function Nibble(val: nat, k: nat): (d: nat)
    ensures d < 16
  {
    Shift(val, k) % 16
  }

  /** The eight digits `print_hex` emits after "0x", most significant first. */
  function HexDigits(val: nat): (s: seq<Ascii>)
    ensures |s| == 8
    ensures forall j :: 0 <= j < 8 ==> s[j] in HexAlphabet
  {
    seq(8, j requires 0 <= j < 8 => HexAlphabet[Nibble(val, 7 - j)])
  }

  /** The value of one upper-case hexadecimal digit. */
  function DigitValue(c: char): (v: nat)
    requires c in HexAlphabet
    ensures v < 16 && HexAlphabet[v] == c
  {
    if '0' <= c <= '9' then c as int - '0' as int else c as int - 'A' as int + 10
  }

  /** The number a string of hexadecimal digits denotes, most significant first. */
  function HexValue(s: seq<char>): nat
    requires forall j :: 0 <= j < |s| ==> s[j] in HexAlphabet
  {
    if s == [] then 0 else HexValue(s[..|s| - 1]) * 16 + DigitValue(s[|s| - 1])
  }

  lemma DigitValueOf(d: nat)
    requires d < 16
    ensures DigitValue(HexAlphabet[d]) == d
  {
  }

  /** Shifting once more divides by 16. */
  lemma {:induction false} ShiftStep(val: nat, k: nat)
    ensures Shift(val, k + 1) == Shift(val, k) / 16
  {
    if k > 0 {
      ShiftStep(val / 16, k - 1);
    }
  }

  /** A 32-bit value has no ninth hexadecimal digit. */
  lemma ShiftOut(val: nat)
    requires val < 0x1_0000_0000
    ensures Shift(val, 8) == 0
  {
    var v1 := val / 16;
    var v2 := v1 / 16;
    var v3 := v2 / 16;
    var v4 := v3 / 16;
    var v5 := v4 / 16;
    var v6 := v5 / 16;
    var v7 := v6 / 16;
    assert Shift(val, 8) == Shift(v1, 7) == Shift(v2, 6) == Shift(v3, 5) == Shift(v4, 4);
    assert Shift(v4, 4) == Shift(v5, 3) == Shift(v6, 2) == Shift(v7, 1) == Shift(v7 / 16, 0);
  }

  /** The digit at position j of `print_hex`'s output is the nibble 7 - j. */
  lemma HexDigitAt(val: nat, j: nat)
    requires j < 8
    ensures HexDigits(val)[j] == HexAlphabet[Nibble(val, 7 - j)]
  {
  }

  /** The first n digits denote the value shifted right by 8 - n digits. */
  lemma {:induction false} HexPrefixValue(val: nat, n: nat)
    requires n <= 8 && val < 0x1_0000_0000
    ensures HexValue(HexDigits(val)[..n]) == Shift(val, 8 - n)
  {
    var s := HexDigits(val);
    if n == 0 {
      ShiftOut(val);
    } else {
      var prefix, x := s[..n], Shift(val, 8 - n);
      assert prefix[..n - 1] == s[..n - 1];
      HexPrefixValue(val, n - 1);
      ShiftStep(val, 8 - n);
      HexDigitAt(val, n - 1);
      assert prefix[n - 1] == HexAlphabet[x % 16];
      DigitValueOf(x % 16);
      assert HexValue(prefix) == x / 16 * 16 + x % 16;
    }
  }

  /** `print_hex`'s digits, read back, give the 32-bit value printed. */
  lemma HexRoundTrip(val: nat)
    requires val < 0x1_0000_0000
    ensures HexValue(HexDigits(val)) == val
  {
    HexPrefixValue(val, 8);
    assert HexDigits(val)[..8] == HexDigits(val);
  }
}
