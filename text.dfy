/**
 * The Kotlin string operations the app relies on: `isBlank`, `trim`,
 * `take`, `contains(ignoreCase = true)`, and decimal rendering and
 * reading of whole numbers.
 */
module Text {

  /**
   * Kotlin's `Char.isWhitespace`: TAB through CR, the four information
   * separators FS..US, and the Unicode space (Zs), line (Zl) and
   * paragraph (Zp) separators.
   */
  predicate IsWhitespace(c: char) {
    || ('\t' <= c <= '\r')
    || ('\U{1C}' <= c <= '\U{1F}')
    || c == ' ' || c == '\U{A0}' || c == '\U{1680}'
    || ('\U{2000}' <= c <= '\U{200A}')
    || c == '\U{2028}' || c == '\U{2029}' || c == '\U{202F}' || c == '\U{205F}' || c == '\U{3000}'
  }

  /** `CharSequence.isBlank`: empty, or whitespace only. */
  predicate IsBlank(s: string) {
    forall i :: 0 <= i < |s| ==> IsWhitespace(s[i])
  }

  /** Drops leading whitespace; what is left is a suffix of the input. */
  function TrimStart(s: string): (r: string)
    ensures |r| <= |s| && r == s[|s| - |r|..]
    decreases |s|
  {
    if s != [] && IsWhitespace(s[0]) then
      var r := TrimStart(s[1..]);
      assert s[1..][|s| - 1 - |r|..] == s[|s| - |r|..];
      r
    else s
  }

  /** Everything `TrimStart` drops is whitespace. */
  lemma {:induction false} TrimStartDropsBlanks(s: string)
    ensures forall j :: 0 <= j < |s| - |TrimStart(s)| ==> IsWhitespace(s[j])
    decreases |s|
  {
    if s != [] && IsWhitespace(s[0]) {
      TrimStartDropsBlanks(s[1..]);
      assert forall j :: 1 <= j < |s| ==> s[j] == s[1..][j - 1];
    }
  }

  /** What `TrimStart` keeps starts with a non-blank character. */
  lemma {:induction false} TrimStartKeepsNonBlank(s: string)
    ensures TrimStart(s) == [] || !IsWhitespace(TrimStart(s)[0])
    decreases |s|
  {
    if s != [] && IsWhitespace(s[0]) {
      TrimStartKeepsNonBlank(s[1..]);
    }
  }

  /** Drops trailing whitespace; what is left is a prefix of the input. */
  function TrimEnd(s: string): (r: string)
    ensures |r| <= |s| && r == s[..|r|]
    decreases |s|
  {
    if s != [] && IsWhitespace(s[|s| - 1]) then
      var r := TrimEnd(s[..|s| - 1]);
      assert s[..|s| - 1][..|r|] == s[..|r|];
      r
    else s
  }

  /** Everything `TrimEnd` drops is whitespace. */
  lemma {:induction false} TrimEndDropsBlanks(s: string)
    ensures forall j :: |TrimEnd(s)| <= j < |s| ==> IsWhitespace(s[j])
    decreases |s|
  {
    if s != [] && IsWhitespace(s[|s| - 1]) {
      TrimEndDropsBlanks(s[..|s| - 1]);
      assert forall j :: 0 <= j < |s| - 1 ==> s[j] == s[..|s| - 1][j];
    }
  }

  /** What `TrimEnd` keeps ends with a non-blank character. */
  lemma {:induction false} TrimEndKeepsNonBlank(s: string)
    ensures TrimEnd(s) == [] || !IsWhitespace(TrimEnd(s)[|TrimEnd(s)| - 1])
    decreases |s|
  {
    if s != [] && IsWhitespace(s[|s| - 1]) {
      TrimEndKeepsNonBlank(s[..|s| - 1]);
    }
  }

  /** `String.trim()`: both ends stripped of whitespace. */
  function Trim(s: string): string {
    TrimEnd(TrimStart(s))
  }

  /** The trimmed text is the infix of the input that starts after the leading whitespace. */
  lemma {:induction false} TrimIsInfix(s: string)
    ensures var i := |s| - |TrimStart(s)|; i + |Trim(s)| <= |s| && Trim(s) == s[i..i + |Trim(s)|]
  {
    PrefixOfSuffix(s, TrimStart(s), Trim(s));
  }

  /** The trimmed text neither starts nor ends with whitespace. */
  lemma TrimHasNoOuterWhitespace(s: string)
    ensures Trim(s) == [] || (!IsWhitespace(Trim(s)[0]) && !IsWhitespace(Trim(s)[|Trim(s)| - 1]))
  {
    var a := TrimStart(s);
    var r := TrimEnd(a);
    TrimStartKeepsNonBlank(s);
    TrimEndKeepsNonBlank(a);
    if r != [] {
      assert r[0] == a[0];
    }
  }

  /** A prefix `r` of a suffix `a` of `s` is the slice of `s` where `a` starts. */
  lemma PrefixOfSuffix(s: string, a: string, r: string)
    requires |a| <= |s| && a == s[|s| - |a|..]
    requires |r| <= |a| && r == a[..|r|]
    ensures var i := |s| - |a|; i + |r| <= |s| && r == s[i..i + |r|]
  {
  }

  /** Trimming leaves nothing exactly when the input is blank. */
  lemma TrimEmptyIffBlank(s: string)
    ensures Trim(s) == [] <==> IsBlank(s)
  {
    var a := TrimStart(s);
    if a != [] {
      TrimStartKeepsNonBlank(s);
      assert a[0] == s[|s| - |a|] && !IsWhitespace(a[0]);
      TrimEndDropsBlanks(a);
    } else {
      TrimStartDropsBlanks(s);
    }
  }

  /** `String.take(n)`: the first `n` characters, or all of them when there are fewer. */
  function Take(s: string, n: nat): (r: string)
    ensures |r| <= n && r <= s
    ensures |s| <= n ==> r == s
    ensures |s| > n ==> |r| == n
  {
    if |s| <= n then s else s[..n]
  }

  /**
   * The case fold behind `contains(ignoreCase = true)`, for Latin A-Z and
   * the Cyrillic capitals U+0400..U+042F: each is mapped to its small letter.
   */
  function Fold(c: char): (r: char)
    ensures !('A' <= r <= 'Z') && !('\U{400}' <= r <= '\U{42F}')
    ensures r != c ==> ('A' <= c <= 'Z') || ('\U{400}' <= c <= '\U{42F}')
  {
    if 'A' <= c <= 'Z' then (c as int + 32) as char
    else if '\U{410}' <= c <= '\U{42F}' then (c as int + 32) as char
    else if '\U{400}' <= c <= '\U{40F}' then (c as int + 80) as char
    else c
  }

  /** `q` occurs in `s` at position `i`, character by character up to case. */
  predicate MatchesAt(s: string, q: string, i: nat)
    requires i + |q| <= |s|
  {
    forall j :: 0 <= j < |q| ==> Fold(s[i + j]) == Fold(q[j])
  }

  /** `s.contains(q, ignoreCase = true)`. */
  predicate ContainsIgnoreCase(s: string, q: string) {
    exists i: nat | i + |q| <= |s| :: MatchesAt(s, q, i)
  }

  /** Every string contains itself, and the empty query is contained in everything. */
  lemma ContainsIgnoreCaseBasics(s: string, q: string)
    ensures ContainsIgnoreCase(s, s)
    ensures ContainsIgnoreCase(s, [])
    ensures ContainsIgnoreCase(s, q) ==> |q| <= |s|
  {
    assert MatchesAt(s, s, 0);
    assert MatchesAt(s, [], 0);
  }

  /** Folding twice is folding once. */
  lemma FoldIdempotent(c: char)
    ensures Fold(Fold(c)) == Fold(c)
  {
  }

  /** `s` with every character case-folded. */
  function FoldAll(s: string): (r: string)
    ensures |r| == |s| && forall i :: 0 <= i < |s| ==> r[i] == Fold(s[i])
  {
    seq(|s|, i requires 0 <= i < |s| => Fold(s[i]))
  }

  /** Case does not matter on either side: folding the text or the query first leaves the answer unchanged. */
  lemma ContainsIgnoreCaseIgnoresCase(s: string, q: string)
    ensures ContainsIgnoreCase(FoldAll(s), q) <==> ContainsIgnoreCase(s, q)
    ensures ContainsIgnoreCase(s, FoldAll(q)) <==> ContainsIgnoreCase(s, q)
  {
    var fs, fq := FoldAll(s), FoldAll(q);
    forall i: nat | i + |q| <= |s|
      ensures MatchesAt(fs, q, i) <==> MatchesAt(s, q, i)
      ensures MatchesAt(s, fq, i) <==> MatchesAt(s, q, i)
    {
      forall j | 0 <= j < |q| ensures Fold(fs[i + j]) == Fold(s[i + j]) && Fold(fq[j]) == Fold(q[j]) {
        FoldIdempotent(s[i + j]);
        FoldIdempotent(q[j]);
      }
    }
    if ContainsIgnoreCase(s, q) {
      var i: nat :| i + |q| <= |s| && MatchesAt(s, q, i);
      assert MatchesAt(fs, q, i) && MatchesAt(s, fq, i);
    }
    if ContainsIgnoreCase(fs, q) {
      var i: nat :| i + |q| <= |fs| && MatchesAt(fs, q, i);
      assert MatchesAt(s, q, i);
    }
    if ContainsIgnoreCase(s, fq) {
      var i: nat :| i + |fq| <= |s| && MatchesAt(s, fq, i);
      assert MatchesAt(s, q, i);
    }
  }

  predicate IsDigit(c: char) {
    '0' <= c <= '9'
  }

  predicate AllDigits(s: string) {
    forall i :: 0 <= i < |s| ==> IsDigit(s[i])
  }

  function DigitChar(d: nat): (c: char)
    requires d < 10
    ensures IsDigit(c)
  {
    ('0' as int + d) as char
  }

  function DigitValue(c: char): (d: nat)
    requires IsDigit(c)
    ensures d < 10 && DigitChar(d) == c
  {
    c as int - '0' as int
  }

  /** The number a string of decimal digits denotes (0 for the empty string). */
  function DigitsValue(s: string): nat
    requires AllDigits(s)
  {
    if s == [] then 0 else DigitsValue(s[..|s| - 1]) * 10 + DigitValue(s[|s| - 1])
  }

  function Pow10(n: nat): (p: nat)
    ensures p >= 1
  {
    if n == 0 then 1 else 10 * Pow10(n - 1)
  }

  /** `Int.toString` for a natural number: shortest decimal form, no leading zeros. */
  function NatToString(n: nat): (s: string)
    ensures |s| >= 1 && AllDigits(s)
    ensures |s| > 1 ==> s[0] != '0'
  {
    if n < 10 then [DigitChar(n)] else NatToString(n / 10) + [DigitChar(n % 10)]
  }

  /** `Int.toString` for any integer: a minus sign before the magnitude when negative. */
  function IntToString(n: int): (s: string)
    ensures |s| >= 1
    ensures forall i :: 0 <= i < |s| ==> IsDigit(s[i]) || s[i] == '-'
  {
    if n < 0 then "-" + NatToString(-n) else NatToString(n)
  }

  /** Reading back a rendered natural number gives the number. */
  lemma {:induction false} NatToStringRoundTrip(n: nat)
    ensures DigitsValue(NatToString(n)) == n
  {
    if n >= 10 {
      var s := NatToString(n / 10) + [DigitChar(n % 10)];
      assert s[..|s| - 1] == NatToString(n / 10);
      NatToStringRoundTrip(n / 10);
    }
  }

  /** `n` written with exactly `width` digits, zero-padded on the left (the low digits when `n` is wider). */
  function PadDigits(n: nat, width: nat): (s: string)
    ensures |s| == width && AllDigits(s)
  {
    if width == 0 then [] else PadDigits(n / 10, width - 1) + [DigitChar(n % 10)]
  }

  /** A number that fits in `width` digits is read back from its padded form. */
  lemma {:induction false} PadDigitsRoundTrip(n: nat, width: nat)
    requires n < Pow10(width)
    ensures DigitsValue(PadDigits(n, width)) == n
  {
    if width > 0 {
      var s := PadDigits(n, width);
      var init := PadDigits(n / 10, width - 1);
      assert s[..|s| - 1] == init && s[|s| - 1] == DigitChar(n % 10);
      DigitRoundTrip(n % 10);
      DecimalShift(n / 10, n % 10, Pow10(width - 1));
      PadDigitsRoundTrip(n / 10, width - 1);
    }
  }

  /** A digit string is the padded form of its value at its own width: it has no other spelling of that length. */
  lemma {:induction false} PadDigitsCanonical(s: string)
    requires AllDigits(s)
    ensures DigitsValue(s) < Pow10(|s|)
    ensures PadDigits(DigitsValue(s), |s|) == s
  {
    if s != [] {
      var init := s[..|s| - 1];
      PadDigitsCanonical(init);
      var v := DigitsValue(init);
      var d := DigitValue(s[|s| - 1]);
      DecimalShift(v, d, Pow10(|init|));
      assert s == init + [s[|s| - 1]];
    }
  }

  lemma DigitRoundTrip(d: nat)
    requires d < 10
    ensures DigitValue(DigitChar(d)) == d
  {
  }

  /** Appending digit `d` to the decimal number `v`: division and remainder by ten undo it, and the width grows by one. */
  lemma DecimalShift(v: nat, d: nat, p: nat)
    requires d < 10
    ensures (v * 10 + d) / 10 == v && (v * 10 + d) % 10 == d
    ensures v < p <==> v * 10 + d < 10 * p
  {
  }
}
