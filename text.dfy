/**
 * The pieces of Python string handling the bot relies on: `str.strip()`,
 * slicing `text[k:]`, `str(n)` of a non-negative int and `int(s)` of a
 * string of ASCII digits.
 */
module Text {

  /** The characters Python's `str.isspace()` accepts, which `str.strip()` removes. */
  predicate IsSpace(c: char)
    ensures c == ' ' || c == '\t' || c == '\n' || c == '\r' ==> IsSpace(c)
    ensures IsSpace(c) ==> !IsDigit(c)
  {
    || c == ' '
    || ('\t' <= c <= '\r')
    || ('\U{1C}' <= c <= '\U{1F}')
    || c == '\U{85}' || c == '\U{A0}' || c == '\U{1680}'
    || ('\U{2000}' <= c <= '\U{200A}')
    || c == '\U{2028}' || c == '\U{2029}' || c == '\U{202F}' || c == '\U{205F}' || c == '\U{3000}'
  }

  predicate AllSpace(s: string)
  {
    forall k :: 0 <= k < |s| ==> IsSpace(s[k])
  }

  /** Python's `s[k:]` for k >= 0: empty when k is past the end. */
  function Drop(s: string, k: nat): (r: string)
    ensures k <= |s| ==> r == s[k..]
    ensures k > |s| ==> r == []
  {
    if k <= |s| then s[k..] else []
  }

  /** The first position from `i` on that does not hold whitespace, or |s|. */
  function SkipSpaces(s: string, i: nat): (j: nat)
    requires i <= |s|
    ensures i <= j <= |s|
    ensures forall k :: i <= k < j ==> IsSpace(s[k])
    ensures j < |s| ==> !IsSpace(s[j])
    decreases |s| - i
  {
    if i < |s| && IsSpace(s[i]) then SkipSpaces(s, i + 1) else i
  }

  /** The last position from `j` down, but not below `lo`, that follows a non-space, or `lo`. */
  function TrimSpaces(s: string, lo: nat, j: nat): (e: nat)
    requires lo <= j <= |s|
    ensures lo <= e <= j
    ensures forall k :: e <= k < j ==> IsSpace(s[k])
    ensures e > lo ==> !IsSpace(s[e - 1])
    decreases j
  {
    if j > lo && IsSpace(s[j - 1]) then TrimSpaces(s, lo, j - 1) else j
  }

  /** Where the stripped text starts inside `s`. */
  function StripOffset(s: string): (i: nat)
    ensures i <= |s|
  {
    SkipSpaces(s, 0)
  }

  /**
   * `str.strip()`: the text between the leading and the trailing whitespace.
   * It is empty exactly when `s` is all whitespace; otherwise it neither
   * starts nor ends with whitespace, and it sits in `s` at StripOffset(s)
   * with only whitespace around it.
   */
  function Strip(s: string): (r: string)
    ensures r == [] <==> AllSpace(s)
    ensures r != [] ==> !IsSpace(r[0]) && !IsSpace(r[|r| - 1])
    ensures StripOffset(s) + |r| <= |s| && s[StripOffset(s)..StripOffset(s) + |r|] == r
    ensures forall k :: 0 <= k < StripOffset(s) ==> IsSpace(s[k])
    ensures forall k :: StripOffset(s) + |r| <= k < |s| ==> IsSpace(s[k])
  {
    var i := SkipSpaces(s, 0);
    s[i..TrimSpaces(s, i, |s|)]
  }

  /** Stripping twice removes nothing more. */
  lemma StripIdempotent(s: string)
    ensures Strip(Strip(s)) == Strip(s)
  {
    var r := Strip(s);
    if r != [] {
      assert SkipSpaces(r, 0) == 0;
      assert TrimSpaces(r, 0, |r|) == |r|;
      assert r[0..|r|] == r;
    }
  }

  /** Non-empty, and neither starting nor ending with whitespace: what `str.strip()` leaves. */
  predicate Trimmed(r: string)
  {
    r != [] && !IsSpace(r[0]) && !IsSpace(r[|r| - 1])
  }

  /** Leading whitespace before a word is exactly what SkipSpaces passes over. */
  lemma {:induction false} SkipPadding(sep: string, r: string, i: nat)
    requires AllSpace(sep) && r != [] && !IsSpace(r[0]) && i <= |sep|
    ensures SkipSpaces(sep + r, i) == |sep|
    decreases |sep| - i
  {
    if i < |sep| {
      assert (sep + r)[i] == sep[i];
      SkipPadding(sep, r, i + 1);
    } else {
      assert (sep + r)[i] == r[0];
    }
  }

  /** Stripping whitespace followed by a word with no whitespace at either end gives the word. */
  lemma StripPadded(sep: string, r: string)
    requires AllSpace(sep) && Trimmed(r)
    ensures Strip(sep + r) == r
  {
    var s := sep + r;
    SkipPadding(sep, r, 0);
    assert s[|s| - 1] == r[|r| - 1];
    assert TrimSpaces(s, |sep|, |s|) == |s|;
    assert s[|sep|..|s|] == r;
  }

  predicate IsDigit(c: char)
  {
    '0' <= c <= '9'
  }

  /** A non-empty string of ASCII digits (the callback pattern `^\d+$`). */
  predicate IsDigits(s: string)
  {
    |s| > 0 && forall k :: 0 <= k < |s| ==> IsDigit(s[k])
  }

  /** What `str(n)` prints: no leading zero unless the number is 0 itself. */
  predicate IsCanonicalDecimal(s: string)
  {
    IsDigits(s) && (s[0] != '0' || |s| == 1)
  }

  function DigitChar(d: nat): (c: char)
    requires d < 10
    ensures IsDigit(c)
  {
    ['0', '1', '2', '3', '4', '5', '6', '7', '8', '9'][d]
  }

  function DigitValue(c: char): (d: nat)
    requires IsDigit(c)
    ensures d < 10
  {
    (c as int - '0' as int) as nat
  }

  lemma DigitRoundTrip(d: nat)
    requires d < 10
    ensures DigitValue(DigitChar(d)) == d
  {
  }

  /** `str(n)` for a non-negative int. */
  function NatToDecimal(n: nat): (s: string)
    ensures IsCanonicalDecimal(s)
    ensures n > 0 ==> s[0] != '0'
  {
    if n < 10 then [DigitChar(n)] else NatToDecimal(n / 10) + [DigitChar(n % 10)]
  }

  /** `int(s)` for a string of ASCII digits. */
  function DecimalToNat(s: string): (n: nat)
    requires IsDigits(s)
    ensures n >= DigitValue(s[0])
  {
    if |s| == 1 then DigitValue(s[0]) else DecimalToNat(s[..|s| - 1]) * 10 + DigitValue(s[|s| - 1])
  }

  /** `int(str(n)) == n`. */
  lemma {:induction false} DecimalRoundTrip(n: nat)
    ensures DecimalToNat(NatToDecimal(n)) == n
  {
    var s := NatToDecimal(n);
    if n < 10 {
      DigitRoundTrip(n);
    } else {
      assert s[..|s| - 1] == NatToDecimal(n / 10);
      DecimalRoundTrip(n / 10);
      DigitRoundTrip(n % 10);
    }
  }

  lemma DigitCharOfValue(c: char)
    requires IsDigit(c)
    ensures DigitChar(DigitValue(c)) == c
  {
  }

  /** `str(n)` for n = 10 * m + d with m positive is `str(m)` followed by the digit d. */
  lemma NatToDecimalStep(n: nat, m: nat, d: nat)
    requires m > 0 && d < 10 && n == m * 10 + d
    ensures NatToDecimal(n) == NatToDecimal(m) + [DigitChar(d)]
  {
    assert n / 10 == m && n % 10 == d;
  }

  /** `int(s)` of a longer digit string is ten times `int` of its prefix plus its last digit. */
  lemma DecimalToNatStep(s: string, p: string)
    requires IsDigits(s) && |s| > 1 && p == s[..|s| - 1]
    ensures IsDigits(p) && DecimalToNat(s) == DecimalToNat(p) * 10 + DigitValue(s[|s| - 1])
  {
  }

  /** A canonical string longer than one digit denotes a number of at least two digits. */
  lemma CanonicalPrefixPositive(s: string, p: string)
    requires IsCanonicalDecimal(s) && |s| > 1 && p == s[..|s| - 1]
    ensures IsDigits(p) && DecimalToNat(p) > 0
  {
    assert p[0] == s[0];
  }

  /** `str(int(s)) == s` for a single digit. */
  lemma DigitDecode(s: string)
    requires IsDigits(s) && |s| == 1
    ensures NatToDecimal(DecimalToNat(s)) == s
  {
    DigitCharOfValue(s[0]);
    assert NatToDecimal(DecimalToNat(s)) == [s[0]];
  }

  /** Appending a digit to a canonical string that survives the round trip keeps it surviving. */
  lemma DecodeStep(s: string, p: string)
    requires IsCanonicalDecimal(s) && |s| > 1 && p == s[..|s| - 1]
    requires IsDigits(p) && NatToDecimal(DecimalToNat(p)) == p
    ensures NatToDecimal(DecimalToNat(s)) == s
  {
    var last := s[|s| - 1];
    var n, m, d := DecimalToNat(s), DecimalToNat(p), DigitValue(last);
    DecimalToNatStep(s, p);
    CanonicalPrefixPositive(s, p);
    NatToDecimalStep(n, m, d);
    DigitCharOfValue(last);
    SplitLast(s);
  }

  lemma SplitLast(s: string)
    requires |s| > 0
    ensures s == s[..|s| - 1] + [s[|s| - 1]]
  {
  }

  /** `str(int(s)) == s` for a canonical digit string. */
  lemma {:induction false} CanonicalDecode(s: string)
    requires IsCanonicalDecimal(s)
    ensures NatToDecimal(DecimalToNat(s)) == s
  {
    if |s| == 1 {
      DigitDecode(s);
    } else {
      var p := s[..|s| - 1];
      assert p[0] == s[0];
      CanonicalDecode(p);
      DecodeStep(s, p);
    }
  }

  /**
   * `str(int(s)) == s` holds exactly for the canonical digit strings: a key
   * with a leading zero does not survive the round trip.
   */
  lemma CanonicalRoundTrip(s: string)
    requires IsDigits(s)
    ensures NatToDecimal(DecimalToNat(s)) == s <==> IsCanonicalDecimal(s)
  {
    if IsCanonicalDecimal(s) {
      CanonicalDecode(s);
    }
  }
}
