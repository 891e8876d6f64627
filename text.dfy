/**
 * The JavaScript string primitives the service relies on: the `\s` class of
 * regular expressions (which is also the set `String.prototype.trim` strips),
 * `trim`, `indexOf`/`includes`, `length` in UTF-16 code units, and the decimal
 * text of an integer (template-literal interpolation).
 */
module Text {
  import opened Wrappers

  /** The characters JavaScript's `\s` matches: WhiteSpace and LineTerminator. */
  predicate IsSpace(c: char) {
    || c == ' ' || c == '\t' || c == '\n' || c == '\r' || c == '\U{000B}' || c == '\U{000C}'
    || c == '\U{00A0}' || c == '\U{1680}' || ('\U{2000}' <= c <= '\U{200A}')
    || c == '\U{2028}' || c == '\U{2029}' || c == '\U{202F}' || c == '\U{205F}'
    || c == '\U{3000}' || c == '\U{FEFF}'
  }

  /** The characters JavaScript's `\w` matches. */
  predicate IsWordChar(c: char) {
    ('a' <= c <= 'z') || ('A' <= c <= 'Z') || ('0' <= c <= '9') || c == '_'
  }

  predicate SpacesBetween(s: string, i: int, j: int)
    requires 0 <= i <= j <= |s|
  {
    forall k :: i <= k < j ==> IsSpace(s[k])
  }

  /** First index at or after `i` that does not hold a space (greedy `\s*`). */
  function SkipSpaces(s: string, i: nat): (r: nat)
    requires i <= |s|
    ensures i <= r <= |s|
    ensures SpacesBetween(s, i, r)
    ensures r == |s| || !IsSpace(s[r])
    decreases |s| - i
  {
    if i == |s| || !IsSpace(s[i]) then i else SkipSpaces(s, i + 1)
  }

  /** First index at or after `i` that does not hold a word character (greedy `\w*`). */
  function SkipWord(s: string, i: nat): (r: nat)
    requires i <= |s|
    ensures i <= r <= |s|
    ensures forall k :: i <= k < r ==> IsWordChar(s[k])
    ensures r == |s| || !IsWordChar(s[r])
    decreases |s| - i
  {
    if i == |s| || !IsWordChar(s[i]) then i else SkipWord(s, i + 1)
  }

  /** Smallest `e` in `[lo, hi]` such that `s[e..hi]` is all spaces. */
  function BackOverSpaces(s: string, lo: nat, hi: nat): (e: nat)
    requires lo <= hi <= |s|
    ensures lo <= e <= hi
    ensures SpacesBetween(s, e, hi)
    ensures e == lo || !IsSpace(s[e - 1])
    decreases hi - lo
  {
    if hi == lo || !IsSpace(s[hi - 1]) then hi else BackOverSpaces(s, lo, hi - 1)
  }

  /** `String.prototype.trim`. */
  function Trim(s: string): (r: string)
    ensures |r| <= |s|
    ensures |r| > 0 ==> !IsSpace(r[0]) && !IsSpace(r[|r| - 1])
    ensures |r| == 0 <==> SpacesBetween(s, 0, |s|)
    ensures SkipSpaces(s, 0) + |r| <= |s| && r == s[SkipSpaces(s, 0)..SkipSpaces(s, 0) + |r|]
    ensures SpacesBetween(s, 0, SkipSpaces(s, 0))
    ensures SpacesBetween(s, SkipSpaces(s, 0) + |r|, |s|)
  {
    var i := SkipSpaces(s, 0);
    var j := BackOverSpaces(s, i, |s|);
    assert SpacesBetween(s, 0, |s|) ==> i == |s|;
    s[i..j]
  }

  /** Trimming twice changes nothing. */
  lemma {:induction false} TrimIdempotent(s: string)
    ensures Trim(Trim(s)) == Trim(s)
  {
    var t := Trim(s);
    if |t| > 0 {
      assert SkipSpaces(t, 0) == 0;
    }
  }

  predicate OccursAt(s: string, pat: string, k: int) {
    0 <= k && k + |pat| <= |s| && s[k..k + |pat|] == pat
  }

  /** `s.indexOf(pat, from)`: the first occurrence of `pat` at or after `from`. */
  function IndexOf(s: string, pat: string, from: nat): (r: Option<nat>)
    requires from <= |s|
    ensures r.Some? ==> from <= r.value && OccursAt(s, pat, r.value)
    ensures r.Some? ==> forall k :: from <= k < r.value ==> !OccursAt(s, pat, k)
    ensures r.None? ==> forall k :: from <= k ==> !OccursAt(s, pat, k)
    decreases |s| - from
  {
    if from + |pat| > |s| then None
    else if s[from..from + |pat|] == pat then Some(from)
    else IndexOf(s, pat, from + 1)
  }

  /** `s.includes(pat)`. */
  predicate Includes(s: string, pat: string) {
    IndexOf(s, pat, 0).Some?
  }

  /** A text in which the first character of `pat` never appears does not include `pat`. */
  lemma ExcludesWithoutFirstChar(s: string, pat: string)
    requires |pat| > 0 && pat[0] !in s
    ensures !Includes(s, pat)
  {
  }

  /** `s.length`: JavaScript strings count UTF-16 code units, two per supplementary character. */
  function Utf16Length(s: string): (n: nat)
    ensures |s| <= n <= 2 * |s|
    ensures (forall k :: 0 <= k < |s| ==> s[k] <= '\U{FFFF}') ==> n == |s|
  {
    if s == [] then 0 else (if s[0] <= '\U{FFFF}' then 1 else 2) + Utf16Length(s[1..])
  }

  function DigitChar(d: nat): char
    requires d < 10
  {
    ['0', '1', '2', '3', '4', '5', '6', '7', '8', '9'][d]
  }

  predicate IsDigits(s: string) {
    forall k :: 0 <= k < |s| ==> '0' <= s[k] <= '9'
  }

  /** Decimal digits of a natural number, most significant first. */
  function NatText(n: nat): (r: string)
    ensures |r| >= 1 && IsDigits(r)
    ensures n > 0 ==> r[0] != '0'
  {
    if n < 10 then [DigitChar(n)] else NatText(n / 10) + [DigitChar(n % 10)]
  }

  /** `${n}` for an integer `n`. */
  function DecimalText(n: int): (r: string)
    ensures |r| >= 1
    ensures n < 0 <==> r[0] == '-'
  {
    if n < 0 then "-" + NatText(-n) else NatText(n)
  }

  /** The value a string of decimal digits denotes: the inverse of `NatText`. */
  function DigitsValue(s: string): nat
    requires IsDigits(s)
  {
    if s == [] then 0 else DigitsValue(s[..|s| - 1]) * 10 + (s[|s| - 1] as int - '0' as int)
  }

  /** The character `DigitChar(d)` is `d` places after `'0'`. */
  lemma DigitCharValue(d: nat)
    requires d < 10
    ensures DigitChar(d) as int - '0' as int == d
  {
  }

  lemma {:induction false} NatTextRoundTrip(n: nat)
    ensures DigitsValue(NatText(n)) == n
  {
    DigitCharValue(n % 10);
    if n >= 10 {
      NatTextRoundTrip(n / 10);
      var t := NatText(n);
      assert t[..|t| - 1] == NatText(n / 10);
      assert t[|t| - 1] == DigitChar(n % 10);
      assert n == n / 10 * 10 + n % 10;
    }
  }

  /** The leading digit of `NatText(n)` is the leading digit of `n`. */
  lemma {:induction false} NatTextLeading(n: nat, p: nat, d: nat)
    requires 1 <= d < 10 && d * Pow10(p) <= n < (d + 1) * Pow10(p)
    ensures NatText(n)[0] == DigitChar(d)
    decreases p
  {
    if p > 0 {
      assert n >= 10 by { assert Pow10(p) >= 10; }
      DivideRange(n, p, d);
      NatTextLeading(n / 10, p - 1, d);
    }
  }

  function Pow10(p: nat): (r: nat)
    ensures r >= 1
  {
    if p == 0 then 1 else 10 * Pow10(p - 1)
  }

  lemma DivideRange(n: nat, p: nat, d: nat)
    requires p > 0 && d * Pow10(p) <= n < (d + 1) * Pow10(p)
    ensures d * Pow10(p - 1) <= n / 10 < (d + 1) * Pow10(p - 1)
  {
    var q := Pow10(p - 1);
    assert Pow10(p) == 10 * q;
    assert d * Pow10(p) == 10 * (d * q);
    assert (d + 1) * Pow10(p) == 10 * ((d + 1) * q);
  }
}
