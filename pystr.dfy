/**
 * The Python string built-ins the skill leans on: the whitespace class shared
 * by the regular-expression escape `\s` and by `str.strip()`, `str.strip()`
 * itself, and the decimal rendering of an `int` inside an f-string.
 */
module PyStr {

  /** Whitespace as `\s` and `str.strip()` see it (`str.isspace()`): tab,
      line feed, vertical tab, form feed, carriage return, the four
      information separators U+001C-U+001F, space, U+0085, U+00A0, U+1680,
      U+2000-U+200A, U+2028, U+2029, U+202F, U+205F and U+3000. */
  predicate IsSpace(c: char) {
    || c == ' '
    || '\t' <= c <= '\r'
    || '\U{1C}' <= c <= '\U{1F}'
    || c == '\U{85}' || c == '\U{A0}' || c == '\U{1680}'
    || '\U{2000}' <= c <= '\U{200A}'
    || c == '\U{2028}' || c == '\U{2029}' || c == '\U{202F}' || c == '\U{205F}' || c == '\U{3000}'
  }

  predicate AllSpace(s: string) {
    forall i :: 0 <= i < |s| ==> IsSpace(s[i])
  }

  /** Neither end of `s` is whitespace. */
  predicate Trimmed(s: string) {
    s == [] || (!IsSpace(s[0]) && !IsSpace(s[|s| - 1]))
  }

  /** The first position at or after `i` that is not whitespace (or `|s|`). */
  function SkipLeading(s: string, i: nat): (r: nat)
    requires i <= |s|
    ensures i <= r <= |s|
    ensures forall k :: i <= k < r ==> IsSpace(s[k])
    ensures r == |s| || !IsSpace(s[r])
    decreases |s| - i
  {
    if i == |s| || !IsSpace(s[i]) then i else SkipLeading(s, i + 1)
  }

  /** The end `r` of `s[lo..j]` once its trailing whitespace is dropped. */
  function SkipTrailing(s: string, lo: nat, j: nat): (r: nat)
    requires lo <= j <= |s|
    ensures lo <= r <= j
    ensures forall k :: r <= k < j ==> IsSpace(s[k])
    ensures r == lo || !IsSpace(s[r - 1])
  {
    if j == lo || !IsSpace(s[j - 1]) then j else SkipTrailing(s, lo, j - 1)
  }

  /** `r` sits in `s` at offset `i` with only whitespace on either side of it. */
  predicate SpaceFramed(s: string, i: int, r: string) {
    && 0 <= i && i + |r| <= |s|
    && (forall j :: 0 <= j < |r| ==> r[j] == s[i + j])
    && (forall k :: 0 <= k < i ==> IsSpace(s[k]))
    && (forall k :: i + |r| <= k < |s| ==> IsSpace(s[k]))
  }

  /** Where the stripped text starts inside `s`. */
  function StripOffset(s: string): (i: nat)
    ensures i <= |s|
  {
    SkipLeading(s, 0)
  }

  /** `s.strip()`: the result is a piece of `s` that is trimmed, and what was
      cut away on either side is whitespace only. */
  function Strip(s: string): (r: string)
    ensures Trimmed(r)
    ensures exists i :: SpaceFramed(s, i, r)
  {
    var i := StripOffset(s);
    var r := s[i..SkipTrailing(s, i, |s|)];
    assert SpaceFramed(s, i, r);
    r
  }

  /** The stripped text sits in `s` at StripOffset, framed by whitespace. */
  lemma StripAt(s: string)
    ensures SpaceFramed(s, StripOffset(s), Strip(s))
  {
  }

  /** Stripping yields the empty string exactly when the input is all whitespace. */
  lemma StripEmptyIffAllSpace(s: string)
    ensures Strip(s) == [] <==> AllSpace(s)
  {
    var r := Strip(s);
    var i :| SpaceFramed(s, i, r);
    if r != [] {
      assert s[i + 0] == r[0];
    }
  }

  /** Stripping an already trimmed string changes nothing. */
  lemma StripTrimmed(s: string)
    requires Trimmed(s)
    ensures Strip(s) == s
  {
    var r := Strip(s);
    var i :| SpaceFramed(s, i, r);
    if s != [] {
      assert !IsSpace(s[0]) && !IsSpace(s[|s| - 1]);
      assert i == 0 && |r| == |s|;
      assert forall j :: 0 <= j < |r| ==> r[j] == s[j];
    }
  }

  predicate IsDigit(c: char) {
    '0' <= c <= '9'
  }

  /** The character for a single decimal digit. */
  function DigitChar(d: nat): (c: char)
    requires d < 10
    ensures IsDigit(c)
  {
    "0123456789"[d]
  }

  function DigitValue(c: char): (d: nat)
    requires IsDigit(c)
    ensures d < 10
  {
    (c as int - '0' as int) as nat
  }

  /** `str(n)` for a non-negative int, as an f-string renders it. */
  function DecimalString(n: nat): (r: string)
    ensures r != []
    ensures forall i :: 0 <= i < |r| ==> IsDigit(r[i])
    ensures |r| > 1 ==> r[0] != '0'
  {
    if n < 10 then [DigitChar(n)] else DecimalString(n / 10) + [DigitChar(n % 10)]
  }

  /** `int(s)` for a string of decimal digits: the reading that inverts DecimalString. */
  function ParseDecimal(s: string): nat
    requires forall i :: 0 <= i < |s| ==> IsDigit(s[i])
  {
    if s == [] then 0 else ParseDecimal(s[..|s| - 1]) * 10 + DigitValue(s[|s| - 1])
  }

  /** Reading back the decimal rendering of `n` gives `n`. */
  lemma {:induction false} DecimalRoundTrip(n: nat)
    ensures ParseDecimal(DecimalString(n)) == n
  {
    var r := DecimalString(n);
    if n < 10 {
      assert DigitValue(DigitChar(n)) == n;
    } else {
      DecimalRoundTrip(n / 10);
      assert r[..|r| - 1] == DecimalString(n / 10);
      assert DigitValue(DigitChar(n % 10)) == n % 10;
    }
  }

  /** Distinct numbers render differently. */
  lemma DecimalStringInjective(m: nat, n: nat)
    requires DecimalString(m) == DecimalString(n)
    ensures m == n
  {
    DecimalRoundTrip(m);
    DecimalRoundTrip(n);
  }
}
