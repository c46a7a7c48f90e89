/**
 * The JavaScript string built-ins the widget relies on, stated over `seq<char>`:
 * `String.prototype.trim`, `String.prototype.startsWith`, and the conversion of a
 * non-negative integral Number to its decimal text (which `count + ''`, template
 * interpolation and `toFixed` all go through).
 */
module JsString {

  /** ECMAScript WhiteSpace and LineTerminator code points: the characters `trim` strips. */
  const WhiteSpaceChars: set<char> := {
    '\t', '\n', '\U{000B}', '\U{000C}', '\r', ' ', '\U{00A0}', '\U{1680}',
    '\U{2000}', '\U{2001}', '\U{2002}', '\U{2003}', '\U{2004}', '\U{2005}',
    '\U{2006}', '\U{2007}', '\U{2008}', '\U{2009}', '\U{200A}',
    '\U{2028}', '\U{2029}', '\U{202F}', '\U{205F}', '\U{3000}', '\U{FEFF}'
  }

  predicate IsWhiteSpace(c: char)
  {
    c in WhiteSpaceChars
  }

  /** True when every character of `s` is white space (JavaScript: `!s.trim()`). */
  predicate IsBlank(s: string)
  {
    forall i :: 0 <= i < |s| ==> IsWhiteSpace(s[i])
  }

  /** The first index at or after `i` that does not hold white space (`|s|` if none). */
  function SkipStart(s: string, i: nat): (r: nat)
    requires i <= |s|
    ensures i <= r <= |s|
    decreases |s| - i
  {
    if i < |s| && IsWhiteSpace(s[i]) then SkipStart(s, i + 1) else i
  }

  /** The end of `s[lo..j]` once its trailing white space is dropped. */
  function SkipEnd(s: string, lo: nat, j: nat): (r: nat)
    requires lo <= j <= |s|
    ensures lo <= r <= j
  {
    if lo < j && IsWhiteSpace(s[j - 1]) then SkipEnd(s, lo, j - 1) else j
  }

  /** `SkipStart` passes over white space only and stops at a non-white-space character. */
  lemma {:induction false} SkipStartSpec(s: string, i: nat)
    requires i <= |s|
    ensures forall k :: i <= k < SkipStart(s, i) ==> IsWhiteSpace(s[k])
    ensures SkipStart(s, i) < |s| ==> !IsWhiteSpace(s[SkipStart(s, i)])
    decreases |s| - i
  {
    if i < |s| && IsWhiteSpace(s[i]) {
      SkipStartSpec(s, i + 1);
    }
  }

  /** `SkipEnd` passes back over white space only and stops after a non-white-space character. */
  lemma {:induction false} SkipEndSpec(s: string, lo: nat, j: nat)
    requires lo <= j <= |s|
    ensures forall k :: SkipEnd(s, lo, j) <= k < j ==> IsWhiteSpace(s[k])
    ensures lo < SkipEnd(s, lo, j) ==> !IsWhiteSpace(s[SkipEnd(s, lo, j) - 1])
  {
    if lo < j && IsWhiteSpace(s[j - 1]) {
      SkipEndSpec(s, lo, j - 1);
    }
  }

  /** Number of white-space characters `trim` removes at the front of `s`. */
  function Leading(s: string): nat
  {
    SkipStart(s, 0)
  }

  /** `s.trim()`: the text between the leading and the trailing white space. */
  function Trim(s: string): string
  {
    s[Leading(s)..SkipEnd(s, Leading(s), |s|)]
  }

  /**
   * `s.trim()` is the slice of `s` that starts and ends with a non-white-space
   * character, everything outside it being white space.
   */
  lemma TrimSpec(s: string)
    ensures Leading(s) + |Trim(s)| <= |s|
    ensures Trim(s) == s[Leading(s)..Leading(s) + |Trim(s)|]
    ensures forall i :: 0 <= i < Leading(s) ==> IsWhiteSpace(s[i])
    ensures forall i :: Leading(s) + |Trim(s)| <= i < |s| ==> IsWhiteSpace(s[i])
    ensures Trim(s) != [] ==> !IsWhiteSpace(Trim(s)[0]) && !IsWhiteSpace(Trim(s)[|Trim(s)| - 1])
  {
    var lo := Leading(s);
    var hi := SkipEnd(s, lo, |s|);
    SkipStartSpec(s, 0);
    SkipEndSpec(s, lo, |s|);
    assert |Trim(s)| == hi - lo;
  }

  /** The trimmed text is empty exactly when the whole text is white space. */
  lemma TrimEmptyIffBlank(s: string)
    ensures Trim(s) == [] <==> IsBlank(s)
  {
    TrimSpec(s);
    if Trim(s) != [] {
      assert !IsWhiteSpace(s[Leading(s)]);
    }
  }

  /** Text whose trim is non-empty is itself non-empty. */
  lemma NonBlankIsNonEmpty(s: string)
    requires Trim(s) != ""
    ensures s != "" && !IsBlank(s)
  {
    TrimEmptyIffBlank(s);
  }

  /** Trimming a second time changes nothing. */
  lemma TrimIdempotent(s: string)
    ensures Trim(Trim(s)) == Trim(s)
  {
    TrimSpec(s);
    var r := Trim(s);
    assert Leading(r) == 0;
    assert SkipEnd(r, 0, |r|) == |r|;
  }

  /** `s.startsWith(prefix)`. */
  predicate StartsWith(s: string, prefix: string)
  {
    |prefix| <= |s| && s[..|prefix|] == prefix
  }

  predicate IsDigit(c: char)
  {
    '0' <= c <= '9'
  }

  function Digit(d: nat): (c: char)
    requires d < 10
    ensures IsDigit(c)
  {
    (48 + d) as char
  }

  function DigitValue(c: char): (d: nat)
    requires IsDigit(c)
    ensures d < 10 && Digit(d) == c
  {
    (c as int - 48) as nat
  }

  predicate AllDigits(s: string)
  {
    forall i :: 0 <= i < |s| ==> IsDigit(s[i])
  }

  /**
   * The decimal text of a non-negative integral Number (`String(n)` for `n < 1e21`):
   * at least one digit and no leading zero.
   */
  function DecimalString(n: nat): (r: string)
    ensures |r| >= 1 && AllDigits(r)
    ensures |r| > 1 ==> r[0] != '0'
    ensures n < 10 <==> |r| == 1
  {
    if n < 10 then [Digit(n)] else DecimalString(n / 10) + [Digit(n % 10)]
  }

  /** Reads a string of decimal digits back as a number. */
  function ParseDecimal(s: string): nat
    requires AllDigits(s)
  {
    if s == [] then 0 else 10 * ParseDecimal(s[..|s| - 1]) + DigitValue(s[|s| - 1])
  }

  /** The decimal text of `n` reads back as `n`. */
  lemma {:induction false} ParseDecimalString(n: nat)
    ensures ParseDecimal(DecimalString(n)) == n
  {
    var r := DecimalString(n);
    if n >= 10 {
      assert r[..|r| - 1] == DecimalString(n / 10);
      ParseDecimalString(n / 10);
    }
  }

  /** Different numbers print differently. */
  lemma DecimalStringInjective(m: nat, n: nat)
    requires DecimalString(m) == DecimalString(n)
    ensures m == n
  {
    ParseDecimalString(m);
    ParseDecimalString(n);
  }
}
