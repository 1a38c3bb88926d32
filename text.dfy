/**
 * The string operations the core relies on: `String.prototype.trim`,
 * `String.prototype.replace` with a string pattern (first occurrence only),
 * and the decimal rendering of a non-negative integer in a URI.
 */
module Text {
  import opened Wrappers

  /**
   * The characters `String.prototype.trim` removes: ECMAScript WhiteSpace
   * (tab, vertical tab, form feed, space, no-break space, byte order mark and the
   * other Unicode space separators) and LineTerminator (LF, CR, U+2028, U+2029).
   */
  predicate IsWhiteSpace(c: char) {
    var n := c as int;
    n == 0x09 || n == 0x0A || n == 0x0B || n == 0x0C || n == 0x0D || n == 0x20 ||
    n == 0xA0 || n == 0x1680 || (0x2000 <= n <= 0x200A) || n == 0x2028 || n == 0x2029 ||
    n == 0x202F || n == 0x205F || n == 0x3000 || n == 0xFEFF
  }

  /** Every character of `s` is white space (this includes the empty string). */
  predicate IsBlank(s: string) {
    forall i :: 0 <= i < |s| ==> IsWhiteSpace(s[i])
  }

  /** `s` without its leading white space. */
  function TrimStart(s: string): (r: string)
    ensures |r| <= |s| && r == s[|s| - |r|..]
    ensures IsBlank(s[..|s| - |r|])
    ensures r == [] || !IsWhiteSpace(r[0])
  {
    if s != [] && IsWhiteSpace(s[0]) then TrimStart(s[1..]) else s
  }

  /** `s` without its trailing white space. */
  function TrimEnd(s: string): (r: string)
    ensures |r| <= |s| && r == s[..|r|]
    ensures IsBlank(s[|r|..])
    ensures r == [] || !IsWhiteSpace(r[|r| - 1])
  {
    if s != [] && IsWhiteSpace(s[|s| - 1]) then TrimEnd(s[..|s| - 1]) else s
  }

  /** `s.trim()`. */
  function Trim(s: string): string {
    TrimEnd(TrimStart(s))
  }

  lemma {:induction false} TrimStartEmptyIffBlank(s: string)
    ensures TrimStart(s) == [] <==> IsBlank(s)
  {
    if s != [] {
      BlankCons(s);
      if IsWhiteSpace(s[0]) { TrimStartEmptyIffBlank(s[1..]); }
    }
  }

  /** A non-empty string is blank exactly when its head is white space and its tail is blank. */
  lemma BlankCons(s: string)
    requires s != []
    ensures IsBlank(s) <==> IsWhiteSpace(s[0]) && IsBlank(s[1..])
  {
  }

  /** A non-empty string is blank exactly when its last character is white space and the rest is blank. */
  lemma BlankSnoc(s: string)
    requires s != []
    ensures IsBlank(s) <==> IsWhiteSpace(s[|s| - 1]) && IsBlank(s[..|s| - 1])
  {
  }

  /** `!s.trim()` holds exactly when `s` consists of white space only. */
  lemma TrimEmptyIffBlank(s: string)
    ensures Trim(s) == "" <==> IsBlank(s)
  {
    TrimStartEmptyIffBlank(s);
    var t := TrimStart(s);
    TrimEndEmptyIffBlank(t);
    if t != [] { BlankCons(t); }
  }

  lemma {:induction false} TrimEndEmptyIffBlank(s: string)
    ensures TrimEnd(s) == [] <==> IsBlank(s)
  {
    if s != [] {
      BlankSnoc(s);
      if IsWhiteSpace(s[|s| - 1]) { TrimEndEmptyIffBlank(s[..|s| - 1]); }
    }
  }

  // ---------------------------------------------------------------- search

  /** `pat` occurs in `s` starting at index `i`. */
  predicate OccursAt(s: string, pat: string, i: nat) {
    i + |pat| <= |s| && s[i..i + |pat|] == pat
  }

  /** The first index at or after `from` where `pat` occurs in `s`. */
  function IndexOfFrom(s: string, pat: string, from: nat): (r: Option<nat>)
    requires from <= |s|
    ensures r.Some? ==> from <= r.value && OccursAt(s, pat, r.value)
    ensures forall j: nat :: from <= j && (r.Some? ==> j < r.value) ==> !OccursAt(s, pat, j)
    decreases |s| - from
  {
    if OccursAt(s, pat, from) then Some(from)
    else if from + |pat| >= |s| then None
    else IndexOfFrom(s, pat, from + 1)
  }

  /** `s.indexOf(pat)`: the first occurrence of `pat` in `s`, None for -1. */
  function IndexOf(s: string, pat: string): (r: Option<nat>)
    ensures r.Some? ==> OccursAt(s, pat, r.value)
    ensures forall j: nat :: (r.Some? ==> j < r.value) ==> !OccursAt(s, pat, j)
  {
    IndexOfFrom(s, pat, 0)
  }

  /** `s.replace(pat, rep)` for a string pattern and a replacement without `$` patterns. */
  function ReplaceFirst(s: string, pat: string, rep: string): string {
    match IndexOf(s, pat)
    case None => s
    case Some(i) => s[..i] + rep + s[i + |pat|..]
  }

  // -------------------------------------------------------------- decimals

  predicate IsDigit(c: char) {
    '0' <= c <= '9'
  }

  function DigitChar(d: nat): (c: char)
    requires d < 10
    ensures IsDigit(c) && (c as int) - ('0' as int) == d
  {
    (('0' as int) + d) as char
  }

  /** The decimal rendering JavaScript gives a non-negative integer: digits, no sign, no leading zeros. */
  function DecimalString(n: nat): (r: string)
    ensures |r| >= 1
    ensures forall i :: 0 <= i < |r| ==> IsDigit(r[i])
  {
    if n < 10 then [DigitChar(n)] else DecimalString(n / 10) + [DigitChar(n % 10)]
  }

  function DigitValue(c: char): (d: nat)
    requires IsDigit(c)
    ensures d < 10
  {
    (c as int) - ('0' as int)
  }

  /** The value of a string of decimal digits. */
  function DecimalValue(s: string): nat
    requires forall i :: 0 <= i < |s| ==> IsDigit(s[i])
  {
    if s == [] then 0
    else DecimalValue(s[..|s| - 1]) * 10 + DigitValue(s[|s| - 1])
  }

  /** Reading back the decimal rendering of `n` yields `n`. */
  lemma {:induction false} DecimalRoundTrip(n: nat)
    ensures DecimalValue(DecimalString(n)) == n
  {
    var r := DecimalString(n);
    if n >= 10 {
      DecimalRoundTrip(n / 10);
      assert r[..|r| - 1] == DecimalString(n / 10);
      assert r[|r| - 1] == DigitChar(n % 10);
    }
  }

  /** Distinct numbers render to distinct strings. */
  lemma DecimalStringInjective(a: nat, b: nat)
    requires DecimalString(a) == DecimalString(b)
    ensures a == b
  {
    DecimalRoundTrip(a);
    DecimalRoundTrip(b);
  }
}
