/** The JavaScript string operations the server and the page rely on:
    `toLowerCase` on host names, `endsWith`, `includes`, `trim`, and the
    decimal rendering of a status code in a template literal. */
module JsStrings {

  // ---------------------------------------------------------------------
  // Lower-casing

  /** ASCII lower-casing of one character. Host names produced by the URL
      parser are ASCII, so this is the whole of `toLowerCase` on them. */
  function LowerChar(c: char): char
  {
    if 'A' <= c <= 'Z' then (c as int - 'A' as int + 'a' as int) as char else c
  }

  function Lower(s: string): (r: string)
    ensures |r| == |s|
    ensures forall i :: 0 <= i < |s| ==> r[i] == LowerChar(s[i])
  {
    seq(|s|, i requires 0 <= i < |s| => LowerChar(s[i]))
  }

  /** Lower-casing twice is lower-casing once. */
  lemma LowerIdempotent(s: string)
    ensures Lower(Lower(s)) == Lower(s)
  {
  }

  // ---------------------------------------------------------------------
  // endsWith / includes

  /** `s.endsWith(suffix)`. */
  predicate EndsWith(s: string, suffix: string)
    ensures EndsWith(s, suffix) <==> OccursAt(s, suffix, |s| - |suffix|)
  {
    |suffix| <= |s| && s[|s| - |suffix|..] == suffix
  }

  lemma EndsWithConcat(prefix: string, suffix: string)
    ensures EndsWith(prefix + suffix, suffix)
  {
    assert (prefix + suffix)[|prefix|..] == suffix;
  }

  /** `s` holds `t` at position `i`. */
  predicate OccursAt(s: string, t: string, i: int)
  {
    0 <= i && i + |t| <= |s| && s[i..i + |t|] == t
  }

  /** `s.includes(t)`, scanning from position `from` onwards; the contract
      ties the scan to the existence of an occurrence. */
  function IncludesFrom(s: string, t: string, from: nat): (b: bool)
    requires from <= |s|
    ensures b <==> exists i :: from <= i <= |s| && OccursAt(s, t, i)
    decreases |s| - from
  {
    if OccursAt(s, t, from) then true
    else if from == |s| then false
    else IncludesFrom(s, t, from + 1)
  }

  /** `s.includes(t)`. */
  predicate Includes(s: string, t: string)
    ensures Includes(s, t) <==> exists i :: 0 <= i <= |s| && OccursAt(s, t, i)
  {
    IncludesFrom(s, t, 0)
  }

  // ---------------------------------------------------------------------
  // trim

  /** The characters `String.prototype.trim` removes: the ECMAScript
      WhiteSpace and LineTerminator code points. */
  predicate IsJsSpace(c: char)
  {
    c == '\t' || c == '\n' || c == '\U{B}' || c == '\U{C}' || c == '\r' ||
    c == ' ' || c == '\U{A0}' || c == '\U{1680}' || ('\U{2000}' <= c <= '\U{200A}') ||
    c == '\U{2028}' || c == '\U{2029}' || c == '\U{202F}' || c == '\U{205F}' ||
    c == '\U{3000}' || c == '\U{FEFF}'
  }

  /** Removes leading white space: the result is the suffix of `s` that
      starts at its first non-space character. */
  function TrimStart(s: string): (r: string)
    ensures |r| <= |s| && r == s[|s| - |r|..]
    ensures forall i :: 0 <= i < |s| - |r| ==> IsJsSpace(s[i])
    ensures r == [] || !IsJsSpace(r[0])
  {
    if s != [] && IsJsSpace(s[0]) then TrimStart(s[1..]) else s
  }

  /** Removes trailing white space: the result is the prefix of `s` that
      ends at its last non-space character. */
  function TrimEnd(s: string): (r: string)
    ensures |r| <= |s| && r == s[..|r|]
    ensures forall i :: |r| <= i < |s| ==> IsJsSpace(s[i])
    ensures r == [] || !IsJsSpace(r[|r| - 1])
  {
    if s != [] && IsJsSpace(s[|s| - 1]) then TrimEnd(s[..|s| - 1]) else s
  }

  /** `s.trim()`. */
  function Trim(s: string): (r: string)
    ensures |r| <= |TrimStart(s)| <= |s|
    ensures r == [] || (!IsJsSpace(r[0]) && !IsJsSpace(r[|r| - 1]))
    ensures r == s[|s| - |TrimStart(s)|..][..|r|]
  {
    TrimEnd(TrimStart(s))
  }

  /** A string whose first and last characters are not white space is left
      as it is by `trim`. */
  lemma TrimKeepsSolidEnds(s: string)
    requires s != [] && !IsJsSpace(s[0]) && !IsJsSpace(s[|s| - 1])
    ensures Trim(s) == s
  {
  }

  /** `trim` never removes a non-space character, so a string holding one
      does not trim to the empty string. */
  lemma TrimKeepsNonSpace(s: string, i: int)
    requires 0 <= i < |s| && !IsJsSpace(s[i])
    ensures Trim(s) != []
  {
    var t := TrimStart(s);
    var j := i - (|s| - |t|);
    assert 0 <= j < |t| && t[j] == s[i];
    var r := TrimEnd(t);
    assert j < |r|;
  }

  // ---------------------------------------------------------------------
  // Decimal rendering of a non-negative integer

  function DigitChar(d: nat): char
    requires d < 10
  {
    ('0' as int + d) as char
  }

  predicate IsDigit(c: char)
  {
    '0' <= c <= '9'
  }

  /** The decimal digits of `n`, as `${n}` renders a non-negative integer. */
  function Decimal(n: nat): (s: string)
    ensures s != []
    ensures forall i :: 0 <= i < |s| ==> IsDigit(s[i])
    ensures |s| > 1 ==> s[0] != '0'
  {
    if n < 10 then [DigitChar(n)] else Decimal(n / 10) + [DigitChar(n % 10)]
  }

  function DigitValue(c: char): nat
    requires IsDigit(c)
  {
    c as int - '0' as int
  }

  /** Reads a string of decimal digits back as a number. */
  function ParseDecimal(s: string): nat
    requires forall i :: 0 <= i < |s| ==> IsDigit(s[i])
  {
    if s == [] then 0
    else ParseDecimal(s[..|s| - 1]) * 10 + DigitValue(s[|s| - 1])
  }

  /** Reading the rendering back gives the number. */
  lemma {:induction false} ParseDecimalOfDecimal(n: nat)
    ensures ParseDecimal(Decimal(n)) == n
  {
    if n >= 10 {
      var s := Decimal(n);
      assert s[..|s| - 1] == Decimal(n / 10);
      ParseDecimalOfDecimal(n / 10);
    }
  }
}
