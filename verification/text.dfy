/** String helpers shared by the front end (JavaScript) and the back end
    (Python): whitespace trimming with either language's notion of
    whitespace, prefix/suffix/substring tests and ASCII lower-casing. */
module Text {

  /** Characters removed by JavaScript's `String.prototype.trim`:
      the WhiteSpace and LineTerminator code points of ECMAScript. */
  predicate JsSpace(c: char) {
    c == '\t' || c == '\n' || c == '\U{B}' || c == '\U{C}' || c == '\r' || c == ' '
    || c == '\U{A0}' || c == '\U{1680}' || ('\U{2000}' <= c <= '\U{200A}')
    || c == '\U{2028}' || c == '\U{2029}' || c == '\U{202F}' || c == '\U{205F}'
    || c == '\U{3000}' || c == '\U{FEFF}'
  }

  /** Characters removed by Python's `str.strip()` with no argument
      (the code points for which `str.isspace()` holds). */
  predicate PySpace(c: char) {
    ('\t' <= c <= '\r') || ('\U{1C}' <= c <= '\U{1F}') || c == ' '
    || c == '\U{85}' || c == '\U{A0}' || c == '\U{1680}' || ('\U{2000}' <= c <= '\U{200A}')
    || c == '\U{2028}' || c == '\U{2029}' || c == '\U{202F}' || c == '\U{205F}'
    || c == '\U{3000}'
  }

  /** Number of leading characters of `s` that satisfy `space`. */
  function LeadingCount(s: string, space: char -> bool): (n: nat)
    ensures n <= |s|
    ensures forall k :: 0 <= k < n ==> space(s[k])
    ensures n < |s| ==> !space(s[n])
  {
    if s == [] || !space(s[0]) then 0 else 1 + LeadingCount(s[1..], space)
  }

  /** Number of trailing characters of `s` that satisfy `space`. */
  function TrailingCount(s: string, space: char -> bool): (n: nat)
    ensures n <= |s|
    ensures forall k :: |s| - n <= k < |s| ==> space(s[k])
    ensures n < |s| ==> !space(s[|s| - 1 - n])
  {
    if s == [] || !space(s[|s| - 1]) then 0 else 1 + TrailingCount(s[..|s| - 1], space)
  }

  /** `s` without its leading and trailing whitespace. `s` is a run of
      spaces, the result, and another run of spaces; the result is empty
      exactly when every character of `s` is a space, and otherwise begins
      and ends with a non-space character. */
  function Trim(s: string, space: char -> bool): (r: string)
    ensures |r| <= |s|
    ensures LeadingCount(s, space) + |r| <= |s|
    ensures s == s[..LeadingCount(s, space)] + r + s[LeadingCount(s, space) + |r|..]
    ensures forall k :: 0 <= k < LeadingCount(s, space) ==> space(s[k])
    ensures forall k :: LeadingCount(s, space) + |r| <= k < |s| ==> space(s[k])
    ensures r == [] <==> forall k :: 0 <= k < |s| ==> space(s[k])
    ensures r != [] ==> !space(r[0]) && !space(r[|r| - 1])
  {
    var lead := LeadingCount(s, space);
    var rest := s[lead..];
    rest[..|rest| - TrailingCount(rest, space)]
  }

  /** A string that neither starts nor ends with a space is its own trim. */
  lemma TrimUnpadded(s: string, space: char -> bool)
    requires s != [] && !space(s[0]) && !space(s[|s| - 1])
    ensures Trim(s, space) == s
  {
    assert LeadingCount(s, space) == 0;
    assert s[0..] == s;
    assert TrailingCount(s, space) == 0;
  }

  predicate StartsWith(s: string, prefix: string) {
    |prefix| <= |s| && s[..|prefix|] == prefix
  }

  predicate EndsWith(s: string, suffix: string) {
    |suffix| <= |s| && s[|s| - |suffix|..] == suffix
  }

  /** Python's `sub in s` on strings: `sub` occurs at some position of `s`. */
  predicate Contains(s: string, sub: string)
    decreases |s|
  {
    StartsWith(s, sub) || (s != [] && Contains(s[1..], sub))
  }

  function LowerChar(c: char): char {
    if 'A' <= c <= 'Z' then (c as int + 32) as char else c
  }

  /** Lower-cases the ASCII letters of `s` and leaves every other character. */
  function AsciiLower(s: string): (r: string)
    ensures |r| == |s|
    ensures forall k :: 0 <= k < |s| ==> r[k] == LowerChar(s[k])
  {
    if s == [] then [] else [LowerChar(s[0])] + AsciiLower(s[1..])
  }
}
