/**
 Character classes and string transforms shared by the validators: the ASCII
 classes that the regular expressions `[A-Z]`, `[a-z]`, `[0-9]` / `\d` name,
 the ECMAScript whitespace class that `\s` and `String.prototype.trim` use,
 trimming, ASCII upper-casing, and JavaScript truthiness of an optional string.
 */
module Text {
  import opened Wrappers

  predicate IsAsciiUpper(c: char) { 'A' <= c <= 'Z' }

  predicate IsAsciiLower(c: char) { 'a' <= c <= 'z' }

  predicate IsAsciiLetter(c: char) { IsAsciiUpper(c) || IsAsciiLower(c) }

  /** `[0-9]`, which is also `\d` in a regular expression without the `u` flag. */
  predicate IsAsciiDigit(c: char) { '0' <= c <= '9' }

  /** `[A-Za-z0-9]` */
  predicate IsAsciiAlnum(c: char) { IsAsciiLetter(c) || IsAsciiDigit(c) }

  /** ECMAScript WhiteSpace and LineTerminator code points (the `\s` class and what `trim` removes). */
  predicate IsWhitespace(c: char) {
    || c == '\t' || c == '\n' || c == '\U{000B}' || c == '\U{000C}' || c == '\r'
    || c == ' ' || c == '\U{00A0}' || c == '\U{1680}'
    || ('\U{2000}' <= c <= '\U{200A}')
    || c == '\U{2028}' || c == '\U{2029}' || c == '\U{202F}' || c == '\U{205F}'
    || c == '\U{3000}' || c == '\U{FEFF}'
  }

  lemma WhitespaceIsNotText(c: char)
    requires IsWhitespace(c)
    ensures !IsAsciiAlnum(c) && c != '@' && c != '.'
  {
  }

  /** JavaScript truthiness of a `string | null`: present and non-empty. */
  predicate Truthy(o: Option<string>) { o.Some? && o.value != "" }

  /** ASCII upper-casing of one character; every other character is left as it is. */
  function UpperChar(c: char): (d: char)
    ensures IsAsciiLetter(c) ==> IsAsciiUpper(d)
    ensures !IsAsciiLower(c) ==> d == c
    ensures IsAsciiAlnum(d) <==> IsAsciiAlnum(c)
    ensures !IsAsciiLower(d)
  {
    if IsAsciiLower(c) then (c as int - 32) as char else c
  }

  /** `s.toUpperCase()` restricted to ASCII: a character-wise map of `UpperChar`. */
  function ToUpper(s: string): (r: string)
    ensures |r| == |s|
    ensures forall i | 0 <= i < |s| :: r[i] == UpperChar(s[i])
  {
    if s == [] then [] else [UpperChar(s[0])] + ToUpper(s[1..])
  }

  lemma ToUpperConcat(a: string, b: string)
    ensures ToUpper(a + b) == ToUpper(a) + ToUpper(b)
  {
  }

  /** Upper-casing leaves a string without lower-case letters unchanged. */
  lemma ToUpperFixed(s: string)
    requires forall i | 0 <= i < |s| :: !IsAsciiLower(s[i])
    ensures ToUpper(s) == s
  {
  }

  /** Number of whitespace characters at the start of `s`. */
  function LeadingSpace(s: string): (n: nat)
    ensures n <= |s|
    ensures forall i | 0 <= i < n :: IsWhitespace(s[i])
    ensures n < |s| ==> !IsWhitespace(s[n])
  {
    if |s| == 0 || !IsWhitespace(s[0]) then 0 else 1 + LeadingSpace(s[1..])
  }

  /** Number of whitespace characters at the end of `s`. */
  function TrailingSpace(s: string): (n: nat)
    ensures n <= |s|
    ensures forall i | |s| - n <= i < |s| :: IsWhitespace(s[i])
    ensures n < |s| ==> !IsWhitespace(s[|s| - 1 - n])
  {
    if |s| == 0 || !IsWhitespace(s[|s| - 1]) then 0 else 1 + TrailingSpace(s[..|s| - 1])
  }

  /** `s.trim()`: the slice of `s` between its leading and its trailing whitespace. */
  function Trim(s: string): (r: string)
    ensures |r| <= |s|
    ensures r != [] ==> !IsWhitespace(r[0]) && !IsWhitespace(r[|r| - 1])
    ensures LeadingSpace(s) + |r| <= |s| && r == s[LeadingSpace(s)..LeadingSpace(s) + |r|]
    ensures forall i | LeadingSpace(s) + |r| <= i < |s| :: IsWhitespace(s[i])
  {
    var t := s[LeadingSpace(s)..];
    t[..|t| - TrailingSpace(t)]
  }

  /** The string trims to empty exactly when every character of it is whitespace. */
  lemma TrimEmpty(s: string)
    ensures Trim(s) == [] <==> forall i | 0 <= i < |s| :: IsWhitespace(s[i])
  {
  }

  /** Trimming a second time removes nothing more. */
  lemma TrimIdempotent(s: string)
    ensures Trim(Trim(s)) == Trim(s)
  {
  }

  /** Trimming keeps every non-whitespace character of the input, in place. */
  lemma TrimKeepsText(s: string, i: nat)
    requires i < |s| && !IsWhitespace(s[i])
    ensures LeadingSpace(s) <= i < LeadingSpace(s) + |Trim(s)|
    ensures Trim(s)[i - LeadingSpace(s)] == s[i]
  {
  }
}
