/**
 The fixed-shape regular expressions the validators test, written as sequences
 of character classes instead of a regex engine: `^[A-Z]{3}[0-9]{4}$` is the
 pattern `Repeat(Upper, 3) + Repeat(Digit, 4)` matched exactly, and `^\d+$` is
 one-or-more of the class `Digit`.
 */
module Pattern {
  import opened Text

  /** `[A-Z]`, `[0-9]` (= `\d`) and `[A-Za-z0-9]`. */
  datatype CharClass = Upper | Digit | Alnum

  predicate InClass(c: char, k: CharClass) {
    match k
    case Upper => IsAsciiUpper(c)
    case Digit => IsAsciiDigit(c)
    case Alnum => IsAsciiAlnum(c)
  }

  /** The quantifier `k{n}`. */
  function Repeat(k: CharClass, n: nat): (p: seq<CharClass>)
    ensures |p| == n
    ensures forall i | 0 <= i < n :: p[i] == k
  {
    if n == 0 then [] else [k] + Repeat(k, n - 1)
  }

  /** `^p$` for a fixed-length pattern `p`: one character per class, nothing more. */
  predicate MatchesExactly(s: string, p: seq<CharClass>) {
    |s| == |p| && forall i | 0 <= i < |s| :: InClass(s[i], p[i])
  }

  /** `^k+$` */
  predicate MatchesOneOrMore(s: string, k: CharClass) {
    |s| > 0 && forall i | 0 <= i < |s| :: InClass(s[i], k)
  }
}
