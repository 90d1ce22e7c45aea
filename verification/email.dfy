/**
 The registration screen's e-mail check (app/register.tsx): after trimming,
 the address must match `^[^\s@]+@[^\s@]+\.[^\s@]+$`.
 */
module Email {
  import opened Text

  /** `[^\s@]` */
  predicate Plain(c: char) { !IsWhitespace(c) && c != '@' }

  predicate AllPlain(s: string) { forall i | 0 <= i < |s| :: Plain(s[i]) }

  /** The match of the regular expression with its `@` at `at` and its `\.` at `dot`. */
  predicate SplitsEmail(s: string, at: int, dot: int)
    requires 0 < at < dot < |s|
  {
    && s[at] == '@' && s[dot] == '.'
    && AllPlain(s[..at]) && AllPlain(s[at + 1..dot]) && AllPlain(s[dot + 1..])
  }

  /**
   `^[^\s@]+@[^\s@]+\.[^\s@]+$`: three non-empty runs of `[^\s@]`, joined by
   an `@` and a `.`. Because the runs may themselves contain dots, any dot of
   the domain that leaves text on both sides can play the part of `\.`.
   */
  predicate MatchesEmailPattern(s: string) {
    exists at, dot | 0 < at < |s| && at + 1 < dot < |s| - 1 :: SplitsEmail(s, at, dot)
  }

  /** `isValidEmail`: the pattern tested on the trimmed value. */
  predicate IsValidEmail(value: string) {
    MatchesEmailPattern(Trim(value))
  }

  /** First position of `c` in `s`. */
  function IndexOf(s: string, c: char): (r: nat)
    requires c in s
    ensures r < |s| && s[r] == c && c !in s[..r]
  {
    if s[0] == c then 0 else 1 + IndexOf(s[1..], c)
  }

  predicate NoWhitespace(s: string) { forall i | 0 <= i < |s| :: !IsWhitespace(s[i]) }

  /** A `.` with at least one character before it and one after it. */
  predicate HasInnerDot(d: string) { exists k | 0 < k < |d| - 1 :: d[k] == '.' }

  /**
   The address in plain words: no whitespace, exactly one `@`, a non-empty
   local part before it, and a domain after it holding a `.` with text on
   both sides.
   */
  predicate WellFormedEmail(s: string) {
    && NoWhitespace(s)
    && '@' in s
    && var at := IndexOf(s, '@');
       && '@' !in s[at + 1..]
       && at > 0
       && HasInnerDot(s[at + 1..])
  }

  lemma PatternImpliesWellFormed(s: string)
    requires MatchesEmailPattern(s)
    ensures WellFormedEmail(s)
  {
    var at, dot :| 0 < at < |s| && at + 1 < dot < |s| - 1 && SplitsEmail(s, at, dot);
    forall i | 0 <= i < |s| ensures !IsWhitespace(s[i]) && (i != at ==> s[i] != '@') {
      if i < at {
        assert s[i] == s[..at][i];
      } else if at < i < dot {
        assert s[i] == s[at + 1..dot][i - at - 1];
      } else if dot < i {
        assert s[i] == s[dot + 1..][i - dot - 1];
      }
    }
    assert IndexOf(s, '@') == at;
    var d := s[at + 1..];
    assert d[dot - at - 1] == '.';
    assert '@' !in d by {
      forall k | 0 <= k < |d| ensures d[k] != '@' {
        assert d[k] == s[at + 1 + k];
      }
    }
  }

  lemma WellFormedImpliesPattern(s: string)
    requires WellFormedEmail(s)
    ensures MatchesEmailPattern(s)
  {
    var at := IndexOf(s, '@');
    var d := s[at + 1..];
    var k :| 0 < k < |d| - 1 && d[k] == '.';
    var dot := at + 1 + k;
    assert s[dot] == '.';
    assert AllPlain(s[..at]) by {
      forall i | 0 <= i < at ensures Plain(s[..at][i]) {
        assert s[..at][i] == s[i];
      }
    }
    var domain, tld := s[at + 1..dot], s[dot + 1..];
    assert AllPlain(domain) by {
      forall i | 0 <= i < |domain| ensures Plain(domain[i]) {
        assert domain[i] == d[i];
      }
    }
    assert AllPlain(tld) by {
      forall i | 0 <= i < |tld| ensures Plain(tld[i]) {
        assert tld[i] == d[k + 1 + i];
      }
    }
    assert SplitsEmail(s, at, dot);
  }

  /** Both directions: the regular expression accepts exactly the well-formed addresses. */
  lemma PatternIffWellFormed(s: string)
    ensures MatchesEmailPattern(s) <==> WellFormedEmail(s)
  {
    if MatchesEmailPattern(s) {
      PatternImpliesWellFormed(s);
    }
    if WellFormedEmail(s) {
      WellFormedImpliesPattern(s);
    }
  }

  /** `isValidEmail` accepts exactly the values whose trimmed form is well formed. */
  lemma ValidEmailMeaning(value: string)
    ensures IsValidEmail(value) <==> WellFormedEmail(Trim(value))
  {
    PatternIffWellFormed(Trim(value));
  }

  /** Re-trimming inside `isValidEmail` changes nothing when the caller has trimmed already. */
  lemma ValidEmailOfTrimmed(value: string)
    ensures IsValidEmail(Trim(value)) == MatchesEmailPattern(Trim(value))
  {
    TrimIdempotent(value);
  }

  lemma EmailAccepted()
    ensures MatchesEmailPattern("a@b.com")
  {
    assert SplitsEmail("a@b.com", 1, 3);
  }

  lemma EmailWithoutDotRejected()
    ensures !MatchesEmailPattern("a@b")
  {
  }

  lemma EmailWithTwoAtsRejected()
    ensures !MatchesEmailPattern("a@b@c.d")
  {
    PatternIffWellFormed("a@b@c.d");
    assert IndexOf("a@b@c.d", '@') == 1;
    assert "a@b@c.d"[2..][1] == '@';
  }
}
