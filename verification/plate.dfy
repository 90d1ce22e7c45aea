/**
 Vehicle plates (components/ui/BottomNavbar.tsx): normalisation strips every
 character outside `[A-Za-z0-9]` and upper-cases the rest; a plate is valid when
 its normal form is the old Brazilian shape `LLLDDDD` or the Mercosul shape
 `LLLDLDD`.
 */
module Plate {
  import opened Text
  import opened Pattern

  /** `^[A-Z]{3}[0-9]{4}$` */
  const PatternA: seq<CharClass> := Repeat(Upper, 3) + Repeat(Digit, 4)

  /** `^[A-Z]{3}[0-9][A-Z][0-9]{2}$` (Mercosul) */
  const PatternB: seq<CharClass> := Repeat(Upper, 3) + [Digit, Upper] + Repeat(Digit, 2)

  /** `q.replace(/[^A-Za-z0-9]/g, "")`: keeps the ASCII letters and digits, in order. */
  function StripSeparators(q: string): (r: string)
    ensures |r| <= |q|
    ensures forall i | 0 <= i < |r| :: IsAsciiAlnum(r[i])
    ensures forall i | 0 <= i < |q| :: IsAsciiAlnum(q[i]) ==> q[i] in r
  {
    if q == [] then []
    else if IsAsciiAlnum(q[0]) then [q[0]] + StripSeparators(q[1..])
    else StripSeparators(q[1..])
  }

  /** `normalizePlate`: separators removed, then upper-cased. */
  function NormalizePlate(q: string): (p: string)
    ensures |p| <= |q|
    ensures forall i | 0 <= i < |p| :: IsAsciiUpper(p[i]) || IsAsciiDigit(p[i])
  {
    ToUpper(StripSeparators(q))
  }

  /** `isPlateValid`: the normal form matches pattern A or pattern B exactly. */
  predicate IsPlateValid(q: string) {
    var p := NormalizePlate(q);
    MatchesExactly(p, PatternA) || MatchesExactly(p, PatternB)
  }

  /**
   The two accepted shapes stated position by position: three letters, a
   digit, a digit (pattern A) or a letter (pattern B), two digits.
   */
  predicate PlateShape(p: string) {
    && |p| == 7
    && IsAsciiUpper(p[0]) && IsAsciiUpper(p[1]) && IsAsciiUpper(p[2])
    && IsAsciiDigit(p[3])
    && (IsAsciiDigit(p[4]) || IsAsciiUpper(p[4]))
    && IsAsciiDigit(p[5]) && IsAsciiDigit(p[6])
  }

  /** Every ASCII letter and digit of `q` survives as often as it occurs; nothing else survives. */
  lemma {:induction false} StripSeparatorsCounts(q: string)
    ensures forall c :: multiset(StripSeparators(q))[c] == if IsAsciiAlnum(c) then multiset(q)[c] else 0
  {
    if q != [] {
      StripSeparatorsCounts(q[1..]);
      assert q == [q[0]] + q[1..];
      assert multiset(q) == multiset([q[0]]) + multiset(q[1..]);
    }
  }

  lemma {:induction false} StripSeparatorsFixed(s: string)
    requires forall i | 0 <= i < |s| :: IsAsciiAlnum(s[i])
    ensures StripSeparators(s) == s
  {
    if s != [] {
      StripSeparatorsFixed(s[1..]);
    }
  }

  lemma {:induction false} StripSeparatorsConcat(a: string, b: string)
    ensures StripSeparators(a + b) == StripSeparators(a) + StripSeparators(b)
  {
    if a != [] {
      assert (a + b)[0] == a[0];
      assert (a + b)[1..] == a[1..] + b;
      StripSeparatorsConcat(a[1..], b);
      var head := if IsAsciiAlnum(a[0]) then [a[0]] else [];
      assert StripSeparators(a) == head + StripSeparators(a[1..]);
      assert StripSeparators(a + b) == head + StripSeparators(a[1..] + b);
      assert head + (StripSeparators(a[1..]) + StripSeparators(b))
          == (head + StripSeparators(a[1..])) + StripSeparators(b);
    } else {
      assert a + b == b;
    }
  }

  /** Normalisation distributes over concatenation. */
  lemma NormalizeConcat(a: string, b: string)
    ensures NormalizePlate(a + b) == NormalizePlate(a) + NormalizePlate(b)
  {
    StripSeparatorsConcat(a, b);
    ToUpperConcat(StripSeparators(a), StripSeparators(b));
  }

  /** Normalising twice gives the same result as normalising once. */
  lemma NormalizeIdempotent(q: string)
    ensures NormalizePlate(NormalizePlate(q)) == NormalizePlate(q)
  {
    var p := NormalizePlate(q);
    StripSeparatorsFixed(p);
    ToUpperFixed(p);
  }

  /** Validity does not change when the input is first normalised. */
  lemma ValidityInvariantUnderNormalize(q: string)
    ensures IsPlateValid(NormalizePlate(q)) == IsPlateValid(q)
  {
    NormalizeIdempotent(q);
  }

  /** Both directions: a plate is valid exactly when its normal form has one of the two shapes. */
  lemma ValidIffShape(q: string)
    ensures IsPlateValid(q) <==> PlateShape(NormalizePlate(q))
  {
  }

  /** A separator anywhere in the input is ignored. */
  lemma SeparatorIgnored(a: string, c: char, b: string)
    requires !IsAsciiAlnum(c)
    ensures NormalizePlate(a + [c] + b) == NormalizePlate(a + b)
    ensures IsPlateValid(a + [c] + b) == IsPlateValid(a + b)
  {
    NormalizeConcat(a + [c], b);
    NormalizeConcat(a, [c]);
    NormalizeConcat(a, b);
  }

  lemma {:induction false} StripSeparatorsCaseInsensitive(q: string, q': string)
    requires |q| == |q'|
    requires forall i | 0 <= i < |q| :: UpperChar(q[i]) == UpperChar(q'[i])
    ensures ToUpper(StripSeparators(q)) == ToUpper(StripSeparators(q'))
  {
    if q != [] {
      assert UpperChar(q[0]) == UpperChar(q'[0]);
      assert IsAsciiAlnum(q[0]) == IsAsciiAlnum(q'[0]);
      StripSeparatorsCaseInsensitive(q[1..], q'[1..]);
      if IsAsciiAlnum(q[0]) {
        ToUpperConcat([q[0]], StripSeparators(q[1..]));
        ToUpperConcat([q'[0]], StripSeparators(q'[1..]));
      }
    }
  }

  /** Two inputs that differ only in letter case normalise alike, so `"abc1234"` is as valid as `"ABC1234"`. */
  lemma CaseIgnored(q: string, q': string)
    requires |q| == |q'|
    requires forall i | 0 <= i < |q| :: UpperChar(q[i]) == UpperChar(q'[i])
    ensures NormalizePlate(q) == NormalizePlate(q')
    ensures IsPlateValid(q) == IsPlateValid(q')
  {
    StripSeparatorsCaseInsensitive(q, q');
  }

  /** A string already in normal form is its own normal form. */
  lemma NormalFormFixed(p: string)
    requires forall i | 0 <= i < |p| :: IsAsciiUpper(p[i]) || IsAsciiDigit(p[i])
    ensures NormalizePlate(p) == p
  {
    StripSeparatorsFixed(p);
    ToUpperFixed(p);
  }

  lemma ExampleOldShape()
    ensures IsPlateValid("ABC1234")
  {
    NormalFormFixed("ABC1234");
    assert PlateShape("ABC1234");
    ValidIffShape("ABC1234");
  }

  lemma ExampleSeparatorAndCase()
    ensures NormalizePlate("abc-1234") == "ABC1234"
    ensures IsPlateValid("abc-1234")
  {
    SeparatorIgnored("abc", '-', "1234");
    assert "abc" + ['-'] + "1234" == "abc-1234";
    assert "abc" + "1234" == "abc1234";
    ExampleLowerCase();
    ValidityInvariantUnderNormalize("abc-1234");
    ExampleOldShape();
  }

  lemma ExampleLowerCase()
    ensures NormalizePlate("abc1234") == "ABC1234"
  {
    UpperCaseExample();
    StripSeparatorsFixed("abc1234");
  }

  lemma UpperCaseExample()
    ensures ToUpper("abc1234") == "ABC1234"
  {
  }

  lemma ExampleMercosul()
    ensures IsPlateValid("ABC1D23")
  {
    NormalFormFixed("ABC1D23");
    assert PlateShape("ABC1D23");
    ValidIffShape("ABC1D23");
  }

  lemma ExampleRejected()
    ensures !IsPlateValid("AB1234") && !IsPlateValid("")
  {
  }
}
