/** The two grammars for quota limits: the pattern the StorageClass builder checks, and what
    the provisioner parses later. */
module QuotaSyntax {
  import opened Wrappers
  import opened Decimal
  import opened QuotaLimits
  import opened HelperPods

  datatype Regex =
    | Nothing                          // the empty string
    | Char(c: char)
    | Digit
    | Or(left: Regex, right: Regex)
    | Then(first: Regex, second: Regex)
    | Star(body: Regex)

  /** Whether a whole string matches. */
  ghost predicate Matches(re: Regex, s: string)
    decreases |s|, re
  {
    match re
    case Nothing => s == ""
    case Char(c) => s == [c]
    case Digit => |s| == 1 && IsDigit(s[0])
    case Or(left, right) => Matches(left, s) || Matches(right, s)
    case Then(first, second) => exists k | 0 <= k <= |s| :: Matches(first, s[..k]) && Matches(second, s[k..])
    case Star(body) => s == "" || exists k | 0 < k <= |s| :: Matches(body, s[..k]) && Matches(re, s[k..])
  }

  function Optional(re: Regex): Regex { Or(Nothing, re) }

  const Digits := Star(Digit)

  const OneToThree := Then(Digit, Then(Optional(Digit), Optional(Digit)))

  const BuilderBody :=
    Or(Then(OneToThree, Optional(Then(Char('.'), Digits))), Then(Char('.'), Then(Digit, Digits)))

  /** ^(^$|(^[0-9]{1,3}([.][0-9]*)?|[.][0-9]+)%)$; the inner anchors stand where they hold. */
  const BuilderPattern := Or(Nothing, Then(BuilderBody, Char('%')))

  /** [\d]*[\.]?[\d]* */
  const NumberPattern := Then(Digits, Then(Optional(Char('.')), Digits))

  /** A pattern matches exactly the strings of a language. */
  ghost predicate Means(re: Regex, language: string -> bool) {
    forall t :: Matches(re, t) <==> language(t)
  }

  lemma {:induction false} DigitsMatch(s: string)
    ensures Matches(Digits, s) <==> AllDigits(s)
  {
    if s != "" {
      assert s[..1] == [s[0]];
      DigitsMatch(s[1..]);
      if Matches(Digits, s) {
        var k :| 0 < k <= |s| && Matches(Digit, s[..k]) && Matches(Digits, s[k..]);
        assert k == 1;
      }
      if AllDigits(s) {
        assert Matches(Digit, s[..1]) && Matches(Digits, s[1..]);
      }
    }
  }

  lemma DigitsMean()
    ensures Means(Digits, AllDigits)
  {
    forall t
      ensures Matches(Digits, t) <==> AllDigits(t)
    {
      DigitsMatch(t);
    }
  }

  /** A dot and then digits, perhaps none. */
  predicate Fraction(s: string) {
    s != "" && s[0] == '.' && AllDigits(s[1..])
  }

  predicate MaybeFraction(s: string) { s == "" || Fraction(s) }

  lemma DotThenDigits(digits: Regex)
    requires Means(digits, AllDigits)
    ensures Means(Then(Char('.'), digits), Fraction)
  {
    forall s
      ensures Matches(Then(Char('.'), digits), s) <==> Fraction(s)
    {
      if Fraction(s) {
        assert s[..1] == ['.'];
        assert Matches(Char('.'), s[..1]) && Matches(digits, s[1..]);
      }
    }
  }

  predicate SomeDigits(s: string) { s != "" && AllDigits(s) }

  lemma DigitThenDigits(digits: Regex)
    requires Means(digits, AllDigits)
    ensures Means(Then(Digit, digits), SomeDigits)
  {
    forall s
      ensures Matches(Then(Digit, digits), s) <==> SomeDigits(s)
    {
      if Matches(Then(Digit, digits), s) {
        var k :| 0 <= k <= |s| && Matches(Digit, s[..k]) && Matches(digits, s[k..]);
        assert k == 1 && s == s[..1] + s[1..];
      }
      if SomeDigits(s) {
        assert Matches(Digit, s[..1]) && Matches(digits, s[1..]);
      }
    }
  }

  /** A dot and then at least one digit. */
  predicate LeadingDot(s: string) {
    |s| > 1 && s[0] == '.' && AllDigits(s[1..])
  }

  lemma DotThenSomeDigits(some: Regex)
    requires Means(some, SomeDigits)
    ensures Means(Then(Char('.'), some), LeadingDot)
  {
    forall s
      ensures Matches(Then(Char('.'), some), s) <==> LeadingDot(s)
    {
      if LeadingDot(s) {
        assert s[..1] == ['.'];
        assert Matches(Char('.'), s[..1]) && Matches(some, s[1..]);
      }
    }
  }

  predicate AtMostOneDigit(s: string) { |s| <= 1 && AllDigits(s) }
  predicate AtMostTwoDigits(s: string) { |s| <= 2 && AllDigits(s) }
  predicate OneToThreeDigits(s: string) { 1 <= |s| <= 3 && AllDigits(s) }

  lemma TwoDigitsSplit(one: Regex, s: string)
    requires Means(one, AtMostOneDigit) && AtMostTwoDigits(s)
    ensures Matches(Then(one, one), s)
  {
    var k := if |s| == 2 then 1 else 0;
    assert AtMostOneDigit(s[..k]) && AtMostOneDigit(s[k..]);
    assert Matches(one, s[..k]) && Matches(one, s[k..]);
  }

  lemma JoinedDigits(s: string, k: nat)
    requires k <= |s| && AtMostOneDigit(s[..k]) && AtMostOneDigit(s[k..])
    ensures AtMostTwoDigits(s)
  {
    assert forall i | 0 <= i < |s| :: IsDigit(s[i]) by {
      assert forall i | 0 <= i < |s| :: if i < k then s[i] == s[..k][i] else s[i] == s[k..][i - k];
    }
  }

  lemma TwoOptionalDigits(one: Regex)
    requires Means(one, AtMostOneDigit)
    ensures Means(Then(one, one), AtMostTwoDigits)
  {
    forall s
      ensures Matches(Then(one, one), s) <==> AtMostTwoDigits(s)
    {
      if AtMostTwoDigits(s) {
        TwoDigitsSplit(one, s);
      }
      if Matches(Then(one, one), s) {
        var k :| 0 <= k <= |s| && Matches(one, s[..k]) && Matches(one, s[k..]);
        JoinedDigits(s, k);
      }
    }
  }

  lemma DigitThenTwo(two: Regex)
    requires Means(two, AtMostTwoDigits)
    ensures Means(Then(Digit, two), OneToThreeDigits)
  {
    forall s
      ensures Matches(Then(Digit, two), s) <==> OneToThreeDigits(s)
    {
      if Matches(Then(Digit, two), s) {
        var k :| 0 <= k <= |s| && Matches(Digit, s[..k]) && Matches(two, s[k..]);
        assert k == 1 && s == s[..1] + s[1..] && AtMostTwoDigits(s[1..]);
      }
      if OneToThreeDigits(s) {
        assert AtMostTwoDigits(s[1..]);
        assert Matches(Digit, s[..1]) && Matches(two, s[1..]);
      }
    }
  }

  // ---------------------------------------------------------------- numerals

  /** Digits, perhaps followed by a dot and more digits. */
  predicate Numeral(s: string) {
    MaybeFraction(s[DigitRun(s)..])
  }

  lemma {:induction false} DigitRunIs(s: string, i: nat)
    requires i <= |s| && AllDigits(s[..i]) && (i == |s| || !IsDigit(s[i]))
    ensures DigitRun(s) == i
  {
    if i > 0 {
      assert s[0] == s[..i][0];
      assert s[1..][..i - 1] == s[..i][1..];
      DigitRunIs(s[1..], i - 1);
    }
  }

  lemma {:induction false} DigitRunStops(s: string, k: nat)
    requires k < |s| && !IsDigit(s[k])
    ensures DigitRun(s) <= k
  {
    if k > 0 && IsDigit(s[0]) {
      DigitRunStops(s[1..], k - 1);
    }
  }

  lemma DigitRunOfFront(s: string, n: nat)
    requires DigitRun(s) <= n <= |s|
    ensures DigitRun(s[..n]) == DigitRun(s)
  {
    assert s[..n][..DigitRun(s)] == s[..DigitRun(s)];
    DigitRunIs(s[..n], DigitRun(s));
  }

  lemma AllDigitsRun(s: string)
    ensures AllDigits(s) <==> DigitRun(s) == |s|
  {
    assert s[..|s|] == s;
    if AllDigits(s) {
      DigitRunIs(s, |s|);
    }
  }

  /** A numeral in front of something else is found whole. */
  lemma PrefixOfNumeral(b: string, c: char)
    requires !IsDigit(c) && c != '.'
    ensures NumberPrefix(b + [c]) == b <==> Numeral(b)
  {
    var s := b + [c];
    DigitRunStops(s, |b|);
    var i := DigitRun(s);
    assert s[..|b|] == b;
    DigitRunOfFront(s, |b|);
    if i < |b| && b[i] == '.' {
      FractionOfPrefix(b, c, i);
    } else {
      DigitRunIs(s[i..], 0);
    }
  }

  /** After the dot of a prefix come digits up to its end, or not. */
  lemma FractionOfPrefix(b: string, c: char, i: nat)
    requires !IsDigit(c) && i < |b|
    ensures var rest := (b + [c])[i + 1..]; DigitRun(rest) == |b| - i - 1 <==> AllDigits(b[i + 1..])
    ensures b[i..][1..] == b[i + 1..] && DigitRun((b + [c])[i + 1..]) <= |b| - i - 1
  {
    var rest := (b + [c])[i + 1..];
    DigitRunStops(rest, |b| - i - 1);
    assert rest[..|b| - i - 1] == b[i + 1..];
    DigitRunOfFront(rest, |b| - i - 1);
    AllDigitsRun(b[i + 1..]);
  }

  lemma NumeralFromParts(s: string, k: nat)
    requires k <= |s| && AllDigits(s[..k]) && DigitsOrFraction(s[k..])
    ensures Numeral(s)
  {
    if AllDigits(s[k..]) {
      assert s == s[..k] + s[k..];
      AllDigitsRun(s);
    } else {
      DigitRunIs(s, k);
    }
  }

  lemma NumeralMeans(digits: Regex, tail: Regex)
    requires Means(digits, AllDigits) && Means(tail, DigitsOrFraction)
    ensures Means(Then(digits, tail), Numeral)
  {
    forall s
      ensures Matches(Then(digits, tail), s) <==> Numeral(s)
    {
      if Matches(Then(digits, tail), s) {
        var k :| 0 <= k <= |s| && Matches(digits, s[..k]) && Matches(tail, s[k..]);
        assert AllDigits(s[..k]) && DigitsOrFraction(s[k..]);
        NumeralFromParts(s, k);
      }
      if Numeral(s) {
        var i := DigitRun(s);
        assert DigitsOrFraction(s[i..]);
        assert Matches(digits, s[..i]) && Matches(tail, s[i..]);
      }
    }
  }

  predicate DigitsOrFraction(s: string) { AllDigits(s) || Fraction(s) }

  predicate MaybeDot(s: string) { s == "" || s == "." }

  lemma TailMeans(dot: Regex, digits: Regex)
    requires Means(dot, MaybeDot) && Means(digits, AllDigits)
    ensures Means(Then(dot, digits), DigitsOrFraction)
  {
    forall s
      ensures Matches(Then(dot, digits), s) <==> DigitsOrFraction(s)
    {
      assert s[0..] == s && s[..0] == "";
      if Matches(Then(dot, digits), s) {
        var k :| 0 <= k <= |s| && Matches(dot, s[..k]) && Matches(digits, s[k..]);
        assert MaybeDot(s[..k]);
        if k > 0 {
          assert k == 1 && s[0] == s[..k][0];
        }
      }
      if AllDigits(s) {
        assert Matches(dot, s[..0]) && Matches(digits, s[0..]);
      }
      if Fraction(s) {
        assert MaybeDot(s[..1]);
        assert Matches(dot, s[..1]) && Matches(digits, s[1..]);
      }
    }
  }

  lemma NumberPatternMeansNumeral()
    ensures Means(NumberPattern, Numeral)
  {
    DigitsMean();
    assert Means(Optional(Char('.')), MaybeDot);
    TailMeans(Optional(Char('.')), Digits);
    NumeralMeans(Digits, Then(Optional(Char('.')), Digits));
  }

  /** Of the prefixes that are at least as long as NumberPrefix, it alone is a numeral. */
  lemma LongPrefix(s: string, n: nat)
    requires |NumberPrefix(s)| <= n <= |s|
    ensures Numeral(s[..n]) <==> n == |NumberPrefix(s)|
  {
    var i := DigitRun(s);
    if i < |s| && s[i] == '.' {
      var rest := s[i + 1..];
      DigitRunOfFront(s, n);
      assert s[..n][i..][1..] == rest[..n - i - 1];
      DigitRunOfFront(rest, n - i - 1);
      AllDigitsRun(rest[..n - i - 1]);
    } else {
      DigitRunIs(s[i..], 0);
      DigitRunOfFront(s, n);
    }
  }

  /** NumberPrefix finds a match of its pattern, and no longer prefix matches. */
  lemma NumberPrefixIsLongest(s: string)
    ensures NumberPrefix(s) <= s && Matches(NumberPattern, NumberPrefix(s))
    ensures forall n | |NumberPrefix(s)| < n <= |s| :: !Matches(NumberPattern, s[..n])
  {
    var p := NumberPrefix(s);
    forall n | |p| <= n <= |s|
      ensures Matches(NumberPattern, s[..n]) <==> n == |p|
    {
      LongPrefix(s, n);
      NumberPatternMeansNumeral();
    }
  }

  // ---------------------------------------------------------------- the two grammars

  predicate WholeBody(b: string) { Numeral(b) && 1 <= DigitRun(b) <= 3 }

  /** The strings in front of the percent sign that the builder accepts. */
  predicate Body(b: string) { WholeBody(b) || LeadingDot(b) }

  lemma WholeMeans(whole: Regex, fraction: Regex)
    requires Means(whole, OneToThreeDigits) && Means(fraction, MaybeFraction)
    ensures Means(Then(whole, fraction), WholeBody)
  {
    forall b
      ensures Matches(Then(whole, fraction), b) <==> WholeBody(b)
    {
      if Matches(Then(whole, fraction), b) {
        var k :| 0 <= k <= |b| && Matches(whole, b[..k]) && Matches(fraction, b[k..]);
        assert OneToThreeDigits(b[..k]) && MaybeFraction(b[k..]);
        DigitRunIs(b, k);
      }
      if WholeBody(b) {
        var k := DigitRun(b);
        assert OneToThreeDigits(b[..k]) && MaybeFraction(b[k..]);
        assert Matches(whole, b[..k]) && Matches(fraction, b[k..]);
      }
    }
  }

  lemma BodyMeans()
    ensures Means(BuilderBody, Body)
  {
    DigitsMean();
    assert Means(Optional(Digit), AtMostOneDigit);
    TwoOptionalDigits(Optional(Digit));
    DigitThenTwo(Then(Optional(Digit), Optional(Digit)));
    var fraction := Then(Char('.'), Digits);
    DotThenDigits(Digits);
    assert Means(Optional(fraction), MaybeFraction);
    WholeMeans(OneToThree, Optional(fraction));
    DigitThenDigits(Digits);
    DotThenSomeDigits(Then(Digit, Digits));
  }

  lemma PercentAtTheEnd(body: Regex, s: string)
    ensures Matches(Then(body, Char('%')), s) <==>
      s != "" && s[|s| - 1] == '%' && Matches(body, s[..|s| - 1])
  {
    if s != "" && s[|s| - 1] == '%' {
      assert s[|s| - 1..] == "%";
      assert Matches(Char('%'), s[|s| - 1..]);
    }
  }

  lemma FractionBelowOne(n: nat, d: nat)
    requires n < d
    ensures 0.0 <= n as real / d as real < 1.0
  {
  }

  lemma {:induction false} ValueBelow(s: string)
    requires AllDigits(s)
    ensures Value(s) < Pow10(|s|)
  {
    if s != "" {
      ValueBounds(s);
    }
  }

  lemma SmallNumeralValue(b: string)
    requires Numeral(b) && DigitRun(b) <= 3
    ensures ExactValue(b).Some? <==> DigitRun(b) > 0 || |b| > 1
    ensures ExactValue(b).Some? ==> ExactValue(b).value < 1024.0
  {
    var i := DigitRun(b);
    Pow10Grows(i, 3);
    assert Pow10(3) == 1000;
    ValueBelow(b[..i]);
    if i < |b| {
      assert b[i..][1..] == b[i + 1..];
      ValueBelow(b[i + 1..]);
      FractionBelowOne(Value(b[i + 1..]), Pow10(|b| - i - 1));
    } else {
      assert b[..i] == b;
    }
  }

  /** A numeral with at most three digits before the dot is far from overflowing. */
  lemma SmallNumeralParses(b: string)
    requires Numeral(b) && DigitRun(b) <= 3
    ensures ParseFloat(b).Some? <==> DigitRun(b) > 0 || |b| > 1
  {
    SmallNumeralValue(b);
    RangeIsWide();
  }

  /** The builder's check, without the pattern. */
  predicate ValidLimit(s: string) {
    s == "" || (s[|s| - 1] == '%' && Body(s[..|s| - 1]))
  }

  lemma ValidLimitIsThePattern(s: string)
    ensures ValidLimit(s) <==> Matches(BuilderPattern, s)
  {
    BodyMeans();
    PercentAtTheEnd(BuilderBody, s);
    assert Matches(BuilderPattern, s) <==> s == "" || Matches(Then(BuilderBody, Char('%')), s);
  }

  lemma PercentLimit(b: string)
    ensures Body(b) <==> IsLimit(b + "%") && DigitRun(b + "%") <= 3
  {
    PercentNumeral(b);
    if Numeral(b) && DigitRun(b) <= 3 {
      SmallNumeralParses(b);
      assert b[0..] == b;
    }
  }

  lemma PercentNumeral(b: string)
    ensures NumberPrefix(b + "%") + "%" == b + "%" <==> Numeral(b)
    ensures DigitRun(b + "%") == DigitRun(b)
  {
    var s := b + "%";
    PrefixOfNumeral(b, '%');
    assert NumberPrefix(s) + "%" == s <==> NumberPrefix(s) == s[..|b|];
    DigitRunStops(s, |b|);
    DigitRunOfFront(s, |b|);
  }

  lemma EndsInPercent(s: string)
    requires s != "" && s[|s| - 1] == '%'
    ensures s == s[..|s| - 1] + "%"
  {
  }

  lemma LimitEndsInPercent(s: string)
    requires s == NumberPrefix(s) + "%"
    ensures s != "" && s[|s| - 1] == '%'
  {
    assert (NumberPrefix(s) + "%")[|NumberPrefix(s)|] == '%';
  }

  /** The builder's pattern accepts exactly the empty limit and those limits with at most
      three digits before the dot that the provisioner parses: a limit that the builder let
      through never fails to parse. */
  lemma BuilderAgreesWithProvisioner(s: string)
    ensures Matches(BuilderPattern, s) <==> s == "" || (IsLimit(s) && DigitRun(s) <= 3)
  {
    ValidLimitIsThePattern(s);
    if s != "" && s[|s| - 1] == '%' {
      EndsInPercent(s);
      PercentLimit(s[..|s| - 1]);
    } else if IsLimit(s) {
      LimitEndsInPercent(s);
    }
  }

  /** What the builder lets through is empty or parses at provisioning. */
  lemma ValidLimitParses(s: string)
    requires ValidLimit(s) && s != ""
    ensures IsLimit(s)
  {
    ValidLimitIsThePattern(s);
    BuilderAgreesWithProvisioner(s);
  }
}
