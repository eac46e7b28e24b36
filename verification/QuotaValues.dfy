/** What the limits are worth: which number a text stands for, how many kilobytes that
    many percent give, and which pairs of texts are refused. */
module QuotaValues {
  import opened Wrappers
  import opened Decimal
  import opened QuotaLimits
  import opened QuotaSyntax
  import opened HelperPods

  // ---------------------------------------------------------------- texts

  lemma WholePrefix(d: string)
    requires AllDigits(d)
    ensures NumberPrefix(d + "%") == d
  {
    var s := d + "%";
    assert s[..|d|] == d && s[|d|..] == "%";
    DigitRunIs(s, |d|);
    assert DigitRun("%") == 0;
  }

  lemma WholeValue(d: string)
    requires d != "" && AllDigits(d)
    ensures ExactValue(d) == Some(Value(d) as real)
  {
    AllDigitsRun(d);
  }

  lemma DigitsThenDot(d: string, rest: string)
    requires AllDigits(d)
    ensures var s := d + "." + rest; DigitRun(s) == |d| && s[|d|] == '.' && s[..|d|] == d && s[|d| + 1..] == rest
  {
    var s := d + "." + rest;
    assert s[..|d|] == d && s[|d| + 1..] == rest;
    DigitRunIs(s, |d|);
  }

  lemma FractionPrefix(d: string, f: string)
    requires AllDigits(d) && AllDigits(f)
    ensures NumberPrefix(d + "." + f + "%") == d + "." + f
  {
    var rest, b := f + "%", d + "." + f;
    DigitsThenDot(d, rest);
    assert rest[..|f|] == f;
    DigitRunIs(rest, |f|);
    assert b + "%" == d + "." + rest;
    assert (b + "%")[..|b|] == b;
  }

  lemma ValueAroundDot(s: string, i: nat)
    requires i < |s| && |s| > 1 && DigitRun(s) == i && s[i] == '.' && AllDigits(s[i + 1..])
    ensures ExactValue(s) == Some(Value(s[..i]) as real + Tenths(s[i + 1..]))
  {
  }

  lemma ValueOfParts(s: string, d: string, f: string)
    requires AllDigits(d) && AllDigits(f) && |s| == |d| + 1 + |f| > 1
    requires DigitRun(s) == |d| && s[|d|] == '.' && s[..|d|] == d && s[|d| + 1..] == f
    ensures ExactValue(s) == Some(Value(d) as real + Tenths(f))
  {
    ValueAroundDot(s, |d|);
  }

  lemma FractionValue(d: string, f: string)
    requires AllDigits(d) && AllDigits(f) && |d| + |f| > 0
    ensures ExactValue(d + "." + f) == Some(Value(d) as real + Tenths(f))
  {
    DigitsThenDot(d, f);
    ValueOfParts(d + "." + f, d, f);
  }

  /** Digits and a percent sign are a limit, and mean the number of the digits. */
  lemma WholeLimit(d: string)
    requires d != "" && AllDigits(d)
    ensures IsLimit(d + "%") <==> Value(d) as real < OutOfRange
    ensures IsLimit(d + "%") ==> Percentage(d + "%") == Value(d) as real
  {
    WholePrefix(d);
    WholeValue(d);
  }

  /** So are digits, a dot, digits and a percent sign, if there is a digit; the digits
      behind the dot count as tenths, hundredths and so on. */
  lemma FractionLimit(d: string, f: string)
    requires AllDigits(d) && AllDigits(f) && |d| + |f| > 0
    ensures var p := Value(d) as real + Value(f) as real / Pow10(|f|) as real;
      && (IsLimit(d + "." + f + "%") <==> p < OutOfRange)
      && (IsLimit(d + "." + f + "%") ==> Percentage(d + "." + f + "%") == p)
  {
    FractionPrefix(d, f);
    FractionValue(d, f);
  }

  lemma NumberParts(s: string) returns (d: string, f: string)
    requires ExactValue(s).Some?
    ensures AllDigits(d) && AllDigits(f) && |d| + |f| > 0
    ensures s == d + "." + f || (s == d && f == "")
  {
    var i := DigitRun(s);
    d, f := s[..i], "";
    if i == |s| {
      assert s[..i] == s;
    } else {
      f := s[i + 1..];
      assert s == s[..i] + [s[i]] + s[i + 1..];
    }
  }

  /** No other text is a limit. */
  lemma OnlyTheseLimits(limit: string) returns (d: string, f: string)
    requires IsLimit(limit)
    ensures AllDigits(d) && AllDigits(f) && |d| + |f| > 0
    ensures limit == d + "." + f + "%" || (limit == d + "%" && f == "")
  {
    d, f := NumberParts(NumberPrefix(limit));
  }

  // ---------------------------------------------------------------- what is printed, and refused

  lemma LeastIsUnique(m: int, k: int, x: real)
    requires 102400.0 * (m - 1) as real < x <= 102400.0 * m as real
    requires 102400.0 * (k - 1) as real < x <= 102400.0 * k as real
    ensures m == k
  {
  }

  lemma KilobytesAre(percent: real, size: nat, k: int)
    requires 0.0 <= percent <= 100.0
    requires 102400.0 * (k - 1) as real < size as real * (100.0 + percent) <= 102400.0 * k as real
    ensures Kilobytes(Exactly, percent, size) == k
  {
    KilobytesUpToHundred(percent, size);
    LeastIsUnique(k, Kilobytes(Exactly, percent, size), size as real * (100.0 + percent));
  }

  lemma LimitOf(limit: string, size: nat, k: nat)
    requires IsLimit(limit) && Kilobytes(Exactly, Percentage(limit), size) == k
    ensures Limit(Exactly, limit, size) == k
  {
  }

  /** What convertToK prints, in exact arithmetic: the least number of kilobytes that holds
      the size and as many percent of it as the text says. */
  lemma PrintedUpToHundred(limit: string, percent: real, size: nat, k: nat)
    requires IsLimit(limit) && Percentage(limit) == percent <= 100.0
    requires 102400.0 * (k - 1) as real < size as real * (100.0 + percent) <= 102400.0 * k as real
    ensures Limit(Exactly, limit, size) == k && Printed(Limit(Exactly, limit, size)) == Format(k) + "k"
  {
    KilobytesAre(percent, size, k);
    LimitOf(limit, size, k);
  }

  lemma SomeKilobytes(size: nat, percent: real, k: nat)
    requires size > 0 && percent >= 0.0 && size as real * (100.0 + percent) <= 102400.0 * k as real
    ensures k > 0
  {
    assert size as real * (100.0 + percent) > 0.0;
  }

  lemma AgreeWhenOrdered(soft: string, hard: string, size: nat, m: nat, n: nat)
    requires IsLimit(soft) && Limit(Exactly, soft, size) == m > 0
    requires IsLimit(hard) && Limit(Exactly, hard, size) == n > 0
    ensures LimitsAgree(Exactly, soft, hard, size) <==> m <= n
  {
  }

  /** For positive sizes, two limits of up to 100 percent are refused exactly when the
      numbers of kilobytes they stand for are in the wrong order. */
  lemma RefusedWhen(soft: string, p: real, hard: string, q: real, size: nat, m: nat, n: nat)
    requires IsLimit(soft) && Percentage(soft) == p <= 100.0 && IsLimit(hard) && Percentage(hard) == q <= 100.0
    requires 102400.0 * (m - 1) as real < size as real * (100.0 + p) <= 102400.0 * m as real
    requires 102400.0 * (n - 1) as real < size as real * (100.0 + q) <= 102400.0 * n as real
    requires size > 0
    ensures !LimitsAgree(Exactly, soft, hard, size) <==> m > n
  {
    PrintedUpToHundred(soft, p, size, m);
    PrintedUpToHundred(hard, q, size, n);
    SomeKilobytes(size, p, m);
    SomeKilobytes(size, q, n);
    AgreeWhenOrdered(soft, hard, size, m, n);
  }

  lemma TwoDigits(a: char, b: char)
    requires IsDigit(a) && IsDigit(b)
    ensures IsLimit([a, b] + "%") && Percentage([a, b] + "%") == (10 * DigitValue(a) + DigitValue(b)) as real
  {
    TwoDigitValue(a, b);
    RangeIsWide();
    WholeLimit([a, b]);
  }

  lemma TwoDigitValue(a: char, b: char)
    requires IsDigit(a) && IsDigit(b)
    ensures AllDigits([a, b]) && Value([a, b]) == 10 * DigitValue(a) + DigitValue(b)
  {
    assert [a, b][..1] == [a] && [a][..0] == "";
    assert Value([a]) == DigitValue(a);
  }

  lemma EightyAndTen(soft: string, hard: string)
    requires soft == "80%" && hard == "10%"
    ensures IsLimit(soft) && Percentage(soft) == 80.0 && IsLimit(hard) && Percentage(hard) == 10.0
  {
    TwoDigits('8', '0');
    TwoDigits('1', '0');
    assert soft == ['8', '0'] + "%" && hard == ['1', '0'] + "%";
  }

  lemma EightyIsPrinted(limit: string)
    requires IsLimit(limit) && Percentage(limit) == 80.0
    ensures Printed(Limit(Exactly, limit, 104857600)) == "184320k"
  {
    PrintedUpToHundred(limit, 80.0, 104857600, 184320);
    FormatOfExample();
  }

  lemma EightyIsTooMuch(soft: string, hard: string)
    requires IsLimit(soft) && Percentage(soft) == 80.0 && IsLimit(hard) && Percentage(hard) == 10.0
    ensures !LimitsAgree(Exactly, soft, hard, 104857600)
  {
    RefusedWhen(soft, 80.0, hard, 10.0, 104857600, 184320, 112640);
  }

  /** 80% on top of 100 MiB is printed as 184320k, and is too much for a hard limit of 10%. */
  lemma EightyPercent(soft: string, hard: string)
    requires soft == "80%" && hard == "10%"
    ensures IsLimit(soft) && Printed(Limit(Exactly, soft, 104857600)) == "184320k"
    ensures IsLimit(hard) && !LimitsAgree(Exactly, soft, hard, 104857600)
  {
    EightyAndTen(soft, hard);
    EightyIsPrinted(soft);
    EightyIsTooMuch(soft, hard);
  }

  lemma FormatOfExample()
    ensures Format(184320) == "184320"
  {
    assert Format(1) == "1" && Format(18) == "18" && Format(184) == "184";
    assert Format(1843) == "1843" && Format(18432) == "18432";
  }
}
