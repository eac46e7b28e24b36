/** Decimal numerals: printing, reading, and comparing them as strings. */
module Decimal {
  predicate IsDigit(c: char) {
    '0' <= c <= '9'
  }

  predicate AllDigits(s: string) {
    forall i | 0 <= i < |s| :: IsDigit(s[i])
  }

  function DigitValue(c: char): nat
    requires IsDigit(c)
  {
    c as int - '0' as int
  }

  function DigitChar(n: nat): char
    requires n < 10
  {
    ('0' as int + n) as char
  }

  function Pow10(n: nat): (p: nat)
    ensures p > 0
  {
    if n == 0 then 1 else 10 * Pow10(n - 1)
  }

  /** The number a string of digits stands for. */
  function Value(s: string): nat
    requires AllDigits(s)
  {
    if s == "" then 0 else 10 * Value(s[..|s| - 1]) + DigitValue(s[|s| - 1])
  }

  /** How an integral value is printed. */
  function Format(n: nat): string {
    if n < 10 then [DigitChar(n)] else Format(n / 10) + [DigitChar(n % 10)]
  }

  /** Digits, at least one, and no leading zero except in "0" itself. */
  predicate Canonical(s: string) {
    s != "" && AllDigits(s) && (|s| > 1 ==> s[0] != '0')
  }

  lemma {:induction false} FormatIsCanonical(n: nat)
    ensures Canonical(Format(n)) && Value(Format(n)) == n
    ensures n > 0 ==> Format(n)[0] != '0'
  {
    if n < 10 {
      assert [DigitChar(n)][..0] == "";
    } else {
      FormatIsCanonical(n / 10);
      var front := Format(n / 10);
      assert Format(n)[..|front|] == front;
    }
  }

  /** Every canonical numeral is what its value prints as. */
  lemma {:induction false} FormatOfValue(s: string)
    requires Canonical(s)
    ensures Format(Value(s)) == s
    decreases |s|
  {
    var front, last := s[..|s| - 1], s[|s| - 1];
    assert s == front + [last];
    if front == "" {
      assert Value(s) == DigitValue(last);
    } else {
      FormatOfValue(front);
      ValueBounds(front);
      assert Value(s) / 10 == Value(front);
      assert Value(s) % 10 == DigitValue(last);
    }
  }

  /** A numeral of n digits is below 10^n, and with a non-zero first digit at least 10^(n-1). */
  lemma {:induction false} ValueBounds(s: string)
    requires s != "" && AllDigits(s)
    ensures Value(s) < Pow10(|s|)
    ensures s[0] != '0' ==> Pow10(|s| - 1) <= Value(s)
    decreases |s|
  {
    var front := s[..|s| - 1];
    if front != "" {
      ValueBounds(front);
      assert front[0] == s[0];
    }
  }

  /** Go's order on strings: the first difference decides, and a prefix comes first. */
  predicate Less(a: string, b: string) {
    if b == "" then false
    else if a == "" then true
    else if a[0] != b[0] then a[0] < b[0]
    else Less(a[1..], b[1..])
  }

  lemma TenTimes(d: nat, n: nat)
    ensures 10 * (d * Pow10(n)) == d * Pow10(n + 1)
  {
  }

  lemma {:induction false} ValueFromTheFront(s: string)
    requires s != "" && AllDigits(s)
    ensures Value(s) == DigitValue(s[0]) * Pow10(|s| - 1) + Value(s[1..])
    decreases |s|
  {
    if |s| > 1 {
      var front := s[..|s| - 1];
      ValueFromTheFront(front);
      assert s[1..][..|s| - 2] == front[1..];
      TenTimes(DigitValue(s[0]), |s| - 2);
    }
  }

  /** Among digit strings of one length, string order is numeric order. */
  lemma {:induction false} SameLengthOrder(a: string, b: string)
    requires |a| == |b| && AllDigits(a) && AllDigits(b)
    ensures Less(a, b) <==> Value(a) < Value(b)
    decreases |a|
  {
    if a != "" {
      ValueFromTheFront(a);
      ValueFromTheFront(b);
      if a[0] == b[0] {
        SameLengthOrder(a[1..], b[1..]);
      } else if |a| > 1 {
        ValueBounds(a[1..]);
        ValueBounds(b[1..]);
        DigitsDecide(DigitValue(a[0]), DigitValue(b[0]), Value(a[1..]), Value(b[1..]), Pow10(|a| - 1));
      }
    }
  }

  lemma DigitsDecide(x: nat, y: nat, lowX: nat, lowY: nat, p: nat)
    requires x != y && lowX < p && lowY < p
    ensures x * p + lowX < y * p + lowY <==> x < y
  {
    if x < y {
      assert (x + 1) * p <= y * p;
    } else {
      assert (y + 1) * p <= x * p;
    }
  }

  lemma {:induction false} LessWithSuffix(a: string, b: string, suffix: string)
    requires |a| == |b|
    ensures Less(a + suffix, b + suffix) <==> Less(a, b)
    decreases |a|
  {
    if a == "" {
      assert a + suffix == suffix == b + suffix;
      NotLessThanItself(suffix);
    } else {
      assert (a + suffix)[1..] == a[1..] + suffix && (b + suffix)[1..] == b[1..] + suffix;
      LessWithSuffix(a[1..], b[1..], suffix);
    }
  }

  lemma {:induction false} NotLessThanItself(s: string)
    ensures !Less(s, s)
  {
    if s != "" {
      NotLessThanItself(s[1..]);
    }
  }

  lemma {:induction false} Pow10Grows(m: nat, n: nat)
    requires m <= n
    ensures Pow10(m) <= Pow10(n)
  {
    if m < n {
      Pow10Grows(m, n - 1);
    }
  }

  /** The shortcut the quota code takes: first the lengths, then string order. */
  predicate Exceeds(a: string, b: string) {
    |a| > |b| || (|a| == |b| && Less(b, a))
  }

  /** For canonical numerals, with the same unit behind both, the shortcut decides the
      numeric order of every pair. */
  lemma ExceedsIsNumeric(a: string, b: string, unit: string)
    requires Canonical(a) && Canonical(b)
    ensures Exceeds(a + unit, b + unit) <==> Value(a) > Value(b)
  {
    if |a| == |b| {
      LessWithSuffix(b, a, unit);
      SameLengthOrder(b, a);
    } else {
      ValueBounds(a);
      ValueBounds(b);
      if |a| > |b| {
        Pow10Grows(|b|, |a| - 1);
      } else {
        Pow10Grows(|a|, |b| - 1);
      }
    }
  }
}
