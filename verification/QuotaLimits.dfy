/** The arithmetic of quota limits: a percentage over the requested size, in kilobytes.

    float64 is modelled by real numbers with a rounding function applied after every
    operation. All that is assumed of the rounding is that it is monotone, that rounding
    twice is rounding once, and that it leaves certain representable values alone (round
    to nearest, section 4.3.1 of IEEE 754-2019). Exact arithmetic is one instance. */
module QuotaLimits {
  import opened Wrappers
  import opened Decimal

  const TwoTo53: real := 9007199254740992.0

  predicate Integral(x: real) {
    x == x.Floor as real
  }

  /** Some of the values float64 represents: integers of magnitude up to 2^53, and those
      divided by 1024. */
  predicate Representable(x: real) {
    || (Integral(x) && -TwoTo53 <= x <= TwoTo53)
    || (Integral(x * 1024.0) && -TwoTo53 <= x * 1024.0 <= TwoTo53)
  }

  predicate AtMost(x: real, y: real) { x <= y }

  /** Monotone, idempotent, and exact on representable values. The triggers keep the solver
      from applying this to every pair of numbers in sight. */
  ghost predicate Rounding(rnd: real -> real) {
    && (forall x, y {:trigger AtMost(x, y)} | AtMost(x, y) :: rnd(x) <= rnd(y))
    && (forall x {:trigger rnd(rnd(x))} :: rnd(rnd(x)) == rnd(x))
    && (forall x {:trigger Representable(x)} | Representable(x) :: rnd(x) == x)
  }

  function Exactly(x: real): real { x }

  lemma ExactArithmeticIsARounding()
    ensures Rounding(Exactly)
  {
  }

  function Ceil(x: real): int {
    -((-x).Floor)
  }

  // ---------------------------------------------------------------- parsing

  /** The length of the digits at the front. */
  function DigitRun(s: string): (n: nat)
    ensures n <= |s| && AllDigits(s[..n])
    ensures n < |s| ==> !IsDigit(s[n])
  {
    if s == "" || !IsDigit(s[0]) then 0 else 1 + DigitRun(s[1..])
  }

  /** What the pattern [\d]*[\.]?[\d]* finds in a string: digits, a dot if there is one,
      and the digits after it. It always matches at the front, perhaps nothing. */
  function NumberPrefix(s: string): string {
    var i := DigitRun(s);
    var j := if i < |s| && s[i] == '.' then i + 1 else i;
    s[..j + DigitRun(s[j..])]
  }

  /** What digits behind a dot stand for. */
  function Tenths(f: string): (r: real)
    requires AllDigits(f)
    ensures r >= 0.0
  {
    Value(f) as real / Pow10(|f|) as real
  }

  /** The number written as digits with an optional fraction; there is none without a digit. */
  function ExactValue(s: string): (r: Option<real>)
    ensures r.Some? ==> r.value >= 0.0
  {
    var i := DigitRun(s);
    if i == |s| then
      if s == "" then None else Some(Value(s) as real)
    else if s[i] == '.' && AllDigits(s[i + 1..]) && |s| > 1 then
      Some(Value(s[..i]) as real + Tenths(s[i + 1..]))
    else
      None
  }

  function Pow2(n: nat): (p: nat)
    ensures p > 0
  {
    if n == 0 then 1 else 2 * Pow2(n - 1)
  }

  /** strconv.ParseFloat fails on what does not round to a finite float64: from half a unit
      above the largest one, 2^1024 - 2^971, on. */
  const OutOfRange: real := (Pow2(1024) - Pow2(970)) as real

  function ParseFloat(s: string): Option<real> {
    match ExactValue(s)
    case None => None
    case Some(x) => if x >= OutOfRange then None else Some(x)
  }

  /** The limits convertToK accepts, besides the empty one. */
  predicate IsLimit(limit: string) {
    limit == NumberPrefix(limit) + "%" && ParseFloat(NumberPrefix(limit)).Some?
  }

  function Percentage(limit: string): (p: real)
    requires IsLimit(limit)
    ensures p >= 0.0
  {
    ParseFloat(NumberPrefix(limit)).value
  }

  // ---------------------------------------------------------------- arithmetic

  function Capped(rnd: real -> real, percent: real): real {
    if rnd(percent) > 100.0 then 100.0 else rnd(percent)
  }

  function Times(x: real, y: real): real {
    x * y
  }

  /** The percentage, at most 100, times the size. */
  function Product(rnd: real -> real, percent: real, size: nat): real {
    Times(Capped(rnd, percent), rnd(size as real))
  }

  /** The rest of the way: over 100, plus the size, over 1024, rounded up. */
  function Total(rnd: real -> real, product: real, bytes: real): int {
    Ceil(rnd(rnd(rnd(rnd(product) / 100.0) + bytes) / 1024.0))
  }

  /** The size with its grace, in kilobytes, rounded up. */
  function Kilobytes(rnd: real -> real, percent: real, size: nat): int {
    Total(rnd, Product(rnd, percent, size), rnd(size as real))
  }

  lemma CeilMonotone(x: real, y: real)
    requires x <= y
    ensures Ceil(x) <= Ceil(y)
  {
  }

  lemma TimesMonotone(x: real, y: real, z: real)
    requires x <= y && z >= 0.0
    ensures Times(x, z) <= Times(y, z)
  {
  }

  lemma CappedBounds(rnd: real -> real, p: real, q: real)
    requires Rounding(rnd)
    ensures p <= q ==> Capped(rnd, p) <= Capped(rnd, q)
    ensures p >= 0.0 ==> 0.0 <= Capped(rnd, p) <= 100.0
  {
    assert Representable(0.0) && rnd(0.0) == 0.0;
    assert AtMost(p, q) || q < p;
    assert AtMost(0.0, p) || p < 0.0;
  }

  lemma SizeNotNegative(rnd: real -> real, size: nat)
    requires Rounding(rnd)
    ensures rnd(size as real) >= 0.0
  {
    assert Representable(0.0) && AtMost(0.0, size as real);
  }

  lemma ProductMonotone(rnd: real -> real, p: real, q: real, size: nat)
    requires Rounding(rnd) && p <= q
    ensures Product(rnd, p, size) <= Product(rnd, q, size)
  {
    CappedBounds(rnd, p, q);
    SizeNotNegative(rnd, size);
    TimesMonotone(Capped(rnd, p), Capped(rnd, q), rnd(size as real));
  }

  lemma TotalMonotone(rnd: real -> real, u: real, v: real, bytes: real)
    requires Rounding(rnd) && u <= v
    ensures Total(rnd, u, bytes) <= Total(rnd, v, bytes)
  {
    var a, b := rnd(u) / 100.0, rnd(v) / 100.0;
    var c, d := rnd(a) + bytes, rnd(b) + bytes;
    var e, f := rnd(c) / 1024.0, rnd(d) / 1024.0;
    assert AtMost(u, v) && AtMost(a, b) && AtMost(c, d) && AtMost(e, f);
    CeilMonotone(rnd(e), rnd(f));
  }

  /** A larger percentage never gives fewer kilobytes, under any rounding. */
  lemma KilobytesMonotone(rnd: real -> real, p: real, q: real, size: nat)
    requires Rounding(rnd) && p <= q
    ensures Kilobytes(rnd, p, size) <= Kilobytes(rnd, q, size)
  {
    ProductMonotone(rnd, p, q, size);
    TotalMonotone(rnd, Product(rnd, p, size), Product(rnd, q, size), rnd(size as real));
  }

  lemma NoGrace(rnd: real -> real, size: nat)
    requires Rounding(rnd)
    ensures Total(rnd, 0.0, rnd(size as real)) == Ceil(rnd(rnd(size as real) / 1024.0))
  {
    assert Representable(0.0) && rnd(0.0) == 0.0;
    assert rnd(rnd(size as real)) == rnd(size as real);
  }

  /** The grace is never negative, so the result never falls below the size on its own. */
  lemma GraceOnlyAdds(rnd: real -> real, percent: real, size: nat)
    requires Rounding(rnd) && percent >= 0.0
    ensures Kilobytes(rnd, percent, size) >= Ceil(rnd(rnd(size as real) / 1024.0))
  {
    CappedBounds(rnd, percent, percent);
    SizeNotNegative(rnd, size);
    TimesMonotone(0.0, Capped(rnd, percent), rnd(size as real));
    TotalMonotone(rnd, 0.0, Product(rnd, percent, size), rnd(size as real));
    NoGrace(rnd, size);
  }

  /** No percentage is the same as no grace: what validateLimits computes for two empty
      limits is what a limit of zero percent gives. */
  lemma ZeroPercent(rnd: real -> real, size: nat)
    requires Rounding(rnd)
    ensures Kilobytes(rnd, 0.0, size) == Ceil(rnd(rnd(size as real) / 1024.0))
  {
    assert Representable(0.0) && rnd(0.0) == 0.0;
    assert Capped(rnd, 0.0) == 0.0 && Product(rnd, 0.0, size) == 0.0;
    NoGrace(rnd, size);
  }

  /** In exact arithmetic the limit covers the size, and at most twice the size with less
      than one kilobyte lost to rounding up. */
  lemma ExactBounds(percent: real, size: nat)
    requires percent >= 0.0
    ensures var k := Kilobytes(Exactly, percent, size); size <= 1024 * k < 2 * size + 1024
  {
    ExactArithmeticIsARounding();
    CappedBounds(Exactly, percent, percent);
    var bytes := size as real;
    TimesMonotone(0.0, Capped(Exactly, percent), bytes);
    TimesMonotone(Capped(Exactly, percent), 100.0, bytes);
    var x := (Product(Exactly, percent, size) / 100.0 + bytes) / 1024.0;
    assert bytes / 1024.0 <= x <= 2.0 * bytes / 1024.0;
    assert Kilobytes(Exactly, percent, size) == Ceil(x);
    assert x <= Ceil(x) as real < x + 1.0;
  }

  /** The lower bound survives any rounding that leaves the size and its kilobytes alone. */
  lemma LimitCoversSize(rnd: real -> real, percent: real, size: nat)
    requires Rounding(rnd) && percent >= 0.0
    requires rnd(size as real) == size as real && rnd(size as real / 1024.0) == size as real / 1024.0
    ensures size <= 1024 * Kilobytes(rnd, percent, size)
  {
    var bytes := size as real;
    GraceOnlyAdds(rnd, percent, size);
    assert bytes / 1024.0 * 1024.0 == bytes;
    assert bytes / 1024.0 <= Ceil(bytes / 1024.0) as real;
  }

  /** Every rounding leaves sizes up to 2^53 alone. */
  lemma SmallSizesAreExact(rnd: real -> real, size: nat)
    requires Rounding(rnd) && size as real <= TwoTo53
    ensures rnd(size as real) == size as real && rnd(size as real / 1024.0) == size as real / 1024.0
  {
    var bytes := size as real;
    assert Integral(bytes) && Representable(bytes);
    assert bytes / 1024.0 * 1024.0 == bytes && Representable(bytes / 1024.0);
  }

  /** The kilobytes without any grace. */
  function Plain(rnd: real -> real, size: nat): int {
    Ceil(rnd(rnd(size as real) / 1024.0))
  }

  /** Under any rounding, all limits cover the size if and only if the plain kilobytes do. */
  lemma WhenLimitsCoverSize(rnd: real -> real, size: nat)
    requires Rounding(rnd)
    ensures (forall percent | percent >= 0.0 :: size <= 1024 * Kilobytes(rnd, percent, size)) <==> size <= 1024 * Plain(rnd, size)
  {
    ZeroPercent(rnd, size);
    forall percent | percent >= 0.0
      ensures Kilobytes(rnd, percent, size) >= Plain(rnd, size)
    {
      GraceOnlyAdds(rnd, percent, size);
    }
    if forall percent | percent >= 0.0 :: size <= 1024 * Kilobytes(rnd, percent, size) {
      assert size <= 1024 * Kilobytes(rnd, 0.0, size);
    }
  }

  function ToEven(x: real): real {
    if TwoTo53 < x < TwoTo53 + 2.0 then TwoTo53 else x
  }

  /** A size that rounds down may get a limit below itself, the smallest being 2^53 + 1. */
  lemma LimitMayMissLargeSize()
    ensures Rounding(ToEven)
    ensures 1024 * Kilobytes(ToEven, 0.0, 9007199254740993) < 9007199254740993
  {
    ToEvenIsARounding();
    ZeroPercent(ToEven, 9007199254740993);
    assert ToEven(9007199254740993 as real) == TwoTo53;
    assert Ceil(8796093022208.0) == 8796093022208;
  }

  lemma ToEvenIsARounding()
    ensures Rounding(ToEven)
  {
    assert forall x | TwoTo53 < x < TwoTo53 + 2.0 && Integral(x) :: x == TwoTo53 + 1.0;
  }

  /** A positive size gives at least one kilobyte, so the printed sentinel "0k" means that
      no limit was given. */
  lemma PositiveSizeIsNotZero(rnd: real -> real, percent: real, size: nat)
    requires Rounding(rnd) && percent >= 0.0 && size > 0
    ensures Kilobytes(rnd, percent, size) >= 1
  {
    assert Representable(1.0) && rnd(1.0) == 1.0;
    assert 1.0 / 1024.0 * 1024.0 == 1.0;
    assert Representable(1.0 / 1024.0) && rnd(1.0 / 1024.0) == 1.0 / 1024.0;
    GraceOnlyAdds(rnd, percent, size);
    assert AtMost(1.0, size as real) && AtMost(1.0 / 1024.0, rnd(size as real) / 1024.0);
  }

  lemma ZeroSizeIsZero(rnd: real -> real, percent: real)
    requires Rounding(rnd)
    ensures Kilobytes(rnd, percent, 0) == 0
  {
    assert Representable(0.0) && rnd(0.0) == 0.0;
    assert Product(rnd, percent, 0) == 0.0;
    NoGrace(rnd, 0);
  }

  lemma NotNegative(rnd: real -> real, percent: real, size: nat)
    requires Rounding(rnd) && percent >= 0.0
    ensures Kilobytes(rnd, percent, size) >= 0
    ensures Ceil(rnd(rnd(size as real) / 1024.0)) >= 0
  {
    SizeNotNegative(rnd, size);
    assert Representable(0.0) && AtMost(0.0, rnd(size as real) / 1024.0);
    GraceOnlyAdds(rnd, percent, size);
  }

  // ---------------------------------------------------------------- how many kilobytes

  lemma LeastAbove(x: real)
    ensures (Ceil(x) - 1) as real < x <= Ceil(x) as real
  {
  }

  lemma ExactGrowth(percent: real, size: nat)
    requires 0.0 <= percent <= 100.0
    ensures Kilobytes(Exactly, percent, size) == Ceil(size as real * (100.0 + percent) / 102400.0)
  {
    var bytes := size as real;
    assert Product(Exactly, percent, size) == percent * bytes;
    assert (percent * bytes / 100.0 + bytes) / 1024.0 == bytes * (100.0 + percent) / 102400.0;
  }

  /** Up to 100 percent, and in exact arithmetic, the result is the least number of
      kilobytes that holds the size and that many percent of it. */
  lemma KilobytesUpToHundred(percent: real, size: nat)
    requires 0.0 <= percent <= 100.0
    ensures var k := Kilobytes(Exactly, percent, size);
      102400.0 * (k - 1) as real < size as real * (100.0 + percent) <= 102400.0 * k as real
  {
    ExactGrowth(percent, size);
    LeastAbove(size as real * (100.0 + percent) / 102400.0);
  }

  /** From 100 percent on it is the least number that holds twice the size. */
  lemma KilobytesFromHundred(percent: real, size: nat)
    requires percent >= 100.0
    ensures var k := Kilobytes(Exactly, percent, size); 1024 * (k - 1) < 2 * size <= 1024 * k
  {
    assert Capped(Exactly, percent) == 100.0;
    assert Kilobytes(Exactly, percent, size) == Kilobytes(Exactly, 100.0, size);
    KilobytesUpToHundred(100.0, size);
  }

  /** The documentation promises the size and that many percent of it, whatever the percentage.
      The limit is that exactly if the percentage is at most 100, or if what it asks for still
      fits into the kilobytes of twice the size. */
  lemma WhenGraceIsAsDocumented(percent: real, size: nat)
    requires percent >= 0.0
    ensures var k, promised := Kilobytes(Exactly, percent, size), size as real * (100.0 + percent);
      102400.0 * (k - 1) as real < promised <= 102400.0 * k as real <==>
      percent <= 100.0 || promised <= 102400.0 * ((2 * size + 1023) / 1024) as real
  {
    if percent <= 100.0 {
      KilobytesUpToHundred(percent, size);
    } else {
      KilobytesFromHundred(percent, size);
      AtLeastTwice(percent, size);
      KilobytesOfTwice(Kilobytes(Exactly, percent, size), size, size as real * (100.0 + percent));
    }
  }

  lemma AtLeastTwice(percent: real, size: nat)
    requires percent >= 100.0
    ensures size as real * (100.0 + percent) >= 200.0 * size as real
  {
    TimesMonotone(200.0, 100.0 + percent, size as real);
  }

  lemma KilobytesOfTwice(k: int, size: nat, promised: real)
    requires 1024 * (k - 1) < 2 * size <= 1024 * k && promised >= 200.0 * size as real
    ensures k == (2 * size + 1023) / 1024 && 102400.0 * (k - 1) as real < promised
  {
    assert 102400.0 * (k - 1) as real == 100.0 * (1024 * (k - 1)) as real;
  }

  /** With 200% one KiB becomes two, where the documentation promises three. */
  lemma GraceIsCapped()
    ensures Kilobytes(Exactly, 200.0, 1024) == 2
    ensures 102400.0 * 2.0 < 1024.0 * (100.0 + 200.0) == 102400.0 * 3.0
  {
    KilobytesFromHundred(200.0, 1024);
  }

  /** The result does not change between 100 percent and anything above it, under any
      rounding. */
  lemma HundredIsTheMost(rnd: real -> real, percent: real, size: nat)
    requires Rounding(rnd) && percent >= 100.0
    ensures Kilobytes(rnd, percent, size) == Kilobytes(rnd, 100.0, size)
  {
    assert Representable(100.0) && rnd(100.0) == 100.0;
    assert AtMost(100.0, percent);
  }

  /** Rounding never leaves the representable numbers around a value. */
  lemma RoundsBetween(rnd: real -> real, low: real, x: real, high: real)
    requires Rounding(rnd) && low <= x <= high && Representable(low) && Representable(high)
    ensures low <= rnd(x) <= high
  {
    assert AtMost(low, x) && AtMost(x, high);
  }

  lemma WholeProduct(rnd: real -> real, percent: nat, size: nat)
    requires Rounding(rnd) && percent <= 100 && 100 * size <= 9007199254740992
    ensures rnd(Product(rnd, percent as real, size)) == (percent * size) as real
  {
    TimesAtMost(percent, size);
    assert Representable(percent as real) && Representable(size as real);
    assert Integral((percent * size) as real) && Representable((percent * size) as real);
    assert Product(rnd, percent as real, size) == (percent * size) as real;
  }

  lemma TimesAtMost(percent: nat, size: nat)
    requires percent <= 100
    ensures percent * size <= 100 * size
  {
  }

  /** Rounded or not, dividing by 1024 and rounding up stays between what whole numbers of
      bytes below and above give. */
  lemma LastSteps(rnd: real -> real, low: nat, sum: real, high: nat)
    requires Rounding(rnd) && low as real <= sum <= high as real && high as real <= TwoTo53
    ensures Ceil(low as real / 1024.0) <= Ceil(rnd(rnd(sum) / 1024.0)) <= Ceil(high as real / 1024.0)
  {
    assert Integral(low as real) && Integral(high as real);
    RoundsBetween(rnd, low as real, sum, high as real);
    var a, b := low as real / 1024.0, high as real / 1024.0;
    assert a * 1024.0 == low as real && b * 1024.0 == high as real;
    RoundsBetween(rnd, a, rnd(sum) / 1024.0, b);
    CeilMonotone(a, rnd(rnd(sum) / 1024.0));
    CeilMonotone(rnd(rnd(sum) / 1024.0), b);
  }

  /** Under any rounding, whole percentages of sizes up to a hundredth of 2^53 give the least
      number of kilobytes that holds the size and the grace, or one more than that where a
      fraction of a byte was rounded up. */
  lemma WholePercentages(rnd: real -> real, percent: nat, size: nat)
    requires Rounding(rnd) && percent <= 100 && 100 * size <= 9007199254740992
    ensures var k := Kilobytes(rnd, percent as real, size);
      size + percent * size / 100 <= 1024 * k && 1024 * (k - 1) < size + (percent * size + 99) / 100
  {
    WholeProduct(rnd, percent, size);
    TimesAtMost(percent, size);
    var product := percent * size;
    var low, high := product / 100, (product + 99) / 100;
    GraceBetween(rnd, product, size);
    LastSteps(rnd, size + low, rnd(product as real / 100.0) + size as real, size + high);
    LeastAbove((size + low) as real / 1024.0);
    LeastAbove((size + high) as real / 1024.0);
  }

  lemma GraceBetween(rnd: real -> real, product: nat, size: nat)
    requires Rounding(rnd) && product <= 100 * size <= 9007199254740992
    ensures rnd(size as real) == size as real
    ensures (size + product / 100) as real <= rnd(product as real / 100.0) + size as real <= (size + (product + 99) / 100) as real
    ensures size + (product + 99) / 100 <= 9007199254740992
  {
    var low, high := product / 100, (product + 99) / 100;
    assert Integral(low as real) && Integral(high as real) && Integral(size as real);
    RoundsBetween(rnd, low as real, product as real / 100.0, high as real);
    RoundsBetween(rnd, size as real, size as real, size as real);
  }
}
