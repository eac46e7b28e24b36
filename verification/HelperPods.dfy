/** The options a helper pod is launched with, and the limits written into them. */
module HelperPods {
  import opened Wrappers
  import opened Decimal
  import opened QuotaLimits
  import opened NodeSelection
  import opened HostpathMachine

  // ---------------------------------------------------------------- limits

  predicate Accepted(limit: string) {
    limit == "" || IsLimit(limit)
  }

  /** A limit in kilobytes as convertToK prints it. */
  function Printed(kilobytes: nat): string {
    Format(kilobytes) + "k"
  }

  lemma PrintedZero(k: nat)
    ensures Printed(k) == "0k" <==> k == 0
  {
    FormatIsCanonical(k);
    FormatIsCanonical(0);
    assert Format(0) == "0";
    assert Printed(k)[..|Format(k)|] == Format(k);
    assert "0k"[..1] == "0";
    if Printed(k) == "0k" {
      assert |Format(k)| == 1;
    }
  }

  lemma PrintedOrder(m: nat, n: nat)
    ensures Exceeds(Printed(m), Printed(n)) <==> m > n
  {
    FormatIsCanonical(m);
    FormatIsCanonical(n);
    ExceedsIsNumeric(Format(m), Format(n), "k");
  }

  /** The kilobytes of a limit; 0 stands for a limit that was not given. */
  function Limit(rnd: real -> real, limit: string, size: nat): nat {
    if !IsLimit(limit) then 0
    else
      var k := Kilobytes(rnd, Percentage(limit), size);
      if k < 0 then 0 else k
  }

  lemma LimitIsKilobytes(rnd: real -> real, limit: string, size: nat)
    requires Rounding(rnd) && IsLimit(limit)
    ensures Limit(rnd, limit, size) == Kilobytes(rnd, Percentage(limit), size)
  {
    NotNegative(rnd, Percentage(limit), size);
  }

  /** The sentinel "0k" is printed only for a limit that was not given, or a size of zero. */
  lemma LimitIsZero(rnd: real -> real, limit: string, size: nat)
    requires Rounding(rnd) && Accepted(limit)
    ensures Printed(Limit(rnd, limit, size)) == "0k" <==> limit == "" || size == 0
  {
    PrintedZero(Limit(rnd, limit, size));
    if limit != "" {
      LimitIsKilobytes(rnd, limit, size);
      if size > 0 {
        PositiveSizeIsNotZero(rnd, Percentage(limit), size);
      } else {
        ZeroSizeIsZero(rnd, Percentage(limit));
      }
    }
  }

  lemma GrowthUnderRounding(rnd: real -> real, percent: real, size: nat)
    requires Rounding(rnd) && 100 * size <= 9007199254740992
    ensures var k := Kilobytes(rnd, percent, size);
      forall p: nat | percent == p as real && p <= 100 ::
        size + p * size / 100 <= 1024 * k && 1024 * (k - 1) < size + (p * size + 99) / 100
    ensures var k := Kilobytes(rnd, percent, size); percent >= 100.0 ==> 1024 * (k - 1) < 2 * size <= 1024 * k
  {
    forall p: nat | percent == p as real && p <= 100
      ensures var k := Kilobytes(rnd, percent, size);
        size + p * size / 100 <= 1024 * k && 1024 * (k - 1) < size + (p * size + 99) / 100
    {
      WholePercentages(rnd, p, size);
    }
    if percent >= 100.0 {
      HundredIsTheMost(rnd, percent, size);
      WholePercentages(rnd, 100, size);
    }
  }

  /** The arithmetic of convertToK: the value is rewritten step by step, and rounded after
      each operation. */
  method Grown(rnd: real -> real, parsed: real, pvcStorage: nat) returns (kilobytes: int)
    ensures kilobytes == Kilobytes(rnd, parsed, pvcStorage)
    ensures Rounding(rnd) ==> forall p: nat | parsed == p as real && p <= 100 && 100 * pvcStorage <= 9007199254740992 ::
      pvcStorage + p * pvcStorage / 100 <= 1024 * kilobytes && 1024 * (kilobytes - 1) < pvcStorage + (p * pvcStorage + 99) / 100
    ensures Rounding(rnd) && parsed >= 100.0 && 100 * pvcStorage <= 9007199254740992 ==>
      1024 * (kilobytes - 1) < 2 * pvcStorage <= 1024 * kilobytes
  {
    if Rounding(rnd) && 100 * pvcStorage <= 9007199254740992 {
      GrowthUnderRounding(rnd, parsed, pvcStorage);
    }
    var value := rnd(parsed);
    if value > 100.0 {
      value := 100.0;
    }
    value := rnd(Times(value, rnd(pvcStorage as real)));
    value := rnd(value / 100.0);
    value := rnd(value + rnd(pvcStorage as real));
    value := rnd(value / 1024.0);
    return Ceil(value);
  }

  /** convertToK: the empty limit prints the sentinel, anything but a number and a percent
      sign is an error. */
  method ConvertToK(rnd: real -> real, limit: string, pvcStorage: nat) returns (r: Result<string>)
    requires Rounding(rnd)
    ensures r.Success? <==> Accepted(limit)
    ensures r.Success? ==> r.value == Printed(Limit(rnd, limit, pvcStorage))
  {
    if |limit| == 0 {
      return Success("0k");
    }
    var valueString := NumberPrefix(limit);
    if limit != valueString + "%" {
      return Failure("invalid format for limit grace");
    }
    var parsed := ParseFloat(valueString);
    if parsed.None? {
      return Failure("invalid format, cannot parse");
    }
    LimitIsKilobytes(rnd, limit, pvcStorage);
    var value := Grown(rnd, parsed.value, pvcStorage);
    return Success(Printed(value));
  }

  /** What validateLimits sets when neither limit was given: the size itself. */
  function PlainSize(rnd: real -> real, size: nat): nat {
    var k := Ceil(rnd(rnd(size as real) / 1024.0));
    if k < 0 then 0 else k
  }

  /** Two limits that were not given have the same effect as a limit of zero percent. */
  lemma PlainSizeIsZeroPercent(rnd: real -> real, size: nat)
    requires Rounding(rnd)
    ensures PlainSize(rnd, size) == Ceil(rnd(rnd(size as real) / 1024.0))
    ensures IsLimit("0%") && Percentage("0%") == 0.0
    ensures PlainSize(rnd, size) == Limit(rnd, "0%", size)
  {
    NotNegative(rnd, 0.0, size);
    ZeroPercent(rnd, size);
    ZeroPercentParses();
    LimitIsKilobytes(rnd, "0%", size);
  }

  lemma ZeroPercentParses()
    ensures IsLimit("0%") && Percentage("0%") == 0.0
  {
    assert DigitRun("%") == 0 && DigitRun("0%") == 1 && DigitRun("0") == 1;
    assert "0%"[1..] == "%" && "0%"[..1] == "0" && "0"[1..] == "";
    assert NumberPrefix("0%") == "0";
    assert "0"[..0] == "" && Value("0") == 0;
    RangeIsWide();
  }

  lemma {:induction false} Pow2Grows(m: nat, n: nat)
    requires m <= n
    ensures Pow2(m) <= Pow2(n)
  {
    if m < n {
      Pow2Grows(m, n - 1);
    }
  }

  lemma PowersApart(m: nat, n: nat)
    requires m < n && n > 10
    ensures Pow2(n) - Pow2(m) >= 1024
  {
    Pow2Grows(m, n - 1);
    Pow2Grows(10, n - 1);
    assert Pow2(5) == 32 && Pow2(10) == 1024;
  }

  lemma RangeIsWide()
    ensures OutOfRange >= 1024.0
  {
    PowersApart(970, 1024);
  }

  /** When validateLimits lets a pair of limits pass. */
  predicate LimitsAgree(rnd: real -> real, soft: string, hard: string, size: nat) {
    && Accepted(soft) && Accepted(hard)
    && (Limit(rnd, soft, size) == 0 || Limit(rnd, hard, size) == 0 || Limit(rnd, soft, size) <= Limit(rnd, hard, size))
  }

  /** A pair of parseable limits is rejected exactly when the size is positive, both were
      given, and soft exceeds hard in kilobytes. */
  lemma WhenLimitsDisagree(rnd: real -> real, soft: string, hard: string, size: nat)
    requires Rounding(rnd) && Accepted(soft) && Accepted(hard)
    ensures !LimitsAgree(rnd, soft, hard, size) <==>
      && size > 0 && soft != "" && hard != ""
      && Kilobytes(rnd, Percentage(soft), size) > Kilobytes(rnd, Percentage(hard), size)
  {
    LimitIsZero(rnd, soft, size);
    LimitIsZero(rnd, hard, size);
    PrintedZero(Limit(rnd, soft, size));
    PrintedZero(Limit(rnd, hard, size));
    if soft != "" {
      LimitIsKilobytes(rnd, soft, size);
    }
    if hard != "" {
      LimitIsKilobytes(rnd, hard, size);
    }
  }

  /** A soft percentage that is at most the hard one is never rejected, whatever the size and
      the rounding. */
  lemma OrderedPercentagesAgree(rnd: real -> real, soft: string, hard: string, size: nat)
    requires Rounding(rnd) && IsLimit(soft) && IsLimit(hard) && Percentage(soft) <= Percentage(hard)
    ensures LimitsAgree(rnd, soft, hard, size)
  {
    WhenLimitsDisagree(rnd, soft, hard, size);
    KilobytesMonotone(rnd, Percentage(soft), Percentage(hard), size);
  }

  /** What the quota command gets for one of the two limits. */
  function Written(rnd: real -> real, limit: string, other: string, size: nat): string {
    if Limit(rnd, limit, size) == 0 && Limit(rnd, other, size) == 0 then Printed(PlainSize(rnd, size))
    else Printed(Limit(rnd, limit, size))
  }

  /** For a positive size, and limits that parse: a limit that was given is written as its
      kilobytes, one of two that was not as none, and if neither was, the size itself. */
  lemma WhatIsWritten(rnd: real -> real, limit: string, other: string, size: nat)
    requires Rounding(rnd) && Accepted(limit) && Accepted(other) && size > 0
    ensures limit != "" ==> Written(rnd, limit, other, size) == Printed(Limit(rnd, limit, size))
    ensures limit != "" ==> Limit(rnd, limit, size) == Kilobytes(rnd, Percentage(limit), size)
    ensures limit == "" && other != "" ==> Written(rnd, limit, other, size) == "0k"
    ensures limit == "" && other == "" ==> Written(rnd, limit, other, size) == Printed(PlainSize(rnd, size))
  {
    LimitIsZero(rnd, limit, size);
    LimitIsZero(rnd, other, size);
    PrintedZero(Limit(rnd, limit, size));
    PrintedZero(Limit(rnd, other, size));
    if limit != "" {
      LimitIsKilobytes(rnd, limit, size);
    }
  }

  class HelperPodOptions {
    var name: string
    var cmdsForPath: seq<string>
    var path: Path
    var nodeAffinityLabels: Labels
    var serviceAccountName: string
    var selectedNodeTaints: seq<Taint>
    var softLimitGrace: string
    var hardLimitGrace: string
    var pvcStorage: nat

    constructor (name: string, cmdsForPath: seq<string>, path: Path, labels: Labels, serviceAccountName: string,
                 taints: seq<Taint>, soft: string, hard: string, pvcStorage: nat)
      ensures this.name == name && this.cmdsForPath == cmdsForPath && this.path == path
      ensures nodeAffinityLabels == labels && this.serviceAccountName == serviceAccountName
      ensures selectedNodeTaints == taints
      ensures softLimitGrace == soft && hardLimitGrace == hard && this.pvcStorage == pvcStorage
    {
      this.name, this.cmdsForPath, this.path := name, cmdsForPath, path;
      this.nodeAffinityLabels, this.serviceAccountName := labels, serviceAccountName;
      this.selectedNodeTaints := taints;
      softLimitGrace, hardLimitGrace, this.pvcStorage := soft, hard, pvcStorage;
    }

    predicate Complete()
      reads this
    {
      name != "" && path != [] && nodeAffinityLabels != map[] && serviceAccountName != ""
    }

    /** Two limits of "0k" become the size itself, one of them passes, and any other two
        printed limits pass exactly when soft is at most hard in kilobytes. */
    method ValidateLimits(rnd: real -> real) returns (ok: bool)
      modifies this`softLimitGrace, this`hardLimitGrace
      ensures old(softLimitGrace) == "0k" && old(hardLimitGrace) == "0k" ==>
        ok && softLimitGrace == hardLimitGrace == Printed(PlainSize(rnd, pvcStorage))
      ensures !(old(softLimitGrace) == "0k" && old(hardLimitGrace) == "0k") ==>
        softLimitGrace == old(softLimitGrace) && hardLimitGrace == old(hardLimitGrace)
      ensures forall m: nat, n: nat | old(softLimitGrace) == Printed(m) && old(hardLimitGrace) == Printed(n) ::
        ok <==> m == 0 || n == 0 || m <= n
    {
      ghost var soft, hard := softLimitGrace, hardLimitGrace;
      if softLimitGrace == "0k" && hardLimitGrace == "0k" {
        var pvcStorageInK := PlainSize(rnd, pvcStorage);
        softLimitGrace, hardLimitGrace := Printed(pvcStorageInK), Printed(pvcStorageInK);
        ok := true;
      } else if softLimitGrace == "0k" || hardLimitGrace == "0k" {
        ok := true;
      } else {
        ok := !(|softLimitGrace| > |hardLimitGrace| ||
                (|softLimitGrace| == |hardLimitGrace| && Less(hardLimitGrace, softLimitGrace)));
      }
      forall m: nat, n: nat | soft == Printed(m) && hard == Printed(n)
        ensures ok <==> m == 0 || n == 0 || m <= n
      {
        PrintedZero(m);
        PrintedZero(n);
        PrintedOrder(m, n);
      }
    }

    /** The limits part of createQuotaPod: convert the soft limit, then the hard one, then
        validate the pair. */
    method SetLimits(rnd: real -> real) returns (ok: bool)
      requires Rounding(rnd)
      modifies this`softLimitGrace, this`hardLimitGrace
      ensures ok <==> LimitsAgree(rnd, old(softLimitGrace), old(hardLimitGrace), pvcStorage)
      ensures ok ==>
        && softLimitGrace == Written(rnd, old(softLimitGrace), old(hardLimitGrace), pvcStorage)
        && hardLimitGrace == Written(rnd, old(hardLimitGrace), old(softLimitGrace), pvcStorage)
    {
      ghost var m, n := Limit(rnd, softLimitGrace, pvcStorage), Limit(rnd, hardLimitGrace, pvcStorage);
      var r := ConvertToK(rnd, softLimitGrace, pvcStorage);
      if r.Failure? {
        return false;
      }
      softLimitGrace := r.value;
      r := ConvertToK(rnd, hardLimitGrace, pvcStorage);
      if r.Failure? {
        return false;
      }
      hardLimitGrace := r.value;
      assert softLimitGrace == Printed(m) && hardLimitGrace == Printed(n);
      PrintedZero(m);
      PrintedZero(n);
      ok := ValidateLimits(rnd);
    }
  }
}
