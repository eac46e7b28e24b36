/** Which configurations the options can build. The options can be given in any order and any
    number, but the checks leave only a few forms. */
module StorageClassShapes {
  import opened Wrappers
  import opened QuotaSyntax
  import opened StorageClassOptions

  // ---------------------------------------------------------------- entries as they are written

  const HostpathEntry := StorageType("hostpath")

  predicate IsPair(t: Entry, path: Entry) {
    t == HostpathEntry && path.BasePath? && IsValidPath(path.value)
  }

  predicate TypeAndPath(c: seq<Entry>) { |c| == 2 && IsPair(c[0], c[1]) }

  predicate IsQuotaData(data: Option<map<string, string>>) {
    data.Some? ==>
      && data.value.Keys == {SoftLimitKey, HardLimitKey}
      && ValidLimit(data.value[SoftLimitKey]) && ValidLimit(data.value[HardLimitKey])
      && (data.value[SoftLimitKey] != "" || data.value[HardLimitKey] != "")
  }

  predicate IsQuota(e: Entry) { e.Quota? && e.enabled == "true" && IsQuotaData(e.limits) }

  predicate IsLabels(e: Entry) { e.NodeAffinityLabels? && e.list != [] && "" !in e.list }

  predicate IsSelectors(e: Entry) {
    e.BlockDeviceSelectors? && e.data != map[] && forall k | k in e.data :: e.data[k] != ""
  }

  /** The names of the entries. */
  datatype Name = TypeName | PathName | QuotaName(kind: QuotaKind) | LabelsName | FSName | SelectorsName | LabelName

  function NameOf(e: Entry): Name {
    match e
    case StorageType(_) => TypeName
    case BasePath(_) => PathName
    case Quota(kind, _, _) => QuotaName(kind)
    case NodeAffinityLabels(_) => LabelsName
    case FSType(_) => FSName
    case BlockDeviceSelectors(_) => SelectorsName
    case NodeAffinityLabel(_) => LabelName
  }

  // ---------------------------------------------------------------- forms

  /** Storage type and base path, with one quota before or after them; or just the quota. */
  predicate HostpathForm(c: seq<Entry>) {
    || c == []
    || (|c| == 1 && IsQuota(c[0]))
    || TypeAndPath(c)
    || (|c| == 3 && IsQuota(c[0]) && IsPair(c[1], c[2]))
    || (|c| == 3 && IsPair(c[0], c[1]) && IsQuota(c[2]))
  }

  predicate IsDeviceParameter(e: Entry) {
    e == DeviceEntry || (e.FSType? && IsValidFilesystem(e.value)) || IsSelectors(e)
  }

  predicate DistinctNames(c: seq<Entry>) {
    forall i, j | 0 <= i < j < |c| :: NameOf(c[i]) != NameOf(c[j])
  }

  /** Storage type, filesystem and selectors, each at most once, in any order. */
  predicate DeviceForm(c: seq<Entry>) {
    (forall e | e in c :: IsDeviceParameter(e)) && DistinctNames(c)
  }

  /** The affinity labels come last, after a hostpath form or the device type alone. */
  predicate LabelledForm(c: seq<Entry>) {
    && c != [] && IsLabels(c[|c| - 1])
    && (HostpathForm(c[..|c| - 1]) || c[..|c| - 1] == [DeviceEntry])
  }

  predicate Form(c: seq<Entry>) { HostpathForm(c) || DeviceForm(c) || LabelledForm(c) }

  predicate LocalPV(o: Object) {
    && (o.casType.None? || o.casType.value == LocalPVCasType)
    && (o.provisioner == "" || o.provisioner == LocalPVProvisioner)
  }

  predicate Fine(o: Object) {
    LocalPV(o) && Form(Entries(o)) && (o.casConfig.Some? ==> Entries(o) != [])
  }

  // ---------------------------------------------------------------- every step keeps the form

  /** Of all forms only a quota, or nothing, lets a hostpath follow. */
  lemma OnlyQuotaTakesHostpath(c: seq<Entry>)
    requires Form(c) && forall e | e in c :: Allows(ForHostpath, e)
    ensures c == [] || (|c| == 1 && IsQuota(c[0]))
  {
    if c != [] {
      NotDevice(c);
      if LabelledForm(c) {
        FirstIsQuota(c, c[|c| - 1]);
      } else {
        HostpathAfterQuota(c);
      }
    }
  }

  lemma NotDevice(c: seq<Entry>)
    requires c != [] && forall e | e in c :: Allows(ForHostpath, e)
    ensures !DeviceForm(c)
  {
    FirstIsQuota(c, c[0]);
    assert DeviceForm(c) ==> IsDeviceParameter(c[0]);
  }

  lemma FirstIsQuota(c: seq<Entry>, e: Entry)
    requires e in c && forall e | e in c :: Allows(ForHostpath, e)
    ensures e.Quota? || e.NodeAffinityLabel?
  {
    assert Allows(ForHostpath, e);
  }

  lemma HostpathAfterQuota(c: seq<Entry>)
    requires HostpathForm(c) && c != [] && forall e | e in c :: Allows(ForHostpath, e)
    ensures |c| == 1 && IsQuota(c[0])
  {
    HostpathFormKinds(c);
    FirstIsQuota(c, c[0]);
    FirstIsQuota(c, c[|c| - 1]);
  }

  lemma AfterHostpath(c: seq<Entry>, dir: string)
    requires IsValidPath(dir) && (c == [] || (|c| == 1 && IsQuota(c[0])))
    ensures HostpathForm(c + HostpathEntries(dir))
  {
    var h := HostpathEntries(dir);
    assert TypeAndPath(h);
    if c == [] {
      assert c + h == h;
    }
  }

  lemma AfterQuota(c: seq<Entry>, q: Entry)
    requires Form(c) && IsQuota(q) && forall e | e in c :: Allows(ForQuota, e)
    ensures HostpathForm(c + [q])
  {
    if c == [] {
      assert c + [q] == [q];
    } else {
      TakesQuotaAtEnds(c, c[0]);
      TakesQuotaAtEnds(c, c[|c| - 1]);
    }
  }

  lemma TakesQuotaAtEnds(c: seq<Entry>, e: Entry)
    requires e in c && forall e | e in c :: Allows(ForQuota, e)
    ensures !e.Quota? && e != DeviceEntry && !IsLabels(e) && !e.FSType? && !e.BlockDeviceSelectors?
  {
    assert Allows(ForQuota, e);
  }

  /** Of the device forms only the type alone takes labels. */
  lemma OnlyTypeTakesLabels(c: seq<Entry>)
    requires DeviceForm(c) && c != [] && forall e | e in c :: Allows(ForNodeAffinityLabel, e)
    ensures c == [DeviceEntry]
  {
    forall i | 0 <= i < |c|
      ensures c[i] == DeviceEntry
    {
      assert Allows(ForNodeAffinityLabel, c[i]) && IsDeviceParameter(c[i]);
    }
    var i := |c| - 1;
    assert NameOf(c[0]) == NameOf(c[i]);
  }

  lemma AfterLabels(c: seq<Entry>, l: Entry)
    requires Form(c) && IsLabels(l) && forall e | e in c :: Allows(ForNodeAffinityLabel, e)
    ensures LabelledForm(c + [l])
  {
    assert (c + [l])[..|c|] == c;
    if c != [] {
      assert Allows(ForNodeAffinityLabel, c[|c| - 1]);
      if DeviceForm(c) {
        OnlyTypeTakesLabels(c);
      }
    }
  }

  /** The check that a device parameter goes through. */
  function GuardOf(d: Entry): Guard {
    match d
    case StorageType(_) => ForDevice
    case FSType(_) => ForFSType
    case _ => ForBlockDeviceTag
  }

  /** The three device checks let pass the device parameters with another name. */
  lemma AfterDeviceParameter(c: seq<Entry>, d: Entry)
    requires Form(c) && IsDeviceParameter(d)
    requires forall e | e in c :: Allows(GuardOf(d), e)
    ensures DeviceForm(c + [d])
  {
    if c != [] {
      assert Allows(GuardOf(d), c[0]) && Allows(GuardOf(d), c[|c| - 1]);
    }
    if DeviceForm(c) {
      forall i | 0 <= i < |c|
        ensures NameOf(c[i]) != NameOf(d)
      {
        assert Allows(GuardOf(d), c[i]);
      }
    }
  }

  lemma AppendedIsFine(o: Object, entries: seq<Entry>)
    requires LocalPV(o) && entries != [] && Form(Entries(o) + entries)
    ensures Fine(Appended(o, entries))
  {
  }

  lemma QuotaEntryIsQuota(kind: QuotaKind, softLimit: string, hardLimit: string)
    requires ValidLimit(softLimit) && ValidLimit(hardLimit)
    ensures IsQuota(QuotaEntry(kind, softLimit, hardLimit))
  {
    assert SoftLimitKey[0] != HardLimitKey[0];
  }

  lemma QuotaStepKeeps(o: Object, kind: QuotaKind, softLimit: string, hardLimit: string)
    requires Fine(o) && QuotaStep(o, kind, softLimit, hardLimit).Some?
    ensures Fine(QuotaStep(o, kind, softLimit, hardLimit).value)
  {
    var q := QuotaEntry(kind, softLimit, hardLimit);
    QuotaEntryIsQuota(kind, softLimit, hardLimit);
    AfterQuota(Entries(o), q);
    AppendedIsFine(o, [q]);
  }

  lemma DeviceStepKeeps(o: Object, d: Entry)
    requires Fine(o) && IsDeviceParameter(d) && Compatible(GuardOf(d), o)
    ensures Fine(Appended(o, [d]))
  {
    AfterDeviceParameter(Entries(o), d);
    AppendedIsFine(o, [d]);
  }

  lemma SelectorsEntryIsSelectors(selectors: map<string, string>)
    requires NonEmptyValues(selectors) != map[]
    ensures IsSelectors(BlockDeviceSelectors(NonEmptyValues(selectors)))
  {
  }

  lemma StepKeeps(opt: StorageClassOption, o: Object)
    requires Fine(o) && Step(opt, o).Some?
    ensures Fine(Step(opt, o).value)
  {
    match opt
    case WithHostpath(dir) =>
      OnlyQuotaTakesHostpath(Entries(o));
      AfterHostpath(Entries(o), dir);
      AppendedIsFine(o, HostpathEntries(dir));
    case WithXfsQuota(softLimit, hardLimit) => QuotaStepKeeps(o, XFSQuota, softLimit, hardLimit);
    case WithExt4Quota(softLimit, hardLimit) => QuotaStepKeeps(o, EXT4Quota, softLimit, hardLimit);
    case WithNodeAffinityLabels(keys) =>
      AfterLabels(Entries(o), NodeAffinityLabels(NonEmpty(keys)));
      AppendedIsFine(o, [NodeAffinityLabels(NonEmpty(keys))]);
    case WithDevice => DeviceStepKeeps(o, DeviceEntry);
    case WithFSType(filesystem) => DeviceStepKeeps(o, FSType(filesystem));
    case WithBlockDeviceSelectors(selectors) =>
      SelectorsEntryIsSelectors(selectors);
      DeviceStepKeeps(o, BlockDeviceSelectors(NonEmptyValues(selectors)));
    case _ =>
      assert Entries(Step(opt, o).value) == Entries(o);
  }

  lemma {:induction false} BuiltIsFine(opts: seq<StorageClassOption>)
    requires Built(opts).Some?
    ensures Fine(Built(opts).value)
  {
    if opts != [] {
      BuiltIsFine(opts[..|opts| - 1]);
      StepKeeps(opts[|opts| - 1], Built(opts[..|opts| - 1]).value);
    }
  }

  // ---------------------------------------------------------------- every form can be built

  /** A configuration alone, without anything else set. */
  function Just(c: seq<Entry>): Object {
    Empty.(casConfig := if c == [] then None else Some(c))
  }

  lemma AppendedToJust(p: seq<Entry>, entries: seq<Entry>)
    requires entries != []
    ensures Appended(Just(p), entries) == Just(p + entries)
  {
  }

  lemma OneMore(opts: seq<StorageClassOption>, p: seq<Entry>, opt: StorageClassOption, c: seq<Entry>)
    requires Built(opts) == Some(Just(p)) && Step(opt, Just(p)) == Some(Just(c))
    ensures Built(opts + [opt]) == Some(Just(c))
  {
    assert (opts + [opt])[..|opts|] == opts;
  }

  /** The limits a quota entry was written with. */
  lemma LimitsOf(q: Entry) returns (softLimit: string, hardLimit: string)
    requires IsQuota(q)
    ensures ValidLimit(softLimit) && ValidLimit(hardLimit) && q == QuotaEntry(q.kind, softLimit, hardLimit)
  {
    if q.limits.None? {
      softLimit, hardLimit := "", "";
    } else {
      softLimit, hardLimit := q.limits.value[SoftLimitKey], q.limits.value[HardLimitKey];
      assert q.limits.value == map[SoftLimitKey := softLimit, HardLimitKey := hardLimit];
    }
  }

  lemma TakesQuota(p: seq<Entry>)
    requires p == [] || TypeAndPath(p)
    ensures Compatible(ForQuota, Just(p))
  {
  }

  lemma QuotaOn(p: seq<Entry>, q: Entry) returns (opt: StorageClassOption)
    requires (p == [] || TypeAndPath(p)) && IsQuota(q)
    ensures Step(opt, Just(p)) == Some(Just(p + [q]))
  {
    var softLimit, hardLimit := LimitsOf(q);
    opt := if q.kind.XFSQuota? then WithXfsQuota(softLimit, hardLimit) else WithExt4Quota(softLimit, hardLimit);
    AppendedToJust(p, [q]);
    TakesQuota(p);
  }

  lemma TakesHostpath(p: seq<Entry>)
    requires p == [] || (|p| == 1 && IsQuota(p[0]))
    ensures Compatible(ForHostpath, Just(p))
  {
  }

  lemma IsHostpathEntries(c: seq<Entry>)
    requires TypeAndPath(c)
    ensures c == HostpathEntries(c[1].value) && IsValidPath(c[1].value)
  {
  }

  lemma HostpathOn(p: seq<Entry>, c: seq<Entry>)
    requires (p == [] || (|p| == 1 && IsQuota(p[0]))) && TypeAndPath(c)
    ensures Step(WithHostpath(c[1].value), Just(p)) == Some(Just(p + c))
  {
    IsHostpathEntries(c);
    AppendedToJust(p, c);
    TakesHostpath(p);
  }

  predicate IsHostpathEntry(e: Entry) {
    e == HostpathEntry || (e.BasePath? && IsValidPath(e.value)) || IsQuota(e)
  }

  lemma Three(c: seq<Entry>)
    requires |c| == 3
    ensures [c[0], c[1]] + [c[2]] == c && [c[0]] + [c[1], c[2]] == c
  {
  }

  lemma InThree(c: seq<Entry>, e: Entry)
    requires |c| == 3 && e in c
    ensures e == c[0] || e == c[1] || e == c[2]
  {
  }

  lemma InTwo(c: seq<Entry>, e: Entry)
    requires |c| == 2 && e in c
    ensures e == c[0] || e == c[1]
  {
  }

  lemma EntryOfHostpath(c: seq<Entry>, e: Entry)
    requires HostpathForm(c) && e in c
    ensures IsHostpathEntry(e)
  {
    if |c| == 3 {
      InThree(c, e);
    } else if |c| == 2 {
      InTwo(c, e);
    }
  }

  lemma HostpathEntriesTakeLabels(p: seq<Entry>)
    requires HostpathForm(p)
    ensures forall e | e in p :: Allows(ForNodeAffinityLabel, e)
  {
    forall e | e in p
      ensures Allows(ForNodeAffinityLabel, e)
    {
      EntryOfHostpath(p, e);
    }
  }

  lemma AllowedIsCompatible(p: seq<Entry>, guard: Guard)
    requires forall e | e in p :: Allows(guard, e)
    ensures Compatible(guard, Just(p))
  {
    assert Entries(Just(p)) == p;
  }

  lemma LabelsAsWritten(l: Entry)
    requires IsLabels(l)
    ensures NonEmpty(l.list) != [] && NodeAffinityLabels(NonEmpty(l.list)) == l
  {
    NonEmptyOfNonEmpty(l.list);
  }

  lemma LabelsStep(keys: seq<string>, o: Object)
    requires NonEmpty(keys) != [] && Compatible(ForNodeAffinityLabel, o)
    ensures Step(WithNodeAffinityLabels(keys), o) == Some(Appended(o, [NodeAffinityLabels(NonEmpty(keys))]))
  {
  }

  lemma LabelsOnCompatible(p: seq<Entry>, l: Entry)
    requires IsLabels(l) && Compatible(ForNodeAffinityLabel, Just(p))
    ensures Step(WithNodeAffinityLabels(l.list), Just(p)) == Some(Just(p + [l]))
  {
    LabelsAsWritten(l);
    LabelsStep(l.list, Just(p));
    AppendedToJust(p, [l]);
  }

  lemma LabelsOn(p: seq<Entry>, l: Entry)
    requires (HostpathForm(p) || p == [DeviceEntry]) && IsLabels(l)
    ensures Step(WithNodeAffinityLabels(l.list), Just(p)) == Some(Just(p + [l]))
  {
    if HostpathForm(p) {
      HostpathEntriesTakeLabels(p);
    }
    AllowedIsCompatible(p, ForNodeAffinityLabel);
    LabelsOnCompatible(p, l);
  }

  lemma TakesDeviceParameter(p: seq<Entry>, d: Entry)
    requires IsDeviceParameter(d) && forall i | 0 <= i < |p| :: IsDeviceParameter(p[i]) && NameOf(p[i]) != NameOf(d)
    ensures Compatible(GuardOf(d), Just(p))
  {
    forall e | e in p
      ensures Allows(GuardOf(d), e)
    {
      var i :| 0 <= i < |p| && p[i] == e;
      assert IsDeviceParameter(p[i]) && NameOf(p[i]) != NameOf(d);
    }
    AllowedIsCompatible(p, GuardOf(d));
  }

  lemma DeviceParameterOn(p: seq<Entry>, d: Entry) returns (opt: StorageClassOption)
    requires DeviceForm(p + [d])
    ensures Step(opt, Just(p)) == Some(Just(p + [d]))
  {
    var c := p + [d];
    assert c[|p|] == d && IsDeviceParameter(d);
    forall i | 0 <= i < |p|
      ensures IsDeviceParameter(p[i]) && NameOf(p[i]) != NameOf(d)
    {
      assert p[i] == c[i] && IsDeviceParameter(c[i]);
    }
    AppendedToJust(p, [d]);
    TakesDeviceParameter(p, d);
    if d == DeviceEntry {
      opt := WithDevice;
    } else if d.FSType? {
      opt := WithFSType(d.value);
    } else {
      opt := WithBlockDeviceSelectors(d.data);
      assert NonEmptyValues(d.data) == d.data;
    }
  }

  lemma QuotaAlone(q: Entry) returns (opts: seq<StorageClassOption>)
    requires IsQuota(q)
    ensures Built(opts) == Some(Just([q]))
  {
    var opt := QuotaOn([], q);
    OneMore([], [], opt, [] + [q]);
    assert [] + [q] == [q];
    opts := [] + [opt];
  }

  lemma HostpathAlone(c: seq<Entry>) returns (opts: seq<StorageClassOption>)
    requires TypeAndPath(c)
    ensures Built(opts) == Some(Just(c))
  {
    HostpathOn([], c);
    OneMore([], [], WithHostpath(c[1].value), [] + c);
    opts := [] + [WithHostpath(c[1].value)];
    assert [] + c == c;
  }

  lemma QuotaThenHostpath(c: seq<Entry>) returns (opts: seq<StorageClassOption>)
    requires |c| == 3 && IsQuota(c[0]) && IsPair(c[1], c[2])
    ensures Built(opts) == Some(Just(c))
  {
    opts := QuotaAlone(c[0]);
    HostpathOn([c[0]], [c[1], c[2]]);
    Three(c);
    OneMore(opts, [c[0]], WithHostpath(c[2].value), c);
    opts := opts + [WithHostpath(c[2].value)];
  }

  lemma HostpathThenQuota(c: seq<Entry>) returns (opts: seq<StorageClassOption>)
    requires |c| == 3 && IsPair(c[0], c[1]) && IsQuota(c[2])
    ensures Built(opts) == Some(Just(c))
  {
    Three(c);
    opts := QuotaAfter([c[0], c[1]], c[2]);
  }

  lemma QuotaAfter(h: seq<Entry>, q: Entry) returns (opts: seq<StorageClassOption>)
    requires TypeAndPath(h) && IsQuota(q)
    ensures Built(opts) == Some(Just(h + [q]))
  {
    var alone := HostpathAlone(h);
    var opt := QuotaOn(h, q);
    OneMore(alone, h, opt, h + [q]);
    opts := alone + [opt];
  }

  lemma OneQuota(c: seq<Entry>) returns (opts: seq<StorageClassOption>)
    requires |c| == 1 && IsQuota(c[0])
    ensures Built(opts) == Some(Just(c))
  {
    assert c == [c[0]];
    opts := QuotaAlone(c[0]);
  }

  lemma HostpathFormIsBuilt(c: seq<Entry>) returns (opts: seq<StorageClassOption>)
    requires HostpathForm(c)
    ensures Built(opts) == Some(Just(c))
  {
    if |c| == 0 {
      opts := [];
    } else if |c| == 1 {
      opts := OneQuota(c);
    } else if |c| == 2 {
      opts := HostpathAlone(c);
    } else if IsPair(c[1], c[2]) {
      opts := QuotaThenHostpath(c);
    } else {
      opts := HostpathThenQuota(c);
    }
  }

  lemma {:induction false} DeviceFormIsBuilt(c: seq<Entry>) returns (opts: seq<StorageClassOption>)
    requires DeviceForm(c)
    ensures Built(opts) == Some(Just(c))
  {
    opts := [];
    if c != [] {
      var p, d := c[..|c| - 1], c[|c| - 1];
      assert c == p + [d];
      opts := DeviceFormIsBuilt(p);
      var opt := DeviceParameterOn(p, d);
      OneMore(opts, p, opt, c);
      opts := opts + [opt];
    }
  }

  lemma FormIsBuilt(c: seq<Entry>) returns (opts: seq<StorageClassOption>)
    requires Form(c)
    ensures Built(opts) == Some(Just(c))
  {
    if HostpathForm(c) {
      opts := HostpathFormIsBuilt(c);
    } else if DeviceForm(c) {
      opts := DeviceFormIsBuilt(c);
    } else {
      var p, l := c[..|c| - 1], c[|c| - 1];
      assert c == p + [l];
      if HostpathForm(p) {
        opts := HostpathFormIsBuilt(p);
      } else {
        assert DeviceForm(p);
        opts := DeviceFormIsBuilt(p);
      }
      LabelsOn(p, l);
      OneMore(opts, p, WithNodeAffinityLabels(l.list), c);
      opts := opts + [WithNodeAffinityLabels(l.list)];
    }
  }

  /** The configurations that some list of options builds are exactly those of the three
      forms. */
  lemma ExactlyTheForms(c: seq<Entry>)
    ensures Form(c) <==> exists opts :: Built(opts).Some? && Entries(Built(opts).value) == c
  {
    if Form(c) {
      var opts := FormIsBuilt(c);
      assert Built(opts).Some? && Entries(Built(opts).value) == c;
    }
    forall opts | Built(opts).Some?
      ensures Form(Entries(Built(opts).value))
    {
      BuiltIsFine(opts);
    }
  }

  // ---------------------------------------------------------------- what follows

  predicate IsForHostpath(e: Entry) { e == HostpathEntry || e.BasePath? || e.Quota? }

  predicate IsForDevice(e: Entry) { e == DeviceEntry || e.FSType? || e.BlockDeviceSelectors? }

  predicate AtMostOneQuota(c: seq<Entry>) {
    forall i, j | 0 <= i < j < |c| :: !(c[i].Quota? && c[j].Quota?)
  }

  predicate NeverMixed(c: seq<Entry>) {
    (forall e | e in c :: !IsForHostpath(e)) || (forall e | e in c :: !IsForDevice(e))
  }

  /** Affinity labels are last, and with a device they leave no room for anything else. */
  predicate LabelsLast(c: seq<Entry>) {
    forall i | 0 <= i < |c| && c[i].NodeAffinityLabels? :: i == |c| - 1 && (DeviceEntry in c ==> |c| == 2)
  }

  lemma DeviceFormProperties(c: seq<Entry>)
    requires DeviceForm(c)
    ensures |c| <= 3 && AtMostOneQuota(c) && LabelsLast(c) && forall e | e in c :: !IsForHostpath(e)
  {
    assert forall i | 0 <= i < |c| :: IsDeviceParameter(c[i]);
    assert |c| > 3 ==> IsDeviceParameter(c[0]) && IsDeviceParameter(c[1]) && IsDeviceParameter(c[2]) && IsDeviceParameter(c[3]);
  }

  predicate OnlyHostpath(c: seq<Entry>) {
    forall e | e in c :: IsForHostpath(e) && !IsForDevice(e) && !e.NodeAffinityLabels?
  }

  /** The hostpath forms by the kinds of their entries. */
  predicate HostpathKinds(c: seq<Entry>) {
    && |c| <= 3
    && (|c| == 1 ==> c[0].Quota?)
    && (|c| == 2 ==> c[0] == HostpathEntry && c[1].BasePath?)
    && (|c| == 3 ==>
          || (c[0].Quota? && c[1] == HostpathEntry && c[2].BasePath?)
          || (c[0] == HostpathEntry && c[1].BasePath? && c[2].Quota?))
  }

  lemma HostpathFormKinds(c: seq<Entry>)
    requires HostpathForm(c)
    ensures HostpathKinds(c)
  {
  }

  lemma HostpathKindsProperties(c: seq<Entry>)
    requires HostpathKinds(c)
    ensures |c| <= 3 && DistinctNames(c) && AtMostOneQuota(c) && OnlyHostpath(c)
  {
    assert HostpathEntry != DeviceEntry;
    assert forall e | e in c :: e == HostpathEntry || e.BasePath? || e.Quota?;
  }

  lemma HostpathFormProperties(c: seq<Entry>)
    requires HostpathForm(c)
    ensures |c| <= 3 && DistinctNames(c) && AtMostOneQuota(c) && OnlyHostpath(c)
    ensures LabelsLast(c) && NeverMixed(c)
  {
    HostpathFormKinds(c);
    HostpathKindsProperties(c);
  }

  lemma LabelsAfterDevice(l: Entry)
    requires IsLabels(l)
    ensures var c := [DeviceEntry] + [l]; DistinctNames(c) && AtMostOneQuota(c) && LabelsLast(c) && NeverMixed(c)
  {
    assert !IsForHostpath(DeviceEntry) && !IsForHostpath(l);
  }

  lemma LabelledFormProperties(c: seq<Entry>)
    requires LabelledForm(c)
    ensures |c| <= 4 && DistinctNames(c) && AtMostOneQuota(c) && LabelsLast(c) && NeverMixed(c)
  {
    var p, l := c[..|c| - 1], c[|c| - 1];
    assert c == p + [l];
    if HostpathForm(p) {
      HostpathFormProperties(p);
      LabelsAfterHostpath(p, l);
    } else {
      LabelsAfterDevice(l);
    }
  }

  lemma LabelsAfterHostpath(p: seq<Entry>, l: Entry)
    requires |p| <= 3 && DistinctNames(p) && AtMostOneQuota(p) && IsLabels(l)
    requires OnlyHostpath(p)
    ensures var c := p + [l]; |c| <= 4 && DistinctNames(c) && AtMostOneQuota(c) && LabelsLast(c) && NeverMixed(c)
  {
    var c := p + [l];
    forall i | 0 <= i < |p|
      ensures NameOf(c[i]) != NameOf(l) && !IsForDevice(c[i])
    {
      assert c[i] == p[i] && p[i] in p;
    }
    assert !IsForDevice(l) && DeviceEntry !in c;
  }

  /** Whatever the options and their order: at most four entries with distinct names, at most
      one quota; hostpath and device parameters never meet; affinity labels are last. */
  lemma BuiltConfigurations(opts: seq<StorageClassOption>)
    requires Built(opts).Some?
    ensures var c := Entries(Built(opts).value);
      |c| <= 4 && DistinctNames(c) && AtMostOneQuota(c) && NeverMixed(c) && LabelsLast(c)
  {
    BuiltIsFine(opts);
    var c := Entries(Built(opts).value);
    if DeviceForm(c) {
      DeviceFormProperties(c);
    } else if HostpathForm(c) {
      HostpathFormProperties(c);
    } else {
      LabelledFormProperties(c);
    }
  }

  /** Once affinity labels are written, every option that writes configuration fails: the
      checks let pass an entry called NodeAffinityLabel, and what is written is called
      NodeAffinityLabels. */
  lemma NothingAfterLabels(opts: seq<StorageClassOption>, opt: StorageClassOption)
    requires Built(opts).Some? && exists e :: e in Entries(Built(opts).value) && e.NodeAffinityLabels?
    ensures var after := Step(opt, Built(opts).value);
      after.Some? ==> after.value.casConfig == Built(opts).value.casConfig
  {
    var e :| e in Entries(Built(opts).value) && e.NodeAffinityLabels?;
    assert forall guard :: !Allows(guard, e);
    assert forall guard {:trigger Compatible(guard, Built(opts).value)} :: !Compatible(guard, Built(opts).value);
  }

  // ---------------------------------------------------------------- quotas

  lemma HostpathQuotas(c: seq<Entry>)
    requires HostpathForm(c)
    ensures forall e | e in c && e.Quota? :: IsQuota(e)
  {
    forall e | e in c && e.Quota?
      ensures IsQuota(e)
    {
      EntryOfHostpath(c, e);
    }
  }

  lemma QuotasAsWritten(c: seq<Entry>)
    requires Form(c)
    ensures forall e | e in c && e.Quota? :: IsQuota(e)
  {
    if HostpathForm(c) {
      HostpathQuotas(c);
    } else if LabelledForm(c) {
      var p := c[..|c| - 1];
      assert c == p + [c[|c| - 1]];
      if HostpathForm(p) {
        HostpathQuotas(p);
      }
    }
  }
}
