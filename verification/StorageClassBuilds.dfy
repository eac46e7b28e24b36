/** Exactly which lists of options build a StorageClass, and what the object then holds besides
    its configuration. */
module StorageClassBuilds {
  import opened Wrappers
  import opened QuotaSyntax
  import opened StorageClassOptions
  import opened StorageClassShapes
  import opened StorageClassReadings

  /** Options that have nothing to do with the configuration may not be given nothing. */
  predicate Usable(opt: StorageClassOption) {
    match opt
    case WithName(name) => name != ""
    case WithGenerateName(prefix) => prefix != ""
    case WithLabels(labels) => labels != map[]
    case WithParameters(parameters) => parameters != map[]
    case WithAllowedTopologies(topologies) => topologies != map[]
    case _ => true
  }

  predicate AtMostOneLocalPV(opts: seq<StorageClassOption>) {
    forall i, j | 0 <= i < j < |opts| :: !(opts[i].WithLocalPV? && opts[j].WithLocalPV?)
  }

  ghost predicate AsksLocalPV(opts: seq<StorageClassOption>) {
    exists i | 0 <= i < |opts| :: opts[i].WithLocalPV?
  }

  // ---------------------------------------------------------------- the configuration

  /** The check that an option goes through, and what else it demands. */
  predicate Passes(opt: StorageClassOption, p: seq<Entry>) {
    match opt
    case WithHostpath(dir) => IsValidPath(dir) && Compatible(ForHostpath, Just(p))
    case WithDevice => Compatible(ForDevice, Just(p))
    case WithXfsQuota(softLimit, hardLimit) => Compatible(ForQuota, Just(p)) && ValidLimit(softLimit) && ValidLimit(hardLimit)
    case WithExt4Quota(softLimit, hardLimit) => Compatible(ForQuota, Just(p)) && ValidLimit(softLimit) && ValidLimit(hardLimit)
    case WithNodeAffinityLabels(keys) => NonEmpty(keys) != [] && Compatible(ForNodeAffinityLabel, Just(p))
    case WithFSType(filesystem) => IsValidFilesystem(filesystem) && Compatible(ForFSType, Just(p))
    case WithBlockDeviceSelectors(selectors) => NonEmptyValues(selectors) != map[] && Compatible(ForBlockDeviceTag, Just(p))
    case _ => true
  }

  lemma SameChecks(o: Object, guard: Guard)
    requires LocalPV(o) && Compatible(guard, Just(Entries(o)))
    ensures Compatible(guard, o)
  {
    assert Entries(Just(Entries(o))) == Entries(o);
  }

  lemma PassesAndSteps(opt: StorageClassOption, o: Object)
    requires LocalPV(o) && Passes(opt, Entries(o)) && Usable(opt) && (opt.WithLocalPV? ==> o.casType.None? && o.provisioner == "")
    ensures Step(opt, o).Some?
  {
    forall guard | Compatible(guard, Just(Entries(o)))
      ensures Compatible(guard, o)
    {
      SameChecks(o, guard);
    }
  }

  lemma QuotaFollows(p: seq<Entry>, kind: QuotaKind, softLimit: string, hardLimit: string)
    requires Form(p + [QuotaEntry(kind, softLimit, hardLimit)])
    ensures Form(p) && Compatible(ForQuota, Just(p)) && ValidLimit(softLimit) && ValidLimit(hardLimit)
  {
    var q := QuotaEntry(kind, softLimit, hardLimit);
    var c := p + [q];
    assert c[|p|] == q && !IsDeviceParameter(q);
    QuotaLast(c);
    assert p == [] || p == c[..2];
    assert SoftLimitKey[0] != HardLimitKey[0];
    TakesQuota(p);
  }

  lemma QuotaLast(c: seq<Entry>)
    requires c != [] && HostpathForm(c) && c[|c| - 1].Quota?
    ensures IsQuota(c[|c| - 1]) && (|c| == 1 || (|c| == 3 && TypeAndPath(c[..2])))
  {
  }

  lemma HostpathFollows(p: seq<Entry>, dir: string)
    requires Form(p + HostpathEntries(dir))
    ensures Form(p) && IsValidPath(dir) && Compatible(ForHostpath, Just(p))
  {
    var c := p + HostpathEntries(dir);
    assert c[|p|] == HostpathEntry && c[|p| + 1] == BasePath(dir) && !IsDeviceParameter(BasePath(dir));
    PathLast(c);
    assert p == [] || p == c[..1];
    TakesHostpath(p);
  }

  lemma PathLast(c: seq<Entry>)
    requires c != [] && HostpathForm(c) && c[|c| - 1].BasePath?
    ensures IsValidPath(c[|c| - 1].value) && (|c| == 2 || (|c| == 3 && IsQuota(c[0])))
  {
  }

  lemma DeviceParameterFollows(p: seq<Entry>, d: Entry)
    requires Form(p + [d]) && (d == DeviceEntry || d.FSType? || d.BlockDeviceSelectors?)
    ensures Form(p) && IsDeviceParameter(d) && Compatible(GuardOf(d), Just(p))
  {
    var c := p + [d];
    assert c[|p|] == d;
    NotLastInHostpath(c);
    assert DeviceForm(c) && IsDeviceParameter(d);
    forall i | 0 <= i < |p|
      ensures IsDeviceParameter(p[i]) && NameOf(p[i]) != NameOf(d)
    {
      assert p[i] == c[i] && IsDeviceParameter(c[i]);
    }
    assert DeviceForm(p) by {
      assert forall i | 0 <= i < |p| :: p[i] == c[i];
    }
    TakesDeviceParameter(p, d);
  }

  lemma NotLastInHostpath(c: seq<Entry>)
    requires c != [] && IsForDevice(c[|c| - 1])
    ensures !HostpathForm(c)
  {
    assert HostpathEntry != DeviceEntry;
  }

  lemma LabelsFollow(p: seq<Entry>, keys: seq<string>)
    requires Form(p + [NodeAffinityLabels(NonEmpty(keys))])
    ensures Form(p) && NonEmpty(keys) != [] && Compatible(ForNodeAffinityLabel, Just(p))
  {
    var l := NodeAffinityLabels(NonEmpty(keys));
    var c := p + [l];
    assert c[|p|] == l && c[..|p|] == p && !IsDeviceParameter(l);
    NotLastLabels(c);
    if HostpathForm(p) {
      HostpathEntriesTakeLabels(p);
    } else {
      assert DeviceForm([DeviceEntry]);
    }
    AllowedIsCompatible(p, ForNodeAffinityLabel);
  }

  lemma NotLastLabels(c: seq<Entry>)
    requires c != [] && c[|c| - 1].NodeAffinityLabels?
    ensures !HostpathForm(c)
  {
  }

  /** What fits a form is let through by the checks, and what precedes it has a form. */
  lemma FormsPass(opt: StorageClassOption, p: seq<Entry>)
    requires Form(p + EntriesOf(opt))
    ensures Form(p) && Passes(opt, p)
  {
    match opt
    case WithHostpath(dir) => HostpathFollows(p, dir);
    case WithDevice => DeviceParameterFollows(p, DeviceEntry);
    case WithXfsQuota(softLimit, hardLimit) => QuotaFollows(p, XFSQuota, softLimit, hardLimit);
    case WithExt4Quota(softLimit, hardLimit) => QuotaFollows(p, EXT4Quota, softLimit, hardLimit);
    case WithNodeAffinityLabels(keys) => LabelsFollow(p, keys);
    case WithFSType(filesystem) => DeviceParameterFollows(p, FSType(filesystem));
    case WithBlockDeviceSelectors(selectors) => DeviceParameterFollows(p, BlockDeviceSelectors(NonEmptyValues(selectors)));
    case _ => assert p + [] == p;
  }

  // ---------------------------------------------------------------- the type and the provisioner

  predicate HasLocalPV(o: Object, asked: bool) {
    if asked then o.casType == Some("local") && o.provisioner == "openebs.io/local" else o.casType == None && o.provisioner == ""
  }

  lemma StepLocalPV(opt: StorageClassOption, o: Object, asked: bool)
    requires HasLocalPV(o, asked) && Step(opt, o).Some?
    ensures HasLocalPV(Step(opt, o).value, asked || opt.WithLocalPV?) && !(asked && opt.WithLocalPV?)
  {
  }

  /** The cas type and the provisioner are those of local volumes if that was asked for, which
      can be done once, and are not set otherwise. */
  lemma {:induction false} BuiltLocalPV(opts: seq<StorageClassOption>)
    requires Built(opts).Some?
    ensures HasLocalPV(Built(opts).value, AsksLocalPV(opts)) && AtMostOneLocalPV(opts)
  {
    if opts != [] {
      var front, last := opts[..|opts| - 1], opts[|opts| - 1];
      BuiltLocalPV(front);
      StepLocalPV(last, Built(front).value, AsksLocalPV(front));
      LocalPVOfFront(opts);
    }
  }

  lemma LocalPVOfFront(opts: seq<StorageClassOption>)
    requires opts != []
    ensures var front, last := opts[..|opts| - 1], opts[|opts| - 1];
      && (AsksLocalPV(opts) <==> AsksLocalPV(front) || last.WithLocalPV?)
      && (AtMostOneLocalPV(opts) <==> AtMostOneLocalPV(front) && !(AsksLocalPV(front) && last.WithLocalPV?))
  {
    var front, last := opts[..|opts| - 1], opts[|opts| - 1];
    assert forall i | 0 <= i < |front| :: front[i] == opts[i];
    if AsksLocalPV(front) {
      var i :| 0 <= i < |front| && front[i].WithLocalPV?;
      assert opts[i].WithLocalPV?;
    }
    assert last == opts[|opts| - 1];
  }

  // ---------------------------------------------------------------- which lists build

  lemma UsableSteps(opt: StorageClassOption, o: Object)
    requires Step(opt, o).Some?
    ensures Usable(opt)
  {
  }

  /** A list that builds meets the conditions. */
  lemma BuiltMeetsConditions(opts: seq<StorageClassOption>)
    requires Built(opts).Some?
    ensures (forall i | 0 <= i < |opts| :: Usable(opts[i])) && AtMostOneLocalPV(opts) && Form(AllEntries(opts))
  {
    BuiltLocalPV(opts);
    BuiltIsFine(opts);
    BuiltEntries(opts);
    forall i | 0 <= i < |opts|
      ensures Usable(opts[i])
    {
      var before := StepTaken(opts, i);
      UsableSteps(opts[i], before);
    }
  }

  lemma {:induction false} ConditionsBuild(opts: seq<StorageClassOption>)
    requires (forall i | 0 <= i < |opts| :: Usable(opts[i])) && AtMostOneLocalPV(opts) && Form(AllEntries(opts))
    ensures Built(opts).Some?
  {
    if opts != [] {
      var front, last := opts[..|opts| - 1], opts[|opts| - 1];
      FormsPass(last, AllEntries(front));
      LocalPVOfFront(opts);
      assert forall i | 0 <= i < |front| :: front[i] == opts[i];
      ConditionsBuild(front);
      BuiltLocalPV(front);
      BuiltEntries(front);
      PassesAndSteps(last, Built(front).value);
    }
  }

  /** A list of options builds exactly when no argument is missing, local volumes are asked for
      at most once, and the entries that all of them write have one of the three forms. */
  lemma WhichListsBuild(opts: seq<StorageClassOption>)
    ensures Built(opts).Some? <==>
      (forall i | 0 <= i < |opts| :: Usable(opts[i])) && AtMostOneLocalPV(opts) && Form(AllEntries(opts))
  {
    if Built(opts).Some? {
      BuiltMeetsConditions(opts);
    } else if (forall i | 0 <= i < |opts| :: Usable(opts[i])) && AtMostOneLocalPV(opts) && Form(AllEntries(opts)) {
      ConditionsBuild(opts);
    }
  }

  // ---------------------------------------------------------------- what else the object holds

  predicate SameKind(a: StorageClassOption, b: StorageClassOption) {
    || (a.WithName? && b.WithName?)
    || (a.WithGenerateName? && b.WithGenerateName?)
    || (a.WithVolumeBindingMode? && b.WithVolumeBindingMode?)
    || (a.WithReclaimPolicy? && b.WithReclaimPolicy?)
  }

  /** What was given is there: for a name prefix with a dash, and for an empty mode or policy the
      default one. */
  predicate IsThere(opt: StorageClassOption, o: Object) {
    match opt
    case WithName(name) => o.name == name
    case WithGenerateName(prefix) => o.generateName == prefix + "-"
    case WithVolumeBindingMode(mode) => o.bindingMode == Some(if mode == "" then "WaitForFirstConsumer" else mode)
    case WithReclaimPolicy(policy) => o.reclaimPolicy == Some(if policy == "" then "Delete" else policy)
    case _ => true
  }

  lemma StepIsThere(opt: StorageClassOption, o: Object, earlier: StorageClassOption)
    requires Step(opt, o).Some?
    ensures IsThere(opt, Step(opt, o).value)
    ensures IsThere(earlier, o) && !SameKind(earlier, opt) ==> IsThere(earlier, Step(opt, o).value)
  {
  }

  /** Of several options of one kind the last one counts. */
  lemma {:induction false} LastOneCounts(opts: seq<StorageClassOption>, i: nat)
    requires Built(opts).Some? && i < |opts| && forall j | i < j < |opts| :: !SameKind(opts[i], opts[j])
    ensures IsThere(opts[i], Built(opts).value)
  {
    var front, last := opts[..|opts| - 1], opts[|opts| - 1];
    StepIsThere(last, Built(front).value, opts[i]);
    if i < |front| {
      assert forall j | 0 <= j < |front| :: front[j] == opts[j];
      LastOneCounts(front, i);
    }
  }

  function LabelsIn(opt: StorageClassOption): map<string, string> {
    if opt.WithLabels? then opt.labels else map[]
  }

  function ParametersIn(opt: StorageClassOption): map<string, string> {
    if opt.WithParameters? then opt.parameters else map[]
  }

  lemma StepMerges(opt: StorageClassOption, o: Object)
    requires Step(opt, o).Some?
    ensures Step(opt, o).value.labels == o.labels + LabelsIn(opt)
    ensures Step(opt, o).value.parameters == o.parameters + ParametersIn(opt)
  {
    var none: map<string, string> := map[];
    assert o.labels + none == o.labels && o.parameters + none == o.parameters;
  }

  /** Labels and parameters are merged; of several values for a key the last one counts. */
  lemma {:induction false} LastValueCounts(opts: seq<StorageClassOption>, i: nat, k: string)
    requires Built(opts).Some? && i < |opts|
    ensures k in LabelsIn(opts[i]) && (forall j | i < j < |opts| :: k !in LabelsIn(opts[j])) ==>
      k in Built(opts).value.labels && Built(opts).value.labels[k] == LabelsIn(opts[i])[k]
    ensures k in ParametersIn(opts[i]) && (forall j | i < j < |opts| :: k !in ParametersIn(opts[j])) ==>
      k in Built(opts).value.parameters && Built(opts).value.parameters[k] == ParametersIn(opts[i])[k]
  {
    var front, last := opts[..|opts| - 1], opts[|opts| - 1];
    StepMerges(last, Built(front).value);
    if i < |front| {
      assert forall j | 0 <= j < |front| :: front[j] == opts[j];
      LastValueCounts(front, i, k);
    }
  }

  /** No key is there that was not given. */
  lemma {:induction false} KeysWereGiven(opts: seq<StorageClassOption>, k: string)
    requires Built(opts).Some?
    ensures k in Built(opts).value.labels ==> exists i | 0 <= i < |opts| :: k in LabelsIn(opts[i])
    ensures k in Built(opts).value.parameters ==> exists i | 0 <= i < |opts| :: k in ParametersIn(opts[i])
  {
    if opts != [] {
      var front, last := opts[..|opts| - 1], opts[|opts| - 1];
      StepMerges(last, Built(front).value);
      KeysWereGiven(front, k);
      assert forall j | 0 <= j < |front| :: front[j] == opts[j];
      assert last == opts[|opts| - 1];
    }
  }

  /** Topologies are kept one after another, and no other option touches them. */
  lemma TopologiesAreCollected(opts: seq<StorageClassOption>, opt: StorageClassOption)
    requires Built(opts + [opt]).Some?
    ensures Built([]).value.topologies == [] && Built(opts).Some?
    ensures Built(opts + [opt]).value.topologies ==
      Built(opts).value.topologies + (if opt.WithAllowedTopologies? then [opt.topologies] else [])
  {
    assert (opts + [opt])[..|opts|] == opts;
    assert Built(opts).value.topologies + [] == Built(opts).value.topologies;
  }
}
