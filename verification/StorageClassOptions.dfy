/** The option functions that build a StorageClass. Each looks at the configuration built so
    far, refuses what does not fit, and otherwise appends its entries. The configuration is an
    annotation in YAML; here it is the sequence of its entries. */
module StorageClassOptions {
  import opened Wrappers
  import opened QuotaSyntax

  datatype QuotaKind = XFSQuota | EXT4Quota

  datatype Entry =
    | StorageType(value: string)
    | BasePath(value: string)
    | Quota(kind: QuotaKind, enabled: string, limits: Option<map<string, string>>)
    | NodeAffinityLabels(list: seq<string>)
    | FSType(value: string)
    | BlockDeviceSelectors(data: map<string, string>)
    // looked for by the checks and written by nobody
    | NodeAffinityLabel(value: string)

  datatype StorageClassOption =
    | WithName(name: string)
    | WithGenerateName(prefix: string)
    | WithLabels(labels: map<string, string>)
    | WithParameters(parameters: map<string, string>)
    | WithLocalPV
    | WithHostpath(dir: string)
    | WithDevice
    | WithXfsQuota(softLimit: string, hardLimit: string)
    | WithExt4Quota(softLimit: string, hardLimit: string)
    | WithVolumeBindingMode(mode: string)
    | WithReclaimPolicy(policy: string)
    | WithAllowedTopologies(topologies: map<string, seq<string>>)
    | WithNodeAffinityLabels(keys: seq<string>)
    | WithFSType(filesystem: string)
    | WithBlockDeviceSelectors(selectors: map<string, string>)

  const LocalPVCasType := "local"
  const LocalPVProvisioner := "openebs.io/local"
  const SoftLimitKey := "softLimitGrace"
  const HardLimitKey := "hardLimitGrace"

  /** What a StorageClass object holds. An annotation that is not set is None. */
  datatype Object = Object(
    name: string, generateName: string, labels: map<string, string>, parameters: map<string, string>,
    casType: Option<string>, casConfig: Option<seq<Entry>>, provisioner: string,
    bindingMode: Option<string>, reclaimPolicy: Option<string>, topologies: seq<map<string, seq<string>>>)

  const Empty := Object("", "", map[], map[], None, None, "", None, None, [])

  function Entries(o: Object): seq<Entry> { o.casConfig.GetOr([]) }

  // ---------------------------------------------------------------- checks

  /** strings.TrimSuffix(s, "/") */
  function TrimSlash(s: string): string {
    if s != "" && s[|s| - 1] == '/' then s[..|s| - 1] else s
  }

  /** One past the last slash, as in filepath.Split. */
  function AfterLastSlash(s: string): (i: nat)
    ensures i <= |s|
    ensures i > 0 ==> s[i - 1] == '/'
    ensures forall j | i <= j < |s| :: s[j] != '/'
  {
    if s == "" then 0 else if s[|s| - 1] == '/' then |s| else AfterLastSlash(s[..|s| - 1])
  }

  predicate IsValidPath(hostpath: string) {
    && hostpath != "" && hostpath[0] == '/'
    && var path := TrimSlash(hostpath);
       var i := AfterLastSlash(path);
       TrimSlash(path[..i]) != "" && TrimSlash(path[i..]) != ""
  }

  predicate IsValidQuotaData(data: Option<map<string, string>>) {
    data.Some? ==>
      && (SoftLimitKey in data.value ==> ValidLimit(data.value[SoftLimitKey]))
      && (HardLimitKey in data.value ==> ValidLimit(data.value[HardLimitKey]))
  }

  predicate IsValidFilesystem(filesystem: string) { filesystem == "xfs" || filesystem == "ext4" }

  predicate IsHostpath(value: string) { value == "\"hostpath\"" || value == "hostpath" }

  predicate IsDevice(value: string) { value == "\"device\"" || value == "device" }

  /** The six compatibility checks. */
  datatype Guard = ForHostpath | ForQuota | ForNodeAffinityLabel | ForDevice | ForFSType | ForBlockDeviceTag

  /** Whether a check lets an entry pass. */
  predicate Allows(guard: Guard, e: Entry) {
    match guard
    case ForHostpath => e.NodeAffinityLabel? || (e.Quota? && IsValidQuotaData(e.limits))
    case ForQuota =>
      (e.StorageType? && IsHostpath(e.value)) || (e.BasePath? && IsValidPath(e.value)) || e.NodeAffinityLabel?
    case ForNodeAffinityLabel =>
      || (e.StorageType? && (IsHostpath(e.value) || IsDevice(e.value)))
      || (e.BasePath? && IsValidPath(e.value))
      || (e.Quota? && IsValidQuotaData(e.limits))
    case ForDevice => e.BlockDeviceSelectors? || e.FSType?
    case ForFSType => (e.StorageType? && IsDevice(e.value)) || e.BlockDeviceSelectors?
    case ForBlockDeviceTag => (e.StorageType? && IsDevice(e.value)) || e.FSType?
  }

  predicate CompatibleCasType(o: Object) {
    o.casType.Some? ==> o.casType.value == LocalPVCasType || o.casType.value == ""
  }

  predicate Compatible(guard: Guard, o: Object) {
    && CompatibleCasType(o)
    && (forall e | e in Entries(o) :: Allows(guard, e))
    && (o.provisioner == "" || o.provisioner == LocalPVProvisioner)
  }

  // ---------------------------------------------------------------- entries

  function HostpathEntries(dir: string): seq<Entry> {
    [StorageType("hostpath"), BasePath(dir)]
  }

  const DeviceEntry := StorageType("device")

  function QuotaData(softLimit: string, hardLimit: string): Option<map<string, string>> {
    if softLimit != "" || hardLimit != "" then Some(map[SoftLimitKey := softLimit, HardLimitKey := hardLimit]) else None
  }

  function QuotaEntry(kind: QuotaKind, softLimit: string, hardLimit: string): Entry {
    Quota(kind, "true", QuotaData(softLimit, hardLimit))
  }

  function NonEmpty(keys: seq<string>): (r: seq<string>)
    ensures "" !in r && forall k | k != "" :: k in r <==> k in keys
  {
    if keys == [] then [] else NonEmpty(keys[..|keys| - 1]) + (if keys[|keys| - 1] != "" then [keys[|keys| - 1]] else [])
  }

  lemma {:induction false} NonEmptyOfNonEmpty(keys: seq<string>)
    ensures "" !in keys ==> NonEmpty(keys) == keys
  {
    if keys != [] {
      NonEmptyOfNonEmpty(keys[..|keys| - 1]);
    }
  }

  function NonEmptyValues(m: map<string, string>): map<string, string> {
    map k | k in m && m[k] != "" :: m[k]
  }

  function Appended(o: Object, entries: seq<Entry>): Object {
    o.(casConfig := Some(Entries(o) + entries))
  }

  // ---------------------------------------------------------------- specification

  /** What one option does to a StorageClass; None is an error. */
  function Step(opt: StorageClassOption, o: Object): Option<Object> {
    match opt
    case WithName(name) => if name == "" then None else Some(o.(name := name))
    case WithGenerateName(prefix) => if prefix == "" then None else Some(o.(generateName := prefix + "-"))
    case WithLabels(labels) => if labels == map[] then None else Some(o.(labels := o.labels + labels))
    case WithParameters(parameters) => if parameters == map[] then None else Some(o.(parameters := o.parameters + parameters))
    case WithLocalPV =>
      if o.casType.Some? || o.provisioner != "" then None
      else Some(o.(casType := Some(LocalPVCasType), provisioner := LocalPVProvisioner))
    case WithHostpath(dir) =>
      if IsValidPath(dir) && Compatible(ForHostpath, o) then Some(Appended(o, HostpathEntries(dir))) else None
    case WithDevice => if Compatible(ForDevice, o) then Some(Appended(o, [DeviceEntry])) else None
    case WithXfsQuota(softLimit, hardLimit) => QuotaStep(o, XFSQuota, softLimit, hardLimit)
    case WithExt4Quota(softLimit, hardLimit) => QuotaStep(o, EXT4Quota, softLimit, hardLimit)
    case WithVolumeBindingMode(mode) => Some(o.(bindingMode := Some(if mode == "" then "WaitForFirstConsumer" else mode)))
    case WithReclaimPolicy(policy) => Some(o.(reclaimPolicy := Some(if policy == "" then "Delete" else policy)))
    case WithAllowedTopologies(topologies) =>
      if topologies == map[] then None else Some(o.(topologies := o.topologies + [topologies]))
    case WithNodeAffinityLabels(keys) =>
      if NonEmpty(keys) != [] && Compatible(ForNodeAffinityLabel, o) then Some(Appended(o, [NodeAffinityLabels(NonEmpty(keys))])) else None
    case WithFSType(filesystem) =>
      if IsValidFilesystem(filesystem) && Compatible(ForFSType, o) then Some(Appended(o, [FSType(filesystem)])) else None
    case WithBlockDeviceSelectors(selectors) =>
      if NonEmptyValues(selectors) != map[] && Compatible(ForBlockDeviceTag, o)
      then Some(Appended(o, [BlockDeviceSelectors(NonEmptyValues(selectors))])) else None
  }

  function QuotaStep(o: Object, kind: QuotaKind, softLimit: string, hardLimit: string): Option<Object> {
    if Compatible(ForQuota, o) && ValidLimit(softLimit) && ValidLimit(hardLimit)
    then Some(Appended(o, [QuotaEntry(kind, softLimit, hardLimit)])) else None
  }

  /** All options in turn; the first error ends it. */
  function Built(opts: seq<StorageClassOption>): Option<Object> {
    if opts == [] then Some(Empty)
    else
      var before := Built(opts[..|opts| - 1]);
      if before.None? then None else Step(opts[|opts| - 1], before.value)
  }

  lemma {:induction false} ErrorsStay(opts: seq<StorageClassOption>, n: nat)
    requires n <= |opts| && Built(opts[..n]).None?
    ensures Built(opts).None?
    decreases |opts|
  {
    if n < |opts| {
      assert opts[..|opts| - 1][..n] == opts[..n];
      ErrorsStay(opts[..|opts| - 1], n);
    } else {
      assert opts[..n] == opts;
    }
  }

  // ---------------------------------------------------------------- the builder

  /** The selectors that have a value, taken one by one in any order. */
  method KeepNonEmpty(selectors: map<string, string>) returns (bdSelectorMap: map<string, string>)
    ensures bdSelectorMap == NonEmptyValues(selectors)
  {
    bdSelectorMap := map[];
    var keys := selectors.Keys;
    while keys != {}
      invariant keys <= selectors.Keys
      invariant bdSelectorMap == map k | k in selectors && k !in keys && selectors[k] != "" :: selectors[k]
      decreases |keys|
    {
      var key :| key in keys;
      if |selectors[key]| != 0 {
        bdSelectorMap := bdSelectorMap[key := selectors[key]];
      }
      keys := keys - {key};
    }
  }

  class StorageClass {
    var name: string
    var generateName: string
    var labels: map<string, string>
    var parameters: map<string, string>
    var casType: Option<string>
    var casConfig: Option<seq<Entry>>
    var provisioner: string
    var bindingMode: Option<string>
    var reclaimPolicy: Option<string>
    var topologies: seq<map<string, seq<string>>>

    constructor ()
      ensures Contents() == Empty
    {
      name, generateName, labels, parameters, casType, casConfig := "", "", map[], map[], None, None;
      provisioner, bindingMode, reclaimPolicy, topologies := "", None, None, [];
    }

    function Contents(): Object
      reads this
    {
      Object(name, generateName, labels, parameters, casType, casConfig, provisioner, bindingMode, reclaimPolicy, topologies)
    }

    /** The checks read the entries one by one and stop at the first that does not fit. */
    method IsCompatible(guard: Guard) returns (ok: bool)
      ensures ok <==> Compatible(guard, Contents())
    {
      if casType.Some? && casType.value != LocalPVCasType && casType.value != "" {
        return false;
      }
      if casConfig.Some? {
        for n := 0 to |casConfig.value|
          invariant forall e | e in casConfig.value[..n] :: Allows(guard, e)
        {
          if !Allows(guard, casConfig.value[n]) {
            assert casConfig.value[n] in Entries(Contents());
            return false;
          }
        }
      }
      if |provisioner| > 0 && provisioner != LocalPVProvisioner {
        return false;
      }
      return true;
    }

    method WriteOrAppendCASConfig(config: seq<Entry>)
      modifies this`casConfig
      ensures Contents() == Appended(old(Contents()), config)
    {
      if casConfig.Some? {
        casConfig := Some(casConfig.value + config);
      } else {
        assert [] + config == config;
        casConfig := Some(config);
      }
    }

    method SetHostpath(dir: string) returns (ok: bool)
      modifies this`casConfig
      ensures Result(ok, Step(WithHostpath(dir), old(Contents())), old(Contents()))
      ensures ok ==> Entries(Contents()) == old(Entries(Contents())) + [StorageType("hostpath"), BasePath(dir)]
    {
      if !IsValidPath(dir) {
        return false;
      }
      ok := IsCompatible(ForHostpath);
      if ok {
        WriteOrAppendCASConfig([StorageType("hostpath"), BasePath(dir)]);
      }
    }

    method SetDevice() returns (ok: bool)
      modifies this`casConfig
      ensures Result(ok, Step(WithDevice, old(Contents())), old(Contents()))
    {
      ok := IsCompatible(ForDevice);
      if ok {
        WriteOrAppendCASConfig([StorageType("device")]);
      }
    }

    method SetQuota(kind: QuotaKind, softLimit: string, hardLimit: string) returns (ok: bool)
      modifies this`casConfig
      ensures Result(ok, QuotaStep(old(Contents()), kind, softLimit, hardLimit), old(Contents()))
      ensures ok && softLimit == hardLimit == "" ==> Entries(Contents()) == old(Entries(Contents())) + [Quota(kind, "true", None)]
      ensures ok && !(softLimit == hardLimit == "") ==>
        Entries(Contents()) == old(Entries(Contents())) +
          [Quota(kind, "true", Some(map["softLimitGrace" := softLimit, "hardLimitGrace" := hardLimit]))]
    {
      ok := IsCompatible(ForQuota);
      if !ok {
        return;
      }
      var config := Quota(kind, "true", None);
      if |softLimit| > 0 || |hardLimit| > 0 {
        var data := map[SoftLimitKey := softLimit, HardLimitKey := hardLimit];
        assert SoftLimitKey[0] != HardLimitKey[0];
        if !IsValidQuotaData(Some(data)) {
          return false;
        }
        config := config.(limits := Some(data));
      }
      WriteOrAppendCASConfig([config]);
    }

    method SetNodeAffinityLabels(keys: seq<string>) returns (ok: bool)
      modifies this`casConfig
      ensures Result(ok, Step(WithNodeAffinityLabels(keys), old(Contents())), old(Contents()))
      ensures ok && "" !in keys ==> Entries(Contents()) == old(Entries(Contents())) + [NodeAffinityLabels(keys)]
    {
      if |keys| == 0 {
        return false;
      }
      ok := IsCompatible(ForNodeAffinityLabel);
      if !ok {
        return;
      }
      var labelKeys := [];
      for n := 0 to |keys|
        invariant labelKeys == NonEmpty(keys[..n])
      {
        assert keys[..n + 1][..n] == keys[..n];
        if |keys[n]| != 0 {
          labelKeys := labelKeys + [keys[n]];
        }
      }
      assert keys[..|keys|] == keys;
      NonEmptyOfNonEmpty(keys);
      if labelKeys == [] {
        return false;
      }
      WriteOrAppendCASConfig([NodeAffinityLabels(labelKeys)]);
    }

    method SetFSType(filesystem: string) returns (ok: bool)
      modifies this`casConfig
      ensures Result(ok, Step(WithFSType(filesystem), old(Contents())), old(Contents()))
    {
      if !IsValidFilesystem(filesystem) {
        return false;
      }
      ok := IsCompatible(ForFSType);
      if ok {
        WriteOrAppendCASConfig([FSType(filesystem)]);
      }
    }

    method SetBlockDeviceSelectors(selectors: map<string, string>) returns (ok: bool)
      modifies this`casConfig
      ensures Result(ok, Step(WithBlockDeviceSelectors(selectors), old(Contents())), old(Contents()))
      ensures ok ==>
        Entries(Contents()) == old(Entries(Contents())) +
          [BlockDeviceSelectors(map k | k in selectors && selectors[k] != "" :: selectors[k])]
    {
      if |selectors| == 0 {
        assert NonEmptyValues(selectors) == map[];
        return false;
      }
      ok := IsCompatible(ForBlockDeviceTag);
      if !ok {
        return;
      }
      var bdSelectorMap := KeepNonEmpty(selectors);
      if bdSelectorMap == map[] {
        return false;
      }
      WriteOrAppendCASConfig([BlockDeviceSelectors(bdSelectorMap)]);
    }

    /** An option failed and changed nothing, or did what it should. */
    ghost predicate Result(ok: bool, r: Option<Object>, before: Object)
      reads this
    {
      (ok <==> r.Some?) && Contents() == r.GetOr(before)
    }

    /** Applies one option. */
    method Apply(opt: StorageClassOption) returns (ok: bool)
      modifies this
      ensures Result(ok, Step(opt, old(Contents())), old(Contents()))
    {
      match opt
      case WithHostpath(dir) => ok := SetHostpath(dir);
      case WithDevice => ok := SetDevice();
      case WithXfsQuota(softLimit, hardLimit) => ok := SetQuota(XFSQuota, softLimit, hardLimit);
      case WithExt4Quota(softLimit, hardLimit) => ok := SetQuota(EXT4Quota, softLimit, hardLimit);
      case WithNodeAffinityLabels(keys) => ok := SetNodeAffinityLabels(keys);
      case WithFSType(filesystem) => ok := SetFSType(filesystem);
      case WithBlockDeviceSelectors(selectors) => ok := SetBlockDeviceSelectors(selectors);
      case WithLocalPV =>
        ok := casType.None? && |provisioner| == 0;
        if ok {
          casType, provisioner := Some(LocalPVCasType), LocalPVProvisioner;
        }
      case _ => ok := SetMetadata(opt);
    }

    /** The options that have nothing to do with the configuration. */
    method SetMetadata(opt: StorageClassOption) returns (ok: bool)
      requires opt.WithName? || opt.WithGenerateName? || opt.WithLabels? || opt.WithParameters?
        || opt.WithVolumeBindingMode? || opt.WithReclaimPolicy? || opt.WithAllowedTopologies?
      modifies this
      ensures Result(ok, Step(opt, old(Contents())), old(Contents()))
    {
      ok := true;
      match opt
      case WithName(n) => if |n| == 0 { ok := false; } else { name := n; }
      case WithGenerateName(prefix) => if |prefix| == 0 { ok := false; } else { generateName := prefix + "-"; }
      case WithLabels(l) => if l == map[] { ok := false; } else { labels := labels + l; }
      case WithParameters(p) => if p == map[] { ok := false; } else { parameters := parameters + p; }
      case WithVolumeBindingMode(mode) => bindingMode := Some(if |mode| == 0 then "WaitForFirstConsumer" else mode);
      case WithReclaimPolicy(policy) => reclaimPolicy := Some(if |policy| == 0 then "Delete" else policy);
      case WithAllowedTopologies(t) => if t == map[] { ok := false; } else { topologies := topologies + [t]; }
    }
  }

  method NewStorageClass(opts: seq<StorageClassOption>) returns (ok: bool, s: StorageClass)
    ensures ok <==> Built(opts).Some?
    ensures ok ==> fresh(s) && s.Contents() == Built(opts).value
  {
    s := new StorageClass();
    for n := 0 to |opts|
      invariant fresh(s) && Built(opts[..n]) == Some(s.Contents())
    {
      assert opts[..n + 1][..n] == opts[..n];
      ok := s.Apply(opts[n]);
      if !ok {
        ErrorsStay(opts, n + 1);
        return;
      }
    }
    assert opts[..|opts|] == opts;
    return true, s;
  }
}
