/** From a StorageClass to the configuration of a volume: what the provisioner reads out of the
    entries the options wrote. */
module StorageClassConfigs {
  import opened Wrappers
  import opened QuotaSyntax
  import opened HelperPods
  import opened VolumeConfigs
  import opened StorageClassOptions
  import opened StorageClassShapes
  import opened BasePaths

  /** The entry of a name. */
  function EntryOf(c: seq<Entry>, name: Name): Option<Entry> {
    if c == [] then None else if NameOf(c[0]) == name then Some(c[0]) else EntryOf(c[1..], name)
  }

  function EnabledOf(c: seq<Entry>, kind: QuotaKind): string {
    match EntryOf(c, QuotaName(kind))
    case Some(Quota(_, enabled, _)) => enabled
    case _ => ""
  }

  function LimitOf(c: seq<Entry>, kind: QuotaKind, key: string): string {
    match EntryOf(c, QuotaName(kind))
    case Some(Quota(_, _, Some(limits))) => if key in limits then limits[key] else ""
    case _ => ""
  }

  /** The storage type: hostpath unless another one is given. */
  function TypeOf(c: seq<Entry>): string {
    match EntryOf(c, TypeName)
    case Some(StorageType(value)) => if TrimSpace(value) == "" then "hostpath" else value
    case _ => "hostpath"
  }

  function SelectorsOf(c: seq<Entry>): Option<map<string, string>> {
    match EntryOf(c, SelectorsName)
    case Some(BlockDeviceSelectors(data)) => Some(data)
    case _ => None
  }

  /** The volume configuration of a StorageClass. */
  function ConfigOf(c: seq<Entry>): VolumeConfig {
    VolumeConfig(
      match EntryOf(c, PathName) case Some(BasePath(path)) => Some(Cleaned(path)) case _ => None,
      match EntryOf(c, LabelsName) case Some(NodeAffinityLabels(list)) => Some(list) case _ => None,
      EnabledOf(c, XFSQuota), LimitOf(c, XFSQuota, SoftLimitKey), LimitOf(c, XFSQuota, HardLimitKey),
      EnabledOf(c, EXT4Quota), LimitOf(c, EXT4Quota, SoftLimitKey), LimitOf(c, EXT4Quota, HardLimitKey),
      "",
      match EntryOf(c, LabelName) case Some(NodeAffinityLabel(value)) => value case _ => "",
      match EntryOf(c, FSName) case Some(FSType(value)) => value case _ => "")
  }

  lemma {:induction false} EntryIsThere(c: seq<Entry>, name: Name)
    ensures EntryOf(c, name).Some? <==> exists e :: e in c && NameOf(e) == name
    ensures EntryOf(c, name).Some? ==> EntryOf(c, name).value in c && NameOf(EntryOf(c, name).value) == name
  {
    if c != [] {
      EntryIsThere(c[1..], name);
      assert c == [c[0]] + c[1..];
    }
  }

  lemma EnabledWhenThere(c: seq<Entry>, kind: QuotaKind)
    requires forall e | e in c && e.Quota? :: e.enabled == "true"
    ensures ParseBool(TrimSpace(EnabledOf(c, kind))) <==> exists e :: e in c && NameOf(e) == QuotaName(kind)
  {
    EntryIsThere(c, QuotaName(kind));
    assert TrimSpace("true") == "true";
  }

  lemma OneQuotaEnabled(c: seq<Entry>)
    requires AtMostOneQuota(c) && forall e | e in c && e.Quota? :: e.enabled == "true"
    ensures ConfigOf(c).Quotas() <= 1
  {
    EnabledWhenThere(c, XFSQuota);
    EnabledWhenThere(c, EXT4Quota);
  }

  lemma LimitIsAccepted(c: seq<Entry>, kind: QuotaKind, key: string)
    requires forall e | e in c && e.Quota? :: IsQuota(e)
    ensures Accepted(LimitOf(c, kind, key))
  {
    EntryIsThere(c, QuotaName(kind));
    var limit := LimitOf(c, kind, key);
    if limit != "" {
      assert ValidLimit(limit);
      ValidLimitParses(limit);
    }
  }

  /** With the configuration of any StorageClass that the options build, at most one quota pod
      runs, and the limits it is given parse. */
  lemma QuotasAtProvisioning(opts: seq<StorageClassOption>)
    requires Built(opts).Some?
    ensures var config := ConfigOf(Entries(Built(opts).value));
      && config.Quotas() <= 1
      && Accepted(config.xfsSoft) && Accepted(config.xfsHard) && Accepted(config.ext4Soft) && Accepted(config.ext4Hard)
  {
    var c := Entries(Built(opts).value);
    BuiltIsFine(opts);
    QuotasAsWritten(c);
    BuiltConfigurations(opts);
    OneQuotaEnabled(c);
    LimitIsAccepted(c, XFSQuota, SoftLimitKey);
    LimitIsAccepted(c, XFSQuota, HardLimitKey);
    LimitIsAccepted(c, EXT4Quota, SoftLimitKey);
    LimitIsAccepted(c, EXT4Quota, HardLimitKey);
  }

  lemma PathsAsWritten(c: seq<Entry>)
    requires Form(c)
    ensures forall e | e in c && e.BasePath? :: IsValidPath(e.value)
  {
    if HostpathForm(c) {
      HostpathPaths(c);
    } else if LabelledForm(c) {
      var p := c[..|c| - 1];
      assert c == p + [c[|c| - 1]];
      if HostpathForm(p) {
        HostpathPaths(p);
      }
    }
  }

  lemma HostpathPaths(c: seq<Entry>)
    requires HostpathForm(c)
    ensures forall e | e in c && e.BasePath? :: IsValidPath(e.value)
  {
    forall e | e in c && e.BasePath?
      ensures IsValidPath(e.value)
    {
      EntryOfHostpath(c, e);
    }
  }

  /** Provisioning with a configuration that has a base path gets a path for every volume,
      unless the base path means the root, which the builder may have accepted. */
  lemma PathAtProvisioning(opts: seq<StorageClassOption>, base: string, volume: string)
    requires Built(opts).Some? && EntryOf(Entries(Built(opts).value), PathName) == Some(BasePath(base))
    ensures IsValidPath(base)
    ensures ConfigOf(Entries(Built(opts).value)).GetPath(volume) == if Cleaned(base) == [] then None else Some(Cleaned(base) + [volume])
  {
    var c := Entries(Built(opts).value);
    BuiltIsFine(opts);
    PathsAsWritten(c);
    EntryIsThere(c, PathName);
  }
}
