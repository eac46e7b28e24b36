/** From the options to the provisioner: what each option was given is what provisioning reads,
    and nothing is read that no option was given. And which lists of options build at all. */
module StorageClassReadings {
  import opened Wrappers
  import opened QuotaSyntax
  import opened VolumeConfigs
  import opened StorageClassOptions
  import opened StorageClassShapes
  import opened StorageClassConfigs
  import opened BasePaths

  // ---------------------------------------------------------------- what is written

  /** The entries of one option. */
  function EntriesOf(opt: StorageClassOption): seq<Entry> {
    match opt
    case WithHostpath(dir) => HostpathEntries(dir)
    case WithDevice => [DeviceEntry]
    case WithXfsQuota(softLimit, hardLimit) => [QuotaEntry(XFSQuota, softLimit, hardLimit)]
    case WithExt4Quota(softLimit, hardLimit) => [QuotaEntry(EXT4Quota, softLimit, hardLimit)]
    case WithNodeAffinityLabels(keys) => [NodeAffinityLabels(NonEmpty(keys))]
    case WithFSType(filesystem) => [FSType(filesystem)]
    case WithBlockDeviceSelectors(selectors) => [BlockDeviceSelectors(NonEmptyValues(selectors))]
    case _ => []
  }

  function AllEntries(opts: seq<StorageClassOption>): seq<Entry> {
    if opts == [] then [] else AllEntries(opts[..|opts| - 1]) + EntriesOf(opts[|opts| - 1])
  }

  lemma StepWrites(opt: StorageClassOption, o: Object)
    requires Step(opt, o).Some?
    ensures Entries(Step(opt, o).value) == Entries(o) + EntriesOf(opt)
  {
    assert Entries(o) + [] == Entries(o);
  }

  lemma {:induction false} BuiltEntries(opts: seq<StorageClassOption>)
    requires Built(opts).Some?
    ensures Entries(Built(opts).value) == AllEntries(opts)
  {
    if opts != [] {
      BuiltEntries(opts[..|opts| - 1]);
      StepWrites(opts[|opts| - 1], Built(opts[..|opts| - 1]).value);
    }
  }

  ghost predicate WrittenBySome(opts: seq<StorageClassOption>, e: Entry) {
    exists i | 0 <= i < |opts| :: e in EntriesOf(opts[i])
  }

  lemma {:induction false} WhoWrites(opts: seq<StorageClassOption>, e: Entry)
    ensures e in AllEntries(opts) <==> WrittenBySome(opts, e)
  {
    if opts != [] {
      var front, last := opts[..|opts| - 1], opts[|opts| - 1];
      WhoWrites(front, e);
      OneMoreWriter(opts, front, last, e);
    }
  }

  lemma OneMoreWriter(opts: seq<StorageClassOption>, front: seq<StorageClassOption>, last: StorageClassOption, e: Entry)
    requires opts == front + [last]
    ensures WrittenBySome(opts, e) <==> WrittenBySome(front, e) || e in EntriesOf(last)
  {
    assert opts[|front|] == last;
    if WrittenBySome(front, e) {
      var i :| 0 <= i < |front| && e in EntriesOf(front[i]);
      assert opts[i] == front[i];
    }
    if WrittenBySome(opts, e) {
      var i :| 0 <= i < |opts| && e in EntriesOf(opts[i]);
      assert i < |front| ==> opts[i] == front[i];
    }
  }

  // ---------------------------------------------------------------- what is read

  lemma {:induction false} TheEntryOfItsName(c: seq<Entry>, e: Entry)
    requires DistinctNames(c) && e in c
    ensures EntryOf(c, NameOf(e)) == Some(e)
  {
    if c[0] != e {
      var i :| 0 <= i < |c| && c[i] == e;
      assert c[1..][i - 1] == e;
      assert DistinctNames(c[1..]) by {
        assert forall j | 0 <= j < |c| - 1 :: c[1..][j] == c[j + 1];
      }
      TheEntryOfItsName(c[1..], e);
    }
  }

  /** A list of options builds, and gives this configuration. */
  predicate Builds(opts: seq<StorageClassOption>, c: seq<Entry>) {
    Built(opts).Some? && Entries(Built(opts).value) == c
  }

  /** An entry that was written is read. */
  lemma ReadAsWritten(opts: seq<StorageClassOption>, c: seq<Entry>, i: nat, e: Entry)
    requires Builds(opts, c) && i < |opts| && e in EntriesOf(opts[i])
    ensures e in c && EntryOf(c, NameOf(e)) == Some(e)
  {
    BuiltEntries(opts);
    WhoWrites(opts, e);
    BuiltConfigurations(opts);
    TheEntryOfItsName(c, e);
  }

  /** What is read was written. */
  lemma WrittenAsRead(opts: seq<StorageClassOption>, c: seq<Entry>, name: Name) returns (i: nat)
    requires Builds(opts, c) && EntryOf(c, name).Some?
    ensures i < |opts| && EntryOf(c, name).value in EntriesOf(opts[i]) && NameOf(EntryOf(c, name).value) == name
  {
    EntryIsThere(c, name);
    var e := EntryOf(c, name).value;
    BuiltEntries(opts);
    WhoWrites(opts, e);
    i :| 0 <= i < |opts| && e in EntriesOf(opts[i]);
  }

  // ---------------------------------------------------------------- hostpath

  lemma QuotaOfEntry(c: seq<Entry>, kind: QuotaKind, softLimit: string, hardLimit: string)
    requires EntryOf(c, QuotaName(kind)) == Some(QuotaEntry(kind, softLimit, hardLimit))
    ensures LimitOf(c, kind, SoftLimitKey) == softLimit && LimitOf(c, kind, HardLimitKey) == hardLimit
    ensures EnabledOf(c, kind) == "true"
  {
    assert SoftLimitKey[0] != HardLimitKey[0];
  }

  lemma AtMostOneEnabled(config: VolumeConfig)
    requires config.Quotas() <= 1
    ensures config.xfsEnabled == "true" ==> config.IsXfsQuotaEnabled() && !config.IsExt4QuotaEnabled()
    ensures config.ext4Enabled == "true" ==> config.IsExt4QuotaEnabled() && !config.IsXfsQuotaEnabled()
  {
    assert TrimSpace("true") == "true";
  }

  lemma OneEnabled(opts: seq<StorageClassOption>, c: seq<Entry>)
    requires Builds(opts, c)
    ensures ConfigOf(c).Quotas() <= 1
  {
    QuotasAtProvisioning(opts);
  }

  /** A volume of a class with an XFS quota is given just that quota, with the two limits in
      their places. */
  lemma XfsQuotaIsRead(opts: seq<StorageClassOption>, c: seq<Entry>, i: nat, softLimit: string, hardLimit: string)
    requires Builds(opts, c) && i < |opts| && opts[i] == WithXfsQuota(softLimit, hardLimit)
    ensures ConfigOf(c).xfsSoft == softLimit && ConfigOf(c).xfsHard == hardLimit
    ensures ConfigOf(c).IsXfsQuotaEnabled() && !ConfigOf(c).IsExt4QuotaEnabled()
    ensures softLimit != "" || hardLimit != "" ==>
      Quota(XFSQuota, "true", Some(map["softLimitGrace" := softLimit, "hardLimitGrace" := hardLimit])) in c
  {
    ReadAsWritten(opts, c, i, QuotaEntry(XFSQuota, softLimit, hardLimit));
    QuotaOfEntry(c, XFSQuota, softLimit, hardLimit);
    OneEnabled(opts, c);
    AtMostOneEnabled(ConfigOf(c));
  }

  /** The same for an EXT4 quota. */
  lemma Ext4QuotaIsRead(opts: seq<StorageClassOption>, c: seq<Entry>, i: nat, softLimit: string, hardLimit: string)
    requires Builds(opts, c) && i < |opts| && opts[i] == WithExt4Quota(softLimit, hardLimit)
    ensures ConfigOf(c).ext4Soft == softLimit && ConfigOf(c).ext4Hard == hardLimit
    ensures ConfigOf(c).IsExt4QuotaEnabled() && !ConfigOf(c).IsXfsQuotaEnabled()
    ensures softLimit != "" || hardLimit != "" ==>
      Quota(EXT4Quota, "true", Some(map["softLimitGrace" := softLimit, "hardLimitGrace" := hardLimit])) in c
  {
    ReadAsWritten(opts, c, i, QuotaEntry(EXT4Quota, softLimit, hardLimit));
    QuotaOfEntry(c, EXT4Quota, softLimit, hardLimit);
    OneEnabled(opts, c);
    AtMostOneEnabled(ConfigOf(c));
  }

  /** A hostpath volume lies under the directory that was given. */
  lemma HostpathIsRead(opts: seq<StorageClassOption>, c: seq<Entry>, i: nat, dir: string)
    requires Builds(opts, c) && i < |opts| && opts[i] == WithHostpath(dir)
    ensures TypeOf(c) == "hostpath" && ConfigOf(c).basePath == Some(Cleaned(dir))
    ensures StorageType("hostpath") in c && BasePath(dir) in c
  {
    ReadAsWritten(opts, c, i, StorageType("hostpath"));
    ReadAsWritten(opts, c, i, BasePath(dir));
  }

  /** The keys of the affinity labels are those given, in order, without empty ones. */
  lemma LabelKeysAreRead(opts: seq<StorageClassOption>, c: seq<Entry>, i: nat, keys: seq<string>)
    requires Builds(opts, c) && i < |opts| && opts[i] == WithNodeAffinityLabels(keys)
    ensures var read := ConfigOf(c).nodeAffinityKeys;
      read.Some? && (forall k :: k in read.value <==> k in keys && k != "") && ("" !in keys ==> read.value == keys)
  {
    ReadAsWritten(opts, c, i, NodeAffinityLabels(NonEmpty(keys)));
    LabelsOfEntry(c, NonEmpty(keys));
    NonEmptyOfNonEmpty(keys);
  }

  lemma LabelsOfEntry(c: seq<Entry>, list: seq<string>)
    requires EntryOf(c, LabelsName) == Some(NodeAffinityLabels(list))
    ensures ConfigOf(c).nodeAffinityKeys == Some(list)
  {
  }

  // ---------------------------------------------------------------- device

  lemma DeviceIsRead(opts: seq<StorageClassOption>, c: seq<Entry>, i: nat)
    requires Builds(opts, c) && i < |opts| && opts[i] == WithDevice
    ensures TypeOf(c) == "device" && StorageType("device") in c
  {
    ReadAsWritten(opts, c, i, StorageType("device"));
    assert TrimSpace("device") == "device";
  }

  lemma FSTypeIsRead(opts: seq<StorageClassOption>, c: seq<Entry>, i: nat, filesystem: string)
    requires Builds(opts, c) && i < |opts| && opts[i] == WithFSType(filesystem)
    ensures ConfigOf(c).fsType == filesystem
  {
    ReadAsWritten(opts, c, i, FSType(filesystem));
  }

  /** The selectors are those given that have a value. */
  lemma SelectorsAreRead(opts: seq<StorageClassOption>, c: seq<Entry>, i: nat, selectors: map<string, string>)
    requires Builds(opts, c) && i < |opts| && opts[i] == WithBlockDeviceSelectors(selectors)
    ensures SelectorsOf(c) == Some(map k | k in selectors && selectors[k] != "" :: selectors[k])
  {
    ReadAsWritten(opts, c, i, BlockDeviceSelectors(NonEmptyValues(selectors)));
  }

  /** Empty keys are skipped, wherever they are; the others keep their places. */
  lemma {:induction false} EmptyKeysAreSkipped(a: seq<string>, b: seq<string>)
    ensures NonEmpty(a + [""] + b) == NonEmpty(a + b)
    decreases |b|
  {
    if b == [] {
      assert (a + [""] + b)[..|a|] == a && a + b == a;
    } else {
      var front := b[..|b| - 1];
      assert (a + [""] + b)[..|a| + |b|] == a + [""] + front && (a + b)[..|a| + |b| - 1] == a + front;
      EmptyKeysAreSkipped(a, front);
    }
  }

  // ---------------------------------------------------------------- and nothing else

  lemma NoSuchEntry(opts: seq<StorageClassOption>, c: seq<Entry>, name: Name)
    requires Builds(opts, c) && forall i | 0 <= i < |opts| :: forall e | e in EntriesOf(opts[i]) :: NameOf(e) != name
    ensures EntryOf(c, name).None?
  {
    if EntryOf(c, name).Some? {
      var i := WrittenAsRead(opts, c, name);
    }
  }

  lemma XfsOnlyIfGiven(opts: seq<StorageClassOption>, c: seq<Entry>)
    requires Builds(opts, c) && forall i | 0 <= i < |opts| :: !opts[i].WithXfsQuota?
    ensures !ConfigOf(c).IsXfsQuotaEnabled()
  {
    NoSuchEntry(opts, c, QuotaName(XFSQuota));
    assert EnabledOf(c, XFSQuota) == "";
  }

  lemma Ext4OnlyIfGiven(opts: seq<StorageClassOption>, c: seq<Entry>)
    requires Builds(opts, c) && forall i | 0 <= i < |opts| :: !opts[i].WithExt4Quota?
    ensures !ConfigOf(c).IsExt4QuotaEnabled()
  {
    NoSuchEntry(opts, c, QuotaName(EXT4Quota));
    assert EnabledOf(c, EXT4Quota) == "";
  }

  /** A quota is enabled exactly when one was asked for. */
  lemma QuotasReadWereGiven(opts: seq<StorageClassOption>, c: seq<Entry>)
    requires Builds(opts, c)
    ensures ConfigOf(c).IsXfsQuotaEnabled() <==> exists i | 0 <= i < |opts| :: opts[i].WithXfsQuota?
    ensures ConfigOf(c).IsExt4QuotaEnabled() <==> exists i | 0 <= i < |opts| :: opts[i].WithExt4Quota?
  {
    if i :| 0 <= i < |opts| && opts[i].WithXfsQuota? {
      XfsQuotaIsRead(opts, c, i, opts[i].softLimit, opts[i].hardLimit);
    } else {
      XfsOnlyIfGiven(opts, c);
    }
    if i :| 0 <= i < |opts| && opts[i].WithExt4Quota? {
      Ext4QuotaIsRead(opts, c, i, opts[i].softLimit, opts[i].hardLimit);
    } else {
      Ext4OnlyIfGiven(opts, c);
    }
  }

  /** There is a base path exactly when a hostpath was asked for. */
  lemma PathReadWasGiven(opts: seq<StorageClassOption>, c: seq<Entry>)
    requires Builds(opts, c)
    ensures ConfigOf(c).basePath.Some? <==> exists i | 0 <= i < |opts| :: opts[i].WithHostpath?
  {
    if i :| 0 <= i < |opts| && opts[i].WithHostpath? {
      HostpathIsRead(opts, c, i, opts[i].dir);
    } else {
      NoSuchEntry(opts, c, PathName);
    }
  }

  /** There are label keys exactly when some were given; the deprecated label is never there. */
  lemma LabelsReadWereGiven(opts: seq<StorageClassOption>, c: seq<Entry>)
    requires Builds(opts, c)
    ensures ConfigOf(c).nodeAffinityKeys.Some? <==> exists i | 0 <= i < |opts| :: opts[i].WithNodeAffinityLabels?
    ensures ConfigOf(c).nodeAffinityLabel == ""
  {
    if i :| 0 <= i < |opts| && opts[i].WithNodeAffinityLabels? {
      LabelKeysAreRead(opts, c, i, opts[i].keys);
    } else {
      NoSuchEntry(opts, c, LabelsName);
    }
    NoSuchEntry(opts, c, LabelName);
  }

  /** The type is hostpath unless a device was asked for. */
  lemma TypeReadWasGiven(opts: seq<StorageClassOption>, c: seq<Entry>)
    requires Builds(opts, c)
    ensures TypeOf(c) == if exists i | 0 <= i < |opts| :: opts[i].WithDevice? then "device" else "hostpath"
  {
    if i :| 0 <= i < |opts| && opts[i].WithDevice? {
      DeviceIsRead(opts, c, i);
    } else if EntryOf(c, TypeName).Some? {
      var i := WrittenAsRead(opts, c, TypeName);
      HostpathIsRead(opts, c, i, opts[i].dir);
    }
  }

  lemma FilesystemReadWasGiven(opts: seq<StorageClassOption>, c: seq<Entry>)
    requires Builds(opts, c)
    ensures ConfigOf(c).fsType != "" <==> exists i | 0 <= i < |opts| :: opts[i].WithFSType?
    ensures ConfigOf(c).fsType in ["", "xfs", "ext4"]
  {
    if i :| 0 <= i < |opts| && opts[i].WithFSType? {
      FSTypeIsRead(opts, c, i, opts[i].filesystem);
      FilesystemIsNamed(opts, i);
    } else {
      NoSuchEntry(opts, c, FSName);
    }
  }

  lemma SelectorsReadWereGiven(opts: seq<StorageClassOption>, c: seq<Entry>)
    requires Builds(opts, c)
    ensures SelectorsOf(c).Some? <==> exists i | 0 <= i < |opts| :: opts[i].WithBlockDeviceSelectors?
  {
    if i :| 0 <= i < |opts| && opts[i].WithBlockDeviceSelectors? {
      SelectorsAreRead(opts, c, i, opts[i].selectors);
    } else {
      NoSuchEntry(opts, c, SelectorsName);
    }
  }

  lemma OnlyNamedFilesystems(o: Object, opt: StorageClassOption)
    requires opt.WithFSType? && Step(opt, o).Some?
    ensures opt.filesystem in ["xfs", "ext4"]
  {
  }

  lemma FilesystemIsNamed(opts: seq<StorageClassOption>, i: nat)
    requires Built(opts).Some? && i < |opts| && opts[i].WithFSType?
    ensures opts[i].filesystem in ["xfs", "ext4"]
  {
    var before := StepTaken(opts, i);
    OnlyNamedFilesystems(before, opts[i]);
  }

  /** In a list that builds, every option succeeds where it stands. */
  lemma StepTaken(opts: seq<StorageClassOption>, i: nat) returns (before: Object)
    requires Built(opts).Some? && i < |opts|
    ensures Step(opts[i], before).Some?
  {
    FrontBuilds(opts, i + 1);
    before := LastStep(opts[..i + 1]);
  }

  lemma FrontBuilds(opts: seq<StorageClassOption>, n: nat)
    requires Built(opts).Some? && n <= |opts|
    ensures Built(opts[..n]).Some?
  {
    if Built(opts[..n]).None? {
      ErrorsStay(opts, n);
    }
  }

  lemma LastStep(opts: seq<StorageClassOption>) returns (before: Object)
    requires opts != [] && Built(opts).Some?
    ensures Step(opts[|opts| - 1], before).Some?
  {
    before := Built(opts[..|opts| - 1]).value;
  }
}
