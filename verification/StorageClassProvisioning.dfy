/** From the options of a StorageClass to the helper pods of its volumes. */
module StorageClassProvisioning {
  import opened Wrappers
  import opened QuotaLimits
  import opened HelperPods
  import opened HostpathMachine
  import opened HostpathTraces
  import opened HostpathProvisioner
  import opened StorageClassConfigs
  import Options = StorageClassOptions
  import Readings = StorageClassReadings

  /** The quota pod of a volume is told the two limits of the class, each in its place and with
      its percentage of the size. */
  lemma XfsQuotaIsTold(opts: seq<Options.StorageClassOption>, c: seq<Options.Entry>, i: nat, soft: string, hard: string,
                       events: seq<Event>, from: nat, v: string, storage: nat, rnd: real -> real)
    requires Readings.Builds(opts, c) && i < |opts| && opts[i] == Options.WithXfsQuota(soft, hard) && soft != "" && hard != ""
    requires Rounding(rnd) && storage > 0 && QuotasApplied(events, from, v, ConfigOf(c), storage, rnd)
    ensures IsLimit(soft) && IsLimit(hard) && LimitsAgree(rnd, soft, hard, storage)
    ensures LaunchedWith(events, from, v, SetQuota(Printed(Limit(rnd, soft, storage)), Printed(Limit(rnd, hard, storage))))
  {
    Readings.XfsQuotaIsRead(opts, c, i, soft, hard);
    LimitsOfClass(opts, c);
    WhatIsTold(rnd, soft, hard, storage);
  }

  lemma Ext4QuotaIsTold(opts: seq<Options.StorageClassOption>, c: seq<Options.Entry>, i: nat, soft: string, hard: string,
                        events: seq<Event>, from: nat, v: string, storage: nat, rnd: real -> real)
    requires Readings.Builds(opts, c) && i < |opts| && opts[i] == Options.WithExt4Quota(soft, hard) && soft != "" && hard != ""
    requires Rounding(rnd) && storage > 0 && QuotasApplied(events, from, v, ConfigOf(c), storage, rnd)
    ensures IsLimit(soft) && IsLimit(hard) && LimitsAgree(rnd, soft, hard, storage)
    ensures LaunchedWith(events, from, v, SetQuota(Printed(Limit(rnd, soft, storage)), Printed(Limit(rnd, hard, storage))))
  {
    Readings.Ext4QuotaIsRead(opts, c, i, soft, hard);
    LimitsOfClass(opts, c);
    WhatIsTold(rnd, soft, hard, storage);
  }

  lemma LimitsOfClass(opts: seq<Options.StorageClassOption>, c: seq<Options.Entry>)
    requires Readings.Builds(opts, c)
    ensures Accepted(ConfigOf(c).xfsSoft) && Accepted(ConfigOf(c).xfsHard)
    ensures Accepted(ConfigOf(c).ext4Soft) && Accepted(ConfigOf(c).ext4Hard)
  {
    QuotasAtProvisioning(opts);
  }
}
