# Verified model of the dynamic local PV provisioner

A Dafny model of the parts of the provisioner that decide something: the quota
arithmetic, the life of hostpath volumes and their helper pods, the block device
claim protocol, the StorageClass options, and two text and history algorithms.
`dafny verify dfyconfig.toml` checks everything.

## How it is built

| files | what they hold |
|---|---|
| `Decimal`, `QuotaLimits`, `QuotaSyntax`, `HelperPods`, `QuotaValues` | parsing, arithmetic, printing and comparison of quota limits; helper pod options; what the limits are worth |
| `NodeSelection`, `ObjectBuilders` | the three encodings of a label map, tolerations, the pod and PV builders |
| `HostpathMachine`, `HostpathCare`, `HostpathSafety`, `HostpathCounterexample`, `HostpathPlacement` | nodes, directories, helper pods and PVs as a state machine; what others must not do; what its runs guarantee; the runs that go wrong, and exactly when there are such runs; exactly on which nodes a directory can be made |
| `VolumeConfigs`, `ImagePullSecrets`, `HostpathTraces`, `HostpathProvisioner` | configuration getters; what a method may say about the history it adds; the hostpath provisioner as methods whose every API call is a step of the machine |
| `ClaimMachine`, `ClaimSafety`, `ClaimProvisioner` | the same three layers for block device claims, with the repair at startup |
| `StorageClassOptions`, `StorageClassShapes`, `StorageClassConfigs`, `StorageClassReadings`, `StorageClassBuilds`, `StorageClassProvisioning`, `BasePaths` | the options as methods on a StorageClass; exactly which configurations they can build; what provisioning reads out of those; that it is what the options were given; exactly which lists of options build; what the quota pods of a class are told; what the base path check lets through |
| `PathFilter`, `NdmConfig` | the comma-list path filter and its edits in place |
| `EventSort`, `EventScan` | the stable sorts of events and the scan for a completed cleanup |

Code that changes things step by step is written as methods on classes, proved
against functions on values; the promises are then lemmas about those functions.
The two state machines list the steps the source makes, one per API call, together
with the steps of everybody else: the kubelet, the node disk manager, users, and
failing calls. A provisioner method may be interrupted between any two of its calls
by any number of those steps. Its class keeps the history of steps it went through,
and `Valid` says that this history is a run of the machine, so that what is proved
of all runs holds for all executions of the methods. A call that gets no answer, whether
or not it took effect, is a step as well. So a method that fails, or leaves something
behind, has to show the step that made it: the contracts also say that it succeeds when
all calls are answered and nothing else stands in its way.

Arithmetic on float64 is arithmetic on reals with one abstract rounding function
after every operation, monotone and exact on the values IEEE 754-2019 (section 4.3.1)
represents exactly. Exact arithmetic is one such function.

## Where the obvious claim is false

Each of these is a lemma that gives the input, beside one that says exactly when the
claim holds.

- A live PV can lose its directory to a quota pod that an earlier, interrupted attempt
  left behind. Nothing in the code prevents it, and there are two ways:
  - the configuration is edited to one without a quota before the retry
    (`HostpathCounterexample.EditedQuotaLosesDirectory`). With `a` quota pods before the edit
    and `b` after it this can happen if and only if `a > 0` and `b == 0`
    (`HostpathCounterexample.WhenEditsLose`);
  - the configuration stays as it is, the old quota pod fails after the retry has seen its
    directory made, and somebody deletes the failed pod, which is in the retry's way
    (`HostpathCounterexample.DeletedQuotaPodLosesDirectory`). This can happen if and only if
    there is a quota at all (`HostpathCounterexample.WhenDeletedPodsLose`).

  A run in which neither of the two things is done is careful (`HostpathCare.CarefulRun`),
  and in every careful run live PVs have their directory, whatever else happens, with base
  paths and quotas that differ from attempt to attempt
  (`HostpathSafety.LiveVolumesHaveTheirDirectory`).
- The directory need not be on the selected node: of two nodes with the same labels the
  other one may get it (`HostpathCounterexample.OtherNodeGetsDirectory`). From any moment of
  any run, while nodes stay as they are, an attempt can end with its directory on a node if
  and only if that node carries the labels, its taints are tolerated by the attempt's helper
  pods, and pods are polled at all (`HostpathPlacement.WhereDirectoriesGo`). So it can end
  elsewhere if and only if there is such a node besides the selected one
  (`HostpathPlacement.WhenDirectoriesGoElsewhere`).
- A deletion can succeed and leave the directory where it is: another node gains the labels
  after the lookup and gets the cleanup pod (`HostpathCounterexample.LateNodeLeavesDirectory`).
  The tree goes from every node where a cleanup pod succeeded and stays where none ran
  (`HostpathSafety.DeletionCleansWhereItRuns`), so it goes from home, and from home only, if
  no other node can get one when it runs
  (`HostpathSafety.DeletionRemovesExactlyTheVolume`).
- A release that took the finalizer off and then failed to delete the claim leaves an
  unprotected claim that is not terminating. A retry reuses it, and a live PV can then
  lose its claim to a third party's delete (`ClaimSafety.StrippedClaimIsLost`). As long as
  nobody else meddles with the finalizer, a live PV's claim is protected exactly when it was
  when it was created, reused or repaired (`ClaimSafety.LivePVsAndTheirClaims`).
- A printed limit may be below the size, the smallest such size being 2^53 + 1 bytes
  (`QuotaLimits.LimitMayMissLargeSize`). The limits of all percentages cover a size if and
  only if the one without any grace does (`QuotaLimits.WhenLimitsCoverSize`), and they do if
  the size and its 1024th part are exact in float64 (`QuotaLimits.LimitCoversSize`).
- The documentation promises the size and the given percentage of it for every percentage
  (line 76 of `enable-xfs-quota.md`), but the code stops at 100%: 200% of one KiB is two KiB
  and not three (`QuotaLimits.GraceIsCapped`). The limit is as promised if and only if the
  percentage is at most 100 or what it asks for still fits into the kilobytes of twice the
  size (`QuotaLimits.WhenGraceIsAsDocumented`).
- Removing `sda` from a path filter also takes it out of `sda1`
  (`PathFilter.PartitionIsDisturbed`); removing the first of several entries leaves a
  leading comma (`PathFilter.FirstEntryLeavesAPlace`); removing the empty path removes
  the commas (`PathFilter.RemoveNothingRemovesCommas`).
- Affinity labels must be the last option: the checks look for an entry named
  `NodeAffinityLabel`, the builder writes `NodeAffinityLabels`
  (`StorageClassShapes.NothingAfterLabels`).
- The check that a base path is not directly under the root looks at the text around its
  last slash only. `//data` and `/./data` pass it, and so does `/data/..`, which is the root
  (`BasePaths.WaysAround`, `BasePaths.WayBack`). Which absolute paths pass although they mean
  the root or a directory directly under it, and which are refused although they do not, is
  stated for all of them (`BasePaths.AcceptedUnderRoot`, `BasePaths.RefusedThoughDeep`).
- Of several device links by id the last one is used; the comment in
  `helper_blockdevice.go` promises the first (`ClaimProvisioner.BlockPath`).
- The poll count `WaitForBDTimeoutCounts` is never assigned in this repository, so it is
  zero, and then no device volume is ever handed out (`ClaimSafety.NoPollsNoVolumes`). The
  protocol is modelled for every poll count.
- Newest-first is newest-last read backwards only if the events of each time read the
  same in both directions (`EventSort.NewestFirstIsReverse`).

## Model

| member | source | states |
|---|---|---|
| Decimal.FormatIsCanonical | cmd/provisioner-localpv/app/helper_hostpath.go:159-161 | a printed number is a canonical decimal, and its value is the number |
| Decimal.FormatOfValue | cmd/provisioner-localpv/app/helper_hostpath.go:159-161 | every canonical decimal is what its value prints as |
| Decimal.SameLengthOrder | cmd/provisioner-localpv/app/helper_hostpath.go:122-125 | among decimals of one length, lexicographic order is numeric order |
| Decimal.ExceedsIsNumeric | cmd/provisioner-localpv/app/helper_hostpath.go:116-127 | length first, then lexicographic order decides the numeric order of every pair of canonical decimals with the same unit |
| QuotaLimits.ExactArithmeticIsARounding | cmd/provisioner-localpv/app/helper_hostpath.go:131-162 | exact arithmetic satisfies the rounding assumptions |
| QuotaLimits.KilobytesMonotone | cmd/provisioner-localpv/app/helper_hostpath.go:149-160 | a larger percentage never gives fewer kilobytes, for every size and every rounding |
| QuotaLimits.GraceOnlyAdds | cmd/provisioner-localpv/app/helper_hostpath.go:149-160 | a grace never lowers the result below that of no grace |
| QuotaLimits.ExactBounds | cmd/provisioner-localpv/app/helper_hostpath.go:149-160 | in exact arithmetic size <= 1024*K < 2*size + 1024 |
| QuotaLimits.LimitCoversSize | cmd/provisioner-localpv/app/helper_hostpath.go:149-160 | size <= 1024*K for every percentage, under every rounding that keeps the size and its 1024th part as they are |
| QuotaLimits.SmallSizesAreExact | cmd/provisioner-localpv/app/helper_hostpath.go:149-160 | every rounding does that for sizes up to 2^53 |
| QuotaLimits.WhenLimitsCoverSize | cmd/provisioner-localpv/app/helper_hostpath.go:149-160 | under any rounding the limits of all percentages cover the size if and only if the kilobytes without grace do |
| QuotaLimits.LimitMayMissLargeSize | cmd/provisioner-localpv/app/helper_hostpath.go:149-160 | with 2^53+1 bytes and ties rounded down the limit is below the size |
| QuotaLimits.PositiveSizeIsNotZero | cmd/provisioner-localpv/app/helper_hostpath.go:149-160 | a positive size gives at least one kilobyte |
| QuotaLimits.KilobytesUpToHundred | cmd/provisioner-localpv/app/helper_hostpath.go:149-160 | in exact arithmetic and up to 100 percent the result is the least number of kilobytes that holds size * (100 + p) percent |
| QuotaLimits.KilobytesFromHundred | cmd/provisioner-localpv/app/helper_hostpath.go:149-160 | from 100 percent on it is the least number that holds twice the size |
| QuotaLimits.HundredIsTheMost | cmd/provisioner-localpv/app/helper_hostpath.go:149-151 | under any rounding a percentage above 100 gives what 100 gives |
| QuotaLimits.WholePercentages | cmd/provisioner-localpv/app/helper_hostpath.go:149-160 | under any rounding, whole percentages of sizes up to a hundredth of 2^53 give the least number of kilobytes that holds size and grace, with a fraction of a byte rounded up or down |
| QuotaLimits.WhenGraceIsAsDocumented | docs/tutorials/hostpath/xfs_quota/enable-xfs-quota.md:73-83 | the limit is the documented size * (1 + p%) if and only if p is at most 100 or that still fits into the kilobytes of twice the size |
| QuotaLimits.GraceIsCapped | docs/tutorials/hostpath/xfs_quota/enable-xfs-quota.md:73-76 | 200% of one KiB gives two KiB, not three |
| QuotaSyntax.NumberPrefixIsLongest | cmd/provisioner-localpv/app/helper_hostpath.go:138-144 | the text found in a limit matches the number pattern and no longer prefix does |
| QuotaSyntax.BuilderAgreesWithProvisioner | pkg/kubernetes/api/storage/v1/storageclass/utils.go:101-125 | the builder's pattern accepts exactly the empty text and the limits the provisioner parses that have at most three integer digits |
| QuotaSyntax.ValidLimitIsThePattern | pkg/kubernetes/api/storage/v1/storageclass/utils.go:105-121 | the executable form of the check is the pattern |
| HelperPods.PrintedOrder | cmd/provisioner-localpv/app/helper_hostpath.go:116-127 | the string comparison of two printed limits is the comparison of their kilobytes |
| HelperPods.ConvertToK | cmd/provisioner-localpv/app/helper_hostpath.go:131-162 | fails exactly on texts that are neither empty nor a number and a percent sign, else prints the kilobytes of the limit; QuotaLimits.KilobytesUpToHundred, QuotaLimits.KilobytesFromHundred and QuotaLimits.WholePercentages say which number that is |
| HelperPods.Grown | cmd/provisioner-localpv/app/helper_hostpath.go:149-160 | the step-by-step arithmetic computes the kilobytes of the specification; under any rounding, for sizes up to a hundredth of 2^53: for a whole percentage the least number that holds size and grace, up to a fraction of a byte, and from 100 percent on the least that holds twice the size |
| HelperPods.LimitIsZero | cmd/provisioner-localpv/app/helper_hostpath.go:131-135 | the sentinel is printed exactly for an empty limit or a size of zero |
| HelperPods.PlainSizeIsZeroPercent | cmd/provisioner-localpv/app/helper_hostpath.go:104-114 | two empty limits have the same effect as a limit of zero percent |
| HelperPods.WhenLimitsDisagree | cmd/provisioner-localpv/app/helper_hostpath.go:105-128 | a pair is rejected exactly when both limits were given, the size is positive and soft exceeds hard in kilobytes |
| HelperPods.OrderedPercentagesAgree | cmd/provisioner-localpv/app/helper_hostpath.go:270-282 | a soft percentage of at most the hard one is never rejected, for every size and rounding |
| HelperPods.HelperPodOptions.ValidateLimits | cmd/provisioner-localpv/app/helper_hostpath.go:105-128 | two sentinels become the size; one passes; two others pass exactly when soft is numerically at most hard |
| HelperPods.HelperPodOptions.SetLimits | cmd/provisioner-localpv/app/helper_hostpath.go:270-282 | succeeds exactly when the limits agree, and then holds, in each place, what HelperPods.WhatIsWritten says of the limit given there |
| HelperPods.WhatIsWritten | cmd/provisioner-localpv/app/helper_hostpath.go:104-128 | for a positive size, a given limit is written as its kilobytes, one of two that was not as none, and two that were not as the size |
| QuotaValues.WholeLimit | cmd/provisioner-localpv/app/helper_hostpath.go:138-148 | digits and a percent sign are a limit, unless out of range, and mean the number of the digits |
| QuotaValues.FractionLimit | cmd/provisioner-localpv/app/helper_hostpath.go:138-148 | so are digits, a dot, digits and a percent sign; those behind the dot count as tenths, hundredths and so on |
| QuotaValues.OnlyTheseLimits | cmd/provisioner-localpv/app/helper_hostpath.go:138-148 | every other text is refused |
| QuotaValues.PrintedUpToHundred | cmd/provisioner-localpv/app/helper_hostpath.go:131-162 | what is printed for a limit of up to 100 percent, in exact arithmetic, is the least number of kilobytes that holds the size and as many percent of it as the text says |
| QuotaValues.RefusedWhen | cmd/provisioner-localpv/app/helper_hostpath.go:105-128 | for positive sizes, two limits of up to 100 percent are refused exactly when these two numbers are in the wrong order |
| QuotaValues.EightyPercent | cmd/provisioner-localpv/app/helper_hostpath.go:131-162 | 80% of 100 MiB is printed as 184320k, and is refused with a hard limit of 10% |
| NodeSelection.MatchExpressions | pkg/kubernetes/api/core/v1/persistentvolume/build.go:176-192 | one requirement for each label with a value, in any order, and no other |
| NodeSelection.GetAffinitedNodeLabels | pkg/kubernetes/api/core/v1/persistentvolume/persistentvolume.go:145-168 | the nested loops read the requirements of all terms in order |
| NodeSelection.AffinityRoundTrip | pkg/kubernetes/api/core/v1/persistentvolume/persistentvolume.go:145-168 | reading back a PV affinity returns exactly the labels with a value |
| NodeSelection.WhatIsReadBack | pkg/kubernetes/api/core/v1/persistentvolume/persistentvolume.go:145-168 | of any expressions: nothing is read exactly when some In expression has no value or several, else the keys of the In expressions, each with the value of the last one for it |
| NodeSelection.ThreeEncodingsAgree | cmd/provisioner-localpv/app/provisioner_hostpath.go:225-246 | PV affinity, pod affinity and list selector select the same nodes, those with the value of every label that has one, for every label map and traversal order |
| NodeSelection.NodeAffinityLabels | cmd/provisioner-localpv/app/provisioner_hostpath.go:51-61 | the label map has the configured keys, or the hostname key, each with the value the selected node has for it or none; what is written down are exactly those the node carries with a value, and there is one exactly when the node has a value for some key; the nodes that carry them are those with the same values |
| NodeSelection.EncodingSelectsAlike | cmd/provisioner-localpv/app/provisioner_hostpath.go:51-61 | an affinity made of these labels selects exactly the nodes that have the same values for the keys |
| NodeSelection.WithTolerationsForTaints | pkg/kubernetes/api/core/v1/pod/build.go:45-66 | one toleration per taint is added after the existing ones, which stay; every taint is then tolerated, and besides what was before only what these taints cover |
| NodeSelection.ToleratedAreCovered | pkg/kubernetes/api/core/v1/pod/build.go:45-66 | the tolerations made for taints tolerate exactly what equals one of them, or differs from one only in what that one leaves empty |
| ObjectBuilders.PodBuilder.WithNodeAffinityNew | pkg/kubernetes/api/core/v1/pod/build.go:191-231 | records an error exactly when no label has a value, else encodes the labels |
| ObjectBuilders.PersistentVolumeBuilder.WithNodeAffinity | pkg/kubernetes/api/core/v1/persistentvolume/build.go:170-207 | records an error exactly when no label has a value, else encodes the labels |
| ObjectBuilders.PersistentVolumeBuilder.WithLocalHostPathFormat | pkg/kubernetes/api/core/v1/persistentvolume/build.go:116-130 | records an error exactly for an empty path |
| ObjectBuilders.BuildHelperPod | cmd/provisioner-localpv/app/helper_hostpath.go:317-360 | can be built exactly when all parts are there and some label has a value; is then bound to the nodes with those labels, tolerates all taints, and does what its command line says |
| ObjectBuilders.BuildForSelectedNode | cmd/provisioner-localpv/app/provisioner_hostpath.go:46-98 | from the configured label keys on, every helper pod that can be built can be scheduled on the selected node, whatever its labels and taints are, and on no node with other values for the keys; it tolerates only what the node's taints cover; and it can be built exactly when the node has a value for some of the keys |
| ObjectBuilders.BuildPersistentVolume | cmd/provisioner-localpv/app/provisioner_hostpath.go:194-214 | can be built exactly when it has a name, an access mode, a path and a label with a value; is then selected by exactly the nodes that carry the labels that have a value |
| HostpathMachine.PodNamesDistinct | cmd/provisioner-localpv/app/helper_hostpath.go:323-324 | helper pod names of different purposes or volumes never collide |
| HostpathMachine.RunStaysInside | cmd/provisioner-localpv/app/helper_hostpath.go:168-242 | running any helper pod takes no other volume's directory |
| HostpathMachine.OthersUntouched | cmd/provisioner-localpv/app/provisioner_hostpath.go:44-298 | a step for one volume leaves pods, request, PV and directory of every other as they are |
| HostpathMachine.StepKeeps | cmd/provisioner-localpv/app/provisioner_hostpath.go:44-298 | every step of anybody keeps the invariant of every volume, pods deleted by others and attempts under edited configurations included |
| HostpathMachine.RunKeepsInv | cmd/provisioner-localpv/app/provisioner_hostpath.go:44-298 | the invariant holds at every moment of every run |
| HostpathCare.StepKeepsCare | cmd/provisioner-localpv/app/provisioner_hostpath.go:44-298 | every step that respects two conditions keeps the directory of the volume's attempt and of its PV, or keeps the attempt from handing out a PV |
| HostpathCare.RunKeepsCare | cmd/provisioner-localpv/app/provisioner_hostpath.go:44-298 | so this holds at every moment of every careful run: no attempt without a quota begins while a quota pod for the same directory is still to run, and nobody deletes a failed quota pod while an attempt relies on what it may have removed |
| HostpathSafety.LiveVolumesHaveTheirDirectory | cmd/provisioner-localpv/app/provisioner_hostpath.go:44-222 | in every careful run, a PV handed out with no cleanup begun has its directory on a node its affinity selected, though attempts may differ in base path and quotas |
| HostpathSafety.LiveVolumesAreReachable | cmd/provisioner-localpv/app/provisioner_hostpath.go:44-222 | while nodes also keep their labels, that node is selected by the affinity now |
| HostpathSafety.NobodyTakesAnothersDirectory | cmd/provisioner-localpv/app/provisioner_hostpath.go:253-298 | in every run a volume's directory only ever goes by a quota or cleanup pod of its own; in a careful one never while the volume is live |
| HostpathSafety.NestingIsWhatHurts | cmd/provisioner-localpv/app/helper_hostpath.go:210-242 | removing one volume takes another's directory exactly when the other's base path is inside the first's directory |
| HostpathSafety.DirectoryIsOnAFitNode | cmd/provisioner-localpv/app/provisioner_hostpath.go:44-102 | the directory is on one of the nodes that carry the labels and whose taints are tolerated when the init pod runs, so on the selected node if there is no other |
| HostpathPlacement.WhereDirectoriesGo | cmd/provisioner-localpv/app/provisioner_hostpath.go:44-102 | from every state of every run and for every attempt: while nodes stay as they are, some run of the attempt hands out a PV made on a node if and only if the node carries the labels, its taints are tolerated and pods are polled |
| HostpathPlacement.WhenDirectoriesGoElsewhere | cmd/provisioner-localpv/app/provisioner_hostpath.go:44-102 | some run hands out a PV made on another node than the selected one if and only if there is another such node |
| HostpathSafety.HelperPodsAccountedFor | cmd/provisioner-localpv/app/helper_hostpath.go:373-397 | at every moment the helper pods of a volume are the one in use and those left behind, and no pod is both; each of the latter was left by a failed delete call, a lost answer or a stop of the provisioner, and has been there since; polling never exceeds CmdTimeoutCounts |
| HostpathSafety.PodsAreAsCreated | cmd/provisioner-localpv/app/helper_hostpath.go:317-371 | in every run a helper pod has the command, directory, affinity and tolerations that one was created with for its volume, all its life |
| HostpathSafety.HelperPodsConserved | cmd/provisioner-localpv/app/helper_hostpath.go:317-397 | from one moment without a request to another there are no more helper pods unless such a thing happened in between, and no fewer unless somebody else deleted one |
| HostpathSafety.NothingLeaks | cmd/provisioner-localpv/app/helper_hostpath.go:373-397 | an idle volume has no helper pod unless a delete call failed, the answer to a create call was lost or the provisioner was stopped; ordinary failures leave none |
| HostpathSafety.DeletionCleansWhereItRuns | cmd/provisioner-localpv/app/provisioner_hostpath.go:253-298 | in a careful run, a finished deletion has had a cleanup pod succeed; the volume's tree is gone from every node where one did, and as it was on every node where none ran, whatever happens to nodes |
| HostpathSafety.DeletionRemovesExactlyTheVolume | cmd/provisioner-localpv/app/provisioner_hostpath.go:253-298 | and if no other node can get a cleanup pod when one runs, it is gone from the node where it was made and as it was on all others |
| HostpathCounterexample.EditedQuotaLosesDirectory | cmd/provisioner-localpv/app/helper_hostpath.go:290-303 | with any number of quota pods before an edit and none after it, some run leaves a live PV without its directory on any node |
| HostpathCounterexample.WhenEditsLose | cmd/provisioner-localpv/app/helper_hostpath.go:290-303 | with a quota pods before the edit and b after it there is such a run if and only if a > 0 and b == 0 |
| HostpathCounterexample.DeletedQuotaPodLosesDirectory | cmd/provisioner-localpv/app/helper_hostpath.go:290-303 | with any quota, and no edit, a run in which somebody deletes a failed quota pod leaves a live PV without its directory |
| HostpathCounterexample.WhenDeletedPodsLose | cmd/provisioner-localpv/app/helper_hostpath.go:290-303 | without edits there is such a run if and only if there is a quota |
| HostpathCounterexample.OtherNodeGetsDirectory | cmd/provisioner-localpv/app/provisioner_hostpath.go:51-89 | with two nodes of the same labels the directory may be made on the one that was not selected |
| HostpathCounterexample.LateNodeLeavesDirectory | cmd/provisioner-localpv/app/provisioner_hostpath.go:253-298 | the lookup finds the one home node, another gains the labels before the cleanup pod runs, the deletion succeeds, and the directory is still at home |
| HostpathTraces.RequestConserves | cmd/provisioner-localpv/app/helper_hostpath.go:317-397 | a request in which the provisioner was not stopped conserves helper pods, unless a call failed that leaves one |
| ImagePullSecrets.GetImagePullSecrets | cmd/provisioner-localpv/app/config.go:461-475 | the names are exactly the non-empty entries of the trimmed text without the spaces around them |
| ImagePullSecrets.ReadsBack | cmd/provisioner-localpv/app/config.go:461-475 | names joined by commas are read back as they were |
| ImagePullSecrets.NamesOfAppend | cmd/provisioner-localpv/app/config.go:461-475 | and they keep the order of the entries |
| VolumeConfigs.SpacesGo | cmd/provisioner-localpv/app/config.go:311-345 | trimming takes away the spaces on both sides and nothing else |
| VolumeConfigs.BlankTexts | cmd/provisioner-localpv/app/config.go:240-258 | a text of spaces counts as not set; any other is taken as it stands |
| VolumeConfigs.WhatEnables | cmd/provisioner-localpv/app/config.go:311-345 | a quota is enabled by six words, with or without spaces around them, and by nothing else |
| HostpathProvisioner.WhatIsTold | cmd/provisioner-localpv/app/helper_hostpath.go:270-303 | the quota command is told each given limit in kilobytes in its own place, no limit for one of two that was not given, and the size if neither was |
| HostpathProvisioner.Provisioner.LaunchPod | cmd/provisioner-localpv/app/helper_hostpath.go:317-371 | on success a pod with this command, bound to the labels and tolerating the taints, was created and is waited for; on failure nothing of the volume changed, or the last step is the lost answer to the create call, which ends the request; it fails only if the pod cannot be built, one of its name is there, or a call got no answer |
| HostpathProvisioner.Provisioner.GetPod | cmd/provisioner-localpv/app/helper_hostpath.go:383-393 | only a pod that has succeeded, or a failing call, ends the polling; one that has failed is polled again like one that runs |
| HostpathProvisioner.Provisioner.AwaitSuccess | cmd/provisioner-localpv/app/helper_hostpath.go:379-396 | ends within CmdTimeoutCounts reads; success means that the pod was seen to have succeeded; failure means that a read got no answer, the time was up or somebody deleted the pod |
| HostpathProvisioner.Provisioner.ExitPod | cmd/provisioner-localpv/app/helper_hostpath.go:373-397 | whatever the outcome, the last step is the call that deletes the pod, and the pod is gone if that is answered; success means it was seen to have succeeded |
| HostpathProvisioner.Provisioner.CreateInitPod | cmd/provisioner-localpv/app/helper_hostpath.go:168-202 | afterwards the volume has the helper pods it had before, except that the init pod is left if its delete call failed or the answer to its create call was lost, and those gone that somebody else deleted; success means the pod was launched with its command and seen to have succeeded; without such mishaps, a timeout or an old init pod it succeeds |
| HostpathProvisioner.Provisioner.CreateQuotaPod | cmd/provisioner-localpv/app/helper_hostpath.go:248-315 | the same, with limits that agree, and the pod launched was given exactly the limits of the specification; limits that do not agree fail |
| HostpathProvisioner.Provisioner.CreateCleanupPod | cmd/provisioner-localpv/app/helper_hostpath.go:210-242 | the same for the cleanup pod |
| HostpathProvisioner.Provisioner.ApplyQuotas | cmd/provisioner-localpv/app/provisioner_hostpath.go:103-160 | success means that for each enabled quota the limits agree and a pod was launched with exactly what they mean; if they agree and nothing goes wrong it succeeds |
| HostpathProvisioner.Provisioner.ProvisionHostPath | cmd/provisioner-localpv/app/provisioner_hostpath.go:44-222 | every helper pod created can be scheduled on the selected node; success hands out a PV whose path is the base path and the volume name and whose affinity selects exactly the nodes with the selected one's values for the keys, that node and the one its directory was made on among them, with the enabled quotas applied; in a careful run the directory is there, and it is on the selected node if no other node could get the init pod; failure hands out none; either way helper pods are conserved and the request is never left in the middle; if the configuration permits it, no old pod is there and nothing goes wrong, it succeeds |
| HostpathProvisioner.Provisioner.Provision | cmd/provisioner-localpv/app/provisioner.go:95-158 | a request that may not be served, for a data source, a selector, another access mode, a block volume, another storage type, or without a node that has a hostname, fails with no step taken; for the others the same |
| HostpathProvisioner.Provisioner.GetNodeObjectFromLabels | cmd/provisioner-localpv/app/provisioner_hostpath.go:225-246 | returns a node only if it is the only one with the labels, and fails only if it is not or a call got no answer |
| HostpathProvisioner.DeletionsFindOne | cmd/provisioner-localpv/app/provisioner_hostpath.go:225-275 | in every history, a deletion begins only when exactly one node carries the labels of the PV |
| HostpathProvisioner.Provisioner.DeleteHostPath | cmd/provisioner-localpv/app/provisioner_hostpath.go:253-298 | without exactly one node found no pod is launched and the volume stays as it is; with it, the deletion succeeds unless an old cleanup pod is there or something goes wrong; success means that a cleanup pod was seen to have succeeded, and in a careful run that the tree is gone from where one did and untouched where none ran, so from home only if no other node could get one; either way helper pods are conserved |
| HostpathProvisioner.Provisioner.Delete | cmd/provisioner-localpv/app/provisioner.go:165-205 | a retained volume is left alone without a step; other deletions as above |
| ClaimMachine.ClaimNamesDistinct | cmd/provisioner-localpv/app/helper_blockdevice.go:103-109 | different volumes have different claims |
| ClaimMachine.WithoutOfAppend | cmd/provisioner-localpv/app/helper_blockdevice.go:268-269 | removing a finalizer works on each part of the list by itself, so the others keep their order |
| ClaimMachine.WithoutAbsent | cmd/provisioner-localpv/app/helper_blockdevice.go:268-269 | removing an absent finalizer changes nothing |
| ClaimMachine.OtherClaimsUnchanged | cmd/provisioner-localpv/app/helper_blockdevice.go:98-277 | only events about a claim, or its own volume's request, change it |
| ClaimMachine.ProtectionStays | cmd/provisioner-localpv/app/helper_blockdevice.go:98-277 | nothing but the volume's own request changes whether its claim is held by the finalizer, unless somebody takes that finalizer off or puts it on |
| ClaimMachine.StepKeeps | cmd/provisioner-localpv/app/helper_blockdevice.go:98-277 | every step of anybody keeps the invariant of every device volume, third parties that take or give the finalizer included |
| ClaimSafety.LivePVsAndTheirClaims | cmd/provisioner-localpv/app/provisioner_blockdevice.go:111-113 | in every run a live PV names the claim of its own name; unless somebody else has taken it off, or put it on, the claim carries the finalizer if, or only if, it did when created, reused or repaired |
| ClaimSafety.CoveredIsProtected | cmd/provisioner-localpv/app/helper_blockdevice.go:98-277 | a claim that a request or live PV needs and that was protected when acquired stays protected at every later moment, unless somebody else takes the finalizer off |
| ClaimSafety.LivePVsKeepTheirClaims | cmd/provisioner-localpv/app/helper_blockdevice.go:98-156 | if since the volume had no claim every claim it reused carried the finalizer and nobody else took the finalizer off, the live PV has its claim, whatever third parties delete |
| ClaimSafety.RepairedStaysProtected | cmd/provisioner-localpv/app/backward_compatability.go:61-71 | a claim repaired at startup stays protected while its PV is live, unless somebody else takes the finalizer off after that |
| ClaimSafety.NoPollsNoVolumes | cmd/provisioner-localpv/app/helper_blockdevice.go:41-43 | with the poll count that is never assigned, zero, no run ever hands out a device volume |
| ClaimSafety.OthersUnchanged | cmd/provisioner-localpv/app/helper_blockdevice.go:98-277 | a request for one volume leaves the claims of all others as they are |
| ClaimSafety.ReleaseKeepsForeignFinalizers | cmd/provisioner-localpv/app/helper_blockdevice.go:258-277 | taking the finalizer off keeps all others in order, and the claim itself unless it was being deleted and held by nothing else |
| ClaimSafety.RepairKeepsForeignFinalizers | cmd/provisioner-localpv/app/backward_compatability.go:61-71 | every repair adds the provisioner's finalizer behind the others, to a claim that lacks it and is not being deleted, and changes nothing else |
| ClaimSafety.ForeignFinalizersStay | cmd/provisioner-localpv/app/helper_blockdevice.go:98-277 | no step of any request changes the finalizers of others on a claim that stays, or their order |
| ClaimSafety.WhoChangesAClaim | cmd/provisioner-localpv/app/helper_blockdevice.go:98-277 | in every history only a binding changes the device of a claim, only a deletion marks it, and nothing takes the mark off |
| ClaimSafety.MadeAndDeleted | cmd/provisioner-localpv/app/helper_blockdevice.go:98-156 | a claim made by a request has the provisioner's finalizer once, no other, and no device; one it deletes goes at once if nothing holds it, and else stays, marked, with all that holds it |
| ClaimSafety.HowClaimsGo | cmd/provisioner-localpv/app/helper_blockdevice.go:235-277 | a claim goes only when nothing holds it any more: when it is deleted without finalizers, or the last finalizer of one being deleted is taken off |
| ClaimSafety.StrippedClaimIsLost | cmd/provisioner-localpv/app/helper_blockdevice.go:111-121 | a run in which a reused claim, not terminating but stripped, vanishes under its live PV |
| ClaimProvisioner.BlockPath | cmd/provisioner-localpv/app/helper_blockdevice.go:216-227 | the last link by id, else the first link, else the reported path |
| ClaimProvisioner.BuildDevicePV | cmd/provisioner-localpv/app/provisioner_blockdevice.go:101-155 | can be built exactly when it has a name, an access mode, a label with a value and a path: where the device is mounted, else one of its own |
| ClaimProvisioner.Provisioner.CreateBlockDeviceClaim | cmd/provisioner-localpv/app/helper_blockdevice.go:98-156 | a claim that is there is reused whatever its state; a new one is protected and unbound; if all calls are answered and nobody else touches the claim, complete options and a claim that can be built succeed |
| ClaimProvisioner.Provisioner.AwaitDevice | cmd/provisioner-localpv/app/helper_blockdevice.go:174-192 | ends within the given number of reads; no device without an error means all reads found none; a device was bound to the claim since the start |
| ClaimProvisioner.Provisioner.GetBlockDevicePath | cmd/provisioner-localpv/app/helper_blockdevice.go:160-230 | at most as many reads as polls, and none succeeds with zero polls; success returns a device that was bound to the claim; after a timeout with all calls answered the finalizer was taken off, with all others kept in order, and the claim deleted, or it was gone, and it is gone or terminating without the finalizer; otherwise it fails only for a call that got no answer, a claim somebody else touched or a device that is not there |
| ClaimProvisioner.Provisioner.RemoveFinalizer | cmd/provisioner-localpv/app/helper_blockdevice.go:258-277 | success means that the finalizer was taken off and all others kept in order; a failure means that a call got no answer or met a changed claim, or that the claim is gone |
| ClaimProvisioner.Provisioner.DeleteBlockDeviceClaim | cmd/provisioner-localpv/app/helper_blockdevice.go:235-256 | without a claim name nothing happens; otherwise success, or answers to all calls, mean that the claim is gone or terminating without the finalizer; a failure means a call without an answer or a claim that is gone |
| ClaimProvisioner.Provisioner.ProvisionBlockDevice | cmd/provisioner-localpv/app/provisioner_blockdevice.go:36-156 | deprecated options fail with no step taken; success hands out a PV that names its claim, has a path of a device that was bound to it, and selects exactly the nodes with the selected one's values for the keys, protected exactly when the claim was when acquired, unless others meddled with the finalizer during the request; if all calls are answered and nobody else touches the claim, a possible request fails only for a timeout or a device that is not there |
| ClaimProvisioner.Provisioner.DeleteBlockDevice | cmd/provisioner-localpv/app/provisioner_blockdevice.go:162-184 | a PV without the annotation counts as deleted with nothing done; otherwise the claim is released as above, and success removes the PV |
| ClaimProvisioner.Provisioner.AddLocalPVFinalizerOnAssociatedBDCs | cmd/provisioner-localpv/app/backward_compatability.go:36-74 | after success every listed claim was unreadable, terminating or protected when it was visited, and it succeeds unless a write to a listed claim fails; whatever was protected or repaired is protected at the end unless somebody else took the finalizer off; no other claim is touched; if nobody else acts, all are settled at the end, no claim came or went, the listed ones are as they were or have the provisioner's finalizer added behind the others and nothing else changed, all others are as they were, and a second pass changes nothing |
| StorageClassOptions.StorageClass.IsCompatible | pkg/kubernetes/api/storage/v1/storageclass/utils.go:61-330 | the entry-by-entry checks decide whether all entries, the type and the provisioner are allowed |
| StorageClassOptions.StorageClass.WriteOrAppendCASConfig | pkg/kubernetes/api/storage/v1/storageclass/utils.go:332-347 | appends the entries and changes nothing else |
| StorageClassOptions.StorageClass.SetHostpath | pkg/kubernetes/api/storage/v1/storageclass/build.go:140-169 | does what the specification of the option says, and then the type and the directory are appended to the entries, or fails and changes nothing |
| StorageClassOptions.StorageClass.SetQuota | pkg/kubernetes/api/storage/v1/storageclass/build.go:194-266 | the same for the two quota options: the appended entry is enabled and has the soft limit as softLimitGrace and the hard one as hardLimitGrace, or no data if both are empty |
| StorageClassOptions.StorageClass.SetNodeAffinityLabels | pkg/kubernetes/api/storage/v1/storageclass/build.go:302-342 | the same, keeping the non-empty keys in order; without empty keys the appended entry lists just the keys given |
| StorageClassOptions.StorageClass.SetBlockDeviceSelectors | pkg/kubernetes/api/storage/v1/storageclass/build.go:373-415 | the same, with exactly the selectors that have a value |
| StorageClassOptions.NewStorageClass | pkg/kubernetes/api/storage/v1/storageclass/build.go:45-57 | fails exactly when some option fails where it stands, else is all options applied in turn |
| StorageClassShapes.BuiltIsFine | pkg/kubernetes/api/storage/v1/storageclass/build.go:45-57 | every list of options that succeeds gives a configuration of one of three forms |
| StorageClassShapes.ExactlyTheForms | pkg/kubernetes/api/storage/v1/storageclass/build.go:45-57 | the configurations that some list of options builds are exactly those of the three forms |
| StorageClassShapes.BuiltConfigurations | pkg/kubernetes/api/storage/v1/storageclass/utils.go:61-347 | at most four entries, distinct names, at most one quota, never hostpath and device together, affinity labels only last |
| StorageClassShapes.NothingAfterLabels | pkg/kubernetes/api/storage/v1/storageclass/utils.go:168-215 | after affinity labels no option can write configuration |
| StorageClassConfigs.QuotasAtProvisioning | cmd/provisioner-localpv/app/provisioner_hostpath.go:103-139 | the volume configuration of any built StorageClass has at most one quota pod, and all its limits parse |
| StorageClassConfigs.PathAtProvisioning | cmd/provisioner-localpv/app/config.go:281-309 | provisioning from a built StorageClass with a base path gets the cleaned path and the volume name, unless the base path means the root |
| StorageClassReadings.XfsQuotaIsRead | pkg/kubernetes/api/storage/v1/storageclass/build.go:194-229 | in whatever list of options that builds, the limits given to the XFS quota are read as its soft and hard limits, it is enabled, and the EXT4 quota is not |
| StorageClassReadings.Ext4QuotaIsRead | pkg/kubernetes/api/storage/v1/storageclass/build.go:231-266 | the same for the EXT4 quota |
| StorageClassReadings.HostpathIsRead | pkg/kubernetes/api/storage/v1/storageclass/build.go:140-169 | the base path that is read is the directory given, cleaned, and the type is hostpath |
| StorageClassReadings.LabelKeysAreRead | pkg/kubernetes/api/storage/v1/storageclass/build.go:302-342 | the label keys that are read are those given that are not empty; without empty ones just those given, in order |
| StorageClassReadings.EmptyKeysAreSkipped | pkg/kubernetes/api/storage/v1/storageclass/build.go:318-324 | an empty key changes nothing, wherever it is |
| StorageClassReadings.DeviceIsRead | pkg/kubernetes/api/storage/v1/storageclass/build.go:171-192 | the type that is read is device |
| StorageClassReadings.FSTypeIsRead | pkg/kubernetes/api/storage/v1/storageclass/build.go:344-371 | the filesystem that is read is the one given |
| StorageClassReadings.SelectorsAreRead | pkg/kubernetes/api/storage/v1/storageclass/build.go:373-415 | the selectors that are read are those given that have a value |
| StorageClassReadings.QuotasReadWereGiven | cmd/provisioner-localpv/app/config.go:311-345 | a quota is enabled exactly when its option was among those given |
| StorageClassReadings.PathReadWasGiven | cmd/provisioner-localpv/app/config.go:281-309 | there is a base path exactly when a hostpath was asked for |
| StorageClassReadings.LabelsReadWereGiven | cmd/provisioner-localpv/app/config.go:250-268 | there are label keys exactly when some were given, and never the deprecated key |
| StorageClassReadings.TypeReadWasGiven | cmd/provisioner-localpv/app/config.go:209-217 | the type is device exactly when a device was asked for, and hostpath otherwise |
| StorageClassReadings.FilesystemReadWasGiven | cmd/provisioner-localpv/app/config.go:240-246 | there is a filesystem exactly when one was given, and it is xfs or ext4 |
| StorageClassReadings.SelectorsReadWereGiven | cmd/provisioner-localpv/app/config.go:219-224 | there are selectors exactly when some were given |
| StorageClassBuilds.WhichListsBuild | pkg/kubernetes/api/storage/v1/storageclass/build.go:45-57 | a list of options builds if and only if no argument that must not be is empty, local volumes are asked for at most once, and the entries all of them write have one of the three forms |
| StorageClassBuilds.BuiltLocalPV | pkg/kubernetes/api/storage/v1/storageclass/build.go:117-138 | the cas type and the provisioner are those of local volumes exactly when that was asked for, and else not set |
| StorageClassBuilds.LastOneCounts | pkg/kubernetes/api/storage/v1/storageclass/build.go:59-79 | of several names, name prefixes, binding modes or reclaim policies the last one counts; a prefix gets a dash, and an empty mode or policy means WaitForFirstConsumer or Delete |
| StorageClassBuilds.LastValueCounts | pkg/kubernetes/api/storage/v1/storageclass/build.go:81-115 | labels and parameters are merged, and for each key the last value counts |
| StorageClassBuilds.KeysWereGiven | pkg/kubernetes/api/storage/v1/storageclass/build.go:81-115 | and no key is there that was not given |
| StorageClassBuilds.TopologiesAreCollected | pkg/kubernetes/api/storage/v1/storageclass/build.go:290-300 | topologies are kept one after another |
| StorageClassProvisioning.XfsQuotaIsTold | cmd/provisioner-localpv/app/provisioner_hostpath.go:103-118 | from the options to the helper pod: where quotas were applied for a volume of a class with an XFS quota, a pod was told the kilobytes of its soft limit as soft and of its hard limit as hard |
| StorageClassProvisioning.Ext4QuotaIsTold | cmd/provisioner-localpv/app/provisioner_hostpath.go:139-155 | the same for an EXT4 quota |
| BasePaths.ValidPaths | pkg/kubernetes/api/storage/v1/storageclass/utils.go:30-45 | a path in normal form, with or without a slash at the end, is accepted exactly when it is not directly under the root |
| BasePaths.AcceptedUnderRoot | pkg/kubernetes/api/storage/v1/storageclass/utils.go:35-43 | of all absolute texts, exactly these are accepted although they mean the root or a directory directly under it: what precedes the last slash means the root, or a little more before a dot or two |
| BasePaths.RefusedThoughDeep | pkg/kubernetes/api/storage/v1/storageclass/utils.go:35-43 | of those that mean something deeper, exactly the ones ending in two slashes are refused |
| BasePaths.WaysAround | pkg/kubernetes/api/storage/v1/storageclass/utils.go:35-43 | every directory directly under the root is refused as it should be written, and accepted with a second slash or a dot before it |
| BasePaths.WayBack | pkg/kubernetes/api/storage/v1/storageclass/utils.go:35-43 | the root is accepted with two dots after any directory |
| PathFilter.RemovesExactlyTheEntries | pkg/kubernetes/ndmconfig/ndmconfig.go:135-148 | removal drops exactly the entries equal to the path and keeps the rest in order, if and only if no other entry contains the path |
| PathFilter.FirstEntryLeavesAPlace | pkg/kubernetes/ndmconfig/ndmconfig.go:135-148 | removing a first entry leaves a list that is empty or starts with a comma |
| PathFilter.AppendAddsAnEntry | pkg/kubernetes/ndmconfig/ndmconfig.go:100-115 | appending a comma-free path adds one entry behind all others; in an empty list it is the only one |
| PathFilter.RemoveAfterAppend | pkg/kubernetes/ndmconfig/ndmconfig.go:80-149 | appending and then removing is the same as removing |
| PathFilter.RemoveUndoesAppend | pkg/kubernetes/ndmconfig/ndmconfig.go:80-149 | removal undoes appending if and only if the path did not occur in the list |
| PathFilter.RemoveNothingRemovesCommas | pkg/kubernetes/ndmconfig/ndmconfig.go:135-148 | removing the empty path leaves no comma |
| PathFilter.PartitionIsDisturbed | pkg/kubernetes/ndmconfig/ndmconfig.go:135-148 | a device and one of its partitions: the obvious claim fails |
| PathFilter.SplitJoin | pkg/kubernetes/ndmconfig/ndmconfig.go:45-46 | comma-free entries joined by commas are split into themselves |
| NdmConfig.AppendToPathFilter | pkg/kubernetes/ndmconfig/ndmconfig.go:80-115 | the first path filter's list of that type has one more entry, the path, behind those it had; every other list, filter and field stays; errors change nothing |
| NdmConfig.RemoveFromPathFilter | pkg/kubernetes/ndmconfig/ndmconfig.go:117-149 | the entries of that list equal to the path are gone and the rest is in order, if and only if no other entry contains it; every other list, filter and field stays; errors change nothing |
| NdmConfig.RemoveRestores | pkg/kubernetes/ndmconfig/ndmconfig.go:80-149 | append and remove restore the whole configuration if and only if the path did not occur in the list |
| EventSort.StableSortIsUnique | pkg/kubernetes/api/core/v1/event/event.go:79-91 | a stable sort by time has one result, whatever algorithm computes it |
| EventSort.NewestFirstIsReverse | pkg/kubernetes/api/core/v1/event/event.go:79-91 | newest-first is newest-last reversed if and only if the events of each time read the same in both directions |
| EventSort.DistinctTimesReverse | pkg/kubernetes/api/core/v1/event/event.go:79-91 | with distinct times it always is |
| EventSort.EventList.Swap | pkg/kubernetes/api/core/v1/event/event.go:66-68 | swaps two events and changes nothing else |
| EventSort.EventList.LatestLastSort | pkg/kubernetes/api/core/v1/event/event.go:81-84 | sorts in place so that times never go down, keeping the input order among equal times, and every event keeps exactly one place |
| EventSort.EventList.LatestFirstSort | pkg/kubernetes/api/core/v1/event/event.go:88-91 | the same with times that never go up |
| EventScan.Scan | tests/operations.go:516-555 | true exactly when a release comes before the first cleanup-in-progress event for the claim with no claim between them |
| EventScan.ShownAnyOrder | tests/operations.go:512-514 | what the sorted list shows is what the unsorted list shows in terms of time, ties included |
| EventScan.TwoEvents | tests/operations.go:516-555 | with two events: a release shows a cleanup for the claim exactly if it came later, and a release shows one beside a claim exactly if the claim came later; of equal times the one listed first counts as later |
| EventScan.IsBdCleanedUp | tests/operations.go:505-555 | one poll is true exactly when some release is newer than every cleanup-in-progress event for the claim and no claim as recent is older than that release |

## Left out

- The Kubernetes API, the kubelet and the node disk manager are steps that may or may not be taken, and calls that may fail; client wrappers, logging, analytics, startup and leader election are not part of this model.
- Code of the maya library that the repository imports is not part of this model. It is assumed that `ExtractSubPath` splits a path into parent and last component, `AddFinalizer` adds if absent, `RemoveString` removes all equal entries and keeps the order of the rest, and that the merged configuration is what the getters read.
- The StorageClass annotation is a sequence of entries: appending YAML text appends entries (YAML 1.2.2, section 8.2.1) for arguments that need no escaping.
- A path is a sequence of components, so volume names have no slash; the rendering to text is modelled only for the base path check.
- The shell script of the quota command and its project ids: a quota pod sets the limits it is told, or may remove the directory and fail. The command lines that make and remove a directory are modelled as they are.
- A helper pod that was deleted counts as stopped, and a volume has one request at a time. The name of a volume is not provisioned again once a PV of that name was handed out, as such names are made from the claim's unique id; so an old cleanup pod never meets a new volume of the same name.
- HostpathSafety.LiveVolumesHaveTheirDirectory: assumes that no attempt without a quota begins while a quota pod for the same directory is still to run, and that nobody deletes the failed quota pod an attempt is exposed to. Nothing in the code sees to that; the runs in which it is not so are given above.
- HostpathSafety.DeletionRemovesExactlyTheVolume: assumes that no node but home can get a cleanup pod when one runs, as otherwise it may run elsewhere; the run is given above.
- HostpathProvisioner.Provisioner.CreateInitPod: conservation of helper pods is stated up to pods that somebody else deletes during the call and pods whose create or delete call was not answered. It is given the command line its caller gives it; what a pod does with another one is not modelled.
- HostpathProvisioner.Provisioner.CreateCleanupPod: the same.
- HostpathPlacement.WhereDirectoriesGo: is about attempts during which no node object changes.
- ClaimSafety.LivePVsKeepTheirClaims: assumes that every reused claim carried the finalizer, which the code does not check, and that nobody else takes the provisioner's finalizer off.
- ClaimProvisioner.Provisioner.AddLocalPVFinalizerOnAssociatedBDCs: that every listed claim is settled at the end, and that a second pass changes nothing, is stated for passes during which nobody else acts; the rest holds in any case.
- `Provision` does not dispatch device volumes at this commit; the device methods are modelled as they stand, and the repair at startup as it runs.
- ClaimProvisioner.BlockPath: requires that every device link has a path, as the code would crash otherwise.
- Sizes are not negative. `FormatFloat` prints the rounded-up value exactly, as it does for every int64 size; percentages beyond the range of float64 are errors.
- The list selector is a label map and not its text; operators other than In, wall-clock sleeps, error texts and capacity quantities are not modelled.
- EventSort.EventList.LatestLastSort: written as the insertion sort that the Go library uses on short blocks; its merging of longer blocks is not modelled, but has the same result by EventSort.StableSortIsUnique.
- EventScan.IsBdCleanedUp: one poll; the retries around it and the wait for the claim's deletion are left out.
- Container, volume, PVC and deployment builders, list predicates, PV labels and capacity: setters and one-line comparisons.
