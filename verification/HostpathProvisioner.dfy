/** The hostpath half of the provisioner as it is written: methods that act on the cluster,
    one API call after another, while everybody else acts in between. Every call is a step
    of the hostpath machine, so what is proved of all runs of the machine holds for all
    executions of these methods; and a call that fails is a step of its own, so that a
    method can only fail for a reason that history shows. */
module HostpathProvisioner {
  import opened Wrappers
  import opened NodeSelection
  import opened QuotaLimits
  import opened HelperPods
  import opened ObjectBuilders
  import opened HostpathMachine
  import opened HostpathCare
  import opened HostpathSafety
  import opened HostpathTraces
  import opened VolumeConfigs

  /** hostpath.ExtractSubPath: parent directory and last component of a path that is not
      directly under the root. */
  function ExtractSubPath(path: Path): Option<(Path, string)> {
    if |path| < 2 then None else Some((path[..|path| - 1], path[|path| - 1]))
  }

  // ---------------------------------------------------------------- requests

  /** What a volume claim asks for. */
  datatype Request = Request(dataSource: bool, selector: bool, accessModes: seq<string>, block: bool, storage: nat, retain: bool)
  {
    predicate Supported() {
      !dataSource && !selector && forall m | m in accessModes :: m == "ReadWriteOnce"
    }
  }

  method IsSupported(request: Request) returns (ok: bool)
    ensures ok <==> request.Supported()
  {
    if request.dataSource || request.selector {
      return false;
    }
    for n := 0 to |request.accessModes|
      invariant forall k | 0 <= k < n :: request.accessModes[k] == "ReadWriteOnce"
    {
      if request.accessModes[n] != "ReadWriteOnce" {
        assert request.accessModes[n] in request.accessModes;
        return false;
      }
    }
    return true;
  }

  predicate Admissible(request: Request, selected: Option<Node>, config: Result<VolumeConfig>, storageType: string) {
    && request.Supported() && !request.block && storageType == "hostpath"
    && config.Success? && selected.Some? && HasHostname(selected.value.labels)
  }

  /** The node carries the labels, and no other node does. */
  predicate OnlyCarrier(s: State, labels: Labels, n: string) {
    && n in s.nodes && Carries(s.nodes[n].labels, labels)
    && forall m | m in s.nodes && Carries(s.nodes[m].labels, labels) :: m == n
  }

  lemma OneCarrier(s: State, labels: Labels)
    ensures |Matching(s, labels)| == 1 <==> exists n :: OnlyCarrier(s, labels, n)
  {
    var found := Matching(s, labels);
    if |found| == 1 {
      var n :| n in found;
      assert |found - {n}| == 0 && found - {n} == {};
      forall m | m in s.nodes && Carries(s.nodes[m].labels, labels)
        ensures m == n
      {
        assert m in found && m !in found - {n};
      }
      assert OnlyCarrier(s, labels, n);
    }
    if n :| OnlyCarrier(s, labels, n) {
      assert found == {n};
    }
  }

  /** A deletion begins only when exactly one node carries the labels of the PV. */
  lemma DeletionsFindOne(w: World, states: seq<State>, events: seq<Event>, i: nat, v: string)
    requires IsHistory(w, states, events) && i < |events| && events[i] == On(v, BeginDelete)
    ensures At(states[i], v).pv.Some? && exists n :: OnlyCarrier(states[i], LabelsOf(At(states[i], v).pv.value), n)
  {
    assert IsStep(w, states, events, i);
    OneCarrier(states[i], LabelsOf(At(states[i], v).pv.value));
  }

  /** The base path of a configuration is one of those there are. */
  predicate Known(w: World, config: VolumeConfig) {
    config.basePath.GetOr([]) != [] ==> config.basePath.value in w.bases
  }

  /** What the quota command is told. */
  function QuotaCommand(rnd: real -> real, soft: string, hard: string, storage: nat): Command {
    SetQuota(Written(rnd, soft, hard, storage), Written(rnd, hard, soft, storage))
  }

  /** Each limit that was given is told, in kilobytes, in its own place; and if only one was, the
      other is told as none. */
  lemma WhatIsTold(rnd: real -> real, soft: string, hard: string, storage: nat)
    requires Rounding(rnd) && Accepted(soft) && Accepted(hard) && storage > 0
    ensures var told := QuotaCommand(rnd, soft, hard, storage);
      && (soft != "" ==> told.soft == Printed(Limit(rnd, soft, storage)))
      && (hard != "" ==> told.hard == Printed(Limit(rnd, hard, storage)))
      && (soft == "" && hard != "" ==> told.soft == "0k")
      && (hard == "" && soft != "" ==> told.hard == "0k")
      && (soft == "" && hard == "" ==> told.soft == told.hard == Printed(PlainSize(rnd, storage)))
  {
    WhatIsWritten(rnd, soft, hard, storage);
    WhatIsWritten(rnd, hard, soft, storage);
  }

  /** The limits of the enabled quotas agree, and for each of them a helper pod was launched that
      was told what they mean. */
  ghost predicate QuotasApplied(events: seq<Event>, from: nat, v: string, config: VolumeConfig, storage: nat, rnd: real -> real) {
    && QuotasAgree(config, storage, rnd)
    && (config.IsXfsQuotaEnabled() ==> LaunchedWith(events, from, v, QuotaCommand(rnd, config.xfsSoft, config.xfsHard, storage)))
    && (config.IsExt4QuotaEnabled() ==> LaunchedWith(events, from, v, QuotaCommand(rnd, config.ext4Soft, config.ext4Hard, storage)))
  }

  predicate QuotasAgree(config: VolumeConfig, storage: nat, rnd: real -> real) {
    && (config.IsXfsQuotaEnabled() ==> LimitsAgree(rnd, config.xfsSoft, config.xfsHard, storage))
    && (config.IsExt4QuotaEnabled() ==> LimitsAgree(rnd, config.ext4Soft, config.ext4Hard, storage))
  }

  lemma StillApplied(events: seq<Event>, events': seq<Event>, from: nat, from': nat, v: string, config: VolumeConfig, storage: nat,
                     rnd: real -> real)
    requires QuotasApplied(events, from, v, config, storage, rnd) && events <= events' && from' <= from
    ensures QuotasApplied(events', from', v, config, storage, rnd)
  {
    if config.IsXfsQuotaEnabled() {
      StillLaunched(events, events', from, from', v, QuotaCommand(rnd, config.xfsSoft, config.xfsHard, storage));
    }
    if config.IsExt4QuotaEnabled() {
      StillLaunched(events, events', from, from', v, QuotaCommand(rnd, config.ext4Soft, config.ext4Hard, storage));
    }
  }

  class Provisioner {
    const w: World
    const helperImage: string
    const serviceAccountName: string
    var s: State
    ghost var states: seq<State>
    ghost var events: seq<Event>

    ghost predicate Valid()
      reads this
    {
      IsHistory(w, states, events) && s == states[|events|]
    }

    constructor (w: World, helperImage: string, serviceAccountName: string)
      requires Disjoint(w)
      ensures Valid() && this.w == w && s == Start && events == []
    {
      this.w, this.helperImage, this.serviceAccountName := w, helperImage, serviceAccountName;
      s, states, events := Start, [Start], [];
    }

    /** The cluster takes one step. */
    method Do(e: Event)
      requires Valid() && Enabled(w, s, e)
      modifies this
      ensures Valid() && s == Apply(w, old(s), e)
      ensures events == old(events) + [e] && states == old(states) + [s]
    {
      RunExtends(w, states, events, e);
      s := Apply(w, s, e);
      states := states + [s];
      events := events + [e];
    }

    /** Others take any number of steps. */
    method Interfere(v: string)
      requires Valid()
      modifies this
      ensures Valid() && old(events) <= events && old(states) <= states
      ensures Undisturbed(old(At(s, v)), At(s, v)) && AllPassive(events, |old(events)|, v)
    {
      var n: nat := *;
      while n > 0
        invariant Valid() && old(events) <= events && old(states) <= states
        invariant Undisturbed(old(At(s, v)), At(s, v)) && AllPassive(events, |old(events)|, v)
      {
        var e: Event := *;
        if Enabled(w, s, e) && Foreign(e, v) {
          ForeignUndisturbed(w, s, e, v);
          Do(e);
        }
        n := n - 1;
      }
    }

    // ---------------------------------------------------------------- helper pods

    /** Create fails when the pod cannot be built, when the API does not answer or when a pod
        of that name exists. */
    method LaunchPod(v: string, cmds: seq<string>, command: Command, opts: HelperPodOptions, parentDir: Path, volumeDir: string)
      returns (ok: bool)
      requires Valid()
      requires At(s, v).op.Some? && At(s, v).op.value.stage.Ready? && At(s, v).op.value.todo != []
      requires parentDir + [volumeDir] == At(s, v).op.value.dir
      requires CommandFits(At(s, v).op.value.todo[0], command)
      requires opts.nodeAffinityLabels == At(s, v).op.value.labels
      requires cmds != [] ==> Does(cmds, command, volumeDir)
      modifies this
      ensures Valid() && old(events) <= events && old(states) <= states
      ensures AllFit(events, |old(events)|, v, opts.nodeAffinityLabels, opts.selectedNodeTaints)
      ensures ok ==> Launched(old(At(s, v)), At(s, v)) && LaunchedWith(events, |old(events)|, v, command)
      ensures !ok ==> NotLaunched(old(At(s, v)), At(s, v), events, |old(events)|, v)
      ensures Free(events, |old(events)|, v, CallFailed) ==>
        (CanLaunch(opts) && parentDir != [] && cmds != [] && old(At(s, v)).op.value.todo[0] !in old(At(s, v)).pods ==> ok)
    {
      var kind := At(s, v).op.value.todo[0];
      var built := BuildHelperPod(PodName(kind, opts.name), opts.nodeAffinityLabels, opts.serviceAccountName,
                                  opts.selectedNodeTaints, helperImage, cmds, command, parentDir, volumeDir);
      if built.Failure? {
        return false;
      }
      ok := CreatePodObject(v, built.value);
      OnlyThisPod(events, |old(events)|, v, built.value, opts.nodeAffinityLabels, opts.selectedNodeTaints);
    }

    /** What a pod needs besides its command and its directory. */
    predicate CanLaunch(opts: HelperPodOptions)
      reads opts
    {
      opts.serviceAccountName != "" && helperImage != "" && Wanted(opts.nodeAffinityLabels) != map[]
    }

    /** A pod that was not launched: nothing was done, or the request is over because the answer
        to its call was lost after the pod had been created. */
    ghost predicate NotLaunched(x: VolumeState, y: VolumeState, events: seq<Event>, from: nat, v: string)
      requires x.op.Some? && x.op.value.todo != []
    {
      && SameRecords(x, y) && PodsConserved(x, y, x.op.value.todo[0], Free(events, from, v, PodLeft))
      && (y.op == x.op || (y.op.None? && |events| > from && events[|events| - 1] == On(v, LoseAnswer)))
    }

    /** The API call. Its answer may be lost after the pod was created: the request then ends,
        and the pod is left. */
    method CreatePodObject(v: string, pod: Pod) returns (ok: bool)
      requires Valid()
      requires At(s, v).op.Some? && At(s, v).op.value.stage.Ready? && At(s, v).op.value.todo != []
      requires pod.phase.Waiting? && Target(pod) == At(s, v).op.value.dir
      requires CommandFits(At(s, v).op.value.todo[0], pod.command) && Encodes(pod.affinity, At(s, v).op.value.labels)
      modifies this
      ensures Valid() && old(events) <= events && old(states) <= states
      ensures AllPassiveBut(events, |old(events)|, v, On(v, CreatePod(pod)))
      ensures ok ==> Launched(old(At(s, v)), At(s, v)) && Happened(events, |old(events)|, On(v, CreatePod(pod)))
      ensures !ok ==> NotLaunched(old(At(s, v)), At(s, v), events, |old(events)|, v)
      ensures old(At(s, v)).op.value.todo[0] !in old(At(s, v)).pods && Free(events, |old(events)|, v, CallFailed) ==> ok
    {
      Interfere(v);
      var reachable: bool := *;
      if !reachable {
        NotAnswered(v);
        Fails(events, |old(events)|, v, |events| - 1);
        return false;
      }
      if At(s, v).op.value.todo[0] in At(s, v).pods {
        return false;
      }
      ghost var x := At(s, v);
      ok := PodAppears(v, pod, |old(events)|);
      LaunchedAfter(old(At(s, v)), x, At(s, v));
      if !ok {
        Fails(events, |old(events)|, v, |events| - 1);
      }
    }

    method NotAnswered(v: string)
      requires Valid()
      modifies this
      ensures Valid() && old(events) <= events && old(states) <= states && events == old(events) + [On(v, NoAnswer)]
      ensures At(s, v) == old(At(s, v)) && s.nodes == old(s.nodes)
      ensures forall from | AllPassive(old(events), from, v) :: AllPassive(events, from, v)
    {
      Do(On(v, NoAnswer));
    }

    /** The pod is there, and the request learns of it or is over. */
    method PodAppears(v: string, pod: Pod, ghost from: nat) returns (answered: bool)
      requires Valid() && from <= |events| && AllPassive(events, from, v)
      requires At(s, v).op.Some? && At(s, v).op.value.stage.Ready? && At(s, v).op.value.todo != []
      requires pod.phase.Waiting? && Target(pod) == At(s, v).op.value.dir && At(s, v).op.value.todo[0] !in At(s, v).pods
      requires CommandFits(At(s, v).op.value.todo[0], pod.command) && Encodes(pod.affinity, At(s, v).op.value.labels)
      modifies this
      ensures Valid() && old(events) < events && old(states) <= states
      ensures AllPassiveBut(events, from, v, On(v, CreatePod(pod))) && Happened(events, from, On(v, CreatePod(pod)))
      ensures Appeared(old(At(s, v)), At(s, v))
      ensures At(s, v).op == if answered then Some(old(At(s, v)).op.value.(stage := Polling(0))) else None
      ensures !answered ==> events[|events| - 1] == On(v, LoseAnswer)
    {
      answered := *;
      ThenThis(events, from, v, On(v, CreatePod(pod)));
      StorePod(v, pod);
      if !answered {
        ghost var events', states' := events, states;
        ThenLost(events, from, v, On(v, CreatePod(pod)));
        AnswerIsLost(v);
        Longer(old(events), events', events);
        Longer(old(states), states', states);
      }
    }

    method StorePod(v: string, pod: Pod)
      requires Valid()
      requires At(s, v).op.Some? && At(s, v).op.value.stage.Ready? && At(s, v).op.value.todo != []
      requires pod.phase.Waiting? && Target(pod) == At(s, v).op.value.dir && At(s, v).op.value.todo[0] !in At(s, v).pods
      requires CommandFits(At(s, v).op.value.todo[0], pod.command) && Encodes(pod.affinity, At(s, v).op.value.labels)
      modifies this
      ensures Valid() && old(states) <= states && events == old(events) + [On(v, CreatePod(pod))]
      ensures Appeared(old(At(s, v)), At(s, v)) && At(s, v).op == Some(old(At(s, v)).op.value.(stage := Polling(0)))
    {
      Do(On(v, CreatePod(pod)));
    }

    method AnswerIsLost(v: string)
      requires Valid() && At(s, v).op.Some? && At(s, v).op.value.stage == Polling(0) && At(s, v).op.value.todo != []
      modifies this
      ensures Valid() && old(states) <= states && events == old(events) + [On(v, LoseAnswer)]
      ensures At(s, v).op.None? && At(s, v).pods == old(At(s, v)).pods
      ensures SameRecords(old(At(s, v)), At(s, v)) && At(s, v).evictions == old(At(s, v)).evictions
    {
      Do(On(v, LoseAnswer));
    }

    /** Reads the status of the helper pod: None is an API error or a pod that is not there. */
    method GetPod(v: string) returns (phase: Option<Phase>)
      requires Valid()
      requires At(s, v).op.Some? && At(s, v).op.value.todo != [] && At(s, v).op.value.stage.Polling?
      requires At(s, v).op.value.stage.polls < w.retries
      modifies this
      ensures Valid() && old(events) <= events && old(states) <= states && AllPassive(events, |old(events)|, v)
      ensures SameRecords(old(At(s, v)), At(s, v)) && Keeps(old(At(s, v)), At(s, v))
      ensures At(s, v).op.Some?
      ensures var op, op' := old(At(s, v)).op.value, At(s, v).op.value;
        if phase.None? then op' == op.(stage := Leaving(false))
        else if phase.value.Ended? && phase.value.ok then
          op' == op.(stage := Leaving(true), home := op'.home) && (if op.todo[0] == Init then op'.home.Some? else op'.home == op.home)
        else op' == op.(stage := Polling(op.stage.polls + 1))
      ensures phase.Some? && phase.value.Ended? && phase.value.ok ==>
        SeenSucceeded(states, events, |old(events)|, v, old(At(s, v)).op.value.todo[0])
      ensures phase.None? && old(At(s, v)).op.value.todo[0] in At(s, v).pods ==> !Free(events, |old(events)|, v, CallFailed)
    {
      Interfere(v);
      var kind := At(s, v).op.value.todo[0];
      var reachable: bool := *;
      phase := if reachable && kind in At(s, v).pods then Some(At(s, v).pods[kind].phase) else None;
      ghost var n := |events|;
      Do(On(v, ReadPod(reachable)));
      assert events[n] == On(v, ReadPod(reachable));
    }

    /** The polling loop of exitPod. A pod that has failed is polled like one that still runs. */
    method AwaitSuccess(v: string) returns (completed: bool, polls: nat)
      requires Valid()
      requires At(s, v).op.Some? && At(s, v).op.value.todo != [] && At(s, v).op.value.stage == Polling(0)
      modifies this
      ensures Valid() && old(events) <= events && old(states) <= states && AllPassive(events, |old(events)|, v)
      ensures polls <= w.retries
      ensures SameRecords(old(At(s, v)), At(s, v)) && Keeps(old(At(s, v)), At(s, v))
      ensures At(s, v).op.Some?
      ensures var op, op' := old(At(s, v)).op.value, At(s, v).op.value;
        && op' == op.(stage := Leaving(completed), home := op'.home)
        && (if op.todo[0] == Init && completed then op'.home.Some? else op'.home == op.home)
      ensures completed ==> SeenSucceeded(states, events, |old(events)|, v, old(At(s, v)).op.value.todo[0])
      ensures old(At(s, v)).op.value.todo[0] in old(At(s, v)).pods && Calm(events, |old(events)|, v, old(At(s, v)), At(s, v)) ==> completed
    {
      ghost var op := At(s, v).op.value;
      polls := 0;
      while polls < w.retries
        invariant Valid() && old(events) <= events && old(states) <= states && AllPassive(events, |old(events)|, v)
        invariant polls <= w.retries
        invariant SameRecords(old(At(s, v)), At(s, v)) && Keeps(old(At(s, v)), At(s, v))
        invariant At(s, v).op == Some(op.(stage := Polling(polls)))
      {
        ghost var events' := events;
        var phase := GetPod(v);
        polls := polls + 1;
        if phase.None? {
          AllParts(events', events, |old(events)|, |events'|, v);
          return false, polls;
        } else if phase.value.Ended? && phase.value.ok {
          return true, polls;
        }
      }
      completed := false;
      TimeIsUp(v, |old(events)|);
    }

    method TimeIsUp(v: string, ghost from: nat)
      requires Valid() && from <= |events| && AllPassive(events, from, v)
      requires At(s, v).op.Some? && At(s, v).op.value.todo != [] && At(s, v).op.value.stage == Polling(w.retries)
      modifies this
      ensures Valid() && old(events) <= events && old(states) <= states && AllPassive(events, from, v)
      ensures SameRecords(old(At(s, v)), At(s, v)) && Keeps(old(At(s, v)), At(s, v))
      ensures At(s, v).op == Some(old(At(s, v)).op.value.(stage := Leaving(false)))
      ensures !Free(events, from, v, CallFailed)
    {
      Do(On(v, Timeout));
      Fails(events, from, v, |old(events)|);
    }

    /** Polls the helper pod until it has succeeded, at most CmdTimeoutCounts times, and in the
        end calls for its deletion, whatever the outcome: that is the last thing it does, and if
        the call is answered the pod is gone. */
    method ExitPod(v: string) returns (ok: bool, polls: nat)
      requires Valid()
      requires At(s, v).op.Some? && At(s, v).op.value.todo != [] && At(s, v).op.value.stage == Polling(0)
      modifies this
      ensures Valid() && old(events) < events && old(states) <= states && AllPassive(events, |old(events)|, v)
      ensures polls <= w.retries
      ensures GoneThrough(old(At(s, v)), At(s, v), ok)
      ensures ok ==> SeenSucceeded(states, events, |old(events)|, v, old(At(s, v)).op.value.todo[0])
      ensures At(s, v).pods.Keys <= old(At(s, v)).pods.Keys
      ensures events[|events| - 1] in [On(v, LeavePod(true)), On(v, LeavePod(false))]
      ensures events[|events| - 1] == On(v, LeavePod(true)) ==> old(At(s, v)).op.value.todo[0] !in At(s, v).pods
      ensures At(s, v).evictions == old(At(s, v)).evictions ==>
        old(At(s, v)).pods.Keys - {old(At(s, v)).op.value.todo[0]} <= At(s, v).pods.Keys
      ensures old(At(s, v)).op.value.todo[0] in old(At(s, v)).pods && Calm(events, |old(events)|, v, old(At(s, v)), At(s, v)) ==> ok
    {
      ok, polls := AwaitSuccess(v);
      ghost var x, states', events' := At(s, v), states, events;
      DeletePod(v);
      AllParts(events', events, |old(events)|, |events'|, v);
      if ok {
        StillSeen(states', events', states, events, |old(events)|, v, old(At(s, v)).op.value.todo[0]);
      }
    }

    /** The deferred delete call. */
    method DeletePod(v: string)
      requires Valid()
      requires At(s, v).op.Some? && At(s, v).op.value.todo != [] && At(s, v).op.value.stage.Leaving?
      modifies this
      ensures Valid() && old(events) < events && old(states) <= states && AllPassive(events, |old(events)|, v)
      ensures SameRecords(old(At(s, v)), At(s, v))
      ensures events[|events| - 1] in [On(v, LeavePod(true)), On(v, LeavePod(false))]
      ensures var op := old(At(s, v)).op.value;
        && At(s, v).op == (if op.stage.ok then Some(op.(todo := op.todo[1..], stage := Ready)) else None)
        && At(s, v).pods.Keys <= old(At(s, v)).pods.Keys
        && (events[|events| - 1] == On(v, LeavePod(true)) ==> op.todo[0] !in At(s, v).pods)
        && (At(s, v).evictions == old(At(s, v)).evictions ==> old(At(s, v)).pods.Keys - {op.todo[0]} <= At(s, v).pods.Keys)
    {
      Interfere(v);
      var answered: bool := *;
      Do(On(v, LeavePod(answered)));
    }

    /** Launches the pod and waits for it. */
    method LaunchAndExit(v: string, command: Command, cmds: seq<string>, opts: HelperPodOptions, parentDir: Path, volumeDir: string)
      returns (ok: bool, polls: nat)
      requires Valid()
      requires At(s, v).op.Some? && At(s, v).op.value.stage.Ready? && At(s, v).op.value.todo != []
      requires parentDir + [volumeDir] == At(s, v).op.value.dir
      requires CommandFits(At(s, v).op.value.todo[0], command) && (cmds != [] ==> Does(cmds, command, volumeDir))
      requires opts.nodeAffinityLabels == At(s, v).op.value.labels
      modifies this
      ensures Valid() && old(events) <= events && old(states) <= states
      ensures AllFit(events, |old(events)|, v, opts.nodeAffinityLabels, opts.selectedNodeTaints)
      ensures polls <= w.retries
      ensures ok ==> Completed(old(At(s, v)), At(s, v), states, events, |old(events)|, v, command)
      ensures !ok ==> NotCompleted(old(At(s, v)), At(s, v))
      ensures PodsConserved(old(At(s, v)), At(s, v), old(At(s, v)).op.value.todo[0], Free(events, |old(events)|, v, PodLeft))
      ensures Calm(events, |old(events)|, v, old(At(s, v)), At(s, v)) ==>
        (CanLaunch(opts) && parentDir != [] && cmds != [] && old(At(s, v)).op.value.todo[0] !in old(At(s, v)).pods ==> ok)
    {
      polls := 0;
      ok := LaunchPod(v, cmds, command, opts, parentDir, volumeDir);
      if ok {
        ok, polls := FinishPod(v, old(At(s, v)), |old(events)|, command, opts.nodeAffinityLabels, opts.selectedNodeTaints);
      }
    }

    /** The request has gone through the pod, which was launched with this command and seen to
        have succeeded. */
    ghost predicate Completed(x: VolumeState, y: VolumeState, states: seq<State>, events: seq<Event>, from: nat, v: string,
                              command: Command)
      requires x.op.Some? && x.op.value.todo != []
    {
      GoneThrough(x, y, true) && SeenSucceeded(states, events, from, v, x.op.value.todo[0]) && LaunchedWith(events, from, v, command)
    }

    /** It has not, and is over, or about to be given up. */
    predicate NotCompleted(x: VolumeState, y: VolumeState) {
      SameRecords(x, y) && (y.op.None? || y.op == x.op)
    }

    /** The second half: the pod has been launched. */
    method FinishPod(v: string, ghost x: VolumeState, ghost from: nat, ghost command: Command,
                     ghost labels: Labels, ghost taints: seq<Taint>)
      returns (ok: bool, polls: nat)
      requires Valid() && from <= |events|
      requires x.op.Some? && x.op.value.todo != [] && Launched(x, At(s, v))
      requires LaunchedWith(events, from, v, command) && AllFit(events, from, v, labels, taints)
      modifies this
      ensures Valid() && old(events) <= events && old(states) <= states
      ensures AllFit(events, from, v, labels, taints)
      ensures polls <= w.retries
      ensures ok ==> Completed(x, At(s, v), states, events, from, v, command)
      ensures !ok ==> NotCompleted(x, At(s, v))
      ensures PodsConserved(x, At(s, v), x.op.value.todo[0], Free(events, from, v, PodLeft))
      ensures Calm(events, from, v, x, At(s, v)) ==> ok
    {
      ghost var y, launched := At(s, v), events;
      ok, polls := ExitPod(v);
      AllParts(launched, events, from, |launched|, v);
      LaunchedThenSeen(states, launched, events, from, v, command, labels, taints);
      LaunchedAndLeft(x, y, At(s, v), ok, Free(events, from, v, PodLeft));
    }

    /** What the three helper-pod functions share: check the options, split the path, launch
        the pod and wait for it. The commands that make and remove the directory are told its
        name, the last component of the path. */
    method RunHelperPod(v: string, command: Command, cmds: seq<string>, named: bool, opts: HelperPodOptions)
      returns (ok: bool, polls: nat)
      requires Valid()
      requires At(s, v).op.Some? && At(s, v).op.value.stage.Ready? && At(s, v).op.value.todo != []
      requires opts.path == At(s, v).op.value.dir
      requires CommandFits(At(s, v).op.value.todo[0], command) && IsLine(command, cmds, named)
      requires opts.nodeAffinityLabels == At(s, v).op.value.labels
      modifies this
      ensures Valid() && old(events) <= events && old(states) <= states
      ensures AllFit(events, |old(events)|, v, opts.nodeAffinityLabels, opts.selectedNodeTaints)
      ensures polls <= w.retries
      ensures ok ==> Completed(old(At(s, v)), At(s, v), states, events, |old(events)|, v, command)
      ensures !ok ==> NotCompleted(old(At(s, v)), At(s, v))
      ensures PodsConserved(old(At(s, v)), At(s, v), old(At(s, v)).op.value.todo[0], Free(events, |old(events)|, v, PodLeft))
      ensures Calm(events, |old(events)|, v, old(At(s, v)), At(s, v)) ==>
        (CanRunPod(opts) && old(At(s, v)).op.value.todo[0] !in old(At(s, v)).pods ==> ok)
    {
      if !opts.Complete() {
        return false, 0;
      }
      var split := ExtractSubPath(opts.path);
      if split.None? {
        return false, 0;
      }
      var line := if named then cmds + ["/data/" + split.value.1] else cmds;
      ok, polls := LaunchAndExit(v, command, line, opts, split.value.0, split.value.1);
    }

    /** The command line, but for the name of the directory, which two of the commands are told. */
    predicate IsLine(command: Command, cmds: seq<string>, named: bool) {
      match command
      case MakeDir => named && cmds == ["mkdir", "-m", "0777", "-p"]
      case RemoveDir => named && cmds == ["rm", "-rf"]
      case SetQuota(_, _) => !named && |cmds| == 3 && cmds[..2] == ["sh", "-c"]
    }

    predicate CanRunPod(opts: HelperPodOptions)
      reads opts
    {
      CanLaunch(opts) && opts.name != "" && |opts.path| >= 2
    }

    method CreateInitPod(v: string, opts: HelperPodOptions) returns (ok: bool, polls: nat)
      requires Valid()
      requires At(s, v).op.Some? && At(s, v).op.value.stage.Ready?
      requires At(s, v).op.value.todo != [] && At(s, v).op.value.todo[0] == Init
      requires opts.cmdsForPath == ["mkdir", "-m", "0777", "-p"]
      requires opts.path == At(s, v).op.value.dir && opts.nodeAffinityLabels == At(s, v).op.value.labels
      modifies this
      ensures Valid() && old(events) <= events && old(states) <= states
      ensures AllFit(events, |old(events)|, v, opts.nodeAffinityLabels, opts.selectedNodeTaints)
      ensures polls <= w.retries
      ensures ok ==> Completed(old(At(s, v)), At(s, v), states, events, |old(events)|, v, MakeDir)
      ensures !ok ==> NotCompleted(old(At(s, v)), At(s, v))
      ensures PodsConserved(old(At(s, v)), At(s, v), Init, Free(events, |old(events)|, v, PodLeft))
      ensures CanRunPod(opts) && Init !in old(At(s, v)).pods && Calm(events, |old(events)|, v, old(At(s, v)), At(s, v)) ==> ok
    {
      ok, polls := RunHelperPod(v, MakeDir, opts.cmdsForPath, true, opts);
    }

    method CreateCleanupPod(v: string, opts: HelperPodOptions) returns (ok: bool, polls: nat)
      requires Valid()
      requires At(s, v).op.Some? && At(s, v).op.value.stage.Ready?
      requires At(s, v).op.value.todo != [] && At(s, v).op.value.todo[0] == Cleanup
      requires opts.cmdsForPath == ["rm", "-rf"]
      requires opts.path == At(s, v).op.value.dir && opts.nodeAffinityLabels == At(s, v).op.value.labels
      modifies this
      ensures Valid() && old(events) <= events && old(states) <= states
      ensures AllFit(events, |old(events)|, v, opts.nodeAffinityLabels, opts.selectedNodeTaints)
      ensures polls <= w.retries
      ensures ok ==> Completed(old(At(s, v)), At(s, v), states, events, |old(events)|, v, RemoveDir)
      ensures !ok ==> NotCompleted(old(At(s, v)), At(s, v))
      ensures PodsConserved(old(At(s, v)), At(s, v), Cleanup, Free(events, |old(events)|, v, PodLeft))
      ensures CanRunPod(opts) && Cleanup !in old(At(s, v)).pods && Calm(events, |old(events)|, v, old(At(s, v)), At(s, v)) ==> ok
    {
      ok, polls := RunHelperPod(v, RemoveDir, opts.cmdsForPath, true, opts);
    }

    /** No pod is launched for limits that do not agree; otherwise the pod is told the limits
        of QuotaLimits. */
    method CreateQuotaPod(v: string, opts: HelperPodOptions, rnd: real -> real) returns (ok: bool, polls: nat)
      requires Valid() && Rounding(rnd)
      requires At(s, v).op.Some? && At(s, v).op.value.stage.Ready?
      requires At(s, v).op.value.todo != [] && At(s, v).op.value.todo[0] == Quota
      requires opts.path == At(s, v).op.value.dir && opts.nodeAffinityLabels == At(s, v).op.value.labels
      modifies this, opts`softLimitGrace, opts`hardLimitGrace
      ensures Valid() && old(events) <= events && old(states) <= states
      ensures AllFit(events, |old(events)|, v, opts.nodeAffinityLabels, opts.selectedNodeTaints)
      ensures polls <= w.retries
      ensures ok ==> LimitsAgree(rnd, old(opts.softLimitGrace), old(opts.hardLimitGrace), opts.pvcStorage)
      ensures ok ==> Completed(old(At(s, v)), At(s, v), states, events, |old(events)|, v,
                               QuotaCommand(rnd, old(opts.softLimitGrace), old(opts.hardLimitGrace), opts.pvcStorage))
      ensures !ok ==> NotCompleted(old(At(s, v)), At(s, v))
      ensures PodsConserved(old(At(s, v)), At(s, v), Quota, Free(events, |old(events)|, v, PodLeft))
      ensures Calm(events, |old(events)|, v, old(At(s, v)), At(s, v)) ==>
        (CanRunPod(opts) && LimitsAgree(rnd, old(opts.softLimitGrace), old(opts.hardLimitGrace), opts.pvcStorage) ==>
         Quota !in old(At(s, v)).pods ==> ok)
    {
      if !opts.Complete() {
        return false, 0;
      }
      var agreed := opts.SetLimits(rnd);
      if !agreed {
        return false, 0;
      }
      ok, polls := RunHelperPod(v, SetQuota(opts.softLimitGrace, opts.hardLimitGrace), ["sh", "-c", "quota"], false, opts);
    }

    /** A request that failed is over. */
    method GiveUp(v: string)
      requires Valid() && (At(s, v).op.Some? ==> At(s, v).op.value.stage.Ready?)
      modifies this
      ensures Valid() && old(events) <= events && old(states) <= states && AllPassive(events, |old(events)|, v)
      ensures At(s, v) == old(At(s, v)).(op := None)
    {
      if At(s, v).op.Some? {
        Do(On(v, Fail));
      }
    }

    // ---------------------------------------------------------------- provisioning

    /** What every helper pod of a volume needs. */
    predicate CanServe(v: string, path: Path, labels: Labels) {
      v != "" && serviceAccountName != "" && helperImage != "" && |path| >= 2 && Wanted(labels) != map[]
    }

    /** Applies the quota of one kind when it is enabled. */
    method ApplyQuota(v: string, enabled: bool, path: Path, labels: Labels, taints: seq<Taint>, soft: string, hard: string,
                      storage: nat, rnd: real -> real) returns (ok: bool)
      requires Valid() && Rounding(rnd)
      requires At(s, v).op.Some? && At(s, v).op.value.stage.Ready? && At(s, v).op.value.labels == labels && At(s, v).op.value.dir == path
      requires enabled ==> At(s, v).op.value.todo != [] && At(s, v).op.value.todo[0] == Quota
      modifies this
      ensures Valid() && old(events) <= events && old(states) <= states
      ensures AllFit(events, |old(events)|, v, labels, taints)
      ensures ok && enabled ==> At(s, v).op == Some(old(At(s, v)).op.value.(todo := old(At(s, v)).op.value.todo[1..]))
      ensures ok && enabled ==>
        LimitsAgree(rnd, soft, hard, storage) && LaunchedWith(events, |old(events)|, v, QuotaCommand(rnd, soft, hard, storage))
      ensures !ok ==> At(s, v).op.None? || At(s, v).op == old(At(s, v)).op
      ensures !enabled ==> ok && s == old(s) && events == old(events)
      ensures SameRecords(old(At(s, v)), At(s, v))
      ensures PodsConserved(old(At(s, v)), At(s, v), Quota, Free(events, |old(events)|, v, PodLeft))
      ensures Calm(events, |old(events)|, v, old(At(s, v)), At(s, v)) ==>
        (CanServe(v, path, labels) && LimitsAgree(rnd, soft, hard, storage) && Quota !in old(At(s, v)).pods ==> ok)
    {
      if enabled {
        ok := LimitDirectory(v, path, labels, taints, soft, hard, storage, rnd);
      } else {
        ok := true;
      }
    }

    /** Runs one quota pod. */
    method LimitDirectory(v: string, path: Path, labels: Labels, taints: seq<Taint>, soft: string, hard: string, storage: nat,
                          rnd: real -> real) returns (ok: bool)
      requires Valid() && Rounding(rnd)
      requires At(s, v).op.Some? && At(s, v).op.value.stage.Ready? && At(s, v).op.value.labels == labels && At(s, v).op.value.dir == path
      requires At(s, v).op.value.todo != [] && At(s, v).op.value.todo[0] == Quota
      modifies this
      ensures Valid() && old(events) <= events && old(states) <= states
      ensures AllFit(events, |old(events)|, v, labels, taints)
      ensures ok ==> At(s, v).op == Some(old(At(s, v)).op.value.(todo := old(At(s, v)).op.value.todo[1..]))
      ensures ok ==> LimitsAgree(rnd, soft, hard, storage) && LaunchedWith(events, |old(events)|, v, QuotaCommand(rnd, soft, hard, storage))
      ensures !ok ==> At(s, v).op.None? || At(s, v).op == old(At(s, v)).op
      ensures SameRecords(old(At(s, v)), At(s, v))
      ensures PodsConserved(old(At(s, v)), At(s, v), Quota, Free(events, |old(events)|, v, PodLeft))
      ensures Calm(events, |old(events)|, v, old(At(s, v)), At(s, v)) ==>
        (CanServe(v, path, labels) && LimitsAgree(rnd, soft, hard, storage) && Quota !in old(At(s, v)).pods ==> ok)
    {
      var podOpts := new HelperPodOptions(v, [], path, labels, serviceAccountName, taints, soft, hard, storage);
      assert Valid() && (CanServe(v, path, labels) ==> CanRunPod(podOpts));
      var polls;
      ok, polls := CreateQuotaPod(v, podOpts, rnd);
    }

    /** The first part of provisioning: before the path is used, it is created. */
    method MakeDirectory(v: string, base: Path, quotas: nat, labels: Labels, taints: seq<Taint>) returns (ok: bool)
      requires Valid()
      requires base in w.bases && At(s, v).op.None? && At(s, v).home.None?
      modifies this
      ensures Valid() && old(events) < events && old(states) <= states
      ensures events[|old(events)|] == On(v, BeginProvision(labels, base, quotas))
      ensures AllFit(events, |old(events)| + 1, v, labels, taints)
      ensures SameRecords(old(At(s, v)), At(s, v))
      ensures ok ==>
        && At(s, v).op.Some? && At(s, v).op.value.home.Some?
        && At(s, v).op.value == Op(Provisioning, labels, base + [v], quotas, QuotaPods(quotas), Ready, At(s, v).op.value.home)
      ensures !ok && At(s, v).op.Some? ==> At(s, v).op.value.stage.Ready?
      ensures At(s, v).pods.Keys <= old(At(s, v)).pods.Keys + {Init}
      ensures Calm(events, |old(events)|, v, old(At(s, v)), At(s, v)) ==>
        (CanServe(v, base + [v], labels) && Init !in old(At(s, v)).pods ==> ok)
    {
      BeginAttempt(v, base, quotas, labels);
      ghost var begun := events;
      var podOpts := new HelperPodOptions(v, ["mkdir", "-m", "0777", "-p"], base + [v], labels, serviceAccountName,
                                          taints, "", "", 0);
      var polls;
      ok, polls := CreateInitPod(v, podOpts);
      AllParts(begun, events, |old(events)|, |begun|, v);
      assert Plan(quotas)[1..] == QuotaPods(quotas);
    }

    method BeginAttempt(v: string, base: Path, quotas: nat, labels: Labels)
      requires Valid()
      requires base in w.bases && At(s, v).op.None? && At(s, v).home.None?
      modifies this
      ensures Valid() && old(states) <= states && events == old(events) + [On(v, BeginProvision(labels, base, quotas))]
      ensures At(s, v) == old(At(s, v)).(op := Some(Op(Provisioning, labels, base + [v], quotas, Plan(quotas), Ready, None)))
    {
      Do(On(v, BeginProvision(labels, base, quotas)));
    }

    /** The middle part: the XFS quota, then the EXT4 quota, each when enabled. */
    method ApplyQuotas(v: string, path: Path, config: VolumeConfig, labels: Labels, taints: seq<Taint>, storage: nat, rnd: real -> real)
      returns (ok: bool)
      requires Valid() && Rounding(rnd)
      requires At(s, v).op.Some? && At(s, v).op.value.stage.Ready? && At(s, v).op.value.labels == labels
      requires At(s, v).op.value.dir == path && At(s, v).op.value.todo == QuotaPods(config.Quotas())
      modifies this
      ensures Valid() && old(events) <= events && old(states) <= states
      ensures AllFit(events, |old(events)|, v, labels, taints)
      ensures SameRecords(old(At(s, v)), At(s, v))
      ensures ok ==> At(s, v).op == Some(old(At(s, v)).op.value.(todo := []))
      ensures ok ==> QuotasApplied(events, |old(events)|, v, config, storage, rnd)
      ensures !ok && At(s, v).op.Some? ==> At(s, v).op.value.stage.Ready?
      ensures Calm(events, |old(events)|, v, old(At(s, v)), At(s, v)) ==>
        (CanServe(v, path, labels) && QuotasAgree(config, storage, rnd) && Quota !in old(At(s, v)).pods ==> ok)
    {
      ok := ApplyQuota(v, config.IsXfsQuotaEnabled(), path, labels, taints, config.xfsSoft, config.xfsHard, storage, rnd);
      if ok {
        ok := ApplyNextQuota(v, |old(events)|, old(At(s, v)), path, config, labels, taints, storage, rnd);
      }
    }

    method ApplyNextQuota(v: string, ghost from: nat, ghost x: VolumeState, path: Path, config: VolumeConfig, labels: Labels,
                          taints: seq<Taint>, storage: nat, rnd: real -> real)
      returns (ok: bool)
      requires Valid() && Rounding(rnd) && from <= |events| && SameRecords(x, At(s, v))
      requires At(s, v).op.Some? && At(s, v).op.value.stage.Ready? && At(s, v).op.value.labels == labels && At(s, v).op.value.dir == path
      requires At(s, v).op.value.todo == if config.IsExt4QuotaEnabled() then [Quota] else []
      requires AllFit(events, from, v, labels, taints)
      requires config.IsXfsQuotaEnabled() ==>
        && LimitsAgree(rnd, config.xfsSoft, config.xfsHard, storage)
        && LaunchedWith(events, from, v, QuotaCommand(rnd, config.xfsSoft, config.xfsHard, storage))
      requires PodsConserved(x, At(s, v), Quota, Free(events, from, v, PodLeft))
      modifies this
      ensures Valid() && old(events) <= events && old(states) <= states
      ensures AllFit(events, from, v, labels, taints)
      ensures SameRecords(x, At(s, v))
      ensures ok ==> At(s, v).op == Some(old(At(s, v)).op.value.(todo := []))
      ensures ok ==> QuotasApplied(events, from, v, config, storage, rnd)
      ensures !ok && At(s, v).op.Some? ==> At(s, v).op.value.stage.Ready?
      ensures Calm(events, from, v, x, At(s, v)) ==>
        (CanServe(v, path, labels) && QuotasAgree(config, storage, rnd) && Quota !in x.pods ==> ok)
    {
      ok := ApplyQuota(v, config.IsExt4QuotaEnabled(), path, labels, taints, config.ext4Soft, config.ext4Hard, storage, rnd);
      Fitting(old(events), events, from, v, labels, taints);
      AllParts(old(events), events, from, |old(events)|, v);
      if config.IsXfsQuotaEnabled() {
        StillLaunched(old(events), events, from, from, v, QuotaCommand(rnd, config.xfsSoft, config.xfsHard, storage));
      }
      if ok && config.IsExt4QuotaEnabled() {
        StillLaunched(events, events, |old(events)|, from, v, QuotaCommand(rnd, config.ext4Soft, config.ext4Hard, storage));
      }
      assert [Quota][1..] == [];
    }

    /** The last part: build the PV and hand it out. */
    method HandOverPV(v: string, path: Path, labels: Labels, retain: bool, accessModes: nat) returns (r: Result<Volume>)
      requires Valid()
      requires At(s, v).home.None? && At(s, v).pv.None? && !At(s, v).condemned
      requires At(s, v).op.Some? && At(s, v).op.value.goal.Provisioning? && At(s, v).op.value.labels == labels
      requires At(s, v).op.value.dir == path
      requires At(s, v).op.value.stage.Ready? && At(s, v).op.value.todo == [] && At(s, v).op.value.home.Some?
      modifies this
      ensures Valid() && old(events) <= events && old(states) <= states
      ensures At(s, v).op.None? && AllPassive(events, |old(events)|, v) && At(s, v).evictions == old(At(s, v)).evictions
      ensures r.Failure? ==> At(s, v).pv.None? && At(s, v).home.None?
      ensures r.Success? ==>
        && At(s, v).pv == Some(r.value) && !At(s, v).condemned && At(s, v).home == old(At(s, v)).op.value.home
        && r.value.path == path && r.value.retain == retain && Encodes(r.value.affinity, labels)
      ensures CanServe(v, path, labels) && accessModes > 0 ==> r.Success?
    {
      r := BuildPersistentVolume(v, retain, accessModes, path, labels);
      if r.Failure? {
        GiveUp(v);
        return;
      }
      PVAppears(v, r.value.affinity, retain);
    }

    method PVAppears(v: string, affinity: NodeSelector, retain: bool)
      requires Valid()
      requires At(s, v).op.Some? && At(s, v).op.value.goal.Provisioning? && At(s, v).op.value.stage.Ready?
      requires At(s, v).op.value.todo == [] && At(s, v).op.value.home.Some? && Encodes(affinity, At(s, v).op.value.labels)
      modifies this
      ensures Valid() && old(states) <= states && events == old(events) + [On(v, HandOut(affinity, retain))]
      ensures At(s, v).op.None? && At(s, v).pv == Some(Volume(old(At(s, v)).op.value.dir, affinity, retain))
      ensures At(s, v).home == old(At(s, v)).op.value.home && At(s, v).condemned == old(At(s, v)).condemned
      ensures At(s, v).evictions == old(At(s, v)).evictions
    {
      Do(On(v, HandOut(affinity, retain)));
    }

    /** All that a request to provision v needs, apart from calls that are answered. */
    ghost predicate CanProvision(v: string, selected: Node, config: VolumeConfig, accessModes: nat, storage: nat, rnd: real -> real) {
      && config.basePath.GetOr([]) != [] && v != "" && serviceAccountName != "" && helperImage != "" && accessModes > 0
      && HasLabelOf(config.nodeAffinityKeys, selected.labels)
      && QuotasAgree(config, storage, rnd)
    }

    /** Makes the directory, applies the quotas and builds the PV; the PV is handed out only
        when everything went well, and it is if nothing stands in the way: no old helper pod
        of the volume, and no call that fails. node is the name of the selected node. */
    method ProvisionHostPath(v: string, ghost node: string, selected: Node, config: VolumeConfig, retain: bool, accessModes: nat,
                             storage: nat, rnd: real -> real) returns (r: Result<Volume>)
      requires Valid() && Rounding(rnd) && Known(w, config)
      requires At(s, v).op.None? && At(s, v).home.None? && At(s, v).pv.None? && !At(s, v).condemned
      modifies this
      ensures Valid() && old(events) <= events && old(states) <= states
      ensures At(s, v).op.None?
      ensures AllSchedulable(events, |old(events)|, v, selected)
      ensures AllConserved(events, |old(events)|, v, old(At(s, v)), At(s, v)) && NeverStopped(events, |old(events)|, v)
      ensures r.Failure? ==> At(s, v).pv.None? && At(s, v).home.None?
      ensures r.Success? ==>
        && Delivered(states, events, |old(events)|, s, v, r.value, selected.taints, node)
        && config.basePath.GetOr([]) != [] && r.value.path == config.basePath.value + [v] && r.value.retain == retain
        && Selects(r.value.affinity, selected.labels)
        && SelectsAlike(r.value.affinity, config.nodeAffinityKeys, selected.labels)
        && QuotasApplied(events, |old(events)|, v, config, storage, rnd)
      ensures Calm(events, |old(events)|, v, old(At(s, v)), At(s, v)) ==>
        (CanProvision(v, selected, config, accessModes, storage, rnd) && old(At(s, v)).pods == map[] ==> r.Success?)
    {
      var labels := NodeAffinityLabels(config.nodeAffinityKeys, selected.labels);
      var path := config.GetPath(v);
      if path.None? {
        return Failure("failed to get path");
      }
      r := TryHostPath(v, path.value, selected, config, labels, retain, accessModes, storage, rnd);
      AttemptFits(events, |old(events)|, v, labels, selected);
      RequestConserves(w, states, events, |old(events)|, v);
      if r.Success? {
        EncodingSelectsAlike(r.value.affinity, labels, config.nodeAffinityKeys, selected.labels);
        PVIsDelivered(w, states, events, |old(events)|, v, selected.taints, r.value, node);
      }
    }

    /** The attempt. */
    method TryHostPath(v: string, path: Path, selected: Node, config: VolumeConfig, labels: Labels, retain: bool, accessModes: nat,
                       storage: nat, rnd: real -> real) returns (r: Result<Volume>)
      requires Valid() && Rounding(rnd) && Known(w, config) && config.GetPath(v) == Some(path)
      requires At(s, v).op.None? && At(s, v).home.None? && At(s, v).pv.None? && !At(s, v).condemned
      modifies this
      ensures Valid() && old(events) < events && old(states) <= states
      ensures events[|old(events)|] == On(v, BeginProvision(labels, config.basePath.value, config.Quotas()))
      ensures At(s, v).op.None? && AllFit(events, |old(events)| + 1, v, labels, selected.taints)
      ensures r.Failure? ==> At(s, v).pv.None? && At(s, v).home.None?
      ensures r.Success? ==>
        && At(s, v).pv == Some(r.value) && !At(s, v).condemned && r.value.path == path && r.value.retain == retain
        && Encodes(r.value.affinity, labels) && QuotasApplied(events, |old(events)|, v, config, storage, rnd)
      ensures Calm(events, |old(events)|, v, old(At(s, v)), At(s, v)) ==>
        (CanServe(v, path, labels) && accessModes > 0 && QuotasAgree(config, storage, rnd) ==>
         old(At(s, v)).pods == map[] ==> r.Success?)
    {
      var ok := MakeDirectory(v, config.basePath.value, config.Quotas(), labels, selected.taints);
      ghost var x, made := At(s, v), events;
      if !ok {
        GiveUp(v);
        SinceMade(made, events, |old(events)|, v, labels, selected.taints);
        return Failure("volume initialization failed");
      }
      r := QuotasAndPV(v, path, config, labels, selected.taints, retain, accessModes, storage, rnd);
      SinceMade(made, events, |old(events)|, v, labels, selected.taints);
      if r.Success? {
        StillApplied(events, events, |made|, |old(events)|, v, config, storage, rnd);
      }
    }

    /** What follows after the directory was made. */
    method QuotasAndPV(v: string, path: Path, config: VolumeConfig, labels: Labels, taints: seq<Taint>, retain: bool,
                       accessModes: nat, storage: nat, rnd: real -> real) returns (r: Result<Volume>)
      requires Valid() && Rounding(rnd)
      requires At(s, v).home.None? && At(s, v).pv.None? && !At(s, v).condemned
      requires At(s, v).op.Some? && At(s, v).op.value.goal.Provisioning? && At(s, v).op.value.labels == labels
      requires At(s, v).op.value.dir == path && At(s, v).op.value.todo == QuotaPods(config.Quotas())
      requires At(s, v).op.value.stage.Ready? && At(s, v).op.value.home.Some?
      modifies this
      ensures Valid() && old(events) <= events && old(states) <= states
      ensures At(s, v).op.None? && AllFit(events, |old(events)|, v, labels, taints) && At(s, v).evictions >= old(At(s, v)).evictions
      ensures r.Failure? ==> At(s, v).pv.None? && At(s, v).home.None?
      ensures r.Success? ==>
        && At(s, v).pv == Some(r.value) && !At(s, v).condemned && r.value.path == path && r.value.retain == retain
        && Encodes(r.value.affinity, labels) && QuotasApplied(events, |old(events)|, v, config, storage, rnd)
      ensures Calm(events, |old(events)|, v, old(At(s, v)), At(s, v)) ==>
        (CanServe(v, path, labels) && accessModes > 0 && QuotasAgree(config, storage, rnd) ==>
         Quota !in old(At(s, v)).pods ==> r.Success?)
    {
      var ok := ApplyQuotas(v, path, config, labels, taints, storage, rnd);
      ghost var applied := events;
      if ok {
        r := HandOverPV(v, path, labels, retain, accessModes);
      } else {
        GiveUp(v);
        r := Failure("applying quota failed");
      }
      Fitting(applied, events, |old(events)|, v, labels, taints);
      AllParts(applied, events, |old(events)|, |applied|, v);
      if r.Success? {
        StillApplied(applied, events, |old(events)|, |old(events)|, v, config, storage, rnd);
      }
    }

    /** Who asks for what is checked first: nothing happens unless a node was selected that
        has a hostname and the storage type is hostpath, for a filesystem, without a data
        source or selector, to be written by one node. */
    method Provision(v: string, request: Request, ghost node: string, selected: Option<Node>, config: Result<VolumeConfig>,
                     storageType: string, rnd: real -> real) returns (r: Result<Volume>)
      requires Valid() && Rounding(rnd) && (config.Success? ==> Known(w, config.value))
      requires At(s, v).op.None? && At(s, v).home.None? && At(s, v).pv.None? && !At(s, v).condemned
      modifies this
      ensures Valid() && old(events) <= events && old(states) <= states
      ensures !Admissible(request, selected, config, storageType) ==> r.Failure? && s == old(s) && events == old(events)
      ensures request.dataSource || request.selector || (exists m :: m in request.accessModes && m != "ReadWriteOnce") ==>
        r.Failure? && s == old(s) && events == old(events)
      ensures r.Failure? ==> At(s, v).pv.None? && At(s, v).home.None?
      ensures selected.Some? ==> AllSchedulable(events, |old(events)|, v, selected.value)
      ensures AllConserved(events, |old(events)|, v, old(At(s, v)), At(s, v)) && NeverStopped(events, |old(events)|, v)
      ensures r.Success? ==>
        && Delivered(states, events, |old(events)|, s, v, r.value, selected.value.taints, node)
        && config.value.basePath.GetOr([]) != [] && r.value.path == config.value.basePath.value + [v]
        && r.value.retain == request.retain
        && Selects(r.value.affinity, selected.value.labels)
        && SelectsAlike(r.value.affinity, config.value.nodeAffinityKeys, selected.value.labels)
        && QuotasApplied(events, |old(events)|, v, config.value, request.storage, rnd)
      ensures Calm(events, |old(events)|, v, old(At(s, v)), At(s, v)) ==>
        (Admissible(request, selected, config, storageType) ==>
         CanProvision(v, selected.value, config.value, |request.accessModes|, request.storage, rnd) ==>
         old(At(s, v)).pods == map[] ==> r.Success?)
    {
      var supported := IsSupported(request);
      if !supported {
        return Failure("the request is not supported");
      }
      if selected.None? {
        return Failure("no node was specified");
      }
      if GetNodeLabelValue(selected.value.labels, HostnameKey) == "" {
        return Failure("hostname is empty");
      }
      if config.Failure? {
        return Failure(config.error);
      }
      if request.block && storageType != "device" {
        return Failure("BlockMode is not supported");
      }
      if storageType == "hostpath" {
        r := ProvisionHostPath(v, node, selected.value, config.value, request.retain, |request.accessModes|, request.storage, rnd);
        return;
      }
      return Failure("StorageType is not supported");
    }

    // ---------------------------------------------------------------- deletion

    /** Lists the nodes carrying the labels; anything but exactly one is an error. */
    method GetNodeObjectFromLabels(v: string, labels: Labels) returns (r: Result<Node>)
      requires Valid()
      modifies this
      ensures Valid() && old(events) <= events && old(states) <= states
      ensures Undisturbed(old(At(s, v)), At(s, v)) && AllPassive(events, |old(events)|, v)
      ensures r.Success? ==> |Matching(s, labels)| == 1 && exists n :: OnlyCarrier(s, labels, n) && r.value == s.nodes[n]
      ensures (exists n :: OnlyCarrier(s, labels, n)) && Free(events, |old(events)|, v, CallFailed) ==> r.Success?
    {
      Interfere(v);
      var reachable: bool := *;
      if !reachable {
        NotAnswered(v);
        Fails(events, |old(events)|, v, |events| - 1);
        return Failure("unable to get the node");
      }
      var found := Matching(s, labels);
      OneCarrier(s, labels);
      if |found| == 0 {
        return Failure("unable to get the node");
      }
      if |found| != 1 {
        return Failure("found multiple nodes");
      }
      var n :| n in found;
      ghost var m :| OnlyCarrier(s, labels, m);
      return Success(s.nodes[n]);
    }

    /** Looks the node up and removes the directory with a cleanup pod. When the lookup does not
        find exactly one node no pod is launched and the volume stays as it is; when it does,
        the deletion succeeds unless an old cleanup pod is in the way or a call fails. On
        success a cleanup pod succeeded; in a careful run the tree is gone from every node where
        one did, and as it was on every node where none ran; so if no node but home could get
        one, it is gone from home and as it was elsewhere. */
    method DeleteHostPath(v: string, pv: Volume) returns (ok: bool)
      requires Valid()
      requires At(s, v).pv == Some(pv) && At(s, v).op.None? && !pv.retain
      modifies this
      ensures Valid() && old(events) <= events && old(states) <= states
      ensures At(s, v).op.None?
      ensures AllConserved(events, |old(events)|, v, old(At(s, v)), At(s, v)) && NeverStopped(events, |old(events)|, v)
      ensures ok ==> At(s, v).pv.None? && At(s, v).condemned && SeenSucceeded(states, events, |old(events)|, v, Cleanup)
      ensures ok ==> DeletedSince(w, states, events, |old(events)|, v)
      ensures ok ==> Removed(states, events, |old(events)|, |events|, v)
      ensures !ok ==> At(s, v).pv == Some(pv)
      ensures !Happened(events, |old(events)|, On(v, BeginDelete)) ==>
        && !ok && Undisturbed(old(At(s, v)), At(s, v)) && AllPassive(events, |old(events)|, v)
        && (Free(events, |old(events)|, v, CallFailed) ==> forall n :: !OnlyCarrier(s, LabelsOf(pv), n))
      ensures Calm(events, |old(events)|, v, old(At(s, v)), At(s, v)) ==>
        (Happened(events, |old(events)|, On(v, BeginDelete)) && CanServe(v, pv.path, LabelsOf(pv)) ==>
         Cleanup !in old(At(s, v)).pods ==> ok)
    {
      var found := LookUp(v, pv);
      ghost var looked := events;
      if found.Failure? {
        ok := false;
        PassiveNeverStops(events, |old(events)|, v);
        RequestConserves(w, states, events, |old(events)|, v);
        return;
      }
      ok := CleanUp(v, pv, found.value.0, found.value.1);
      AfterLookup(w, states, looked, events, |old(events)|, v);
    }

    /** The labels of the PV, and the taints of the one node that carries them. */
    method LookUp(v: string, pv: Volume) returns (r: Result<(Labels, seq<Taint>)>)
      requires Valid()
      requires At(s, v).pv == Some(pv) && At(s, v).op.None? && !pv.retain
      modifies this
      ensures Valid() && old(events) <= events && old(states) <= states
      ensures Undisturbed(old(At(s, v)), At(s, v)) && AllPassive(events, |old(events)|, v)
      ensures r.Success? ==> r.value.0 == LabelsOf(pv) && LabelsOf(pv) != map[] && |Matching(s, LabelsOf(pv))| == 1
      ensures (exists n :: OnlyCarrier(s, LabelsOf(pv), n)) && Free(events, |old(events)|, v, CallFailed) ==> r.Success?
    {
      PVCanBeFound(w, states, events, v);
      if pv.path == [] {
        return Failure("no HostPath set");
      }
      var labels := GetAffinitedNodeLabels(Some(pv.affinity));
      if labels.None? || |labels.value| == 0 {
        return Failure("cannot find affinited node details");
      }
      var node := GetNodeObjectFromLabels(v, labels.value);
      if node.Failure? {
        return Failure(node.error);
      }
      return Success((labels.value, node.value.taints));
    }

    /** The rest of the deletion, after the lookup. The controller removes the PV object when
        it succeeds. */
    method CleanUp(v: string, pv: Volume, labels: Labels, taints: seq<Taint>) returns (ok: bool)
      requires Valid()
      requires At(s, v).pv == Some(pv) && At(s, v).op.None? && !pv.retain
      requires labels == LabelsOf(pv) && labels != map[] && |Matching(s, labels)| == 1
      modifies this
      ensures Valid() && old(events) <= events && old(states) <= states
      ensures At(s, v).op.None? && NeverStopped(events, |old(events)|, v) && At(s, v).evictions >= old(At(s, v)).evictions
      ensures ok ==> At(s, v).pv.None? && At(s, v).condemned && SeenSucceeded(states, events, |old(events)|, v, Cleanup)
      ensures ok ==> DeletedSince(w, states, events, |old(events)|, v)
      ensures !ok ==> At(s, v).pv == Some(pv)
      ensures Happened(events, |old(events)|, On(v, BeginDelete))
      ensures Calm(events, |old(events)|, v, old(At(s, v)), At(s, v)) ==>
        (CanServe(v, pv.path, labels) && Cleanup !in old(At(s, v)).pods ==> ok)
    {
      BeginDeletion(v, pv);
      ghost var begun := events;
      ok := GoOnDeleting(v, pv, labels, taints, |old(events)|);
      AllParts(begun, events, |old(events)|, |begun|, v);
    }

    method GoOnDeleting(v: string, pv: Volume, labels: Labels, taints: seq<Taint>, ghost b: nat) returns (ok: bool)
      requires Valid()
      requires At(s, v).pv == Some(pv) && At(s, v).condemned
      requires At(s, v).op == Some(Op(Deleting, labels, pv.path, 0, [Cleanup], Ready, None))
      requires b + 1 == |events| && events[b] == On(v, BeginDelete)
      modifies this
      ensures Valid() && old(events) <= events && old(states) <= states
      ensures At(s, v).op.None? && At(s, v).condemned && At(s, v).evictions >= old(At(s, v)).evictions
      ensures ok ==> At(s, v).pv.None? && SeenSucceeded(states, events, b, v, Cleanup) && DeletedSince(w, states, events, b, v)
      ensures !ok ==> At(s, v).pv == Some(pv)
      ensures Happened(events, b, On(v, BeginDelete)) && NeverStopped(events, b, v)
      ensures Calm(events, |old(events)|, v, old(At(s, v)), At(s, v)) ==>
        (CanServe(v, pv.path, labels) && Cleanup !in old(At(s, v)).pods ==> ok)
    {
      ok := RemoveDirectory(v, pv, labels, taints);
      ghost var removed := events;
      assert events[b] == old(events)[b];
      if ok {
        EndDeletion(v, b, labels, taints);
      } else {
        GiveUp(v);
        Fitting(removed, events, |old(events)|, v, labels, taints);
        FitsNeverStops(events, |old(events)|, v, labels, taints);
      }
      assert events[b] == old(events)[b];
      AllParts(removed, events, |old(events)|, |removed|, v);
    }

    method BeginDeletion(v: string, pv: Volume)
      requires Valid()
      requires At(s, v).pv == Some(pv) && At(s, v).op.None? && !pv.retain
      requires LabelsOf(pv) != map[] && |Matching(s, LabelsOf(pv))| == 1
      modifies this
      ensures Valid() && old(states) <= states && events == old(events) + [On(v, BeginDelete)]
      ensures At(s, v) == old(At(s, v)).(op := Some(Op(Deleting, LabelsOf(pv), pv.path, 0, [Cleanup], Ready, None)), condemned := true)
    {
      Do(On(v, BeginDelete));
    }

    method EndDeletion(v: string, ghost b: nat, ghost labels: Labels, ghost taints: seq<Taint>)
      requires Valid()
      requires At(s, v).op.Some? && At(s, v).op.value.goal.Deleting? && At(s, v).op.value.stage.Ready? && At(s, v).op.value.todo == []
      requires b < |events| && events[b] == On(v, BeginDelete) && AllFit(events, b + 1, v, labels, taints)
      requires SeenSucceeded(states, events, b + 1, v, Cleanup)
      modifies this
      ensures Valid() && old(events) <= events && old(states) <= states
      ensures At(s, v) == old(At(s, v)).(op := None, pv := None)
      ensures DeletedSince(w, states, events, b, v) && SeenSucceeded(states, events, b, v, Cleanup) && NeverStopped(events, b, v)
    {
      ghost var cleaned, states' := events, states;
      FitsNeverStops(events, b + 1, v, labels, taints);
      Finish(v);
      DeletionIs(w, states, cleaned, events, b, v, labels, taints);
      StillSeen(states', cleaned, states, events, b + 1, v, Cleanup);
    }

    method Finish(v: string)
      requires Valid()
      requires At(s, v).op.Some? && At(s, v).op.value.goal.Deleting? && At(s, v).op.value.stage.Ready? && At(s, v).op.value.todo == []
      modifies this
      ensures Valid() && old(events) <= events && old(states) <= states && events == old(events) + [On(v, FinishDelete)]
      ensures At(s, v) == old(At(s, v)).(op := None, pv := None)
    {
      Do(On(v, FinishDelete));
    }

    method RemoveDirectory(v: string, pv: Volume, labels: Labels, taints: seq<Taint>) returns (ok: bool)
      requires Valid()
      requires At(s, v).pv == Some(pv) && At(s, v).condemned
      requires At(s, v).op == Some(Op(Deleting, labels, pv.path, 0, [Cleanup], Ready, None))
      modifies this
      ensures Valid() && old(events) <= events && old(states) <= states
      ensures SameRecords(old(At(s, v)), At(s, v)) && AllFit(events, |old(events)|, v, labels, taints)
      ensures ok ==> At(s, v).op == Some(Op(Deleting, labels, pv.path, 0, [], Ready, None))
      ensures ok ==> SeenSucceeded(states, events, |old(events)|, v, Cleanup)
      ensures !ok && At(s, v).op.Some? ==> At(s, v).op.value.stage.Ready?
      ensures Calm(events, |old(events)|, v, old(At(s, v)), At(s, v)) ==>
        (CanServe(v, pv.path, labels) && Cleanup !in old(At(s, v)).pods ==> ok)
    {
      var podOpts := new HelperPodOptions(v, ["rm", "-rf"], pv.path, labels, serviceAccountName, taints, "", "", 0);
      var polls;
      ok, polls := CreateCleanupPod(v, podOpts);
      assert [Cleanup][1..] == [];
    }

    /** A volume to be retained is left alone. */
    method Delete(v: string, pv: Volume) returns (ok: bool)
      requires Valid()
      requires At(s, v).pv == Some(pv) && At(s, v).op.None?
      modifies this
      ensures Valid() && old(events) <= events && old(states) <= states
      ensures pv.retain ==> ok && s == old(s) && events == old(events)
      ensures AllConserved(events, |old(events)|, v, old(At(s, v)), At(s, v))
      ensures !pv.retain && ok ==> At(s, v).pv.None? && SeenSucceeded(states, events, |old(events)|, v, Cleanup)
      ensures !pv.retain && ok ==> Removed(states, events, |old(events)|, |events|, v)
      ensures !ok ==> At(s, v).pv == Some(pv)
    {
      if !pv.retain {
        ok := DeleteHostPath(v, pv);
        return;
      }
      return true;
    }
  }
}
