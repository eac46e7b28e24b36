/** What the hostpath machine guarantees over whole runs. */
module HostpathSafety {
  import opened Wrappers
  import opened NodeSelection
  import opened HostpathMachine
  import opened HostpathCare

  /** A run that starts with nothing, in a world without nested base paths. */
  ghost predicate IsHistory(w: World, states: seq<State>, events: seq<Event>) {
    Disjoint(w) && IsRun(w, states, events) && states[0] == Start
  }

  ghost predicate Live(s: State, v: string) {
    At(s, v).pv.Some? && !At(s, v).condemned
  }

  // ---------------------------------------------------------------- directories

  lemma HistoryKeepsInv(w: World, states: seq<State>, events: seq<Event>, i: nat)
    requires IsHistory(w, states, events) && i < |states|
    ensures Inv(w, states[i])
  {
    assert Inv(w, Start);
    RunKeepsInv(w, states, events, i);
  }

  lemma HistoryKeepsCare(w: World, states: seq<State>, events: seq<Event>, i: nat, v: string)
    requires IsHistory(w, states, events) && i < |states| && CarefulRun(states, events, i, v)
    ensures Kept(states[i], At(states[i], v))
  {
    RunKeepsCare(w, states, events, i, v);
  }

  /** At every moment of every careful run, a PV that was handed out and whose deletion has
      not got as far as a cleanup pod has its directory, on a node that carried the labels the
      PV's affinity asks for when the directory was made. The configurations of its attempts
      may differ in base path and in quotas, and so may those of all other volumes. */
  lemma LiveVolumesHaveTheirDirectory(w: World, states: seq<State>, events: seq<Event>, i: nat, v: string)
    requires IsHistory(w, states, events) && i < |states| && CarefulRun(states, events, i, v)
    requires Live(states[i], v)
    ensures var x := At(states[i], v);
      && x.home.Some?
      && OnDisk(states[i], x.home.value.node, x.pv.value.path)
      && Selects(x.pv.value.affinity, x.home.value.labels)
  {
    HistoryKeepsInv(w, states, events, i);
    HistoryKeepsCare(w, states, events, i, v);
    var x := At(states[i], v);
    assert Sound(w, v, x);
    EncodingSelects(x.pv.value.affinity, x.home.value.wanted, x.home.value.labels);
  }

  /** Node objects may come, and change their taints, but keep their labels and stay. */
  ghost predicate LabelsKept(s: State, t: State) {
    forall n | n in s.nodes :: n in t.nodes && t.nodes[n].labels == s.nodes[n].labels
  }

  ghost predicate LabelsStay(states: seq<State>) {
    forall i | 0 < i < |states| :: LabelsKept(states[i - 1], states[i])
  }

  ghost predicate Still(s: State, node: string, labels: Labels) {
    node in s.nodes && s.nodes[node].labels == labels
  }

  /** Every node a record of the volume mentions is still as recorded. */
  ghost predicate RecordsHold(s: State, x: VolumeState) {
    && (forall k | k in x.pods && x.pods[k].phase.Ended? :: Still(s, x.pods[k].phase.node, x.pods[k].phase.labels))
    && (x.home.Some? ==> Still(s, x.home.value.node, x.home.value.labels))
    && (x.op.Some? && x.op.value.home.Some? ==> Still(s, x.op.value.home.value.node, x.op.value.home.value.labels))
  }

  lemma RecordsHoldStep(w: World, s: State, e: Event, v: string)
    requires Enabled(w, s, e) && RecordsHold(s, At(s, v)) && LabelsKept(s, Apply(w, s, e))
    ensures RecordsHold(Apply(w, s, e), At(Apply(w, s, e), v))
  {
    var t := Apply(w, s, e);
    RecordsStayTrue(s, t, At(s, v));
    if e.On? && e.volume == v {
      RecordsHoldAfter(w, s, t, v, At(s, v), e.action);
    }
  }

  lemma RecordsStayTrue(s: State, t: State, x: VolumeState)
    requires RecordsHold(s, x) && LabelsKept(s, t)
    ensures RecordsHold(t, x)
  {
  }

  lemma RecordsHoldAfter(w: World, s: State, t: State, v: string, x: VolumeState, a: Action)
    requires Possible(w, s, v, x, a) && RecordsHold(t, x) && LabelsKept(s, t)
    ensures RecordsHold(t, Next(w, s, v, x, a))
  {
    if a.RunPod? {
      assert Still(t, a.host, s.nodes[a.host].labels);
    } else {
      RecordsHoldWithout(w, s, t, v, x, a);
    }
  }

  lemma RecordsHoldWithout(w: World, s: State, t: State, v: string, x: VolumeState, a: Action)
    requires Possible(w, s, v, x, a) && RecordsHold(t, x) && !a.RunPod?
    ensures RecordsHold(t, Next(w, s, v, x, a))
  {
    var y := Next(w, s, v, x, a);
    EndedBefore(w, s, v, x, a);
    if a.ReadPod? {
      assert y.home == x.home;
    } else {
      HomesBefore(w, s, v, x, a);
    }
  }

  lemma EndedBefore(w: World, s: State, v: string, x: VolumeState, a: Action)
    requires Possible(w, s, v, x, a) && !a.RunPod?
    ensures var y := Next(w, s, v, x, a);
      forall k | k in y.pods && y.pods[k].phase.Ended? :: k in x.pods && x.pods[k] == y.pods[k]
  {
  }

  lemma HomesBefore(w: World, s: State, v: string, x: VolumeState, a: Action)
    requires Possible(w, s, v, x, a) && !a.RunPod? && !a.ReadPod?
    ensures var y := Next(w, s, v, x, a);
      && (y.home == x.home || (x.op.Some? && y.home == x.op.value.home))
      && (y.op.Some? && y.op.value.home.Some? ==> x.op.Some? && y.op.value.home == x.op.value.home)
  {
  }

  lemma {:induction false} RecordsHoldThroughout(w: World, states: seq<State>, events: seq<Event>, i: nat, v: string)
    requires IsRun(w, states, events) && states[0] == Start && LabelsStay(states) && i < |states|
    ensures RecordsHold(states[i], At(states[i], v))
  {
    if i > 0 {
      RecordsHoldThroughout(w, states, events, i - 1, v);
      assert LabelsKept(states[i - 1], states[i]) && IsStep(w, states, events, i - 1);
      RecordsHoldStep(w, states[i - 1], events[i - 1], v);
    }
  }

  /** While nodes keep their labels, the directory of a live PV is on a node its affinity
      selects now, in every careful run. */
  lemma LiveVolumesAreReachable(w: World, states: seq<State>, events: seq<Event>, i: nat, v: string)
    requires IsHistory(w, states, events) && LabelsStay(states) && i < |states| && CarefulRun(states, events, i, v)
    requires Live(states[i], v)
    ensures exists n | n in states[i].nodes ::
      OnDisk(states[i], n, At(states[i], v).pv.value.path) && Selects(At(states[i], v).pv.value.affinity, states[i].nodes[n].labels)
  {
    LiveVolumesHaveTheirDirectory(w, states, events, i, v);
    RecordsHoldThroughout(w, states, events, i, v);
    var home := At(states[i], v).home.value;
    assert Still(states[i], home.node, home.labels);
  }

  /** No event that belongs to one volume, its deletion included, takes a directory of another
      volume from any node; and in a careful run nothing takes that of a live PV. */
  lemma NobodyTakesAnothersDirectory(w: World, states: seq<State>, events: seq<Event>, i: nat, u: string, dir: Path, node: string)
    requires IsHistory(w, states, events) && i < |events| && IsDirOf(w, dir, u)
    requires OnDisk(states[i], node, dir) && !OnDisk(states[i + 1], node, dir)
    ensures events[i].On? && events[i].volume == u && events[i].action.RunPod?
    ensures events[i].action.kind != Init && events[i].action.host == node
    ensures CarefulRun(states, events, i, u) ==> !(Live(states[i], u) && At(states[i], u).pv.value.path == dir)
  {
    HistoryKeepsInv(w, states, events, i);
    var s, e := states[i], events[i];
    assert IsStep(w, states, events, i);
    if !(e.On? && e.volume == u) {
      OthersUntouched(w, s, e, u, dir);
      assert false;
    }
    var x := At(s, u);
    assert Sound(w, u, x) && PodSound(w, u, x, e.action.kind);
    RunTakes(w, s, u, x, e.action, dir);
    if CarefulRun(states, events, i, u) {
      HistoryKeepsCare(w, states, events, i, u);
    }
  }

  /** Why base paths must not lie inside volume directories: removing the tree of one
      directory takes another exactly when the other's base path is inside the first. */
  lemma NestingIsWhatHurts(dir: Path, base: Path, u: string, dirs: set<Path>)
    requires dir != base + [u] && base + [u] in dirs
    ensures base + [u] !in WithoutTree(dirs, dir) <==> dir <= base
  {
    var other := base + [u];
    assert other[..|base|] == base;
    if |dir| <= |base| {
      assert other[..|dir|] == base[..|dir|];
    } else {
      assert dir <= other ==> dir == other;
    }
  }

  // ---------------------------------------------------------------- which node

  /** A node that carries the labels and admits pods with these tolerations. */
  predicate Fit(node: Node, labels: Labels, tolerations: seq<Toleration>) {
    Carries(node.labels, Wanted(labels)) && Admits(tolerations, node.taints)
  }

  /** No nodes but these can get a pod with these labels and tolerations. */
  ghost predicate OnlyAmong(s: State, labels: Labels, tolerations: seq<Toleration>, homes: set<string>) {
    forall n | n in s.nodes && Fit(s.nodes[n], labels, tolerations) :: n in homes
  }

  lemma FitIsSchedulable(pod: Pod, node: Node, labels: Labels)
    requires Encodes(pod.affinity, labels)
    ensures Schedulable(pod, node) <==> Fit(node, labels, pod.tolerations)
  {
    EncodingSelects(pod.affinity, labels, node.labels);
  }

  /** All that is known of where the directory of an attempt is points to one of these nodes,
      and its init pod has these tolerations. */
  predicate MadeAt(x: VolumeState, labels: Labels, tolerations: seq<Toleration>, homes: set<string>) {
    && (x.home.Some? ==> x.home.value.node in homes && x.home.value.wanted == Wanted(labels))
    && (Provisions(x) ==>
          && x.op.value.labels == labels
          && (Current(x, Init) && Init in x.pods ==> x.pods[Init].tolerations == tolerations)
          && (InitDone(x) ==> x.pods[Init].phase.node in homes)
          && (x.op.value.home.Some? ==> x.op.value.home.value.node in homes && x.op.value.home.value.wanted == Wanted(labels)))
  }

  lemma RunMadeAt(w: World, s: State, v: string, x: VolumeState, a: Action, labels: Labels, tolerations: seq<Toleration>, homes: set<string>)
    requires a.RunPod? && CanRun(s, x, a.kind, a.host, a.ok, a.after) && PodSound(w, v, x, a.kind)
    requires MadeAt(x, labels, tolerations, homes)
    requires a.kind == Init && Current(x, Init) ==> OnlyAmong(s, labels, tolerations, homes)
    ensures MadeAt(Next(w, s, v, x, a), labels, tolerations, homes)
  {
    if Provisions(x) && Current(x, a.kind) {
      FitIsSchedulable(x.pods[a.kind], s.nodes[a.host], x.op.value.labels);
    }
  }

  lemma MadeAtStays(w: World, s: State, v: string, x: VolumeState, a: Action, labels: Labels, tolerations: seq<Toleration>, homes: set<string>)
    requires Possible(w, s, v, x, a) && MadeAt(x, labels, tolerations, homes) && !a.BeginProvision? && !a.RunPod?
    requires a.CreatePod? ==> a.pod.tolerations == tolerations
    ensures MadeAt(Next(w, s, v, x, a), labels, tolerations, homes)
  {
    if a.ReadPod? || a.LeavePod? {
      MadeAtSeen(w, s, v, x, a, labels, tolerations, homes);
    } else if Provisions(Next(w, s, v, x, a)) {
      InitDoneBefore(w, s, v, x, a);
    }
  }

  lemma MadeAtRead(x: VolumeState, op: Op, reachable: bool, labels: Labels, tolerations: seq<Toleration>, homes: set<string>)
    requires x.op == Some(op) && op.todo != [] && op.stage.Polling? && MadeAt(x, labels, tolerations, homes)
    ensures MadeAt(AfterRead(x, op, reachable), labels, tolerations, homes)
  {
    var y := AfterRead(x, op, reachable);
    assert y.pods == x.pods && (Current(y, Init) <==> Current(x, Init));
  }

  lemma MadeAtSeen(w: World, s: State, v: string, x: VolumeState, a: Action, labels: Labels, tolerations: seq<Toleration>, homes: set<string>)
    requires Possible(w, s, v, x, a) && MadeAt(x, labels, tolerations, homes) && (a.ReadPod? || a.LeavePod?)
    ensures MadeAt(Next(w, s, v, x, a), labels, tolerations, homes)
  {
    if a.ReadPod? {
      MadeAtRead(x, x.op.value, a.reachable, labels, tolerations, homes);
    }
  }

  lemma InitDoneBefore(w: World, s: State, v: string, x: VolumeState, a: Action)
    requires Possible(w, s, v, x, a) && (a.CreatePod? || a.Timeout? || a.EvictPod? || a.NoAnswer?) && Provisions(x)
    ensures var y := Next(w, s, v, x, a);
      && y.home == x.home && Provisions(y) && y.op.value.home == x.op.value.home && y.op.value.labels == x.op.value.labels
      && (InitDone(y) ==> InitDone(x) && y.pods[Init] == x.pods[Init])
      && (Current(y, Init) && Init in y.pods ==>
            if a.CreatePod? then y.pods[Init] == a.pod else Current(x, Init) && Init in x.pods && y.pods[Init] == x.pods[Init])
  {
  }

  /** From an attempt's beginning on, and until the next one, the directory it makes is on
      one of the nodes that can get the attempt's init pod when that runs: those that carry the
      labels and whose taints are tolerated. If there is only one, it is on that one. */
  lemma {:induction false} DirectoryIsOnAFitNode(w: World, states: seq<State>, events: seq<Event>, b: nat, i: nat, v: string,
                                                 tolerations: seq<Toleration>, homes: set<string>)
    requires IsRun(w, states, events) && Inv(w, states[0]) && b < i < |states|
    requires events[b].On? && events[b].volume == v && events[b].action.BeginProvision?
    requires forall j {:trigger events[j]} | b < j < i && events[j].On? && events[j].volume == v ::
      && !events[j].action.BeginProvision?
      && (events[j].action.CreatePod? ==> events[j].action.pod.tolerations == tolerations)
      && (events[j].action.RunPod? && events[j].action.kind == Init && Current(At(states[j], v), Init) ==>
            OnlyAmong(states[j], events[b].action.labels, tolerations, homes))
    ensures MadeAt(At(states[i], v), events[b].action.labels, tolerations, homes)
  {
    var s, e := states[i - 1], events[i - 1];
    assert IsStep(w, states, events, i - 1);
    if i - 1 == b {
      RunKeepsInv(w, states, events, b);
      assert Sound(w, v, At(s, v));
    } else {
      DirectoryIsOnAFitNode(w, states, events, b, i - 1, v, tolerations, homes);
      RunKeepsInv(w, states, events, i - 1);
      if e.On? && e.volume == v {
        assert Sound(w, v, At(s, v));
        if e.action.RunPod? {
          assert PodSound(w, v, At(s, v), e.action.kind);
          RunMadeAt(w, s, v, At(s, v), e.action, events[b].action.labels, tolerations, homes);
        } else {
          MadeAtStays(w, s, v, At(s, v), e.action, events[b].action.labels, tolerations, homes);
        }
      }
    }
  }

  // ---------------------------------------------------------------- helper pods

  /** The step leaves the helper pod of the request behind: the call that deletes it fails, the
      answer to the call that created it is lost, or the provisioner is stopped. */
  predicate LeavesBehind(x: VolumeState, a: Action, kind: Kind) {
    Current(x, kind) && kind in x.pods && (a == LeavePod(false) || a == LoseAnswer || a == Abort)
  }

  /** A step before i left the pod behind, and it has been there since. */
  ghost predicate WasLeftBehind(states: seq<State>, events: seq<Event>, i: nat, v: string, kind: Kind)
    requires i < |states| == |events| + 1
  {
    exists j {:trigger events[j]} | 0 <= j < i :: WasLeftAt(states, events, j, i, v, kind)
  }

  ghost predicate WasLeftAt(states: seq<State>, events: seq<Event>, j: nat, i: nat, v: string, kind: Kind)
    requires j < i < |states| == |events| + 1
  {
    && events[j].On? && events[j].volume == v && LeavesBehind(At(states[j], v), events[j].action, kind)
    && forall m | j < m <= i :: kind in At(states[m], v).pods
  }

  lemma LeftBehindBy(w: World, s: State, v: string, x: VolumeState, a: Action, kind: Kind)
    requires Possible(w, s, v, x, a) && kind in Next(w, s, v, x, a).leaked && kind !in x.leaked
    ensures LeavesBehind(x, a, kind)
  {
  }

  lemma LeftBehindNow(w: World, states: seq<State>, events: seq<Event>, j: nat, v: string, kind: Kind)
    requires IsHistory(w, states, events) && j < |events|
    requires kind in At(states[j + 1], v).leaked && kind in At(states[j + 1], v).pods && kind !in At(states[j], v).leaked
    ensures WasLeftBehind(states, events, j + 1, v, kind)
  {
    assert IsStep(w, states, events, j);
    LeftBehindBy(w, states[j], v, At(states[j], v), events[j].action, kind);
    assert WasLeftAt(states, events, j, j + 1, v, kind);
  }

  lemma StillLeftBehind(states: seq<State>, events: seq<Event>, i: nat, v: string, kind: Kind)
    requires i + 1 < |states| == |events| + 1 && WasLeftBehind(states, events, i, v, kind) && kind in At(states[i + 1], v).pods
    ensures WasLeftBehind(states, events, i + 1, v, kind)
  {
    var j :| 0 <= j < i && WasLeftAt(states, events, j, i, v, kind);
    assert events[j].On? && WasLeftAt(states, events, j, i + 1, v, kind);
  }

  lemma LeftBehindIsThere(w: World, states: seq<State>, events: seq<Event>, i: nat, v: string)
    requires IsHistory(w, states, events) && i < |states|
    ensures At(states[i], v).leaked <= At(states[i], v).pods.Keys
  {
    HistoryKeepsInv(w, states, events, i);
    assert Sound(w, v, At(states[i], v));
  }

  lemma {:induction false} LeftBehindSomehow(w: World, states: seq<State>, events: seq<Event>, i: nat, v: string, kind: Kind)
    requires IsHistory(w, states, events) && i < |states| && kind in At(states[i], v).leaked
    ensures WasLeftBehind(states, events, i, v, kind)
  {
    LeftBehindIsThere(w, states, events, i, v);
    if i > 0 {
      if kind in At(states[i - 1], v).leaked {
        LeftBehindSomehow(w, states, events, i - 1, v, kind);
        StillLeftBehind(states, events, i - 1, v, kind);
      } else {
        LeftBehindNow(w, states, events, i - 1, v, kind);
      }
    }
  }

  /** At every moment the helper pods of a volume are the one its request is busy with, if that
      is there, and those that were left behind by a call that failed or a provisioner that was
      stopped, and that are still there; and no request polls a pod more than
      CmdTimeoutCounts times. */
  lemma HelperPodsAccountedFor(w: World, states: seq<State>, events: seq<Event>, i: nat, v: string)
    requires IsHistory(w, states, events) && i < |states|
    ensures var x := At(states[i], v);
      && x.leaked <= x.pods.Keys
      && (forall k | k in x.pods :: Current(x, k) <==> k !in x.leaked)
      && (forall k | k in x.leaked :: WasLeftBehind(states, events, i, v, k))
      && (x.op.Some? && x.op.value.stage.Polling? ==> x.op.value.stage.polls <= w.retries)
  {
    HistoryKeepsInv(w, states, events, i);
    var x := At(states[i], v);
    assert Sound(w, v, x);
    forall k | k in x.pods
      ensures Current(x, k) <==> k !in x.leaked
    {
      assert PodSound(w, v, x, k);
    }
    forall k | k in x.leaked
      ensures WasLeftBehind(states, events, i, v, k)
    {
      LeftBehindSomehow(w, states, events, i, v, k);
    }
  }

  /** The same pod, whatever became of it. */
  predicate SamePod(p: Pod, q: Pod) {
    p.(phase := Waiting) == q.(phase := Waiting)
  }

  /** Among the first n steps this pod was created for v. */
  ghost predicate WasCreated(events: seq<Event>, n: nat, v: string, pod: Pod)
    requires n <= |events|
  {
    exists j {:trigger events[j]} | 0 <= j < n ::
      events[j].On? && events[j].volume == v && events[j].action.CreatePod? && SamePod(events[j].action.pod, pod)
  }

  lemma PodsOfStep(w: World, s: State, v: string, x: VolumeState, a: Action, kind: Kind)
    requires Possible(w, s, v, x, a) && kind in Next(w, s, v, x, a).pods
    ensures var pod := Next(w, s, v, x, a).pods[kind];
      (kind in x.pods && SamePod(x.pods[kind], pod)) || (a.CreatePod? && SamePod(a.pod, pod))
  {
  }

  /** In every run, a helper pod has the command, the directory, the affinity and the tolerations
      that one was created with for its volume, all its life. */
  lemma {:induction false} PodsAreAsCreated(w: World, states: seq<State>, events: seq<Event>, i: nat, v: string, kind: Kind)
    requires IsHistory(w, states, events) && i < |states| && kind in At(states[i], v).pods
    ensures WasCreated(events, i, v, At(states[i], v).pods[kind])
  {
    if i > 0 {
      var s, e := states[i - 1], events[i - 1];
      assert IsStep(w, states, events, i - 1);
      if e.On? && e.volume == v {
        PodsOfStep(w, s, v, At(s, v), e.action, kind);
      }
      if kind in At(s, v).pods {
        PodsAreAsCreated(w, states, events, i - 1, v, kind);
      }
    }
  }

  /** The provisioner is stopped while a helper pod of the request may be there. */
  predicate Interrupted(x: VolumeState, a: Action) {
    a == Abort && x.op.Some? && !x.op.value.stage.Ready?
  }

  /** A call fails in a way that leaves a helper pod: that for deleting it, or that for creating
      it, which took effect though its answer was lost. */
  predicate Strands(a: Action) { a == LeavePod(false) || a == LoseAnswer }

  /** From one moment to another no such call failed, and the provisioner was not stopped while
      it was busy with a helper pod of the volume. */
  ghost predicate NoneLeft(states: seq<State>, events: seq<Event>, from: nat, i: nat, v: string)
    requires i < |states| == |events| + 1
  {
    forall j {:trigger events[j]} | from <= j < i && events[j].On? && events[j].volume == v ::
      !Strands(events[j].action) && !Interrupted(At(states[j], v), events[j].action)
  }

  lemma {:induction false} LeftBehindSince(w: World, states: seq<State>, events: seq<Event>, from: nat, i: nat, v: string)
    requires IsHistory(w, states, events) && from <= i < |states|
    ensures NoneLeft(states, events, from, i, v) ==> At(states[i], v).leaked <= At(states[from], v).leaked
    ensures At(states[from], v).evictions <= At(states[i], v).evictions
    ensures At(states[i], v).evictions == At(states[from], v).evictions ==> At(states[from], v).leaked <= At(states[i], v).leaked
  {
    if i > from {
      LeftBehindSince(w, states, events, from, i - 1, v);
      assert IsStep(w, states, events, i - 1);
    }
  }

  lemma WithoutRequest(w: World, states: seq<State>, events: seq<Event>, i: nat, v: string)
    requires IsHistory(w, states, events) && i < |states| && At(states[i], v).op.None?
    ensures At(states[i], v).pods.Keys == At(states[i], v).leaked
  {
    HelperPodsAccountedFor(w, states, events, i, v);
  }

  /** Helper pods are conserved: from one moment without a request to another there are none
      more unless one was left behind in between, and none less unless somebody else deleted
      one. */
  lemma HelperPodsConserved(w: World, states: seq<State>, events: seq<Event>, from: nat, i: nat, v: string)
    requires IsHistory(w, states, events) && from <= i < |states| && At(states[from], v).op.None? && At(states[i], v).op.None?
    ensures NoneLeft(states, events, from, i, v) ==> At(states[i], v).pods.Keys <= At(states[from], v).pods.Keys
    ensures At(states[i], v).evictions == At(states[from], v).evictions ==>
      At(states[from], v).pods.Keys <= At(states[i], v).pods.Keys
  {
    LeftBehindSince(w, states, events, from, i, v);
    WithoutRequest(w, states, events, from, v);
    WithoutRequest(w, states, events, i, v);
  }

  /** So if no such call failed and the provisioner was never stopped while it was busy with a
      helper pod, a volume without a request in progress has no helper pod. Requests that
      fail otherwise leave none behind. */
  lemma NothingLeaks(w: World, states: seq<State>, events: seq<Event>, i: nat, v: string)
    requires IsHistory(w, states, events) && i < |states| && NoneLeft(states, events, 0, i, v)
    ensures At(states[i], v).leaked == {}
    ensures At(states[i], v).op.None? ==> At(states[i], v).pods == map[]
  {
    LeftBehindSince(w, states, events, 0, i, v);
    if At(states[i], v).op.None? {
      WithoutRequest(w, states, events, i, v);
    }
  }

  // ---------------------------------------------------------------- deletion

  function TreeOf(dirs: set<Path>, top: Path): set<Path> {
    set p | p in dirs && top <= p
  }

  /** What a node holds of a directory tree. */
  function TreeAt(s: State, node: string, dir: Path): set<Path> {
    TreeOf(DiskOf(s, node), dir)
  }

  lemma PathsApart(w: World, d: Path, v: string, e: Path, u: string, p: Path)
    requires Disjoint(w) && IsDirOf(w, d, v) && IsDirOf(w, e, u) && d != e && d <= p
    ensures !(e <= p)
  {
    DirsApart(w, d, v, e, u);
    DirsApart(w, e, u, d, v);
    if |d| <= |e| {
      assert |e| <= |p| ==> d == p[..|e|][..|d|];
    } else {
      assert |e| <= |p| ==> p[..|e|] == p[..|d|][..|e|];
    }
  }

  lemma TreesApart(w: World, dir: Path, v: string, pod: Pod, u: string, ok: bool, before: set<Path>, after: set<Path>)
    requires Disjoint(w) && IsDirOf(w, dir, v) && IsDirOf(w, Target(pod), u) && Target(pod) != dir
    requires Effect(pod, ok, before, after)
    ensures TreeOf(after, dir) == TreeOf(before, dir)
  {
    forall p
      ensures p in TreeOf(after, dir) <==> p in TreeOf(before, dir)
    {
      if dir <= p {
        PathsApart(w, dir, v, Target(pod), u, p);
      }
    }
  }

  /** A pod made for another directory leaves the tree as it is on every node. */
  lemma RunLeavesTree(w: World, s: State, u: string, a: Action, dir: Path, v: string)
    requires Disjoint(w) && IsDirOf(w, dir, v) && Enabled(w, s, On(u, a)) && a.RunPod?
    requires PodSound(w, u, At(s, u), a.kind) && Target(At(s, u).pods[a.kind]) != dir
    ensures forall n :: TreeAt(Apply(w, s, On(u, a)), n, dir) == TreeAt(s, n, dir)
  {
    TreesApart(w, dir, v, At(s, u).pods[a.kind], u, a.ok, DiskOf(s, a.host), a.after);
  }

  /** The step runs a cleanup pod of the volume on this node. */
  predicate CleansAt(e: Event, v: string, node: string) {
    e.On? && e.volume == v && e.action.RunPod? && e.action.kind == Cleanup && e.action.host == node
  }

  lemma OthersLeaveTree(w: World, s: State, e: Event, v: string, dir: Path)
    requires Disjoint(w) && IsDirOf(w, dir, v) && Inv(w, s) && Enabled(w, s, e) && !(e.On? && e.volume == v)
    ensures forall n :: TreeAt(Apply(w, s, e), n, dir) == TreeAt(s, n, dir)
  {
    if e.On? && e.action.RunPod? {
      var x := At(s, e.volume);
      assert Sound(w, e.volume, x) && PodSound(w, e.volume, x, e.action.kind);
      assert x.pods[e.action.kind].dir == e.volume && dir[|dir| - 1] == v;
      RunLeavesTree(w, s, e.volume, e.action, dir, v);
    } else {
      assert Apply(w, s, e).disk == s.disk;
    }
  }

  /** What a step of the volume does to its tree on a node, once it was handed out: the tree
      shrinks at most, and only where a cleanup pod runs; one that succeeds leaves nothing. */
  predicate TreeStep(s: State, t: State, e: Event, v: string, dir: Path, node: string) {
    && TreeAt(t, node, dir) <= TreeAt(s, node, dir)
    && (!CleansAt(e, v, node) ==> TreeAt(t, node, dir) == TreeAt(s, node, dir))
    && (CleansAt(e, v, node) && e.action.ok ==> TreeAt(t, node, dir) == {})
  }

  lemma CleanupOnTree(w: World, s: State, a: Action, v: string, dir: Path, node: string)
    requires Enabled(w, s, On(v, a)) && a.RunPod? && a.kind == Cleanup
    requires At(s, v).pods[Cleanup].command == RemoveDir && Target(At(s, v).pods[Cleanup]) == dir
    ensures TreeStep(s, Apply(w, s, On(v, a)), On(v, a), v, dir, node)
  {
    AfterRun(w, s, v, At(s, v), a);
  }

  /** The other pods that can still run were made for other directories. */
  lemma OldPodOnTree(w: World, s: State, a: Action, v: string, node: string)
    requires Disjoint(w) && Enabled(w, s, On(v, a)) && Sound(w, v, At(s, v)) && Kept(s, At(s, v)) && At(s, v).home.Some?
    requires a.RunPod? && a.kind != Cleanup
    ensures TreeStep(s, Apply(w, s, On(v, a)), On(v, a), v, At(s, v).home.value.dir, node)
  {
    assert PodSound(w, v, At(s, v), a.kind);
    RunLeavesTree(w, s, v, a, At(s, v).home.value.dir, v);
  }

  lemma SameDiskSameTree(s: State, t: State, e: Event, v: string, dir: Path, node: string)
    requires t.disk == s.disk && !CleansAt(e, v, node)
    ensures TreeStep(s, t, e, v, dir, node)
  {
  }

  lemma OwnStepOnTree(w: World, s: State, a: Action, v: string, node: string)
    requires Disjoint(w) && Enabled(w, s, On(v, a)) && Sound(w, v, At(s, v)) && Kept(s, At(s, v)) && At(s, v).home.Some?
    ensures TreeStep(s, Apply(w, s, On(v, a)), On(v, a), v, At(s, v).home.value.dir, node)
  {
    if a.RunPod? && a.kind == Cleanup {
      assert PodSound(w, v, At(s, v), Cleanup);
      CleanupOnTree(w, s, a, v, At(s, v).home.value.dir, node);
    } else if a.RunPod? {
      OldPodOnTree(w, s, a, v, node);
    } else {
      SameDiskSameTree(s, Apply(w, s, On(v, a)), On(v, a), v, At(s, v).home.value.dir, node);
    }
  }

  lemma HomeStays(w: World, s: State, e: Event, v: string)
    requires HandedOutSound(w, v, At(s, v)) && Enabled(w, s, e) && At(s, v).home.Some?
    ensures At(Apply(w, s, e), v).home == At(s, v).home
  {
  }

  lemma StepOnTree(w: World, states: seq<State>, events: seq<Event>, i: nat, v: string, node: string)
    requires IsHistory(w, states, events) && i < |events| && CarefulRun(states, events, i, v) && At(states[i], v).home.Some?
    ensures At(states[i + 1], v).home == At(states[i], v).home
    ensures TreeStep(states[i], states[i + 1], events[i], v, At(states[i], v).home.value.dir, node)
  {
    var s, e := states[i], events[i];
    HistoryKeepsInv(w, states, events, i);
    HistoryKeepsCare(w, states, events, i, v);
    assert IsStep(w, states, events, i) && Sound(w, v, At(s, v));
    HomeStays(w, s, e, v);
    if e.On? && e.volume == v {
      OwnStepOnTree(w, s, e.action, v, node);
    } else {
      OthersLeaveTree(w, s, e, v, At(s, v).home.value.dir);
    }
  }

  /** Among the steps from b to i no cleanup pod of the volume ran on this node. */
  ghost predicate NeverCleaned(events: seq<Event>, b: nat, i: nat, v: string, node: string)
    requires i <= |events|
  {
    forall k {:trigger events[k]} | b <= k < i :: !CleansAt(events[k], v, node)
  }

  /** As long as no cleanup pod of the volume runs on a node, the tree stays there as it is. */
  lemma {:induction false} TreeStays(w: World, states: seq<State>, events: seq<Event>, b: nat, i: nat, v: string, node: string)
    requires IsHistory(w, states, events) && b <= i < |states| && CarefulRun(states, events, i, v) && At(states[b], v).home.Some?
    ensures At(states[i], v).home == At(states[b], v).home
    ensures NeverCleaned(events, b, i, v, node) ==>
      TreeAt(states[i], node, At(states[b], v).home.value.dir) == TreeAt(states[b], node, At(states[b], v).home.value.dir)
  {
    if i > b {
      TreeStays(w, states, events, b, i - 1, v, node);
      StepOnTree(w, states, events, i - 1, v, node);
    }
  }

  /** Where a cleanup pod of the volume has succeeded nothing of the tree is left, and nothing
      comes back. */
  lemma {:induction false} TreeIsGone(w: World, states: seq<State>, events: seq<Event>, k: nat, i: nat, v: string, node: string)
    requires IsHistory(w, states, events) && k < i < |states| && CarefulRun(states, events, i, v) && At(states[k], v).home.Some?
    requires CleansAt(events[k], v, node) && events[k].action.ok
    ensures TreeAt(states[i], node, At(states[k], v).home.value.dir) == {}
  {
    TreeStays(w, states, events, k, i - 1, v, node);
    StepOnTree(w, states, events, i - 1, v, node);
    if i > k + 1 {
      TreeIsGone(w, states, events, k, i - 1, v, node);
    }
  }

  /** A cleanup pod of the volume succeeds. */
  predicate CleansUp(e: Event, v: string) {
    e.On? && CleansAt(e, v, if e.action.RunPod? then e.action.host else "") && e.action.ok
  }

  /** Among the steps from b to i a cleanup pod of the volume succeeded on this node. */
  ghost predicate CleanedOn(events: seq<Event>, b: nat, i: nat, v: string, node: string)
    requires i <= |events|
  {
    exists k {:trigger events[k]} | b <= k < i :: CleansUp(events[k], v) && events[k].action.host == node
  }

  /** Since one point, the tree is gone from every node where one of the volume's cleanup pods
      succeeded, and as it was on every node where none ran. */
  ghost predicate CleanedExactly(states: seq<State>, events: seq<Event>, from: nat, i: nat, v: string, dir: Path)
    requires from <= i < |states| == |events| + 1
  {
    && (forall n | CleanedOn(events, from, i, v, n) :: TreeAt(states[i], n, dir) == {})
    && (forall n | NeverCleaned(events, from, i, v, n) :: TreeAt(states[i], n, dir) == TreeAt(states[from], n, dir))
  }

  lemma TreesSince(w: World, states: seq<State>, events: seq<Event>, from: nat, i: nat, v: string)
    requires IsHistory(w, states, events) && from <= i < |states| && CarefulRun(states, events, i, v)
    requires At(states[from], v).home.Some?
    ensures CleanedExactly(states, events, from, i, v, At(states[from], v).home.value.dir)
  {
    forall n
      ensures CleanedOn(events, from, i, v, n) ==> TreeAt(states[i], n, At(states[from], v).home.value.dir) == {}
      ensures NeverCleaned(events, from, i, v, n) ==>
        TreeAt(states[i], n, At(states[from], v).home.value.dir) == TreeAt(states[from], n, At(states[from], v).home.value.dir)
    {
      TreeStays(w, states, events, from, i, v, n);
      if CleanedOn(events, from, i, v, n) {
        var k :| from <= k < i && CleansUp(events[k], v) && events[k].action.host == n;
        TreeStays(w, states, events, from, k, v, n);
        TreeIsGone(w, states, events, k, i, v, n);
      }
    }
  }

  /** No node but home can get the cleanup pod. */
  ghost predicate NoOther(s: State, x: VolumeState, home: Home) {
    Cleanup in x.pods ==> forall n | n in s.nodes && Schedulable(x.pods[Cleanup], s.nodes[n]) :: n == home.node
  }

  /** Whenever a cleanup pod of the volume runs, no node but home can get it. */
  ghost predicate CleanupFindsHome(states: seq<State>, events: seq<Event>, b: nat, f: nat, v: string, home: Home)
    requires |states| == |events| + 1 && f <= |events|
  {
    forall i {:trigger events[i]} | b <= i < f && events[i].On? && events[i].volume == v
        && events[i].action.RunPod? && events[i].action.kind == Cleanup ::
      NoOther(states[i], At(states[i], v), home)
  }

  lemma CleanupRunsAtHome(w: World, states: seq<State>, events: seq<Event>, b: nat, i: nat, f: nat, v: string, home: Home)
    requires IsHistory(w, states, events) && b <= i < f <= |events| && CleanupFindsHome(states, events, b, f, v, home)
    requires events[i].On? && events[i].volume == v && events[i].action.RunPod? && events[i].action.kind == Cleanup
    ensures events[i].action.host == home.node
  {
    assert IsStep(w, states, events, i) && NoOther(states[i], At(states[i], v), home);
  }

  /** The tree is gone from home, and as it was everywhere else. */
  ghost predicate OnlyHomeCleaned(before: State, after: State, home: Home) {
    && TreeAt(after, home.node, home.dir) == {}
    && forall n | n != home.node :: TreeAt(after, n, home.dir) == TreeAt(before, n, home.dir)
  }

  /** If a cleanup pod has succeeded, and no node but home could get one, it was home. */
  lemma HomeIsCleaned(w: World, states: seq<State>, events: seq<Event>, b: nat, f: nat, v: string)
    requires IsHistory(w, states, events) && b <= f <= |events| && CarefulRun(states, events, f, v)
    requires At(states[b], v).home.Some? && CleanupFindsHome(states, events, b, f, v, At(states[b], v).home.value)
    requires exists node :: CleanedOn(events, b, f, v, node)
    ensures OnlyHomeCleaned(states[b], states[f], At(states[b], v).home.value)
  {
    var home := At(states[b], v).home.value;
    TreesSince(w, states, events, b, f, v);
    forall n | n != home.node
      ensures NeverCleaned(events, b, f, v, n)
    {
      forall k {:trigger events[k]} | b <= k < f
        ensures !CleansAt(events[k], v, n)
      {
        if CleansAt(events[k], v, n) {
          CleanupRunsAtHome(w, states, events, b, k, f, v, home);
        }
      }
    }
    var node :| CleanedOn(events, b, f, v, node);
    var k :| b <= k < f && CleansUp(events[k], v) && events[k].action.host == node;
    CleanupRunsAtHome(w, states, events, b, k, f, v, home);
  }

  // ---------------------------------------------------------------- a deletion

  /** The deletion request of v that begins with event b and finishes with event f. */
  ghost predicate IsDeletion(w: World, states: seq<State>, events: seq<Event>, b: nat, f: nat, v: string) {
    && IsHistory(w, states, events)
    && b < f < |events|
    && events[b] == On(v, BeginDelete) && events[f] == On(v, FinishDelete)
    && (forall i | b < i < f :: events[i] != On(v, BeginDelete) && events[i] != On(v, FinishDelete))
  }

  /** The cleanup pod of the request in progress has succeeded. */
  predicate CleanedUp(x: VolumeState) {
    && x.op.Some?
    && (x.op.value.todo == [] || x.op.value.stage == Leaving(true)
        || (Current(x, Cleanup) && Cleanup in x.pods && x.pods[Cleanup].phase.Ended? && x.pods[Cleanup].phase.ok))
  }

  lemma CleanedUpBefore(w: World, s: State, v: string, x: VolumeState, a: Action)
    requires Possible(w, s, v, x, a) && x.home.Some? && a != BeginDelete
    requires x.op.Some? ==> x.op.value.goal.Deleting? && (x.op.value.todo == [Cleanup] || x.op.value.todo == [])
    ensures CleanedUp(Next(w, s, v, x, a)) ==> CleanedUp(x) || CleansUp(On(v, a), v)
  {
  }

  lemma {:induction false} HomeStaysThroughout(w: World, states: seq<State>, events: seq<Event>, b: nat, i: nat, v: string)
    requires IsHistory(w, states, events) && b <= i < |states| && At(states[b], v).home.Some?
    ensures At(states[i], v).home == At(states[b], v).home
  {
    if i > b {
      HomeStaysThroughout(w, states, events, b, i - 1, v);
      HistoryKeepsInv(w, states, events, i - 1);
      assert IsStep(w, states, events, i - 1) && Sound(w, v, At(states[i - 1], v));
      HomeStays(w, states[i - 1], events[i - 1], v);
    }
  }

  lemma OneStepOfCleanup(w: World, s: State, e: Event, v: string)
    requires Sound(w, v, At(s, v)) && Enabled(w, s, e) && At(s, v).home.Some? && e != On(v, BeginDelete)
    ensures CleanedUp(At(Apply(w, s, e), v)) ==> CleanedUp(At(s, v)) || CleansUp(e, v)
  {
    if e.On? && e.volume == v {
      CleanedUpBefore(w, s, v, At(s, v), e.action);
      assert At(Apply(w, s, e), v) == Next(w, s, v, At(s, v), e.action);
    } else {
      assert At(Apply(w, s, e), v) == At(s, v);
    }
  }

  /** A deletion gets past its cleanup pod only after one has succeeded somewhere. */
  lemma {:induction false} CleanupSucceeded(w: World, states: seq<State>, events: seq<Event>, b: nat, f: nat, v: string, i: nat)
    requires IsDeletion(w, states, events, b, f, v) && b < i <= f && At(states[b], v).home.Some?
    ensures CleanedUp(At(states[i], v)) ==> exists k {:trigger events[k]} | b <= k < i :: CleansUp(events[k], v)
  {
    assert IsStep(w, states, events, i - 1);
    if i > b + 1 {
      CleanupSucceeded(w, states, events, b, f, v, i - 1);
      HistoryKeepsInv(w, states, events, i - 1);
      HomeStaysThroughout(w, states, events, b, i - 1, v);
      OneStepOfCleanup(w, states[i - 1], events[i - 1], v);
    }
  }

  lemma DeletionFinishes(w: World, states: seq<State>, events: seq<Event>, b: nat, f: nat, v: string)
    requires IsDeletion(w, states, events, b, f, v)
    ensures At(states[b], v).home.Some? && At(states[b], v).pv.Some?
    ensures At(states[b], v).pv.value.path == At(states[b], v).home.value.dir
    ensures At(states[f + 1], v).pv.None? && states[f + 1].disk == states[f].disk
    ensures exists node :: CleanedOn(events, b, f, v, node)
  {
    HistoryKeepsInv(w, states, events, b);
    assert IsStep(w, states, events, b) && Sound(w, v, At(states[b], v));
    assert IsStep(w, states, events, f);
    CleanupSucceeded(w, states, events, b, f, v, f);
    var k :| b <= k < f && CleansUp(events[k], v);
    assert CleanedOn(events, b, f, v, events[k].action.host);
  }

  /** A deletion that finishes has removed the volume's tree from every node on which one of
      its cleanup pods succeeded, of which there is one; on nodes where none ran the tree is
      as it was. */
  lemma DeletionCleansWhereItRuns(w: World, states: seq<State>, events: seq<Event>, b: nat, f: nat, v: string)
    requires IsDeletion(w, states, events, b, f, v) && CarefulRun(states, events, f, v)
    ensures At(states[b], v).pv.Some? && At(states[f + 1], v).pv.None?
    ensures exists node :: CleanedOn(events, b, f, v, node)
    ensures CleanedExactly(states, events, b, f, v, At(states[b], v).pv.value.path)
    ensures states[f + 1].disk == states[f].disk
  {
    DeletionFinishes(w, states, events, b, f, v);
    TreesSince(w, states, events, b, f, v);
  }

  /** So a deletion that finishes has removed the volume's tree from the node where the volume
      was made, and nothing of it from any other node, provided that no other node can get a
      cleanup pod when one runs. Nodes may otherwise come, go and change. */
  lemma DeletionRemovesExactlyTheVolume(w: World, states: seq<State>, events: seq<Event>, b: nat, f: nat, v: string)
    requires IsDeletion(w, states, events, b, f, v) && CarefulRun(states, events, f, v)
    requires At(states[b], v).home.Some? && CleanupFindsHome(states, events, b, f, v, At(states[b], v).home.value)
    ensures At(states[f + 1], v).pv.None? && OnlyHomeCleaned(states[b], states[f + 1], At(states[b], v).home.value)
  {
    DeletionFinishes(w, states, events, b, f, v);
    HomeIsCleaned(w, states, events, b, f, v);
  }
}
