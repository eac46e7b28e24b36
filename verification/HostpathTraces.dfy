/** What the methods of the hostpath provisioner say about the stretch of history they add: what
    others do meanwhile, which steps the request takes itself, which of its calls fail, and what
    becomes of helper pods, directories and the PV. */
module HostpathTraces {
  import opened Wrappers
  import opened NodeSelection
  import opened ObjectBuilders
  import opened HostpathMachine
  import opened HostpathCare
  import opened HostpathSafety

  // ---------------------------------------------------------------- what happens meanwhile

  /** What others may do while a request for volume v is in progress: anything to other
      volumes and to nodes, run v's helper pods, and delete them. */
  predicate Foreign(e: Event, v: string) {
    e.On? && e.volume == v ==> e.action.RunPod? || e.action.EvictPod?
  }

  predicate SameRecords(x: VolumeState, y: VolumeState) {
    y.pv == x.pv && y.home == x.home && y.condemned == x.condemned && y.evictions >= x.evictions
  }

  /** Helper pods only go away, and only by being deleted by somebody else. */
  predicate Keeps(x: VolumeState, y: VolumeState) {
    && y.pods.Keys <= x.pods.Keys
    && (y.evictions == x.evictions ==> y.pods.Keys == x.pods.Keys)
  }

  /** What the request relies on: nobody else touches it or the records of its volume, and
      the volume's helper pods only go away by being deleted. */
  predicate Undisturbed(x: VolumeState, y: VolumeState) {
    y.op == x.op && SameRecords(x, y) && Keeps(x, y)
  }

  lemma ForeignUndisturbed(w: World, s: State, e: Event, v: string)
    requires Enabled(w, s, e) && Foreign(e, v)
    ensures Undisturbed(At(s, v), At(Apply(w, s, e), v))
  {
  }

  // ---------------------------------------------------------------- what a request does

  predicate Delimits(a: Action) { a.BeginProvision? || a.BeginDelete? || a.FinishDelete? }

  /** A step that begins no request for v and ends no deletion, does not stop in the middle, and
      if it creates a helper pod, has it built from these labels and taints. */
  predicate Fits(e: Event, v: string, labels: Labels, taints: seq<Taint>) {
    e.On? && e.volume == v ==>
      !Delimits(e.action) && e.action != Abort && (e.action.CreatePod? ==> BuiltFor(e.action.pod, labels, taints))
  }

  ghost predicate AllFit(events: seq<Event>, from: nat, v: string, labels: Labels, taints: seq<Taint>) {
    forall i {:trigger Fits(events[i], v, labels, taints)} | from <= i < |events| :: Fits(events[i], v, labels, taints)
  }

  /** Nor does it create a helper pod. */
  predicate Passive(e: Event, v: string) {
    e.On? && e.volume == v ==> !Delimits(e.action) && e.action != Abort && !e.action.CreatePod?
  }

  ghost predicate AllPassive(events: seq<Event>, from: nat, v: string) {
    forall i {:trigger Passive(events[i], v)} | from <= i < |events| :: Passive(events[i], v)
  }

  ghost predicate AllPassiveBut(events: seq<Event>, from: nat, v: string, e: Event) {
    forall i {:trigger Passive(events[i], v)} | from <= i < |events| :: Passive(events[i], v) || events[i] == e
  }

  lemma Longer<T>(a: seq<T>, b: seq<T>, c: seq<T>)
    requires a <= b <= c
    ensures a <= c
  {
  }

  ghost predicate Happened(events: seq<Event>, from: nat, e: Event) {
    exists i {:trigger events[i]} | from <= i < |events| :: events[i] == e
  }

  lemma ThenThis(before: seq<Event>, from: nat, v: string, e: Event)
    requires from <= |before| && AllPassive(before, from, v)
    ensures AllPassiveBut(before + [e], from, v, e) && Happened(before + [e], from, e)
  {
    assert (before + [e])[|before|] == e;
    forall i {:trigger Passive((before + [e])[i], v)} | from <= i < |before + [e]|
      ensures Passive((before + [e])[i], v) || (before + [e])[i] == e
    {
      assert i < |before| ==> Passive(before[i], v);
    }
  }

  lemma ThenLost(before: seq<Event>, from: nat, v: string, e: Event)
    requires AllPassiveBut(before, from, v, e) && Happened(before, from, e)
    ensures AllPassiveBut(before + [On(v, LoseAnswer)], from, v, e) && Happened(before + [On(v, LoseAnswer)], from, e)
  {
    var after := before + [On(v, LoseAnswer)];
    var j :| from <= j < |before| && before[j] == e;
    assert after[j] == e;
    forall i {:trigger Passive(after[i], v)} | from <= i < |after|
      ensures Passive(after[i], v) || after[i] == e
    {
      assert i < |before| ==> Passive(before[i], v) || before[i] == e;
    }
  }

  lemma OnlyThisPod(events: seq<Event>, from: nat, v: string, pod: Pod, labels: Labels, taints: seq<Taint>)
    requires AllPassiveBut(events, from, v, On(v, CreatePod(pod))) && BuiltFor(pod, labels, taints)
    ensures AllFit(events, from, v, labels, taints)
    ensures Happened(events, from, On(v, CreatePod(pod))) ==> LaunchedWith(events, from, v, pod.command)
  {
    forall i {:trigger events[i]} | from <= i < |events|
      ensures Fits(events[i], v, labels, taints)
    {
      assert Passive(events[i], v) || events[i] == On(v, CreatePod(pod));
    }
  }

  /** Every helper pod created for v from one point on can be scheduled on this node. */
  ghost predicate AllSchedulable(events: seq<Event>, from: nat, v: string, node: Node) {
    forall i {:trigger events[i]} | from <= i < |events| && events[i].On? && events[i].volume == v && events[i].action.CreatePod? ::
      Schedulable(events[i].action.pod, node)
  }

  lemma FitsNode(events: seq<Event>, from: nat, v: string, labels: Labels, node: Node)
    requires AllFit(events, from, v, labels, node.taints) && Carries(node.labels, Wanted(labels))
    ensures AllSchedulable(events, from, v, node)
  {
    forall i {:trigger events[i]} | from <= i < |events| && events[i].On? && events[i].volume == v && events[i].action.CreatePod?
      ensures Schedulable(events[i].action.pod, node)
    {
      assert Fits(events[i], v, labels, node.taints);
      BuiltForNode(events[i].action.pod, labels, node);
    }
  }

  lemma Fitting(events: seq<Event>, events': seq<Event>, from: nat, v: string, labels: Labels, taints: seq<Taint>)
    requires from <= |events| && events <= events' && AllFit(events, from, v, labels, taints)
    requires AllFit(events', |events|, v, labels, taints) || AllPassive(events', |events|, v)
    ensures AllFit(events', from, v, labels, taints)
  {
    forall i {:trigger events'[i]} | from <= i < |events'|
      ensures Fits(events'[i], v, labels, taints)
    {
      if i < |events| {
        assert events'[i] == events[i] && Fits(events[i], v, labels, taints);
      } else {
        assert Fits(events'[i], v, labels, taints) || Passive(events'[i], v);
      }
    }
  }

  /** Among the steps from one point on, a helper pod with this command was created. */
  ghost predicate LaunchedWith(events: seq<Event>, from: nat, v: string, command: Command) {
    exists i {:trigger events[i]} | from <= i < |events| ::
      events[i].On? && events[i].volume == v && events[i].action.CreatePod? && events[i].action.pod.command == command
  }

  lemma StillLaunched(events: seq<Event>, events': seq<Event>, from: nat, from': nat, v: string, command: Command)
    requires LaunchedWith(events, from, v, command) && events <= events' && from' <= from
    ensures LaunchedWith(events', from', v, command)
  {
    var i :| from <= i < |events| && events[i].On? && events[i].volume == v
      && events[i].action.CreatePod? && events[i].action.pod.command == command;
    assert events'[i] == events[i];
  }

  /** Among the steps from one point on, the pod was read and had succeeded. */
  ghost predicate SeenSucceeded(states: seq<State>, events: seq<Event>, from: nat, v: string, kind: Kind) {
    |states| > |events| && exists i {:trigger events[i]} | from <= i < |events| ::
      && events[i] == On(v, ReadPod(true))
      && kind in At(states[i], v).pods
      && At(states[i], v).pods[kind].phase.Ended? && At(states[i], v).pods[kind].phase.ok
  }

  lemma SeenSince(states: seq<State>, events: seq<Event>, from: nat, from': nat, v: string, kind: Kind)
    requires from' <= from
    ensures SeenSucceeded(states, events, from, v, kind) ==> SeenSucceeded(states, events, from', v, kind)
  {
  }

  lemma StillSeen(states: seq<State>, events: seq<Event>, states': seq<State>, events': seq<Event>, from: nat, v: string, kind: Kind)
    requires SeenSucceeded(states, events, from, v, kind)
    requires states <= states' && events <= events' && |states'| > |events'|
    ensures SeenSucceeded(states', events', from, v, kind)
  {
    var i :| from <= i < |events| && events[i] == On(v, ReadPod(true))
      && kind in At(states[i], v).pods
      && At(states[i], v).pods[kind].phase.Ended? && At(states[i], v).pods[kind].phase.ok;
    assert events'[i] == events[i] && states'[i] == states[i];
  }

  /** What holds of the steps of a launch holds of those of the launch and the wait. */
  lemma LaunchedThenSeen(states: seq<State>, launched: seq<Event>, events: seq<Event>, from: nat, v: string, command: Command,
                         labels: Labels, taints: seq<Taint>)
    requires from <= |launched| && launched <= events && |states| > |events|
    requires LaunchedWith(launched, from, v, command) && AllFit(launched, from, v, labels, taints)
    requires AllPassive(events, |launched|, v)
    ensures LaunchedWith(events, from, v, command) && AllFit(events, from, v, labels, taints)
    ensures forall kind :: SeenSucceeded(states, events, |launched|, v, kind) ==> SeenSucceeded(states, events, from, v, kind)
  {
    StillLaunched(launched, events, from, from, v, command);
    Fitting(launched, events, from, v, labels, taints);
    forall kind
      ensures SeenSucceeded(states, events, |launched|, v, kind) ==> SeenSucceeded(states, events, from, v, kind)
    {
      SeenSince(states, events, |launched|, from, v, kind);
    }
  }

  // ---------------------------------------------------------------- what goes wrong

  /** A call fails and leaves a helper pod; or a call fails at all, or a helper pod is not seen
      to succeed in time. */
  datatype Mishap = PodLeft | CallFailed

  predicate Is(m: Mishap, a: Action) {
    || Strands(a)
    || (m.CallFailed? && (a == NoAnswer || a == ReadPod(false) || a == Timeout))
  }

  /** From one point on no such thing happened to v. */
  ghost predicate Free(events: seq<Event>, from: nat, v: string, m: Mishap) {
    forall i {:trigger events[i]} | from <= i < |events| && events[i].On? && events[i].volume == v :: !Is(m, events[i].action)
  }

  /** Nothing went wrong, and nobody else deleted a helper pod. */
  ghost predicate Calm(events: seq<Event>, from: nat, v: string, x: VolumeState, y: VolumeState) {
    Free(events, from, v, CallFailed) && y.evictions == x.evictions
  }

  lemma FreeParts(events: seq<Event>, events': seq<Event>, from: nat, later: nat, v: string, m: Mishap)
    requires events <= events' && from <= later && Free(events', from, v, m)
    ensures Free(events, from, v, m) && Free(events', later, v, m)
  {
    assert forall i {:trigger events[i]} | 0 <= i < |events| :: events'[i] == events[i];
  }

  lemma AllParts(events: seq<Event>, events': seq<Event>, from: nat, later: nat, v: string)
    requires events <= events' && from <= later
    ensures forall m | Free(events', from, v, m) :: Free(events, from, v, m) && Free(events', later, v, m)
  {
    forall m | Free(events', from, v, m)
      ensures Free(events, from, v, m) && Free(events', later, v, m)
    {
      FreeParts(events, events', from, later, v, m);
    }
  }

  lemma Fails(events: seq<Event>, from: nat, v: string, i: nat)
    requires from <= i < |events| && events[i].On? && events[i].volume == v && Is(CallFailed, events[i].action)
    ensures !Free(events, from, v, CallFailed)
  {
  }

  // ---------------------------------------------------------------- helper pods come and go

  /** The pod the request has to do next was created, and the request waits for it. */
  predicate Launched(x: VolumeState, y: VolumeState)
    requires x.op.Some? && x.op.value.todo != []
  {
    var kind := x.op.value.todo[0];
    && y.op == Some(x.op.value.(stage := Polling(0))) && SameRecords(x, y)
    && kind in y.pods && y.pods.Keys <= x.pods.Keys + {kind}
    && (y.evictions == x.evictions ==> kind !in x.pods && y.pods.Keys == x.pods.Keys + {kind})
  }

  /** The pod the request has to do next was created. */
  predicate Appeared(x: VolumeState, y: VolumeState)
    requires x.op.Some? && x.op.value.todo != []
  {
    var kind := x.op.value.todo[0];
    SameRecords(x, y) && y.evictions == x.evictions && kind !in x.pods && y.pods.Keys == x.pods.Keys + {kind}
  }

  lemma LaunchedAfter(x: VolumeState, y: VolumeState, z: VolumeState)
    requires x.op.Some? && x.op.value.todo != [] && Undisturbed(x, y) && Appeared(y, z)
    ensures z.op == Some(x.op.value.(stage := Polling(0))) ==> Launched(x, z)
    ensures SameRecords(x, z) && PodsConserved(x, z, x.op.value.todo[0], false)
  {
  }

  /** One helper pod has been gone through, well or not: the request goes on to the next one
      or is over. A failed delete call leaves the pod behind. */
  predicate GoneThrough(x: VolumeState, y: VolumeState, ok: bool)
    requires x.op.Some? && x.op.value.todo != []
  {
    var op := x.op.value;
    && SameRecords(x, y)
    && (y.op.Some? <==> ok)
    && (ok ==>
          && y.op == Some(op.(todo := op.todo[1..], stage := Ready, home := y.op.value.home))
          && (if op.todo[0] == Init then y.op.value.home.Some? else y.op.value.home == op.home))
  }

  /** Afterwards there are the helper pods there were before: none more, except for one of this
      kind unless free says that none was left; and none less, unless somebody else deleted
      one. */
  predicate PodsConserved(x: VolumeState, y: VolumeState, kind: Kind, free: bool) {
    && y.pods.Keys <= x.pods.Keys + {kind}
    && (free ==> y.pods.Keys <= x.pods.Keys)
    && (y.evictions == x.evictions ==> x.pods.Keys <= y.pods.Keys)
  }

  lemma LaunchedAndLeft(x: VolumeState, y: VolumeState, z: VolumeState, ok: bool, free: bool)
    requires x.op.Some? && x.op.value.todo != [] && Launched(x, y) && GoneThrough(y, z, ok)
    requires z.pods.Keys <= y.pods.Keys && (free ==> x.op.value.todo[0] !in z.pods)
    requires z.evictions == y.evictions ==> y.pods.Keys - {x.op.value.todo[0]} <= z.pods.Keys
    ensures GoneThrough(x, z, ok) && PodsConserved(x, z, x.op.value.todo[0], free)
  {
  }

  /** Over a whole request: the volume has the helper pods it had before, unless a failed call
      left one or somebody else deleted one. */
  ghost predicate AllConserved(events: seq<Event>, from: nat, v: string, x: VolumeState, y: VolumeState) {
    && (Free(events, from, v, PodLeft) ==> y.pods.Keys <= x.pods.Keys)
    && (y.evictions == x.evictions ==> x.pods.Keys <= y.pods.Keys)
  }

  /** From one point on the provisioner was not stopped in a request for v. */
  ghost predicate NeverStopped(events: seq<Event>, from: nat, v: string) {
    forall i {:trigger events[i]} | from <= i < |events| :: events[i] != On(v, Abort)
  }

  lemma FitsNeverStops(events: seq<Event>, from: nat, v: string, labels: Labels, taints: seq<Taint>)
    requires AllFit(events, from, v, labels, taints)
    ensures NeverStopped(events, from, v)
  {
    forall i {:trigger events[i]} | from <= i < |events|
      ensures events[i] != On(v, Abort)
    {
      assert Fits(events[i], v, labels, taints);
    }
  }

  lemma PassiveNeverStops(events: seq<Event>, from: nat, v: string)
    requires AllPassive(events, from, v)
    ensures NeverStopped(events, from, v) && !Happened(events, from, On(v, BeginDelete))
  {
    forall i {:trigger events[i]} | from <= i < |events|
      ensures events[i] != On(v, Abort) && events[i] != On(v, BeginDelete)
    {
      assert Passive(events[i], v);
    }
  }

  /** A request that was not stopped, from its beginning to its end, conserves helper pods. */
  lemma RequestConserves(w: World, states: seq<State>, events: seq<Event>, from: nat, v: string)
    requires IsHistory(w, states, events) && from <= |events| && NeverStopped(events, from, v)
    requires At(states[from], v).op.None? && At(states[|events|], v).op.None?
    ensures AllConserved(events, from, v, At(states[from], v), At(states[|events|], v))
  {
    HelperPodsConserved(w, states, events, from, |events|, v);
    if Free(events, from, v, PodLeft) {
      assert NoneLeft(states, events, from, |events|, v);
    }
  }

  // ---------------------------------------------------------------- a volume is delivered

  /** What holds of the first part of an attempt and of the rest. */
  lemma SinceMade(made: seq<Event>, events: seq<Event>, b: nat, v: string, labels: Labels, taints: seq<Taint>)
    requires b < |made| && made <= events && AllFit(made, b + 1, v, labels, taints)
    requires AllFit(events, |made|, v, labels, taints) || AllPassive(events, |made|, v)
    ensures events[b] == made[b] && AllFit(events, b + 1, v, labels, taints)
    ensures forall m | Free(events, b, v, m) :: Free(made, b, v, m) && Free(events, |made|, v, m)
  {
    Fitting(made, events, b + 1, v, labels, taints);
    AllParts(made, events, b, |made|, v);
  }

  /** Whenever an init pod of v runs that the request waits for, from one point on, no node but
      this one can get it: none that is selected and whose taints are tolerated. */
  ghost predicate InitFindsOnly(states: seq<State>, events: seq<Event>, from: nat, v: string, affinity: NodeSelector,
                                tolerations: seq<Toleration>, node: string)
    requires |states| == |events| + 1
  {
    forall i {:trigger events[i]} | from <= i < |events| && events[i].On? && events[i].volume == v
        && events[i].action.RunPod? && events[i].action.kind == Init && Current(At(states[i], v), Init) ::
      forall n | n in states[i].nodes && Selects(affinity, states[i].nodes[n].labels) && Admits(tolerations, states[i].nodes[n].taints) ::
        n == node
  }

  /** What a caller may rely on about a PV that was handed out: it is live, its affinity selects
      the node it was made for; in a careful run its directory is there, on a node its affinity
      selects; and that node is the given one if no other could get the init pod. */
  ghost predicate Delivered(states: seq<State>, events: seq<Event>, from: nat, s: State, v: string, pv: Volume,
                            taints: seq<Taint>, node: string)
    requires |states| == |events| + 1
  {
    && At(s, v).pv == Some(pv) && Live(s, v) && At(s, v).home.Some? && pv.path == At(s, v).home.value.dir
    && Selects(pv.affinity, At(s, v).home.value.labels)
    && (CarefulRun(states, events, |events|, v) ==> OnDisk(s, At(s, v).home.value.node, pv.path))
    && (InitFindsOnly(states, events, from, v, pv.affinity, TolerationsFor(taints), node) ==> At(s, v).home.value.node == node)
  }

  /** The pods of an attempt can be scheduled on the selected node. */
  lemma AttemptFits(events: seq<Event>, b: nat, v: string, labels: Labels, selected: Node)
    requires b < |events| && events[b].On? && events[b].action.BeginProvision?
    requires AllFit(events, b + 1, v, labels, selected.taints) && Carries(selected.labels, Wanted(labels))
    ensures AllSchedulable(events, b, v, selected) && NeverStopped(events, b, v)
  {
    FitsNode(events, b + 1, v, labels, selected);
    FitsNeverStops(events, b + 1, v, labels, selected.taints);
  }

  lemma MadeOnTheOnlyNode(w: World, states: seq<State>, events: seq<Event>, b: nat, v: string, taints: seq<Taint>,
                          affinity: NodeSelector, node: string)
    requires IsHistory(w, states, events) && b < |events|
    requires events[b].On? && events[b].volume == v && events[b].action.BeginProvision?
    requires AllFit(events, b + 1, v, events[b].action.labels, taints) && Encodes(affinity, events[b].action.labels)
    requires InitFindsOnly(states, events, b, v, affinity, TolerationsFor(taints), node)
    ensures At(states[|events|], v).home.Some? ==> At(states[|events|], v).home.value.node == node
  {
    var labels := events[b].action.labels;
    forall j {:trigger events[j]} | b < j < |events| && events[j].On? && events[j].volume == v
      ensures !events[j].action.BeginProvision?
      ensures events[j].action.CreatePod? ==> events[j].action.pod.tolerations == TolerationsFor(taints)
      ensures events[j].action.RunPod? && events[j].action.kind == Init && Current(At(states[j], v), Init) ==>
        OnlyAmong(states[j], labels, TolerationsFor(taints), {node})
    {
      assert Fits(events[j], v, labels, taints);
      forall n | n in states[j].nodes && Carries(states[j].nodes[n].labels, Wanted(labels))
        ensures Selects(affinity, states[j].nodes[n].labels)
      {
        EncodingSelects(affinity, labels, states[j].nodes[n].labels);
      }
    }
    DirectoryIsOnAFitNode(w, states, events, b, |events|, v, TolerationsFor(taints), {node});
  }

  lemma PVIsDelivered(w: World, states: seq<State>, events: seq<Event>, b: nat, v: string, taints: seq<Taint>, pv: Volume, node: string)
    requires IsHistory(w, states, events) && b < |events|
    requires events[b].On? && events[b].volume == v && events[b].action.BeginProvision?
    requires AllFit(events, b + 1, v, events[b].action.labels, taints)
    requires At(states[|events|], v).pv == Some(pv) && !At(states[|events|], v).condemned
    requires Encodes(pv.affinity, events[b].action.labels)
    ensures Delivered(states, events, b, states[|events|], v, pv, taints, node)
  {
    var s := states[|events|];
    HistoryKeepsInv(w, states, events, |events|);
    assert Sound(w, v, At(s, v));
    var home := At(s, v).home.value;
    EncodingSelects(pv.affinity, home.wanted, home.labels);
    if CarefulRun(states, events, |events|, v) {
      LiveVolumesHaveTheirDirectory(w, states, events, |events|, v);
    }
    if InitFindsOnly(states, events, b, v, pv.affinity, TolerationsFor(taints), node) {
      MadeOnTheOnlyNode(w, states, events, b, v, taints, pv.affinity, node);
    }
  }

  // ---------------------------------------------------------------- a volume is deleted

  /** A PV names a path and some labels. */
  lemma PVCanBeFound(w: World, states: seq<State>, events: seq<Event>, v: string)
    requires IsHistory(w, states, events) && At(states[|events|], v).pv.Some?
    ensures var pv := At(states[|events|], v).pv.value;
      pv.path != [] && Decode(Flatten(pv.affinity.terms)) == Some(LabelsOf(pv)) && LabelsOf(pv) != map[]
  {
    HistoryKeepsInv(w, states, events, |events|);
    var x := At(states[|events|], v);
    assert Sound(w, v, x);
    AffinityRoundTrip(x.pv.value.affinity, x.home.value.wanted);
  }

  lemma NeverStoppedSince(looked: seq<Event>, events: seq<Event>, from: nat, v: string)
    requires from <= |looked| && looked <= events && AllPassive(looked, from, v) && NeverStopped(events, |looked|, v)
    ensures NeverStopped(events, from, v)
  {
    forall i {:trigger events[i]} | from <= i < |events|
      ensures events[i] != On(v, Abort)
    {
      assert i < |looked| ==> events[i] == looked[i] && Passive(looked[i], v);
    }
  }

  /** What holds of the steps after a lookup, for those from before it on. */
  lemma AfterLookup(w: World, states: seq<State>, looked: seq<Event>, events: seq<Event>, from: nat, v: string)
    requires IsHistory(w, states, events) && from <= |looked| && looked <= events && AllPassive(looked, from, v)
    requires NeverStopped(events, |looked|, v) && Happened(events, |looked|, On(v, BeginDelete))
    requires At(states[from], v).pv.Some? && At(states[from], v).op.None? && At(states[|events|], v).op.None?
    ensures NeverStopped(events, from, v) && Happened(events, from, On(v, BeginDelete))
    ensures AllConserved(events, from, v, At(states[from], v), At(states[|events|], v))
    ensures Free(events, from, v, CallFailed) ==> Free(events, |looked|, v, CallFailed)
    ensures SeenSucceeded(states, events, |looked|, v, Cleanup) ==> SeenSucceeded(states, events, from, v, Cleanup)
    ensures DeletedSince(w, states, events, |looked|, v) ==>
      DeletedSince(w, states, events, from, v) && Removed(states, events, from, |events|, v)
  {
    NeverStoppedSince(looked, events, from, v);
    RequestConserves(w, states, events, from, v);
    SeenSince(states, events, |looked|, from, v, Cleanup);
    AllParts(looked, events, from, |looked|, v);
    if DeletedSince(w, states, events, |looked|, v) {
      LaterDeleted(w, states, events, from, |looked|, v);
      DeletedIsCleaned(w, states, events, from, v);
    }
  }

  /** The last step finished a deletion that began no earlier than at one point. */
  ghost predicate DeletedSince(w: World, states: seq<State>, events: seq<Event>, from: nat, v: string) {
    |events| > 0 && exists b {:trigger IsDeletion(w, states, events, b, |events| - 1, v)} | from <= b < |events| ::
      IsDeletion(w, states, events, b, |events| - 1, v)
  }

  lemma LaterDeleted(w: World, states: seq<State>, events: seq<Event>, from: nat, later: nat, v: string)
    requires from <= later && DeletedSince(w, states, events, later, v)
    ensures DeletedSince(w, states, events, from, v)
  {
  }

  lemma DeletionIs(w: World, states: seq<State>, cleaned: seq<Event>, events: seq<Event>, b: nat, v: string,
                   labels: Labels, taints: seq<Taint>)
    requires IsHistory(w, states, events) && events == cleaned + [On(v, FinishDelete)]
    requires b < |cleaned| && cleaned[b] == On(v, BeginDelete) && AllFit(cleaned, b + 1, v, labels, taints)
    ensures DeletedSince(w, states, events, b, v)
  {
    forall i | b < i < |cleaned|
      ensures events[i] != On(v, BeginDelete) && events[i] != On(v, FinishDelete)
    {
      assert Fits(cleaned[i], v, labels, taints);
    }
    assert IsDeletion(w, states, events, b, |events| - 1, v);
  }

  /** What a deletion since one point means in a careful run: the tree of the PV's path is gone
      from every node where a cleanup pod succeeded and as it was where none ran; and if no node
      but home can get one when it runs, gone from home and as it was elsewhere. */
  ghost predicate Removed(states: seq<State>, events: seq<Event>, from: nat, i: nat, v: string)
    requires from <= i < |states| == |events| + 1
  {
    var x := At(states[from], v);
    && x.home.Some? && x.pv.Some? && x.home.value.dir == x.pv.value.path
    && (CarefulRun(states, events, i, v) ==>
          && CleanedExactly(states, events, from, i, v, x.pv.value.path)
          && (CleanupFindsHome(states, events, from, i, v, x.home.value) ==> OnlyHomeCleaned(states[from], states[i], x.home.value)))
  }

  lemma PathIsHome(w: World, states: seq<State>, events: seq<Event>, i: nat, v: string)
    requires IsHistory(w, states, events) && i < |states| && At(states[i], v).pv.Some?
    ensures At(states[i], v).home.Some? && At(states[i], v).home.value.dir == At(states[i], v).pv.value.path
  {
    HistoryKeepsInv(w, states, events, i);
    assert Sound(w, v, At(states[i], v));
  }

  lemma DeletedHasCleaned(w: World, states: seq<State>, events: seq<Event>, from: nat, v: string)
    requires |states| == |events| + 1 && from <= |events| && DeletedSince(w, states, events, from, v) && At(states[from], v).pv.Some?
    ensures At(states[from], v).home.Some? && At(states[from], v).home.value.dir == At(states[from], v).pv.value.path
    ensures exists node :: CleanedOn(events, from, |events|, v, node)
  {
    var b :| from <= b < |events| && IsDeletion(w, states, events, b, |events| - 1, v);
    PathIsHome(w, states, events, from, v);
    DeletionFinishes(w, states, events, b, |events| - 1, v);
    var node :| CleanedOn(events, b, |events| - 1, v, node);
    CleanedWithin(events, b, |events| - 1, from, |events|, v, node);
  }

  lemma CleanedWithin(events: seq<Event>, b: nat, i: nat, from: nat, to: nat, v: string, node: string)
    requires from <= b && i <= to <= |events| && CleanedOn(events, b, i, v, node)
    ensures CleanedOn(events, from, to, v, node)
  {
  }

  lemma DeletedIsCleaned(w: World, states: seq<State>, events: seq<Event>, from: nat, v: string)
    requires |states| == |events| + 1 && from <= |events| && DeletedSince(w, states, events, from, v)
    requires At(states[from], v).pv.Some?
    ensures Removed(states, events, from, |events|, v)
  {
    DeletedHasCleaned(w, states, events, from, v);
    if CarefulRun(states, events, |events|, v) {
      TreesSince(w, states, events, from, |events|, v);
      if CleanupFindsHome(states, events, from, |events|, v, At(states[from], v).home.value) {
        HomeIsCleaned(w, states, events, from, |events|, v);
      }
    }
  }
}
