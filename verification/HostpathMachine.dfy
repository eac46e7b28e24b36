/** The life of hostpath volumes as a state machine: what the provisioner, the kubelet
    and everybody else do to nodes, directories, helper pods and PersistentVolumes, one
    API call or one kubelet action at a time, in any interleaving over all volumes.

    A path is the sequence of its components, so a slash-free volume name is exactly one
    component. The provisioner works on at most one request per volume at a time; that
    request is recorded together with what it has still to do. */
module HostpathMachine {
  import opened Wrappers
  import opened NodeSelection

  type Path = seq<string>

  /** The base paths that configurations may name; retries is CmdTimeoutCounts. */
  datatype World = World(bases: set<Path>, retries: nat)

  /** A helper pod is named after its purpose and its volume. */
  datatype Kind = Init | Quota | Cleanup

  datatype Phase = Waiting | Ended(ok: bool, node: string, labels: Labels)

  datatype Command = MakeDir | RemoveDir | SetQuota(soft: string, hard: string)

  /** A helper pod mounts the directory mount and works on mount/dir. */
  datatype Pod = Pod(command: Command, mount: Path, dir: string,
                     affinity: NodeSelector, tolerations: seq<Toleration>, phase: Phase)

  datatype Node = Node(labels: Labels, taints: seq<Taint>)

  /** Where a volume's directory was made: the node, the directory, the labels the node had
      at that moment, and the labels that were asked for. */
  datatype Home = Home(node: string, dir: Path, labels: Labels, wanted: Labels)

  datatype Goal = Provisioning | Deleting

  datatype Stage = Ready | Polling(polls: nat) | Leaving(ok: bool)

  /** A request in progress: the directory it is about and the number of quota pods its
      configuration asks for, which may differ from one attempt to the next; the helper pods
      still to go through, and where it is with the first of them. */
  datatype Op = Op(goal: Goal, labels: Labels, dir: Path, quotas: nat, todo: seq<Kind>, stage: Stage, home: Option<Home>)

  datatype Volume = Volume(path: Path, affinity: NodeSelector, retain: bool)

  /** All that carries one volume's name. The last four are history: where the volume
      was made when it was handed out, whether a deletion got as far as a cleanup pod, which of
      the helper pods were left behind by a failed delete call or an interrupted request, and
      how many were deleted by somebody else. */
  datatype VolumeState = VolumeState(
    pods: map<Kind, Pod>,
    pv: Option<Volume>,
    op: Option<Op>,
    home: Option<Home>,
    condemned: bool,
    leaked: set<Kind>,
    evictions: nat)

  const Unused := VolumeState(map[], None, None, None, false, {}, 0)

  datatype State = State(
    nodes: map<string, Node>,
    disk: map<string, set<Path>>,
    volumes: map<string, VolumeState>)

  const Start := State(map[], map[], map[])

  datatype Action =
    // the provisioner
    | BeginProvision(labels: Labels, base: Path, quotas: nat)
    | CreatePod(pod: Pod)
    | ReadPod(reachable: bool)
    | Timeout
    | LeavePod(deleted: bool)
    | HandOut(affinity: NodeSelector, retain: bool)
    | BeginDelete
    | FinishDelete
    // the request fails between two helper pods
    | Fail
    // a call gets no answer: that for creating a pod, though it took effect; or any other
    | LoseAnswer
    | NoAnswer
    // the provisioner is stopped
    | Abort
    // the kubelet, and whoever else may delete a pod
    | RunPod(kind: Kind, host: string, ok: bool, after: set<Path>)
    | EvictPod(kind: Kind)

  datatype Event =
    | On(volume: string, action: Action)
    | SetNode(name: string, node: Node)
    | RemoveNode(name: string)

  function At(s: State, v: string): VolumeState {
    if v in s.volumes then s.volumes[v] else Unused
  }

  /** The name of a helper pod. Pods share one namespace, so a state may keep them by
      purpose and volume only because these names never collide. */
  function PodName(kind: Kind, volume: string): string {
    (match kind case Init => "init-" case Quota => "quota-" case Cleanup => "cleanup-") + volume
  }

  lemma PodNamesDistinct(kind: Kind, v: string, kind': Kind, v': string)
    requires PodName(kind, v) == PodName(kind', v')
    ensures kind == kind' && v == v'
  {
    var name, name' := PodName(kind, v), PodName(kind', v');
    assert name[0] == (match kind case Init => 'i' case Quota => 'q' case Cleanup => 'c');
    assert name'[0] == (match kind' case Init => 'i' case Quota => 'q' case Cleanup => 'c');
    var n := match kind case Init => 5 case Quota => 6 case Cleanup => 8;
    assert v == name[n..] && v' == name'[n..];
  }

  // ---------------------------------------------------------------- directories

  /** A directory of a volume: it has the volume's name and lies in a base path. */
  predicate IsDirOf(w: World, dir: Path, v: string) {
    dir != [] && dir[|dir| - 1] == v && dir[..|dir| - 1] in w.bases
  }

  /** No base path lies inside a volume directory. */
  ghost predicate Disjoint(w: World) {
    forall dir, v, base | IsDirOf(w, dir, v) && base in w.bases :: !(dir <= base)
  }

  function DiskOf(s: State, node: string): set<Path> {
    if node in s.disk then s.disk[node] else {}
  }

  /** What rm -rf of a directory leaves. */
  function WithoutTree(dirs: set<Path>, top: Path): set<Path> {
    set p | p in dirs && !(top <= p)
  }

  function Target(pod: Pod): Path {
    pod.mount + [pod.dir]
  }

  /** What running a helper pod's command may do to the directories of the node. A failed
      mkdir may or may not have made the directory, a failed rm may have removed any part
      of the tree, and the quota command removes the directory on a filesystem without
      project quotas and fails. */
  predicate Effect(pod: Pod, ok: bool, before: set<Path>, after: set<Path>) {
    match pod.command
    case MakeDir => after == before + {Target(pod)} || (!ok && after == before)
    case RemoveDir =>
      if ok then after == WithoutTree(before, Target(pod))
      else WithoutTree(before, Target(pod)) <= after <= before
    case SetQuota(_, _) => after == before || (!ok && after == WithoutTree(before, Target(pod)))
  }

  /** The taints that keep pods away are tolerated. */
  predicate Admits(tolerations: seq<Toleration>, taints: seq<Taint>) {
    forall i | 0 <= i < |taints| && taints[i].effect in ["NoSchedule", "NoExecute"] :: Tolerated(tolerations, taints[i])
  }

  predicate Schedulable(pod: Pod, node: Node) {
    Selects(pod.affinity, node.labels) && Admits(pod.tolerations, node.taints)
  }

  // ---------------------------------------------------------------- steps

  predicate CommandFits(kind: Kind, command: Command) {
    match kind
    case Init => command == MakeDir
    case Quota => command.SetQuota?
    case Cleanup => command == RemoveDir
  }

  function QuotaPods(n: nat): (r: seq<Kind>)
    ensures |r| == n && forall i | 0 <= i < n :: r[i] == Quota
  {
    seq(n, _ => Quota)
  }

  /** The helper pods of a provisioning request. */
  function Plan(quotas: nat): seq<Kind> {
    [Init] + QuotaPods(quotas)
  }

  /** The nodes a delete request finds with the labels read back from the volume. */
  function Matching(s: State, wanted: Labels): set<string> {
    set n | n in s.nodes && Carries(s.nodes[n].labels, wanted)
  }

  function LabelsOf(v: Volume): Labels {
    match Decode(Flatten(v.affinity.terms))
    case None => map[]
    case Some(m) => m
  }

  predicate Failed(phase: Phase) {
    phase.Ended? && !phase.ok
  }

  predicate CanCreate(x: VolumeState, pod: Pod) {
    && x.op.Some? && x.op.value.stage.Ready? && x.op.value.todo != []
    && x.op.value.todo[0] !in x.pods
    && pod.phase.Waiting? && Target(pod) == x.op.value.dir
    && CommandFits(x.op.value.todo[0], pod.command)
    && Encodes(pod.affinity, x.op.value.labels)
  }

  predicate CanHandOut(x: VolumeState, affinity: NodeSelector) {
    && x.op.Some? && x.op.value.goal.Provisioning? && x.op.value.stage.Ready? && x.op.value.todo == []
    && x.op.value.home.Some?
    && Encodes(affinity, x.op.value.labels)
  }

  predicate CanDelete(s: State, x: VolumeState) {
    && x.pv.Some? && x.op.None? && !x.pv.value.retain
    && LabelsOf(x.pv.value) != map[]
    && |Matching(s, LabelsOf(x.pv.value))| == 1
  }

  predicate CanRun(s: State, x: VolumeState, kind: Kind, host: string, ok: bool, after: set<Path>) {
    && kind in x.pods && x.pods[kind].phase.Waiting?
    && host in s.nodes && Schedulable(x.pods[kind], s.nodes[host])
    && Effect(x.pods[kind], ok, DiskOf(s, host), after)
  }

  predicate Possible(w: World, s: State, v: string, x: VolumeState, a: Action) {
    match a
    case BeginProvision(_, base, _) =>
      // the name of a volume is not used again once it was handed out
      base in w.bases && x.op.None? && x.home.None?
    case CreatePod(pod) => CanCreate(x, pod)
    case ReadPod(_) =>
      x.op.Some? && x.op.value.stage.Polling? && x.op.value.todo != [] && x.op.value.stage.polls < w.retries
    case Timeout =>
      x.op.Some? && x.op.value.stage.Polling? && x.op.value.stage.polls == w.retries
    case LeavePod(_) => x.op.Some? && x.op.value.stage.Leaving? && x.op.value.todo != []
    case HandOut(affinity, _) => CanHandOut(x, affinity)
    case BeginDelete => CanDelete(s, x)
    case FinishDelete =>
      x.op.Some? && x.op.value.goal.Deleting? && x.op.value.stage.Ready? && x.op.value.todo == []
    case Fail => x.op.Some? && x.op.value.stage.Ready?
    case LoseAnswer => x.op.Some? && x.op.value.stage == Polling(0) && x.op.value.todo != []
    case NoAnswer => true
    case Abort => x.op.Some?
    case RunPod(kind, host, ok, after) => CanRun(s, x, kind, host, ok, after)
    case EvictPod(kind) => kind in x.pods
  }

  /** One status read of exitPod: an error or a missing pod ends the wait, a succeeded pod
      ends it well, and any other phase, failure included, is polled again. */
  function AfterRead(x: VolumeState, op: Op, reachable: bool): VolumeState
    requires op.todo != [] && op.stage.Polling?
  {
    var kind := op.todo[0];
    if !reachable || kind !in x.pods then
      x.(op := Some(op.(stage := Leaving(false))))
    else if x.pods[kind].phase.Ended? && x.pods[kind].phase.ok then
      var home :=
        if kind == Init then Some(Home(x.pods[kind].phase.node, op.dir, x.pods[kind].phase.labels, Wanted(op.labels)))
        else op.home;
      x.(op := Some(op.(stage := Leaving(true), home := home)))
    else
      x.(op := Some(op.(stage := Polling(op.stage.polls + 1))))
  }

  function AfterLeave(x: VolumeState, op: Op, deleted: bool): VolumeState
    requires op.todo != [] && op.stage.Leaving?
  {
    var kind := op.todo[0];
    x.(pods := if deleted then x.pods - {kind} else x.pods,
       leaked := if deleted || kind !in x.pods then x.leaked else x.leaked + {kind},
       op := if op.stage.ok then Some(op.(todo := op.todo[1..], stage := Ready)) else None)
  }

  /** A request that stops where it is leaves the helper pod it is busy with behind. */
  function Stopped(x: VolumeState, op: Op): VolumeState {
    x.(op := None,
       leaked := if op.stage.Ready? || op.todo == [] || op.todo[0] !in x.pods then x.leaked else x.leaked + {op.todo[0]})
  }

  function Next(w: World, s: State, v: string, x: VolumeState, a: Action): VolumeState
    requires Possible(w, s, v, x, a)
  {
    match a
    case BeginProvision(labels, base, quotas) =>
      x.(op := Some(Op(Provisioning, labels, base + [v], quotas, Plan(quotas), Ready, None)))
    case CreatePod(pod) =>
      x.(pods := x.pods[x.op.value.todo[0] := pod], op := Some(x.op.value.(stage := Polling(0))))
    case ReadPod(reachable) => AfterRead(x, x.op.value, reachable)
    case Timeout => x.(op := Some(x.op.value.(stage := Leaving(false))))
    case LeavePod(deleted) => AfterLeave(x, x.op.value, deleted)
    case HandOut(affinity, retain) =>
      x.(pv := Some(Volume(x.op.value.dir, affinity, retain)), home := x.op.value.home, op := None)
    case BeginDelete =>
      x.(op := Some(Op(Deleting, LabelsOf(x.pv.value), x.pv.value.path, 0, [Cleanup], Ready, None)), condemned := true)
    case FinishDelete => x.(pv := None, op := None)
    case Fail => x.(op := None)
    case LoseAnswer => Stopped(x, x.op.value)
    case NoAnswer => x
    case Abort => Stopped(x, x.op.value)
    case RunPod(kind, host, ok, _) =>
      x.(pods := x.pods[kind := x.pods[kind].(phase := Ended(ok, host, s.nodes[host].labels))])
    case EvictPod(kind) => x.(pods := x.pods - {kind}, leaked := x.leaked - {kind}, evictions := x.evictions + 1)
  }

  predicate Enabled(w: World, s: State, e: Event) {
    e.On? ==> Possible(w, s, e.volume, At(s, e.volume), e.action)
  }

  function Apply(w: World, s: State, e: Event): State
    requires Enabled(w, s, e)
  {
    match e
    case On(v, a) =>
      s.(volumes := s.volumes[v := Next(w, s, v, At(s, v), a)],
         disk := if a.RunPod? then s.disk[a.host := a.after] else s.disk)
    case SetNode(name, node) => s.(nodes := s.nodes[name := node])
    case RemoveNode(name) => s.(nodes := s.nodes - {name})
  }

  /** A run: states and the events between them. */
  ghost predicate IsRun(w: World, states: seq<State>, events: seq<Event>) {
    && |states| == |events| + 1
    && forall i {:trigger IsStep(w, states, events, i)} | 0 <= i < |events| :: IsStep(w, states, events, i)
  }

  ghost predicate IsStep(w: World, states: seq<State>, events: seq<Event>, i: nat)
    requires i < |events| < |states|
  {
    Enabled(w, states[i], events[i]) && states[i + 1] == Apply(w, states[i], events[i])
  }

  lemma RunExtends(w: World, states: seq<State>, events: seq<Event>, e: Event)
    requires IsRun(w, states, events) && Enabled(w, states[|events|], e)
    ensures IsRun(w, states + [Apply(w, states[|events|], e)], events + [e])
  {
    var states', events' := states + [Apply(w, states[|events|], e)], events + [e];
    forall i {:trigger IsStep(w, states', events', i)} | 0 <= i < |events'|
      ensures IsStep(w, states', events', i)
    {
      assert i < |events| ==> IsStep(w, states, events, i);
    }
  }

  // ---------------------------------------------------------------- invariant

  predicate OnDisk(s: State, node: string, p: Path) {
    p in DiskOf(s, node)
  }

  /** The helper pod a request is busy with. */
  predicate Current(x: VolumeState, kind: Kind) {
    x.op.Some? && !x.op.value.stage.Ready? && x.op.value.todo != [] && x.op.value.todo[0] == kind
  }

  predicate StillToRun(x: VolumeState, kind: Kind) {
    kind in x.pods && x.pods[kind].phase.Waiting?
  }

  predicate PlanTail(todo: seq<Kind>, quotas: nat) {
    todo == Plan(quotas) || (|todo| <= quotas && forall i | 0 <= i < |todo| :: todo[i] == Quota)
  }

  /** Every helper pod is what its name says, and is either the one its volume's request
      is busy with or one that was left behind, and never both. */
  ghost predicate PodSound(w: World, v: string, x: VolumeState, kind: Kind)
    requires kind in x.pods
  {
    var pod := x.pods[kind];
    && IsDirOf(w, Target(pod), v) && CommandFits(kind, pod.command)
    && (Current(x, kind) <==> kind !in x.leaked)
    && (Current(x, kind) ==> Target(pod) == x.op.value.dir && Encodes(pod.affinity, x.op.value.labels))
    && (kind == Cleanup ==>
          x.condemned && x.home.Some? && Target(pod) == x.home.value.dir && Encodes(pod.affinity, x.home.value.wanted))
    && (pod.phase.Ended? ==> Selects(pod.affinity, pod.phase.labels))
  }

  ghost predicate PodsSound(w: World, v: string, x: VolumeState) {
    x.leaked <= x.pods.Keys && forall k | k in x.pods :: PodSound(w, v, x, k)
  }

  ghost predicate HomeSound(w: World, v: string, x: VolumeState, home: Home) {
    && IsDirOf(w, home.dir, v)
    && Wanted(home.wanted) == home.wanted && Carries(home.labels, home.wanted)
    && !StillToRun(x, Init)
  }

  /** A volume that was handed out is only ever deleted. */
  ghost predicate HandedOutSound(w: World, v: string, x: VolumeState) {
    && (x.pv.Some? || x.condemned ==> x.home.Some?)
    && (x.home.Some? ==> HomeSound(w, v, x, x.home.value))
    && (x.pv.Some? ==> x.pv.value.path == x.home.value.dir && Encodes(x.pv.value.affinity, x.home.value.wanted))
    && (x.pv.Some? && !x.condemned ==> x.op.None?)
    && (x.home.Some? && x.op.Some? ==> x.pv.Some? && x.op.value.goal.Deleting?)
  }

  ghost predicate ProvisioningSound(w: World, v: string, x: VolumeState, op: Op) {
    && x.home.None? && x.pv.None? && !x.condemned
    && PlanTail(op.todo, op.quotas)
    && (op.home.Some? <==> op.todo == [] || op.todo[0] == Quota || op.stage == Leaving(true))
    && (op.home.Some? ==> HomeSound(w, v, x, op.home.value) && op.home.value.dir == op.dir && op.home.value.wanted == Wanted(op.labels))
  }

  ghost predicate DeletingSound(x: VolumeState, op: Op) {
    && x.pv.Some? && x.condemned && x.home.Some?
    && op.labels == x.home.value.wanted && op.dir == x.home.value.dir
    && (op.todo == [Cleanup] || op.todo == [])
  }

  ghost predicate OpSound(w: World, v: string, x: VolumeState) {
    x.op.Some? ==>
      var op := x.op.value;
      && IsDirOf(w, op.dir, v)
      && (op.stage.Ready? || op.todo != [])
      && (op.stage.Polling? ==> op.stage.polls <= w.retries)
      && (if op.goal.Provisioning? then ProvisioningSound(w, v, x, op) else DeletingSound(x, op))
  }

  /** What holds of a volume whatever anybody does. */
  ghost predicate Sound(w: World, v: string, x: VolumeState) {
    PodsSound(w, v, x) && HandedOutSound(w, v, x) && OpSound(w, v, x)
  }

  ghost predicate Inv(w: World, s: State) {
    forall v :: Sound(w, v, At(s, v))
  }

  // ---------------------------------------------------------------- what every step keeps

  /** Volume directories do not lie inside one another. */
  lemma DirsApart(w: World, d: Path, v: string, e: Path, u: string)
    requires Disjoint(w) && IsDirOf(w, d, v) && IsDirOf(w, e, u) && d != e
    ensures !(d <= e)
  {
    var base := e[..|e| - 1];
    assert !(d <= base);
    if |d| < |e| {
      assert e[..|d|] == base[..|d|];
    }
  }

  /** A helper pod takes no directory but the one it was made for. */
  lemma RunStaysInside(w: World, s: State, v: string, x: VolumeState, a: Action, dir: Path, u: string)
    requires Disjoint(w) && IsDirOf(w, dir, u)
    requires a.RunPod? && CanRun(s, x, a.kind, a.host, a.ok, a.after) && PodSound(w, v, x, a.kind)
    requires Target(x.pods[a.kind]) != dir
    ensures dir in DiskOf(s, a.host) ==> dir in a.after
  {
    DirsApart(w, Target(x.pods[a.kind]), v, dir, u);
  }

  /** Whatever happens to one volume leaves another's pods, request, PV and history as they
      are, and its directories on every node. */
  lemma OthersUntouched(w: World, s: State, e: Event, u: string, dir: Path)
    requires Disjoint(w) && Inv(w, s) && Enabled(w, s, e) && IsDirOf(w, dir, u)
    requires !(e.On? && e.volume == u)
    ensures At(Apply(w, s, e), u) == At(s, u)
    ensures forall n :: OnDisk(s, n, dir) ==> OnDisk(Apply(w, s, e), n, dir)
  {
    if e.On? && e.action.RunPod? {
      assert Sound(w, e.volume, At(s, e.volume));
      RunStaysInside(w, s, e.volume, At(s, e.volume), e.action, dir, u);
    }
  }

  /** The steps that open and close requests. */
  predicate Opens(a: Action) { a.BeginProvision? || a.HandOut? || a.BeginDelete? || a.FinishDelete? }

  /** A pod the step leaves alone, and still accounts for. */
  predicate Carried(x: VolumeState, y: VolumeState, k: Kind) {
    && k in x.pods && k in y.pods && y.pods[k] == x.pods[k]
    && (x.home.Some? ==> y.home == x.home) && (x.condemned ==> y.condemned)
    && (Current(y, k) ==> Current(x, k) && y.op.value.dir == x.op.value.dir && y.op.value.labels == x.op.value.labels)
    && (Current(y, k) <==> k !in y.leaked)
  }

  lemma CarriedStaysSound(w: World, v: string, x: VolumeState, y: VolumeState, k: Kind)
    requires Carried(x, y, k) && PodSound(w, v, x, k)
    ensures PodSound(w, v, y, k)
  {
  }

  /** The pods a step touches. */
  predicate Touches(x: VolumeState, a: Action, k: Kind) {
    || (a.CreatePod? && x.op.Some? && x.op.value.todo != [] && k == x.op.value.todo[0])
    || (a.RunPod? && k == a.kind)
  }

  lemma CarriedByOpening(w: World, s: State, v: string, x: VolumeState, a: Action, k: Kind)
    requires Possible(w, s, v, x, a) && Opens(a) && k in x.pods && (Current(x, k) <==> k !in x.leaked)
    requires a.HandOut? ==> x.home.None?
    ensures Carried(x, Next(w, s, v, x, a), k)
  {
  }

  lemma CarriedByPods(w: World, s: State, v: string, x: VolumeState, a: Action, k: Kind)
    requires Possible(w, s, v, x, a) && (a.CreatePod? || a.RunPod? || a.EvictPod?)
    requires k in Next(w, s, v, x, a).pods && !Touches(x, a, k) && (Current(x, k) <==> k !in x.leaked)
    ensures Carried(x, Next(w, s, v, x, a), k)
  {
  }

  lemma CarriedByOthers(w: World, s: State, v: string, x: VolumeState, a: Action, k: Kind)
    requires Possible(w, s, v, x, a) && !Opens(a) && k in Next(w, s, v, x, a).pods && !Touches(x, a, k)
    requires Current(x, k) <==> k !in x.leaked
    ensures Carried(x, Next(w, s, v, x, a), k)
  {
    if a.CreatePod? || a.RunPod? || a.EvictPod? {
      CarriedByPods(w, s, v, x, a, k);
    }
  }

  lemma CreatedIsSound(w: World, s: State, v: string, x: VolumeState, pod: Pod)
    requires Sound(w, v, x) && CanCreate(x, pod)
    ensures PodSound(w, v, Next(w, s, v, x, CreatePod(pod)), x.op.value.todo[0])
  {
  }

  lemma RunStaysSound(w: World, s: State, v: string, x: VolumeState, a: Action)
    requires a.RunPod? && CanRun(s, x, a.kind, a.host, a.ok, a.after) && PodSound(w, v, x, a.kind)
    ensures PodSound(w, v, Next(w, s, v, x, a), a.kind)
  {
    assert Current(Next(w, s, v, x, a), a.kind) <==> Current(x, a.kind);
  }

  lemma PodStaysSound(w: World, s: State, v: string, x: VolumeState, a: Action, k: Kind)
    requires Possible(w, s, v, x, a) && k in x.pods && PodSound(w, v, x, k)
    requires k in Next(w, s, v, x, a).pods && !(a.CreatePod? && k == x.op.value.todo[0])
    requires a.HandOut? ==> x.home.None?
    ensures PodSound(w, v, Next(w, s, v, x, a), k)
  {
    if a.RunPod? && k == a.kind {
      RunStaysSound(w, s, v, x, a);
    } else {
      IsCarried(w, s, v, x, a, k);
      CarriedStaysSound(w, v, x, Next(w, s, v, x, a), k);
    }
  }

  lemma IsCarried(w: World, s: State, v: string, x: VolumeState, a: Action, k: Kind)
    requires Possible(w, s, v, x, a) && k in x.pods && (Current(x, k) <==> k !in x.leaked)
    requires k in Next(w, s, v, x, a).pods && !(a.CreatePod? && k == x.op.value.todo[0]) && !(a.RunPod? && k == a.kind)
    requires a.HandOut? ==> x.home.None?
    ensures Carried(x, Next(w, s, v, x, a), k)
  {
    if Opens(a) {
      CarriedByOpening(w, s, v, x, a, k);
    } else {
      CarriedByOthers(w, s, v, x, a, k);
    }
  }

  /** A pod counts as left behind only as long as it is there. */
  lemma LeftBehindStay(w: World, s: State, v: string, x: VolumeState, a: Action)
    requires PodsSound(w, v, x) && Possible(w, s, v, x, a)
    ensures var y := Next(w, s, v, x, a); y.leaked <= y.pods.Keys
  {
    if a.LeavePod? {
      if x.op.value.todo[0] in x.pods {
        assert PodSound(w, v, x, x.op.value.todo[0]) && Current(x, x.op.value.todo[0]);
      }
    } else {
      LeftBehindUnlessLeft(w, s, v, x, a);
    }
  }

  lemma LeftBehindUnlessLeft(w: World, s: State, v: string, x: VolumeState, a: Action)
    requires x.leaked <= x.pods.Keys && Possible(w, s, v, x, a) && !a.LeavePod?
    ensures var y := Next(w, s, v, x, a); y.leaked <= y.pods.Keys
  {
  }

  lemma PodsStaySound(w: World, s: State, v: string, x: VolumeState, a: Action)
    requires Sound(w, v, x) && Possible(w, s, v, x, a)
    ensures PodsSound(w, v, Next(w, s, v, x, a))
  {
    var y := Next(w, s, v, x, a);
    PodsComeFrom(w, s, v, x, a);
    LeftBehindStay(w, s, v, x, a);
    forall k | k in y.pods
      ensures PodSound(w, v, y, k)
    {
      if a.CreatePod? && k == x.op.value.todo[0] {
        CreatedIsSound(w, s, v, x, a.pod);
      } else {
        assert PodSound(w, v, x, k);
        PodStaysSound(w, s, v, x, a, k);
      }
    }
  }

  lemma PodsComeFrom(w: World, s: State, v: string, x: VolumeState, a: Action)
    requires Possible(w, s, v, x, a)
    ensures forall k | k in Next(w, s, v, x, a).pods :: k in x.pods || (a.CreatePod? && k == x.op.value.todo[0])
  {
  }

  /** The labels read back from the PV are those that were asked for. */
  lemma DeletionAsksTheSame(w: World, v: string, x: VolumeState)
    requires Sound(w, v, x) && x.pv.Some?
    ensures LabelsOf(x.pv.value) == x.home.value.wanted
  {
    AffinityRoundTrip(x.pv.value.affinity, x.home.value.wanted);
  }

  lemma HandedOutAfterOpening(w: World, s: State, v: string, x: VolumeState, a: Action)
    requires Sound(w, v, x) && Possible(w, s, v, x, a) && Opens(a)
    ensures HandedOutSound(w, v, Next(w, s, v, x, a))
  {
    if a.HandOut? {
      assert Wanted(Wanted(x.op.value.labels)) == Wanted(x.op.value.labels);
    }
  }

  lemma RecordsStay(w: World, s: State, v: string, x: VolumeState, a: Action)
    requires Possible(w, s, v, x, a) && !Opens(a)
    ensures var y := Next(w, s, v, x, a);
      && y.home == x.home && y.pv == x.pv && y.condemned == x.condemned
      && (y.op.Some? ==> x.op.Some? && y.op.value.goal == x.op.value.goal)
      && (StillToRun(y, Init) ==> StillToRun(x, Init) || a.CreatePod?)
  {
  }

  /** Other steps leave the records as they are, and make no init pod run again. */
  lemma HandedOutStaysSound(w: World, s: State, v: string, x: VolumeState, a: Action)
    requires Sound(w, v, x) && Possible(w, s, v, x, a) && !Opens(a)
    ensures HandedOutSound(w, v, Next(w, s, v, x, a))
  {
    RecordsStay(w, s, v, x, a);
    if a.CreatePod? && x.home.Some? {
      assert x.op.value.todo[0] == Cleanup;
    }
  }

  lemma SeenSucceededStaysSound(w: World, s: State, v: string, x: VolumeState)
    requires Sound(w, v, x) && Possible(w, s, v, x, ReadPod(true))
    requires var kind := x.op.value.todo[0]; kind in x.pods && x.pods[kind].phase.Ended? && x.pods[kind].phase.ok
    ensures OpSound(w, v, AfterRead(x, x.op.value, true))
  {
    var op := x.op.value;
    var kind := op.todo[0];
    assert Current(x, kind) && PodSound(w, v, x, kind);
    EncodingSelects(x.pods[kind].affinity, op.labels, x.pods[kind].phase.labels);
    assert Wanted(Wanted(op.labels)) == Wanted(op.labels);
  }

  lemma OpAfterOpening(w: World, s: State, v: string, x: VolumeState, a: Action)
    requires Sound(w, v, x) && Possible(w, s, v, x, a) && Opens(a)
    ensures OpSound(w, v, Next(w, s, v, x, a))
  {
    if a.BeginProvision? {
      assert (a.base + [v])[..|a.base|] == a.base;
    } else if a.BeginDelete? {
      DeletionAsksTheSame(w, v, x);
    }
  }

  lemma OpAfterReading(w: World, s: State, v: string, x: VolumeState, a: Action)
    requires Sound(w, v, x) && Possible(w, s, v, x, a) && a.ReadPod?
    ensures OpSound(w, v, Next(w, s, v, x, a))
  {
    var kind := x.op.value.todo[0];
    if a.reachable && kind in x.pods && x.pods[kind].phase.Ended? && x.pods[kind].phase.ok {
      SeenSucceededStaysSound(w, s, v, x);
    } else {
      assert Next(w, s, v, x, a).pods == x.pods;
    }
  }

  lemma OpAfterLeaving(w: World, s: State, v: string, x: VolumeState, a: Action)
    requires Sound(w, v, x) && Possible(w, s, v, x, a) && a.LeavePod?
    ensures OpSound(w, v, Next(w, s, v, x, a))
  {
    var y := Next(w, s, v, x, a);
    assert StillToRun(y, Init) ==> StillToRun(x, Init);
  }

  lemma OpOfSameShape(w: World, v: string, x: VolumeState, y: VolumeState)
    requires OpSound(w, v, x) && x.op.Some? && y.op.Some? && y.op.value == x.op.value.(stage := y.op.value.stage)
    requires y.op.value.stage.Ready? || y.op.value.todo != []
    requires y.op.value.stage.Polling? ==> y.op.value.stage.polls <= w.retries
    requires y.op.value.stage == Leaving(true) <==> x.op.value.stage == Leaving(true)
    requires y.home == x.home && y.pv == x.pv && y.condemned == x.condemned
    requires y.op.value.home.Some? && StillToRun(y, Init) ==> StillToRun(x, Init)
    ensures OpSound(w, v, y)
  {
  }

  lemma OnlyStageChanges(w: World, s: State, v: string, x: VolumeState, a: Action)
    requires Possible(w, s, v, x, a) && !Opens(a) && !a.ReadPod? && !a.LeavePod? && Next(w, s, v, x, a).op.Some?
    ensures var y := Next(w, s, v, x, a);
      && x.op.Some? && y.op.value == x.op.value.(stage := y.op.value.stage)
      && y.home == x.home && y.pv == x.pv && y.condemned == x.condemned
      && (y.op.value.stage == x.op.value.stage
          || (y.op.value.stage == Polling(0) && x.op.value.stage.Ready? && x.op.value.todo != [])
          || (y.op.value.stage == Leaving(false) && x.op.value.stage.Polling?))
      && (StillToRun(y, Init) ==> StillToRun(x, Init) || (x.op.value.todo != [] && x.op.value.todo[0] == Init && x.op.value.stage.Ready?))
  {
  }

  lemma OpStaysSound(w: World, s: State, v: string, x: VolumeState, a: Action)
    requires Sound(w, v, x) && Possible(w, s, v, x, a)
    requires !Opens(a) && !a.ReadPod? && !a.LeavePod?
    ensures OpSound(w, v, Next(w, s, v, x, a))
  {
    var y := Next(w, s, v, x, a);
    if y.op.Some? {
      OnlyStageChanges(w, s, v, x, a);
      OpOfSameShape(w, v, x, y);
    }
  }

  lemma ActionKeeps(w: World, s: State, v: string, x: VolumeState, a: Action)
    requires Sound(w, v, x) && Possible(w, s, v, x, a)
    ensures Sound(w, v, Next(w, s, v, x, a))
  {
    PodsStaySound(w, s, v, x, a);
    if Opens(a) {
      HandedOutAfterOpening(w, s, v, x, a);
      OpAfterOpening(w, s, v, x, a);
    } else {
      HandedOutStaysSound(w, s, v, x, a);
      if a.ReadPod? {
        OpAfterReading(w, s, v, x, a);
      } else if a.LeavePod? {
        OpAfterLeaving(w, s, v, x, a);
      } else {
        OpStaysSound(w, s, v, x, a);
      }
    }
  }

  /** Every step, whoever takes it, keeps every volume sound. */
  lemma StepKeeps(w: World, s: State, e: Event)
    requires Inv(w, s) && Enabled(w, s, e)
    ensures Inv(w, Apply(w, s, e))
  {
    var t := Apply(w, s, e);
    forall u
      ensures Sound(w, u, At(t, u))
    {
      assert Sound(w, u, At(s, u));
      if e.On? && e.volume == u {
        ActionKeeps(w, s, u, At(s, u), e.action);
      }
    }
  }

  lemma {:induction false} RunKeepsInv(w: World, states: seq<State>, events: seq<Event>, i: nat)
    requires IsRun(w, states, events) && Inv(w, states[0]) && i < |states|
    ensures Inv(w, states[i])
  {
    if i > 0 {
      RunKeepsInv(w, states, events, i - 1);
      assert IsStep(w, states, events, i - 1);
      StepKeeps(w, states[i - 1], events[i - 1]);
    }
  }
}
