/** Runs that go wrong, and exactly when there are such runs.

    A quota pod that was left behind by an interrupted attempt removes the directory of a live
    PV if the configuration was edited in between to one without a quota, or if somebody
    deletes the failed pod while it is in the way of the next attempt. A deletion leaves the
    directory where it is if another node gains the labels after the lookup. And the directory
    of a volume may be made on a node other than the selected one. */
module HostpathCounterexample {
  import opened Wrappers
  import opened NodeSelection
  import opened HostpathMachine
  import opened HostpathCare
  import opened HostpathSafety

  // ---------------------------------------------------------------- runs under a configuration

  /** All attempts for v use the same number of quota pods; and unless the run may be careless,
      nobody deletes the quota pod that protects an exposed attempt. */
  ghost predicate Obeys(states: seq<State>, events: seq<Event>, v: string, quotas: nat, careless: bool)
    requires |states| == |events| + 1
  {
    forall i {:trigger events[i]} | 0 <= i < |events| :: Permitted(states[i], events[i], v, quotas, careless)
  }

  predicate Permitted(s: State, e: Event, v: string, quotas: nat, careless: bool) {
    e.On? && e.volume == v ==>
      && (e.action.BeginProvision? ==> e.action.quotas == quotas)
      && (e.action == EvictPod(Quota) && !careless ==> !Exposed(At(s, v)))
  }

  ghost predicate Reaches(w: World, s: State, t: State, v: string, quotas: nat, careless: bool) {
    exists states, events ::
      IsRun(w, states, events) && states[0] == s && states[|events|] == t && Obeys(states, events, v, quotas, careless)
  }

  /** A live PV has its directory on no node at all. */
  ghost predicate Lost(s: State, v: string) {
    Live(s, v) && forall n :: !OnDisk(s, n, At(s, v).pv.value.path)
  }

  /** With a quota pods per attempt at first and b after an edit, a live PV can lose its
      directory. */
  ghost predicate LosingEdit(a: nat, b: nat) {
    exists w, v, middle, end ::
      Disjoint(w) && Reaches(w, Start, middle, v, a, false) && Reaches(w, middle, end, v, b, false) && Lost(end, v)
  }

  /** With the same number of quota pods for ever, and pods deleted by others at any time, a
      live PV can lose its directory. */
  ghost predicate LosingEviction(quotas: nat) {
    exists w, v, end :: Disjoint(w) && Reaches(w, Start, end, v, quotas, true) && Lost(end, v)
  }

  // ---------------------------------------------------------------- when nothing is lost

  predicate QuotaFree(x: VolumeState) {
    Quota !in x.pods && (x.op.Some? ==> Quota !in x.op.value.todo)
  }

  lemma QuotaFreeStays(w: World, s: State, v: string, x: VolumeState, a: Action)
    requires Possible(w, s, v, x, a) && QuotaFree(x) && (a.BeginProvision? ==> a.quotas == 0)
    ensures QuotaFree(Next(w, s, v, x, a))
  {
    PodsComeFrom(w, s, v, x, a);
  }

  /** Without quotas there are no quota pods. */
  lemma {:induction false} QuotaFreeThroughout(w: World, states: seq<State>, events: seq<Event>, i: nat, v: string, careless: bool)
    requires IsRun(w, states, events) && Obeys(states, events, v, 0, careless) && i < |states|
    requires QuotaFree(At(states[0], v))
    ensures QuotaFree(At(states[i], v))
  {
    if i > 0 {
      QuotaFreeThroughout(w, states, events, i - 1, v, careless);
      var s, e := states[i - 1], events[i - 1];
      assert IsStep(w, states, events, i - 1) && Permitted(s, e, v, 0, careless);
      if e.On? && e.volume == v {
        QuotaFreeStays(w, s, v, At(s, v), e.action);
      }
    }
  }

  lemma FreeRunsAreCareful(w: World, states: seq<State>, events: seq<Event>, v: string, careless: bool)
    requires IsRun(w, states, events) && Obeys(states, events, v, 0, careless) && QuotaFree(At(states[0], v))
    ensures CarefulRun(states, events, |events|, v)
  {
    forall i {:trigger events[i]} | 0 <= i < |events| && events[i].On? && events[i].volume == v
      ensures Careful(v, At(states[i], v), events[i].action)
    {
      QuotaFreeThroughout(w, states, events, i, v, careless);
    }
  }

  lemma QuotaRunsAreCareful(states: seq<State>, events: seq<Event>, v: string, quotas: nat)
    requires |states| == |events| + 1 && Obeys(states, events, v, quotas, false) && quotas > 0
    ensures CarefulRun(states, events, |events|, v)
  {
    forall i {:trigger events[i]} | 0 <= i < |events| && events[i].On? && events[i].volume == v
      ensures Careful(v, At(states[i], v), events[i].action)
    {
      assert Permitted(states[i], events[i], v, quotas, false);
    }
  }

  ghost predicate Safe(w: World, s: State, v: string) {
    Inv(w, s) && Kept(s, At(s, v))
  }

  /** A run from a safe state to another, if its attempts use quotas, or if there is no quota pod
      to begin with. */
  lemma StaysSafe(w: World, s: State, t: State, v: string, quotas: nat, careless: bool)
    requires Disjoint(w) && Safe(w, s, v) && Reaches(w, s, t, v, quotas, careless)
    requires if quotas == 0 then QuotaFree(At(s, v)) else !careless
    ensures Safe(w, t, v) && (quotas == 0 ==> QuotaFree(At(t, v)))
  {
    var states, events :| IsRun(w, states, events) && states[0] == s && states[|events|] == t
      && Obeys(states, events, v, quotas, careless);
    if quotas == 0 {
      FreeRunsAreCareful(w, states, events, v, careless);
      QuotaFreeThroughout(w, states, events, |events|, v, careless);
    } else {
      QuotaRunsAreCareful(states, events, v, quotas);
    }
    RunKeepsInv(w, states, events, |events|);
    RunKeepsCare(w, states, events, |events|, v);
  }

  lemma StartIsSafe(w: World, v: string)
    ensures Safe(w, Start, v) && QuotaFree(At(Start, v))
  {
  }

  lemma SafeIsNotLost(w: World, s: State, v: string)
    requires Safe(w, s, v)
    ensures !Lost(s, v)
  {
    assert Sound(w, v, At(s, v));
  }

  // ---------------------------------------------------------------- the pieces of the runs

  const W := World({["base"]}, 120)
  const TheDir: Path := ["base"] + ["v"]
  const TheLabels: Labels := map["zone" := "z"]
  const TheAffinity := NodeSelector([[Requirement("zone", In, ["z"])]])
  const TheNode := Node(TheLabels, [])

  const InitPod := Pod(MakeDir, ["base"], "v", TheAffinity, [], Waiting)
  const QuotaPod := Pod(SetQuota("1k", "1k"), ["base"], "v", TheAffinity, [], Waiting)
  const CleanupPod := Pod(RemoveDir, ["base"], "v", TheAffinity, [], Waiting)

  function HomeAt(host: string): Home { Home(host, TheDir, TheLabels, TheLabels) }

  function With(nodes: map<string, Node>, disk: map<string, set<Path>>, x: VolumeState): State {
    State(nodes, disk, map["v" := x])
  }

  function Busy(quotas: nat, todo: seq<Kind>, stage: Stage, home: Option<Home>): Option<Op> {
    Some(Op(Provisioning, TheLabels, TheDir, quotas, todo, stage, home))
  }

  lemma TheSelection()
    ensures Encodes(TheAffinity, TheLabels) && Selects(TheAffinity, TheLabels) && Wanted(TheLabels) == TheLabels
  {
    assert TheLabels["zone"] == "z";
    assert Wanted(TheLabels) == TheLabels;
    assert TheAffinity.terms[0][0].key == "zone";
    assert TermHolds(TheAffinity.terms[0], TheLabels);
  }

  lemma NoNesting()
    ensures Disjoint(W)
  {
    forall dir, v, base | IsDirOf(W, dir, v) && base in W.bases
      ensures !(dir <= base)
    {
      assert dir[..|dir| - 1] == ["base"];
    }
  }

  lemma Stay(w: World, s: State, v: string, quotas: nat, careless: bool)
    ensures Reaches(w, s, s, v, quotas, careless)
  {
    assert IsRun(w, [s], []) && Obeys([s], [], v, quotas, careless);
  }

  lemma Extend(w: World, s: State, t: State, v: string, quotas: nat, careless: bool, e: Event)
    requires Reaches(w, s, t, v, quotas, careless) && Enabled(w, t, e) && Permitted(t, e, v, quotas, careless)
    ensures Reaches(w, s, Apply(w, t, e), v, quotas, careless)
  {
    var states, events :| IsRun(w, states, events) && states[0] == s && states[|events|] == t
      && Obeys(states, events, v, quotas, careless);
    var states', events' := states + [Apply(w, t, e)], events + [e];
    RunExtends(w, states, events, e);
    assert forall i {:trigger events'[i]} | 0 <= i < |events'| ::
      if i < |events| then events'[i] == events[i] && states'[i] == states[i] else states'[i] == t;
    assert IsRun(w, states', events') && Obeys(states', events', v, quotas, careless);
  }

  /** A volume that is not being provisioned and was not handed out. */
  predicate Idle(x: VolumeState) {
    x.op.None? && x.home.None? && x.pv.None? && !x.condemned && Init !in x.pods
  }

  // ---------------------------------------------------------------- single steps

  /** One step of the volume that leaves nodes and directories alone. */
  lemma Step(s: State, nodes: map<string, Node>, disk: map<string, set<Path>>, x: VolumeState, a: Action, y: VolumeState, q: nat, careless: bool)
    requires Reaches(W, s, With(nodes, disk, x), "v", q, careless) && !a.RunPod?
    requires Possible(W, With(nodes, disk, x), "v", x, a) && Next(W, With(nodes, disk, x), "v", x, a) == y
    requires Permitted(With(nodes, disk, x), On("v", a), "v", q, careless)
    ensures Reaches(W, s, With(nodes, disk, y), "v", q, careless)
  {
    var t := With(nodes, disk, x);
    Extend(W, s, t, "v", q, careless, On("v", a));
    assert t.volumes["v" := y] == map["v" := y];
  }

  /** One of the volume's pods runs. */
  lemma Run(s: State, nodes: map<string, Node>, disk: map<string, set<Path>>, x: VolumeState, a: Action, q: nat, careless: bool)
    requires Reaches(W, s, With(nodes, disk, x), "v", q, careless)
    requires a.RunPod? && CanRun(With(nodes, disk, x), x, a.kind, a.host, a.ok, a.after)
    ensures var y := x.(pods := x.pods[a.kind := x.pods[a.kind].(phase := Ended(a.ok, a.host, nodes[a.host].labels))]);
      Reaches(W, s, With(nodes, disk[a.host := a.after], y), "v", q, careless)
  {
    var t := With(nodes, disk, x);
    var y := x.(pods := x.pods[a.kind := x.pods[a.kind].(phase := Ended(a.ok, a.host, nodes[a.host].labels))]);
    Extend(W, s, t, "v", q, careless, On("v", a));
    assert t.volumes["v" := y] == map["v" := y];
  }

  lemma Join(s: State, nodes: map<string, Node>, disk: map<string, set<Path>>, x: VolumeState, n: string, node: Node, q: nat, careless: bool)
    requires Reaches(W, s, With(nodes, disk, x), "v", q, careless)
    ensures Reaches(W, s, With(nodes[n := node], disk, x), "v", q, careless)
  {
    Extend(W, s, With(nodes, disk, x), "v", q, careless, SetNode(n, node));
  }

  predicate Hosts(nodes: map<string, Node>, host: string) { host in nodes && nodes[host] == TheNode }

  lemma PodsRun(pod: Pod)
    requires pod.affinity == TheAffinity
    ensures Schedulable(pod, TheNode)
  {
    TheSelection();
  }

  // the states of an attempt with q quota pods, up to the first of them

  function Beginning(x: VolumeState, q: nat): VolumeState { x.(op := Busy(q, Plan(q), Ready, None)) }

  function Making(x: VolumeState, q: nat, pod: Pod): VolumeState {
    x.(op := Busy(q, Plan(q), Polling(0), None), pods := x.pods[Init := pod])
  }

  function Done(pod: Pod, ok: bool, host: string): Pod { pod.(phase := Ended(ok, host, TheLabels)) }

  function Seen(x: VolumeState, q: nat, host: string): VolumeState {
    x.(op := Busy(q, Plan(q), Leaving(true), Some(HomeAt(host))), pods := x.pods[Init := Done(InitPod, true, host)])
  }

  function Made(x: VolumeState, q: nat, host: string): VolumeState {
    x.(op := Busy(q, QuotaPods(q), Ready, Some(HomeAt(host))))
  }

  lemma InitPodWaits(s: State, nodes: map<string, Node>, disk: map<string, set<Path>>, x: VolumeState, q: nat, careless: bool)
    requires Idle(x) && Reaches(W, s, With(nodes, disk, x), "v", q, careless)
    ensures Reaches(W, s, With(nodes, disk, Making(x, q, InitPod)), "v", q, careless)
  {
    Step(s, nodes, disk, x, BeginProvision(TheLabels, ["base"], q), Beginning(x, q), q, careless);
    TheSelection();
    Step(s, nodes, disk, Beginning(x, q), CreatePod(InitPod), Making(x, q, InitPod), q, careless);
  }

  lemma MakesDirectory(s: State, nodes: map<string, Node>, disk: map<string, set<Path>>, x: VolumeState, q: nat, careless: bool, host: string)
    requires Idle(x) && Hosts(nodes, host) && Reaches(W, s, With(nodes, disk, x), "v", q, careless)
    ensures Reaches(W, s, With(nodes, disk[host := DiskOf(With(nodes, disk, x), host) + {TheDir}], Making(x, q, Done(InitPod, true, host))),
                    "v", q, careless)
  {
    InitPodWaits(s, nodes, disk, x, q, careless);
    PodsRun(InitPod);
    var m := Making(x, q, InitPod);
    Run(s, nodes, disk, m, RunPod(Init, host, true, DiskOf(With(nodes, disk, m), host) + {TheDir}), q, careless);
    assert m.pods[Init := Done(InitPod, true, host)] == Making(x, q, Done(InitPod, true, host)).pods;
  }

  lemma SeesDirectory(s: State, nodes: map<string, Node>, disk: map<string, set<Path>>, x: VolumeState, q: nat, careless: bool, host: string)
    requires Idle(x) && Reaches(W, s, With(nodes, disk, Making(x, q, Done(InitPod, true, host))), "v", q, careless)
    ensures Reaches(W, s, With(nodes, disk, Made(x, q, host)), "v", q, careless)
  {
    TheSelection();
    Step(s, nodes, disk, Making(x, q, Done(InitPod, true, host)), ReadPod(true), Seen(x, q, host), q, careless);
    assert Plan(q)[1..] == QuotaPods(q);
    assert Seen(x, q, host).pods - {Init} == x.pods;
    Step(s, nodes, disk, Seen(x, q, host), LeavePod(true), Made(x, q, host), q, careless);
  }

  /** An attempt makes the directory on a node with the labels. */
  lemma Makes(s: State, nodes: map<string, Node>, disk: map<string, set<Path>>, x: VolumeState, q: nat, careless: bool, host: string)
    requires Idle(x) && Hosts(nodes, host) && Reaches(W, s, With(nodes, disk, x), "v", q, careless)
    ensures Reaches(W, s, With(nodes, disk[host := DiskOf(With(nodes, disk, x), host) + {TheDir}], Made(x, q, host)), "v", q, careless)
  {
    MakesDirectory(s, nodes, disk, x, q, careless, host);
    SeesDirectory(s, nodes, disk[host := DiskOf(With(nodes, disk, x), host) + {TheDir}], x, q, careless, host);
  }

  function Handed(x: VolumeState, host: string): VolumeState {
    x.(op := None, pv := Some(Volume(TheDir, TheAffinity, false)), home := Some(HomeAt(host)))
  }

  lemma HandsOut(s: State, nodes: map<string, Node>, disk: map<string, set<Path>>, x: VolumeState, q: nat, quotas: nat, careless: bool, host: string)
    requires Reaches(W, s, With(nodes, disk, x.(op := Busy(quotas, [], Ready, Some(HomeAt(host))))), "v", q, careless)
    ensures Reaches(W, s, With(nodes, disk, Handed(x, host)), "v", q, careless)
  {
    TheSelection();
    Step(s, nodes, disk, x.(op := Busy(quotas, [], Ready, Some(HomeAt(host)))), HandOut(TheAffinity, false), Handed(x, host), q, careless);
  }

  // ---------------------------------------------------------------- a quota pod is left behind

  const N := map["n" := TheNode]
  const OnN := map["n" := {TheDir}]
  const Gone: map<string, set<Path>> := map["n" := {}]
  const Left := Unused.(pods := map[Quota := QuotaPod], leaked := {Quota})

  lemma NodeJoins(q: nat, careless: bool)
    ensures Reaches(W, Start, With(N, map[], Unused), "v", q, careless)
  {
    Stay(W, Start, "v", q, careless);
    Extend(W, Start, Start, "v", q, careless, SetNode("n", TheNode));
    var s := State(N, map[], map[]);
    assert Apply(W, Start, SetNode("n", TheNode)) == s;
    assert Possible(W, s, "v", At(s, "v"), BeginProvision(TheLabels, ["base"], q));
    Extend(W, Start, s, "v", q, careless, On("v", BeginProvision(TheLabels, ["base"], q)));
    var x := Unused.(op := Busy(q, Plan(q), Ready, None));
    assert Apply(W, s, On("v", BeginProvision(TheLabels, ["base"], q))) == With(N, map[], x);
    Step(Start, N, map[], x, Abort, Unused, q, careless);
  }

  /** An attempt with a quota is interrupted while its quota pod waits. */
  lemma QuotaPodIsLeft(q: nat, careless: bool)
    requires q > 0
    ensures Reaches(W, Start, With(N, OnN, Left), "v", q, careless)
  {
    NodeJoins(q, careless);
    Makes(Start, N, map[], Unused, q, careless, "n");
    assert {} + {TheDir} == {TheDir} && map[]["n" := {TheDir}] == OnN;
    TheSelection();
    var y := Unused.(op := Busy(q, QuotaPods(q), Polling(0), Some(HomeAt("n"))), pods := map[Quota := QuotaPod]);
    Step(Start, N, OnN, Made(Unused, q, "n"), CreatePod(QuotaPod), y, q, careless);
    assert {} + {Quota} == {Quota};
    Step(Start, N, OnN, y, Abort, Left, q, careless);
  }

  /** The next attempt makes the directory again, whatever its number of quota pods. */
  lemma RetryMakes(s: State, q: nat, careless: bool)
    requires Reaches(W, s, With(N, OnN, Left), "v", q, careless)
    ensures Reaches(W, s, With(N, OnN, Made(Left, q, "n")), "v", q, careless)
  {
    Makes(s, N, OnN, Left, q, careless, "n");
    assert {TheDir} + {TheDir} == {TheDir} && OnN["n" := {TheDir}] == OnN;
  }

  lemma QuotaFails(s: State, x: VolumeState, q: nat, careless: bool)
    requires x.pods == map[Quota := QuotaPod] && Reaches(W, s, With(N, OnN, x), "v", q, careless)
    ensures Reaches(W, s, With(N, Gone, x.(pods := map[Quota := Done(QuotaPod, false, "n")])), "v", q, careless)
  {
    PodsRun(QuotaPod);
    assert WithoutTree({TheDir}, TheDir) == {};
    Run(s, N, OnN, x, RunPod(Quota, "n", false, {}), q, careless);
    assert OnN["n" := {}] == Gone && x.pods[Quota := Done(QuotaPod, false, "n")] == map[Quota := Done(QuotaPod, false, "n")];
  }

  /** The configuration is edited to one without a quota, the retry hands the PV out, and then
      the old quota pod runs and fails. */
  lemma EditedQuotaLosesDirectory(a: nat)
    requires a > 0
    ensures LosingEdit(a, 0)
  {
    NoNesting();
    QuotaPodIsLeft(a, false);
    var middle := With(N, OnN, Left);
    Stay(W, middle, "v", 0, false);
    RetryMakes(middle, 0, false);
    assert QuotaPods(0) == [];
    HandsOut(middle, N, OnN, Left, 0, 0, false, "n");
    QuotaFails(middle, Handed(Left, "n"), 0, false);
    assert Lost(With(N, Gone, Handed(Left, "n").(pods := map[Quota := Done(QuotaPod, false, "n")])), "v");
  }

  /** So it depends on the two numbers of quota pods: a live PV can lose its directory exactly
      when there was a quota before the edit and there is none after it. */
  lemma WhenEditsLose(a: nat, b: nat)
    ensures LosingEdit(a, b) <==> a > 0 && b == 0
  {
    if a > 0 && b == 0 {
      EditedQuotaLosesDirectory(a);
    } else {
      forall w, v, middle, end | Disjoint(w) && Reaches(w, Start, middle, v, a, false) && Reaches(w, middle, end, v, b, false)
        ensures !Lost(end, v)
      {
        StartIsSafe(w, v);
        StaysSafe(w, Start, middle, v, a, false);
        StaysSafe(w, middle, end, v, b, false);
        SafeIsNotLost(w, end, v);
      }
    }
  }

  // ---------------------------------------------------------------- the failed pod is deleted

  /** The next attempt, after the old quota pod has failed and somebody has deleted it. */
  const Cleared := Unused.(evictions := 1)

  lemma FailedPodIsDeleted(q: nat)
    requires q > 0
    ensures Reaches(W, Start, With(N, Gone, Made(Cleared, q, "n")), "v", q, true)
  {
    QuotaPodIsLeft(q, true);
    RetryMakes(Start, q, true);
    var x := Made(Left, q, "n");
    QuotaFails(Start, x, q, true);
    var y := x.(pods := map[Quota := Done(QuotaPod, false, "n")]);
    assert y.pods - {Quota} == map[] && {Quota} - {Quota} == {};
    Step(Start, N, Gone, y, EvictPod(Quota), Made(Cleared, q, "n"), q, true);
  }

  function Passing(n: nat, q: nat, stage: Stage, pods: map<Kind, Pod>): VolumeState {
    Cleared.(op := Busy(q, QuotaPods(n), stage, Some(HomeAt("n"))), pods := pods)
  }

  lemma QuotaPodWaits(n: nat, q: nat)
    requires n > 0 && Reaches(W, Start, With(N, Gone, Passing(n, q, Ready, map[])), "v", q, true)
    ensures Reaches(W, Start, With(N, Gone, Passing(n, q, Polling(0), map[Quota := QuotaPod])), "v", q, true)
  {
    TheSelection();
    Step(Start, N, Gone, Passing(n, q, Ready, map[]), CreatePod(QuotaPod), Passing(n, q, Polling(0), map[Quota := QuotaPod]), q, true);
  }

  /** One more quota pod of the attempt succeeds, on a node without the directory. */
  lemma QuotaPodPasses(n: nat, q: nat)
    requires n > 0 && Reaches(W, Start, With(N, Gone, Passing(n, q, Ready, map[])), "v", q, true)
    ensures Reaches(W, Start, With(N, Gone, Passing(n - 1, q, Ready, map[])), "v", q, true)
  {
    QuotaPodWaits(n, q);
    PodsRun(QuotaPod);
    var x := Passing(n, q, Polling(0), map[Quota := QuotaPod]);
    Run(Start, N, Gone, x, RunPod(Quota, "n", true, {}), q, true);
    var done := map[Quota := Done(QuotaPod, true, "n")];
    assert Gone["n" := {}] == Gone && x.pods[Quota := Done(QuotaPod, true, "n")] == done;
    QuotaPodIsSeen(n, q, done);
  }

  lemma QuotaPodIsSeen(n: nat, q: nat, done: map<Kind, Pod>)
    requires n > 0 && done == map[Quota := Done(QuotaPod, true, "n")]
    requires Reaches(W, Start, With(N, Gone, Passing(n, q, Polling(0), done)), "v", q, true)
    ensures Reaches(W, Start, With(N, Gone, Passing(n - 1, q, Ready, map[])), "v", q, true)
  {
    Step(Start, N, Gone, Passing(n, q, Polling(0), done), ReadPod(true), Passing(n, q, Leaving(true), done), q, true);
    assert QuotaPods(n)[1..] == QuotaPods(n - 1) && done - {Quota} == map[];
    Step(Start, N, Gone, Passing(n, q, Leaving(true), done), LeavePod(true), Passing(n - 1, q, Ready, map[]), q, true);
  }

  lemma {:induction false} QuotaPodsPass(n: nat, q: nat)
    requires Reaches(W, Start, With(N, Gone, Passing(n, q, Ready, map[])), "v", q, true)
    ensures Reaches(W, Start, With(N, Gone, Passing(0, q, Ready, map[])), "v", q, true)
  {
    if n > 0 {
      QuotaPodPasses(n, q);
      QuotaPodsPass(n - 1, q);
    }
  }

  /** An old quota pod fails after the next attempt has seen its init pod succeed; somebody
      deletes that pod; the attempt's own quota pods succeed, and the PV is handed out. */
  lemma DeletedQuotaPodLosesDirectory(quotas: nat)
    requires quotas > 0
    ensures LosingEviction(quotas)
  {
    NoNesting();
    FailedPodIsDeleted(quotas);
    assert Made(Cleared, quotas, "n") == Passing(quotas, quotas, Ready, map[]);
    QuotaPodsPass(quotas, quotas);
    assert QuotaPods(0) == [];
    HandsOut(Start, N, Gone, Cleared, quotas, quotas, true, "n");
    assert Lost(With(N, Gone, Handed(Cleared, "n")), "v");
  }

  /** While the configuration stays the same, deleted pods can only cost a directory if there is
      a quota. */
  lemma WhenDeletedPodsLose(quotas: nat)
    ensures LosingEviction(quotas) <==> quotas > 0
  {
    if quotas > 0 {
      DeletedQuotaPodLosesDirectory(quotas);
    } else {
      forall w, v, end | Disjoint(w) && Reaches(w, Start, end, v, quotas, true)
        ensures !Lost(end, v)
      {
        StartIsSafe(w, v);
        StaysSafe(w, Start, end, v, quotas, true);
        SafeIsNotLost(w, end, v);
      }
    }
  }

  // ---------------------------------------------------------------- the directory elsewhere

  /** Two nodes carry the labels. Those of n, the selected one, are asked for; the directory is
      made on m. */
  lemma OtherNodeGetsDirectory()
    ensures exists t ::
      && Reaches(W, Start, t, "v", 0, false)
      && t.nodes.Keys == {"n", "m"} && t.nodes["n"] == TheNode && t.nodes["m"] == TheNode
      && Live(t, "v") && Selects(At(t, "v").pv.value.affinity, TheNode.labels)
      && At(t, "v").home == Some(HomeAt("m")) && !OnDisk(t, "n", At(t, "v").pv.value.path)
  {
    var both := N["m" := TheNode];
    NodeJoins(0, false);
    Join(Start, N, map[], Unused, "m", TheNode, 0, false);
    Makes(Start, both, map[], Unused, 0, false, "m");
    var disk: map<string, set<Path>> := map[]["m" := {} + {TheDir}];
    assert QuotaPods(0) == [];
    HandsOut(Start, both, disk, Unused, 0, 0, false, "m");
    TheSelection();
    var t := With(both, disk, Handed(Unused, "m"));
    assert !OnDisk(t, "n", TheDir) && At(t, "v").home == Some(HomeAt("m")) && t.nodes.Keys == {"n", "m"};
  }

  // ---------------------------------------------------------------- a deletion that misses

  /** A history that ends within a deletion of v, which began in the state before. */
  ghost predicate Deletes(before: State, t: State) {
    exists states, events, b: nat ::
      && IsHistory(W, states, events) && CarefulRun(states, events, |events|, "v")
      && b < |events| && states[b] == before && events[b] == On("v", BeginDelete) && states[|events|] == t
      && forall i | b < i < |events| :: !Delimits(events[i])
  }

  predicate Delimits(e: Event) { e == On("v", BeginDelete) || e == On("v", FinishDelete) }

  lemma DeletesOn(before: State, t: State, e: Event)
    requires Deletes(before, t) && Enabled(W, t, e) && !Delimits(e)
    requires e.On? && e.volume == "v" ==> Careful("v", At(t, "v"), e.action)
    ensures Deletes(before, Apply(W, t, e))
  {
    var states, events, b: nat :| IsHistory(W, states, events) && CarefulRun(states, events, |events|, "v")
      && b < |events| && states[b] == before && events[b] == On("v", BeginDelete) && states[|events|] == t
      && forall i | b < i < |events| :: !Delimits(events[i]);
    var states', events' := states + [Apply(W, t, e)], events + [e];
    OneMore(states, events, t, e);
    assert forall i | b < i < |events'| :: !Delimits(events'[i]);
    assert states'[b] == before && events'[b] == On("v", BeginDelete) && states'[|events'|] == Apply(W, t, e);
  }

  lemma OneMore(states: seq<State>, events: seq<Event>, t: State, e: Event)
    requires IsHistory(W, states, events) && CarefulRun(states, events, |events|, "v") && states[|events|] == t && Enabled(W, t, e)
    requires e.On? && e.volume == "v" ==> Careful("v", At(t, "v"), e.action)
    ensures var states', events' := states + [Apply(W, t, e)], events + [e];
      IsHistory(W, states', events') && CarefulRun(states', events', |events'|, "v")
  {
    var states', events' := states + [Apply(W, t, e)], events + [e];
    RunExtends(W, states, events, e);
    assert forall i {:trigger events'[i]} | 0 <= i < |events'| ::
      if i < |events| then events'[i] == events[i] && states'[i] == states[i] else states'[i] == t && events'[i] == e;
  }

  const Whole := Handed(Unused, "n")

  function InDeletion(stage: Stage, todo: seq<Kind>, pods: map<Kind, Pod>): VolumeState {
    Whole.(condemned := true, pods := pods, op := Some(Op(Goal.Deleting, TheLabels, TheDir, 0, todo, stage, None)))
  }

  lemma HandedOutOnN()
    ensures Reaches(W, Start, With(N, OnN, Whole), "v", 0, false)
  {
    NodeJoins(0, false);
    Makes(Start, N, map[], Unused, 0, false, "n");
    assert {} + {TheDir} == {TheDir} && map[]["n" := {TheDir}] == OnN && QuotaPods(0) == [];
    HandsOut(Start, N, OnN, Unused, 0, 0, false, "n");
  }

  lemma OneNodeIsFound()
    ensures Matching(With(N, OnN, Whole), TheLabels) == {"n"} && LabelsOf(Whole.pv.value) == TheLabels != map[]
  {
    TheSelection();
    AffinityRoundTrip(TheAffinity, TheLabels);
    assert TheLabels["zone"] == "z";
    assert Matching(With(N, OnN, Whole), TheLabels) == {"n"};
  }

  lemma DeletionIsBegun()
    ensures Deletes(With(N, OnN, Whole), With(N, OnN, InDeletion(Ready, [Cleanup], map[])))
  {
    HandedOutOnN();
    OneNodeIsFound();
    NoNesting();
    var before := With(N, OnN, Whole);
    var states, events :| IsRun(W, states, events) && states[0] == Start && states[|events|] == before
      && Obeys(states, events, "v", 0, false);
    StartIsSafe(W, "v");
    FreeRunsAreCareful(W, states, events, "v", false);
    OneMore(states, events, before, On("v", BeginDelete));
    var states', events' := states + [Apply(W, before, On("v", BeginDelete))], events + [On("v", BeginDelete)];
    assert states'[|events|] == before && events'[|events|] == On("v", BeginDelete);
    assert before.volumes["v" := InDeletion(Ready, [Cleanup], map[])] == map["v" := InDeletion(Ready, [Cleanup], map[])];
  }

  lemma StepInDeletion(nodes: map<string, Node>, disk: map<string, set<Path>>, x: VolumeState, a: Action, y: VolumeState)
    requires Deletes(With(N, OnN, Whole), With(nodes, disk, x)) && !a.RunPod? && !Delimits(On("v", a))
    requires Possible(W, With(nodes, disk, x), "v", x, a) && Next(W, With(nodes, disk, x), "v", x, a) == y
    requires Careful("v", x, a)
    ensures Deletes(With(N, OnN, Whole), With(nodes, disk, y))
  {
    DeletesOn(With(N, OnN, Whole), With(nodes, disk, x), On("v", a));
    assert With(nodes, disk, x).volumes["v" := y] == map["v" := y];
  }

  lemma JoinInDeletion(nodes: map<string, Node>, disk: map<string, set<Path>>, x: VolumeState, n: string)
    requires Deletes(With(N, OnN, Whole), With(nodes, disk, x))
    ensures Deletes(With(N, OnN, Whole), With(nodes[n := TheNode], disk, x))
  {
    DeletesOn(With(N, OnN, Whole), With(nodes, disk, x), SetNode(n, TheNode));
  }

  lemma RunInDeletion(nodes: map<string, Node>, disk: map<string, set<Path>>, x: VolumeState, a: Action, y: VolumeState)
    requires Deletes(With(N, OnN, Whole), With(nodes, disk, x))
    requires a.RunPod? && CanRun(With(nodes, disk, x), x, a.kind, a.host, a.ok, a.after)
    requires y == x.(pods := x.pods[a.kind := x.pods[a.kind].(phase := Ended(a.ok, a.host, nodes[a.host].labels))])
    ensures Deletes(With(N, OnN, Whole), With(nodes, disk[a.host := a.after], y))
  {
    var t := With(nodes, disk, x);
    DeletesOn(With(N, OnN, Whole), t, On("v", a));
    assert t.volumes["v" := y] == map["v" := y];
  }

  const Both := N["m" := TheNode]
  const OnBoth := OnN["m" := {}]
  const CleanupLeft := map[Cleanup := CleanupPod]
  const CleanupDone := map[Cleanup := Done(CleanupPod, true, "m")]

  /** The request creates its next helper pod. */
  lemma CreateInDeletion(x: VolumeState, pod: Pod)
    requires Deletes(With(N, OnN, Whole), With(N, OnN, x)) && CanCreate(x, pod)
    ensures Deletes(With(N, OnN, Whole),
                    With(N, OnN, x.(pods := x.pods[x.op.value.todo[0] := pod], op := Some(x.op.value.(stage := Polling(0))))))
  {
    var t := With(N, OnN, x);
    var y := x.(pods := x.pods[x.op.value.todo[0] := pod], op := Some(x.op.value.(stage := Polling(0))));
    DeletesOn(With(N, OnN, Whole), t, On("v", CreatePod(pod)));
    assert t.volumes["v" := y] == map["v" := y];
  }

  lemma CleanupPodWaits()
    ensures Deletes(With(N, OnN, Whole), With(N, OnN, InDeletion(Polling(0), [Cleanup], CleanupLeft)))
  {
    DeletionIsBegun();
    TheSelection();
    var x := InDeletion(Ready, [Cleanup], map[]);
    CreateInDeletion(x, CleanupPod);
    assert x.pods[Cleanup := CleanupPod] == CleanupLeft;
  }

  /** After the lookup node m gains the labels, and the cleanup pod runs there. */
  lemma CleanupRunsOnM()
    ensures Deletes(With(N, OnN, Whole), With(Both, OnBoth, InDeletion(Polling(0), [Cleanup], CleanupDone)))
  {
    CleanupPodWaits();
    JoinInDeletion(N, OnN, InDeletion(Polling(0), [Cleanup], CleanupLeft), "m");
    PodsRun(CleanupPod);
    assert WithoutTree({}, TheDir) == {} && CleanupLeft[Cleanup := Done(CleanupPod, true, "m")] == CleanupDone;
    RunInDeletion(Both, OnN, InDeletion(Polling(0), [Cleanup], CleanupLeft), RunPod(Cleanup, "m", true, {}),
                  InDeletion(Polling(0), [Cleanup], CleanupDone));
  }

  lemma CleanupIsSeen()
    ensures Deletes(With(N, OnN, Whole), With(Both, OnBoth, InDeletion(Ready, [], map[])))
  {
    CleanupRunsOnM();
    StepInDeletion(Both, OnBoth, InDeletion(Polling(0), [Cleanup], CleanupDone), ReadPod(true), InDeletion(Leaving(true), [Cleanup], CleanupDone));
    assert CleanupDone - {Cleanup} == map[] && [Cleanup][1..] == [];
    StepInDeletion(Both, OnBoth, InDeletion(Leaving(true), [Cleanup], CleanupDone), LeavePod(true), InDeletion(Ready, [], map[]));
  }

  /** A finished deletion within a history, from the state before it to the state after it. */
  ghost predicate Deleted(before: State, after: State) {
    exists states, events, b, f {:trigger IsDeletion(W, states, events, b, f, "v")} ::
      && IsDeletion(W, states, events, b, f, "v") && CarefulRun(states, events, f, "v")
      && states[b] == before && states[f + 1] == after
  }

  lemma FinishesInDeletion(before: State, t: State)
    requires Deletes(before, t) && before != t && Enabled(W, t, On("v", FinishDelete))
    ensures Deleted(before, Apply(W, t, On("v", FinishDelete)))
  {
    var states, events, b: nat :| IsHistory(W, states, events) && CarefulRun(states, events, |events|, "v")
      && b < |events| && states[b] == before && events[b] == On("v", BeginDelete) && states[|events|] == t
      && forall i | b < i < |events| :: !Delimits(events[i]);
    OneMore(states, events, t, On("v", FinishDelete));
    var states', events' := states + [Apply(W, t, On("v", FinishDelete))], events + [On("v", FinishDelete)];
    assert states'[b] == before && events'[b] == On("v", BeginDelete) && events'[|events|] == On("v", FinishDelete);
    assert forall i | b < i < |events| :: !Delimits(events'[i]);
    assert IsDeletion(W, states', events', b, |events|, "v");
  }

  lemma WholeIsLive()
    ensures var before := With(N, OnN, Whole);
      Live(before, "v") && At(before, "v").home == Some(HomeAt("n")) && Still(before, "n", TheLabels) && Whole.pv.value.path == TheDir
  {
  }

  /** The home node kept its labels and was the only one found; another node gains them before
      the cleanup pod is scheduled, and gets it. The deletion succeeds, and the directory stays
      at home. */
  lemma LateNodeLeavesDirectory()
    ensures exists before, after ::
      && Deleted(before, after)
      && Live(before, "v") && At(before, "v").home == Some(HomeAt("n")) && Still(before, "n", TheLabels)
      && Matching(before, LabelsOf(At(before, "v").pv.value)) == {"n"}
      && OnDisk(after, "n", At(before, "v").pv.value.path)
  {
    CleanupIsSeen();
    OneNodeIsFound();
    WholeIsLive();
    var before, t := With(N, OnN, Whole), With(Both, OnBoth, InDeletion(Ready, [], map[]));
    FinishesInDeletion(before, t);
    assert OnDisk(Apply(W, t, On("v", FinishDelete)), "n", TheDir);
  }
}
