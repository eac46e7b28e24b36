/** Where an attempt to provision a volume may make the directory: exactly which nodes can end
    up as its home, while nodes stay as they are. */
module HostpathPlacement {
  import opened Wrappers
  import opened NodeSelection
  import opened HostpathMachine
  import opened HostpathCare
  import opened HostpathSafety

  /** What an attempt asks for, and what its helper pods tolerate. */
  datatype Attempt = Attempt(labels: Labels, base: Path, quotas: nat, tolerations: seq<Toleration>)

  /** During the attempt no node changes, no other attempt for v begins, and the pods created
      for v have the attempt's tolerations. Everything else may happen. */
  predicate During(e: Event, v: string, att: Attempt) {
    e.On? && (e.volume == v ==> !e.action.BeginProvision? && (e.action.CreatePod? ==> e.action.pod.tolerations == att.tolerations))
  }

  ghost predicate IsAttempt(w: World, states: seq<State>, events: seq<Event>, v: string, att: Attempt) {
    && IsRun(w, states, events)
    && |events| > 0 && events[0] == On(v, BeginProvision(att.labels, att.base, att.quotas))
    && forall i {:trigger During(events[i], v, att)} | 0 < i < |events| :: During(events[i], v, att)
  }

  /** The attempt, begun in state s, can get to state t. */
  ghost predicate Tries(w: World, s: State, t: State, v: string, att: Attempt) {
    exists states, events :: IsAttempt(w, states, events, v, att) && states[0] == s && states[|events|] == t
  }

  /** The attempt can hand out a PV whose directory was made on this node. */
  ghost predicate CanEndOn(w: World, s: State, v: string, att: Attempt, node: string) {
    exists t :: Tries(w, s, t, v, att) && Live(t, v) && At(t, v).home.Some? && At(t, v).home.value.node == node
  }

  // ---------------------------------------------------------------- where it cannot

  lemma {:induction false} NodesStay(w: World, states: seq<State>, events: seq<Event>, i: nat, v: string, att: Attempt)
    requires IsAttempt(w, states, events, v, att) && i < |states|
    ensures states[i].nodes == states[0].nodes
  {
    if i > 0 {
      NodesStay(w, states, events, i - 1, v, att);
      assert IsStep(w, states, events, i - 1);
      assert i > 1 ==> During(events[i - 1], v, att);
    }
  }

  /** Without polls no helper pod is seen to have succeeded. */
  predicate NoHome(x: VolumeState) {
    x.home.None? && x.pv.None? && (x.op.Some? ==> x.op.value.home.None?)
  }

  lemma {:induction false} NoHomeThroughout(w: World, states: seq<State>, events: seq<Event>, i: nat, v: string)
    requires IsRun(w, states, events) && w.retries == 0 && NoHome(At(states[0], v)) && i < |states|
    ensures NoHome(At(states[i], v))
  {
    if i > 0 {
      NoHomeThroughout(w, states, events, i - 1, v);
      assert IsStep(w, states, events, i - 1);
    }
  }

  lemma HomeIsFit(w: World, s: State, t: State, v: string, att: Attempt)
    requires Inv(w, s) && Tries(w, s, t, v, att) && At(t, v).home.Some?
    ensures var m := At(t, v).home.value.node; m in s.nodes && Fit(s.nodes[m], att.labels, att.tolerations)
    ensures At(t, v).home.value.wanted == Wanted(att.labels) && Sound(w, v, At(t, v))
  {
    var states: seq<State>, events: seq<Event> :| IsAttempt(w, states, events, v, att) && states[0] == s && states[|events|] == t;
    var homes := set n | n in s.nodes && Fit(s.nodes[n], att.labels, att.tolerations);
    forall j {:trigger events[j]} | 0 < j < |events| && events[j].On? && events[j].volume == v
      ensures !events[j].action.BeginProvision?
      ensures events[j].action.CreatePod? ==> events[j].action.pod.tolerations == att.tolerations
      ensures OnlyAmong(states[j], att.labels, att.tolerations, homes)
    {
      assert During(events[j], v, att);
      NodesStay(w, states, events, j, v, att);
    }
    DirectoryIsOnAFitNode(w, states, events, 0, |events|, v, att.tolerations, homes);
    RunKeepsInv(w, states, events, |events|);
  }

  lemma HomeNeedsPolls(w: World, s: State, t: State, v: string, att: Attempt)
    requires NoHome(At(s, v)) && Tries(w, s, t, v, att) && At(t, v).home.Some?
    ensures w.retries > 0
  {
    var states: seq<State>, events: seq<Event> :| IsAttempt(w, states, events, v, att) && states[0] == s && states[|events|] == t;
    if w.retries == 0 {
      NoHomeThroughout(w, states, events, |events|, v);
    }
  }

  lemma HomeNeedsLabels(w: World, s: State, t: State, v: string, att: Attempt)
    requires Inv(w, s) && Tries(w, s, t, v, att) && Live(t, v) && At(t, v).home.Some?
    ensures Wanted(att.labels) != map[]
  {
    HomeIsFit(w, s, t, v, att);
  }

  // ---------------------------------------------------------------- where it can

  /** The attempt goes on by one step. */
  lemma GoOn(w: World, s: State, t: State, v: string, att: Attempt, e: Event)
    requires Tries(w, s, t, v, att) && Enabled(w, t, e) && During(e, v, att)
    ensures Tries(w, s, Apply(w, t, e), v, att)
  {
    var states: seq<State>, events: seq<Event> :| IsAttempt(w, states, events, v, att) && states[0] == s && states[|events|] == t;
    var states', events' := states + [Apply(w, t, e)], events + [e];
    RunExtends(w, states, events, e);
    forall i {:trigger During(events'[i], v, att)} | 0 < i < |events'|
      ensures During(events'[i], v, att)
    {
      assert i < |events| ==> During(events[i], v, att);
    }
    assert states'[0] == s && states'[|events'|] == Apply(w, t, e);
    assert IsAttempt(w, states', events', v, att);
  }

  /** The attempt stands between two helper pods, and these are still to come. */
  predicate Between(t: State, v: string, att: Attempt, todo: seq<Kind>, home: Option<Home>) {
    var x := At(t, v);
    && x.op == Some(Op(Provisioning, att.labels, att.base + [v], att.quotas, todo, Ready, home))
    && x.home.None? && x.pv.None? && !x.condemned
  }

  /** And it can have got there with the nodes as they were. */
  ghost predicate Stands(w: World, s: State, t: State, v: string, att: Attempt, todo: seq<Kind>, home: Option<Home>) {
    Tries(w, s, t, v, att) && t.nodes == s.nodes && Between(t, v, att, todo, home)
  }

  function HomeOn(s: State, v: string, att: Attempt, m: string): Home
    requires m in s.nodes
  {
    Home(m, att.base + [v], s.nodes[m].labels, Wanted(att.labels))
  }

  predicate Hosts(w: World, s: State, att: Attempt, m: string) {
    w.retries > 0 && Wanted(att.labels) != map[] && m in s.nodes && Fit(s.nodes[m], att.labels, att.tolerations)
  }

  lemma Begins(w: World, s: State, v: string, att: Attempt) returns (t: State)
    requires att.base in w.bases && At(s, v).op.None? && At(s, v).home.None? && At(s, v).pv.None? && !At(s, v).condemned
    ensures Stands(w, s, t, v, att, Plan(att.quotas), None)
  {
    var e := On(v, BeginProvision(att.labels, att.base, att.quotas));
    t := Apply(w, s, e);
    var states, events := [s, t], [e];
    assert IsStep(w, states, events, 0);
    assert IsAttempt(w, states, events, v, att) && states[0] == s && states[|events|] == t;
  }

  /** A pod of that kind that is in the way is deleted. */
  lemma Clears(w: World, s: State, t: State, v: string, att: Attempt, todo: seq<Kind>, home: Option<Home>, kind: Kind) returns (u: State)
    requires Stands(w, s, t, v, att, todo, home)
    ensures Stands(w, s, u, v, att, todo, home) && kind !in At(u, v).pods
  {
    u := t;
    if kind in At(t, v).pods {
      GoOn(w, s, t, v, att, On(v, EvictPod(kind)));
      u := Apply(w, t, On(v, EvictPod(kind)));
    }
  }

  predicate Launched(u: State, v: string, att: Attempt, todo: seq<Kind>, home: Option<Home>, pod: Pod) {
    var x := At(u, v);
    && todo != []
    && x.op == Some(Op(Provisioning, att.labels, att.base + [v], att.quotas, todo, Polling(0), home))
    && x.home.None? && x.pv.None? && !x.condemned
    && todo[0] in x.pods && x.pods[todo[0]] == pod
  }

  lemma Launches(w: World, s: State, t: State, v: string, att: Attempt, todo: seq<Kind>, home: Option<Home>, m: string)
    returns (u: State, pod: Pod)
    requires Stands(w, s, t, v, att, todo, home) && todo != [] && todo[0] != Cleanup && todo[0] !in At(t, v).pods
    requires Hosts(w, s, att, m)
    ensures Tries(w, s, u, v, att) && u.nodes == s.nodes && Launched(u, v, att, todo, home, pod)
    ensures pod.phase.Waiting? && Schedulable(pod, s.nodes[m]) && Target(pod) == att.base + [v] && CommandFits(todo[0], pod.command)
  {
    var affinity := SomeEncoding(att.labels);
    pod := Pod(if todo[0] == Init then MakeDir else SetQuota("", ""), att.base, v, affinity, att.tolerations, Waiting);
    FitIsSchedulable(pod, s.nodes[m], att.labels);
    GoOn(w, s, t, v, att, On(v, CreatePod(pod)));
    u := Apply(w, t, On(v, CreatePod(pod)));
  }

  /** The pod runs on m, and well. */
  lemma Runs(w: World, s: State, t: State, v: string, att: Attempt, todo: seq<Kind>, home: Option<Home>, m: string, pod: Pod)
    returns (u: State)
    requires Tries(w, s, t, v, att) && t.nodes == s.nodes && Launched(t, v, att, todo, home, pod)
    requires m in s.nodes && pod.phase.Waiting? && Schedulable(pod, s.nodes[m]) && CommandFits(todo[0], pod.command) && todo[0] != Cleanup
    ensures Tries(w, s, u, v, att) && u.nodes == s.nodes
    ensures Launched(u, v, att, todo, home, pod.(phase := Ended(true, m, s.nodes[m].labels)))
  {
    var after := if todo[0] == Init then DiskOf(t, m) + {Target(pod)} else DiskOf(t, m);
    GoOn(w, s, t, v, att, On(v, RunPod(todo[0], m, true, after)));
    u := Apply(w, t, On(v, RunPod(todo[0], m, true, after)));
  }

  /** That is seen, and the pod deleted. */
  lemma Ends(w: World, s: State, t: State, v: string, att: Attempt, todo: seq<Kind>, home: Option<Home>, m: string, pod: Pod)
    returns (u: State)
    requires Tries(w, s, t, v, att) && t.nodes == s.nodes && Launched(t, v, att, todo, home, pod)
    requires w.retries > 0 && m in s.nodes && pod.phase == Ended(true, m, s.nodes[m].labels)
    ensures Stands(w, s, u, v, att, todo[1..], if todo[0] == Init then Some(HomeOn(s, v, att, m)) else home)
  {
    GoOn(w, s, t, v, att, On(v, ReadPod(true)));
    var seen := Apply(w, t, On(v, ReadPod(true)));
    GoOn(w, s, seen, v, att, On(v, LeavePod(true)));
    u := Apply(w, seen, On(v, LeavePod(true)));
  }

  lemma PodPasses(w: World, s: State, t: State, v: string, att: Attempt, todo: seq<Kind>, home: Option<Home>, m: string) returns (u: State)
    requires Stands(w, s, t, v, att, todo, home) && todo != [] && todo[0] != Cleanup && Hosts(w, s, att, m)
    ensures Stands(w, s, u, v, att, todo[1..], if todo[0] == Init then Some(HomeOn(s, v, att, m)) else home)
  {
    u := Clears(w, s, t, v, att, todo, home, todo[0]);
    var pod;
    u, pod := Launches(w, s, u, v, att, todo, home, m);
    u := Runs(w, s, u, v, att, todo, home, m, pod);
    u := Ends(w, s, u, v, att, todo, home, m, pod.(phase := Ended(true, m, s.nodes[m].labels)));
  }

  lemma {:induction false} QuotaPodsPass(w: World, s: State, t: State, v: string, att: Attempt, todo: seq<Kind>, home: Option<Home>, m: string)
    returns (u: State)
    requires Stands(w, s, t, v, att, todo, home) && Hosts(w, s, att, m) && forall i | 0 <= i < |todo| :: todo[i] == Quota
    ensures Stands(w, s, u, v, att, [], home)
    decreases |todo|
  {
    u := t;
    if todo != [] {
      assert todo[0] == Quota;
      u := PodPasses(w, s, t, v, att, todo, home, m);
      u := QuotaPodsPass(w, s, u, v, att, todo[1..], home, m);
    }
  }

  lemma FitCanBeHome(w: World, s: State, v: string, att: Attempt, m: string)
    requires att.base in w.bases && At(s, v).op.None? && At(s, v).home.None? && At(s, v).pv.None? && !At(s, v).condemned
    requires Hosts(w, s, att, m)
    ensures CanEndOn(w, s, v, att, m)
  {
    var t := Begins(w, s, v, att);
    t := PodPasses(w, s, t, v, att, Plan(att.quotas), None, m);
    assert Plan(att.quotas)[1..] == QuotaPods(att.quotas);
    t := QuotaPodsPass(w, s, t, v, att, QuotaPods(att.quotas), Some(HomeOn(s, v, att, m)), m);
    var affinity := SomeEncoding(att.labels);
    GoOn(w, s, t, v, att, On(v, HandOut(affinity, false)));
    var u := Apply(w, t, On(v, HandOut(affinity, false)));
    assert Tries(w, s, u, v, att) && Live(u, v) && At(u, v).home.value.node == m;
  }

  // ---------------------------------------------------------------- exactly where

  /** While nodes stay as they are, an attempt begun at any moment of any run can end with its
      directory on a node if and only if that node carries the labels, its taints are
      tolerated, and pods are polled at all. */
  lemma WhereDirectoriesGo(w: World, s: State, v: string, att: Attempt, m: string)
    requires Inv(w, s) && att.base in w.bases && At(s, v).op.None? && At(s, v).home.None?
    ensures CanEndOn(w, s, v, att, m) <==> Hosts(w, s, att, m)
  {
    assert Sound(w, v, At(s, v));
    if Hosts(w, s, att, m) {
      FitCanBeHome(w, s, v, att, m);
    }
    if CanEndOn(w, s, v, att, m) {
      var t :| Tries(w, s, t, v, att) && Live(t, v) && At(t, v).home.Some? && At(t, v).home.value.node == m;
      HomeIsFit(w, s, t, v, att);
      HomeNeedsPolls(w, s, t, v, att);
      HomeNeedsLabels(w, s, t, v, att);
    }
  }

  /** So the directory can be made elsewhere than on the selected node if and only if some
      other node carries the labels and its taints are tolerated by the pods. */
  lemma WhenDirectoriesGoElsewhere(w: World, s: State, v: string, att: Attempt, node: string)
    requires Inv(w, s) && att.base in w.bases && At(s, v).op.None? && At(s, v).home.None?
    ensures (exists m | m != node :: CanEndOn(w, s, v, att, m)) <==> (exists m | m != node :: Hosts(w, s, att, m))
  {
    forall m
      ensures CanEndOn(w, s, v, att, m) <==> Hosts(w, s, att, m)
    {
      WhereDirectoriesGo(w, s, v, att, m);
    }
  }
}
