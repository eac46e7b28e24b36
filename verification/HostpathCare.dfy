/** What keeps the directory of a volume safe: two things that others must not do, and that
    nothing in the code prevents.

    A quota pod that fails removes the directory it was made for. Usually it is then in the
    way of the attempt it harms: an attempt with a quota cannot create its own quota pod as
    long as the old one is there. An attempt without a quota does not notice; and neither does
    one whose way somebody clears by deleting the failed pod at the wrong moment. */
module HostpathCare {
  import opened Wrappers
  import opened NodeSelection
  import opened HostpathMachine

  /** A quota pod that may still remove a directory. */
  predicate Threat(x: VolumeState, dir: Path) {
    StillToRun(x, Quota) && Target(x.pods[Quota]) == dir
  }

  /** A quota pod that has failed, and may have removed a directory. */
  predicate QuotaFailed(x: VolumeState, dir: Path) {
    Quota in x.pods && Failed(x.pods[Quota].phase) && Target(x.pods[Quota]) == dir
  }

  predicate Provisions(x: VolumeState) { x.op.Some? && x.op.value.goal.Provisioning? }

  /** The init pod of the attempt has made the directory, whether or not that was seen. */
  predicate InitDone(x: VolumeState) {
    Current(x, Init) && Init in x.pods && x.pods[Init].phase.Ended? && x.pods[Init].phase.ok
  }

  /** The attempt is busy with a quota pod and has not seen it succeed. */
  predicate AwaitsQuota(x: VolumeState) {
    Current(x, Quota) && x.op.value.stage != Leaving(true)
  }

  /** The attempt relies on a directory that an old quota pod has removed, and only that pod
      is in the way of handing it out. */
  predicate Exposed(x: VolumeState) {
    && Provisions(x) && x.op.value.quotas > 0 && QuotaFailed(x, x.op.value.dir)
    && (x.op.value.home.Some? || InitDone(x)) && !AwaitsQuota(x)
  }

  /** No attempt without a quota begins while a quota pod for the same directory is still to
      run, and nobody deletes the quota pod that protects an exposed attempt. */
  predicate Careful(v: string, x: VolumeState, a: Action) {
    match a
    case BeginProvision(_, base, quotas) => quotas == 0 ==> !Threat(x, base + [v])
    case EvictPod(kind) => kind == Quota ==> !Exposed(x)
    case _ => true
  }

  ghost predicate CarefulRun(states: seq<State>, events: seq<Event>, n: nat, v: string)
    requires |states| == |events| + 1 && n <= |events|
  {
    forall i {:trigger events[i]} | 0 <= i < n && events[i].On? && events[i].volume == v ::
      Careful(v, At(states[i], v), events[i].action)
  }

  // ---------------------------------------------------------------- invariant

  /** The directory may be gone, and if so the attempt will not get past its quota pods. */
  predicate Damaged(x: VolumeState, op: Op) {
    op.quotas > 0 && (QuotaFailed(x, op.dir) || (AwaitsQuota(x) && Quota !in x.pods))
  }

  predicate QuotaSeen(x: VolumeState, op: Op) {
    || (op.stage.Ready? && op.home.Some? && |op.todo| < op.quotas)
    || (op.stage == Leaving(true) && op.todo != [] && op.todo[0] == Quota)
  }

  predicate AttemptKept(s: State, x: VolumeState, op: Op) {
    && (op.quotas == 0 ==> !Threat(x, op.dir))
    && (InitDone(x) ==> OnDisk(s, x.pods[Init].phase.node, op.dir) || Damaged(x, op))
    && (op.home.Some? ==> OnDisk(s, op.home.value.node, op.dir) || Damaged(x, op))
    && (QuotaSeen(x, op) ==> !Threat(x, op.dir) && !QuotaFailed(x, op.dir))
  }

  predicate HandedOutKept(s: State, x: VolumeState) {
    x.home.Some? ==>
      && !Threat(x, x.home.value.dir)
      && (x.pv.Some? && !x.condemned ==> OnDisk(s, x.home.value.node, x.home.value.dir))
  }

  predicate Kept(s: State, x: VolumeState) {
    HandedOutKept(s, x) && (Provisions(x) ==> AttemptKept(s, x, x.op.value))
  }

  // ---------------------------------------------------------------- preservation

  /** What the steps of an attempt rely on. */
  predicate Shape(x: VolumeState, op: Op) {
    && x.op == Some(op) && op.goal.Provisioning?
    && (op.stage.Ready? || op.todo != [])
    && PlanTail(op.todo, op.quotas)
    && (op.home.Some? <==> op.todo == [] || op.todo[0] == Quota || op.stage == Leaving(true))
  }

  lemma SoundHasShape(w: World, v: string, x: VolumeState)
    requires Sound(w, v, x) && Provisions(x)
    ensures Shape(x, x.op.value) && x.home.None? && !x.condemned && IsDirOf(w, x.op.value.dir, v)
  {
  }

  /** A helper pod takes a directory of its volume only if it was made for it, and is a quota
      pod that fails or a cleanup pod. */
  lemma RunTakes(w: World, s: State, v: string, x: VolumeState, a: Action, dir: Path)
    requires Disjoint(w) && IsDirOf(w, dir, v)
    requires a.RunPod? && CanRun(s, x, a.kind, a.host, a.ok, a.after) && PodSound(w, v, x, a.kind)
    requires dir in DiskOf(s, a.host) && dir !in a.after
    ensures Target(x.pods[a.kind]) == dir && (a.kind == Cleanup || (a.kind == Quota && !a.ok))
  {
    if Target(x.pods[a.kind]) != dir {
      RunStaysInside(w, s, v, x, a, dir, v);
    }
  }

  /** What a pod's run changes: the phase of the pod, and the directories of the host. */
  ghost predicate Ran(s: State, x: VolumeState, a: Action, t: State, y: VolumeState)
    requires a.RunPod? && CanRun(s, x, a.kind, a.host, a.ok, a.after)
  {
    && y == x.(pods := y.pods) && y.pods.Keys == x.pods.Keys
    && (forall k | k in x.pods && k != a.kind :: y.pods[k] == x.pods[k])
    && y.pods[a.kind] == x.pods[a.kind].(phase := Ended(a.ok, a.host, s.nodes[a.host].labels))
    && forall n :: DiskOf(t, n) == if n == a.host then a.after else DiskOf(s, n)
  }

  lemma AfterRun(w: World, s: State, v: string, x: VolumeState, a: Action)
    requires At(s, v) == x && Possible(w, s, v, x, a) && a.RunPod?
    ensures Ran(s, x, a, Apply(w, s, On(v, a)), Next(w, s, v, x, a))
  {
  }

  lemma QuotaRunKeepsAttempt(w: World, s: State, t: State, v: string, x: VolumeState, y: VolumeState, a: Action, op: Op)
    requires Disjoint(w) && IsDirOf(w, op.dir, v) && Shape(x, op) && AttemptKept(s, x, op)
    requires a.RunPod? && CanRun(s, x, a.kind, a.host, a.ok, a.after) && Ran(s, x, a, t, y)
    requires a.kind == Quota && PodSound(w, v, x, Quota)
    ensures AttemptKept(t, y, op)
  {
    if op.dir in DiskOf(s, a.host) && op.dir !in a.after {
      RunTakes(w, s, v, x, a, op.dir);
    }
  }

  lemma InitRunKeepsAttempt(w: World, s: State, t: State, v: string, x: VolumeState, y: VolumeState, a: Action, op: Op)
    requires Disjoint(w) && IsDirOf(w, op.dir, v) && Shape(x, op) && AttemptKept(s, x, op)
    requires a.RunPod? && CanRun(s, x, a.kind, a.host, a.ok, a.after) && Ran(s, x, a, t, y)
    requires a.kind == Init && PodSound(w, v, x, Init)
    ensures AttemptKept(t, y, op)
  {
    if op.dir in DiskOf(s, a.host) && op.dir !in a.after {
      RunTakes(w, s, v, x, a, op.dir);
    }
    assert InitDone(y) ==> Current(x, Init) && a.ok && op.dir in a.after;
  }

  lemma RunKeepsAttempt(w: World, s: State, t: State, v: string, x: VolumeState, y: VolumeState, a: Action)
    requires Disjoint(w) && Sound(w, v, x) && Kept(s, x) && Provisions(x)
    requires a.RunPod? && CanRun(s, x, a.kind, a.host, a.ok, a.after) && Ran(s, x, a, t, y)
    ensures AttemptKept(t, y, x.op.value)
  {
    SoundHasShape(w, v, x);
    assert PodSound(w, v, x, a.kind);
    if a.kind == Quota {
      QuotaRunKeepsAttempt(w, s, t, v, x, y, a, x.op.value);
    } else {
      InitRunKeepsAttempt(w, s, t, v, x, y, a, x.op.value);
    }
  }

  lemma RunKeepsHandedOut(w: World, s: State, t: State, v: string, x: VolumeState, y: VolumeState, a: Action)
    requires Disjoint(w) && Sound(w, v, x) && Kept(s, x)
    requires a.RunPod? && CanRun(s, x, a.kind, a.host, a.ok, a.after) && Ran(s, x, a, t, y)
    ensures HandedOutKept(t, y)
  {
    if x.home.Some? {
      assert PodSound(w, v, x, a.kind);
      HandedOutRun(w, s, t, v, x, y, a, x.home.value.dir);
    }
  }

  lemma HandedOutRun(w: World, s: State, t: State, v: string, x: VolumeState, y: VolumeState, a: Action, dir: Path)
    requires Disjoint(w) && IsDirOf(w, dir, v) && !Threat(x, dir)
    requires a.RunPod? && CanRun(s, x, a.kind, a.host, a.ok, a.after) && Ran(s, x, a, t, y) && PodSound(w, v, x, a.kind)
    ensures !Threat(y, dir)
    ensures x.pv.Some? && !x.condemned ==> forall n | OnDisk(s, n, dir) :: OnDisk(t, n, dir)
  {
    if dir in DiskOf(s, a.host) && dir !in a.after {
      RunTakes(w, s, v, x, a, dir);
    }
  }

  lemma OpeningKeeps(w: World, s: State, v: string, x: VolumeState, a: Action)
    requires Sound(w, v, x) && Possible(w, s, v, x, a) && Opens(a) && Careful(v, x, a) && Kept(s, x)
    ensures Kept(s, Next(w, s, v, x, a))
  {
  }

  lemma ReadKeepsAttempt(s: State, x: VolumeState, op: Op, reachable: bool)
    requires Shape(x, op) && op.todo != [] && op.stage.Polling? && AttemptKept(s, x, op)
    ensures AttemptKept(s, AfterRead(x, op, reachable), AfterRead(x, op, reachable).op.value)
  {
    var y := AfterRead(x, op, reachable);
    assert y.pods == x.pods && (Current(y, Init) <==> Current(x, Init)) && (Current(y, Quota) <==> Current(x, Quota));
  }

  lemma LeaveKeepsAttempt(s: State, x: VolumeState, op: Op, deleted: bool)
    requires Shape(x, op) && op.todo != [] && op.stage == Leaving(true) && AttemptKept(s, x, op)
    ensures AttemptKept(s, AfterLeave(x, op, deleted), AfterLeave(x, op, deleted).op.value)
  {
    var y := AfterLeave(x, op, deleted);
    assert Quota in y.pods ==> Quota in x.pods && y.pods[Quota] == x.pods[Quota];
    assert Quota in x.pods && Quota !in y.pods ==> op.todo[0] == Quota;
  }

  lemma TimeoutKeepsAttempt(s: State, x: VolumeState, op: Op)
    requires Shape(x, op) && op.stage.Polling? && AttemptKept(s, x, op)
    ensures var op' := op.(stage := Leaving(false)); AttemptKept(s, x.(op := Some(op')), op')
  {
    var y := x.(op := Some(op.(stage := Leaving(false))));
    assert (Current(y, Init) <==> Current(x, Init)) && (Current(y, Quota) <==> Current(x, Quota));
  }

  lemma CreateKeepsAttempt(s: State, x: VolumeState, op: Op, pod: Pod)
    requires Shape(x, op) && CanCreate(x, pod) && AttemptKept(s, x, op)
    ensures var op' := op.(stage := Polling(0)); AttemptKept(s, x.(pods := x.pods[op.todo[0] := pod], op := Some(op')), op')
  {
  }

  lemma EvictKeepsAttempt(s: State, x: VolumeState, op: Op, kind: Kind)
    requires Shape(x, op) && kind in x.pods && AttemptKept(s, x, op)
    requires kind == Quota ==> !Exposed(x)
    ensures AttemptKept(s, x.(pods := x.pods - {kind}, evictions := x.evictions + 1), op)
  {
    var y := x.(pods := x.pods - {kind}, evictions := x.evictions + 1);
    assert AwaitsQuota(y) <==> AwaitsQuota(x);
    assert InitDone(y) ==> InitDone(x);
  }

  /** The steps of a request between opening and closing. */
  lemma WithinKeepsAttempt(w: World, s: State, v: string, x: VolumeState, a: Action)
    requires x.op.Some? && Shape(x, x.op.value) && Possible(w, s, v, x, a) && !Opens(a) && !a.RunPod? && Careful(v, x, a)
    requires AttemptKept(s, x, x.op.value)
    ensures var y := Next(w, s, v, x, a); Provisions(y) ==> AttemptKept(s, y, y.op.value)
  {
    var op := x.op.value;
    match a {
      case CreatePod(pod) => CreateKeepsAttempt(s, x, op, pod);
      case ReadPod(reachable) => ReadKeepsAttempt(s, x, op, reachable);
      case LeavePod(deleted) =>
        if op.stage.ok {
          LeaveKeepsAttempt(s, x, op, deleted);
        }
      case Timeout => TimeoutKeepsAttempt(s, x, op);
      case EvictPod(kind) => EvictKeepsAttempt(s, x, op, kind);
      case NoAnswer =>
      case Fail =>
      case LoseAnswer =>
      case Abort =>
    }
  }

  /** No step but creating one makes a quota pod. */
  lemma QuotaPodsStay(w: World, s: State, v: string, x: VolumeState, a: Action)
    requires Possible(w, s, v, x, a) && !a.RunPod? && (a.CreatePod? ==> x.op.value.todo[0] != Quota)
    ensures var y := Next(w, s, v, x, a); Quota in y.pods ==> Quota in x.pods && y.pods[Quota] == x.pods[Quota]
  {
  }

  lemma WithinKeepsHandedOut(w: World, s: State, v: string, x: VolumeState, a: Action)
    requires Possible(w, s, v, x, a) && !Opens(a) && !a.RunPod? && HandedOutKept(s, x)
    requires x.home.Some? && x.op.Some? && x.op.value.todo != [] ==> x.op.value.todo[0] == Cleanup
    ensures HandedOutKept(s, Next(w, s, v, x, a))
  {
    RecordsStay(w, s, v, x, a);
    if x.home.Some? {
      QuotaPodsStay(w, s, v, x, a);
    }
  }

  lemma RunKeeps(w: World, s: State, v: string, x: VolumeState, a: Action)
    requires Disjoint(w) && At(s, v) == x && Sound(w, v, x) && Possible(w, s, v, x, a) && Kept(s, x) && a.RunPod?
    ensures Kept(Apply(w, s, On(v, a)), Next(w, s, v, x, a))
  {
    var t, y := Apply(w, s, On(v, a)), Next(w, s, v, x, a);
    AfterRun(w, s, v, x, a);
    RunKeepsHandedOut(w, s, t, v, x, y, a);
    if Provisions(x) {
      RunKeepsAttempt(w, s, t, v, x, y, a);
    }
  }

  lemma RestKeeps(w: World, s: State, v: string, x: VolumeState, a: Action)
    requires At(s, v) == x && Sound(w, v, x) && Possible(w, s, v, x, a) && Careful(v, x, a) && Kept(s, x) && !a.RunPod?
    ensures Kept(s, Next(w, s, v, x, a))
  {
    if Opens(a) {
      OpeningKeeps(w, s, v, x, a);
    } else {
      WithinKeeps(w, s, v, x, a);
    }
  }

  lemma ActionKeepsCare(w: World, s: State, v: string, x: VolumeState, a: Action)
    requires Disjoint(w) && At(s, v) == x && Sound(w, v, x) && Possible(w, s, v, x, a) && Careful(v, x, a) && Kept(s, x)
    ensures Kept(Apply(w, s, On(v, a)), Next(w, s, v, x, a))
  {
    if a.RunPod? {
      RunKeeps(w, s, v, x, a);
    } else {
      RestKeeps(w, s, v, x, a);
      SameDisk(s, Apply(w, s, On(v, a)), Next(w, s, v, x, a));
    }
  }

  lemma WithinKeeps(w: World, s: State, v: string, x: VolumeState, a: Action)
    requires Sound(w, v, x) && Possible(w, s, v, x, a) && Careful(v, x, a) && Kept(s, x) && !Opens(a) && !a.RunPod?
    ensures Kept(s, Next(w, s, v, x, a))
  {
    WithinKeepsHandedOut(w, s, v, x, a);
    RecordsStay(w, s, v, x, a);
    if Provisions(x) {
      SoundHasShape(w, v, x);
      WithinKeepsAttempt(w, s, v, x, a);
    }
  }

  lemma SameDisk(s: State, t: State, x: VolumeState)
    requires Kept(s, x) && t.disk == s.disk
    ensures Kept(t, x)
  {
  }

  /** Careful steps keep the directory of a volume where it is needed, whatever others do to
      other volumes. */
  lemma StepKeepsCare(w: World, s: State, e: Event, v: string)
    requires Disjoint(w) && Inv(w, s) && Enabled(w, s, e) && Kept(s, At(s, v))
    requires e.On? && e.volume == v ==> Careful(v, At(s, v), e.action)
    ensures Kept(Apply(w, s, e), At(Apply(w, s, e), v))
  {
    var x, t := At(s, v), Apply(w, s, e);
    assert Sound(w, v, x);
    if e.On? && e.volume == v {
      ActionKeepsCare(w, s, v, x, e.action);
    } else {
      if x.home.Some? {
        OthersUntouched(w, s, e, v, x.home.value.dir);
      }
      if x.op.Some? {
        OthersUntouched(w, s, e, v, x.op.value.dir);
      }
    }
  }

  lemma {:induction false} RunKeepsCare(w: World, states: seq<State>, events: seq<Event>, i: nat, v: string)
    requires Disjoint(w) && IsRun(w, states, events) && Inv(w, states[0]) && Kept(states[0], At(states[0], v))
    requires i < |states| && CarefulRun(states, events, i, v)
    ensures Kept(states[i], At(states[i], v))
  {
    if i > 0 {
      RunKeepsCare(w, states, events, i - 1, v);
      RunKeepsInv(w, states, events, i - 1);
      assert IsStep(w, states, events, i - 1);
      StepKeepsCare(w, states[i - 1], events[i - 1], v);
    }
  }
}
