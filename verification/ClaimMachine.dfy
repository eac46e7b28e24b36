/** Block device claims as a state machine. The provisioner creates or reuses one claim per
    device volume, polls until the node disk manager binds a device to it, and releases it by
    taking its own finalizer off and deleting it. In between, the node disk manager and third
    parties bind, add and take off finalizers of their own, delete and create claims.

    A claim with finalizers that is deleted stays, marked as being deleted, until the last
    finalizer is gone. An update carries the version that was read and fails when the claim
    has changed since. */
module ClaimMachine {
  import opened Wrappers

  const LocalPVFinalizer := "local.openebs.io/finalizer"

  datatype Claim = Claim(finalizers: seq<string>, deleting: bool, device: string, version: nat)

  datatype Goal = Provisioning | Deleting

  datatype Stage =
    | Claiming
    | Polling(polls: nat)
    | Bound(device: string)
    | Releasing
    | Stripping(fetched: Claim)
    | Dropping

  datatype Op = Op(goal: Goal, stage: Stage)

  /** One device volume: the PV, which names its claim, and the request in progress. condemned
      and covered are history: whether a deletion was begun, and whether the claim carried the
      provisioner's finalizer when it was created or reused, or got it at startup. */
  datatype DeviceVolume = DeviceVolume(pv: Option<string>, op: Option<Op>, handedOut: bool, condemned: bool, covered: bool)

  const Unused := DeviceVolume(None, None, false, false, false)

  datatype State = State(claims: map<string, Claim>, volumes: map<string, DeviceVolume>, clock: nat)

  const Start := State(map[], map[], 0)

  datatype Action =
    | Begin
    | Reuse
    | Create
    | Read(reachable: bool)
    | TimeOut
    | HandOut
    | BeginDelete
    | Fetch
    | Strip
    | Drop(answered: bool)
    | Fail
    // a call gets no answer, or is refused because the claim has changed since it was read
    | NoAnswer
    | Conflict
    | Repair

  datatype Event =
    | On(volume: string, action: Action)
    // the node disk manager and third parties
    | Bind(claim: string, device: string)
    | AddFinalizer(claim: string, finalizer: string)
    | TakeFinalizer(claim: string, finalizer: string)
    | DeleteClaim(claim: string)
    | MakeClaim(claim: string, finalizers: seq<string>)

  function ClaimName(v: string): string {
    "bdc-" + v
  }

  lemma ClaimNamesDistinct(v: string, u: string)
    requires ClaimName(v) == ClaimName(u)
    ensures v == u
  {
    assert ClaimName(v)[4..] == v && ClaimName(u)[4..] == u;
  }

  function At(s: State, v: string): DeviceVolume {
    if v in s.volumes then s.volumes[v] else Unused
  }

  /** util.RemoveString: all equal entries go, the rest keeps its order. */
  function Without(list: seq<string>, x: string): (r: seq<string>)
    ensures x !in r
    ensures forall y | y != x :: y in r <==> y in list
    ensures |r| <= |list|
  {
    if list == [] then []
    else (if list[0] == x then [] else [list[0]]) + Without(list[1..], x)
  }

  /** Removal works on each part of a list by itself, so that what stays keeps its order. */
  lemma {:induction false} WithoutOfAppend(a: seq<string>, b: seq<string>, x: string)
    ensures Without(a + b, x) == Without(a, x) + Without(b, x)
  {
    if a == [] {
      assert a + b == b && [] + Without(b, x) == Without(b, x);
    } else {
      var head := if a[0] == x then [] else [a[0]];
      assert (a + b)[1..] == a[1..] + b;
      WithoutOfAppend(a[1..], b, x);
      assert head + (Without(a[1..], x) + Without(b, x)) == (head + Without(a[1..], x)) + Without(b, x);
    }
  }

  /** A list without the entry stays as it is. */
  lemma {:induction false} WithoutAbsent(a: seq<string>, x: string)
    requires x !in a
    ensures Without(a, x) == a
  {
    if a != [] {
      WithoutAbsent(a[1..], x);
    }
  }

  // ---------------------------------------------------------------- the API server

  /** Writing a claim. One that is being deleted goes when its last finalizer goes. */
  function Written(s: State, c: string, claim: Claim): State {
    s.(claims := if claim.deleting && claim.finalizers == [] then s.claims - {c}
                 else s.claims[c := claim.(version := s.clock)],
       clock := s.clock + 1)
  }

  /** Deleting a claim: at once when it has no finalizers, otherwise it is marked. */
  function Deleted(s: State, c: string): State
    requires c in s.claims
  {
    Written(s, c, s.claims[c].(deleting := true))
  }

  predicate Working(x: DeviceVolume, stage: Stage) {
    x.op.Some? && x.op.value.stage == stage
  }

  /** polls is WaitForBDTimeoutCounts. */
  predicate Possible(polls: nat, s: State, v: string, x: DeviceVolume, a: Action) {
    var c := ClaimName(v);
    match a
    case Begin => x.op.None? && !x.handedOut
    case Reuse => Working(x, Claiming) && c in s.claims
    case Create => Working(x, Claiming) && c !in s.claims
    case Read(_) => x.op.Some? && x.op.value.stage.Polling? && x.op.value.stage.polls < polls
    case TimeOut => Working(x, Polling(polls))
    case HandOut => x.op.Some? && x.op.value.stage.Bound?
    case BeginDelete => x.pv.Some? && x.op.None?
    case Fetch => Working(x, Releasing) && c in s.claims
    case Strip =>
      x.op.Some? && x.op.value.stage.Stripping? && c in s.claims && s.claims[c].version == x.op.value.stage.fetched.version
    case Drop(_) => Working(x, Dropping) && c in s.claims
    case Fail => x.op.Some?
    case NoAnswer => true
    case Conflict =>
      x.op.Some? && x.op.value.stage.Stripping? && c in s.claims && s.claims[c].version != x.op.value.stage.fetched.version
    case Repair =>
      // at startup, before any request
      x.op.None? && x.pv.Some? && c in s.claims && !s.claims[c].deleting && LocalPVFinalizer !in s.claims[c].finalizers
  }

  function To(x: DeviceVolume, stage: Stage): DeviceVolume
    requires x.op.Some?
  {
    x.(op := Some(x.op.value.(stage := stage)))
  }

  /** What becomes of the volume. */
  function Next(polls: nat, s: State, v: string, x: DeviceVolume, a: Action): DeviceVolume
    requires Possible(polls, s, v, x, a)
  {
    var c := ClaimName(v);
    match a
    case Begin => x.(op := Some(Op(Provisioning, Claiming)))
    case Reuse => To(x, Polling(0)).(covered := LocalPVFinalizer in s.claims[c].finalizers)
    case Create => To(x, Polling(0)).(covered := true)
    case Read(reachable) =>
      if !reachable || c !in s.claims then x.(op := None)
      else if s.claims[c].device != "" then To(x, Bound(s.claims[c].device))
      else To(x, Polling(x.op.value.stage.polls + 1))
    case TimeOut => To(x, Releasing)
    case HandOut => x.(op := None, pv := Some(c), handedOut := true)
    case BeginDelete => x.(op := Some(Op(Deleting, Releasing)), condemned := true)
    case Fetch => To(x, Stripping(s.claims[c]))
    case Strip => To(x, Dropping)
    case Drop(answered) => x.(op := None, pv := if x.op.value.goal.Deleting? && answered then None else x.pv)
    case Fail => x.(op := None)
    case NoAnswer => x
    case Conflict => x
    case Repair => x.(covered := true)
  }

  /** What becomes of the claims. */
  function ClaimsNext(polls: nat, s: State, v: string, x: DeviceVolume, a: Action): State
    requires Possible(polls, s, v, x, a)
  {
    var c := ClaimName(v);
    match a
    case Create => Written(s, c, Claim([LocalPVFinalizer], false, "", 0))
    case Strip =>
      var fetched := x.op.value.stage.fetched;
      Written(s, c, fetched.(finalizers := Without(fetched.finalizers, LocalPVFinalizer)))
    case Drop(_) => Deleted(s, c)
    case Repair => Written(s, c, s.claims[c].(finalizers := s.claims[c].finalizers + [LocalPVFinalizer]))
    case _ => s
  }

  predicate Enabled(polls: nat, s: State, e: Event) {
    match e
    case On(v, a) => Possible(polls, s, v, At(s, v), a)
    case Bind(c, _) => c in s.claims
    case AddFinalizer(c, _) => c in s.claims && !s.claims[c].deleting
    case TakeFinalizer(c, _) => c in s.claims
    case DeleteClaim(c) => c in s.claims
    case MakeClaim(c, _) => c !in s.claims
  }

  function Apply(polls: nat, s: State, e: Event): State
    requires Enabled(polls, s, e)
  {
    match e
    case On(v, a) =>
      var x := At(s, v);
      ClaimsNext(polls, s, v, x, a).(volumes := s.volumes[v := Next(polls, s, v, x, a)])
    case Bind(c, device) => Written(s, c, s.claims[c].(device := device))
    case AddFinalizer(c, f) => Written(s, c, s.claims[c].(finalizers := s.claims[c].finalizers + [f]))
    case TakeFinalizer(c, f) => Written(s, c, s.claims[c].(finalizers := Without(s.claims[c].finalizers, f)))
    case DeleteClaim(c) => Deleted(s, c)
    case MakeClaim(c, finalizers) => Written(s, c, Claim(finalizers, false, "", 0))
  }

  ghost predicate IsRun(polls: nat, states: seq<State>, events: seq<Event>) {
    && |states| == |events| + 1
    && forall i {:trigger IsStep(polls, states, events, i)} | 0 <= i < |events| :: IsStep(polls, states, events, i)
  }

  ghost predicate IsStep(polls: nat, states: seq<State>, events: seq<Event>, i: nat)
    requires i < |events| < |states|
  {
    Enabled(polls, states[i], events[i]) && states[i + 1] == Apply(polls, states[i], events[i])
  }

  lemma RunExtends(polls: nat, states: seq<State>, events: seq<Event>, e: Event)
    requires IsRun(polls, states, events) && Enabled(polls, states[|events|], e)
    ensures IsRun(polls, states + [Apply(polls, states[|events|], e)], events + [e])
  {
    var states', events' := states + [Apply(polls, states[|events|], e)], events + [e];
    forall i {:trigger IsStep(polls, states', events', i)} | 0 <= i < |events'|
      ensures IsStep(polls, states', events', i)
    {
      assert i < |events| ==> IsStep(polls, states, events, i);
    }
  }

  // ---------------------------------------------------------------- invariant

  /** The claim exists and carries the provisioner's finalizer: nobody else can make it go. */
  predicate Protected(s: State, c: string) {
    c in s.claims && LocalPVFinalizer in s.claims[c].finalizers
  }

  /** The volume needs its claim: a request has it and has not given it up, or there is a PV
      whose deletion has not begun. */
  predicate NeedsClaim(x: DeviceVolume) {
    || (x.op.Some? && (x.op.value.stage.Polling? || x.op.value.stage.Bound?))
    || (x.pv.Some? && !x.condemned)
  }

  /** What was fetched is what is there, unless the version has moved on. */
  predicate FetchedFine(s: State, c: string, x: DeviceVolume) {
    x.op.Some? && x.op.value.stage.Stripping? && c in s.claims && s.claims[c].version == x.op.value.stage.fetched.version ==>
      s.claims[c] == x.op.value.stage.fetched
  }

  predicate Fine(polls: nat, s: State, v: string, x: DeviceVolume) {
    && (x.pv.Some? ==> x.pv.value == ClaimName(v) && x.handedOut)
    && (x.op.Some? ==> (x.op.value.goal.Deleting? <==> x.handedOut))
    && (x.op.Some? && x.op.value.goal.Deleting? ==>
          x.condemned && x.pv.Some? && !x.op.value.stage.Claiming? && !x.op.value.stage.Polling? && !x.op.value.stage.Bound?)
    && (x.op.Some? && x.op.value.stage.Polling? ==> x.op.value.stage.polls <= polls)
    && (x.op.Some? && x.op.value.stage.Stripping? ==> x.op.value.stage.fetched.version < s.clock)
    && FetchedFine(s, ClaimName(v), x)
  }

  /** A claim that is being deleted is there only as long as a finalizer holds it. */
  predicate GoingAreHeld(s: State) {
    forall c | c in s.claims && s.claims[c].deleting :: s.claims[c].finalizers != []
  }

  ghost predicate Inv(polls: nat, s: State) {
    && (forall c | c in s.claims :: s.claims[c].version < s.clock)
    && GoingAreHeld(s)
    && (forall v :: Fine(polls, s, v, At(s, v)))
  }

  /** Only events about a claim, or about the volume it belongs to, change that claim. */
  lemma OtherClaimsUnchanged(polls: nat, s: State, e: Event, c: string)
    requires Enabled(polls, s, e)
    requires if e.On? then ClaimName(e.volume) != c else e.claim != c
    ensures var t := Apply(polls, s, e);
      (c in t.claims <==> c in s.claims) && (c in s.claims ==> t.claims[c] == s.claims[c])
  {
  }

  /** Somebody else takes the provisioner's finalizer off a claim. */
  predicate Takes(e: Event, c: string) { e == TakeFinalizer(c, LocalPVFinalizer) }

  /** Somebody else puts the provisioner's finalizer on a claim. */
  predicate Gives(e: Event, c: string) {
    e == AddFinalizer(c, LocalPVFinalizer) || (e.MakeClaim? && e.claim == c && LocalPVFinalizer in e.finalizers)
  }

  /** Unless somebody else meddles with the provisioner's finalizer itself, nobody but the
      volume's own request takes away or gives protection. */
  lemma ProtectionStays(polls: nat, s: State, e: Event, c: string)
    requires Enabled(polls, s, e)
    requires e.On? ==> ClaimName(e.volume) != c
    ensures Protected(s, c) && !Takes(e, c) ==> Protected(Apply(polls, s, e), c)
    ensures Protected(Apply(polls, s, e), c) && !Gives(e, c) ==> Protected(s, c)
  {
    if e.On? || e.claim != c {
      OtherClaimsUnchanged(polls, s, e, c);
    }
  }

  lemma GoingStayHeld(polls: nat, s: State, e: Event)
    requires Enabled(polls, s, e) && GoingAreHeld(s)
    ensures GoingAreHeld(Apply(polls, s, e))
  {
  }

  lemma VersionsStay(polls: nat, s: State, e: Event)
    requires Enabled(polls, s, e) && forall c | c in s.claims :: s.claims[c].version < s.clock
    ensures var t := Apply(polls, s, e);
      t.clock >= s.clock && forall c | c in t.claims :: t.claims[c].version < t.clock
    ensures var t := Apply(polls, s, e);
      forall c | c in t.claims && t.claims[c].version < s.clock :: c in s.claims && t.claims[c] == s.claims[c]
  {
  }

  lemma OwnStepKeeps(polls: nat, s: State, v: string, a: Action)
    requires Inv(polls, s) && Possible(polls, s, v, At(s, v), a)
    ensures Fine(polls, Apply(polls, s, On(v, a)), v, Next(polls, s, v, At(s, v), a))
  {
    assert Fine(polls, s, v, At(s, v));
  }

  lemma OtherStepKeeps(polls: nat, s: State, e: Event, v: string)
    requires Inv(polls, s) && Enabled(polls, s, e) && !(e.On? && e.volume == v)
    ensures Fine(polls, Apply(polls, s, e), v, At(Apply(polls, s, e), v))
  {
    assert Fine(polls, s, v, At(s, v));
    VersionsStay(polls, s, e);
  }

  lemma StepKeeps(polls: nat, s: State, e: Event)
    requires Inv(polls, s) && Enabled(polls, s, e)
    ensures Inv(polls, Apply(polls, s, e))
  {
    var t := Apply(polls, s, e);
    VersionsStay(polls, s, e);
    GoingStayHeld(polls, s, e);
    forall v
      ensures Fine(polls, t, v, At(t, v))
    {
      if e.On? && e.volume == v {
        OwnStepKeeps(polls, s, v, e.action);
      } else {
        OtherStepKeeps(polls, s, e, v);
      }
    }
  }

  lemma {:induction false} RunKeepsInv(polls: nat, states: seq<State>, events: seq<Event>, i: nat)
    requires IsRun(polls, states, events) && Inv(polls, states[0]) && i < |states|
    ensures Inv(polls, states[i])
  {
    if i > 0 {
      RunKeepsInv(polls, states, events, i - 1);
      assert IsStep(polls, states, events, i - 1);
      StepKeeps(polls, states[i - 1], events[i - 1]);
    }
  }
}
