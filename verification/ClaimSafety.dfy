/** What the claim machine guarantees over whole runs. */
module ClaimSafety {
  import opened Wrappers
  import opened ClaimMachine

  ghost predicate IsHistory(polls: nat, states: seq<State>, events: seq<Event>) {
    IsRun(polls, states, events) && states[0] == Start
  }

  /** A PV that was handed out and whose deletion has not begun. */
  predicate Live(s: State, v: string) {
    At(s, v).pv.Some? && !At(s, v).condemned
  }

  lemma HistoryKeepsInv(polls: nat, states: seq<State>, events: seq<Event>, i: nat)
    requires IsHistory(polls, states, events) && i < |states|
    ensures Inv(polls, states[i])
  {
    RunKeepsInv(polls, states, events, i);
  }

  /** From one point on, nobody else takes the provisioner's finalizer off a claim. */
  ghost predicate NobodyTakes(events: seq<Event>, from: nat, c: string) {
    forall i {:trigger events[i]} | from <= i < |events| :: !Takes(events[i], c)
  }

  ghost predicate NobodyGives(events: seq<Event>, from: nat, c: string) {
    forall i {:trigger events[i]} | from <= i < |events| :: !Gives(events[i], c)
  }

  /** A step, for the two sides of being held by the finalizer. */
  lemma CoverStaysByOthers(polls: nat, s: State, e: Event, v: string)
    requires Enabled(polls, s, e) && !Takes(e, ClaimName(v)) && !(e.On? && e.volume == v)
    requires NeedsClaim(At(s, v)) && At(s, v).covered ==> Protected(s, ClaimName(v))
    ensures var t := Apply(polls, s, e); NeedsClaim(At(t, v)) && At(t, v).covered ==> Protected(t, ClaimName(v))
  {
    if e.On? && ClaimName(e.volume) == ClaimName(v) {
      ClaimNamesDistinct(e.volume, v);
    }
    ProtectionStays(polls, s, e, ClaimName(v));
  }

  lemma CoverStays(polls: nat, s: State, e: Event, v: string)
    requires Inv(polls, s) && Enabled(polls, s, e) && !Takes(e, ClaimName(v))
    requires NeedsClaim(At(s, v)) && At(s, v).covered ==> Protected(s, ClaimName(v))
    ensures var t := Apply(polls, s, e); NeedsClaim(At(t, v)) && At(t, v).covered ==> Protected(t, ClaimName(v))
  {
    assert Fine(polls, s, v, At(s, v));
    if !(e.On? && e.volume == v) {
      CoverStaysByOthers(polls, s, e, v);
    }
  }

  lemma NoCoverStays(polls: nat, s: State, e: Event, v: string)
    requires Inv(polls, s) && Enabled(polls, s, e) && !Gives(e, ClaimName(v))
    requires NeedsClaim(At(s, v)) && Protected(s, ClaimName(v)) ==> At(s, v).covered
    ensures var t := Apply(polls, s, e); NeedsClaim(At(t, v)) && Protected(t, ClaimName(v)) ==> At(t, v).covered
  {
    assert Fine(polls, s, v, At(s, v));
    if !(e.On? && e.volume == v) {
      if e.On? && ClaimName(e.volume) == ClaimName(v) {
        ClaimNamesDistinct(e.volume, v);
      }
      ProtectionStays(polls, s, e, ClaimName(v));
    }
  }

  /** A claim that is needed and was held when acquired is held, if it was at one point and
      nobody else has taken the finalizer off since. */
  lemma {:induction false} CoveredIsProtected(polls: nat, states: seq<State>, events: seq<Event>, from: nat, i: nat, v: string)
    requires IsHistory(polls, states, events) && from <= i < |states| && NobodyTakes(events[..i], from, ClaimName(v))
    requires NeedsClaim(At(states[from], v)) && At(states[from], v).covered ==> Protected(states[from], ClaimName(v))
    ensures NeedsClaim(At(states[i], v)) && At(states[i], v).covered ==> Protected(states[i], ClaimName(v))
  {
    if i > from {
      HistoryKeepsInv(polls, states, events, i - 1);
      assert IsStep(polls, states, events, i - 1) && events[..i][i - 1] == events[i - 1];
      assert forall j {:trigger events[..i - 1][j]} | 0 <= j < i - 1 :: events[..i - 1][j] == events[..i][j];
      CoveredIsProtected(polls, states, events, from, i - 1, v);
      CoverStays(polls, states[i - 1], events[i - 1], v);
    }
  }

  lemma {:induction false} ProtectedIsCovered(polls: nat, states: seq<State>, events: seq<Event>, from: nat, i: nat, v: string)
    requires IsHistory(polls, states, events) && from <= i < |states| && NobodyGives(events[..i], from, ClaimName(v))
    requires NeedsClaim(At(states[from], v)) && Protected(states[from], ClaimName(v)) ==> At(states[from], v).covered
    ensures NeedsClaim(At(states[i], v)) && Protected(states[i], ClaimName(v)) ==> At(states[i], v).covered
  {
    if i > from {
      HistoryKeepsInv(polls, states, events, i - 1);
      assert IsStep(polls, states, events, i - 1) && events[..i][i - 1] == events[i - 1];
      assert forall j {:trigger events[..i - 1][j]} | 0 <= j < i - 1 :: events[..i - 1][j] == events[..i][j];
      ProtectedIsCovered(polls, states, events, from, i - 1, v);
      NoCoverStays(polls, states[i - 1], events[i - 1], v);
    }
  }

  /** At every moment of every run a live PV names the claim of its own name; and unless
      somebody else has meddled with the provisioner's finalizer since the volume had no claim
      yet, the claim carries it exactly when it did at the moment it was created or reused, or
      was given it at startup. */
  lemma LivePVsAndTheirClaims(polls: nat, states: seq<State>, events: seq<Event>, from: nat, i: nat, v: string)
    requires IsHistory(polls, states, events) && from <= i < |states| && !NeedsClaim(At(states[from], v))
    requires Live(states[i], v)
    ensures At(states[i], v).pv.value == ClaimName(v)
    ensures NobodyTakes(events[..i], from, ClaimName(v)) && At(states[i], v).covered ==> Protected(states[i], ClaimName(v))
    ensures NobodyGives(events[..i], from, ClaimName(v)) && Protected(states[i], ClaimName(v)) ==> At(states[i], v).covered
  {
    HistoryKeepsInv(polls, states, events, i);
    assert Fine(polls, states[i], v, At(states[i], v));
    if NobodyTakes(events[..i], from, ClaimName(v)) {
      CoveredIsProtected(polls, states, events, from, i, v);
    }
    if NobodyGives(events[..i], from, ClaimName(v)) {
      ProtectedIsCovered(polls, states, events, from, i, v);
    }
  }

  /** Every time a claim of v is reused, from one point on, it carries the finalizer. */
  ghost predicate ReusesCovered(states: seq<State>, events: seq<Event>, from: nat, n: nat, v: string)
    requires |states| == |events| + 1 && n <= |events|
  {
    forall j | from <= j < n && events[j] == On(v, Reuse) :: Protected(states[j], ClaimName(v))
  }

  lemma CoveredStep(polls: nat, s: State, e: Event, v: string)
    requires Inv(polls, s) && Enabled(polls, s, e)
    requires NeedsClaim(At(s, v)) ==> At(s, v).covered
    requires e == On(v, Reuse) ==> Protected(s, ClaimName(v))
    ensures var y := At(Apply(polls, s, e), v); NeedsClaim(y) ==> y.covered
  {
    assert Fine(polls, s, v, At(s, v));
  }

  lemma {:induction false} CoveredThroughout(polls: nat, states: seq<State>, events: seq<Event>, from: nat, i: nat, v: string)
    requires IsHistory(polls, states, events) && from <= i < |states| && !NeedsClaim(At(states[from], v))
    requires ReusesCovered(states, events, from, i, v)
    ensures NeedsClaim(At(states[i], v)) ==> At(states[i], v).covered
  {
    if i > from {
      CoveredThroughout(polls, states, events, from, i - 1, v);
      HistoryKeepsInv(polls, states, events, i - 1);
      assert IsStep(polls, states, events, i - 1);
      assert events[i - 1] == On(v, Reuse) ==> Protected(states[i - 1], ClaimName(v));
      CoveredStep(polls, states[i - 1], events[i - 1], v);
    }
  }

  /** So if since then no request has taken over a claim without the finalizer, and nobody else
      has taken the finalizer off, the live PV has its claim, whatever third parties delete. */
  lemma LivePVsKeepTheirClaims(polls: nat, states: seq<State>, events: seq<Event>, from: nat, i: nat, v: string)
    requires IsHistory(polls, states, events) && from <= i < |states| && !NeedsClaim(At(states[from], v))
    requires ReusesCovered(states, events, from, i, v) && NobodyTakes(events[..i], from, ClaimName(v))
    requires Live(states[i], v)
    ensures At(states[i], v).pv.value == ClaimName(v) && Protected(states[i], ClaimName(v))
  {
    LivePVsAndTheirClaims(polls, states, events, from, i, v);
    CoveredThroughout(polls, states, events, from, i, v);
  }

  lemma {:induction false} RepairedStaysCovered(polls: nat, states: seq<State>, events: seq<Event>, i: nat, j: nat, v: string)
    requires IsHistory(polls, states, events) && i < j < |states| && events[i] == On(v, Repair)
    ensures At(states[j], v).handedOut && At(states[j], v).covered
    ensures j == i + 1 ==> Protected(states[j], ClaimName(v))
  {
    var s, e := states[j - 1], events[j - 1];
    HistoryKeepsInv(polls, states, events, j - 1);
    assert IsStep(polls, states, events, j - 1) && Fine(polls, s, v, At(s, v));
    if i < j - 1 {
      RepairedStaysCovered(polls, states, events, i, j - 1, v);
    }
  }

  /** Startup gives the claim its finalizer for good: while the PV is live the claim keeps it,
      unless somebody else takes it off after that. */
  lemma RepairedStaysProtected(polls: nat, states: seq<State>, events: seq<Event>, i: nat, j: nat, v: string)
    requires IsHistory(polls, states, events) && i < j < |states| && events[i] == On(v, Repair)
    requires Live(states[j], v) && NobodyTakes(events[..j], i + 1, ClaimName(v))
    ensures Protected(states[j], ClaimName(v))
  {
    RepairedStaysCovered(polls, states, events, i, i + 1, v);
    RepairedStaysCovered(polls, states, events, i, j, v);
    CoveredIsProtected(polls, states, events, i + 1, j, v);
  }

  /** With a poll count of zero, which is what WaitForBDTimeoutCounts is when nobody assigns
      it, no device volume is ever handed out. */
  lemma {:induction false} NoPollsNoVolumes(states: seq<State>, events: seq<Event>, i: nat, v: string)
    requires IsHistory(0, states, events) && i < |states|
    ensures At(states[i], v).pv.None?
    ensures At(states[i], v).op.Some? ==> !At(states[i], v).op.value.stage.Bound?
  {
    if i > 0 {
      NoPollsNoVolumes(states, events, i - 1, v);
      assert IsStep(0, states, events, i - 1);
    }
  }

  /** A step for one volume leaves the claims of all others as they are. */
  lemma OthersUnchanged(polls: nat, states: seq<State>, events: seq<Event>, i: nat, u: string)
    requires IsHistory(polls, states, events) && i < |events| && events[i].On? && events[i].volume != u
    ensures ClaimName(u) in states[i + 1].claims <==> ClaimName(u) in states[i].claims
    ensures ClaimName(u) in states[i].claims ==> states[i + 1].claims[ClaimName(u)] == states[i].claims[ClaimName(u)]
  {
    if ClaimName(events[i].volume) == ClaimName(u) {
      ClaimNamesDistinct(events[i].volume, u);
      assert false;
    }
    assert IsStep(polls, states, events, i);
    OtherClaimsUnchanged(polls, states[i], events[i], ClaimName(u));
  }

  /** The claim loses the provisioner's finalizer, and keeps all others in order and everything
      else; it goes only if it was being deleted and nothing else held it. */
  predicate Strips(s: State, t: State, c: string) {
    && c in s.claims
    && var before := s.claims[c];
       if c in t.claims then
         && t.claims[c].finalizers == Without(before.finalizers, LocalPVFinalizer)
         && t.claims[c].deleting == before.deleting && t.claims[c].device == before.device
       else before.deleting && Without(before.finalizers, LocalPVFinalizer) == []
  }

  /** The step of a release that takes the finalizer off does just that. */
  lemma ReleaseKeepsForeignFinalizers(polls: nat, states: seq<State>, events: seq<Event>, i: nat, v: string)
    requires IsHistory(polls, states, events) && i < |events| && events[i] == On(v, Strip)
    ensures Strips(states[i], states[i + 1], ClaimName(v))
  {
    HistoryKeepsInv(polls, states, events, i);
    assert IsStep(polls, states, events, i);
    assert Fine(polls, states[i], v, At(states[i], v));
  }

  /** The repair at startup adds the provisioner's finalizer behind the others, to a claim that
      lacks it and is not being deleted, and changes nothing else about it. */
  lemma RepairKeepsForeignFinalizers(polls: nat, states: seq<State>, events: seq<Event>, i: nat, v: string)
    requires IsHistory(polls, states, events) && i < |events| && events[i] == On(v, Repair)
    ensures ClaimName(v) in states[i].claims && ClaimName(v) in states[i + 1].claims
    ensures var before, after := states[i].claims[ClaimName(v)], states[i + 1].claims[ClaimName(v)];
      && LocalPVFinalizer !in before.finalizers && after.finalizers == before.finalizers + [LocalPVFinalizer]
      && !before.deleting && !after.deleting && after.device == before.device
  {
    assert IsStep(polls, states, events, i);
  }

  /** A claim that a request makes is held by the provisioner's finalizer alone, and by it once;
      no device is bound to it. One that it deletes goes at once if nothing holds it, and
      otherwise stays, marked, with all that holds it. */
  lemma MadeAndDeleted(polls: nat, states: seq<State>, events: seq<Event>, i: nat, v: string)
    requires IsHistory(polls, states, events) && i < |events|
    ensures events[i] == On(v, Create) ==>
      ClaimName(v) !in states[i].claims && ClaimName(v) in states[i + 1].claims
    ensures events[i] == On(v, Create) ==>
      var made := states[i + 1].claims[ClaimName(v)];
      made.finalizers == [LocalPVFinalizer] && !made.deleting && made.device == ""
    ensures events[i].On? && events[i].volume == v && events[i].action.Drop? ==>
      ClaimName(v) in states[i].claims &&
      var before := states[i].claims[ClaimName(v)];
      if before.finalizers == [] then ClaimName(v) !in states[i + 1].claims
      else ClaimName(v) in states[i + 1].claims &&
           var after := states[i + 1].claims[ClaimName(v)];
           after.deleting && after.finalizers == before.finalizers && after.device == before.device
  {
    assert IsStep(polls, states, events, i);
  }

  /** Who changes what about a claim that stays: only the node disk manager its device; only a
      deletion marks it, and nothing takes the mark off. */
  lemma WhoChangesAClaim(polls: nat, states: seq<State>, events: seq<Event>, i: nat, c: string)
    requires IsHistory(polls, states, events) && i < |events| && c in states[i].claims && c in states[i + 1].claims
    ensures var before, after := states[i].claims[c], states[i + 1].claims[c];
      && (after.device != before.device ==> events[i] == Bind(c, after.device))
      && (before.deleting ==> after.deleting)
      && (after.deleting && !before.deleting ==> events[i] == DeleteClaim(c) || DropsFor(events[i], c))
  {
    HistoryKeepsInv(polls, states, events, i);
    assert IsStep(polls, states, events, i);
    if events[i].On? {
      assert Fine(polls, states[i], events[i].volume, At(states[i], events[i].volume));
    }
  }

  /** The finalizers that are not the provisioner's. */
  function Foreign(claim: Claim): seq<string> {
    Without(claim.finalizers, LocalPVFinalizer)
  }

  lemma ForeignWithOurs(finalizers: seq<string>)
    ensures Without(finalizers + [LocalPVFinalizer], LocalPVFinalizer) == Without(finalizers, LocalPVFinalizer)
    ensures Without(Without(finalizers, LocalPVFinalizer), LocalPVFinalizer) == Without(finalizers, LocalPVFinalizer)
  {
    WithoutOfAppend(finalizers, [LocalPVFinalizer], LocalPVFinalizer);
    WithoutAbsent(Without(finalizers, LocalPVFinalizer), LocalPVFinalizer);
    assert Without([LocalPVFinalizer], LocalPVFinalizer) == [];
  }

  /** No request changes the finalizers of others on a claim that stays, or their order,
      whichever claim and whichever step it is. */
  lemma ForeignFinalizersStay(polls: nat, states: seq<State>, events: seq<Event>, i: nat, c: string)
    requires IsHistory(polls, states, events) && i < |events| && c in states[i].claims && c in states[i + 1].claims
    requires events[i].On?
    ensures Foreign(states[i + 1].claims[c]) == Foreign(states[i].claims[c])
  {
    HistoryKeepsInv(polls, states, events, i);
    assert IsStep(polls, states, events, i);
    assert Fine(polls, states[i], events[i].volume, At(states[i], events[i].volume));
    ForeignWithOurs(states[i].claims[c].finalizers);
  }

  predicate DropsFor(e: Event, c: string) {
    e.On? && ClaimName(e.volume) == c && e.action.Drop?
  }

  predicate StripsFor(e: Event, c: string) {
    e.On? && ClaimName(e.volume) == c && e.action.Strip?
  }

  /** A claim goes only when nothing holds it: one that nothing held was deleted, or the last
      finalizer of one that was being deleted was taken off. */
  lemma HowClaimsGo(polls: nat, states: seq<State>, events: seq<Event>, i: nat, c: string)
    requires IsHistory(polls, states, events) && i < |events| && c in states[i].claims && c !in states[i + 1].claims
    ensures var before, e := states[i].claims[c], events[i];
      || (before.finalizers == [] && (e == DeleteClaim(c) || DropsFor(e, c)))
      || (before.deleting && Foreign(before) == [] && StripsFor(e, c))
      || (before.deleting && e.TakeFinalizer? && e.claim == c && Without(before.finalizers, e.finalizer) == [])
  {
    HistoryKeepsInv(polls, states, events, i);
    assert IsStep(polls, states, events, i);
    if events[i].On? {
      assert Fine(polls, states[i], events[i].volume, At(states[i], events[i].volume));
    }
  }

  // ---------------------------------------------------------------- a run that goes wrong

  const C := ClaimName("v")

  function With(finalizers: seq<string>, device: string, version: nat, x: DeviceVolume): State {
    State(map[C := Claim(finalizers, false, device, version)], map["v" := x], version + 1)
  }

  function Busy(stage: Stage, covered: bool): DeviceVolume {
    DeviceVolume(None, Some(Op(Provisioning, stage)), false, false, covered)
  }

  const Events := [
    On("v", Begin), On("v", Create), On("v", Read(true)), On("v", TimeOut), On("v", Fetch), On("v", Strip), On("v", Fail),
    On("v", Begin), On("v", Reuse), Bind(C, "sda"), On("v", Read(true)), On("v", HandOut), DeleteClaim(C)]

  const States := [
    Start,
    State(map[], map["v" := Busy(Claiming, false)], 0),
    With([LocalPVFinalizer], "", 0, Busy(Polling(0), true)),
    With([LocalPVFinalizer], "", 0, Busy(Polling(1), true)),
    With([LocalPVFinalizer], "", 0, Busy(Releasing, true)),
    With([LocalPVFinalizer], "", 0, Busy(Stripping(Claim([LocalPVFinalizer], false, "", 0)), true)),
    With([], "", 1, Busy(Dropping, true)),
    With([], "", 1, DeviceVolume(None, None, false, false, true)),
    With([], "", 1, Busy(Claiming, true)),
    With([], "", 1, Busy(Polling(0), false)),
    With([], "sda", 2, Busy(Polling(0), false)),
    With([], "sda", 2, Busy(Bound("sda"), false)),
    With([], "sda", 2, DeviceVolume(Some(C), None, true, false, false)),
    State(map[], map["v" := DeviceVolume(Some(C), None, true, false, false)], 4)]

  predicate Leads(s: State, e: Event, t: State) {
    Enabled(1, s, e) && t == Apply(1, s, e)
  }

  lemma AllLead(states: seq<State>, events: seq<Event>)
    requires |states| == |events| + 1 && forall i | 0 <= i < |events| :: Leads(states[i], events[i], states[i + 1])
    ensures IsRun(1, states, events)
  {
    forall i {:trigger IsStep(1, states, events, i)} | 0 <= i < |events|
      ensures IsStep(1, states, events, i)
    {
      assert Leads(states[i], events[i], states[i + 1]);
    }
  }

  lemma FirstClaim()
    ensures forall i | 0 <= i < 2 :: Leads(States[i], Events[i], States[i + 1])
  {
  }

  lemma FirstTimeOut()
    ensures forall i | 2 <= i < 4 :: Leads(States[i], Events[i], States[i + 1])
  {
  }

  lemma FirstFetch()
    ensures Leads(States[4], Events[4], States[5])
  {
  }

  lemma FirstStrip()
    ensures Leads(States[5], Events[5], States[6])
  {
    assert Without([LocalPVFinalizer], LocalPVFinalizer) == [];
  }

  lemma FirstFailure()
    ensures Leads(States[6], Events[6], States[7])
  {
  }

  lemma RetryBegins()
    ensures Leads(States[7], Events[7], States[8])
  {
  }

  lemma RetryReuses()
    ensures Leads(States[8], Events[8], States[9])
  {
  }

  lemma DeviceIsBound()
    ensures Leads(States[9], Events[9], States[10])
  {
  }

  lemma RetryEnds()
    ensures forall i | 10 <= i < 13 :: Leads(States[i], Events[i], States[i + 1])
  {
  }

  lemma StatesAreAHistory()
    ensures IsHistory(1, States, Events)
  {
    FirstClaim();
    FirstTimeOut();
    FirstFetch();
    FirstStrip();
    FirstFailure();
    RetryBegins();
    RetryReuses();
    DeviceIsBound();
    RetryEnds();
    AllLead(States, Events);
  }

  lemma OnlyReuse(i: nat)
    requires i < |Events| && Events[i] == On("v", Reuse)
    ensures i == 8
  {
  }

  /** It is not enough that no retry starts while the claim is being deleted. The first
      attempt times out, takes the finalizer off, and then its delete call fails: the claim
      stays, not marked for deletion and without the finalizer. The retry takes it over, a
      device is bound, the PV is handed out, and a third party's delete makes the claim of the
      live PV vanish. */
  lemma StrippedClaimIsLost()
    ensures IsHistory(1, States, Events)
    ensures forall i | 0 <= i < |Events| && Events[i] == On("v", Reuse) ::
      ClaimName("v") in States[i].claims && !States[i].claims[ClaimName("v")].deleting
    ensures Live(States[13], "v") && At(States[13], "v").pv.value == ClaimName("v") && ClaimName("v") !in States[13].claims
  {
    StatesAreAHistory();
    forall i | 0 <= i < |Events| && Events[i] == On("v", Reuse)
      ensures i == 8
    {
      OnlyReuse(i);
    }
  }
}
