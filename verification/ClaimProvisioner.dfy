/** The device half of the provisioner as it is written: methods that call the API, one call
    after another, while everybody else acts in between. Every call is a step of the claim
    machine, so what is proved of all runs of the machine holds for all executions of these
    methods; and a call that gets no answer is a step of its own, so that a method can only
    leave something undone for a reason that history shows. */
module ClaimProvisioner {
  import opened Wrappers
  import opened NodeSelection
  import opened ObjectBuilders
  import opened VolumeConfigs
  import opened ClaimMachine
  import opened ClaimSafety

  class HelperBlockDeviceOptions {
    const name: string
    const nodeHostname: string
    var bdcName: string

    constructor (name: string, nodeHostname: string)
      ensures this.name == name && this.nodeHostname == nodeHostname && bdcName == ""
    {
      this.name, this.nodeHostname, bdcName := name, nodeHostname, "";
    }

    predicate Complete() { name != "" && nodeHostname != "" }

    predicate HasBDC()
      reads this
    {
      bdcName != ""
    }

    method SetBlockDeviceClaimFromPV(annotation: Option<string>)
      modifies this
      ensures bdcName == if annotation.Some? then annotation.value else old(bdcName)
    {
      if annotation.Some? {
        bdcName := annotation.value;
      }
    }
  }

  /** A device as the node disk manager reports it. A link has at least one path: taking the
      first path of a link without any would crash. */
  datatype DevLink = DevLink(kind: string, links: seq<string>)

  datatype BlockDevice = BlockDevice(mountpoint: string, path: string, devLinks: seq<DevLink>)

  predicate Linked(bd: BlockDevice) {
    forall l | l in bd.devLinks :: l.links != []
  }

  /** The path under which the device is used. Without links it is the reported path. Of
      several links by id it is the last one that counts, though the comment in the source
      promises the first; without any, it is the first link. */
  ghost predicate IsBlockPath(bd: BlockDevice, blkPath: string)
    requires Linked(bd)
  {
    && (bd.devLinks == [] ==> blkPath == bd.path)
    && (bd.devLinks != [] && (forall l | l in bd.devLinks :: l.kind != "by-id") ==> blkPath == bd.devLinks[0].links[0])
    && (forall i | 0 <= i < |bd.devLinks| && bd.devLinks[i].kind == "by-id"
          && (forall j | i < j < |bd.devLinks| :: bd.devLinks[j].kind != "by-id") :: blkPath == bd.devLinks[i].links[0])
  }

  method BlockPath(bd: BlockDevice) returns (blkPath: string)
    requires Linked(bd)
    ensures IsBlockPath(bd, blkPath)
  {
    blkPath := bd.path;
    if |bd.devLinks| > 0 {
      blkPath := bd.devLinks[0].links[0];
      for n := 0 to |bd.devLinks|
        invariant (forall l | l in bd.devLinks[..n] :: l.kind != "by-id") ==> blkPath == bd.devLinks[0].links[0]
        invariant forall i | 0 <= i < n && bd.devLinks[i].kind == "by-id"
                    && (forall j | i < j < n :: bd.devLinks[j].kind != "by-id") :: blkPath == bd.devLinks[i].links[0]
      {
        if bd.devLinks[n].kind == "by-id" {
          blkPath := bd.devLinks[n].links[0];
        }
      }
    }
  }

  lemma {:induction false} LastById(bd: BlockDevice, p: string, q: string, i: nat)
    requires Linked(bd) && IsBlockPath(bd, p) && IsBlockPath(bd, q) && i < |bd.devLinks| && bd.devLinks[i].kind == "by-id"
    ensures p == q
    decreases |bd.devLinks| - i
  {
    if j :| i < j < |bd.devLinks| && bd.devLinks[j].kind == "by-id" {
      LastById(bd, p, q, j);
    }
  }

  lemma OneBlockPath(bd: BlockDevice, p: string, q: string)
    requires Linked(bd) && IsBlockPath(bd, p) && IsBlockPath(bd, q)
    ensures p == q
  {
    if l :| l in bd.devLinks && l.kind == "by-id" {
      var i :| 0 <= i < |bd.devLinks| && bd.devLinks[i] == l;
      LastById(bd, p, q, i);
    }
  }

  datatype DevicePV = DevicePV(bdc: string, path: string, fsType: string, affinity: NodeSelector, retain: bool)

  /** The claim is gone, or it is going and the provisioner does not hold it back. */
  predicate Released(s: State, c: string) {
    c in s.claims ==> s.claims[c].deleting && LocalPVFinalizer !in s.claims[c].finalizers
  }

  /** Among the steps from one point on, the provisioner took its finalizer off the claim, and
      left the others in order. */
  ghost predicate WasStripped(states: seq<State>, events: seq<Event>, from: nat, v: string) {
    |states| > |events| && exists i {:trigger events[i]} | from <= i < |events| ::
      events[i] == On(v, Strip) && Strips(states[i], states[i + 1], ClaimName(v))
  }

  lemma StillStripped(states: seq<State>, events: seq<Event>, states': seq<State>, events': seq<Event>, from: nat, from': nat, v: string)
    requires WasStripped(states, events, from, v) && states <= states' && events <= events' && |states'| > |events'| && from' <= from
    ensures WasStripped(states', events', from', v)
  {
    var i :| from <= i < |events| && events[i] == On(v, Strip) && Strips(states[i], states[i + 1], ClaimName(v));
    assert events'[i] == events[i] && states'[i] == states[i] && states'[i + 1] == states[i + 1];
  }

  /** Among the steps from one point on, the request for v stopped waiting for a device. */
  ghost predicate WasTimedOut(events: seq<Event>, from: nat, v: string) {
    exists i {:trigger events[i]} | from <= i < |events| :: events[i] == On(v, TimeOut)
  }

  /** Where the device is mounted, or else its own path. */
  ghost predicate IsPathOf(bd: BlockDevice, path: string)
    requires Linked(bd)
  {
    if bd.mountpoint != "" then path == bd.mountpoint else IsBlockPath(bd, path)
  }

  /** The path is one of a device that was bound to the claim since one point. */
  ghost predicate FromBound(states: seq<State>, from: nat, v: string, devices: map<string, BlockDevice>, path: string)
    requires forall d | d in devices :: Linked(devices[d])
  {
    exists d | d in devices :: WasBound(states, from, ClaimName(v), d) && IsPathOf(devices[d], path)
  }

  lemma StillFromBound(states: seq<State>, from: nat, from': nat, v: string, devices: map<string, BlockDevice>, path: string)
    requires forall d | d in devices :: Linked(devices[d])
    requires FromBound(states, from, v, devices, path) && from' <= from
    ensures FromBound(states, from', v, devices, path)
  {
    var d :| d in devices && WasBound(states, from, ClaimName(v), d) && IsPathOf(devices[d], path);
    StillBound(states, states, from, from', ClaimName(v), d);
  }

  /** A device with a path: where it is mounted, or else one of its own. */
  ghost predicate HasPath(bd: BlockDevice)
    requires Linked(bd)
  {
    bd.mountpoint != "" || forall p | IsBlockPath(bd, p) :: p != ""
  }

  /** What the release of a claim amounts to. Success means that the finalizer was taken off, with
      the others kept in order. Answers to all calls mean that it was, or that the claim was
      gone when it was to be; and the claim is then gone or going, unless somebody else put the
      finalizer on again; that holds after success, too. */
  ghost predicate GivenBack(s: State, states: seq<State>, events: seq<Event>, from: nat, v: string, ok: bool) {
    && (ok ==> WasStripped(states, events, from, v))
    && (Answered(events, from, v) ==> ok || ClaimName(v) !in s.claims)
    && ((ok || Answered(events, from, v)) && NobodyGives(events, from, ClaimName(v)) ==> Released(s, ClaimName(v)))
  }

  lemma GivenBackSince(s: State, states: seq<State>, events: seq<Event>, later: nat, from: nat, v: string, ok: bool)
    requires GivenBack(s, states, events, later, v, ok) && from <= later && |states| > |events|
    ensures GivenBack(s, states, events, from, v, ok)
  {
    AnsweredParts(events, events, from, later, v);
    if ok {
      StillStripped(states, events, states, events, later, from, v);
    }
  }

  /** A call made for a volume got no answer, or was refused because the claim had changed. */
  predicate Unanswered(a: Action) {
    a == Read(false) || a == Drop(false) || a == NoAnswer || a == Conflict
  }

  /** From one point on all calls made for v were answered. */
  ghost predicate Answered(events: seq<Event>, from: nat, v: string) {
    forall i {:trigger events[i]} | from <= i < |events| && events[i].On? && events[i].volume == v :: !Unanswered(events[i].action)
  }

  lemma AnsweredParts(events: seq<Event>, events': seq<Event>, from: nat, later: nat, v: string)
    requires events <= events' && from <= later
    ensures Answered(events', from, v) ==> Answered(events, from, v) && Answered(events', later, v)
  {
    assert forall i {:trigger events[i]} | 0 <= i < |events| :: events'[i] == events[i];
  }

  /** From one point on nobody else deleted the claim, made it, or took a finalizer off. */
  ghost predicate Untouched(events: seq<Event>, from: nat, c: string) {
    forall i {:trigger events[i]} | from <= i < |events| && !events[i].On? && events[i].claim == c ::
      events[i].Bind? || events[i].AddFinalizer?
  }

  lemma UntouchedParts(events: seq<Event>, events': seq<Event>, from: nat, later: nat, c: string)
    requires events <= events' && from <= later
    ensures Untouched(events', from, c) ==> Untouched(events, from, c) && Untouched(events', later, c)
  {
    assert forall i {:trigger events[i]} | 0 <= i < |events| :: events'[i] == events[i];
  }

  /** A step of others leaves the claim where it was or was not, unless it touches it. */
  lemma ClaimStaysThere(polls: nat, s: State, e: Event, v: string)
    requires Enabled(polls, s, e) && GoingAreHeld(s) && (e.On? ==> e.volume != v) && Untouched([e], 0, ClaimName(v))
    ensures ClaimName(v) in Apply(polls, s, e).claims <==> ClaimName(v) in s.claims
  {
    assert [e][0] == e;
    if e.On? && ClaimName(e.volume) == ClaimName(v) {
      ClaimNamesDistinct(e.volume, v);
    }
    if e.On? || e.claim != ClaimName(v) {
      OtherClaimsUnchanged(polls, s, e, ClaimName(v));
    }
  }

  /** At some moment since one point a device was bound to the claim that is not among these. */
  ghost predicate WasUnknown(states: seq<State>, from: nat, c: string, devices: set<string>) {
    exists i {:trigger states[i]} | from <= i < |states| ::
      c in states[i].claims && states[i].claims[c].device != "" && states[i].claims[c].device !in devices
  }

  /** At some moment since one point this device was bound to the claim. */
  ghost predicate WasBound(states: seq<State>, from: nat, c: string, device: string) {
    exists i {:trigger states[i]} | from <= i < |states| :: c in states[i].claims && states[i].claims[c].device == device
  }

  lemma StillBound(states: seq<State>, states': seq<State>, from: nat, from': nat, c: string, device: string)
    requires WasBound(states, from, c, device) && states <= states' && from' <= from
    ensures WasBound(states', from', c, device)
  {
    var i :| from <= i < |states| && c in states[i].claims && states[i].claims[c].device == device;
    assert states'[i] == states[i];
  }

  predicate SameRecords(x: DeviceVolume, y: DeviceVolume) {
    y.handedOut == x.handedOut && y.condemned == x.condemned
  }

  /** The claim is held by the finalizer exactly when it was at the time it was created or taken
      over, unless somebody else has meddled with the finalizer since one point. */
  ghost predicate HeldAsCovered(s: State, events: seq<Event>, from: nat, v: string) {
    && (NobodyTakes(events, from, ClaimName(v)) && At(s, v).covered ==> Protected(s, ClaimName(v)))
    && (NobodyGives(events, from, ClaimName(v)) && Protected(s, ClaimName(v)) ==> At(s, v).covered)
  }

  /** Nobody but the provisioner has acted since. */
  ghost predicate Quiet(events: seq<Event>, from: nat) {
    forall i {:trigger events[i]} | from <= i < |events| :: events[i].On?
  }

  lemma NobodyGave(events: seq<Event>, e: Event, from: nat, c: string)
    requires from <= |events|
    ensures NobodyGives(events + [e], from, c) <==> NobodyGives(events, from, c) && !Gives(e, c)
    ensures NobodyTakes(events + [e], from, c) <==> NobodyTakes(events, from, c) && !Takes(e, c)
  {
    var events' := events + [e];
    assert events'[|events|] == e && forall i {:trigger events'[i]} | 0 <= i < |events| :: events'[i] == events[i];
    assert forall i {:trigger events[i]} | 0 <= i < |events| :: events'[i] == events[i];
  }

  /** Giving since a later point is giving since an earlier one. */
  lemma NobodyGivesLater(events: seq<Event>, from: nat, later: nat, c: string)
    requires from <= later && NobodyGives(events, from, c)
    ensures NobodyGives(events, later, c)
  {
  }

  /** There is nothing to do for this claim at startup. */
  predicate Settled(s: State, c: string, unreadable: set<string>) {
    c in s.claims && c !in unreadable ==> s.claims[c].deleting || LocalPVFinalizer in s.claims[c].finalizers
  }

  /** The PV of a device. It can be built exactly when it has a name, an access mode, a label with
      a value, and a path: where the device is mounted, or else one of its own. */
  method BuildDevicePV(name: string, bdcName: string, bd: BlockDevice, labels: Labels, fsType: string, retain: bool, accessModes: nat)
    returns (r: Result<DevicePV>)
    requires Linked(bd)
    ensures r.Success? <==>
      name != "" && accessModes > 0 && Wanted(labels) != map[] && HasPath(bd)
    ensures r.Success? ==>
      && r.value.bdc == bdcName && r.value.fsType == fsType && r.value.retain == retain && Encodes(r.value.affinity, labels)
      && r.value.path != "" && IsPathOf(bd, r.value.path)
  {
    var path := bd.mountpoint;
    if path == "" {
      path := BlockPath(bd);
      forall p | IsBlockPath(bd, p)
        ensures p == path
      {
        OneBlockPath(bd, p, path);
      }
    }
    var builder := new PersistentVolumeBuilder();
    builder.WithName(name);
    builder.WithReclaimPolicy(retain);
    builder.WithAccessModes(accessModes);
    builder.WithLocalHostPathFormat(path, fsType);
    builder.WithNodeAffinity(labels);
    var built := builder.Build();
    if built.Failure? {
      return Failure(built.error);
    }
    return Success(DevicePV(bdcName, path, fsType, built.value.affinity, retain));
  }

  class Provisioner {
    const polls: nat
    var s: State
    ghost var states: seq<State>
    ghost var events: seq<Event>

    ghost predicate Valid()
      reads this
    {
      IsHistory(polls, states, events) && s == states[|events|]
    }

    constructor (polls: nat)
      ensures Valid() && this.polls == polls && s == Start && events == []
    {
      this.polls := polls;
      s, states, events := Start, [Start], [];
    }

    /** The cluster takes one step. */
    method Do(e: Event)
      requires Valid() && Enabled(polls, s, e)
      modifies this
      ensures Valid() && s == Apply(polls, old(s), e)
      ensures events == old(events) + [e] && states == old(states) + [s]
    {
      RunExtends(polls, states, events, e);
      s := Apply(polls, s, e);
      states := states + [s];
      events := events + [e];
    }

    /** Others take any number of steps: anything but requests for volume v. */
    method Interfere(v: string)
      requires Valid()
      modifies this
      ensures Valid() && old(events) <= events && old(states) <= states
      ensures At(s, v) == old(At(s, v))
      ensures NobodyGives(events, |old(events)|, ClaimName(v)) && Protected(s, ClaimName(v)) ==> old(Protected(s, ClaimName(v)))
      ensures Untouched(events, |old(events)|, ClaimName(v)) ==> (ClaimName(v) in s.claims <==> ClaimName(v) in old(s.claims))
    {
      var n: nat := *;
      while n > 0
        invariant Valid() && old(events) <= events && old(states) <= states
        invariant At(s, v) == old(At(s, v))
        invariant NobodyGives(events, |old(events)|, ClaimName(v)) && Protected(s, ClaimName(v)) ==> old(Protected(s, ClaimName(v)))
        invariant Untouched(events, |old(events)|, ClaimName(v)) ==> (ClaimName(v) in s.claims <==> ClaimName(v) in old(s.claims))
      {
        var e: Event := *;
        if Enabled(polls, s, e) && (e.On? ==> e.volume != v) {
          OthersStep(v, e, |old(events)|);
        }
        n := n - 1;
      }
    }

    method OthersStep(v: string, e: Event, ghost from: nat)
      requires Valid() && from <= |events| && Enabled(polls, s, e) && (e.On? ==> e.volume != v)
      modifies this
      ensures Valid() && old(events) <= events && old(states) <= states
      ensures At(s, v) == old(At(s, v))
      ensures NobodyGives(events, from, ClaimName(v)) ==>
        NobodyGives(old(events), from, ClaimName(v)) && (Protected(s, ClaimName(v)) ==> old(Protected(s, ClaimName(v))))
      ensures Untouched(events, from, ClaimName(v)) ==>
        Untouched(old(events), from, ClaimName(v)) && (ClaimName(v) in s.claims <==> ClaimName(v) in old(s.claims))
    {
      if e.On? && ClaimName(e.volume) == ClaimName(v) {
        ClaimNamesDistinct(e.volume, v);
      }
      ProtectionStays(polls, s, e, ClaimName(v));
      ghost var before := s;
      Do(e);
      NobodyGave(old(events), e, from, ClaimName(v));
      UntouchedParts(old(events), events, from, |old(events)|, ClaimName(v));
      if Untouched(events, from, ClaimName(v)) {
        HistoryKeepsInv(polls, old(states), old(events), |old(events)|);
        assert events[|old(events)|] == e;
        ClaimStaysThere(polls, before, e, v);
      }
    }

    /** A call made for v gets no answer. */
    method NotAnswered(v: string, ghost from: nat)
      requires Valid() && from <= |events|
      modifies this
      ensures Valid() && old(events) <= events && old(states) <= states
      ensures At(s, v) == old(At(s, v)) && s.claims == old(s.claims)
      ensures !Answered(events, from, v)
    {
      Do(On(v, NoAnswer));
      assert events[|old(events)|] == On(v, NoAnswer);
    }

    /** A request that failed is over. */
    method GiveUp(v: string)
      requires Valid()
      modifies this
      ensures Valid() && old(events) <= events && old(states) <= states
      ensures At(s, v) == old(At(s, v)).(op := None) && s.claims == old(s.claims)
      ensures events == if old(At(s, v)).op.Some? then old(events) + [On(v, Fail)] else old(events)
    {
      if At(s, v).op.Some? {
        Do(On(v, Fail));
      }
    }

    // ---------------------------------------------------------------- the claim

    /** A claim of the right name is reused whatever its state; otherwise one is created, with
        the provisioner's finalizer. The builder of the claim has checks of its own: buildable
        tells whether they are passed. */
    method CreateBlockDeviceClaim(v: string, opts: HelperBlockDeviceOptions, buildable: bool) returns (ok: bool, reused: bool)
      requires Valid()
      requires opts.name == v && At(s, v).op == Some(Op(Provisioning, Claiming))
      modifies this, opts
      ensures Valid() && old(events) <= events && old(states) <= states
      ensures ok ==> opts.bdcName == ClaimName(v) && At(s, v).op == Some(Op(Provisioning, Polling(0)))
      ensures ok ==> ClaimName(v) in s.claims
      ensures ok && !reused ==> Protected(s, ClaimName(v)) && s.claims[ClaimName(v)].device == ""
      ensures ok && reused ==> events[|events| - 1] == On(v, Reuse)
      ensures !ok ==> opts.bdcName == old(opts.bdcName) && At(s, v).(op := None, covered := old(At(s, v)).covered) == old(At(s, v)).(op := None)
      ensures SameRecords(old(At(s, v)), At(s, v)) && At(s, v).pv == old(At(s, v)).pv
      ensures Answered(events, |old(events)|, v) && Untouched(events, |old(events)|, ClaimName(v)) ==>
        (opts.Complete() && buildable ==> ok)
    {
      reused := false;
      if !opts.Complete() {
        return false, reused;
      }
      Interfere(v);
      var readable: bool := *;
      if readable && ClaimName(v) in s.claims {
        TakeOver(v);
        opts.bdcName := ClaimName(v);
        return true, true;
      }
      if !readable {
        NotAnswered(v, |old(events)|);
      }
      ghost var read := events;
      ok := MakeClaim(v, opts, buildable);
      AnsweredParts(read, events, |old(events)|, |read|, v);
      UntouchedParts(read, events, |old(events)|, |read|, ClaimName(v));
    }

    method TakeOver(v: string)
      requires Valid() && At(s, v).op == Some(Op(Provisioning, Claiming)) && ClaimName(v) in s.claims
      modifies this
      ensures Valid() && old(states) <= states && events == old(events) + [On(v, Reuse)] && s.claims == old(s.claims)
      ensures At(s, v).op == Some(Op(Provisioning, Polling(0)))
      ensures SameRecords(old(At(s, v)), At(s, v)) && At(s, v).pv == old(At(s, v)).pv
    {
      Do(On(v, Reuse));
    }

    /** The create call, after none was found. Its answer may be lost. */
    method MakeClaim(v: string, opts: HelperBlockDeviceOptions, buildable: bool) returns (ok: bool)
      requires Valid()
      requires opts.name == v && At(s, v).op == Some(Op(Provisioning, Claiming))
      modifies this, opts
      ensures Valid() && old(events) <= events && old(states) <= states
      ensures ok ==> opts.bdcName == ClaimName(v) && At(s, v).op == Some(Op(Provisioning, Polling(0)))
      ensures ok ==> Protected(s, ClaimName(v)) && s.claims[ClaimName(v)].device == ""
      ensures !ok ==> opts.bdcName == old(opts.bdcName) && At(s, v).(op := None, covered := old(At(s, v)).covered) == old(At(s, v)).(op := None)
      ensures SameRecords(old(At(s, v)), At(s, v)) && At(s, v).pv == old(At(s, v)).pv
      ensures Answered(events, |old(events)|, v) && Untouched(events, |old(events)|, ClaimName(v)) ==>
        (buildable && ClaimName(v) !in old(s.claims) ==> ok)
    {
      Interfere(v);
      if !buildable {
        return false;
      }
      var writable: bool, answered: bool := *, *;
      if !writable {
        NotAnswered(v, |old(events)|);
        return false;
      }
      if ClaimName(v) in s.claims {
        return false;
      }
      StoreClaim(v);
      if !answered {
        NotAnswered(v, |old(events)|);
        return false;
      }
      opts.bdcName := ClaimName(v);
      return true;
    }

    method StoreClaim(v: string)
      requires Valid() && At(s, v).op == Some(Op(Provisioning, Claiming)) && ClaimName(v) !in s.claims
      modifies this
      ensures Valid() && old(events) <= events && old(states) <= states
      ensures At(s, v) == old(At(s, v)).(op := Some(Op(Provisioning, Polling(0))), covered := true)
      ensures Protected(s, ClaimName(v)) && s.claims[ClaimName(v)].device == ""
    {
      Do(On(v, Create));
    }

    /** Waits for a device to be bound. None without an error means that every one of the
        reads, as many as there may be, found none. */
    method AwaitDevice(v: string) returns (ok: bool, device: Option<string>, tries: nat)
      requires Valid()
      requires At(s, v).op == Some(Op(Provisioning, Polling(0)))
      modifies this
      ensures Valid() && old(events) <= events && old(states) <= states
      ensures tries <= polls
      ensures SameRecords(old(At(s, v)), At(s, v)) && At(s, v).pv == old(At(s, v)).pv
      ensures !ok ==> At(s, v).op.None?
      ensures ok && device.None? ==> tries == polls && At(s, v).op == Some(Op(Provisioning, Polling(polls)))
      ensures ok && device.Some? ==>
        && tries > 0 && device.value != "" && At(s, v).op == Some(Op(Provisioning, Bound(device.value)))
        && WasBound(states, |old(events)|, ClaimName(v), device.value)
      ensures Answered(events, |old(events)|, v) && Untouched(events, |old(events)|, ClaimName(v)) ==>
        (ClaimName(v) in old(s.claims) ==> ok)
    {
      tries := 0;
      while tries < polls
        invariant Valid() && old(events) <= events && old(states) <= states
        invariant tries <= polls
        invariant SameRecords(old(At(s, v)), At(s, v)) && At(s, v).pv == old(At(s, v)).pv
        invariant At(s, v).op == Some(Op(Provisioning, Polling(tries)))
        invariant Untouched(events, |old(events)|, ClaimName(v)) && ClaimName(v) in old(s.claims) ==> ClaimName(v) in s.claims
      {
        ghost var events', states' := events, states;
        var found := ReadClaim(v);
        tries := tries + 1;
        AnsweredParts(events', events, |old(events)|, |events'|, v);
        UntouchedParts(events', events, |old(events)|, |events'|, ClaimName(v));
        if found.None? {
          return false, None, tries;
        } else if found.value != "" {
          StillBound(states, states, |events'|, |old(events)|, ClaimName(v), found.value);
          return true, found, tries;
        }
      }
      return true, None, tries;
    }

    /** One read of the claim: the device bound to it, or None for an error. */
    method ReadClaim(v: string) returns (found: Option<string>)
      requires Valid()
      requires At(s, v).op.Some? && At(s, v).op.value.stage.Polling? && At(s, v).op.value.stage.polls < polls
      modifies this
      ensures Valid() && old(events) <= events && old(states) <= states
      ensures SameRecords(old(At(s, v)), At(s, v)) && At(s, v).pv == old(At(s, v)).pv
      ensures At(s, v).op ==
        if found.None? then None
        else if found.value != "" then Some(old(At(s, v)).op.value.(stage := Bound(found.value)))
        else Some(old(At(s, v)).op.value.(stage := Polling(old(At(s, v)).op.value.stage.polls + 1)))
      ensures found.Some? ==> WasBound(states, |old(events)|, ClaimName(v), found.value)
      ensures found.None? && Answered(events, |old(events)|, v) ==> ClaimName(v) !in s.claims
      ensures Untouched(events, |old(events)|, ClaimName(v)) ==> (ClaimName(v) in s.claims <==> ClaimName(v) in old(s.claims))
    {
      Interfere(v);
      ghost var waited, before := events, states;
      var reachable: bool := *;
      found := if reachable && ClaimName(v) in s.claims then Some(s.claims[ClaimName(v)].device) else None;
      Do(On(v, Read(reachable)));
      assert events[|waited|] == On(v, Read(reachable)) && states[|waited|] == before[|waited|];
      UntouchedParts(waited, events, |old(events)|, |waited|, ClaimName(v));
    }

    /** Creates or takes over the claim and waits for its device, which is then looked up among
        the devices there are. When no device turns up the claim is released; deleted tells
        whether that succeeded, which it does if all calls are answered and the claim is there.
        If all calls are answered and nobody else touches the claim, it fails for nothing else
        but a timeout and a device that is not there. */
    method GetBlockDevicePath(v: string, opts: HelperBlockDeviceOptions, buildable: bool, devices: map<string, BlockDevice>)
      returns (r: Result<BlockDevice>, tries: nat, timedOut: bool, deleted: bool)
      requires Valid() && forall d | d in devices :: Linked(devices[d])
      requires opts.name == v && At(s, v).op.Some? && At(s, v).op.value.goal.Provisioning? && At(s, v).pv.None?
      requires if opts.HasBDC() then opts.bdcName == ClaimName(v) && At(s, v).op.value.stage == Polling(0)
               else At(s, v).op.value.stage.Claiming?
      modifies this, opts
      ensures Valid() && old(events) <= events && old(states) <= states
      ensures tries <= polls && (timedOut ==> tries == polls && r.Failure?)
      ensures polls == 0 ==> r.Failure?
      ensures r.Failure? ==> At(s, v).op.None?
      ensures timedOut ==> GivenBack(s, states, events, |old(events)|, v, deleted) && WasTimedOut(events, |old(events)|, v)
      ensures r.Success? ==>
        && opts.bdcName == ClaimName(v)
        && At(s, v).op.Some? && At(s, v).op.value.goal.Provisioning? && At(s, v).op.value.stage.Bound?
        && At(s, v).op.value.stage.device in devices && r.value == devices[At(s, v).op.value.stage.device]
        && WasBound(states, |old(events)|, ClaimName(v), At(s, v).op.value.stage.device)
      ensures SameRecords(old(At(s, v)), At(s, v)) && At(s, v).pv.None?
      ensures Answered(events, |old(events)|, v) && Untouched(events, |old(events)|, ClaimName(v)) && !old(opts.HasBDC()) ==>
        (opts.Complete() && buildable && r.Failure? ==>
         timedOut || WasUnknown(states, |old(events)|, ClaimName(v), devices.Keys))
    {
      tries, timedOut, deleted := 0, false, false;
      if !opts.HasBDC() {
        var ok, _ := CreateBlockDeviceClaim(v, opts, buildable);
        if !ok {
          GiveUp(v);
          AnsweredParts(events[..|events|], events, |old(events)|, |old(events)|, v);
          return Failure("failed to create BDC"), tries, timedOut, deleted;
        }
      }
      ghost var claimed := events;
      r, tries, timedOut, deleted := FindDevice(v, opts, devices);
      AnsweredParts(claimed, events, |old(events)|, |claimed|, v);
      UntouchedParts(claimed, events, |old(events)|, |claimed|, ClaimName(v));
      if timedOut {
        GivenBackSince(s, states, events, |claimed|, |old(events)|, v, deleted);
      }
    }

    method FindDevice(v: string, opts: HelperBlockDeviceOptions, devices: map<string, BlockDevice>)
      returns (r: Result<BlockDevice>, tries: nat, timedOut: bool, deleted: bool)
      requires Valid() && forall d | d in devices :: Linked(devices[d])
      requires At(s, v).op == Some(Op(Provisioning, Polling(0))) && At(s, v).pv.None?
      requires opts.bdcName == ClaimName(v)
      modifies this
      ensures Valid() && old(events) <= events && old(states) <= states
      ensures tries <= polls && (timedOut ==> tries == polls && r.Failure?)
      ensures polls == 0 ==> r.Failure?
      ensures r.Failure? ==> At(s, v).op.None?
      ensures timedOut ==> GivenBack(s, states, events, |old(events)|, v, deleted) && WasTimedOut(events, |old(events)|, v)
      ensures r.Success? ==>
        && At(s, v).op.Some? && At(s, v).op.value.goal.Provisioning? && At(s, v).op.value.stage.Bound?
        && At(s, v).op.value.stage.device in devices && r.value == devices[At(s, v).op.value.stage.device]
        && WasBound(states, |old(events)|, ClaimName(v), At(s, v).op.value.stage.device)
      ensures SameRecords(old(At(s, v)), At(s, v)) && At(s, v).pv.None?
      ensures Answered(events, |old(events)|, v) && Untouched(events, |old(events)|, ClaimName(v)) ==>
        (ClaimName(v) in old(s.claims) && r.Failure? ==>
         timedOut || WasUnknown(states, |old(events)|, ClaimName(v), devices.Keys))
    {
      timedOut, deleted := false, false;
      var ok, device;
      ok, device, tries := AwaitDevice(v);
      if !ok {
        return Failure("unable to get BDC"), tries, timedOut, deleted;
      }
      ghost var waited, states' := events, states;
      if device.None? {
        deleted := GiveClaimBack(v, opts);
        GivenBackSince(s, states, events, |waited|, |old(events)|, v, deleted);
        return Failure("unable to find BD for BDC"), tries, true, deleted;
      }
      var bd := GetDevice(v, device.value, devices);
      AnsweredParts(waited, events, |old(events)|, |waited|, v);
      StillBound(states', states, |old(events)|, |old(events)|, ClaimName(v), device.value);
      if bd.None? {
        return Failure("unable to find BD"), tries, timedOut, deleted;
      }
      return Success(bd.value), tries, timedOut, deleted;
    }

    /** Looks the device up. If it cannot, the request is over. */
    method GetDevice(v: string, device: string, devices: map<string, BlockDevice>) returns (bd: Option<BlockDevice>)
      requires Valid() && At(s, v).op.Some?
      modifies this
      ensures Valid() && old(events) <= events && old(states) <= states
      ensures bd.Some? ==> At(s, v) == old(At(s, v)) && device in devices && bd.value == devices[device]
      ensures bd.None? ==> At(s, v) == old(At(s, v)).(op := None)
      ensures bd.None? && Answered(events, |old(events)|, v) ==> device !in devices
    {
      Interfere(v);
      var reachable: bool := *;
      if !reachable {
        NotAnswered(v, |old(events)|);
      }
      if !reachable || device !in devices {
        ghost var asked := events;
        GiveUp(v);
        AnsweredParts(asked, events, |old(events)|, |old(events)|, v);
        return None;
      }
      return Some(devices[device]);
    }

    /** After a timeout. */
    method GiveClaimBack(v: string, opts: HelperBlockDeviceOptions) returns (deleted: bool)
      requires Valid()
      requires At(s, v).op == Some(Op(Provisioning, Polling(polls))) && At(s, v).pv.None?
      requires opts.bdcName == ClaimName(v)
      modifies this
      ensures Valid() && old(events) <= events && old(states) <= states
      ensures GivenBack(s, states, events, |old(events)|, v, deleted) && WasTimedOut(events, |old(events)|, v)
      ensures At(s, v).op.None? && SameRecords(old(At(s, v)), At(s, v)) && At(s, v).pv.None?
    {
      Do(On(v, TimeOut));
      ghost var later, timedOut := |events|, events;
      deleted := DeleteBlockDeviceClaim(v, opts);
      assert events[|old(events)|] == timedOut[|old(events)|];
      GivenBackSince(s, states, events, later, |old(events)|, v, deleted);
    }

    /** Takes the provisioner's finalizer off. The update fails when the claim has changed
        since it was read. If all calls are answered, it is taken off or the claim is gone. */
    method RemoveFinalizer(v: string, opts: HelperBlockDeviceOptions) returns (ok: bool)
      requires Valid()
      requires opts.bdcName == ClaimName(v) && At(s, v).op.Some? && At(s, v).op.value.stage.Releasing?
      modifies this
      ensures Valid() && old(events) <= events && old(states) <= states
      ensures SameRecords(old(At(s, v)), At(s, v)) && At(s, v).pv == old(At(s, v)).pv
      ensures ok ==>
        && At(s, v).op == Some(old(At(s, v)).op.value.(stage := Dropping))
        && !Protected(s, ClaimName(v)) && WasStripped(states, events, |old(events)|, v)
      ensures !ok && Answered(events, |old(events)|, v) ==> ClaimName(v) !in s.claims
    {
      Interfere(v);
      var reachable: bool := *;
      if !reachable {
        NotAnswered(v, |old(events)|);
        return false;
      }
      if ClaimName(v) !in s.claims {
        return false;
      }
      FetchClaim(v);
      ghost var fetched := events;
      ok := UpdateWithoutFinalizer(v);
      AnsweredParts(fetched, events, |old(events)|, |fetched|, v);
      if ok {
        StillStripped(states, events, states, events, |fetched|, |old(events)|, v);
      }
    }

    method FetchClaim(v: string)
      requires Valid() && At(s, v).op.Some? && At(s, v).op.value.stage.Releasing? && ClaimName(v) in s.claims
      modifies this
      ensures Valid() && old(events) <= events && old(states) <= states
      ensures At(s, v) == old(At(s, v)).(op := Some(old(At(s, v)).op.value.(stage := Stripping(old(s.claims[ClaimName(v)])))))
    {
      Do(On(v, Fetch));
    }

    /** Writes the fetched claim back without the finalizer. The answer may be lost. */
    method UpdateWithoutFinalizer(v: string) returns (ok: bool)
      requires Valid()
      requires At(s, v).op.Some? && At(s, v).op.value.stage.Stripping?
      modifies this
      ensures Valid() && old(events) <= events && old(states) <= states
      ensures SameRecords(old(At(s, v)), At(s, v)) && At(s, v).pv == old(At(s, v)).pv
      ensures ok ==>
        && At(s, v).op == Some(old(At(s, v)).op.value.(stage := Dropping))
        && !Protected(s, ClaimName(v)) && WasStripped(states, events, |old(events)|, v)
      ensures !ok && Answered(events, |old(events)|, v) ==> ClaimName(v) !in s.claims
    {
      Interfere(v);
      var reachable: bool, answered: bool := *, *;
      if !reachable {
        NotAnswered(v, |old(events)|);
        return false;
      }
      if ClaimName(v) !in s.claims {
        return false;
      }
      if s.claims[ClaimName(v)].version != At(s, v).op.value.stage.fetched.version {
        Refused(v, |old(events)|);
        return false;
      }
      StoreStripped(v, |old(events)|);
      if !answered {
        NotAnswered(v, |old(events)|);
        return false;
      }
      return true;
    }

    method Refused(v: string, ghost from: nat)
      requires Valid() && from <= |events|
      requires At(s, v).op.Some? && At(s, v).op.value.stage.Stripping? && ClaimName(v) in s.claims
      requires s.claims[ClaimName(v)].version != At(s, v).op.value.stage.fetched.version
      modifies this
      ensures Valid() && old(events) <= events && old(states) <= states
      ensures At(s, v) == old(At(s, v)) && s.claims == old(s.claims) && !Answered(events, from, v)
    {
      Do(On(v, Conflict));
      assert events[|old(events)|] == On(v, Conflict);
    }

    method StoreStripped(v: string, ghost from: nat)
      requires Valid() && from <= |events|
      requires At(s, v).op.Some? && At(s, v).op.value.stage.Stripping? && ClaimName(v) in s.claims
      requires s.claims[ClaimName(v)].version == At(s, v).op.value.stage.fetched.version
      modifies this
      ensures Valid() && old(events) <= events && old(states) <= states
      ensures At(s, v) == old(At(s, v)).(op := Some(old(At(s, v)).op.value.(stage := Dropping)))
      ensures !Protected(s, ClaimName(v)) && WasStripped(states, events, from, v)
    {
      Do(On(v, Strip));
      assert events[|old(events)|] == On(v, Strip);
      ReleaseKeepsForeignFinalizers(polls, states, events, |old(events)|, v);
    }

    /** Releases the claim: first the finalizer, then the claim itself. Success, or answers to
        all calls, mean that the claim is gone or going and not held back. */
    method DeleteBlockDeviceClaim(v: string, opts: HelperBlockDeviceOptions) returns (ok: bool)
      requires Valid()
      requires opts.HasBDC() ==>
        opts.bdcName == ClaimName(v) && At(s, v).op.Some? && At(s, v).op.value.stage.Releasing?
      modifies this
      ensures Valid() && old(events) <= events && old(states) <= states
      ensures !opts.HasBDC() ==> ok && s == old(s)
      ensures SameRecords(old(At(s, v)), At(s, v))
      ensures opts.HasBDC() ==> At(s, v).op.None?
      ensures opts.HasBDC() ==> At(s, v).pv == if ok && old(At(s, v)).op.value.goal.Deleting? then None else old(At(s, v)).pv
      ensures opts.HasBDC() ==> GivenBack(s, states, events, |old(events)|, v, ok)
    {
      if !opts.HasBDC() {
        return true;
      }
      ok := RemoveFinalizer(v, opts);
      ghost var removed, states' := events, states;
      if !ok {
        GiveUp(v);
        AnsweredParts(removed, events, |old(events)|, |removed|, v);
        return;
      }
      ok := DropClaim(v, |old(events)|);
      AnsweredParts(removed, events, |old(events)|, |removed|, v);
      StillStripped(states', removed, states, events, |old(events)|, |old(events)|, v);
    }

    /** The delete call, after the finalizer was taken off. */
    method DropClaim(v: string, ghost from: nat) returns (ok: bool)
      requires Valid() && from <= |events|
      requires At(s, v).op.Some? && At(s, v).op.value.stage.Dropping? && !Protected(s, ClaimName(v))
      modifies this
      ensures Valid() && old(events) <= events && old(states) <= states
      ensures SameRecords(old(At(s, v)), At(s, v)) && At(s, v).op.None?
      ensures At(s, v).pv == if ok && old(At(s, v)).op.value.goal.Deleting? then None else old(At(s, v)).pv
      ensures Answered(events, |old(events)|, v) && !ok ==> ClaimName(v) !in s.claims
      ensures (ok || Answered(events, |old(events)|, v)) && NobodyGives(events, from, ClaimName(v)) ==> Released(s, ClaimName(v))
    {
      Interfere(v);
      ghost var waited := events;
      var reachable: bool := *;
      if !reachable || ClaimName(v) !in s.claims {
        if !reachable {
          NotAnswered(v, |old(events)|);
        }
        ghost var asked := events;
        GiveUp(v);
        AnsweredParts(asked, events, |old(events)|, |old(events)|, v);
        return false;
      }
      ok := *;
      Do(On(v, Drop(ok)));
      assert events[|waited|] == On(v, Drop(ok));
      NobodyGave(waited, On(v, Drop(ok)), from, ClaimName(v));
      if NobodyGives(events, from, ClaimName(v)) {
        NobodyGivesLater(waited, from, |old(events)|, ClaimName(v));
      }
    }

    // ---------------------------------------------------------------- volumes

    /** All that a request to provision v needs, apart from calls that are answered and a
        device. */
    ghost predicate CanProvision(v: string, node: Labels, config: VolumeConfig, accessModes: nat, buildable: bool) {
      && v != "" && HasHostname(node) && HasLabelOf(config.nodeAffinityKeys, node)
      && accessModes > 0 && buildable && Text(config.blockDeviceTag) == "" && Text(config.nodeAffinityLabel) == ""
    }

    /** Provisions a device volume. The PV names the claim of its own name; the claim is held by
        the finalizer exactly when it was at the time it was created or taken over. If all calls
        are answered and nobody else touches the claim, only two things can make a possible
        request fail: no device turns up in time, or one that is not there. */
    method ProvisionBlockDevice(v: string, node: Labels, config: VolumeConfig, retain: bool, accessModes: nat,
                                buildable: bool, devices: map<string, BlockDevice>) returns (r: Result<DevicePV>)
      requires Valid() && forall d | d in devices :: Linked(devices[d])
      requires At(s, v).op.None? && !At(s, v).handedOut && !At(s, v).condemned
      modifies this
      ensures Valid() && old(events) <= events && old(states) <= states
      ensures At(s, v).op.None?
      ensures r.Failure? ==> At(s, v).pv.None?
      ensures r.Success? ==>
        && At(s, v).pv == Some(r.value.bdc) && r.value.bdc == ClaimName(v) && Live(s, v)
        && r.value.path != "" && FromBound(states, |old(events)|, v, devices, r.value.path)
        && r.value.fsType == Text(config.fsType) && r.value.retain == retain
        && Selects(r.value.affinity, node) && SelectsAlike(r.value.affinity, config.nodeAffinityKeys, node)
        && HeldAsCovered(s, events, |old(events)|, v)
      ensures polls == 0 ==> r.Failure?
      ensures Answered(events, |old(events)|, v) && Untouched(events, |old(events)|, ClaimName(v)) ==>
        (CanProvision(v, node, config, accessModes, buildable) && (forall d | d in devices :: HasPath(devices[d])) && r.Failure? ==>
         WasTimedOut(events, |old(events)|, v) || WasUnknown(states, |old(events)|, ClaimName(v), devices.Keys))
      ensures Text(config.blockDeviceTag) != "" || Text(config.nodeAffinityLabel) != "" ==> r.Failure? && s == old(s)
    {
      HistoryKeepsInv(polls, states, events, |events|);
      assert Fine(polls, s, v, At(s, v));
      if Text(config.blockDeviceTag) != "" {
        return Failure("deprecated BlockDeviceTag");
      }
      if Text(config.nodeAffinityLabel) != "" {
        return Failure("deprecated NodeAffinityLabel");
      }
      BeginAttempt(v);
      ghost var begun := events;
      r := TryBlockDevice(v, node, config, retain, accessModes, buildable, devices, |old(events)|);
      AnsweredParts(begun, events, |old(events)|, |begun|, v);
      UntouchedParts(begun, events, |old(events)|, |begun|, ClaimName(v));
      if r.Success? {
        StillFromBound(states, |begun|, |old(events)|, v, devices, r.value.path);
      }
    }

    /** The attempt. */
    method TryBlockDevice(v: string, node: Labels, config: VolumeConfig, retain: bool, accessModes: nat,
                          buildable: bool, devices: map<string, BlockDevice>, ghost from: nat) returns (r: Result<DevicePV>)
      requires Valid() && forall d | d in devices :: Linked(devices[d])
      requires At(s, v).op == Some(Op(Provisioning, Claiming)) && At(s, v).pv.None? && !At(s, v).handedOut && !At(s, v).condemned
      requires from <= |events| && !NeedsClaim(At(states[from], v))
      modifies this
      ensures Valid() && old(events) <= events && old(states) <= states
      ensures At(s, v).op.None?
      ensures r.Failure? ==> At(s, v).pv.None?
      ensures r.Success? ==>
        && At(s, v).pv == Some(r.value.bdc) && r.value.bdc == ClaimName(v) && Live(s, v)
        && r.value.path != "" && FromBound(states, |old(events)|, v, devices, r.value.path)
        && r.value.fsType == Text(config.fsType) && r.value.retain == retain
        && Selects(r.value.affinity, node) && SelectsAlike(r.value.affinity, config.nodeAffinityKeys, node)
        && HeldAsCovered(s, events, from, v)
      ensures polls == 0 ==> r.Failure?
      ensures Answered(events, |old(events)|, v) && Untouched(events, |old(events)|, ClaimName(v)) ==>
        (CanProvision(v, node, config, accessModes, buildable) && (forall d | d in devices :: HasPath(devices[d])) && r.Failure? ==>
         WasTimedOut(events, |old(events)|, v) || WasUnknown(states, |old(events)|, ClaimName(v), devices.Keys))
    {
      var labels := NodeAffinityLabels(config.nodeAffinityKeys, node);
      var opts := new HelperBlockDeviceOptions(v, GetNodeLabelValue(node, HostnameKey));
      var bd, _, _, _ := GetBlockDevicePath(v, opts, buildable, devices);
      if bd.Failure? {
        return Failure(bd.error);
      }
      ghost var found, bound, device := events, states, At(s, v).op.value.stage.device;
      r := HandOverPV(v, opts.bdcName, bd.value, labels, Text(config.fsType), retain, accessModes, from);
      StillBound(bound, states, |old(events)|, |old(events)|, ClaimName(v), device);
      AnsweredParts(found, events, |old(events)|, |found|, v);
      if r.Success? {
        EncodingSelectsAlike(r.value.affinity, labels, config.nodeAffinityKeys, node);
      }
    }

    method BeginAttempt(v: string)
      requires Valid() && At(s, v).op.None? && !At(s, v).handedOut
      modifies this
      ensures Valid() && old(events) <= events && old(states) <= states
      ensures At(s, v) == old(At(s, v)).(op := Some(Op(Provisioning, Claiming)))
    {
      Do(On(v, Begin));
    }

    /** Builds the PV and hands it out. When it cannot be built the claim stays behind, to be
        taken over by the next attempt. */
    method HandOverPV(v: string, bdcName: string, bd: BlockDevice, labels: Labels, fsType: string, retain: bool, accessModes: nat,
                      ghost from: nat)
      returns (r: Result<DevicePV>)
      requires Valid()
      requires Linked(bd) && bdcName == ClaimName(v) && At(s, v).pv.None? && !At(s, v).handedOut && !At(s, v).condemned
      requires At(s, v).op.Some? && At(s, v).op.value.goal.Provisioning? && At(s, v).op.value.stage.Bound?
      requires from <= |events| && !NeedsClaim(At(states[from], v))
      modifies this
      ensures Valid() && old(events) <= events && old(states) <= states
      ensures At(s, v).op.None?
      ensures r.Failure? ==> At(s, v).pv.None? && s.claims == old(s.claims)
      ensures r.Success? ==>
        && At(s, v).pv == Some(r.value.bdc) && r.value.bdc == ClaimName(v) && Live(s, v)
        && r.value.path != "" && IsPathOf(bd, r.value.path)
        && r.value.fsType == fsType && r.value.retain == retain
        && Encodes(r.value.affinity, labels)
        && HeldAsCovered(s, events, from, v)
      ensures r.Success? <==>
        v != "" && accessModes > 0 && Wanted(labels) != map[] && HasPath(bd)
    {
      r := BuildDevicePV(v, bdcName, bd, labels, fsType, retain, accessModes);
      if r.Failure? {
        GiveUp(v);
        return;
      }
      StoreDevicePV(v, from);
    }

    method StoreDevicePV(v: string, ghost from: nat)
      requires Valid()
      requires !At(s, v).handedOut && !At(s, v).condemned
      requires At(s, v).op.Some? && At(s, v).op.value.goal.Provisioning? && At(s, v).op.value.stage.Bound?
      requires from <= |events| && !NeedsClaim(At(states[from], v))
      modifies this
      ensures Valid() && old(events) <= events && old(states) <= states
      ensures At(s, v).op.None? && At(s, v).pv == Some(ClaimName(v)) && Live(s, v)
      ensures HeldAsCovered(s, events, from, v)
    {
      Do(On(v, HandOut));
      assert states[from] == old(states)[from];
      LivePVsAndTheirClaims(polls, states, events, from, |events|, v);
      assert events[..|events|] == events;
    }

    /** Deletes a device volume. A PV without the annotation that names its claim counts as
        deleted, with nothing done. */
    method DeleteBlockDevice(v: string, annotation: Option<string>) returns (ok: bool)
      requires Valid()
      requires At(s, v).pv.Some? && At(s, v).op.None?
      requires annotation.GetOr("") != "" ==> At(s, v).pv == annotation
      modifies this
      ensures Valid() && old(events) <= events && old(states) <= states
      ensures At(s, v).op.None?
      ensures annotation.GetOr("") == "" ==> ok && s == old(s)
      ensures annotation.GetOr("") != "" ==> At(s, v).condemned && GivenBack(s, states, events, |old(events)|, v, ok)
      ensures annotation.GetOr("") != "" && ok ==> At(s, v).pv.None?
      ensures !ok ==> At(s, v).pv == old(At(s, v)).pv
    {
      var opts := new HelperBlockDeviceOptions(v, "");
      opts.SetBlockDeviceClaimFromPV(annotation);
      if opts.HasBDC() {
        HistoryKeepsInv(polls, states, events, |events|);
        assert Fine(polls, s, v, At(s, v));
        Do(On(v, BeginDelete));
      }
      ghost var begun := |events|;
      ok := DeleteBlockDeviceClaim(v, opts);
      if opts.HasBDC() {
        GivenBackSince(s, states, events, begun, |old(events)|, v, ok);
      }
    }

    // ---------------------------------------------------------------- startup

    /** Before requests are served only the others act. */
    method OthersAct()
      requires Valid()
      modifies this
      ensures Valid() && old(events) <= events && old(states) <= states
      ensures s.volumes == old(s.volumes)
      ensures forall v :: StaysProtected(events, |old(events)|, old(s), s, v)
      ensures forall i {:trigger events[i]} | |old(events)| <= i < |events| :: !events[i].On?
      ensures |events| == |old(events)| ==> s == old(s)
    {
      var n: nat := *;
      while n > 0
        invariant Valid() && old(events) <= events && old(states) <= states
        invariant s.volumes == old(s.volumes)
        invariant forall v :: StaysProtected(events, |old(events)|, old(s), s, v)
        invariant forall i {:trigger events[i]} | |old(events)| <= i < |events| :: !events[i].On?
        invariant |events| == |old(events)| ==> s == old(s)
      {
        var e: Event := *;
        if !e.On? && Enabled(polls, s, e) {
          ghost var events', s' := events, s;
          Do(e);
          forall v
            ensures StaysProtected(events, |old(events)|, old(s), s, v)
          {
            assert StaysProtected(events', |old(events)|, old(s), s', v);
            ProtectionStays(polls, s', e, ClaimName(v));
            NobodyGave(events', e, |old(events)|, ClaimName(v));
          }
        }
        n := n - 1;
      }
    }

    /** The update that puts the finalizer on a claim that lacks it. */
    method RepairClaim(v: string, ghost unreadable: set<string>)
      requires Valid() && Possible(polls, s, v, At(s, v), Repair)
      modifies this
      ensures Valid() && old(states) <= states && events == old(events) + [On(v, Repair)]
      ensures forall u :: At(s, u).pv == old(At(s, u)).pv && At(s, u).op == old(At(s, u)).op
      ensures forall u :: Protected(old(s), ClaimName(u)) ==> Protected(s, ClaimName(u))
      ensures Protected(s, ClaimName(v)) && Settled(s, ClaimName(v), unreadable)
      ensures forall u | Settled(old(s), ClaimName(u), unreadable) :: Settled(s, ClaimName(u), unreadable)
      ensures OnlyTheseHeld(old(s), s, [v])
    {
      RepairSettles(polls, s, v, unreadable);
      RepairHoldsOnly(polls, s, v);
      Do(On(v, Repair));
    }

    /** The repair of one claim. When it ends well there is nothing to do for the claim. */
    method AddLocalPVFinalizer(v: string, unreadable: set<string>, unwritable: set<string>) returns (ok: bool)
      requires Valid()
      requires At(s, v).pv.Some? && At(s, v).op.None?
      modifies this
      ensures Valid() && old(events) <= events && old(states) <= states
      ensures forall u :: At(s, u).pv == old(At(s, u)).pv && At(s, u).op == old(At(s, u)).op
      ensures forall i {:trigger events[i]} | |old(events)| <= i < |events| && events[i].On? :: events[i] == On(v, Repair)
      ensures forall u :: StaysProtected(events, |old(events)|, old(s), s, u)
      ensures WasRepaired(events, |old(events)|, v) ==> Protected(s, ClaimName(v))
      ensures ok ==> Settled(s, ClaimName(v), unreadable)
      ensures ClaimName(v) !in unwritable ==> ok
      ensures Quiet(events, |old(events)|) ==>
        forall u | Settled(old(s), ClaimName(u), unreadable) :: Settled(s, ClaimName(u), unreadable)
      ensures Quiet(events, |old(events)|) && Settled(old(s), ClaimName(v), unreadable) ==>
        ok && s == old(s) && events == old(events)
      ensures Quiet(events, |old(events)|) ==> OnlyTheseHeld(old(s), s, [v])
    {
      OthersAct();
      assert |events| > |old(events)| ==> !events[|old(events)|].On?;
      var c := ClaimName(v);
      if c in unreadable || c !in s.claims || s.claims[c].deleting {
        return true;
      }
      if LocalPVFinalizer !in s.claims[c].finalizers {
        if c in unwritable {
          return false;
        }
        ghost var events', s' := events, s;
        RepairClaim(v, unreadable);
        QuietParts(events', events, |old(events)|);
        forall u
          ensures StaysProtected(events, |old(events)|, old(s), s, u)
        {
          NobodyGave(events', On(v, Repair), |old(events)|, ClaimName(u));
          assert StaysProtected(events', |old(events)|, old(s), s', u);
        }
      }
      return true;
    }

    /** The repair at startup: every claim of the listed PVs that can be read, is not being
        deleted and lacks the provisioner's finalizer gets it; the first write that fails ends
        the pass. unreadable and unwritable say which claims' calls fail.

        Whatever others do meanwhile, the pass touches no other claim; success means that every
        listed claim was settled at the moment it was visited; and a claim that was held before,
        or was repaired, is held at the end, unless somebody else took the finalizer off. If
        nobody else acts, every listed claim is settled at the end, and a pass over settled
        claims, such as a second one, changes nothing; all claims keep their devices and their
        other finalizers, in order, and those of PVs that are not listed are as they were. */
    method AddLocalPVFinalizerOnAssociatedBDCs(pvs: seq<string>, unreadable: set<string>, unwritable: set<string>)
      returns (ok: bool)
      requires Valid()
      requires forall v | v in pvs :: At(s, v).pv.Some? && At(s, v).op.None?
      modifies this
      ensures Valid() && old(events) <= events && old(states) <= states
      ensures OnlyRepairs(events, |old(events)|, pvs)
      ensures ok ==> forall v | v in pvs :: WasSettled(states, |old(events)|, v, unreadable)
      ensures (forall v | v in pvs :: ClaimName(v) !in unwritable) ==> ok
      ensures forall v :: Held(events, |old(events)|, old(s), s, v)
      ensures Quiet(events, |old(events)|) && ok ==> forall v | v in pvs :: Settled(s, ClaimName(v), unreadable)
      ensures Quiet(events, |old(events)|) && (forall v | v in pvs :: Settled(old(s), ClaimName(v), unreadable)) ==>
        ok && s == old(s) && events == old(events)
      ensures Quiet(events, |old(events)|) ==> OnlyTheseHeld(old(s), s, pvs)
    {
      for n := 0 to |pvs|
        invariant Valid() && old(events) <= events && old(states) <= states
        invariant forall v | v in pvs :: At(s, v).pv.Some? && At(s, v).op.None?
        invariant OnlyRepairs(events, |old(events)|, pvs)
        invariant forall j | 0 <= j < n :: WasSettled(states, |old(events)|, pvs[j], unreadable)
        invariant forall v :: Held(events, |old(events)|, old(s), s, v)
        invariant Quiet(events, |old(events)|) ==> forall j | 0 <= j < n :: Settled(s, ClaimName(pvs[j]), unreadable)
        invariant Quiet(events, |old(events)|) && (forall v | v in pvs :: Settled(old(s), ClaimName(v), unreadable)) ==>
          s == old(s) && events == old(events)
        invariant Quiet(events, |old(events)|) ==> OnlyTheseHeld(old(s), s, pvs)
      {
        ghost var events', states', s' := events, states, s;
        ok := AddLocalPVFinalizer(pvs[n], unreadable, unwritable);
        QuietParts(events', events, |old(events)|);
        AllHeldOn(events', events, |old(events)|, old(s), s', s, pvs[n]);
        if Quiet(events, |old(events)|) {
          HeldOneMore(old(s), s', s, pvs, pvs[n]);
        }
        if !ok {
          return;
        }
        StillSettled(states', states, |old(events)|, unreadable);
        assert states[|events|] == s;
      }
      return true;
    }
  }

  /** Among the steps from one point on the claim of v was repaired. */
  ghost predicate WasRepaired(events: seq<Event>, from: nat, v: string) {
    exists i {:trigger events[i]} | from <= i < |events| :: events[i] == On(v, Repair)
  }

  /** Protection stays if nobody else takes it. */
  ghost predicate StaysProtected(events: seq<Event>, from: nat, before: State, after: State, v: string) {
    NobodyTakes(events, from, ClaimName(v)) && Protected(before, ClaimName(v)) ==> Protected(after, ClaimName(v))
  }

  /** What was held or repaired is held, if nobody else takes it. */
  ghost predicate Held(events: seq<Event>, from: nat, before: State, after: State, v: string) {
    NobodyTakes(events, from, ClaimName(v)) && (Protected(before, ClaimName(v)) || WasRepaired(events, from, v)) ==>
      Protected(after, ClaimName(v))
  }

  lemma HeldOn(events: seq<Event>, events': seq<Event>, from: nat, start: State, s: State, t: State, v: string, visited: string)
    requires from <= |events| && events <= events'
    requires Held(events, from, start, s, v) && StaysProtected(events', |events|, s, t, v)
    requires forall i {:trigger events'[i]} | |events| <= i < |events'| && events'[i].On? :: events'[i] == On(visited, Repair)
    requires WasRepaired(events', |events|, visited) ==> Protected(t, ClaimName(visited))
    ensures Held(events', from, start, t, v)
  {
    assert forall i {:trigger events[i]} | 0 <= i < |events| :: events'[i] == events[i];
    if NobodyTakes(events', from, ClaimName(v)) && WasRepaired(events', from, v) {
      var i :| from <= i < |events'| && events'[i] == On(v, Repair);
      if i < |events| {
        assert events[i] == On(v, Repair);
      } else {
        assert v == visited;
      }
    }
  }

  lemma AllHeldOn(events: seq<Event>, events': seq<Event>, from: nat, start: State, s: State, t: State, visited: string)
    requires from <= |events| && events <= events'
    requires forall v :: Held(events, from, start, s, v)
    requires forall v :: StaysProtected(events', |events|, s, t, v)
    requires forall i {:trigger events'[i]} | |events| <= i < |events'| && events'[i].On? :: events'[i] == On(visited, Repair)
    requires WasRepaired(events', |events|, visited) ==> Protected(t, ClaimName(visited))
    ensures forall v :: Held(events', from, start, t, v)
  {
    forall v
      ensures Held(events', from, start, t, v)
    {
      HeldOn(events, events', from, start, s, t, v, visited);
    }
  }

  /** A claim with the provisioner's finalizer behind the others, which it lacked, and with
      nothing else changed but its version. */
  predicate GotHeld(before: Claim, after: Claim) {
    && !before.deleting && LocalPVFinalizer !in before.finalizers
    && after.finalizers == before.finalizers + [LocalPVFinalizer]
    && after.deleting == before.deleting && after.device == before.device
  }

  /** No claim came or went; some of the claims of these PVs got the provisioner's finalizer, and
      all others are as they were. */
  ghost predicate OnlyTheseHeld(before: State, after: State, pvs: seq<string>) {
    && after.claims.Keys == before.claims.Keys
    && forall c | c in before.claims :: after.claims[c] == before.claims[c] ||
         (GotHeld(before.claims[c], after.claims[c]) && exists v | v in pvs :: c == ClaimName(v))
  }

  lemma RepairHoldsOnly(polls: nat, s: State, v: string)
    requires Possible(polls, s, v, At(s, v), Repair)
    ensures OnlyTheseHeld(s, Apply(polls, s, On(v, Repair)), [v])
  {
    assert v in [v];
  }

  lemma HeldOneMore(before: State, between: State, after: State, pvs: seq<string>, v: string)
    requires OnlyTheseHeld(before, between, pvs) && OnlyTheseHeld(between, after, [v]) && v in pvs
    ensures OnlyTheseHeld(before, after, pvs)
  {
    forall c | c in before.claims && after.claims[c] != between.claims[c]
      ensures between.claims[c] == before.claims[c] && c == ClaimName(v)
    {
      assert LocalPVFinalizer !in between.claims[c].finalizers;
    }
  }

  /** At some moment since one point there was nothing to do for the claim. */
  ghost predicate WasSettled(states: seq<State>, from: nat, v: string, unreadable: set<string>) {
    exists i {:trigger states[i]} | from <= i < |states| :: Settled(states[i], ClaimName(v), unreadable)
  }

  lemma StillSettled(states: seq<State>, states': seq<State>, from: nat, unreadable: set<string>)
    requires states <= states'
    ensures forall v | WasSettled(states, from, v, unreadable) :: WasSettled(states', from, v, unreadable)
  {
    forall v | WasSettled(states, from, v, unreadable)
      ensures WasSettled(states', from, v, unreadable)
    {
      var i :| from <= i < |states| && Settled(states[i], ClaimName(v), unreadable);
      assert states'[i] == states[i];
    }
  }

  /** What the provisioner does from one point on is to repair the claims of these PVs. */
  ghost predicate OnlyRepairs(events: seq<Event>, from: nat, pvs: seq<string>) {
    forall i {:trigger events[i]} | from <= i < |events| && events[i].On? ::
      events[i].action.Repair? && events[i].volume in pvs
  }

  lemma QuietParts(events: seq<Event>, events': seq<Event>, from: nat)
    requires events <= events' && from <= |events|
    ensures Quiet(events', from) <==> Quiet(events, from) && Quiet(events', |events|)
  {
    assert forall i | 0 <= i < |events| :: events'[i] == events[i];
  }

  lemma RepairSettles(polls: nat, s: State, v: string, unreadable: set<string>)
    requires Possible(polls, s, v, At(s, v), Repair)
    ensures var t := Apply(polls, s, On(v, Repair));
      && Settled(t, ClaimName(v), unreadable)
      && (forall u :: Protected(s, ClaimName(u)) ==> Protected(t, ClaimName(u)))
      && (forall u | Settled(s, ClaimName(u), unreadable) :: Settled(t, ClaimName(u), unreadable))
  {
  }
}
