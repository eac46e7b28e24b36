/** One look at the events of a block device, to find out whether it was cleaned up after a
    claim. The events say that a cleanup for some claim is in progress, that the device was
    claimed, and that it was released, which means that a cleanup is complete; of these only
    the first names the claim. */
module EventScan {
  import opened PathFilter
  import opened EventSort

  predicate InProgress(e: Event, bdcName: string) {
    e.reason == "BlockDeviceCleanUpInProgress" && Contains(e.message, bdcName)
  }

  predicate Claimed(e: Event) { e.reason == "BlockDeviceClaimed" }

  predicate Released(e: Event) { e.reason == "BlockDeviceReleased" }

  /** The place k is before every event that says the cleanup for the claim is in progress. */
  ghost predicate InWindow(out: seq<Event>, bdcName: string, k: nat) {
    forall p: nat | p < |out| && InProgress(out[p], bdcName) :: k < p
  }

  /** In a list with the newest first: a release in the window, and from there to the end of
      the window no claim. */
  ghost predicate ShownInOrder(out: seq<Event>, bdcName: string) {
    exists r: nat | r < |out| && Released(out[r]) ::
      InWindow(out, bdcName, r) && forall c: nat | r < c < |out| && Claimed(out[c]) :: !InWindow(out, bdcName, c)
  }

  /** The window is what precedes the first of those events. */
  lemma WindowEnds(out: seq<Event>, bdcName: string, w: nat)
    requires w <= |out| && forall p: nat | p < w :: !InProgress(out[p], bdcName)
    requires w < |out| ==> InProgress(out[w], bdcName)
    ensures forall k: nat | k < |out| :: InWindow(out, bdcName, k) <==> k < w
  {
  }

  /** A release among the first n events with no claim between it and the n-th. */
  ghost predicate Unclaimed(out: seq<Event>, n: nat)
    requires n <= |out|
  {
    exists r: nat | r < n && Released(out[r]) :: forall c: nat | r < c < n :: !Claimed(out[c])
  }

  lemma UnclaimedNext(out: seq<Event>, n: nat)
    requires n < |out|
    ensures Unclaimed(out, n + 1) <==> Released(out[n]) || (Unclaimed(out, n) && !Claimed(out[n]))
  {
    assert !(Released(out[n]) && Claimed(out[n])) by {
      assert "BlockDeviceReleased"[11] != "BlockDeviceClaimed"[11];
    }
    if Unclaimed(out, n) && !Claimed(out[n]) {
      var r: nat :| r < n && Released(out[r]) && forall c: nat | r < c < n :: !Claimed(out[c]);
      assert forall c: nat | r < c < n + 1 :: !Claimed(out[c]);
    }
  }

  lemma UnclaimedIsShown(out: seq<Event>, bdcName: string, w: nat)
    requires w <= |out| && forall k: nat | k < |out| :: InWindow(out, bdcName, k) <==> k < w
    ensures Unclaimed(out, w) <==> ShownInOrder(out, bdcName)
  {
    if Unclaimed(out, w) {
      var r: nat :| r < w && Released(out[r]) && forall c: nat | r < c < w :: !Claimed(out[c]);
      assert InWindow(out, bdcName, r);
    }
    if ShownInOrder(out, bdcName) {
      var r: nat :| r < |out| && Released(out[r]) && InWindow(out, bdcName, r)
        && forall c: nat | r < c < |out| && Claimed(out[c]) :: !InWindow(out, bdcName, c);
      assert forall c: nat | r < c < w :: InWindow(out, bdcName, c);
    }
  }

  /** The pass over the sorted events: releases are counted, a claim resets the count, and the
      first event that says the cleanup is in progress ends the pass. */
  method Scan(list: EventList, bdcName: string) returns (cleanedUp: bool)
    ensures cleanedUp <==> ShownInOrder(list.items[..], bdcName)
  {
    ghost var out := list.items[..];
    var cleanupCompleteCount := 0;
    var n := 0;
    while n < list.Len()
      invariant n <= list.Len()
      invariant cleanupCompleteCount >= 0 && (cleanupCompleteCount > 0 <==> Unclaimed(out, n))
      invariant forall p: nat | p < n :: !InProgress(out[p], bdcName)
    {
      var event := list.items[n];
      if InProgress(event, bdcName) {
        break;
      }
      UnclaimedNext(out, n);
      n := n + 1;
      if Claimed(event) {
        cleanupCompleteCount := 0;
        continue;
      }
      if Released(event) {
        cleanupCompleteCount := cleanupCompleteCount + 1;
        continue;
      }
    }
    WindowEnds(out, bdcName, n);
    UnclaimedIsShown(out, bdcName, n);
    return cleanupCompleteCount > 0;
  }

  // ---------------------------------------------------------------- in terms of time

  /** The event at i is newer than every event that says the cleanup for the claim is in
      progress; of two events of the same time, the one listed first counts as newer. */
  ghost predicate Recent(s: seq<Event>, bdcName: string, i: nat)
    requires i < |s|
  {
    forall p: nat | p < |s| && InProgress(s[p], bdcName) :: Before(LatestFirst, s, i, p)
  }

  /** Some release is newer than every such event, and every claim that is as recent is newer
      than that release. */
  ghost predicate CleanUpShown(s: seq<Event>, bdcName: string) {
    exists r: nat | r < |s| && Released(s[r]) ::
      && Recent(s, bdcName, r)
      && forall c: nat | c < |s| && Claimed(s[c]) && Recent(s, bdcName, c) :: !Before(LatestFirst, s, r, c)
  }

  lemma PlacesAreBefore(s: seq<Event>, out: seq<Event>, from: seq<nat>, k: nat, l: nat)
    requires Placed(LatestFirst, s, out, from) && k < |s| && l < |s|
    ensures Before(LatestFirst, s, from[k], from[l]) <==> k < l
  {
  }

  lemma RecentIsWindow(s: seq<Event>, bdcName: string, out: seq<Event>, from: seq<nat>, k: nat)
    requires Placed(LatestFirst, s, out, from) && k < |s|
    ensures Recent(s, bdcName, from[k]) <==> InWindow(out, bdcName, k)
  {
    if Recent(s, bdcName, from[k]) {
      forall p: nat | p < |out| && InProgress(out[p], bdcName)
        ensures k < p
      {
        assert InProgress(s[from[p]], bdcName);
        PlacesAreBefore(s, out, from, k, p);
      }
    }
    if InWindow(out, bdcName, k) {
      forall p: nat | p < |s| && InProgress(s[p], bdcName)
        ensures Before(LatestFirst, s, from[k], p)
      {
        assert p in from;
        var l: nat :| l < |from| && from[l] == p;
        PlacesAreBefore(s, out, from, k, l);
      }
    }
  }

  /** What the pass finds in the sorted list is what the list shows, in whatever order it is. */
  lemma ShownAnyOrder(s: seq<Event>, bdcName: string, out: seq<Event>, from: seq<nat>)
    requires Placed(LatestFirst, s, out, from)
    ensures ShownInOrder(out, bdcName) <==> CleanUpShown(s, bdcName)
  {
    forall k: nat | k < |s|
      ensures Recent(s, bdcName, from[k]) <==> InWindow(out, bdcName, k)
    {
      RecentIsWindow(s, bdcName, out, from, k);
    }
    if ShownInOrder(out, bdcName) {
      var r: nat :| r < |out| && Released(out[r]) && InWindow(out, bdcName, r)
        && forall c: nat | r < c < |out| && Claimed(out[c]) :: !InWindow(out, bdcName, c);
      forall c: nat | c < |s| && Claimed(s[c]) && Recent(s, bdcName, c)
        ensures !Before(LatestFirst, s, from[r], c)
      {
        assert c in from;
        var l: nat :| l < |from| && from[l] == c;
        PlacesAreBefore(s, out, from, r, l);
      }
      assert Released(s[from[r]]) && Recent(s, bdcName, from[r]);
    }
    if CleanUpShown(s, bdcName) {
      ShownThere(s, bdcName, out, from);
    }
  }

  lemma ShownThere(s: seq<Event>, bdcName: string, out: seq<Event>, from: seq<nat>)
    requires Placed(LatestFirst, s, out, from) && CleanUpShown(s, bdcName)
    requires forall k: nat | k < |s| :: Recent(s, bdcName, from[k]) <==> InWindow(out, bdcName, k)
    ensures ShownInOrder(out, bdcName)
  {
    var i: nat :| i < |s| && Released(s[i]) && Recent(s, bdcName, i)
      && forall c: nat | c < |s| && Claimed(s[c]) && Recent(s, bdcName, c) :: !Before(LatestFirst, s, i, c);
    assert i in from;
    var r: nat :| r < |from| && from[r] == i;
    forall c: nat | r < c < |out| && Claimed(out[c])
      ensures !InWindow(out, bdcName, c)
    {
      PlacesAreBefore(s, out, from, r, c);
      assert Claimed(s[from[c]]);
    }
    assert Released(out[r]) && InWindow(out, bdcName, r);
  }

  lemma PairShown(s: seq<Event>, bdcName: string, r: nat, o: nat)
    requires |s| == 2 && r < 2 && o < 2 && r != o && Released(s[r]) && !Released(s[o]) && !InProgress(s[r], bdcName)
    ensures InProgress(s[o], bdcName) && !Claimed(s[o]) && !Claimed(s[r]) ==>
      (CleanUpShown(s, bdcName) <==> Before(LatestFirst, s, r, o))
    ensures !InProgress(s[o], bdcName) && Claimed(s[o]) && !Claimed(s[r]) ==>
      (CleanUpShown(s, bdcName) <==> !Before(LatestFirst, s, r, o))
  {
    if !InProgress(s[o], bdcName) {
      assert Recent(s, bdcName, r) && Recent(s, bdcName, o);
    }
  }

  lemma DifferentReasons(a: string, b: string, c: string)
    requires a == "BlockDeviceCleanUpInProgress" && b == "BlockDeviceClaimed" && c == "BlockDeviceReleased"
    ensures a != b && a != c && b != c
  {
    assert a[13] != b[13] && b[11] != c[11] && a[11] != c[11];
  }

  /** What two events show: a release after the cleanup for the claim had begun, and a release
      that a claim followed. Of two events of the same time the one listed first counts as newer. */
  lemma TwoEvents(cleaning: Event, claimed: Event, released: Event, bdcName: string)
    requires cleaning.reason == "BlockDeviceCleanUpInProgress" && Contains(cleaning.message, bdcName)
    requires claimed.reason == "BlockDeviceClaimed" && released.reason == "BlockDeviceReleased"
    ensures CleanUpShown([cleaning, released], bdcName) <==> cleaning.time < released.time
    ensures CleanUpShown([released, cleaning], bdcName) <==> cleaning.time <= released.time
    ensures CleanUpShown([claimed, released], bdcName) <==> released.time <= claimed.time
    ensures CleanUpShown([released, claimed], bdcName) <==> released.time < claimed.time
  {
    DifferentReasons(cleaning.reason, claimed.reason, released.reason);
    PairShown([cleaning, released], bdcName, 1, 0);
    PairShown([released, cleaning], bdcName, 0, 1);
    PairShown([claimed, released], bdcName, 1, 0);
    PairShown([released, claimed], bdcName, 0, 1);
  }

  /** One poll: the events are sorted with the newest first and gone through once. */
  method IsBdCleanedUp(list: EventList, bdcName: string) returns (cleanedUp: bool)
    modifies list.items
    ensures cleanedUp <==> CleanUpShown(old(list.items[..]), bdcName)
  {
    ghost var from := list.LatestFirstSort();
    cleanedUp := Scan(list, bdcName);
    ShownAnyOrder(old(list.items[..]), bdcName, list.items[..], from);
  }
}
