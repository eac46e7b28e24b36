/** Lists of events and their two sorts by time. Both are stable sorts with the list's own Less
    and Swap, the second with Less turned around. */
module EventSort {

  datatype Event = Event(reason: string, message: string, time: int)

  datatype Order = LatestLast | LatestFirst

  /** Less of the sort. */
  predicate Precedes(o: Order, a: Event, b: Event) {
    match o
    case LatestLast => a.time < b.time
    case LatestFirst => b.time < a.time
  }

  predicate Ordered(o: Order, s: seq<Event>) {
    forall i, j | 0 <= i < j < |s| :: !Precedes(o, s[j], s[i])
  }

  /** The events of one time, in their order. */
  function Of(s: seq<Event>, t: int): (r: seq<Event>)
    ensures forall e :: e in r <==> e in s && e.time == t
  {
    if s == [] then [] else (if s[0].time == t then [s[0]] else []) + Of(s[1..], t)
  }

  ghost predicate SameAtEachTime(s: seq<Event>, out: seq<Event>) {
    forall t :: Of(out, t) == Of(s, t)
  }

  /** Ordered by time, and events of the same time in the order they came in. */
  ghost predicate IsStableSort(o: Order, s: seq<Event>, out: seq<Event>) {
    Ordered(o, out) && SameAtEachTime(s, out)
  }

  // ---------------------------------------------------------------- one sort only

  lemma OrderedHeads(o: Order, a: seq<Event>, b: seq<Event>)
    requires Ordered(o, a) && Ordered(o, b) && SameAtEachTime(a, b) && a != []
    ensures b != [] && a[0] == b[0]
  {
    var t := a[0].time;
    assert Of(a, t)[0] == a[0] && a[0] in Of(b, t);
    assert Of(b, b[0].time) == Of(a, b[0].time);
    assert b[0] in Of(a, b[0].time);
    assert b[0].time == t;
    assert Of(b, t)[0] == b[0];
  }

  lemma SameFront(h: seq<Event>, x: seq<Event>, y: seq<Event>)
    requires h + x == h + y
    ensures x == y
  {
    assert x == (h + x)[|h|..] && y == (h + y)[|h|..];
  }

  lemma NoTimes(b: seq<Event>)
    requires SameAtEachTime([], b)
    ensures b == []
  {
    TimeOfFirst(b);
  }

  lemma TimeOfFirst(b: seq<Event>)
    ensures b != [] ==> Of(b, b[0].time) != []
  {
    if b != [] {
      assert b[0] in Of(b, b[0].time);
    }
  }

  /** A stable sort has only one result, whatever algorithm computes it. */
  lemma {:induction false} StableSortIsUnique(o: Order, a: seq<Event>, b: seq<Event>)
    requires Ordered(o, a) && Ordered(o, b) && SameAtEachTime(a, b)
    ensures a == b
  {
    if a == [] {
      NoTimes(b);
    } else {
      OrderedHeads(o, a, b);
      forall t
        ensures Of(b[1..], t) == Of(a[1..], t)
      {
        assert Of(a, t) == Of(b, t);
        assert Of(a, t) == (if a[0].time == t then [a[0]] else []) + Of(a[1..], t);
        assert Of(b, t) == (if a[0].time == t then [a[0]] else []) + Of(b[1..], t);
        SameFront(if a[0].time == t then [a[0]] else [], Of(a[1..], t), Of(b[1..], t));
      }
      StableSortIsUnique(o, a[1..], b[1..]);
    }
  }

  // ---------------------------------------------------------------- the two sorts

  function Reverse<T>(s: seq<T>): (r: seq<T>)
    ensures |r| == |s| && forall i | 0 <= i < |s| :: r[i] == s[|s| - 1 - i]
  {
    if s == [] then [] else Reverse(s[1..]) + [s[0]]
  }

  lemma {:induction false} OfAppend(a: seq<Event>, b: seq<Event>, t: int)
    ensures Of(a + b, t) == Of(a, t) + Of(b, t)
  {
    if a == [] {
      assert a + b == b;
    } else {
      assert (a + b)[1..] == a[1..] + b;
      OfAppend(a[1..], b, t);
    }
  }

  lemma {:induction false} OfReverse(s: seq<Event>, t: int)
    ensures Of(Reverse(s), t) == Reverse(Of(s, t))
  {
    if s != [] {
      OfReverse(s[1..], t);
      OfAppend(Reverse(s[1..]), [s[0]], t);
      var rest := Of(s[1..], t);
      assert Of([s[0]], t) == if s[0].time == t then [s[0]] else [];
      if s[0].time == t {
        assert ([s[0]] + rest)[1..] == rest;
      } else {
        assert [] + rest == rest && Reverse(rest) + [] == Reverse(rest);
      }
    }
  }

  ghost predicate ReadsTheSame(s: seq<Event>) {
    forall t :: Of(s, t) == Reverse(Of(s, t))
  }

  lemma ReversedTimes(s: seq<Event>, last: seq<Event>)
    requires SameAtEachTime(s, last)
    ensures SameAtEachTime(s, Reverse(last)) <==> ReadsTheSame(s)
  {
    forall t
      ensures Of(Reverse(last), t) == Reverse(Of(s, t))
    {
      OfReverse(last, t);
      assert Of(last, t) == Of(s, t);
    }
  }

  /** Newest first is newest last read backwards if and only if the events of each time read
      the same in both directions. */
  lemma NewestFirstIsReverse(s: seq<Event>, last: seq<Event>, first: seq<Event>)
    requires IsStableSort(LatestLast, s, last) && IsStableSort(LatestFirst, s, first)
    ensures first == Reverse(last) <==> ReadsTheSame(s)
  {
    ReversedTimes(s, last);
    if ReadsTheSame(s) {
      assert Ordered(LatestFirst, Reverse(last));
      assert SameAtEachTime(first, Reverse(last));
      StableSortIsUnique(LatestFirst, Reverse(last), first);
    }
  }

  predicate DistinctTimes(s: seq<Event>) {
    forall i, j | 0 <= i < j < |s| :: s[i].time != s[j].time
  }

  lemma {:induction false} AtMostOneOf(s: seq<Event>, t: int)
    requires DistinctTimes(s)
    ensures |Of(s, t)| <= 1
  {
    if s != [] {
      AtMostOneOf(s[1..], t);
      if s[0].time == t && Of(s[1..], t) != [] {
        assert Of(s[1..], t)[0] in s[1..];
      }
    }
  }

  /** So with distinct times it always is. */
  lemma DistinctTimesReverse(s: seq<Event>, last: seq<Event>, first: seq<Event>)
    requires IsStableSort(LatestLast, s, last) && IsStableSort(LatestFirst, s, first) && DistinctTimes(s)
    ensures first == Reverse(last)
  {
    forall t
      ensures Of(s, t) == Reverse(Of(s, t))
    {
      AtMostOneOf(s, t);
    }
    NewestFirstIsReverse(s, last, first);
  }

  // ---------------------------------------------------------------- in place

  /** Where the event at i goes relative to the event at j. */
  predicate Before(o: Order, s: seq<Event>, i: nat, j: nat)
    requires i < |s| && j < |s|
  {
    Precedes(o, s[i], s[j]) || (s[i].time == s[j].time && i < j)
  }

  /** Place k holds the event that was at from[k], and every event has its place. */
  predicate Rearranged(s: seq<Event>, out: seq<Event>, from: seq<nat>) {
    && |from| == |out| == |s|
    && (forall k | 0 <= k < |s| :: from[k] < |s| && out[k] == s[from[k]])
    && (forall i: nat | i < |s| :: i in from)
  }

  predicate Placed(o: Order, s: seq<Event>, out: seq<Event>, from: seq<nat>) {
    && Rearranged(s, out, from)
    && forall k, l | 0 <= k < l < |s| :: Before(o, s, from[k], from[l])
  }

  function Swapped<T>(s: seq<T>, j: nat): (r: seq<T>)
    requires 0 < j < |s|
  {
    s[j := s[j - 1]][j - 1 := s[j]]
  }

  lemma OfPair(x: Event, y: Event, b: seq<Event>, t: int)
    requires x.time != y.time
    ensures Of([x] + ([y] + b), t) == Of([y] + ([x] + b), t)
  {
    OfFirst(x, [y] + b, t);
    OfFirst(y, b, t);
    OfFirst(y, [x] + b, t);
    OfFirst(x, b, t);
    assert [] + Of(b, t) == Of(b, t);
  }

  lemma OfFirst(x: Event, b: seq<Event>, t: int)
    ensures Of([x] + b, t) == (if x.time == t then [x] else []) + Of(b, t)
  {
    assert ([x] + b)[1..] == b;
  }

  /** Swapping neighbours of different times changes nothing for any one time. */
  lemma SwapKeepsTimes(s: seq<Event>, j: nat)
    requires 0 < j < |s| && s[j - 1].time != s[j].time
    ensures SameAtEachTime(s, Swapped(s, j))
  {
    var a, b, x, y := s[..j - 1], s[j + 1..], s[j - 1], s[j];
    assert s == a + ([x] + ([y] + b));
    assert Swapped(s, j) == a + ([y] + ([x] + b));
    forall t
      ensures Of(Swapped(s, j), t) == Of(s, t)
    {
      OfAppend(a, [x] + ([y] + b), t);
      OfAppend(a, [y] + ([x] + b), t);
      OfPair(x, y, b, t);
    }
  }

  lemma SwapKeepsPlaces(s: seq<Event>, out: seq<Event>, from: seq<nat>, j: nat)
    requires Rearranged(s, out, from) && 0 < j < |s|
    ensures Rearranged(s, Swapped(out, j), Swapped(from, j))
  {
    var from' := Swapped(from, j);
    forall i: nat | i < |s|
      ensures i in from'
    {
      assert i in from;
      var k :| 0 <= k < |from| && from[k] == i;
      assert from'[if k == j then j - 1 else if k == j - 1 then j else k] == i;
    }
  }

  class EventList {
    var items: array<Event>

    constructor (items: array<Event>)
      ensures this.items == items
    {
      this.items := items;
    }

    function Len(): nat
      reads this
    {
      items.Length
    }

    method Swap(i: nat, j: nat)
      requires i < items.Length && j < items.Length
      modifies items
      ensures items[..] == old(items[..])[i := old(items[j])][j := old(items[i])]
    {
      items[i], items[j] := items[j], items[i];
    }

    predicate Less(i: nat, j: nat)
      requires i < items.Length && j < items.Length
      reads this, items
    {
      items[i].time < items[j].time
    }

    /** Less, or Less turned around. */
    predicate LessIn(o: Order, i: nat, j: nat)
      requires i < items.Length && j < items.Length
      reads this, items
    {
      if o == LatestLast then Less(i, j) else Less(j, i)
    }

    /** sort.Stable on a short list: every event moves up by swaps with its neighbour. */
    method Stable(o: Order) returns (ghost from: seq<nat>)
      modifies items
      ensures IsStableSort(o, old(items[..]), items[..])
      ensures Placed(o, old(items[..]), items[..], from)
    {
      ghost var s := items[..];
      from := seq(|s|, k requires 0 <= k < |s| => k);
      assert Rearranged(s, items[..], from) by {
        forall i: nat | i < |s|
          ensures i in from
        {
          assert from[i] == i;
        }
      }
      var i := 0;
      while i < Len()
        invariant i <= Len()
        invariant SameAtEachTime(s, items[..]) && Rearranged(s, items[..], from)
        invariant forall k | i <= k < |s| :: from[k] == k
        invariant forall k | 0 <= k < i :: from[k] < i
        invariant forall k, l | 0 <= k < l < i :: Before(o, s, from[k], from[l])
      {
        from := MoveUp(o, i, s, from);
        i := i + 1;
      }
      PlacedIsOrdered(o, s, items[..], from);
    }

    /** Moves the event at i up to its place among those before it. */
    method MoveUp(o: Order, i: nat, ghost s: seq<Event>, ghost from0: seq<nat>) returns (ghost from: seq<nat>)
      requires i < Len()
      requires SameAtEachTime(s, items[..]) && Rearranged(s, items[..], from0)
      requires forall k | i <= k < |s| :: from0[k] == k
      requires forall k | 0 <= k < i :: from0[k] < i
      requires forall k, l | 0 <= k < l < i :: Before(o, s, from0[k], from0[l])
      modifies items
      ensures SameAtEachTime(s, items[..]) && Rearranged(s, items[..], from)
      ensures forall k | i < k < |s| :: from[k] == k
      ensures forall k | 0 <= k <= i :: from[k] <= i
      ensures forall k, l | 0 <= k < l <= i :: Before(o, s, from[k], from[l])
    {
      from := from0;
      var j: nat := i;
      while j > 0 && LessIn(o, j, j - 1)
        invariant j <= i
        invariant SameAtEachTime(s, items[..]) && Rearranged(s, items[..], from)
        invariant forall k | i < k < |s| :: from[k] == k
        invariant from[j] == i && forall k | 0 <= k <= i && k != j :: from[k] < i
        invariant forall k, l | 0 <= k < l <= i && l != j :: Before(o, s, from[k], from[l])
      {
        SwapKeepsOrder(o, s, from, i, j);
        from := SwapWithNeighbour(j, s, from);
        j := j - 1;
      }
      ComesAfter(o, i, j, s, items[..], from);
    }

    method SwapWithNeighbour(j: nat, ghost s: seq<Event>, ghost from0: seq<nat>) returns (ghost from: seq<nat>)
      requires 0 < j < Len() && items[j - 1].time != items[j].time
      requires SameAtEachTime(s, items[..]) && Rearranged(s, items[..], from0)
      modifies items
      ensures SameAtEachTime(s, items[..]) && Rearranged(s, items[..], from)
      ensures from == Swapped(from0, j) && items[..] == Swapped(old(items[..]), j)
    {
      SwapKeepsTimes(items[..], j);
      SwapKeepsPlaces(s, items[..], from0, j);
      Swap(j, j - 1);
      assert items[..] == Swapped(old(items[..]), j);
      from := Swapped(from0, j);
    }

    /** The least recent event first. */
    method LatestLastSort() returns (ghost from: seq<nat>)
      modifies items
      ensures IsStableSort(LatestLast, old(items[..]), items[..])
      ensures Placed(LatestLast, old(items[..]), items[..], from)
      ensures forall i, j | 0 <= i < j < items.Length :: items[i].time <= items[j].time
    {
      from := Stable(LatestLast);
      assert forall i | 0 <= i < items.Length :: items[i] == items[..][i];
    }

    /** The most recent event first. */
    method LatestFirstSort() returns (ghost from: seq<nat>)
      modifies items
      ensures IsStableSort(LatestFirst, old(items[..]), items[..])
      ensures Placed(LatestFirst, old(items[..]), items[..], from)
      ensures forall i, j | 0 <= i < j < items.Length :: items[i].time >= items[j].time
    {
      from := Stable(LatestFirst);
      assert forall i | 0 <= i < items.Length :: items[i] == items[..][i];
    }
  }

  lemma PlacedIsOrdered(o: Order, s: seq<Event>, out: seq<Event>, from: seq<nat>)
    requires Placed(o, s, out, from)
    ensures Ordered(o, out)
  {
  }

  /** Moving the new item up one place leaves the others in order. */
  lemma SwapKeepsOrder(o: Order, s: seq<Event>, from: seq<nat>, i: nat, j: nat)
    requires 0 < j <= i < |s| == |from| && forall k | 0 <= k < |s| :: from[k] < |s|
    requires from[j] == i && forall k | 0 <= k <= i && k != j :: from[k] < i
    requires forall k, l | 0 <= k < l <= i && l != j :: Before(o, s, from[k], from[l])
    requires forall k | i < k < |s| :: from[k] == k
    requires Precedes(o, s[from[j]], s[from[j - 1]])
    ensures var to := Swapped(from, j);
      && (forall k | 0 <= k < |s| :: to[k] < |s|)
      && (forall k | i < k < |s| :: to[k] == k)
      && to[j - 1] == i && (forall k | 0 <= k <= i && k != j - 1 :: to[k] < i)
      && forall k, l | 0 <= k < l <= i && l != j - 1 :: Before(o, s, to[k], to[l])
  {
    var to := Swapped(from, j);
    forall k, l | 0 <= k < l <= i && l != j - 1
      ensures Before(o, s, to[k], to[l])
    {
      if (k, l) != (j - 1, j) {
        assert Before(o, s, from[if k == j - 1 then j else if k == j then j - 1 else k], from[if l == j then j - 1 else l]);
      }
    }
  }

  /** Where the moving event stops, it comes after all that are before it. */
  lemma ComesAfter(o: Order, i: nat, j: nat, s: seq<Event>, out: seq<Event>, from: seq<nat>)
    requires j <= i < |s| && Rearranged(s, out, from)
    requires from[j] == i && forall k | 0 <= k <= i && k != j :: from[k] < i
    requires forall k, l | 0 <= k < l <= i && l != j :: Before(o, s, from[k], from[l])
    requires j > 0 ==> !Precedes(o, out[j], out[j - 1])
    ensures forall k, l | 0 <= k < l <= i :: Before(o, s, from[k], from[l])
  {
    forall k | 0 <= k < j
      ensures Before(o, s, from[k], from[j])
    {
      if k < j - 1 {
        assert Before(o, s, from[k], from[j - 1]);
      }
    }
  }
}
