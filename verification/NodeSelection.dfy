/** Node selection: one label map, written down as the node affinity of a
    PersistentVolume, as the node affinity of a helper pod and as a list selector.

    The meaning of a node selector, of a list selector and of a toleration is that of
    the Kubernetes API: terms are alternatives, the expressions of a term must all
    hold, and a term without expressions selects nothing. */
module NodeSelection {
  import opened Wrappers

  type Labels = map<string, string>

  datatype Operator = In | NotIn | Exists | DoesNotExist

  datatype Requirement = Requirement(key: string, operator: Operator, values: seq<string>)

  datatype NodeSelector = NodeSelector(terms: seq<seq<Requirement>>)

  predicate Holds(r: Requirement, node: Labels) {
    match r.operator
    case In => r.key in node && node[r.key] in r.values
    case NotIn => r.key !in node || node[r.key] !in r.values
    case Exists => r.key in node
    case DoesNotExist => r.key !in node
  }

  predicate TermHolds(term: seq<Requirement>, node: Labels) {
    term != [] && forall i | 0 <= i < |term| :: Holds(term[i], node)
  }

  predicate Selects(selector: NodeSelector, node: Labels) {
    exists i | 0 <= i < |selector.terms| :: TermHolds(selector.terms[i], node)
  }

  /** A list selector made of label equalities: the node carries every wanted label. */
  predicate Carries(node: Labels, wanted: Labels) {
    forall k | k in wanted :: k in node && node[k] == wanted[k]
  }

  /** The labels that are written down at all: those with a value. */
  function Wanted(labels: Labels): Labels {
    map k | k in labels && labels[k] != "" :: labels[k]
  }

  /** The expressions name every wanted label, each once, in some order. */
  predicate Lists(term: seq<Requirement>, wanted: Labels) {
    && (forall i | 0 <= i < |term| ::
          && term[i].key in wanted
          && term[i] == Requirement(term[i].key, In, [wanted[term[i].key]]))
    && (forall i, j | 0 <= i < j < |term| :: term[i].key != term[j].key)
    && (forall k | k in wanted :: exists i | 0 <= i < |term| :: term[i].key == k)
  }

  predicate Encodes(selector: NodeSelector, labels: Labels) {
    && Wanted(labels) != map[]
    && |selector.terms| == 1
    && Lists(selector.terms[0], Wanted(labels))
  }

  /** The labels with a value that are not among the rest. */
  ghost function Without(labels: Labels, rest: set<string>): Labels {
    map k | k in labels && k !in rest && labels[k] != "" :: labels[k]
  }

  lemma ListsOneMore(term: seq<Requirement>, wanted: Labels, key: string, value: string)
    requires Lists(term, wanted) && key !in wanted
    ensures Lists(term + [Requirement(key, In, [value])], wanted[key := value])
  {
    var longer := term + [Requirement(key, In, [value])];
    forall k {:trigger k in wanted} | k == key || k in wanted
      ensures exists i | 0 <= i < |longer| :: longer[i].key == k
    {
      if k == key {
        assert longer[|term|].key == k;
      } else {
        var i :| 0 <= i < |term| && term[i].key == k;
        assert longer[i].key == k;
      }
    }
  }

  /** There is such a list, and an encoding of every map with a label to write down. */
  lemma SomeListing(wanted: Labels) returns (term: seq<Requirement>)
    ensures Lists(term, wanted)
  {
    term := [];
    if wanted != map[] {
      var key :| key in wanted;
      var rest := wanted - {key};
      term := SomeListing(rest);
      ListsOneMore(term, rest, key, wanted[key]);
      assert rest[key := wanted[key]] == wanted;
      term := term + [Requirement(key, In, [wanted[key]])];
    }
  }

  lemma SomeEncoding(labels: Labels) returns (selector: NodeSelector)
    requires Wanted(labels) != map[]
    ensures Encodes(selector, labels)
  {
    var term := SomeListing(Wanted(labels));
    selector := NodeSelector([term]);
  }

  /** One requirement for each label that has a value, in the order the map happens to
      be traversed. Shared by the two affinity builders, which repeat this loop. */
  method MatchExpressions(labels: Labels) returns (term: seq<Requirement>)
    ensures Lists(term, Wanted(labels))
    ensures term == [] <==> Wanted(labels) == map[]
  {
    term := [];
    var rest := labels.Keys;
    while rest != {}
      invariant rest <= labels.Keys
      invariant Lists(term, Without(labels, rest))
    {
      var key :| key in rest;
      ghost var before := Without(labels, rest);
      rest := rest - {key};
      if labels[key] != "" {
        ListsOneMore(term, before, key, labels[key]);
        term := term + [Requirement(key, In, [labels[key]])];
        assert Without(labels, rest) == before[key := labels[key]];
      } else {
        assert Without(labels, rest) == before;
      }
    }
    assert Without(labels, rest) == Wanted(labels);
    if term != [] {
      assert term[0].key in Wanted(labels);
    }
  }

  /** Reading an affinity back: the value of every single-valued In expression, or
      nothing at all when some In expression has no value or several. */
  function Decode(exprs: seq<Requirement>): (r: Option<Labels>) {
    if exprs == [] then
      Some(map[])
    else
      var last := exprs[|exprs| - 1];
      match Decode(exprs[..|exprs| - 1])
      case None => None
      case Some(m) =>
        if last.operator != In then Some(m)
        else if |last.values| != 1 then None
        else Some(m[last.key := last.values[0]])
  }

  function Flatten(terms: seq<seq<Requirement>>): seq<Requirement> {
    if terms == [] then [] else Flatten(terms[..|terms| - 1]) + terms[|terms| - 1]
  }

  lemma DecodeSnoc(exprs: seq<Requirement>, x: Requirement)
    ensures Decode(exprs + [x]) ==
      if Decode(exprs).None? then None
      else if x.operator != In then Decode(exprs)
      else if |x.values| != 1 then None
      else Some(Decode(exprs).value[x.key := x.values[0]])
  {
    assert (exprs + [x])[..|exprs|] == exprs;
  }

  lemma {:induction false} DecodeStops(exprs: seq<Requirement>, more: seq<Requirement>)
    requires Decode(exprs).None?
    ensures Decode(exprs + more).None?
    decreases |more|
  {
    if more == [] {
      assert exprs + more == exprs;
    } else {
      var front := more[..|more| - 1];
      DecodeStops(exprs, front);
      DecodeSnoc(exprs + front, more[|more| - 1]);
      assert exprs + more == exprs + front + [more[|more| - 1]];
    }
  }

  /** The expressions before term t, then the first e of term t, are a prefix of all. */
  function Before(terms: seq<seq<Requirement>>, t: nat, e: nat): seq<Requirement>
    requires t < |terms| && e <= |terms[t]|
  {
    Flatten(terms[..t]) + terms[t][..e]
  }

  lemma NextExpression(terms: seq<seq<Requirement>>, t: nat, e: nat)
    requires t < |terms| && e < |terms[t]|
    ensures Before(terms, t, e + 1) == Before(terms, t, e) + [terms[t][e]]
  {
    assert terms[t][..e + 1] == terms[t][..e] + [terms[t][e]];
  }

  lemma TermEnds(terms: seq<seq<Requirement>>, t: nat)
    requires t < |terms|
    ensures Before(terms, t, |terms[t]|) == Flatten(terms[..t + 1])
    ensures Before(terms, t, 0) == Flatten(terms[..t])
  {
    assert terms[t][..|terms[t]|] == terms[t];
    assert terms[..t + 1][..t] == terms[..t];
  }

  lemma BeforeIsPrefix(terms: seq<seq<Requirement>>, t: nat, e: nat) returns (more: seq<Requirement>)
    requires t < |terms| && e <= |terms[t]|
    ensures Flatten(terms) == Before(terms, t, e) + more
  {
    TermEnds(terms, t);
    FlattenPrefix(terms, t + 1);
    var upTo := |Flatten(terms[..t + 1])|;
    more := terms[t][e..] + Flatten(terms)[upTo..];
    assert Flatten(terms) == Flatten(terms)[..upTo] + Flatten(terms)[upTo..];
    assert terms[t] == terms[t][..e] + terms[t][e..];
    assert Flatten(terms[..t + 1]) == Flatten(terms[..t]) + terms[t];
  }

  /** The nested loops over selector terms and expressions. An affinity that is not set
      is None, and reads as no labels. */
  method GetAffinitedNodeLabels(affinity: Option<NodeSelector>) returns (r: Option<Labels>)
    ensures r == if affinity.None? then None else Decode(Flatten(affinity.value.terms))
  {
    if affinity.None? {
      return None;
    }
    var terms := affinity.value.terms;
    var labels: Labels := map[];
    var t := 0;
    while t < |terms|
      invariant 0 <= t <= |terms|
      invariant Decode(Flatten(terms[..t])) == Some(labels)
    {
      TermEnds(terms, t);
      var e := 0;
      while e < |terms[t]|
        invariant 0 <= e <= |terms[t]|
        invariant Decode(Before(terms, t, e)) == Some(labels)
      {
        var expression := terms[t][e];
        NextExpression(terms, t, e);
        DecodeSnoc(Before(terms, t, e), expression);
        if expression.operator == In {
          if |expression.values| != 1 {
            ghost var more := BeforeIsPrefix(terms, t, e + 1);
            DecodeStops(Before(terms, t, e + 1), more);
            return None;
          }
          labels := labels[expression.key := expression.values[0]];
        }
        e := e + 1;
      }
      t := t + 1;
    }
    assert terms[..t] == terms;
    return Some(labels);
  }

  lemma {:induction false} FlattenPrefix(terms: seq<seq<Requirement>>, t: nat)
    requires t <= |terms|
    ensures |Flatten(terms[..t])| <= |Flatten(terms)|
    ensures Flatten(terms)[..|Flatten(terms[..t])|] == Flatten(terms[..t])
    decreases |terms|
  {
    if t < |terms| {
      assert terms[..|terms| - 1][..t] == terms[..t];
      FlattenPrefix(terms[..|terms| - 1], t);
    } else {
      assert terms[..t] == terms;
    }
  }

  /** What is read back from any expressions: nothing exactly when some In expression has no
      value or several; otherwise the keys of the In expressions, each with the value of the last
      one for it. */
  lemma {:induction false} WhatIsReadBack(exprs: seq<Requirement>)
    ensures Decode(exprs).None? <==> exists e | e in exprs :: e.operator == In && |e.values| != 1
    ensures Decode(exprs).Some? ==>
      forall k :: k in Decode(exprs).value <==> exists e | e in exprs :: e.operator == In && e.key == k
    ensures Decode(exprs).Some? ==>
      forall i | 0 <= i < |exprs| && exprs[i].operator == In && LastOfKey(exprs, i) ::
        exprs[i].key in Decode(exprs).value && exprs[i].values == [Decode(exprs).value[exprs[i].key]]
  {
    if exprs != [] {
      var front, last := exprs[..|exprs| - 1], exprs[|exprs| - 1];
      WhatIsReadBack(front);
      assert exprs == front + [last];
      assert forall e :: e in exprs <==> e in front || e == last;
      forall i | 0 <= i < |front| && LastOfKey(exprs, i)
        ensures LastOfKey(front, i) && !(last.operator == In && last.key == front[i].key)
      {
        assert forall j | 0 <= j < |front| :: front[j] == exprs[j];
      }
    }
  }

  /** No later In expression has the same key. */
  predicate LastOfKey(exprs: seq<Requirement>, i: nat)
    requires i < |exprs|
  {
    forall j | i < j < |exprs| && exprs[j].operator == In :: exprs[j].key != exprs[i].key
  }

  /** A listing of a label map holds on exactly the nodes that carry the labels. */
  lemma ListingHolds(term: seq<Requirement>, wanted: Labels, node: Labels)
    requires Lists(term, wanted) && wanted != map[]
    ensures TermHolds(term, node) <==> Carries(node, wanted)
  {
    var someKey :| someKey in wanted;
    var at :| 0 <= at < |term| && term[at].key == someKey;
    if Carries(node, wanted) {
      forall i | 0 <= i < |term|
        ensures Holds(term[i], node)
      {
        assert term[i].key in wanted;
      }
    }
    if TermHolds(term, node) {
      forall k | k in wanted
        ensures k in node && node[k] == wanted[k]
      {
        var i :| 0 <= i < |term| && term[i].key == k;
        assert Holds(term[i], node);
      }
    }
  }

  /** Reading back a prefix of a listing gives the labels listed so far. */
  lemma DecodeNext(term: seq<Requirement>, wanted: Labels, n: nat)
    requires Lists(term, wanted) && 0 < n <= |term| && Decode(term[..n - 1]).Some?
    ensures Decode(term[..n]) == Some(Decode(term[..n - 1]).value[term[n - 1].key := wanted[term[n - 1].key]])
  {
    assert term[..n][..n - 1] == term[..n - 1];
    assert term[..n][n - 1] == term[n - 1];
  }

  predicate NamedBefore(term: seq<Requirement>, n: nat, k: string)
    requires n <= |term|
  {
    exists i | 0 <= i < n :: term[i].key == k
  }

  lemma {:induction false} DecodeListing(term: seq<Requirement>, wanted: Labels, n: nat)
    requires Lists(term, wanted) && n <= |term|
    ensures Decode(term[..n]).Some?
    ensures forall k :: k in Decode(term[..n]).value <==> NamedBefore(term, n, k)
    ensures forall k | k in Decode(term[..n]).value :: k in wanted && Decode(term[..n]).value[k] == wanted[k]
  {
    if n > 0 {
      DecodeListing(term, wanted, n - 1);
      DecodeNext(term, wanted, n);
      forall k
        ensures NamedBefore(term, n, k) <==> k == term[n - 1].key || NamedBefore(term, n - 1, k)
      {
      }
    }
  }

  /** A listing of a label map reads as that map. */
  lemma ListingReadsBack(term: seq<Requirement>, wanted: Labels)
    requires Lists(term, wanted)
    ensures Decode(term) == Some(wanted)
  {
    DecodeListing(term, wanted, |term|);
    assert term[..|term|] == term;
    var m := Decode(term).value;
    forall k | k in wanted
      ensures k in m
    {
      var i :| 0 <= i < |term| && term[i].key == k;
      assert NamedBefore(term, |term|, k);
    }
    assert m == wanted;
  }

  /** Reading the PV affinity back returns exactly the labels that have a value, in
      whatever order they were written. */
  lemma AffinityRoundTrip(selector: NodeSelector, labels: Labels)
    requires Encodes(selector, labels)
    ensures Decode(Flatten(selector.terms)) == Some(map k | k in labels && labels[k] != "" :: labels[k])
  {
    OneTerm(selector.terms);
    ListingReadsBack(selector.terms[0], Wanted(labels));
  }

  lemma OneTerm(terms: seq<seq<Requirement>>)
    requires |terms| == 1
    ensures Flatten(terms) == terms[0]
  {
    assert terms[..0] == [] && [] + terms[0] == terms[0];
  }

  /** The three encodings agree on every node: the affinity of the PV, the affinity of
      any helper pod, whether it was built from the same label map or from the labels
      read back out of the PV, and the list selector built from those. */
  lemma ThreeEncodingsAgree(labels: Labels, onPV: NodeSelector, onPod: NodeSelector, onCleanup: NodeSelector, node: Labels)
    requires Encodes(onPV, labels) && Encodes(onPod, labels)
    requires var back := Decode(Flatten(onPV.terms)); back.Some? ==> Encodes(onCleanup, back.value)
    ensures Decode(Flatten(onPV.terms)).Some?
    ensures Selects(onPV, node) <==> forall k | k in labels && labels[k] != "" :: k in node && node[k] == labels[k]
    ensures Selects(onPod, node) <==> Selects(onPV, node)
    ensures Carries(node, Decode(Flatten(onPV.terms)).value) <==> Selects(onPV, node)
    ensures Selects(onCleanup, node) <==> Selects(onPV, node)
  {
    AffinityRoundTrip(onPV, labels);
    EncodingSelects(onPV, labels, node);
    EncodingSelects(onPod, labels, node);
    assert Wanted(Wanted(labels)) == Wanted(labels);
    EncodingSelects(onCleanup, Wanted(labels), node);
  }

  lemma EncodingSelects(selector: NodeSelector, labels: Labels, node: Labels)
    requires Encodes(selector, labels)
    ensures Selects(selector, node) <==> Carries(node, Wanted(labels))
  {
    ListingHolds(selector.terms[0], Wanted(labels), node);
    if Carries(node, Wanted(labels)) {
      assert TermHolds(selector.terms[0], node);
    }
  }

  /** The label map of a provisioning request: the value the selected node has for each
      configured key, or for the hostname key when none is configured. A missing label
      reads as the empty string. */
  function GetNodeLabelValue(node: Labels, key: string): string {
    if key in node then node[key] else ""
  }

  const HostnameKey := "kubernetes.io/hostname"

  predicate HasHostname(node: Labels) {
    HostnameKey in node && node[HostnameKey] != ""
  }

  /** The node has a value for some configured key, or a hostname if none is configured. */
  predicate HasLabelOf(keys: Option<seq<string>>, node: Labels) {
    if keys.None? then HasHostname(node) else exists k | k in keys.value :: k in node && node[k] != ""
  }

  /** The other node has the values of the first one: for each configured key, or the hostname
      key, for which the first one has a value. */
  predicate SameValues(keys: Option<seq<string>>, node: Labels, other: Labels) {
    forall k | k in node && node[k] != "" && (if keys.None? then k == HostnameKey else k in keys.value) ::
      k in other && other[k] == node[k]
  }

  /** Every configured key, or the hostname key, with the value the node has for it, if any. What
      is written down are exactly those that the node carries with a value. */
  method NodeAffinityLabels(keys: Option<seq<string>>, node: Labels) returns (labels: Labels)
    ensures labels.Keys == if keys.None? then {HostnameKey} else set k | k in keys.value
    ensures forall k | k in labels :: labels[k] == if k in node then node[k] else ""
    ensures Wanted(labels) ==
      map k | k in node && node[k] != "" && (if keys.None? then k == HostnameKey else k in keys.value) :: node[k]
    ensures Wanted(labels) != map[] <==> HasLabelOf(keys, node)
    ensures Carries(node, Wanted(labels)) && forall other :: Carries(other, Wanted(labels)) <==> SameValues(keys, node, other)
  {
    labels := map[];
    if keys.None? {
      labels := labels[HostnameKey := GetNodeLabelValue(node, HostnameKey)];
    } else {
      for i := 0 to |keys.value|
        invariant forall k :: k in labels <==> k in keys.value[..i]
        invariant forall k | k in labels :: labels[k] == GetNodeLabelValue(node, k)
      {
        labels := labels[keys.value[i] := GetNodeLabelValue(node, keys.value[i])];
      }
      assert keys.value[..|keys.value|] == keys.value;
    }
    LabelsOfNode(keys, node, labels);
  }

  lemma LabelsOfNode(keys: Option<seq<string>>, node: Labels, labels: Labels)
    requires forall k :: k in labels <==> if keys.None? then k == HostnameKey else k in keys.value
    requires forall k | k in labels :: labels[k] == if k in node then node[k] else ""
    ensures Wanted(labels) ==
      map k | k in node && node[k] != "" && (if keys.None? then k == HostnameKey else k in keys.value) :: node[k]
    ensures Wanted(labels) != map[] <==> HasLabelOf(keys, node)
    ensures Carries(node, Wanted(labels)) && forall other :: Carries(other, Wanted(labels)) <==> SameValues(keys, node, other)
  {
    if k :| k in labels && labels[k] != "" {
      assert k in Wanted(labels);
    } else {
      assert Wanted(labels) == map[];
    }
  }

  /** An affinity made of these labels selects the nodes with the same values, and no others. */
  ghost predicate SelectsAlike(selector: NodeSelector, keys: Option<seq<string>>, node: Labels) {
    forall other: Labels :: Selects(selector, other) <==> SameValues(keys, node, other)
  }

  lemma EncodingSelectsAlike(selector: NodeSelector, labels: Labels, keys: Option<seq<string>>, node: Labels)
    requires Encodes(selector, labels) && forall other :: Carries(other, Wanted(labels)) <==> SameValues(keys, node, other)
    ensures SelectsAlike(selector, keys, node) && Selects(selector, node)
  {
    forall other: Labels
      ensures Selects(selector, other) <==> SameValues(keys, node, other)
    {
      EncodingSelects(selector, labels, other);
    }
  }

  // ---------------------------------------------------------------- taints

  datatype Taint = Taint(key: string, value: string, effect: string)

  datatype TolerationOp = Exists | Equal

  datatype Toleration = Toleration(key: string, operator: TolerationOp, value: string, effect: string)

  predicate Tolerates(t: Toleration, taint: Taint) {
    && (t.effect == "" || t.effect == taint.effect)
    && (t.key == "" || t.key == taint.key)
    && (t.operator == TolerationOp.Exists || t.value == taint.value)
  }

  predicate Tolerated(tolerations: seq<Toleration>, taint: Taint) {
    exists j | 0 <= j < |tolerations| :: Tolerates(tolerations[j], taint)
  }

  predicate AllTolerated(tolerations: seq<Toleration>, taints: seq<Taint>) {
    forall i | 0 <= i < |taints| :: Tolerated(tolerations, taints[i])
  }

  /** The toleration made for a taint. It tolerates that taint, and for a taint without a value
      every taint of the key. */
  function TolerationFor(taint: Taint): (r: Toleration)
    ensures Tolerates(r, taint)
  {
    if taint.value == "" then Toleration(taint.key, TolerationOp.Exists, "", taint.effect)
    else Toleration(taint.key, Equal, taint.value, taint.effect)
  }

  function TolerationsFor(taints: seq<Taint>): (r: seq<Toleration>)
    ensures |r| == |taints| && forall i | 0 <= i < |taints| :: r[i] == TolerationFor(taints[i])
  {
    seq(|taints|, i requires 0 <= i < |taints| => TolerationFor(taints[i]))
  }

  /** The other taint is this one, or differs from it in what this one leaves open: a taint
      without a value stands for all values of its key. */
  predicate Covers(taint: Taint, other: Taint) {
    && (taint.key == other.key || taint.key == "")
    && (taint.value == other.value || taint.value == "")
    && (taint.effect == other.effect || taint.effect == "")
  }

  predicate Covered(taints: seq<Taint>, taint: Taint) {
    exists i | 0 <= i < |taints| :: Covers(taints[i], taint)
  }

  /** Their tolerations tolerate these taints and no more. */
  lemma ToleratedAreCovered(taints: seq<Taint>, taint: Taint)
    ensures Tolerated(TolerationsFor(taints), taint) <==> Covered(taints, taint)
  {
    var ts := TolerationsFor(taints);
    if j :| 0 <= j < |ts| && Tolerates(ts[j], taint) {
      assert ts[j] == TolerationFor(taints[j]);
    }
    if i :| 0 <= i < |taints| && Covers(taints[i], taint) {
      assert Tolerates(ts[i], taint);
    }
  }

  lemma TheirTaintsAreTolerated(taints: seq<Taint>)
    ensures AllTolerated(TolerationsFor(taints), taints)
  {
    forall i | 0 <= i < |taints|
      ensures Tolerated(TolerationsFor(taints), taints[i])
    {
      assert Tolerates(TolerationsFor(taints)[i], taints[i]);
    }
  }

  /** One toleration per taint, added after those already there; every taint of the
      node is then tolerated, and none but those covered by them that was not before. */
  method WithTolerationsForTaints(tolerations: seq<Toleration>, taints: seq<Taint>) returns (r: seq<Toleration>)
    ensures r == tolerations + TolerationsFor(taints)
    ensures AllTolerated(r, taints)
    ensures forall t :: Tolerated(r, t) <==> Tolerated(tolerations, t) || Covered(taints, t)
  {
    r := tolerations;
    for i := 0 to |taints|
      invariant r == tolerations + TolerationsFor(taints)[..i]
    {
      if |taints[i].value| == 0 {
        r := r + [Toleration(taints[i].key, TolerationOp.Exists, "", taints[i].effect)];
      } else {
        r := r + [Toleration(taints[i].key, Equal, taints[i].value, taints[i].effect)];
      }
    }
    forall i | 0 <= i < |taints|
      ensures Tolerated(r, taints[i])
    {
      assert Tolerates(r[|tolerations| + i], taints[i]);
    }
    assert r == tolerations + TolerationsFor(taints);
    forall t
      ensures Tolerated(r, t) <==> Tolerated(tolerations, t) || Covered(taints, t)
    {
      ToleratedAreCovered(taints, t);
      ToleratedByEither(tolerations, TolerationsFor(taints), t);
    }
  }

  lemma ToleratedByEither(a: seq<Toleration>, b: seq<Toleration>, taint: Taint)
    ensures Tolerated(a + b, taint) <==> Tolerated(a, taint) || Tolerated(b, taint)
  {
    if j :| 0 <= j < |a| && Tolerates(a[j], taint) {
      assert (a + b)[j] == a[j];
    }
    if j :| 0 <= j < |b| && Tolerates(b[j], taint) {
      assert (a + b)[|a| + j] == b[j];
    }
    if j :| 0 <= j < |a + b| && Tolerates((a + b)[j], taint) {
      assert if j < |a| then Tolerates(a[j], taint) else Tolerates(b[j - |a|], taint);
    }
  }
}
