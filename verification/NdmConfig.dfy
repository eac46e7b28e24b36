/** The configuration of the node disk manager, and the edits of its path filter in place. */
module NdmConfig {
  import opened PathFilter

  datatype FilterConfig = FilterConfig(key: string, name: string, state: string, included: string, excluded: string)

  datatype ListType = Include | Exclude | Other(name: string)

  const PathFilterKey := "path-filter"

  function ListOf(f: FilterConfig, listType: ListType): string {
    if listType.Include? then f.included else f.excluded
  }

  function WithList(f: FilterConfig, listType: ListType, list: string): FilterConfig {
    if listType.Include? then f.(included := list) else f.(excluded := list)
  }

  /** The first filter with the key of the path filter. */
  predicate IsPathFilter(filters: seq<FilterConfig>, i: nat) {
    && i < |filters| && filters[i].key == PathFilterKey
    && forall j | 0 <= j < i :: filters[j].key != PathFilterKey
  }

  /** Exactly one list of one filter is edited. */
  ghost predicate Edited(before: seq<FilterConfig>, after: seq<FilterConfig>, listType: ListType, i: nat, list: string) {
    IsPathFilter(before, i) && after == before[i := WithList(before[i], listType, list)]
  }

  /** Nothing differs but one list of one filter. */
  ghost predicate OnlyThatList(before: seq<FilterConfig>, after: seq<FilterConfig>, listType: ListType, i: nat) {
    && IsPathFilter(before, i) && |after| == |before|
    && (forall j | 0 <= j < |before| && j != i :: after[j] == before[j])
    && after[i].key == before[i].key && after[i].name == before[i].name && after[i].state == before[i].state
    && (listType.Include? ==> after[i].excluded == before[i].excluded)
    && (listType.Exclude? ==> after[i].included == before[i].included)
  }

  /** One more entry, behind all others. */
  ghost predicate Gained(before: string, after: string, path: string) {
    CommaFree(path) ==> Split(after) == (if before == "" then [] else Split(before)) + [path]
  }

  /** The entries equal to the path are gone, and only they, unless another one contains it. */
  ghost predicate Lost(before: string, after: string, path: string) {
    CommaFree(path) && path != "" ==> (Split(after) == Expected(Split(before), path) <==> Undisturbed(Split(before), path))
  }

  class Config {
    var filters: seq<FilterConfig>

    constructor (filters: seq<FilterConfig>)
      ensures this.filters == filters
    {
      this.filters := filters;
    }

    method FindPathFilter() returns (found: bool, index: nat)
      ensures found ==> IsPathFilter(filters, index)
      ensures !found ==> forall f | f in filters :: f.key != PathFilterKey
    {
      index := 0;
      while index < |filters|
        invariant index <= |filters|
        invariant forall j | 0 <= j < index :: filters[j].key != PathFilterKey
      {
        if filters[index].key == PathFilterKey {
          return true, index;
        }
        index := index + 1;
      }
      return false, 0;
    }
  }

  /** Appends a path to one of the lists of the path filter. Without a configuration, a path
      filter or a known list nothing changes. */
  method AppendToPathFilter(c: Config?, listType: ListType, path: string) returns (ok: bool)
    modifies if c == null then {} else {c}
    ensures ok <==> c != null && !listType.Other? && exists f :: f in old(c.filters) && f.key == PathFilterKey
    ensures c != null && !ok ==> c.filters == old(c.filters)
    ensures ok ==> exists i: nat | i < |old(c.filters)| ::
      Edited(old(c.filters), c.filters, listType, i, Append(ListOf(old(c.filters)[i], listType), path))
    ensures ok && listType.Include? ==> exists i: nat | OnlyThatList(old(c.filters), c.filters, listType, i) ::
      Gained(old(c.filters)[i].included, c.filters[i].included, path)
    ensures ok && listType.Exclude? ==> exists i: nat | OnlyThatList(old(c.filters), c.filters, listType, i) ::
      Gained(old(c.filters)[i].excluded, c.filters[i].excluded, path)
  {
    if c == null {
      return false;
    }
    var found, index := c.FindPathFilter();
    if !found {
      return false;
    }
    var f := c.filters[index];
    assert f in c.filters;
    var separator := "";
    match listType {
      case Include =>
        if |f.included| > 0 {
          separator := ",";
        }
        c.filters := c.filters[index := f.(included := f.included + separator + path)];
      case Exclude =>
        if |f.excluded| > 0 {
          separator := ",";
        }
        c.filters := c.filters[index := f.(excluded := f.excluded + separator + path)];
      case Other(_) =>
        return false;
    }
    assert Edited(old(c.filters), c.filters, listType, index, Append(ListOf(f, listType), path));
    if CommaFree(path) {
      AppendAddsAnEntry(ListOf(f, listType), path);
    }
    assert OnlyThatList(old(c.filters), c.filters, listType, index);
    return true;
  }

  /** Removes a path from one of the lists of the path filter. */
  method RemoveFromPathFilter(c: Config?, listType: ListType, path: string) returns (ok: bool)
    modifies if c == null then {} else {c}
    ensures ok <==> c != null && !listType.Other? && exists f :: f in old(c.filters) && f.key == PathFilterKey
    ensures c != null && !ok ==> c.filters == old(c.filters)
    ensures ok ==> exists i: nat | i < |old(c.filters)| ::
      Edited(old(c.filters), c.filters, listType, i, Remove(ListOf(old(c.filters)[i], listType), path))
    ensures ok && listType.Include? ==> exists i: nat | OnlyThatList(old(c.filters), c.filters, listType, i) ::
      Lost(old(c.filters)[i].included, c.filters[i].included, path)
    ensures ok && listType.Exclude? ==> exists i: nat | OnlyThatList(old(c.filters), c.filters, listType, i) ::
      Lost(old(c.filters)[i].excluded, c.filters[i].excluded, path)
  {
    if c == null {
      return false;
    }
    var found, index := c.FindPathFilter();
    if !found {
      return false;
    }
    var f := c.filters[index];
    assert f in c.filters;
    match listType {
      case Include =>
        var finalList := RemoveAll(f.included, "," + path);
        finalList := RemoveAll(finalList, path);
        c.filters := c.filters[index := f.(included := finalList)];
      case Exclude =>
        var finalList := RemoveAll(f.excluded, "," + path);
        finalList := RemoveAll(finalList, path);
        c.filters := c.filters[index := f.(excluded := finalList)];
      case Other(_) =>
        return false;
    }
    assert Edited(old(c.filters), c.filters, listType, index, Remove(ListOf(f, listType), path));
    if CommaFree(path) && path != "" {
      RemovesExactlyTheEntries(ListOf(f, listType), path);
    }
    assert OnlyThatList(old(c.filters), c.filters, listType, index);
    return true;
  }

  /** Appending a path and removing it restores the whole configuration if and only if the
      path did not occur in the list. */
  lemma RemoveRestores(before: seq<FilterConfig>, between: seq<FilterConfig>, after: seq<FilterConfig>,
                       listType: ListType, i: nat, j: nat, path: string)
    requires path != "" && CommaFree(path) && !listType.Other? && i < |before| && j < |between|
    requires Edited(before, between, listType, i, Append(ListOf(before[i], listType), path))
    requires Edited(between, after, listType, j, Remove(ListOf(between[j], listType), path))
    ensures i == j
    ensures after == before <==> !Contains(ListOf(before[i], listType), path)
  {
    assert between[i].key == before[i].key;
    assert forall k | 0 <= k < i :: between[k] == before[k];
    assert i == j;
    RemoveUndoesAppend(ListOf(before[i], listType), path);
    assert ListOf(after[i], listType) == Remove(Append(ListOf(before[i], listType), path), path);
    assert after == before[i := after[i]];
    assert after[i] == WithList(before[i], listType, ListOf(after[i], listType));
  }
}
