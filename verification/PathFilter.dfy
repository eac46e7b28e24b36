/** The path filter of the node disk manager's configuration: two comma-separated lists of
    device paths. A path is appended as text and removed as text. */
module PathFilter {

  // ---------------------------------------------------------------- text

  /** strings.ReplaceAll(s, x, ""): occurrences from left to right, not overlapping. Replacing
      the empty text by itself changes nothing. */
  function RemoveAll(s: string, x: string): string {
    if x == "" || s == "" then s
    else if x <= s then RemoveAll(s[|x|..], x)
    else [s[0]] + RemoveAll(s[1..], x)
  }

  predicate OccursAt(s: string, x: string, i: nat) {
    i <= |s| && x <= s[i..]
  }

  predicate Contains(s: string, x: string) {
    exists i | 0 <= i <= |s| :: OccursAt(s, x, i)
  }

  /** Removing takes something away exactly when there is something to remove. */
  lemma {:induction false} RemoveAllShrinks(s: string, x: string)
    requires x != ""
    ensures |RemoveAll(s, x)| <= |s|
    ensures |RemoveAll(s, x)| == |s| <==> !Contains(s, x)
    ensures !Contains(s, x) ==> RemoveAll(s, x) == s
  {
    if s == "" {
      assert !Contains(s, x);
    } else if x <= s {
      RemoveAllShrinks(s[|x|..], x);
      assert s[0..] == s;
      assert OccursAt(s, x, 0);
    } else {
      RemoveAllShrinks(s[1..], x);
      ContainsRest(s, x);
    }
  }

  lemma ContainsRest(s: string, x: string)
    requires s != "" && !(x <= s)
    ensures Contains(s, x) <==> Contains(s[1..], x)
  {
    assert s[0..] == s;
    if Contains(s, x) {
      var i :| 0 <= i <= |s| && OccursAt(s, x, i);
      assert s[1..][i - 1..] == s[i..];
      assert OccursAt(s[1..], x, i - 1);
    }
    if Contains(s[1..], x) {
      var i :| 0 <= i <= |s| - 1 && OccursAt(s[1..], x, i);
      assert s[1..][i..] == s[i + 1..];
      assert OccursAt(s, x, i + 1);
    }
  }

  // ---------------------------------------------------------------- lists

  predicate CommaFree(s: string) { ',' !in s }

  predicate Entries(es: seq<string>) { es != [] && forall e | e in es :: CommaFree(e) }

  /** Entries with a comma in front of each. */
  function Tail(es: seq<string>): string {
    if es == [] then "" else "," + (es[0] + Tail(es[1..]))
  }

  function Join(es: seq<string>): string
    requires es != []
  {
    es[0] + Tail(es[1..])
  }

  /** The entries of a list. The empty text is one empty entry. */
  function Split(s: string): (es: seq<string>)
    ensures Entries(es)
  {
    if s == "" then [""]
    else
      var es := Split(s[1..]);
      if s[0] == ',' then [""] + es
      else
        assert CommaFree(es[0]);
        [[s[0]] + es[0]] + es[1..]
  }

  lemma {:induction false} JoinSplit(s: string)
    ensures Join(Split(s)) == s
  {
    if s != "" {
      JoinSplit(s[1..]);
      var es := Split(s[1..]);
      if s[0] == ',' {
        assert ([""] + es)[1..] == es;
      }
    }
  }

  lemma {:induction false} SplitFront(x: string, t: string)
    requires CommaFree(x)
    ensures Split(x + t) == [x + Split(t)[0]] + Split(t)[1..]
  {
    if x == "" {
      assert x + t == t && x + Split(t)[0] == Split(t)[0];
    } else {
      assert (x + t)[1..] == x[1..] + t;
      SplitFront(x[1..], t);
      assert [x[0]] + (x[1..] + Split(t)[0]) == x + Split(t)[0];
    }
  }

  lemma {:induction false} SplitJoin(es: seq<string>)
    requires Entries(es)
    ensures Split(Join(es)) == es
  {
    var t := Tail(es[1..]);
    SplitFront(es[0], t);
    if |es| == 1 {
      assert t == "" && es[0] + "" == es[0] && es == [es[0]];
    } else {
      assert t[1..] == Join(es[1..]);
      SplitJoin(es[1..]);
      assert Split(t) == [""] + es[1..] && es[0] + "" == es[0];
    }
  }

  // ---------------------------------------------------------------- the two edits

  function Append(list: string, path: string): string {
    list + (if |list| > 0 then "," else "") + path
  }

  function Remove(list: string, path: string): string {
    RemoveAll(RemoveAll(list, "," + path), path)
  }

  function Others(es: seq<string>, path: string): (r: seq<string>)
    ensures forall e :: e in r <==> e in es && e != path
  {
    if es == [] then [] else (if es[0] == path then [] else [es[0]]) + Others(es[1..], path)
  }

  /** What removal is for: the entries equal to the path go, the rest stays in order. Only a
      first entry leaves its place behind, empty. */
  function Expected(es: seq<string>, path: string): seq<string>
    requires es != []
  {
    [if es[0] == path then "" else es[0]] + Others(es[1..], path)
  }

  // ---------------------------------------------------------------- first pass

  /** What is left of entries by the first pass: an entry that only starts with the path is
      glued to what precedes it. */
  function Glued(es: seq<string>, path: string): string {
    if es == [] then ""
    else if path <= es[0] then es[0][|path|..] + Glued(es[1..], path)
    else "," + (es[0] + Glued(es[1..], path))
  }

  lemma {:induction false} NothingInCommaFree(x: string, t: string, path: string)
    requires CommaFree(x)
    ensures RemoveAll(x + t, "," + path) == x + RemoveAll(t, "," + path)
  {
    if x == "" {
      assert x + t == t;
    } else {
      assert !("," + path <= x + t) by {
        assert (x + t)[0] == x[0] && ("," + path)[0] == ',';
      }
      assert (x + t)[1..] == x[1..] + t;
      NothingInCommaFree(x[1..], t, path);
    }
  }

  /** What follows an entry. */
  predicate Rest(t: string) { t == "" || t[0] == ',' }

  /** A comma-free text starts an entry or does not; it does not reach beyond. */
  lemma PrefixOfEntry(e: string, t: string, path: string)
    requires CommaFree(path) && CommaFree(e) && Rest(t)
    ensures path <= e + t <==> path <= e
  {
    if |path| <= |e| {
      assert (e + t)[..|path|] == e[..|path|];
    } else {
      assert path[|e|] in path;
      assert t != "" ==> (e + t)[|e|] == ',';
    }
  }

  lemma CommaThenPath(t: string, path: string)
    ensures "," + path <= "," + t <==> path <= t
  {
    if "," + path <= "," + t {
      assert ("," + path)[1..] == path && ("," + t)[1..] == t;
      assert path == t[..|path|] by {
        assert forall i | 0 <= i < |path| :: path[i] == ("," + path)[i + 1] == ("," + t)[i + 1] == t[i];
      }
    }
  }

  lemma RemoveHead(x: string, u: string)
    requires x != ""
    ensures RemoveAll(x + u, x) == RemoveAll(u, x)
  {
    assert (x + u)[|x|..] == u;
  }

  lemma CutEntry(e: string, t: string, path: string)
    requires CommaFree(e) && path <= e
    ensures "," + (e + t) == ("," + path) + (e[|path|..] + t) && CommaFree(e[|path|..])
  {
    assert e == path + e[|path|..];
  }

  lemma MatchedEntry(e: string, t: string, path: string)
    requires CommaFree(e) && path <= e
    ensures RemoveAll("," + (e + t), "," + path) == e[|path|..] + RemoveAll(t, "," + path)
  {
    var r := e[|path|..];
    CutEntry(e, t, path);
    RemoveHead("," + path, r + t);
    NothingInCommaFree(r, t, path);
  }

  lemma UnmatchedEntry(e: string, t: string, path: string)
    requires CommaFree(path) && CommaFree(e) && Rest(t) && !(path <= e)
    ensures RemoveAll("," + (e + t), "," + path) == "," + (e + RemoveAll(t, "," + path))
  {
    var s := "," + (e + t);
    PrefixOfEntry(e, t, path);
    CommaThenPath(e + t, path);
    assert s[1..] == e + t;
    NothingInCommaFree(e, t, path);
  }

  lemma {:induction false} FirstPass(es: seq<string>, path: string)
    requires CommaFree(path) && forall e | e in es :: CommaFree(e)
    ensures RemoveAll(Tail(es), "," + path) == Glued(es, path)
  {
    if es != [] {
      FirstPass(es[1..], path);
      if path <= es[0] {
        MatchedEntry(es[0], Tail(es[1..]), path);
      } else {
        UnmatchedEntry(es[0], Tail(es[1..]), path);
      }
    }
  }

  lemma FirstPassOfList(es: seq<string>, path: string)
    requires CommaFree(path) && Entries(es)
    ensures RemoveAll(Join(es), "," + path) == es[0] + Glued(es[1..], path)
  {
    NothingInCommaFree(es[0], Tail(es[1..]), path);
    FirstPass(es[1..], path);
  }

  // ---------------------------------------------------------------- second pass

  /** An entry is disturbed by the removal of the path when it contains it and is not it. */
  predicate Undisturbed(es: seq<string>, path: string) {
    forall e | e in es :: e == path || !Contains(e, path)
  }

  lemma {:induction false} SecondPassOfEntry(e: string, t: string, path: string)
    requires path != "" && CommaFree(path) && CommaFree(e) && Rest(t)
    ensures RemoveAll(e + t, path) == RemoveAll(e, path) + RemoveAll(t, path)
    decreases |e|
  {
    if e == "" {
      assert e + t == t;
    } else {
      PrefixOfEntry(e, t, path);
      if path <= e {
        assert (e + t)[|path|..] == e[|path|..] + t;
        SecondPassOfEntry(e[|path|..], t, path);
      } else {
        assert (e + t)[1..] == e[1..] + t;
        SecondPassOfEntry(e[1..], t, path);
      }
    }
  }

  lemma CommaStays(t: string, path: string)
    requires path != "" && CommaFree(path)
    ensures RemoveAll("," + t, path) == "," + RemoveAll(t, path)
  {
    assert path[0] in path;
    assert ("," + t)[0] == ',' && ("," + t)[1..] == t;
  }

  lemma RemoveSelf(path: string)
    requires path != ""
    ensures RemoveAll(path, path) == ""
  {
    assert path[|path|..] == "";
  }

  predicate OnlyWhole(es: seq<string>, path: string) {
    forall e | e in es && path <= e :: e == path
  }

  lemma OnlyWholeParts(es: seq<string>, path: string)
    requires es != []
    ensures OnlyWhole(es, path) <==> (path <= es[0] ==> es[0] == path) && OnlyWhole(es[1..], path)
  {
    if OnlyWhole(es, path) {
      assert es[0] in es;
      forall e | e in es[1..] && path <= e
        ensures e == path
      {
        assert e in es;
      }
    }
    if (path <= es[0] ==> es[0] == path) && OnlyWhole(es[1..], path) {
      forall e | e in es && path <= e
        ensures e == path
      {
        assert e == es[0] || e in es[1..];
      }
    }
  }

  /** The first pass leaves at most the other entries, and exactly those when no other entry
      starts with the path. */
  lemma {:induction false} GluedIsShort(es: seq<string>, path: string)
    ensures |Glued(es, path)| <= |Tail(Others(es, path))|
    ensures |Glued(es, path)| == |Tail(Others(es, path))| ==> Glued(es, path) == Tail(Others(es, path))
    ensures |Glued(es, path)| == |Tail(Others(es, path))| <==> OnlyWhole(es, path)
  {
    if es != [] {
      GluedIsShort(es[1..], path);
      assert es == [es[0]] + es[1..];
      OnlyWholeParts(es, path);
      var others := Others(es[1..], path);
      if es[0] == path {
        assert es[0][|path|..] == "" && [] + others == others;
      } else {
        assert ([es[0]] + others)[1..] == others;
      }
    }
  }

  /** The second pass goes through the entries one by one. */
  lemma {:induction false} SecondPass(es: seq<string>, path: string)
    requires path != "" && CommaFree(path) && forall e | e in es :: CommaFree(e)
    ensures |RemoveAll(Tail(es), path)| <= |Tail(es)|
    ensures |RemoveAll(Tail(es), path)| == |Tail(es)| <==> forall e | e in es :: !Contains(e, path)
    ensures |RemoveAll(Tail(es), path)| == |Tail(es)| ==> RemoveAll(Tail(es), path) == Tail(es)
  {
    if es != [] {
      var e, t := es[0], Tail(es[1..]);
      assert Tail(es) == "," + (e + t) && es == [e] + es[1..];
      CommaStays(e + t, path);
      SecondPassOfEntry(e, t, path);
      RemoveAllShrinks(e, path);
      SecondPass(es[1..], path);
    }
  }

  function First(e: string, path: string): string { if e == path then "" else e }

  /** The second pass over a list whose first pass went as expected. */
  lemma SecondPassOfList(e: string, others: seq<string>, path: string)
    requires path != "" && CommaFree(path) && CommaFree(e) && forall o | o in others :: CommaFree(o) && o != path
    ensures var r := RemoveAll(e + Tail(others), path);
      && (|r| == |First(e, path)| + |Tail(others)| <==> (e == path || !Contains(e, path)) && Undisturbed(others, path))
      && (|r| == |First(e, path)| + |Tail(others)| ==> r == First(e, path) + Tail(others))
  {
    SecondPassOfEntry(e, Tail(others), path);
    SecondPass(others, path);
    RemoveAllShrinks(e, path);
    RemoveSelf(path);
  }

  /** The second pass removes at least a first entry that is the path. */
  lemma SecondPassShrinks(e: string, glued: string, path: string)
    requires path != ""
    ensures |RemoveAll(e + glued, path)| <= |First(e, path)| + |glued|
  {
    if e == path {
      assert (e + glued)[|path|..] == glued && path <= e + glued;
      RemoveAllShrinks(glued, path);
    } else {
      RemoveAllShrinks(e + glued, path);
    }
  }

  lemma StartsAreContained(es: seq<string>, path: string)
    ensures Undisturbed(es, path) ==> OnlyWhole(es, path)
  {
    forall e | e in es && path <= e
      ensures Contains(e, path)
    {
      assert e[0..] == e && OccursAt(e, path, 0);
    }
  }

  lemma UndisturbedParts(es: seq<string>, path: string)
    requires es != []
    ensures Undisturbed(es, path) <==>
      (es[0] == path || !Contains(es[0], path)) && Undisturbed(Others(es[1..], path), path)
  {
    assert es == [es[0]] + es[1..];
  }

  /** The result of both passes has the expected length exactly when no entry is disturbed,
      and is then what is expected. */
  lemma RemoveMeasured(es: seq<string>, path: string)
    requires path != "" && CommaFree(path) && Entries(es)
    ensures |Remove(Join(es), path)| == |Join(Expected(es, path))| <==> Undisturbed(es, path)
    ensures Undisturbed(es, path) ==> Remove(Join(es), path) == Join(Expected(es, path))
  {
    var e, others, glued := es[0], Others(es[1..], path), Glued(es[1..], path);
    FirstPassOfList(es, path);
    GluedIsShort(es[1..], path);
    UndisturbedParts(es, path);
    StartsAreContained(es[1..], path);
    assert Expected(es, path)[1..] == others;
    if glued == Tail(others) {
      SecondPassOfList(e, others, path);
    } else {
      SecondPassShrinks(e, glued, path);
    }
  }

  /** Removing a path, comma-free and not empty, removes exactly the entries equal to it, if
      and only if no other entry contains it. */
  lemma RemovesExactlyTheEntries(list: string, path: string)
    requires path != "" && CommaFree(path)
    ensures Split(Remove(list, path)) == Expected(Split(list), path) <==> Undisturbed(Split(list), path)
  {
    var es := Split(list);
    JoinSplit(list);
    JoinSplit(Remove(list, path));
    RemoveMeasured(es, path);
    SplitJoin(Expected(es, path));
  }

  /** What removal leaves in the place of a first entry: an empty one, so that the list starts
      with a comma if there is anything else in it. */
  lemma FirstEntryLeavesAPlace(list: string, path: string)
    requires path != "" && CommaFree(path) && Undisturbed(Split(list), path) && Split(list)[0] == path
    ensures Remove(list, path) == Tail(Others(Split(list)[1..], path))
    ensures Remove(list, path) == "" || Remove(list, path)[0] == ','
  {
    JoinSplit(list);
    RemoveMeasured(Split(list), path);
    assert "" + Tail(Others(Split(list)[1..], path)) == Tail(Others(Split(list)[1..], path));
  }

  /** Appending and then removing is the same as removing. */
  lemma RemoveAfterAppend(list: string, path: string)
    requires path != "" && CommaFree(path)
    ensures Remove(Append(list, path), path) == Remove(list, path)
  {
    var es := Split(list);
    JoinSplit(list);
    FirstPassOfList(es, path);
    if list == "" {
      assert Append(list, path) == path;
      NothingInCommaFree(path, "", path);
      assert path + "" == path && RemoveAll(path, "," + path) == path;
      RemoveSelf(path);
    } else {
      JoinOneMore(es, path);
      FirstPassOfList(es + [path], path);
      GluedOneMore(es[1..], path);
      assert (es + [path])[1..] == es[1..] + [path];
      assert Append(list, path) == list + "," + path;
    }
  }

  lemma {:induction false} TailOneMore(es: seq<string>, path: string)
    ensures Tail(es + [path]) == Tail(es) + "," + path
  {
    if es == [] {
      assert ([] + [path])[1..] == [] && path + "" == path;
    } else {
      assert (es + [path])[1..] == es[1..] + [path];
      TailOneMore(es[1..], path);
    }
  }

  lemma JoinOneMore(es: seq<string>, path: string)
    requires es != []
    ensures Join(es + [path]) == Join(es) + "," + path
  {
    TailOneMore(es[1..], path);
    assert (es + [path])[1..] == es[1..] + [path];
  }

  /** Appending adds one entry behind all others; to an empty list it is the only one. */
  lemma AppendAddsAnEntry(list: string, path: string)
    requires CommaFree(path)
    ensures Split(Append(list, path)) == (if list == "" then [] else Split(list)) + [path]
  {
    if list == "" {
      assert Join([path]) == path && Append(list, path) == path;
      SplitJoin([path]);
      assert [] + [path] == [path];
    } else {
      JoinSplit(list);
      JoinOneMore(Split(list), path);
      SplitJoin(Split(list) + [path]);
      assert Append(list, path) == list + "," + path;
    }
  }

  lemma {:induction false} GluedOneMore(es: seq<string>, path: string)
    ensures Glued(es + [path], path) == Glued(es, path)
  {
    if es == [] {
      assert ([] + [path])[1..] == [] && path[|path|..] + "" == "";
    } else {
      assert (es + [path])[1..] == es[1..] + [path];
      GluedOneMore(es[1..], path);
    }
  }

  /** Removal undoes appending if and only if the path does not occur in the list before. */
  lemma RemoveUndoesAppend(list: string, path: string)
    requires path != "" && CommaFree(path)
    ensures Remove(Append(list, path), path) == list <==> !Contains(list, path)
  {
    RemoveAfterAppend(list, path);
    var once := RemoveAll(list, "," + path);
    RemoveAllShrinks(list, "," + path);
    RemoveAllShrinks(once, path);
    CommaPathContainsPath(list, path);
  }

  lemma CommaPathContainsPath(s: string, path: string)
    ensures Contains(s, "," + path) ==> Contains(s, path)
  {
    if Contains(s, "," + path) {
      var i :| 0 <= i <= |s| && OccursAt(s, "," + path, i);
      assert ("," + path)[1..] == path;
      assert s[i..][1..] == s[i + 1..];
      assert OccursAt(s, path, i + 1);
    }
  }

  /** Removing the empty path removes the commas. */
  lemma RemoveNothingRemovesCommas(list: string)
    ensures CommaFree(Remove(list, ""))
  {
    assert "," + "" == ",";
    CommasGo(list);
  }

  lemma {:induction false} CommasGo(s: string)
    ensures CommaFree(RemoveAll(s, ","))
  {
    if s != "" {
      CommasGo(s[1..]);
      assert "," <= s <==> s[0] == ',';
    }
  }

  /** Removing a device also takes it out of the name of its partition, which is then glued to
      the entry before. */
  lemma PartitionIsDisturbed()
    ensures Remove("sdb,sda1", "sda") == "sdb1"
  {
    var es := ["sdb", "sda1"];
    assert Entries(es) && es[1..] == ["sda1"] && Tail(["sda1"]) == ",sda1" && "sda" <= "sda1";
    FirstPassOfList(es, "sda");
    assert Join(es) == "sdb,sda1";
    assert "sda1"[3..] == "1" && Glued(["sda1"], "sda") == "1";
    assert "sdb" + "1" == "sdb1";
    forall i | 0 <= i <= 4
      ensures !OccursAt("sdb1", "sda", i)
    {
      if i == 0 {
        assert "sdb1"[0..][2] != "sda"[2];
      } else if i == 1 {
        assert "sdb1"[1..][0] != "sda"[0];
      }
    }
    RemoveAllShrinks("sdb1", "sda");
  }
}
