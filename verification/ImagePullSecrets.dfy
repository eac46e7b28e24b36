/** The names of the image pull secrets, parsed from one comma-separated text. */
module ImagePullSecrets {
  import opened PathFilter
  import opened VolumeConfigs

  /** The entries that are not empty, without the spaces around them. */
  function Names(entries: seq<string>): seq<string> {
    if entries == [] then []
    else Names(entries[..|entries| - 1]) + (var e := entries[|entries| - 1]; if |e| > 0 then [TrimSpace(e)] else [])
  }

  /** The names keep the order of the entries. */
  lemma {:induction false} NamesOfAppend(a: seq<string>, b: seq<string>)
    ensures Names(a + b) == Names(a) + Names(b)
    decreases |b|
  {
    if b == [] {
      assert a + b == a;
    } else {
      var front := b[..|b| - 1];
      assert (a + b)[..|a| + |b| - 1] == a + front;
      NamesOfAppend(a, front);
    }
  }

  /** The names are the entries that are not empty, trimmed. */
  lemma {:induction false} WhichNames(entries: seq<string>, name: string)
    ensures name in Names(entries) <==> exists e | e in entries :: e != "" && TrimSpace(e) == name
  {
    if entries != [] {
      var front, last := entries[..|entries| - 1], entries[|entries| - 1];
      assert entries == front + [last];
      WhichNames(front, name);
      assert Names(entries) == Names(front) + (if last == "" then [] else [TrimSpace(last)]);
      if e :| e in front && e != "" && TrimSpace(e) == name {
        assert e in entries;
      }
      if last != "" && TrimSpace(last) == name {
        assert last in entries;
      }
      if e :| e in entries && e != "" && TrimSpace(e) == name {
        assert e in front || e == last;
      }
    }
  }

  method GetImagePullSecrets(s: string) returns (list: seq<string>)
    ensures list == if TrimSpace(s) == "" then [] else Names(Split(TrimSpace(s)))
    ensures forall name :: name in list <==> exists e | e in Split(TrimSpace(s)) :: e != "" && TrimSpace(e) == name
  {
    var trimmed := TrimSpace(s);
    list := [];
    forall name
      ensures name in Names(Split(trimmed)) <==> exists e | e in Split(trimmed) :: e != "" && TrimSpace(e) == name
    {
      WhichNames(Split(trimmed), name);
    }
    if |trimmed| == 0 {
      return;
    }
    var arr := Split(trimmed);
    for n := 0 to |arr|
      invariant list == Names(arr[..n])
    {
      assert arr[..n + 1][..n] == arr[..n];
      if |arr[n]| > 0 {
        list := list + [TrimSpace(arr[n])];
      }
    }
    assert arr[..|arr|] == arr;
  }

  /** A name as it may be written: no comma, and no space at either end. */
  predicate IsName(e: string) {
    e != "" && CommaFree(e) && !IsSpace(e[0]) && !IsSpace(e[|e| - 1])
  }

  lemma {:induction false} NamesOfNames(names: seq<string>)
    requires forall e | e in names :: IsName(e)
    ensures Names(names) == names
  {
    if names != [] {
      assert IsName(names[|names| - 1]);
      NamesOfNames(names[..|names| - 1]);
    }
  }

  lemma CleanStays(s: string)
    requires s != "" && !IsSpace(s[0]) && !IsSpace(s[|s| - 1])
    ensures TrimSpace(s) == s
  {
  }

  lemma EndsOfJoin(names: seq<string>)
    requires names != [] && forall e | e in names :: IsName(e)
    ensures var j := Join(names); j != "" && !IsSpace(j[0]) && !IsSpace(j[|j| - 1])
  {
    var j, t := Join(names), Tail(names[1..]);
    assert IsName(names[0]) && j[0] == names[0][0];
    EndsOfTail(names[1..]);
    if |names| == 1 {
      assert j == names[0];
    } else {
      assert j[|j| - 1] == t[|t| - 1];
    }
  }

  /** Names joined by commas are read back. */
  lemma ReadsBack(names: seq<string>)
    requires names != [] && forall e | e in names :: IsName(e)
    ensures TrimSpace(Join(names)) == Join(names) != "" && Names(Split(Join(names))) == names
  {
    EndsOfJoin(names);
    CleanStays(Join(names));
    NamesReadBack(names);
  }

  lemma NamesReadBack(names: seq<string>)
    requires names != [] && forall e | e in names :: IsName(e)
    ensures Names(Split(Join(names))) == names
  {
    SplitJoin(names);
    NamesOfNames(names);
  }

  lemma {:induction false} EndsOfTail(names: seq<string>)
    requires forall e | e in names :: IsName(e)
    ensures names != [] ==> Tail(names) != "" && !IsSpace(Tail(names)[|Tail(names)| - 1])
  {
    if names != [] {
      EndsOfTail(names[1..]);
      assert IsName(names[0]);
      if |names| == 1 {
        assert Tail(names) == "," + names[0];
      } else {
        var t := Tail(names[1..]);
        assert Tail(names) == "," + names[0] + t;
      }
    }
  }
}
