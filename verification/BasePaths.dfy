/** The check of a base path, compared with what the path means once it is cleaned. */
module BasePaths {
  import opened StorageClassOptions

  /** One piece of a path, between slashes, is followed from the components so far. */
  function Follow(components: seq<string>, piece: string): seq<string> {
    if piece == "" || piece == "." then components
    else if piece == ".." then (if components == [] then [] else components[..|components| - 1])
    else components + [piece]
  }

  /** The components of an absolute path, as filepath.Clean leaves them. */
  function Cleaned(s: string): seq<string> {
    var i := AfterLastSlash(s);
    if i == 0 then Follow([], s) else Follow(Cleaned(s[..i - 1]), s[i..])
  }

  lemma LastSlash(s: string, i: nat)
    requires 0 < i <= |s| && s[i - 1] == '/' && forall j | i <= j < |s| :: s[j] != '/'
    ensures AfterLastSlash(s) == i
  {
  }

  lemma SplitAtLast(dir: string, a: string)
    requires '/' !in a
    ensures var s := dir + "/" + a;
      AfterLastSlash(s) == |dir| + 1 && s[..|dir| + 1] == dir + "/" && s[..|dir|] == dir && s[|dir| + 1..] == a
  {
    var s := dir + "/" + a;
    assert s[|dir|] == '/';
    assert forall j | |dir| < j < |s| :: s[j] == a[j - |dir| - 1] && s[j] in a;
    LastSlash(s, |dir| + 1);
  }

  lemma CleanedStep(dir: string, a: string)
    requires '/' !in a
    ensures Cleaned(dir + "/" + a) == Follow(Cleaned(dir), a)
  {
    SplitAtLast(dir, a);
  }

  /** A slash at the end does not matter to what a path means. */
  lemma CleanedTrim(s: string)
    ensures Cleaned(TrimSlash(s)) == Cleaned(s)
  {
    if s != "" && s[|s| - 1] == '/' {
      assert s == TrimSlash(s) + "/" + "";
      CleanedStep(TrimSlash(s), "");
    }
  }

  /** Everything before the last slash of a path, and everything after it. */
  function DirOf(path: string): string {
    if AfterLastSlash(path) == 0 then "" else path[..AfterLastSlash(path) - 1]
  }

  function BaseOf(path: string): string { path[AfterLastSlash(path)..] }

  lemma DirAndBase(path: string)
    requires path != "" && path[0] == '/'
    ensures AfterLastSlash(path) > 0 && '/' !in BaseOf(path)
    ensures Cleaned(path) == Follow(Cleaned(DirOf(path)), BaseOf(path))
  {
    assert AfterLastSlash(path) > 0;
  }

  lemma TrimStays(path: string)
    requires path != "" && path[0] == '/' && path != "/"
    ensures TrimSlash(path) != "" && TrimSlash(path)[0] == '/'
  {
  }

  /** The check looks at the two sides of the last slash only. */
  lemma CheckLooksAtEnds(hostpath: string)
    requires hostpath != "" && hostpath[0] == '/' && hostpath != "/"
    ensures var path := TrimSlash(hostpath);
      IsValidPath(hostpath) <==> DirOf(path) != "" && BaseOf(path) != ""
  {
    var path := TrimSlash(hostpath);
    TrimStays(hostpath);
    DirAndBase(path);
    var i := AfterLastSlash(path);
    assert TrimSlash(path[..i]) == DirOf(path);
    assert TrimSlash(BaseOf(path)) == "" <==> BaseOf(path) == "";
  }

  /** Which absolute paths are accepted although they mean the root or a directory directly
      under it: those whose part before the last slash means the root, and a little more if
      the part after it is a dot or two. */
  lemma AcceptedUnderRoot(hostpath: string)
    requires hostpath != "" && hostpath[0] == '/'
    ensures var path := TrimSlash(hostpath);
      IsValidPath(hostpath) && |Cleaned(hostpath)| < 2 <==>
        && DirOf(path) != "" && BaseOf(path) != ""
        && |Cleaned(DirOf(path))| <= if BaseOf(path) == ".." then 2 else if BaseOf(path) == "." then 1 else 0
  {
    if hostpath != "/" {
      var path := TrimSlash(hostpath);
      CheckLooksAtEnds(hostpath);
      TrimStays(hostpath);
      DirAndBase(path);
      CleanedTrim(hostpath);
    }
  }

  lemma RootIsClean()
    ensures Cleaned("") == [] && Cleaned("/") == [] && Cleaned("/.") == []
  {
    assert AfterLastSlash("/") == 1 && AfterLastSlash("/.") == 1 && "/"[..0] == "" && "/."[..0] == "" && "/."[1..] == ".";
  }

  /** Which absolute paths are refused although they mean a directory further down: those that
      end in two slashes. */
  lemma RefusedThoughDeep(hostpath: string)
    requires hostpath != "" && hostpath[0] == '/' && |Cleaned(hostpath)| >= 2
    ensures !IsValidPath(hostpath) <==> |hostpath| >= 2 && hostpath[|hostpath| - 1] == '/' && hostpath[|hostpath| - 2] == '/'
  {
    var path := TrimSlash(hostpath);
    assert hostpath != "/" && |Cleaned("")| == 0 by {
      RootIsClean();
    }
    CheckLooksAtEnds(hostpath);
    TrimStays(hostpath);
    CleanedTrim(hostpath);
    OneComponentAdded(path);
    EndsInTwoSlashes(hostpath);
  }

  lemma OneComponentAdded(path: string)
    requires path != "" && path[0] == '/'
    ensures |Cleaned(path)| <= |Cleaned(DirOf(path))| + 1
  {
    DirAndBase(path);
  }

  lemma EndsInSlash(path: string)
    requires path != "" && path[0] == '/'
    ensures BaseOf(path) == "" <==> path[|path| - 1] == '/'
  {
    DirAndBase(path);
  }

  lemma EndsInTwoSlashes(hostpath: string)
    requires hostpath != "" && hostpath[0] == '/' && hostpath != "/"
    ensures BaseOf(TrimSlash(hostpath)) == "" <==> hostpath[|hostpath| - 1] == '/' && hostpath[|hostpath| - 2] == '/'
  {
    TrimStays(hostpath);
    EndsInSlash(TrimSlash(hostpath));
  }

  // ---------------------------------------------------------------- normal form

  /** A path in normal form, from its components. */
  function Render(components: seq<string>): string {
    if components == [] then "" else Render(components[..|components| - 1]) + "/" + components[|components| - 1]
  }

  predicate IsComponent(a: string) { a != "" && a != "." && a != ".." && '/' !in a }

  lemma {:induction false} RenderIsClean(components: seq<string>)
    requires forall a | a in components :: IsComponent(a)
    ensures Cleaned(Render(components)) == components
  {
    if components != [] {
      var p, a := components[..|components| - 1], components[|components| - 1];
      RenderIsClean(p);
      assert IsComponent(a);
      CleanedStep(Render(p), a);
      assert components == p + [a];
    }
  }

  lemma {:induction false} StartsWithSlash(components: seq<string>)
    requires components != []
    ensures Render(components) != "" && Render(components)[0] == '/'
  {
    if |components| > 1 {
      StartsWithSlash(components[..|components| - 1]);
    }
  }

  lemma Around(dir: string, a: string)
    requires a != "" && '/' !in a && (dir == "" || dir[0] == '/')
    ensures IsValidPath(dir + "/" + a) <==> dir != ""
    ensures Cleaned(dir + "/" + a) == Follow(Cleaned(dir), a)
  {
    var s := dir + "/" + a;
    SplitAtLast(dir, a);
    CleanedStep(dir, a);
    assert s[|s| - 1] in a && TrimSlash(s) == s;
    CheckLooksAtEnds(s);
  }

  lemma SameOnceTrimmed(s: string, t: string)
    requires s != "" && t != "" && s[0] == t[0] && TrimSlash(s) == TrimSlash(t)
    ensures IsValidPath(s) <==> IsValidPath(t)
  {
  }

  lemma SlashAtTheEnd(s: string)
    requires s != "" && s[|s| - 1] != '/'
    ensures IsValidPath(s + "/") <==> IsValidPath(s)
    ensures Cleaned(s + "/") == Cleaned(s)
  {
    SameOnceTrimmed(s + "/", s);
    CleanedTrim(s + "/");
  }

  lemma EndOfRender(components: seq<string>)
    requires components != [] && IsComponent(components[|components| - 1])
    ensures Render(components) != "" && Render(components)[|Render(components)| - 1] != '/'
  {
    var a := components[|components| - 1];
    assert Render(components)[|Render(components)| - 1] == a[|a| - 1];
    assert a[|a| - 1] in a;
  }

  /** A path in normal form, with or without a slash at the end, is accepted exactly when it
      is not directly under the root. */
  lemma ValidPaths(components: seq<string>)
    requires components != [] && forall a | a in components :: IsComponent(a)
    ensures Cleaned(Render(components)) == components && Cleaned(Render(components) + "/") == components
    ensures IsValidPath(Render(components)) <==> |components| >= 2
    ensures IsValidPath(Render(components) + "/") <==> |components| >= 2
  {
    var p, a := components[..|components| - 1], components[|components| - 1];
    assert IsComponent(a);
    if p != [] {
      StartsWithSlash(p);
    }
    Around(Render(p), a);
    RenderIsClean(components);
    EndOfRender(components);
    SlashAtTheEnd(Render(components));
  }

  /** A directory directly under the root is refused as it should be written, and accepted with
      a second slash or a dot before it. */
  lemma WaysAround(a: string)
    requires IsComponent(a)
    ensures !IsValidPath("" + "/" + a)
    ensures IsValidPath("/" + "/" + a) && Cleaned("/" + "/" + a) == [a]
    ensures IsValidPath("/." + "/" + a) && Cleaned("/." + "/" + a) == [a]
  {
    RootIsClean();
    Around("", a);
    Around("/", a);
    Around("/.", a);
  }

  /** The root itself is accepted with two dots after any directory. */
  lemma WayBack(a: string)
    requires IsComponent(a)
    ensures IsValidPath(("" + "/" + a) + "/" + "..") && Cleaned(("" + "/" + a) + "/" + "..") == []
  {
    RootIsClean();
    Around("", a);
    Around("" + "/" + a, "..");
  }
}
