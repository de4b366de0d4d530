/** Path cleaning as Go's path package does it, for paths without ".." segments. */
module CleanPaths {
  import opened Paths

  predicate Proper(name: string) {
    name != "" && name != "." && SlashFree(name)
  }

  predicate AllProper(segs: seq<string>) {
    forall i :: 0 <= i < |segs| ==> Proper(segs[i])
  }

  /** The parts that name something: empty parts and "." are dropped. */
  function Named(parts: seq<string>): seq<string> {
    if parts == [] then []
    else if parts[0] == "" || parts[0] == "." then Named(parts[1..])
    else [parts[0]] + Named(parts[1..])
  }

  /** The directories a path goes through. */
  function Segs(s: string): seq<string> {
    Named(Split(s))
  }

  predicate Rooted(s: string) {
    s != "" && s[0] == '/'
  }

  function Written(rooted: bool, segs: seq<string>): string {
    if segs == [] then (if rooted then "/" else ".")
    else (if rooted then "/" else "") + Join(segs)
  }

  /** path.Clean. */
  function Clean(s: string): string {
    Written(Rooted(s), Segs(s))
  }

  /** One past the last slash, or 0 without one. */
  function AfterSlash(s: string): (n: nat)
    ensures n <= |s|
  {
    if s == "" then 0 else if s[|s| - 1] == '/' then |s| else AfterSlash(s[..|s| - 1])
  }

  /** path.Dir. */
  function Dir(s: string): string {
    Clean(s[..AfterSlash(s)])
  }

  /** path.Base, for a path that does not end in a slash. */
  function Base(s: string): string {
    s[AfterSlash(s)..]
  }

  lemma {:induction false} NamedIsProper(parts: seq<string>)
    requires AllSlashFree(parts)
    ensures AllProper(Named(parts))
  {
    if parts != [] {
      assert SlashFree(parts[0]);
      NamedIsProper(parts[1..]);
    }
  }

  lemma SegsAreProper(s: string)
    ensures AllProper(Segs(s))
  {
    SplitIsSlashFree(s);
    NamedIsProper(Split(s));
  }

  lemma {:induction false} NamedOfProper(segs: seq<string>)
    requires AllProper(segs)
    ensures Named(segs) == segs
  {
    if segs != [] {
      assert Proper(segs[0]);
      NamedOfProper(segs[1..]);
    }
  }

  lemma NamedCons(part: string, rest: seq<string>)
    ensures Named([part] + rest) == (if part == "" || part == "." then [] else [part]) + Named(rest)
  {
    assert ([part] + rest)[1..] == rest;
  }

  lemma {:induction false} NamedAppend(a: seq<string>, b: seq<string>)
    ensures Named(a + b) == Named(a) + Named(b)
  {
    if a == [] {
      assert a + b == b;
    } else {
      var (first, rest) := (a[0], a[1..]);
      NamedAppend(rest, b);
      NamedCons(first, rest);
      NamedCons(first, rest + b);
      assert a == [first] + rest && a + b == [first] + (rest + b);
    }
  }

  /** A written path reads back: same segments, same root. */
  lemma ReadBack(rooted: bool, segs: seq<string>)
    requires AllProper(segs)
    ensures Segs(Written(rooted, segs)) == segs && Rooted(Written(rooted, segs)) == rooted
    ensures Clean(Written(rooted, segs)) == Written(rooted, segs)
  {
    if segs == [] {
      SplitDot();
      SplitRoot();
    } else {
      assert Proper(segs[0]);
      SplitJoin(segs);
      NamedOfProper(segs);
      JoinStarts(segs);
      SplitAfterRoot(Join(segs));
      NamedAppend([""], segs);
      assert "" + Join(segs) == Join(segs);
    }
  }

  lemma SplitDot()
    ensures Split(".") == ["."]
  {
    SplitName(".");
  }

  lemma SplitRoot()
    ensures Split("/") == ["", ""]
  {
    SplitAfterRoot("");
    assert "/" + "" == "/";
  }

  lemma SplitAfterRoot(s: string)
    ensures Split("/" + s) == [""] + Split(s)
  {
    SplitPrefix("", s);
    assert "" + "/" + s == "/" + s;
  }

  lemma JoinStarts(segs: seq<string>)
    requires segs != [] && AllProper(segs)
    ensures Join(segs) != "" && Join(segs)[0] == segs[0][0] != '/'
  {
    assert Proper(segs[0]);
  }

  lemma {:induction false} AfterSlashOf(s: string, name: string)
    requires SlashFree(name)
    ensures AfterSlash(s + "/" + name) == |s| + 1
    ensures AfterSlash(name) == 0
  {
    if name == "" {
      assert s + "/" + name == s + "/";
    } else {
      var n := |name| - 1;
      AfterSlashOf(s, name[..n]);
      assert (s + "/" + name)[..|s| + 1 + n] == s + "/" + name[..n];
    }
  }

  lemma {:induction false} SplitWithEnd(front: seq<string>)
    requires front != [] && AllSlashFree(front)
    ensures Split(Join(front) + "/") == front + [""]
  {
    JoinAppend(front, "");
    assert Join(front) + "/" + "" == Join(front) + "/";
    SplitJoin(front + [""]);
  }

  /** The parent and the name of a clean path are what its segments say. */
  lemma DirAndBase(rooted: bool, front: seq<string>, name: string)
    requires AllProper(front) && Proper(name)
    ensures var s := Written(rooted, front + [name]);
            Dir(s) == Written(rooted, front) && Base(s) == name
  {
    var s := Written(rooted, front + [name]);
    var lead := if rooted then "/" else "";
    if front == [] {
      assert front + [name] == [name];
      DirOfOne(rooted, name);
    } else {
      JoinAppend(front, name);
      AfterSlashOf(lead + Join(front), name);
      assert s == lead + Join(front) + "/" + name;
      var dir := lead + (Join(front) + "/");
      assert s[..AfterSlash(s)] == dir;
      CleanWithEnd(rooted, front);
    }
  }

  lemma DirOfOne(rooted: bool, name: string)
    requires Proper(name)
    ensures var s := Written(rooted, [name]); Dir(s) == Written(rooted, []) && Base(s) == name
  {
    var s := Written(rooted, [name]);
    AfterSlashOf("", name);
    assert "" + "/" + name == "/" + name;
    if rooted {
      SplitRoot();
      assert s[..1] == "/";
    } else {
      assert s == name;
      SplitName("");
    }
  }

  lemma CleanWithEnd(rooted: bool, front: seq<string>)
    requires front != [] && AllProper(front)
    ensures Clean((if rooted then "/" else "") + (Join(front) + "/")) == Written(rooted, front)
  {
    assert AllSlashFree(front) by {
      forall i | 0 <= i < |front| ensures SlashFree(front[i]) { assert Proper(front[i]); }
    }
    SplitWithEnd(front);
    NamedOfProper(front);
    NamedAppend(front, [""]);
    JoinStarts(front);
    var t := Join(front) + "/";
    SplitAfterRoot(t);
    NamedAppend([""], Split(t));
    assert Named([""]) == [];
    assert Segs(t) == front && Segs("/" + t) == front;
    assert t[0] == Join(front)[0];
    assert "" + t == t;
  }
}
