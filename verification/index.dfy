/**
 Building the remote index: one goroutine a folder, each listing it under a semaphore and then going through its
 children, recording files in the shared map and starting goroutines for folders.
 */
module Indexing {
  import opened Types
  import opened Paths

  datatype Folder = Folder(id: int, children: seq<Child>)

  datatype Child = File(name: string, entry: IndexEntry) | Dir(name: string, folder: Folder)

  function Under(prefix: string, name: string): string {
    if prefix != "" then prefix + "/" + name else name
  }

  // ---- What the index should be ----

  /** The files among the children and below them, each under its path. */
  function Files(children: seq<Child>, prefix: string): set<(string, IndexEntry)> {
    if children == [] then {}
    else FilesOf(children[0], prefix) + Files(children[1..], prefix)
  }

  function FilesOf(c: Child, prefix: string): set<(string, IndexEntry)> {
    match c
    case File(name, e) => {(Under(prefix, name), e)}
    case Dir(name, f) => Files(f.children, Under(prefix, name))
  }

  function FileCount(children: seq<Child>): nat {
    if children == [] then 0
    else (match children[0] case File(_, _) => 1 case Dir(_, f) => FileCount(f.children)) + FileCount(children[1..])
  }

  /** Names are not empty, have no slash, and are used once in a folder. */
  predicate Named(children: seq<Child>) {
    && (forall i :: 0 <= i < |children| ==> children[i].name != "" && SlashFree(children[i].name))
    && (forall i, j :: 0 <= i < j < |children| ==> children[i].name != children[j].name)
    && (forall i :: 0 <= i < |children| && children[i].Dir? ==> Named(children[i].folder.children))
  }

  /** The same files under their lists of names. */
  function Routes(children: seq<Child>, pre: seq<string>): set<(seq<string>, IndexEntry)> {
    if children == [] then {}
    else RoutesOf(children[0], pre) + Routes(children[1..], pre)
  }

  function RoutesOf(c: Child, pre: seq<string>): set<(seq<string>, IndexEntry)> {
    match c
    case File(name, e) => {(pre + [name], e)}
    case Dir(name, f) => Routes(f.children, pre + [name])
  }

  predicate GoodNames(names: seq<string>) {
    forall i :: 0 <= i < |names| ==> names[i] != "" && SlashFree(names[i])
  }

  function Prefix(pre: seq<string>): string {
    if pre == [] then "" else Join(pre)
  }

  lemma UnderIsJoin(pre: seq<string>, name: string)
    requires GoodNames(pre)
    ensures Under(Prefix(pre), name) == Prefix(pre + [name])
  {
    if pre == [] {
      assert pre + [name] == [name];
    } else {
      JoinAppend(pre, name);
      assert Prefix(pre) != "" by {
        assert pre[0] != "";
      }
    }
  }

  /** A route goes through `pre` and on by the name of one of the children. */
  lemma {:induction false} RouteShape(children: seq<Child>, pre: seq<string>, r: (seq<string>, IndexEntry))
    requires r in Routes(children, pre) && Named(children) && GoodNames(pre)
    ensures |r.0| > |pre| && r.0[..|pre|] == pre && GoodNames(r.0)
    ensures exists i :: 0 <= i < |children| && children[i].name == r.0[|pre|]
  {
    if r in RoutesOf(children[0], pre) {
      RouteOfShape(children[0], pre, r);
    } else {
      RouteShape(children[1..], pre, r);
      var i :| 0 <= i < |children| - 1 && children[1..][i].name == r.0[|pre|];
      assert children[i + 1].name == r.0[|pre|];
    }
  }

  lemma {:induction false} RouteOfShape(c: Child, pre: seq<string>, r: (seq<string>, IndexEntry))
    requires r in RoutesOf(c, pre) && c.name != "" && SlashFree(c.name) && (c.Dir? ==> Named(c.folder.children)) && GoodNames(pre)
    ensures |r.0| > |pre| && r.0[..|pre|] == pre && GoodNames(r.0) && r.0[|pre|] == c.name
    ensures c.File? ==> |r.0| == |pre| + 1
    ensures c.Dir? ==> |r.0| > |pre| + 1
  {
    if c.Dir? {
      RouteShape(c.folder.children, pre + [c.name], r);
      assert r.0[..|pre| + 1][..|pre|] == r.0[..|pre|];
      assert r.0[|pre|] == r.0[..|pre| + 1][|pre|];
    }
  }

  lemma RestIsNamed(children: seq<Child>)
    requires children != [] && Named(children)
    ensures Named(children[1..])
    ensures forall i :: 0 <= i < |children| - 1 ==> children[1..][i].name != children[0].name
  {
  }

  lemma FirstIsApart(children: seq<Child>, pre: seq<string>, q: (seq<string>, IndexEntry), r: (seq<string>, IndexEntry))
    requires children != [] && Named(children) && GoodNames(pre)
    requires q in RoutesOf(children[0], pre) && r in Routes(children[1..], pre)
    ensures q.0 != r.0
  {
    RestIsNamed(children);
    RouteOfShape(children[0], pre, q);
    RouteShape(children[1..], pre, r);
  }

  /** No two files have the same route. */
  lemma {:induction false} RoutesAreUnique(children: seq<Child>, pre: seq<string>, q: (seq<string>, IndexEntry), r: (seq<string>, IndexEntry))
    requires Named(children) && GoodNames(pre) && q in Routes(children, pre) && r in Routes(children, pre) && q.0 == r.0
    ensures q == r
  {
    RestIsNamed(children);
    var (c, rest) := (children[0], children[1..]);
    if q in RoutesOf(c, pre) && r in Routes(rest, pre) {
      FirstIsApart(children, pre, q, r);
    }
    if r in RoutesOf(c, pre) && q in Routes(rest, pre) {
      FirstIsApart(children, pre, r, q);
    }
    if q in RoutesOf(c, pre) && r in RoutesOf(c, pre) {
      if c.Dir? {
        RoutesAreUnique(c.folder.children, pre + [c.name], q, r);
      }
    } else {
      RoutesAreUnique(rest, pre, q, r);
    }
  }

  /** There are as many routes as files. */
  lemma {:induction false} RoutesAreCounted(children: seq<Child>, pre: seq<string>)
    requires Named(children) && GoodNames(pre)
    ensures |Routes(children, pre)| == FileCount(children)
  {
    if children != [] {
      RestIsNamed(children);
      RoutesAreCounted(children[1..], pre);
      if children[0].Dir? {
        RoutesAreCounted(children[0].folder.children, pre + [children[0].name]);
      }
      forall q | q in RoutesOf(children[0], pre) ensures q !in Routes(children[1..], pre) {
        if q in Routes(children[1..], pre) {
          FirstIsApart(children, pre, q, q);
        }
      }
      assert RoutesOf(children[0], pre) !! Routes(children[1..], pre);
    }
  }

  /** Paths are routes joined by slashes. */
  lemma {:induction false} FilesAreRoutes(children: seq<Child>, pre: seq<string>, x: (string, IndexEntry))
    requires Named(children) && GoodNames(pre)
    ensures x in Files(children, Prefix(pre)) <==> exists r :: r in Routes(children, pre) && x == (Prefix(r.0), r.1)
  {
    if children != [] {
      RestIsNamed(children);
      var (c, rest) := (children[0], children[1..]);
      FilesAreRoutes(rest, pre, x);
      UnderIsJoin(pre, c.name);
      if c.Dir? {
        FilesAreRoutes(c.folder.children, pre + [c.name], x);
        assert FilesOf(c, Prefix(pre)) == Files(c.folder.children, Prefix(pre + [c.name]));
      }
      OneMoreRoute(children, pre, x);
    }
  }

  lemma OneMoreRoute(children: seq<Child>, pre: seq<string>, x: (string, IndexEntry))
    requires children != [] && GoodNames(pre) && Under(Prefix(pre), children[0].name) == Prefix(pre + [children[0].name])
    requires x in Files(children[1..], Prefix(pre)) <==> exists r :: r in Routes(children[1..], pre) && x == (Prefix(r.0), r.1)
    requires children[0].Dir? ==> (x in FilesOf(children[0], Prefix(pre)) <==> exists r :: r in RoutesOf(children[0], pre) && x == (Prefix(r.0), r.1))
    ensures x in Files(children, Prefix(pre)) <==> exists r :: r in Routes(children, pre) && x == (Prefix(r.0), r.1)
  {
    var (c, rest) := (children[0], children[1..]);
    if c.File? {
      assert (pre + [c.name], c.entry) in RoutesOf(c, pre);
    }
    if x in Files(children, Prefix(pre)) {
      if x in Files(rest, Prefix(pre)) {
        var r :| r in Routes(rest, pre) && x == (Prefix(r.0), r.1);
        assert r in Routes(children, pre);
      } else if c.Dir? {
        var r :| r in RoutesOf(c, pre) && x == (Prefix(r.0), r.1);
        assert r in Routes(children, pre);
      } else {
        assert (pre + [c.name], c.entry) in Routes(children, pre);
      }
    }
  }

  /** A tree has one file at a path: joining names is injective. */
  lemma FilesAreUnique(children: seq<Child>, x: (string, IndexEntry), y: (string, IndexEntry))
    requires Named(children) && x in Files(children, "") && y in Files(children, "") && x.0 == y.0
    ensures x == y
  {
    FilesAreRoutes(children, [], x);
    FilesAreRoutes(children, [], y);
    var q :| q in Routes(children, []) && x == (Prefix(q.0), q.1);
    var r :| r in Routes(children, []) && y == (Prefix(r.0), r.1);
    RouteShape(children, [], q);
    RouteShape(children, [], r);
    JoinIsInjective(q.0, r.0);
    RoutesAreUnique(children, [], q, r);
  }

  lemma FilesAreCounted(children: seq<Child>)
    requires Named(children)
    ensures |Files(children, "")| == FileCount(children)
  {
    RoutesAreCounted(children, []);
    var routes := Routes(children, []);
    forall x ensures x in Files(children, "") <==> exists r :: r in routes && x == (Prefix(r.0), r.1) {
      FilesAreRoutes(children, [], x);
    }
    forall q, r | q in routes && r in routes && Prefix(q.0) == Prefix(r.0) ensures q == r {
      RouteShape(children, [], q);
      RouteShape(children, [], r);
      JoinIsInjective(q.0, r.0);
      RoutesAreUnique(children, [], q, r);
    }
    ImageSize(routes, Files(children, ""));
  }

  lemma {:induction false} ImageSize(routes: set<(seq<string>, IndexEntry)>, files: set<(string, IndexEntry)>)
    requires forall x :: x in files <==> exists r :: r in routes && x == (Prefix(r.0), r.1)
    requires forall q, r :: q in routes && r in routes && Prefix(q.0) == Prefix(r.0) ==> q == r
    ensures |files| == |routes|
  {
    if routes == {} {
      assert files == {};
    } else {
      var r :| r in routes;
      var x := (Prefix(r.0), r.1);
      assert x in files;
      forall y ensures y in files - {x} <==> exists q :: q in routes - {r} && y == (Prefix(q.0), q.1) {
      }
      ImageSize(routes - {r}, files - {x});
    }
  }
}
