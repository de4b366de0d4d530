/** Directory paths and remote folder ids: looking them up, and looking them up or creating them. */
module Resolving {
  import opened Types
  import opened Paths
  import opened CleanPaths

  datatype Node = Node(id: int, isDir: bool)

  /** The children of every folder: a name is used once in a folder. */
  type Tree = map<(int, string), Node>

  datatype Child = Child(name: string, node: Node)

  // ---- Plain lookup ----

  /** The folder reached from the root by directory names. */
  function Walk(t: Tree, root: int, segs: seq<string>): Option<int> {
    if segs == [] then Some(root) else Below(t, Walk(t, root, segs[..|segs| - 1]), segs[|segs| - 1])
  }

  function Below(t: Tree, parent: Option<int>, name: string): Option<int> {
    if parent.Some? && (parent.value, name) in t && t[(parent.value, name)].isDir then Some(t[(parent.value, name)].id) else None
  }

  /** Ids are unique, none is the root's, and all have been given out. */
  ghost predicate TreeOk(t: Tree, root: int, used: set<int>) {
    && root in used
    && (forall k :: k in t ==> k.0 in used && t[k].id in used && t[k].id != root)
    && (forall j, k :: j in t && k in t && t[j].id == t[k].id ==> j == k)
  }

  ghost predicate Extends(t: Tree, t': Tree) {
    forall k :: k in t ==> k in t' && t'[k] == t[k]
  }

  /** A folder has one path. */
  lemma {:induction false} WalkIsInjective(t: Tree, root: int, used: set<int>, a: seq<string>, b: seq<string>)
    requires TreeOk(t, root, used) && Walk(t, root, a).Some? && Walk(t, root, a) == Walk(t, root, b)
    ensures a == b
  {
    if a != [] && b != [] {
      WalkIsInjective(t, root, used, a[..|a| - 1], b[..|b| - 1]);
      assert a == a[..|a| - 1] + [a[|a| - 1]] && b == b[..|b| - 1] + [b[|b| - 1]];
    }
  }

  /** What is found stays found as the tree grows. */
  lemma {:induction false} WalkGrows(t: Tree, t': Tree, root: int, segs: seq<string>)
    requires Extends(t, t')
    ensures Walk(t, root, segs).Some? ==> Walk(t', root, segs) == Walk(t, root, segs)
  {
    if segs != [] {
      WalkGrows(t, t', root, segs[..|segs| - 1]);
    }
  }

  /** A new folder is reached by one new path. */
  lemma {:induction false} NewFolderOnly(t: Tree, root: int, used: set<int>, front: seq<string>, name: string, parent: int, id: int, q: seq<string>)
    requires TreeOk(t, root, used) && Walk(t, root, front) == Some(parent) && (parent, name) !in t && id !in used
    ensures var t' := t[(parent, name) := Node(id, true)];
            Walk(t', root, q) == if q == front + [name] then Some(id) else Walk(t, root, q)
  {
    var t' := t[(parent, name) := Node(id, true)];
    if q != [] {
      var before, last := q[..|q| - 1], q[|q| - 1];
      NewFolderOnly(t, root, used, front, name, parent, id, before);
      NotBelowNew(t, root, used, front, parent, name, id, before, last);
      assert q == before + [last];
      if Walk(t, root, before) == Some(parent) {
        WalkIsInjective(t, root, used, before, front);
      }
      assert (front + [name])[..|front|] == front;
    }
  }

  lemma NotBelowNew(t: Tree, root: int, used: set<int>, front: seq<string>, parent: int, name: string, id: int, before: seq<string>, last: string)
    requires TreeOk(t, root, used) && id !in used && Walk(t, root, front) == Some(parent)
    ensures var t' := t[(parent, name) := Node(id, true)];
            && Below(t', Some(id), last) == None
            && Below(t', Walk(t, root, before), last) ==
               (if Walk(t, root, before) == Some(parent) && last == name then Some(id) else Below(t, Walk(t, root, before), last))
  {
    WalkIsUsed(t, root, used, front);
  }

  lemma WalkIsUsed(t: Tree, root: int, used: set<int>, segs: seq<string>)
    requires TreeOk(t, root, used)
    ensures Walk(t, root, segs).Some? ==> Walk(t, root, segs).value in used
  {
  }

  // ---- The drive ----

  class Drive {
    const root: int
    var tree: Tree
    var used: set<int>
    /** The number of directories made. */
    var made: nat
    /** How many calls the drive has failed. */
    var faults: nat

    constructor (root: int, tree: Tree, used: set<int>)
      requires TreeOk(tree, root, used)
      ensures Valid() && this.root == root && this.tree == tree && this.used == used && made == 0 && faults == 0
    {
      this.root, this.tree, this.used, made, faults := root, tree, used, 0, 0;
    }

    ghost predicate Valid()
      reads this
    {
      TreeOk(tree, root, used)
    }

    /** The children of a folder, in any order; or a failure. */
    method List(parent: int) returns (r: Option<seq<Child>>)
      modifies this`faults
      ensures faults == old(faults) + (if r.None? then 1 else 0)
      ensures r.Some? ==> forall c :: c in r.value <==> (parent, c.name) in tree && tree[(parent, c.name)] == c.node
    {
      if * {
        faults := faults + 1;
        return None;
      }
      var children: seq<Child>, todo := [], tree.Keys;
      while todo != {}
        invariant todo <= tree.Keys
        invariant forall c :: c in children <==> (parent, c.name) in tree.Keys - todo && tree[(parent, c.name)] == c.node
        decreases |todo|
      {
        var k :| k in todo;
        todo := todo - {k};
        if k.0 == parent {
          children := children + [Child(k.1, tree[k])];
        }
      }
      r := Some(children);
    }

    /** A new folder with a new id; or an error, which changes nothing, because the name is taken or the call failed. */
    method Mkdir(parent: int, name: string) returns (r: Option<int>)
      requires Valid() && parent in used
      modifies this
      ensures Valid()
      ensures r.None? ==> tree == old(tree) && used == old(used) && made == old(made)
      ensures r.None? ==> faults == old(faults) + 1 || ((parent, name) in tree && faults == old(faults))
      ensures r.Some? ==> (parent, name) !in old(tree) && r.value !in old(used)
                          && tree == old(tree)[(parent, name) := Node(r.value, true)]
                          && used == old(used) + {r.value} && made == old(made) + 1 && faults == old(faults)
    {
      if (parent, name) in tree {
        return None;
      }
      var id: int, refused: bool := *, *;
      if refused || id in used {
        faults := faults + 1;
        return None;
      }
      tree, used, made := tree[(parent, name) := Node(id, true)], used + {id}, made + 1;
      r := Some(id);
    }
  }

  /** The first directory of that name among the children. */
  method FindDir(children: seq<Child>, name: string) returns (r: Option<int>)
    ensures r.Some? ==> Child(name, Node(r.value, true)) in children
    ensures r.None? ==> forall c :: c in children ==> c.name != name || !c.node.isDir
  {
    for i := 0 to |children|
      invariant forall j :: 0 <= j < i ==> children[j].name != name || !children[j].node.isDir
    {
      if children[i].node.isDir && children[i].name == name {
        assert children[i] == Child(name, Node(children[i].node.id, true));
        return Some(children[i].node.id);
      }
    }
    return None;
  }

  // ---- ResolveDir ----

  function TrimLeft(s: string): string {
    if s != "" && s[0] == '/' then TrimLeft(s[1..]) else s
  }

  function TrimRight(s: string): string {
    if s != "" && s[|s| - 1] == '/' then TrimRight(s[..|s| - 1]) else s
  }

  lemma {:induction false} JoinEnds(segs: seq<string>)
    requires segs != [] && AllProper(segs)
    ensures Join(segs) != "" && Join(segs)[|Join(segs)| - 1] != '/'
  {
    assert Proper(segs[0]);
    if |segs| > 1 {
      JoinEnds(segs[1..]);
    }
  }

  lemma Trimmed(rooted: bool, segs: seq<string>)
    requires AllProper(segs)
    ensures TrimRight(TrimLeft(Written(rooted, segs))) == if segs != [] then Join(segs) else if rooted then "" else "."
  {
    if segs != [] {
      JoinStarts(segs);
      JoinEnds(segs);
      assert rooted ==> ("/" + Join(segs))[1..] == Join(segs);
      assert !rooted ==> "" + Join(segs) == Join(segs);
    }
  }

  datatype Found = Folder(id: int) | NotFound | ListFailed

  method ResolveDir(drive: Drive, relDir: string) returns (r: Found)
    requires ".." !in Split(relDir)
    modifies drive`faults
    ensures r.Folder? ==> Walk(drive.tree, drive.root, Segs(relDir)) == Some(r.id)
    ensures r.NotFound? ==> Walk(drive.tree, drive.root, Segs(relDir)) == None
    ensures r.ListFailed? <==> drive.faults != old(drive.faults)
  {
    ghost var all := Segs(relDir);
    SegsAreProper(relDir);
    Trimmed(Rooted(relDir), all);
    var clean := TrimRight(TrimLeft(Clean(relDir)));
    if clean == "" || clean == "." {
      NoSegments(all, clean);
      return Folder(drive.root);
    }
    SplitJoin(all);
    r := Descend(drive, Split(clean));
  }

  method Descend(drive: Drive, segs: seq<string>) returns (r: Found)
    modifies drive`faults
    ensures r.Folder? ==> Walk(drive.tree, drive.root, segs) == Some(r.id)
    ensures r.NotFound? ==> Walk(drive.tree, drive.root, segs) == None
    ensures r.ListFailed? <==> drive.faults != old(drive.faults)
  {
    var id := drive.root;
    for i := 0 to |segs|
      invariant Walk(drive.tree, drive.root, segs[..i]) == Some(id) && drive.faults == old(drive.faults)
    {
      var children := drive.List(id);
      if children.None? {
        return ListFailed;
      }
      var found := FindDir(children.value, segs[i]);
      assert segs[..i + 1][..i] == segs[..i];
      if found.None? {
        if (id, segs[i]) in drive.tree {
          assert Child(segs[i], drive.tree[(id, segs[i])]) in children.value;
        }
        NotReached(drive.tree, drive.root, segs, i + 1);
        return NotFound;
      }
      id := found.value;
    }
    assert segs[..|segs|] == segs;
    return Folder(id);
  }

  lemma NoSegments(segs: seq<string>, clean: string)
    requires AllProper(segs) && (clean == "" || clean == ".") && (segs != [] ==> clean == Join(segs))
    ensures segs == []
  {
    if segs != [] {
      JoinIsNoDot(segs);
    }
  }

  lemma JoinIsNoDot(segs: seq<string>)
    requires segs != [] && AllProper(segs)
    ensures Join(segs) != "" && Join(segs) != "."
  {
    assert Proper(segs[0]);
    JoinStarts(segs);
    if |segs| > 1 {
      assert Join(segs)[|segs[0]|] == '/';
    }
  }

  lemma {:induction false} NotReached(t: Tree, root: int, segs: seq<string>, i: nat)
    requires i <= |segs| && Walk(t, root, segs[..i]) == None
    ensures Walk(t, root, segs) == None
  {
    if i == |segs| {
      assert segs[..i] == segs;
    } else {
      assert segs[..|segs| - 1][..i] == segs[..i];
      NotReached(t, root, segs[..|segs| - 1], i);
    }
  }

  // ---- Resolver ----

  /** How many directories of a path are still to be made. */
  function Missing(t: Tree, root: int, segs: seq<string>): nat {
    if segs == [] || Walk(t, root, segs).Some? then 0 else 1 + Missing(t, root, segs[..|segs| - 1])
  }

  /** A name on the way to `segs` belongs to a file. */
  predicate Blocked(t: Tree, root: int, segs: seq<string>) {
    segs != [] &&
    var (front, name) := (segs[..|segs| - 1], segs[|segs| - 1]);
    (Blocked(t, root, front) || FileThere(t, Walk(t, root, front), name))
  }

  predicate FileOn(t: Tree, root: int, segs: seq<string>, i: nat)
    requires i < |segs|
  {
    var parent := Walk(t, root, segs[..i]);
    parent.Some? && (parent.value, segs[i]) in t && !t[(parent.value, segs[i])].isDir
  }

  lemma {:induction false} BlockedIff(t: Tree, root: int, segs: seq<string>)
    ensures Blocked(t, root, segs) <==> exists i: nat :: i < |segs| && FileOn(t, root, segs, i)
  {
    if segs != [] {
      var n := |segs| - 1;
      BlockedIff(t, root, segs[..n]);
      assert FileThere(t, Walk(t, root, segs[..n]), segs[n]) == FileOn(t, root, segs, n);
      forall i: nat | i < n ensures FileOn(t, root, segs[..n], i) == FileOn(t, root, segs, i) {
        assert segs[..n][..i] == segs[..i];
      }
    }
  }

  /** The directories still to be made are those after the longest part of the path that is there. */
  lemma {:induction false} MissingIs(t: Tree, root: int, segs: seq<string>)
    ensures var n := Missing(t, root, segs);
            && n <= |segs| && Walk(t, root, segs[..|segs| - n]).Some?
            && forall i :: |segs| - n < i <= |segs| ==> Walk(t, root, segs[..i]).None?
  {
    assert segs[..|segs|] == segs;
    if segs != [] && Walk(t, root, segs).None? {
      var front := segs[..|segs| - 1];
      MissingIs(t, root, front);
      forall i | 0 <= i <= |front| ensures front[..i] == segs[..i] { }
    }
  }

  predicate FileThere(t: Tree, parent: Option<int>, name: string) {
    parent.Some? && (parent.value, name) in t && !t[(parent.value, name)].isDir
  }

  predicate IsPrefix(a: seq<string>, b: seq<string>) {
    a <= b
  }

  /** Nothing is gone, and what is new is on the way to `segs`. */
  ghost predicate GrownAlong(t: Tree, t': Tree, root: int, segs: seq<string>) {
    && Extends(t, t')
    && forall q :: Walk(t', root, q).Some? && Walk(t, root, q).None? ==> IsPrefix(q, segs)
  }

  ghost predicate CacheOk(cache: map<string, int>, t: Tree, root: int) {
    forall p :: p in cache ==> Walk(t, root, Segs(p)) == Some(cache[p])
  }

  /** A cache is right as long as nothing is removed, whoever else adds folders. */
  lemma CacheSurvivesGrowth(cache: map<string, int>, t: Tree, t': Tree, root: int)
    requires CacheOk(cache, t, root) && Extends(t, t')
    ensures CacheOk(cache, t', root)
  {
    forall p | p in cache ensures Walk(t', root, Segs(p)) == Some(cache[p]) {
      WalkGrows(t, t', root, Segs(p));
    }
  }

  /** What has been resolved once, and all that leads to it, never has to be made again. */
  lemma {:induction false} ResolvedOnce(t: Tree, t': Tree, root: int, segs: seq<string>, n: nat)
    requires Walk(t, root, segs).Some? && Extends(t, t') && n <= |segs|
    ensures Missing(t', root, segs[..n]) == 0
  {
    if n == |segs| {
      assert segs[..n] == segs;
      WalkGrows(t, t', root, segs);
    } else {
      assert segs[..|segs| - 1][..n] == segs[..n];
      ResolvedOnce(t, t', root, segs[..|segs| - 1], n);
    }
  }

  /** All that is new is folders with new ids. */
  ghost predicate GrownByFolders(t: Tree, used: set<int>, t': Tree, used': set<int>) {
    && Extends(t, t') && used <= used'
    && forall k :: k in t' && k !in t ==> t'[k].isDir && t'[k].id !in used
  }

  class Resolver {
    const drive: Drive
    var cache: map<string, int>

    constructor (drive: Drive)
      ensures this.drive == drive && cache == map[]
    {
      this.drive, cache := drive, map[];
    }

    /** Every cached path leads to the folder that plain lookup finds. */
    ghost predicate Valid()
      reads this, drive
    {
      drive.Valid() && CacheOk(cache, drive.tree, drive.root)
    }

    /** The folder of a path, with what was missing of it created and nothing else. The call fails only if the drive
        fails it, or where a file is in the way; what was created before stays. */
    method Resolve(relDir: string) returns (r: Option<int>)
      requires Valid() && ".." !in Split(relDir)
      modifies this, drive
      ensures Valid() && drive.faults >= old(drive.faults)
      ensures r.Some? ==> Walk(drive.tree, drive.root, Segs(relDir)) == Some(r.value)
      ensures r.Some? ==> drive.made == old(drive.made) + Missing(old(drive.tree), drive.root, Segs(relDir))
      ensures r.None? ==> old(drive.made) <= drive.made <= old(drive.made) + Missing(old(drive.tree), drive.root, Segs(relDir))
      ensures r.None? ==> drive.faults > old(drive.faults) || Blocked(drive.tree, drive.root, Segs(relDir))
      ensures GrownAlong(old(drive.tree), drive.tree, drive.root, Segs(relDir))
      ensures GrownByFolders(old(drive.tree), old(drive.used), drive.tree, drive.used)
    {
      SegsAreProper(relDir);
      r := ResolveClean(Clean(relDir), Rooted(relDir), Segs(relDir));
    }

    method ResolveClean(clean: string, ghost rooted: bool, ghost segs: seq<string>) returns (r: Option<int>)
      requires Valid() && AllProper(segs) && clean == Written(rooted, segs)
      modifies this, drive
      ensures Valid() && drive.faults >= old(drive.faults) && drive.made >= old(drive.made)
      ensures Resolves(drive.root, old(drive.tree), drive.tree, drive.made - old(drive.made), drive.faults > old(drive.faults), segs, r)
      ensures GrownByFolders(old(drive.tree), old(drive.used), drive.tree, drive.used)
      decreases |segs|
    {
      ReadBack(rooted, segs);
      if clean == "" || clean == "." || clean == "/" {
        RootHasNoSegments(clean);
        return Some(drive.root);
      }
      if clean in cache {
        return Some(cache[clean]);
      }
      ghost var front, name := segs[..|segs| - 1], segs[|segs| - 1];
      assert segs == front + [name];
      assert Proper(name);
      DirAndBase(rooted, front, name);
      var parent := ResolveClean(Dir(clean), rooted, front);
      label above:
      if parent.None? {
        FailedAbove(drive.root, old(drive.tree), drive.tree, drive.made - old(drive.made), drive.faults > old(drive.faults), front, name);
        return None;
      }
      WalkIsUsed(drive.tree, drive.root, drive.used, front);
      r := LookOrMake(parent.value, Base(clean), front);
      ResolvesFurther(drive.root, old(drive.tree), old@above(drive.tree), drive.tree, old@above(drive.made) - old(drive.made),
                      drive.made - old(drive.made), old@above(drive.faults) > old(drive.faults), drive.faults > old(drive.faults), front, name, parent.value, r);
      CacheSurvivesGrowth(cache, old@above(drive.tree), drive.tree, drive.root);
      if r.Some? {
        cache := cache[clean := r.value];
      }
    }

    /** The folder `name` under `parent`, found or made. */
    method LookOrMake(parent: int, name: string, ghost front: seq<string>) returns (r: Option<int>)
      requires drive.Valid() && parent in drive.used && Walk(drive.tree, drive.root, front) == Some(parent)
      modifies drive
      ensures drive.Valid()
      ensures drive.faults >= old(drive.faults)
      ensures r.None? ==> drive.faults > old(drive.faults) || FileThere(drive.tree, Some(parent), name)
      ensures r.Some? ==> Walk(drive.tree, drive.root, front + [name]) == Some(r.value)
      ensures GrownByFolders(old(drive.tree), old(drive.used), drive.tree, drive.used)
      ensures forall q :: q != front + [name] ==> Walk(drive.tree, drive.root, q) == Walk(old(drive.tree), drive.root, q)
      ensures drive.made == old(drive.made) + (if r.Some? && Walk(old(drive.tree), drive.root, front + [name]) == None then 1 else 0)
    {
      ghost var segs := front + [name];
      assert segs[..|segs| - 1] == front;
      var children := drive.List(parent);
      if children.None? {
        return None;
      }
      var found := FindDir(children.value, name);
      if found.Some? {
        return found;
      }
      if (parent, name) in drive.tree {
        assert Child(name, drive.tree[(parent, name)]) in children.value;
      }
      r := drive.Mkdir(parent, name);
      if r.Some? {
        forall q ensures Walk(drive.tree, drive.root, q) == if q == segs then r else Walk(old(drive.tree), drive.root, q) {
          NewFolderOnly(old(drive.tree), drive.root, old(drive.used), front, name, parent, r.value, q);
        }
      }
    }
  }

  /** What resolving `segs` may do to the tree, and when it may fail. */
  ghost predicate Resolves(root: int, t0: Tree, t1: Tree, made: nat, faulted: bool, segs: seq<string>, r: Option<int>) {
    && (r.Some? ==> Walk(t1, root, segs) == r && made == Missing(t0, root, segs))
    && (r.None? ==> made <= Missing(t0, root, segs) && (faulted || Blocked(t1, root, segs)))
    && GrownAlong(t0, t1, root, segs)
  }

  lemma FailedAbove(root: int, t0: Tree, t1: Tree, made: nat, faulted: bool, front: seq<string>, name: string)
    requires Resolves(root, t0, t1, made, faulted, front, None)
    ensures Resolves(root, t0, t1, made, faulted, front + [name], None)
  {
    assert (front + [name])[..|front|] == front;
    MissingOneMore(t0, t1, root, front, name);
    GrownFurther(t0, t1, t1, root, front, name);
  }

  lemma ResolvesFurther(root: int, t0: Tree, t1: Tree, t2: Tree, madeAbove: nat, made: nat, faultedAbove: bool, faulted: bool,
                        front: seq<string>, name: string, parent: int, r: Option<int>)
    requires Resolves(root, t0, t1, madeAbove, faultedAbove, front, Some(parent)) && Extends(t1, t2) && (faultedAbove ==> faulted)
    requires r.Some? ==> Walk(t2, root, front + [name]) == r
    requires r.None? ==> faulted || FileThere(t2, Some(parent), name)
    requires forall q :: q != front + [name] ==> Walk(t2, root, q) == Walk(t1, root, q)
    requires made == madeAbove + (if r.Some? && Walk(t1, root, front + [name]) == None then 1 else 0)
    ensures Resolves(root, t0, t2, made, faulted, front + [name], r)
  {
    assert (front + [name])[..|front|] == front && front != front + [name];
    MissingOneMore(t0, t1, root, front, name);
    GrownFurther(t0, t1, t2, root, front, name);
  }

  lemma RootHasNoSegments(clean: string)
    requires clean == "" || clean == "." || clean == "/"
    ensures Segs(clean) == []
  {
    SplitDot();
    SplitRoot();
    SplitName("");
    assert Named([""]) == [] && Named(["."]) == [] && Named(["", ""]) == Named([""]);
  }

  lemma GrownFurther(t0: Tree, t1: Tree, t2: Tree, root: int, front: seq<string>, name: string)
    requires GrownAlong(t0, t1, root, front) && Extends(t1, t2)
    requires forall q :: q != front + [name] ==> Walk(t2, root, q) == Walk(t1, root, q)
    ensures GrownAlong(t0, t2, root, front + [name])
  {
    forall q | Walk(t2, root, q).Some? && Walk(t0, root, q).None? ensures IsPrefix(q, front + [name]) {
      if q != front + [name] {
        assert IsPrefix(q, front);
      }
    }
  }

  lemma MissingOneMore(t0: Tree, t1: Tree, root: int, front: seq<string>, name: string)
    requires GrownAlong(t0, t1, root, front)
    ensures Missing(t0, root, front + [name]) == Missing(t0, root, front) + (if Walk(t1, root, front + [name]) == None then 1 else 0)
  {
    var segs := front + [name];
    assert segs[..|segs| - 1] == front;
    WalkGrows(t0, t1, root, segs);
    assert !IsPrefix(segs, front);
  }
}
