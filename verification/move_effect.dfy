/** What an attempt at a move does on the drive's own terms is what the push's events say it does. */
module MoveEffect {
  import opened Types
  import opened Paths
  import opened CleanPaths
  import opened Resolving
  import opened Worlds
  import opened Pool
  import opened PushTrace
  import opened Executing
  import Moving

  /** The file's node under another key. */
  function Rehung(t: Tree, id: int, parent: int, name: string): Tree {
    NodesWithout(t, id)[(parent, name) := Node(id, false)]
  }

  lemma RehungView(t: Tree, root: int, used: set<int>, content: map<int, Stored>, id: int, parent: int, name: string, at: seq<string>, mtime: int,
                   d: seq<string>, n: string)
    requires StateOk(t, root, used, content) && id in content && Walk(t, root, at) == Some(parent)
    requires (parent, name) in t ==> t[(parent, name)].id == id
    ensures FileAt(Rehung(t, id, parent, name), root, content[id := Stored(content[id].data, mtime)], d, n) ==
            if d == at && n == name then Some(RemoteRec(id, content[id].data, mtime)) else Without(true, id, FileAt(t, root, content, d, n))
  {
    WalkIgnoresFiles(t, Rehung(t, id, parent, name), root, d);
    if Walk(t, root, d) == Some(parent) {
      WalkIsInjective(t, root, used, d, at);
    }
  }

  lemma PartsOf(dir: seq<string>, name: string)
    requires ProperPath(dir, name)
    ensures DirOf(Join(dir + [name])) == dir && BaseOf(Join(dir + [name])) == name
  {
    ProperSplit(dir, name);
    assert (dir + [name])[..|dir|] == dir;
  }

  /** Hanging the node elsewhere is relocating the file. */
  lemma RehungIsRelocated(t: Tree, root: int, used: set<int>, content: map<int, Stored>, w: World, id: int, parent: int, name: string, at: seq<string>, mtime: int)
    requires StateOk(t, root, used, content) && id in content && Walk(t, root, at) == Some(parent) && ProperPath(at, name)
    requires (parent, name) in t ==> t[(parent, name)].id == id
    requires WellFormed(w) && Shows(t, root, content, w.remote) && HasId(w, id)
    ensures Shows(Rehung(t, id, parent, name), root, content[id := Stored(content[id].data, mtime)],
                  Relocated(w, id, Join(at + [name]), mtime).remote)
  {
    var remote' := Relocated(w, id, Join(at + [name]), mtime).remote;
    KeysAreProper(w, id, at, name, mtime);
    SameBytes(t, root, content, w, id);
    forall d, n | ProperPath(d, n)
      ensures Lookup(remote', Join(d + [n])) == FileAt(Rehung(t, id, parent, name), root, content[id := Stored(content[id].data, mtime)], d, n)
    {
      RehungView(t, root, used, content, id, parent, name, at, mtime, d, n);
      RelocatedView(t, root, content, w, id, at, name, mtime, d, n);
    }
  }

  predicate ProperKey(p: Rel) {
    ProperPath(Split(p)[..|Split(p)| - 1], Split(p)[|Split(p)| - 1])
  }

  lemma KeysAreProper(w: World, id: int, at: seq<string>, name: string, mtime: int)
    requires HasId(w, id) && ProperPath(at, name) && forall p :: p in w.remote ==> ProperKey(p)
    ensures forall p :: p in Relocated(w, id, Join(at + [name]), mtime).remote ==> ProperKey(p)
  {
    PartsOf(at, name);
  }

  lemma RelocatedView(t: Tree, root: int, content: map<int, Stored>, w: World, id: int, at: seq<string>, name: string, mtime: int, d: seq<string>, n: string)
    requires ProperPath(at, name) && ProperPath(d, n)
    requires Shows(t, root, content, w.remote) && HasId(w, id) && id in content && content[id].data == DataOf(w, id)
    ensures Lookup(Relocated(w, id, Join(at + [name]), mtime).remote, Join(d + [n])) ==
            if d == at && n == name then Some(RemoteRec(id, content[id].data, mtime)) else Without(true, id, FileAt(t, root, content, d, n))
  {
    assert Lookup(w.remote, Join(d + [n])) == FileAt(t, root, content, d, n);
    if Join(d + [n]) == Join(at + [name]) {
      OnePath(Join(at + [name]), at, name, d, n);
    }
  }

  lemma SameBytes(t: Tree, root: int, content: map<int, Stored>, w: World, id: int)
    requires Shows(t, root, content, w.remote) && HasId(w, id) && WellFormed(w)
    ensures id in content && content[id].data == DataOf(w, id)
  {
    var p := PathOf(w, id);
    OwnParts(p);
    assert Lookup(w.remote, Join(DirOf(p) + [BaseOf(p)])) == FileAt(t, root, content, DirOf(p), BaseOf(p));
  }

  lemma OwnParts(p: Rel)
    ensures Join(DirOf(p) + [BaseOf(p)]) == p
  {
    JoinSplit(p);
    LastPart(Split(p));
  }

  lemma LastPart(parts: seq<string>)
    requires |parts| >= 1
    ensures parts[..|parts| - 1] + [parts[|parts| - 1]] == parts
  {
  }

  // ---- One attempt at a move ----

  /** The file with `id`, its folder, and where the move is to bring it. */
  datatype Route = Route(id: int, from: seq<string>, dir: seq<string>, target: Moving.Target)

  /** The drive has the file where `p` says, and the target folder at `m.dir`. */
  ghost predicate Stands(t: Tree, root: int, used: set<int>, content: map<int, Stored>, w: World, m: Route, p: Moving.Place) {
    && StateOk(t, root, used, content) && WellFormed(w) && Shows(t, root, content, w.remote)
    && (p.parent, p.name) in t && t[(p.parent, p.name)] == Node(m.id, false)
    && m.id in content && content[m.id].mtime == p.mtime
    && Walk(t, root, m.from) == Some(p.parent) && ProperPath(m.from, p.name)
    && Walk(t, root, m.dir) == Some(m.target.parent) && ProperPath(m.dir, m.target.name)
  }

  /** The names the file comes under are free: the drive moves and renames no file onto another. */
  predicate NamesFree(t: Tree, p: Moving.Place, p': Moving.Place) {
    && (p'.parent != p.parent ==> (p'.parent, p.name) !in t)
    && (!SamePlace(p, p') ==> (p'.parent, p'.name) !in t)
  }

  predicate SamePlace(p: Moving.Place, p': Moving.Place) {
    p'.parent == p.parent && p'.name == p.name
  }

  function TreeAfter(t: Tree, id: int, p: Moving.Place, p': Moving.Place): Tree {
    if SamePlace(p, p') then t else Rehung(t, id, p'.parent, p'.name)
  }

  function ContentAfter(content: map<int, Stored>, id: int, p: Moving.Place, p': Moving.Place): map<int, Stored>
    requires id in content
  {
    if SamePlace(p, p') then content else content[id := Stored(content[id].data, p'.mtime)]
  }

  lemma StandsAt(t: Tree, root: int, used: set<int>, content: map<int, Stored>, w: World, m: Route, p: Moving.Place)
    requires Stands(t, root, used, content, w, m, p)
    ensures var from := Join(m.from + [p.name]);
            && HasId(w, m.id) && PathOf(w, m.id) == from && w.remote[from] == RemoteRec(m.id, content[m.id].data, p.mtime)
            && DirOf(from) == m.from && BaseOf(from) == p.name
  {
    var from := Join(m.from + [p.name]);
    assert Lookup(w.remote, from) == FileAt(t, root, content, m.from, p.name);
    PartsOf(m.from, p.name);
  }

  /** Folders of different ids have different paths. */
  lemma FoldersDiffer(t: Tree, root: int, used: set<int>, content: map<int, Stored>, w: World, m: Route, p: Moving.Place)
    requires Stands(t, root, used, content, w, m, p)
    ensures m.from == m.dir <==> p.parent == m.target.parent
  {
    if p.parent == m.target.parent {
      WalkIsInjective(t, root, used, m.from, m.dir);
    }
  }

  /** Free on the drive is free in the flat model. */
  lemma FreeName(t: Tree, root: int, content: map<int, Stored>, w: World, at: seq<string>, parent: int, name: string)
    requires Shows(t, root, content, w.remote) && ProperPath(at, name) && Walk(t, root, at) == Some(parent) && (parent, name) !in t
    ensures Join(at + [name]) !in w.remote
  {
    assert Lookup(w.remote, Join(at + [name])) == FileAt(t, root, content, at, name);
  }

  predicate IsMoveOf(out: seq<Item>, k: nat, m: Route) {
    k < |out| && out[k].op.Move? && out[k].remoteID == m.id && out[k].rel == Join(m.dir + [m.target.name])
  }

  /** The events lead from `w` to a world whose remote files are those of the drive's tree. */
  ghost predicate LeadsTo(w: World, out: seq<Item>, es: seq<Event>, t: Tree, root: int, content: map<int, Stored>) {
    && IsTrace(w, out, es)
    && var v := WorldOf(w, out, es); v.local == w.local && v.used == w.used && Shows(t, root, content, v.remote)
  }

  /** Nothing happened: an attempt that succeeds found the file at its target. */
  lemma InPlace(t: Tree, root: int, used: set<int>, content: map<int, Stored>, w: World, m: Route, p: Moving.Place, out: seq<Item>, k: nat)
    requires Stands(t, root, used, content, w, m, p) && Moving.Reached(m.target, p) && IsMoveOf(out, k, m)
    ensures var es := [Call(Outcome(k, true, 0, p.mtime))]; IsTrace(w, out, es) && WorldOf(w, out, es) == w
  {
    StandsAt(t, root, used, content, w, m, p);
    FoldersDiffer(t, root, used, content, w, m, p);
    var e := Call(Outcome(k, true, 0, p.mtime));
    AnsweredInPlace(w, out, k, PathOf(w, m.id));
    TraceGrows(w, out, [], e);
    assert [] + [e] == [e];
  }

  /** A move of a file that is at its target leaves all as it is. */
  lemma AnsweredInPlace(w: World, out: seq<Item>, k: nat, p: Rel)
    requires WellFormed(w) && k < |out| && out[k].op.Move? && p == out[k].rel && p in w.remote && w.remote[p].id == out[k].remoteID
    ensures var e := Call(Outcome(k, true, 0, w.remote[p].mtime)); CanHappen(w, out, e) && Next(w, out, e) == w
  {
    var id := out[k].remoteID;
    assert PathOf(w, id) == p && DataOf(w, id) == w.remote[p].data;
    assert Next(w, out, Call(Outcome(k, true, 0, w.remote[p].mtime))).remote == w.remote;
  }

  /** The file was moved and not renamed. */
  lemma MovedOnly(t: Tree, root: int, used: set<int>, content: map<int, Stored>, w: World, m: Route, p: Moving.Place, mtime: int, out: seq<Item>, k: nat)
    requires Stands(t, root, used, content, w, m, p) && IsMoveOf(out, k, m)
    requires p.parent != m.target.parent && (m.target.parent, p.name) !in t
    ensures LeadsTo(w, out, [Shift(k, mtime)], Rehung(t, m.id, m.target.parent, p.name), root, content[m.id := Stored(content[m.id].data, mtime)])
  {
    StandsAt(t, root, used, content, w, m, p);
    FoldersDiffer(t, root, used, content, w, m, p);
    PartsOf(m.dir, m.target.name);
    FreeName(t, root, content, w, m.dir, m.target.parent, p.name);
    TraceGrows(w, out, [], Shift(k, mtime));
    assert [] + [Shift(k, mtime)] == [Shift(k, mtime)];
    RehungIsRelocated(t, root, used, content, w, m.id, m.target.parent, p.name, m.dir, mtime);
  }

  /** The file was brought to its target. */
  lemma Arrived(t: Tree, root: int, used: set<int>, content: map<int, Stored>, w: World, m: Route, p: Moving.Place, mtime: int, out: seq<Item>, k: nat)
    returns (es: seq<Event>)
    requires Stands(t, root, used, content, w, m, p) && IsMoveOf(out, k, m)
    requires (m.target.parent, m.target.name) !in t && (p.parent != m.target.parent ==> (m.target.parent, p.name) !in t)
    ensures LeadsTo(w, out, es, Rehung(t, m.id, m.target.parent, m.target.name), root, content[m.id := Stored(content[m.id].data, mtime)])
    ensures es != [] && es[|es| - 1] == Call(Outcome(k, true, 0, mtime))
  {
    StandsAt(t, root, used, content, w, m, p);
    FoldersDiffer(t, root, used, content, w, m, p);
    PartsOf(m.dir, m.target.name);
    FreeName(t, root, content, w, m.dir, m.target.parent, m.target.name);
    if p.parent != m.target.parent {
      FreeName(t, root, content, w, m.dir, m.target.parent, p.name);
    }
    es := MoveRelocates(w, out, k, 0, mtime);
    RehungIsRelocated(t, root, used, content, w, m.id, m.target.parent, m.target.name, m.dir, mtime);
  }

  lemma StaysPut(t: Tree, root: int, used: set<int>, content: map<int, Stored>, w: World, m: Route, p: Moving.Place, r: Option<int>, out: seq<Item>, k: nat)
    returns (es: seq<Event>)
    requires Stands(t, root, used, content, w, m, p) && IsMoveOf(out, k, m)
    requires r.Some? ==> Moving.Reached(m.target, p) && r.value == p.mtime
    ensures LeadsTo(w, out, es, t, root, content) && es == (if r.Some? then [Call(Outcome(k, true, 0, r.value))] else [])
  {
    es := [];
    if r.Some? {
      InPlace(t, root, used, content, w, m, p, out, k);
      es := [Call(Outcome(k, true, 0, r.value))];
    }
  }

  /** The file is somewhere else: at its target, or halfway. */
  lemma Went(t: Tree, root: int, used: set<int>, content: map<int, Stored>, w: World, m: Route,
             p: Moving.Place, p': Moving.Place, r: Option<int>, out: seq<Item>, k: nat) returns (es: seq<Event>)
    requires Stands(t, root, used, content, w, m, p) && IsMoveOf(out, k, m) && !SamePlace(p, p')
    requires Moving.Attempted(m.target, p, p', r) && NamesFree(t, p, p')
    ensures LeadsTo(w, out, es, Rehung(t, m.id, p'.parent, p'.name), root, content[m.id := Stored(content[m.id].data, p'.mtime)])
    ensures if Moving.Reached(m.target, p') then es != [] && es[|es| - 1] == Call(Outcome(k, true, 0, p'.mtime)) else es == [Shift(k, p'.mtime)]
  {
    if Moving.Reached(m.target, p') {
      es := Arrived(t, root, used, content, w, m, p, p'.mtime, out, k);
    } else {
      MovedOnly(t, root, used, content, w, m, p, p'.mtime, out, k);
      es := [Shift(k, p'.mtime)];
    }
  }

  // ---- Main result ----

  /** An attempt at a move, answered, refused, or cut off between its calls, does to the remote files by path what
      some events of its item do; it is answered only if the last of them is the item's success. */
  lemma MoveIsEffect(t: Tree, root: int, used: set<int>, content: map<int, Stored>, w: World, m: Route,
                     p: Moving.Place, p': Moving.Place, r: Option<int>, out: seq<Item>, k: nat) returns (es: seq<Event>)
    requires Stands(t, root, used, content, w, m, p) && IsMoveOf(out, k, m)
    requires Moving.Attempted(m.target, p, p', r) && NamesFree(t, p, p')
    ensures LeadsTo(w, out, es, TreeAfter(t, m.id, p, p'), root, ContentAfter(content, m.id, p, p'))
    ensures r.Some? ==> es != [] && es[|es| - 1] == Call(Outcome(k, true, 0, r.value))
    ensures r.None? && SamePlace(p, p') ==> es == []
    ensures !Moving.Reached(m.target, p') ==> es == [] || es == [Shift(k, p'.mtime)]
  {
    if SamePlace(p, p') {
      es := StaysPut(t, root, used, content, w, m, p, r, out, k);
    } else {
      es := Went(t, root, used, content, w, m, p, p', r, out, k);
    }
  }
}
