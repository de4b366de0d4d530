/**
 The push executor on the drive's own terms: folders, names and ids. Each call is shown to do to the remote files,
 seen by path, what the flat model of the remote tree says a successful call does.
 */
module Executing {
  import opened Types
  import opened Paths
  import opened CleanPaths
  import opened Resolving
  import opened Worlds

  datatype Stored = Stored(data: Bytes, mtime: int)

  /** The file `name` in the folder reached by `dir`. */
  function FileAt(t: Tree, root: int, content: map<int, Stored>, dir: seq<string>, name: string): Option<RemoteRec> {
    var parent := Walk(t, root, dir);
    if parent.Some? && (parent.value, name) in t && !t[(parent.value, name)].isDir && t[(parent.value, name)].id in content then
      var id := t[(parent.value, name)].id;
      Some(RemoteRec(id, content[id].data, content[id].mtime))
    else None
  }

  predicate ProperPath(dir: seq<string>, name: string) {
    AllProper(dir) && Proper(name)
  }

  /** `remote` lists the drive's files by path. */
  ghost predicate Shows(t: Tree, root: int, content: map<int, Stored>, remote: map<Rel, RemoteRec>) {
    && (forall p :: p in remote ==> ProperPath(Split(p)[..|Split(p)| - 1], Split(p)[|Split(p)| - 1]))
    && forall dir, name :: ProperPath(dir, name) ==> Lookup(remote, Join(dir + [name])) == FileAt(t, root, content, dir, name)
  }

  function NodesWithout(t: Tree, id: int): Tree {
    map k | k in t && t[k].id != id :: t[k]
  }

  datatype Sent = Sent(id: int, mtime: int) | Conflict | Missing | Broken

  class Server {
    const drive: Drive
    var content: map<int, Stored>

    constructor (drive: Drive, content: map<int, Stored>)
      ensures this.drive == drive && this.content == content
    {
      this.drive, this.content := drive, content;
    }

    /** The files are the ids with content. */
    ghost predicate Valid()
      reads this, drive
    {
      && drive.Valid()
      && (forall k :: k in drive.tree ==> (drive.tree[k].isDir <==> drive.tree[k].id !in content))
      && (forall id :: id in content ==> exists k :: k in drive.tree && drive.tree[k].id == id)
    }

    /** A new file under a free name; `made` is what the call made, if anything. The answer can get lost, or the client
        asks again after it got lost and finds the name taken. */
    method Create(parent: int, name: string, data: Bytes) returns (r: Sent, ghost made: Option<RemoteRec>)
      requires Valid() && parent in drive.used
      modifies this, drive
      ensures Valid() && drive.made == old(drive.made)
      ensures drive.faults == old(drive.faults) + (if r.Broken? then 1 else 0)
      ensures !r.Missing? && (r.Conflict? ==> (parent, name) in drive.tree)
      ensures r.Sent? ==> made == Some(RemoteRec(r.id, data, r.mtime))
      ensures made.None? ==> content == old(content) && drive.tree == old(drive.tree) && drive.used == old(drive.used)
      ensures made.Some? ==> (parent, name) !in old(drive.tree) && made.value.id !in old(drive.used) && made.value.data == data
                             && drive.tree == old(drive.tree)[(parent, name) := Node(made.value.id, false)]
                             && drive.used == old(drive.used) + {made.value.id}
                             && content == old(content)[made.value.id := Stored(data, made.value.mtime)]
    {
      if (parent, name) in drive.tree {
        return Conflict, None;
      }
      var id: int, mtime: int, refused: bool := *, *, *;
      if refused || id in drive.used {
        drive.faults := drive.faults + 1;
        return Broken, None;
      }
      assert forall x :: x in content ==> x in drive.used;
      drive.tree, drive.used := drive.tree[(parent, name) := Node(id, false)], drive.used + {id};
      content := content[id := Stored(data, mtime)];
      assert drive.tree[(parent, name)].id == id;
      made := Some(RemoteRec(id, data, mtime));
      var lost: bool, again: bool := *, *;
      if !lost {
        r := Sent(id, mtime);
      } else if again {
        r := Conflict;
      } else {
        drive.faults := drive.faults + 1;
        r := Broken;
      }
    }

    /** New content for an existing file; `took` is its new mtime, if the call took effect, answered or not. */
    method Replace(id: int, data: Bytes) returns (r: Sent, ghost took: Option<int>)
      requires Valid()
      modifies this, drive`faults
      ensures Valid() && !r.Conflict?
      ensures drive.faults == old(drive.faults) + (if r.Broken? then 1 else 0)
      ensures r.Missing? ==> id !in content
      ensures r.Sent? ==> r.id == id && took == Some(r.mtime)
      ensures took.None? ==> content == old(content)
      ensures took.Some? ==> id in old(content) && content == old(content)[id := Stored(data, took.value)]
    {
      if id !in content {
        return Missing, None;
      }
      if * {
        drive.faults := drive.faults + 1;
        return Broken, None;
      }
      var mtime: int := *;
      content := content[id := Stored(data, mtime)];
      took := Some(mtime);
      if * {
        drive.faults := drive.faults + 1;
        return Broken, took;
      }
      r := Sent(id, mtime);
    }

    /** Asked for again after its answer got lost, the removal finds nothing. */
    method Remove(id: int) returns (r: Sent, ghost gone: bool)
      requires Valid()
      modifies this, drive
      ensures Valid() && !r.Conflict? && drive.used == old(drive.used) && drive.made == old(drive.made)
      ensures drive.faults == old(drive.faults) + (if r.Broken? then 1 else 0)
      ensures (r.Missing? ==> id !in content) && (r.Sent? ==> gone)
      ensures !gone ==> content == old(content) && drive.tree == old(drive.tree)
      ensures gone ==> id in old(content) && content == old(content) - {id} && drive.tree == NodesWithout(old(drive.tree), id)
    {
      if id !in content {
        return Missing, false;
      }
      if * {
        drive.faults := drive.faults + 1;
        return Broken, false;
      }
      ghost var t := drive.tree;
      drive.tree := NodesWithout(drive.tree, id);
      content := content - {id};
      forall x | x in content ensures exists k :: k in drive.tree && drive.tree[k].id == x {
        var k :| k in t && t[k].id == x;
        assert k in drive.tree;
      }
      gone := true;
      var lost: bool, again: bool := *, *;
      if !lost {
        r := Sent(id, 0);
      } else if again {
        r := Missing;
      } else {
        drive.faults := drive.faults + 1;
        r := Broken;
      }
    }
  }

  // ---- How the view by path changes ----

  ghost predicate StateOk(t: Tree, root: int, used: set<int>, content: map<int, Stored>) {
    && TreeOk(t, root, used)
    && (forall k :: k in t ==> (t[k].isDir <==> t[k].id !in content))
    && (forall id :: id in content ==> exists k :: k in t && t[k].id == id)
  }

  /** Folder paths do not depend on the files. */
  lemma {:induction false} WalkIgnoresFiles(t: Tree, t': Tree, root: int, segs: seq<string>)
    requires forall k :: (k in t && t[k].isDir) || (k in t' && t'[k].isDir) ==> k in t && k in t' && t[k] == t'[k]
    ensures Walk(t', root, segs) == Walk(t, root, segs)
  {
    if segs != [] {
      WalkIgnoresFiles(t, t', root, segs[..|segs| - 1]);
    }
  }

  /** Creating folders moves no file. */
  lemma NewFoldersMoveNoFile(t: Tree, used: set<int>, t': Tree, used': set<int>, root: int, content: map<int, Stored>, dir: seq<string>, name: string)
    requires TreeOk(t, root, used) && GrownByFolders(t, used, t', used') && forall id :: id in content ==> id in used
    ensures FileAt(t', root, content, dir, name) == FileAt(t, root, content, dir, name)
  {
    WalkGrows(t, t', root, dir);
    if Walk(t, root, dir).None? {
      NewWalkIsNew(t, used, t', used', root, dir);
    }
  }

  lemma {:induction false} NewWalkIsNew(t: Tree, used: set<int>, t': Tree, used': set<int>, root: int, segs: seq<string>)
    requires TreeOk(t, root, used) && GrownByFolders(t, used, t', used') && Walk(t, root, segs).None?
    ensures Walk(t', root, segs).Some? ==> Walk(t', root, segs).value !in used
  {
    var front := segs[..|segs| - 1];
    WalkGrows(t, t', root, front);
    if Walk(t, root, front).None? {
      NewWalkIsNew(t, used, t', used', root, front);
    }
  }

  lemma CreatedView(t: Tree, root: int, used: set<int>, content: map<int, Stored>, parent: int, at: seq<string>, base: string,
                    id: int, s: Stored, dir: seq<string>, name: string)
    requires StateOk(t, root, used, content) && Walk(t, root, at) == Some(parent) && (parent, base) !in t && id !in used
    ensures var t' := t[(parent, base) := Node(id, false)];
            FileAt(t', root, content[id := s], dir, name) ==
            if dir == at && name == base then Some(RemoteRec(id, s.data, s.mtime)) else FileAt(t, root, content, dir, name)
  {
    var t' := t[(parent, base) := Node(id, false)];
    WalkIgnoresFiles(t, t', root, dir);
    if Walk(t, root, dir) == Some(parent) {
      WalkIsInjective(t, root, used, dir, at);
    }
  }

  lemma ReplacedView(t: Tree, root: int, content: map<int, Stored>, id: int, s: Stored, dir: seq<string>, name: string)
    requires id in content
    ensures var before := FileAt(t, root, content, dir, name);
            FileAt(t, root, content[id := s], dir, name) ==
            if before.Some? && before.value.id == id then Some(RemoteRec(id, s.data, s.mtime)) else before
  {
  }

  lemma RemovedView(t: Tree, root: int, used: set<int>, content: map<int, Stored>, id: int, dir: seq<string>, name: string)
    requires StateOk(t, root, used, content) && id in content
    ensures var before := FileAt(t, root, content, dir, name);
            FileAt(NodesWithout(t, id), root, content - {id}, dir, name) ==
            if before.Some? && before.value.id == id then None else before
  {
    WalkIgnoresFiles(t, NodesWithout(t, id), root, dir);
  }

  predicate FolderThere(t: Tree, parent: Option<int>, name: string) {
    parent.Some? && (parent.value, name) in t && t[(parent.value, name)].isDir
  }

  /** An upload reports the id that was at the path, or a new one. */
  predicate IdKept(id: int, before: Option<RemoteRec>, used: set<int>) {
    if before.Some? then id == before.value.id else id !in used
  }

  /** The bytes are there, under the id that was there or a new one. */
  predicate Uploaded(there: Option<RemoteRec>, data: Bytes, before: Option<RemoteRec>, used: set<int>) {
    there.Some? && there.value.data == data && IdKept(there.value.id, before, used)
  }

  /** The file at one path is now `r`, all others are as they were. */
  ghost predicate Changed(t: Tree, c: map<int, Stored>, t': Tree, c': map<int, Stored>, root: int, dir: seq<string>, name: string, r: Option<RemoteRec>) {
    forall d, n :: FileAt(t', root, c', d, n) == if d == dir && n == name then r else FileAt(t, root, c, d, n)
  }

  function Without(ok: bool, id: int, before: Option<RemoteRec>): Option<RemoteRec> {
    if ok && before.Some? && before.value.id == id then None else before
  }

  lemma NotThere(t: Tree, root: int, content: map<int, Stored>, id: int)
    ensures id !in content ==> forall d, n :: Without(true, id, FileAt(t, root, content, d, n)) == FileAt(t, root, content, d, n)
  {
  }

  lemma ContentIsUsed(t: Tree, root: int, used: set<int>, content: map<int, Stored>)
    requires StateOk(t, root, used, content)
    ensures forall id :: id in content ==> id in used
  {
  }

  lemma FoldersOnly(t: Tree, used: set<int>, t': Tree, used': set<int>, root: int, content: map<int, Stored>, dir: seq<string>, name: string)
    requires TreeOk(t, root, used) && GrownByFolders(t, used, t', used') && forall id :: id in content ==> id in used
    ensures Changed(t, content, t', content, root, dir, name, FileAt(t, root, content, dir, name))
  {
    forall d, n ensures FileAt(t', root, content, d, n) == FileAt(t, root, content, d, n) {
      NewFoldersMoveNoFile(t, used, t', used', root, content, d, n);
    }
  }

  lemma Created(t: Tree, root: int, used: set<int>, content: map<int, Stored>, parent: int, dir: seq<string>, name: string, id: int, s: Stored)
    requires StateOk(t, root, used, content) && Walk(t, root, dir) == Some(parent) && (parent, name) !in t && id !in used
    ensures Changed(t, content, t[(parent, name) := Node(id, false)], content[id := s], root, dir, name, Some(RemoteRec(id, s.data, s.mtime)))
    ensures FileAt(t, root, content, dir, name) == None
  {
    var t', content' := t[(parent, name) := Node(id, false)], content[id := s];
    forall d, n ensures FileAt(t', root, content', d, n) ==
                        if d == dir && n == name then Some(RemoteRec(id, s.data, s.mtime)) else FileAt(t, root, content, d, n)
    {
      CreatedView(t, root, used, content, parent, dir, name, id, s, d, n);
    }
  }

  /** A file is at one path. */
  lemma OnlyAt(t: Tree, root: int, used: set<int>, content: map<int, Stored>, dir: seq<string>, name: string)
    requires StateOk(t, root, used, content) && FileAt(t, root, content, dir, name).Some?
    ensures var id := FileAt(t, root, content, dir, name).value.id;
            forall d, n :: FileAt(t, root, content, d, n).Some? && FileAt(t, root, content, d, n).value.id == id ==> d == dir && n == name
  {
    var id := FileAt(t, root, content, dir, name).value.id;
    forall d, n | FileAt(t, root, content, d, n).Some? && FileAt(t, root, content, d, n).value.id == id ensures d == dir && n == name {
      WalkIsInjective(t, root, used, d, dir);
    }
  }

  lemma CacheIgnoresFiles(cache: map<string, int>, t: Tree, t': Tree, root: int)
    requires CacheOk(cache, t, root)
    requires forall k :: (k in t && t[k].isDir) || (k in t' && t'[k].isDir) ==> k in t && k in t' && t[k] == t'[k]
    ensures CacheOk(cache, t', root)
  {
    forall p | p in cache ensures Walk(t', root, Segs(p)) == Some(cache[p]) {
      WalkIgnoresFiles(t, t', root, Segs(p));
    }
  }

  // ---- The executor ----

  class Executor {
    const server: Server
    const resolver: Resolver
    const local: map<Rel, LocalRec>

    constructor (server: Server, resolver: Resolver, local: map<Rel, LocalRec>)
      ensures this.server == server && this.resolver == resolver && this.local == local
    {
      this.server, this.resolver, this.local := server, resolver, local;
    }

    ghost predicate Valid()
      reads this, server, resolver, server.drive, resolver.drive
    {
      server.Valid() && resolver.Valid() && resolver.drive == server.drive
    }

    ghost function View(dir: seq<string>, name: string): Option<RemoteRec>
      reads server, server.drive
    {
      FileAt(server.drive.tree, server.drive.root, server.content, dir, name)
    }

    /** The id of the file of that name, if the listing works and has one. */
    method FindChild(parent: int, name: string) returns (r: Option<int>, failed: bool)
      requires Valid()
      modifies server.drive`faults
      ensures Valid() && server.drive.faults == old(server.drive.faults) + (if failed then 1 else 0)
      ensures r.Some? ==> !failed && (parent, name) in server.drive.tree && server.drive.tree[(parent, name)] == Node(r.value, false)
      ensures r.None? && !failed ==> (parent, name) !in server.drive.tree || server.drive.tree[(parent, name)].isDir
    {
      var children := server.drive.List(parent);
      if children.None? {
        return None, true;
      }
      for i := 0 to |children.value|
        invariant forall j :: 0 <= j < i ==> children.value[j].name != name || children.value[j].node.isDir
      {
        var c := children.value[i];
        if !c.node.isDir && c.name == name {
          assert c in children.value;
          return Some(c.node.id), false;
        }
      }
      if (parent, name) in server.drive.tree {
        assert Child(name, server.drive.tree[(parent, name)]) in children.value;
      }
      return None, false;
    }

    /** Uploads a file to its folder; if its name is taken there by a file, overwrites that one. `there` is what is at
        the path then: after a success the local bytes, under the id that was there or a new one; after a failure what
        was there before or, if an answer got lost, the same as after a success. Every other file is left alone. It
        fails only if the drive fails a call, the local file is gone, a file is in the way of the folder, or a folder
        is in the way of the file. */
    method Upload(rel: Rel, ghost dir: seq<string>, ghost name: string) returns (r: Sent, ghost there: Option<RemoteRec>)
      requires Valid() && ProperPath(dir, name) && rel == Join(dir + [name]) && ".." !in dir
      modifies server, resolver, server.drive
      ensures Valid()
      ensures !r.Missing? && (r.Broken? ==> server.drive.faults > old(server.drive.faults) || rel !in local || Blocked(server.drive.tree, server.drive.root, dir))
      ensures r.Conflict? ==> FolderThere(server.drive.tree, Walk(server.drive.tree, server.drive.root, dir), name)
      ensures r.Sent? ==> rel in local && there == Some(RemoteRec(r.id, local[rel].data, r.mtime))
      ensures r.Sent? || there != old(View(dir, name)) ==> rel in local && Uploaded(there, local[rel].data, old(View(dir, name)), old(server.drive.used))
      ensures Changed(old(server.drive.tree), old(server.content), server.drive.tree, server.content, server.drive.root, dir, name, there)
    {
      AtPath(rel, dir, name);
      ContentIsUsed(server.drive.tree, server.drive.root, server.drive.used, server.content);
      there := View(dir, name);
      var parent := resolver.Resolve(Dir(rel));
      FoldersOnly(old(server.drive.tree), old(server.drive.used), server.drive.tree, server.drive.used, server.drive.root, server.content, dir, name);
      if parent.None? || rel !in local {
        return Broken, there;
      }
      WalkIsUsed(server.drive.tree, server.drive.root, server.drive.used, dir);
      r, there := Send(rel, parent.value, dir, name);
    }

    /** The upload once the folder is known. */
    method Send(rel: Rel, parent: int, ghost dir: seq<string>, ghost name: string) returns (r: Sent, ghost there: Option<RemoteRec>)
      requires Valid() && rel in local && Base(rel) == name && parent in server.drive.used
      requires Walk(server.drive.tree, server.drive.root, dir) == Some(parent)
      modifies server, server.drive
      ensures Valid() && server.drive.faults >= old(server.drive.faults)
      ensures !r.Missing? && (r.Broken? ==> server.drive.faults > old(server.drive.faults))
      ensures r.Conflict? ==> FolderThere(server.drive.tree, Walk(server.drive.tree, server.drive.root, dir), name)
      ensures r.Sent? ==> there == Some(RemoteRec(r.id, local[rel].data, r.mtime))
      ensures r.Sent? || there != old(View(dir, name)) ==> Uploaded(there, local[rel].data, old(View(dir, name)), old(server.drive.used))
      ensures Changed(old(server.drive.tree), old(server.content), server.drive.tree, server.content, server.drive.root, dir, name, there)
    {
      there := View(dir, name);
      ghost var made;
      r, made := server.Create(parent, Base(rel), local[rel].data);
      if made.Some? {
        Created(old(server.drive.tree), server.drive.root, old(server.drive.used), old(server.content), parent, dir, name, made.value.id,
                Stored(local[rel].data, made.value.mtime));
        CacheIgnoresFiles(resolver.cache, old(server.drive.tree), server.drive.tree, server.drive.root);
        WalkIgnoresFiles(old(server.drive.tree), server.drive.tree, server.drive.root, dir);
        there := made;
      }
      if !r.Conflict? {
        return;
      }
      r, there := OverwriteExisting(rel, parent, dir, name, there);
    }

    /** The name is taken: if by a file, the upload becomes an overwrite of it. */
    method OverwriteExisting(rel: Rel, parent: int, ghost dir: seq<string>, ghost name: string, ghost was: Option<RemoteRec>)
      returns (r: Sent, ghost there: Option<RemoteRec>)
      requires Valid() && rel in local && Base(rel) == name && (parent, name) in server.drive.tree
      requires Walk(server.drive.tree, server.drive.root, dir) == Some(parent) && was == View(dir, name)
      modifies server, server.drive`faults
      ensures Valid() && server.drive.faults >= old(server.drive.faults)
      ensures !r.Missing? && (r.Broken? ==> server.drive.faults > old(server.drive.faults))
      ensures r.Conflict? ==> FolderThere(server.drive.tree, Some(parent), name)
      ensures r.Sent? ==> there == Some(RemoteRec(r.id, local[rel].data, r.mtime))
      ensures r.Sent? || there != was ==> was.Some? && there.Some? && there.value.id == was.value.id && there.value.data == local[rel].data
      ensures Changed(server.drive.tree, old(server.content), server.drive.tree, server.content, server.drive.root, dir, name, there)
    {
      there := was;
      var existing, failed := FindChild(parent, Base(rel));
      if existing.None? {
        return if failed then Broken else Conflict, there;
      }
      ghost var took;
      r, took := Overwrite(rel, existing.value);
      OnlyAt(server.drive.tree, server.drive.root, server.drive.used, old(server.content), dir, name);
      if took.Some? {
        there := Some(RemoteRec(existing.value, local[rel].data, took.value));
      }
    }

    /** Replaces the file with this id, wherever it is; `took` is its new mtime, if the call took effect. */
    method Overwrite(rel: Rel, id: int) returns (r: Sent, ghost took: Option<int>)
      requires Valid()
      modifies server, server.drive`faults
      ensures Valid() && !r.Conflict? && server.drive.faults >= old(server.drive.faults)
      ensures r.Broken? ==> server.drive.faults > old(server.drive.faults) || rel !in local
      ensures r.Missing? ==> id !in old(server.content)
      ensures r.Sent? ==> r.id == id && took == Some(r.mtime)
      ensures took.Some? ==> rel in local && id in old(server.content)
      ensures forall d, n :: FileAt(server.drive.tree, server.drive.root, server.content, d, n) ==
                With(took, rel, id, FileAt(server.drive.tree, server.drive.root, old(server.content), d, n))
    {
      if rel !in local {
        return Broken, None;
      }
      r, took := server.Replace(id, local[rel].data);
      if took.Some? {
        forall d, n ensures FileAt(server.drive.tree, server.drive.root, server.content, d, n) ==
                            With(took, rel, id, FileAt(server.drive.tree, server.drive.root, old(server.content), d, n))
        {
          ReplacedView(server.drive.tree, server.drive.root, old(server.content), id, Stored(local[rel].data, took.value), d, n);
        }
      }
    }

    function With(took: Option<int>, rel: Rel, id: int, before: Option<RemoteRec>): Option<RemoteRec> {
      if took.Some? && rel in local && before.Some? && before.value.id == id then Some(RemoteRec(id, local[rel].data, took.value)) else before
    }

    /** Removes the file with this id; that it is gone already is success. After a failure it is there or, if the answer
        got lost, `gone`. */
    method Delete(id: int) returns (ok: bool, ghost gone: bool)
      requires Valid()
      modifies server, server.drive
      ensures Valid() && (ok ==> gone)
      ensures forall d, n :: FileAt(server.drive.tree, server.drive.root, server.content, d, n) ==
                Without(gone, id, FileAt(old(server.drive.tree), server.drive.root, old(server.content), d, n))
      ensures if ok then id !in server.content else server.drive.faults > old(server.drive.faults)
    {
      var r;
      r, gone := server.Remove(id);
      ok := r.Sent? || r.Missing?;
      if gone {
        forall d, n ensures FileAt(server.drive.tree, server.drive.root, server.content, d, n) ==
                            Without(true, id, FileAt(old(server.drive.tree), server.drive.root, old(server.content), d, n))
        {
          RemovedView(old(server.drive.tree), server.drive.root, old(server.drive.used), old(server.content), id, d, n);
        }
        CacheIgnoresFiles(resolver.cache, old(server.drive.tree), server.drive.tree, server.drive.root);
      } else {
        NotThere(server.drive.tree, server.drive.root, server.content, id);
        gone := ok;
      }
    }
  }

  // ---- The flat model of the remote tree is right about these calls ----

  lemma ProperSplit(dir: seq<string>, name: string)
    requires ProperPath(dir, name)
    ensures Split(Join(dir + [name])) == dir + [name]
  {
    forall i | 0 <= i < |dir + [name]| ensures SlashFree((dir + [name])[i]) {
      if i < |dir| { assert Proper(dir[i]); }
    }
    SplitJoin(dir + [name]);
  }

  /** A path has one folder and one name. */
  lemma OnePath(p: Rel, dir: seq<string>, name: string, d: seq<string>, n: string)
    requires ProperPath(dir, name) && ProperPath(d, n) && p == Join(dir + [name]) == Join(d + [n])
    ensures d == dir && n == name
  {
    ProperSplit(dir, name);
    ProperSplit(d, n);
    assert d == (d + [n])[..|d|] && dir == (dir + [name])[..|dir|];
  }

  /** An upload that takes effect, answered or not, is possible in the flat model, and has the effect it gives it. */
  lemma UploadIsEffect(t: Tree, c: map<int, Stored>, t': Tree, c': map<int, Stored>, root: int, used: set<int>, w: World,
                       it: Item, dir: seq<string>, name: string, there: RemoteRec)
    requires ProperPath(dir, name) && it.op.Upload? && it.rel == Join(dir + [name]) && it.rel in w.local && w.used <= used
    requires Shows(t, root, c, w.remote) && Uploaded(Some(there), w.local[it.rel].data, FileAt(t, root, c, dir, name), used)
    requires Changed(t, c, t', c', root, dir, name, Some(there))
    ensures Possible(w, Push(it), there.id, there.mtime)
    ensures Shows(t', root, c', Effect(w, Push(it), there.id, there.mtime).remote)
  {
    assert Lookup(w.remote, it.rel) == FileAt(t, root, c, dir, name);
    var remote' := Effect(w, Push(it), there.id, there.mtime).remote;
    ProperSplit(dir, name);
    assert (dir + [name])[..|dir|] == dir;
    forall d, n | ProperPath(d, n) ensures Lookup(remote', Join(d + [n])) == FileAt(t', root, c', d, n) {
      if Join(d + [n]) == it.rel {
        OnePath(it.rel, dir, name, d, n);
      }
    }
  }

  lemma OverwriteIsEffect(t: Tree, c: map<int, Stored>, c': map<int, Stored>, root: int, w: World, it: Item, a: int, mtime: int, e: Executor)
    requires it.op.Overwrite? && it.rel in w.local && HasId(w, it.remoteID) && e.local == w.local
    requires Shows(t, root, c, w.remote)
    requires forall d, n :: FileAt(t, root, c', d, n) == e.With(Some(mtime), it.rel, it.remoteID, FileAt(t, root, c, d, n))
    ensures Possible(w, Push(it), a, mtime)
    ensures Shows(t, root, c', Effect(w, Push(it), a, mtime).remote)
  {
    var remote' := Effect(w, Push(it), a, mtime).remote;
    forall d, n | ProperPath(d, n) ensures Lookup(remote', Join(d + [n])) == FileAt(t, root, c', d, n) {
      assert Lookup(w.remote, Join(d + [n])) == FileAt(t, root, c, d, n);
    }
  }

  lemma DeleteIsEffect(t: Tree, c: map<int, Stored>, t': Tree, c': map<int, Stored>, root: int, w: World, it: Item)
    requires it.op.Delete? && Shows(t, root, c, w.remote)
    requires forall d, n :: FileAt(t', root, c', d, n) == Without(true, it.remoteID, FileAt(t, root, c, d, n))
    ensures Possible(w, Push(it), 0, 0)
    ensures Shows(t', root, c', Effect(w, Push(it), 0, 0).remote)
  {
    var remote' := Effect(w, Push(it), 0, 0).remote;
    forall d, n | ProperPath(d, n) ensures Lookup(remote', Join(d + [n])) == FileAt(t', root, c', d, n) {
      assert Lookup(w.remote, Join(d + [n])) == FileAt(t, root, c, d, n);
    }
  }

  /** The parent directory and the name of a proper path. */
  lemma AtPath(rel: Rel, dir: seq<string>, name: string)
    requires ProperPath(dir, name) && rel == Join(dir + [name])
    ensures Segs(Dir(rel)) == dir && Base(rel) == name
    ensures ".." !in dir ==> ".." !in Split(Dir(rel))
  {
    DirAndBase(false, dir, name);
    assert "" + rel == rel;
    ReadBack(false, dir);
    if dir == [] {
      SplitDot();
    } else {
      SplitJoin(dir);
      assert "" + Join(dir) == Join(dir);
    }
  }
}
