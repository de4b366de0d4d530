/**
 The one-way planners. A plan is judged against a reference: on each path, the side to be copied has changed when
 its size and mtime are not the ones the baseline recorded for that side.
 */
module Planning {
  import opened Types
  import opened Manifests

  // ---- The reference: what each side looks like, and what the baseline says it looked like ----

  datatype Meta = Meta(size: int, mtime: int)

  function LocalMeta(local: map<Rel, LocalFile>, p: Rel): Option<Meta> {
    if p in local then Some(Meta(local[p].size, local[p].mtime)) else None
  }

  function RemoteMeta(idx: map<Rel, IndexEntry>, p: Rel): Option<Meta> {
    if p in idx then Some(Meta(idx[p].size, idx[p].mtime)) else None
  }

  function BaseLocal(m: map<Rel, Entry>, p: Rel): Option<Meta> {
    if p in m then Some(Meta(m[p].size, m[p].localMtime)) else None
  }

  function BaseRemote(m: map<Rel, Entry>, p: Rel): Option<Meta> {
    if p in m then Some(Meta(m[p].size, m[p].remoteMtime)) else None
  }

  /** A side looks as recorded exactly if it has a file of the recorded size and mtime, or none where none is recorded. */
  lemma LooksAsRecorded(local: map<Rel, LocalFile>, idx: map<Rel, IndexEntry>, m: map<Rel, Entry>, p: Rel)
    ensures LocalMeta(local, p) == BaseLocal(m, p) <==>
              if p in m then p in local && local[p].size == m[p].size && local[p].mtime == m[p].localMtime else p !in local
    ensures RemoteMeta(idx, p) == BaseRemote(m, p) <==>
              if p in m then p in idx && idx[p].size == m[p].size && idx[p].mtime == m[p].remoteMtime else p !in idx
  {
  }

  /** The action that makes the remote copy of `p` what the local one is. */
  function CopyOut(p: Rel, l: Option<LocalFile>, b: Option<Entry>): Item {
    match (l, b)
    case (Some(f), None) => Item(p, Upload, 0, f.size, f.mtime, "")
    case (Some(f), Some(e)) => Item(p, Overwrite, e.remoteID, f.size, f.mtime, "")
    case (None, Some(e)) => Item(p, Delete, e.remoteID, 0, 0, "")
    case (None, None) => Item(p, Delete, 0, 0, 0, "")
  }

  /** The action that makes the local copy of `p` what the remote one is. */
  function CopyIn(p: Rel, r: Option<IndexEntry>): PullItem {
    match r
    case Some(e) => PullItem(p, Download, e.id, e.size, e.mtime)
    case None => PullItem(p, DeleteLocal, 0, 0, 0)
  }

  predicate DistinctRels(items: seq<Item>) {
    forall i, j :: 0 <= i < j < |items| ==> items[i].rel != items[j].rel
  }

  predicate DistinctPullRels(items: seq<PullItem>) {
    forall i, j :: 0 <= i < j < |items| ==> items[i].rel != items[j].rel
  }

  /** A push plan has one action for every path whose local side changed, and no other. */
  ghost predicate IsPushPlan(items: seq<Item>, local: map<Rel, LocalFile>, m: map<Rel, Entry>) {
    && DistinctRels(items)
    && (forall it :: it in items ==>
          LocalMeta(local, it.rel) != BaseLocal(m, it.rel) && it == CopyOut(it.rel, Lookup(local, it.rel), Lookup(m, it.rel)))
    && (forall p :: LocalMeta(local, p) != BaseLocal(m, p) ==> CopyOut(p, Lookup(local, p), Lookup(m, p)) in items)
  }

  ghost predicate IsPullPlan(items: seq<PullItem>, idx: map<Rel, IndexEntry>, m: map<Rel, Entry>) {
    && DistinctPullRels(items)
    && (forall it :: it in items ==>
          RemoteMeta(idx, it.rel) != BaseRemote(m, it.rel) && it == CopyIn(it.rel, Lookup(idx, it.rel)))
    && (forall p :: RemoteMeta(idx, p) != BaseRemote(m, p) ==> CopyIn(p, Lookup(idx, p)) in items)
  }

  /** What a plan has for one path, side by side with what is there and what is recorded. */
  lemma PushActs(items: seq<Item>, local: map<Rel, LocalFile>, m: map<Rel, Entry>, p: Rel)
    requires IsPushPlan(items, local, m)
    ensures (exists it :: it in items && it.rel == p) <==>
              if p in m then !(p in local && local[p].size == m[p].size && local[p].mtime == m[p].localMtime) else p in local
    ensures forall it :: it in items && it.rel == p ==>
              if p !in local then p in m && it.op.Delete? && it.remoteID == m[p].remoteID
              else it.size == local[p].size && it.mtime == local[p].mtime
                   && (if p in m then it.op.Overwrite? && it.remoteID == m[p].remoteID else it.op.Upload?)
  {
    if LocalMeta(local, p) != BaseLocal(m, p) {
      assert CopyOut(p, Lookup(local, p), Lookup(m, p)) in items;
    }
  }

  lemma PullActs(items: seq<PullItem>, idx: map<Rel, IndexEntry>, m: map<Rel, Entry>, p: Rel)
    requires IsPullPlan(items, idx, m)
    ensures (exists it :: it in items && it.rel == p) <==>
              if p in m then !(p in idx && idx[p].size == m[p].size && idx[p].mtime == m[p].remoteMtime) else p in idx
    ensures forall it :: it in items && it.rel == p ==>
              if p in idx then it.op.Download? && it.remoteID == idx[p].id && it.size == idx[p].size && it.remoteMtime == idx[p].mtime
              else it.op.DeleteLocal?
  {
    if RemoteMeta(idx, p) != BaseRemote(m, p) {
      assert CopyIn(p, Lookup(idx, p)) in items;
    }
  }

  // ---- Local files by path ----

  /** The files of a walk by their path; the last of two with the same path wins. */
  function IndexOf(local: seq<LocalFile>): map<Rel, LocalFile> {
    if local == [] then map[] else IndexOf(local[..|local| - 1])[local[|local| - 1].rel := local[|local| - 1]]
  }

  method IndexLocal(local: seq<LocalFile>) returns (idx: map<Rel, LocalFile>)
    ensures idx == IndexOf(local)
  {
    idx := map[];
    for i := 0 to |local|
      invariant idx == IndexOf(local[..i])
    {
      assert local[..i + 1][..i] == local[..i];
      idx := idx[local[i].rel := local[i]];
    }
    assert local[..|local|] == local;
  }

  /** A walk reports each path once. */
  predicate UniqueWalk(local: seq<LocalFile>) {
    forall i, j :: 0 <= i < j < |local| ==> local[i].rel != local[j].rel
  }

  lemma {:induction false} IndexOfKeys(local: seq<LocalFile>)
    ensures forall p :: p in IndexOf(local) ==> IndexOf(local)[p].rel == p && IndexOf(local)[p] in local
    ensures forall f :: f in local ==> f.rel in IndexOf(local)
    ensures UniqueWalk(local) ==> forall f :: f in local ==> IndexOf(local)[f.rel] == f
  {
    if local != [] {
      IndexOfKeys(local[..|local| - 1]);
      assert forall f :: f in local <==> f == local[|local| - 1] || f in local[..|local| - 1];
    }
  }

  // ---- Push ----

  method PlanPush(local: seq<LocalFile>, m: Manifest) returns (items: seq<Item>)
    requires UniqueWalk(local)
    ensures IsPushPlan(items, IndexOf(local), m.entries)
  {
    items := [];
    var seen: set<Rel> := {};
    ghost var idx, scope: iset<Rel> := IndexOf(local), iset{};
    IndexOfKeys(local);
    for i := 0 to |local|
      invariant forall p :: p in seen <==> p in scope
      invariant forall p :: p in seen <==> exists j :: 0 <= j < i && local[j].rel == p
      invariant PushPlanOn(items, idx, m.entries, scope)
    {
      var f := local[i];
      assert f in local;
      assert f.rel !in scope && idx[f.rel] == f;
      seen := seen + {f.rel};
      WidenPushPlan(items, idx, m.entries, scope, f.rel);
      scope := scope + iset{f.rel};
      var e := m.Get(f.rel);
      match e {
        case None => items := items + [Item(f.rel, Upload, 0, f.size, f.mtime, "")];
        case Some(b) =>
          if f.size != b.size || f.mtime != b.localMtime {
            items := items + [Item(f.rel, Overwrite, b.remoteID, f.size, f.mtime, "")];
          }
      }
    }
    SeenAll(local, seen);
    assert scope == iset p | p in seen;
    items := PlanDeletes(items, seen, m, idx);
  }

  /** The second half of PlanPush: a delete for every tracked path the walk did not see. */
  method PlanDeletes(seenItems: seq<Item>, seen: set<Rel>, m: Manifest, ghost idx: map<Rel, LocalFile>) returns (items: seq<Item>)
    requires forall p :: p in seen <==> p in idx
    requires PushPlanOn(seenItems, idx, m.entries, iset p | p in seen)
    ensures IsPushPlan(items, idx, m.entries)
  {
    items := seenItems;
    ghost var scope := iset p | p in seen || p !in m.entries;
    var todo := m.entries.Keys;
    while todo != {}
      invariant todo <= m.entries.Keys
      invariant scope == iset p | p in seen || p !in todo
      invariant PushPlanOn(items, idx, m.entries, scope)
      decreases |todo|
    {
      var rel :| rel in todo;
      todo := todo - {rel};
      if rel !in seen {
        WidenPushPlan(items, idx, m.entries, scope, rel);
        items := items + [Item(rel, Delete, m.entries[rel].remoteID, 0, 0, "")];
      }
      scope := scope + iset{rel};
    }
  }

  lemma SeenAll(local: seq<LocalFile>, seen: set<Rel>)
    requires forall p :: p in seen <==> exists j :: 0 <= j < |local| && local[j].rel == p
    ensures forall p :: p in seen <==> p in IndexOf(local)
  {
    IndexOfKeys(local);
    forall p ensures p in seen <==> p in IndexOf(local) {
      if p in IndexOf(local) {
        var j :| 0 <= j < |local| && local[j] == IndexOf(local)[p];
      } else {
        assert forall j :: 0 <= j < |local| ==> local[j] in local;
      }
    }
  }

  /** A push plan as far as the paths in `scope` go. */
  ghost predicate PushPlanOn(items: seq<Item>, local: map<Rel, LocalFile>, m: map<Rel, Entry>, scope: iset<Rel>) {
    && DistinctRels(items)
    && (forall it :: it in items ==>
          it.rel in scope && LocalMeta(local, it.rel) != BaseLocal(m, it.rel) && it == CopyOut(it.rel, Lookup(local, it.rel), Lookup(m, it.rel)))
    && (forall p :: p in scope && LocalMeta(local, p) != BaseLocal(m, p) ==> CopyOut(p, Lookup(local, p), Lookup(m, p)) in items)
  }

  lemma WidenPushPlan(items: seq<Item>, local: map<Rel, LocalFile>, m: map<Rel, Entry>, scope: iset<Rel>, p: Rel)
    requires PushPlanOn(items, local, m, scope) && p !in scope
    ensures LocalMeta(local, p) == BaseLocal(m, p) ==> PushPlanOn(items, local, m, scope + iset{p})
    ensures LocalMeta(local, p) != BaseLocal(m, p) ==>
              PushPlanOn(items + [CopyOut(p, Lookup(local, p), Lookup(m, p))], local, m, scope + iset{p})
  {
    var x := CopyOut(p, Lookup(local, p), Lookup(m, p));
    assert forall it :: it in items + [x] <==> it in items || it == x;
    assert DistinctRels(items + [x]) by {
      assert forall i :: 0 <= i < |items| ==> items[i] in items;
    }
  }

  /** A pull plan as far as the paths in `scope` go. */
  ghost predicate PullPlanOn(items: seq<PullItem>, idx: map<Rel, IndexEntry>, m: map<Rel, Entry>, scope: iset<Rel>) {
    && DistinctPullRels(items)
    && (forall it :: it in items ==>
          it.rel in scope && RemoteMeta(idx, it.rel) != BaseRemote(m, it.rel) && it == CopyIn(it.rel, Lookup(idx, it.rel)))
    && (forall p :: p in scope && RemoteMeta(idx, p) != BaseRemote(m, p) ==> CopyIn(p, Lookup(idx, p)) in items)
  }

  lemma WidenPullPlan(items: seq<PullItem>, idx: map<Rel, IndexEntry>, m: map<Rel, Entry>, scope: iset<Rel>, p: Rel)
    requires PullPlanOn(items, idx, m, scope) && p !in scope
    ensures RemoteMeta(idx, p) == BaseRemote(m, p) ==> PullPlanOn(items, idx, m, scope + iset{p})
    ensures RemoteMeta(idx, p) != BaseRemote(m, p) ==> PullPlanOn(items + [CopyIn(p, Lookup(idx, p))], idx, m, scope + iset{p})
  {
    var x := CopyIn(p, Lookup(idx, p));
    assert forall it :: it in items + [x] <==> it in items || it == x;
    assert DistinctPullRels(items + [x]) by {
      assert forall i :: 0 <= i < |items| ==> items[i] in items;
    }
  }

  /** Seeds the baseline with every local file that the index knows. */
  method Bootstrap(m: Manifest, idx: map<Rel, IndexEntry>, local: seq<LocalFile>)
    modifies m
    ensures m.entries == Bootstrapped(old(m.entries), idx, IndexOf(local))
  {
    for i := 0 to |local|
      invariant m.entries == Bootstrapped(old(m.entries), idx, IndexOf(local[..i]))
    {
      var f := local[i];
      assert local[..i + 1][..i] == local[..i];
      BootstrapOne(old(m.entries), idx, IndexOf(local[..i]), f);
      if f.rel in idx {
        var r := idx[f.rel];
        m.Set(f.rel, Entry(r.size, f.mtime, r.id, r.mtime));
      }
    }
    assert local[..|local|] == local;
  }

  function Bootstrapped(m: map<Rel, Entry>, idx: map<Rel, IndexEntry>, local: map<Rel, LocalFile>): map<Rel, Entry> {
    m + map p | p in local && p in idx :: Entry(idx[p].size, local[p].mtime, idx[p].id, idx[p].mtime)
  }

  /** A seeded entry describes both copies of its path; every other entry stays. */
  lemma SeededFromBoth(m: map<Rel, Entry>, idx: map<Rel, IndexEntry>, local: map<Rel, LocalFile>, p: Rel)
    ensures var b := Bootstrapped(m, idx, local);
            if p in local && p in idx
            then && BaseRemote(b, p) == RemoteMeta(idx, p) && b[p].remoteID == idx[p].id && b[p].localMtime == local[p].mtime
                 && (BaseLocal(b, p) == LocalMeta(local, p) <==> idx[p].size == local[p].size)
            else Lookup(b, p) == Lookup(m, p)
  {
  }

  /** The first push of a tree that is there already uploads what the drive does not have, overwrites what has another
      size there, and does nothing else; without seeding it uploads everything. */
  lemma FirstPushPlan(items: seq<Item>, whole: seq<Item>, idx: map<Rel, IndexEntry>, local: map<Rel, LocalFile>, p: Rel)
    requires IsPushPlan(items, local, Bootstrapped(map[], idx, local)) && IsPushPlan(whole, local, map[])
    ensures (exists it :: it in items && it.rel == p && it.op.Upload?) <==> p in local && p !in idx
    ensures (exists it :: it in items && it.rel == p && it.op.Overwrite?) <==> p in local && p in idx && idx[p].size != local[p].size
    ensures forall it :: it in items ==> it.op.Upload? || it.op.Overwrite?
    ensures (exists it :: it in whole && it.rel == p) <==> p in local
    ensures forall it :: it in whole ==> it.op.Upload?
  {
    var b := Bootstrapped(map[], idx, local);
    SeededFromBoth(map[], idx, local, p);
    assert p in local && p !in idx ==> CopyOut(p, Lookup(local, p), Lookup(b, p)) in items;
    assert p in local && p in idx && idx[p].size != local[p].size ==> CopyOut(p, Lookup(local, p), Lookup(b, p)) in items;
    assert p in local ==> CopyOut(p, Lookup(local, p), Lookup(map[], p)) in whole;
    forall it | it in items ensures it.op.Upload? || it.op.Overwrite? {
      SeededFromBoth(map[], idx, local, it.rel);
    }
  }

  lemma BootstrapOne(m: map<Rel, Entry>, idx: map<Rel, IndexEntry>, local: map<Rel, LocalFile>, f: LocalFile)
    ensures Bootstrapped(m, idx, local[f.rel := f]) ==
            if f.rel in idx then Bootstrapped(m, idx, local)[f.rel := Entry(idx[f.rel].size, f.mtime, idx[f.rel].id, idx[f.rel].mtime)]
            else Bootstrapped(m, idx, local)
  {
  }

  // ---- Pull ----

  method PlanPull(idx: map<Rel, IndexEntry>, m: Manifest) returns (items: seq<PullItem>)
    ensures IsPullPlan(items, idx, m.entries)
  {
    items := [];
    var todo := idx.Keys;
    ghost var scope: iset<Rel> := iset{};
    while todo != {}
      invariant todo <= idx.Keys
      invariant scope == iset p | p in idx && p !in todo
      invariant PullPlanOn(items, idx, m.entries, scope)
      decreases |todo|
    {
      var rel :| rel in todo;
      todo := todo - {rel};
      WidenPullPlan(items, idx, m.entries, scope, rel);
      scope := scope + iset{rel};
      var r := idx[rel];
      var e := m.Get(rel);
      if e == None || r.size != e.value.size || r.mtime != e.value.remoteMtime {
        items := items + [PullItem(rel, Download, r.id, r.size, r.mtime)];
      }
    }
    todo := m.entries.Keys;
    scope := iset p | p in idx || p !in todo;
    while todo != {}
      invariant todo <= m.entries.Keys
      invariant scope == iset p | p in idx || p !in todo
      invariant PullPlanOn(items, idx, m.entries, scope)
      decreases |todo|
    {
      var rel :| rel in todo;
      todo := todo - {rel};
      if rel !in idx {
        WidenPullPlan(items, idx, m.entries, scope, rel);
        items := items + [PullItem(rel, DeleteLocal, 0, 0, 0)];
      }
      scope := scope + iset{rel};
    }
  }

  // ---- Filters ----

  /** The elements of `s` that satisfy `f`, in order. */
  function Filter<T>(f: T -> bool, s: seq<T>): seq<T> {
    if s == [] then []
    else Filter(f, s[..|s| - 1]) + (if f(s[|s| - 1]) then [s[|s| - 1]] else [])
  }

  lemma {:induction false} FilterMembers<T>(f: T -> bool, s: seq<T>)
    ensures forall x :: x in Filter(f, s) <==> x in s && f(x)
    ensures |Filter(f, s)| <= |s|
  {
    if s != [] {
      FilterMembers(f, s[..|s| - 1]);
      assert forall x :: x in s <==> x == s[|s| - 1] || x in s[..|s| - 1];
    }
  }

  /** The positions of the items of a kind. */
  function Where<T>(f: T -> bool, s: seq<T>): set<int> {
    set i | 0 <= i < |s| && f(s[i])
  }

  lemma WhereLast<T>(f: T -> bool, s: seq<T>)
    requires s != []
    ensures var n := |s| - 1; Where(f, s) == Where(f, s[..n]) + (if f(s[n]) then {n} else {}) && n !in Where(f, s[..n])
  {
  }

  lemma {:induction false} FilterCounts<T>(f: T -> bool, s: seq<T>)
    ensures |Filter(f, s)| == |Where(f, s)|
  {
    if s != [] {
      FilterCounts(f, s[..|s| - 1]);
      WhereLast(f, s);
    }
  }

  lemma {:induction false} FilterKeepsDistinct(f: Item -> bool, s: seq<Item>)
    requires DistinctRels(s)
    ensures DistinctRels(Filter(f, s))
  {
    if s != [] {
      var n := |s| - 1;
      FilterKeepsDistinct(f, s[..n]);
      FilterMembers(f, s[..n]);
      assert forall x :: x in s[..n] ==> x.rel != s[n].rel;
      assert forall x :: x in Filter(f, s[..n]) ==> x.rel != s[n].rel;
    }
  }

  lemma {:induction false} FilterKeepsDistinctPull(f: PullItem -> bool, s: seq<PullItem>)
    requires DistinctPullRels(s)
    ensures DistinctPullRels(Filter(f, s))
  {
    if s != [] {
      var n := |s| - 1;
      FilterKeepsDistinctPull(f, s[..n]);
      FilterMembers(f, s[..n]);
      assert forall x :: x in s[..n] ==> x.rel != s[n].rel;
      assert forall x :: x in Filter(f, s[..n]) ==> x.rel != s[n].rel;
    }
  }

  const NotDelete: Item -> bool := (it: Item) => !it.op.Delete?
  const NotPullDelete: PullItem -> bool := (it: PullItem) => !it.op.DeleteLocal?

  method DropDeletes(items: seq<Item>) returns (kept: seq<Item>)
    ensures kept == Filter(NotDelete, items)
  {
    kept := [];
    for i := 0 to |items|
      invariant kept == Filter(NotDelete, items[..i])
    {
      assert items[..i + 1][..i] == items[..i];
      if !items[i].op.Delete? {
        kept := kept + [items[i]];
      }
    }
    assert items[..|items|] == items;
  }

  method DropPullDeletes(items: seq<PullItem>) returns (kept: seq<PullItem>)
    ensures kept == Filter(NotPullDelete, items)
  {
    kept := [];
    for i := 0 to |items|
      invariant kept == Filter(NotPullDelete, items[..i])
    {
      assert items[..i + 1][..i] == items[..i];
      if !items[i].op.DeleteLocal? {
        kept := kept + [items[i]];
      }
    }
    assert items[..|items|] == items;
  }

  /** Turning deletes off drops them and nothing else. */
  lemma NoDeletesAre(items: seq<Item>, pulls: seq<PullItem>)
    ensures forall it :: it in Filter(NotDelete, items) <==> it in items && !it.op.Delete?
    ensures forall it :: it in Filter(NotPullDelete, pulls) <==> it in pulls && !it.op.DeleteLocal?
  {
    FilterMembers(NotDelete, items);
    FilterMembers(NotPullDelete, pulls);
  }

  /** The answer to a stat by id. */
  datatype Stat = Info(size: int, mtime: int) | Gone | Failed

  /** Whether a push may carry out `it`: it does not replace or remove a remote file that is not, by size and
      mtime, the one the baseline recorded. */
  function Undrifted(m: map<Rel, Entry>, stat: int -> Stat): Item -> bool {
    (it: Item) =>
      (it.op.Overwrite? || it.op.Delete?) ==>
        match stat(it.remoteID)
        case Gone => it.op.Delete?
        case Failed => false
        case Info(size, mtime) => it.rel in m ==> Some(Meta(size, mtime)) == BaseRemote(m, it.rel)
  }

  /** Which items an unforced push carries out: every upload and move; an overwrite or delete of an untracked path, or of
      a remote file that has the recorded size and mtime; and a delete of a file that is gone. */
  lemma UndriftedAre(m: map<Rel, Entry>, stat: int -> Stat, items: seq<Item>, it: Item)
    ensures it in Filter(Undrifted(m, stat), items) <==>
              && it in items
              && (it.op.Upload? || it.op.Move?
                  || (it.op.Delete? && stat(it.remoteID) == Gone)
                  || (it.rel !in m && stat(it.remoteID).Info?)
                  || (it.rel in m && stat(it.remoteID) == Info(m[it.rel].size, m[it.rel].remoteMtime)))
  {
    FilterMembers(Undrifted(m, stat), items);
  }

  /** Drops what would overwrite or delete a remote file changed by others; gives up on an unexpected stat error. */
  method FilterPushDrift(items: seq<Item>, m: Manifest, stat: int -> Stat) returns (r: Option<seq<Item>>)
    ensures r.None? <==> exists it :: it in items && (it.op.Overwrite? || it.op.Delete?) && stat(it.remoteID) == Failed
    ensures r.Some? ==> r.value == Filter(Undrifted(m.entries, stat), items)
  {
    var kept: seq<Item> := [];
    for i := 0 to |items|
      invariant forall it :: it in items[..i] && (it.op.Overwrite? || it.op.Delete?) ==> stat(it.remoteID) != Failed
      invariant kept == Filter(Undrifted(m.entries, stat), items[..i])
    {
      var it := items[i];
      assert items[..i + 1][..i] == items[..i];
      if !it.op.Overwrite? && !it.op.Delete? {
        kept := kept + [it];
        continue;
      }
      match stat(it.remoteID) {
        case Gone =>
          if it.op.Delete? {
            kept := kept + [it];
          }
        case Failed =>
          return None;
        case Info(size, mtime) =>
          var e := m.Get(it.rel);
          if e == None {
            kept := kept + [it];
          } else if mtime == e.value.remoteMtime && size == e.value.size {
            kept := kept + [it];
          }
      }
    }
    assert items[..|items|] == items;
    r := Some(kept);
  }

  /** Whether a pull may carry out `it`: it does not write over a local file that is not the one the baseline
      recorded. Deletions are not looked at. */
  function Unedited(m: map<Rel, Entry>, local: map<Rel, LocalFile>): PullItem -> bool {
    (it: PullItem) => it.op.Download? && it.rel in local ==> LocalMeta(local, it.rel) == BaseLocal(m, it.rel)
  }

  /** Which items an unforced pull carries out: every delete; and every download to a path where there is no file, or a
      tracked one that has the recorded size and mtime. */
  lemma UneditedAre(m: map<Rel, Entry>, local: map<Rel, LocalFile>, items: seq<PullItem>, it: PullItem)
    ensures it in Filter(Unedited(m, local), items) <==>
              && it in items
              && (it.op.DeleteLocal? || it.rel !in local
                  || (it.rel in m && local[it.rel].size == m[it.rel].size && local[it.rel].mtime == m[it.rel].localMtime))
  {
    FilterMembers(Unedited(m, local), items);
  }

  method FilterDrift(items: seq<PullItem>, local: map<Rel, LocalFile>, m: Manifest) returns (kept: seq<PullItem>)
    ensures kept == Filter(Unedited(m.entries, local), items)
  {
    kept := [];
    for i := 0 to |items|
      invariant kept == Filter(Unedited(m.entries, local), items[..i])
    {
      var it := items[i];
      assert items[..i + 1][..i] == items[..i];
      if it.op.Download? && it.rel in local {
        var e := m.Get(it.rel);
        if e == None || local[it.rel].size != e.value.size || local[it.rel].mtime != e.value.localMtime {
          continue;
        }
      }
      kept := kept + [it];
    }
    assert items[..|items|] == items;
  }
}
