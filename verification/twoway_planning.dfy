/**
 The two-way planner against a three-way merge of each path: the baseline decides which side changed, a change on
 one side is copied to the other, a path gone on both sides is forgotten, and anything else is a conflict.
 */
module TwoWayPlanning {
  import opened Types
  import opened Manifests
  import opened Planning
  import opened Ordering

  datatype Verdict = InSync | TakeLocal | TakeRemote | Forget | Conflict

  /** The merge rule, on what each side looks like now and looked like at the last sync. */
  function Merge(l: Option<Meta>, r: Option<Meta>, baseL: Option<Meta>, baseR: Option<Meta>): Verdict {
    if l == baseL && r == baseR then InSync
    else if r == baseR then TakeLocal
    else if l == baseL then TakeRemote
    else if l == None && r == None then Forget
    else Conflict
  }

  function VerdictAt(local: map<Rel, LocalFile>, idx: map<Rel, IndexEntry>, m: map<Rel, Entry>, p: Rel): Verdict {
    Merge(LocalMeta(local, p), RemoteMeta(idx, p), BaseLocal(m, p), BaseRemote(m, p))
  }

  datatype Plan = Plan(push: seq<Item>, pull: seq<PullItem>, conflicts: seq<Rel>)

  ghost predicate PushPart(push: seq<Item>, local: map<Rel, LocalFile>, idx: map<Rel, IndexEntry>, m: map<Rel, Entry>, seen: set<Rel>) {
    && DistinctRels(push)
    && (forall it :: it in push ==> it.rel in seen && VerdictAt(local, idx, m, it.rel).TakeLocal?
                                    && it == CopyOut(it.rel, Lookup(local, it.rel), Lookup(m, it.rel)))
    && (forall p :: p in seen && VerdictAt(local, idx, m, p).TakeLocal? ==> CopyOut(p, Lookup(local, p), Lookup(m, p)) in push)
  }

  ghost predicate PullPart(pull: seq<PullItem>, local: map<Rel, LocalFile>, idx: map<Rel, IndexEntry>, m: map<Rel, Entry>, seen: set<Rel>) {
    && DistinctPullRels(pull)
    && (forall it :: it in pull ==> it.rel in seen && (VerdictAt(local, idx, m, it.rel).TakeRemote? || VerdictAt(local, idx, m, it.rel).Forget?)
                                    && it == CopyIn(it.rel, Lookup(idx, it.rel)))
    && (forall p :: p in seen && (VerdictAt(local, idx, m, p).TakeRemote? || VerdictAt(local, idx, m, p).Forget?) ==>
          CopyIn(p, Lookup(idx, p)) in pull)
  }

  ghost predicate ConflictPart(conflicts: seq<Rel>, local: map<Rel, LocalFile>, idx: map<Rel, IndexEntry>, m: map<Rel, Entry>, seen: set<Rel>) {
    && Distinct(conflicts)
    && (forall p :: p in conflicts <==> p in seen && VerdictAt(local, idx, m, p).Conflict?)
  }

  /** The plan sorts every path, by its verdict, into push, pull, conflicts or none of them, with the right action. */
  ghost predicate IsPlan(plan: Plan, local: map<Rel, LocalFile>, idx: map<Rel, IndexEntry>, m: map<Rel, Entry>) {
    var all := local.Keys + idx.Keys + m.Keys;
    && PushPart(plan.push, local, idx, m, all)
    && PullPart(plan.pull, local, idx, m, all)
    && ConflictPart(plan.conflicts, local, idx, m, all)
    && Sorted(plan.conflicts)
  }

  /** The classification of one path, by the flags the planner computes, is the merge of that path. */
  method Classify(rel: Rel, l: Option<LocalFile>, r: Option<IndexEntry>, b: Option<Entry>, plan: Plan) returns (p: Plan)
    ensures
      var verdict := Merge(
        if l.Some? then Some(Meta(l.value.size, l.value.mtime)) else None,
        if r.Some? then Some(Meta(r.value.size, r.value.mtime)) else None,
        if b.Some? then Some(Meta(b.value.size, b.value.localMtime)) else None,
        if b.Some? then Some(Meta(b.value.size, b.value.remoteMtime)) else None);
      p == match verdict
           case InSync => plan
           case TakeLocal => plan.(push := plan.push + [CopyOut(rel, l, b)])
           case TakeRemote => plan.(pull := plan.pull + [CopyIn(rel, r)])
           case Forget => plan.(pull := plan.pull + [CopyIn(rel, r)])
           case Conflict => plan.(conflicts := plan.conflicts + [rel])
  {
    p := plan;
    var lnew := b.None? && l.Some?;
    var ldel := b.Some? && l.None?;
    var lmod := b.Some? && l.Some? && (l.value.size != b.value.size || l.value.mtime != b.value.localMtime);
    var localChanged := lnew || ldel || lmod;
    var rnew := b.None? && r.Some?;
    var rdel := b.Some? && r.None?;
    var rmod := b.Some? && r.Some? && (r.value.size != b.value.size || r.value.mtime != b.value.remoteMtime);
    var remoteChanged := rnew || rdel || rmod;

    if !localChanged && !remoteChanged {
    } else if localChanged && !remoteChanged {
      if lnew {
        p := p.(push := p.push + [Item(rel, Upload, 0, l.value.size, l.value.mtime, "")]);
      } else if lmod {
        p := p.(push := p.push + [Item(rel, Overwrite, b.value.remoteID, l.value.size, l.value.mtime, "")]);
      } else if ldel {
        p := p.(push := p.push + [Item(rel, Delete, b.value.remoteID, 0, 0, "")]);
      }
    } else if remoteChanged && !localChanged {
      if rnew || rmod {
        p := p.(pull := p.pull + [PullItem(rel, Download, r.value.id, r.value.size, r.value.mtime)]);
      } else if rdel {
        p := p.(pull := p.pull + [PullItem(rel, DeleteLocal, 0, 0, 0)]);
      }
    } else if ldel && rdel {
      p := p.(pull := p.pull + [PullItem(rel, DeleteLocal, 0, 0, 0)]);
    } else {
      p := p.(conflicts := p.conflicts + [rel]);
    }
  }

  /** The plan for the paths in `seen`, its conflicts not sorted yet. */
  ghost predicate Partial(plan: Plan, local: map<Rel, LocalFile>, idx: map<Rel, IndexEntry>, m: map<Rel, Entry>, seen: set<Rel>) {
    && PushPart(plan.push, local, idx, m, seen)
    && PullPart(plan.pull, local, idx, m, seen)
    && ConflictPart(plan.conflicts, local, idx, m, seen)
  }

  method AddPath(rel: Rel, local: map<Rel, LocalFile>, idx: map<Rel, IndexEntry>, m: Manifest, plan: Plan, ghost seen: set<Rel>)
    returns (p: Plan)
    requires rel !in seen && Partial(plan, local, idx, m.entries, seen)
    ensures Partial(p, local, idx, m.entries, seen + {rel})
  {
    var b := m.Get(rel);
    p := Classify(rel, Lookup(local, rel), Lookup(idx, rel), b, plan);
    PushGrows(plan.push, rel, local, idx, m.entries, seen);
    PullGrows(plan.pull, rel, local, idx, m.entries, seen);
    ConflictsGrow(plan.conflicts, rel, local, idx, m.entries, seen);
  }

  lemma PushGrows(push: seq<Item>, rel: Rel, local: map<Rel, LocalFile>, idx: map<Rel, IndexEntry>, m: map<Rel, Entry>, seen: set<Rel>)
    requires rel !in seen && PushPart(push, local, idx, m, seen)
    ensures PushPart(if VerdictAt(local, idx, m, rel).TakeLocal? then push + [CopyOut(rel, Lookup(local, rel), Lookup(m, rel))] else push,
                     local, idx, m, seen + {rel})
  {
  }

  lemma PullGrows(pull: seq<PullItem>, rel: Rel, local: map<Rel, LocalFile>, idx: map<Rel, IndexEntry>, m: map<Rel, Entry>, seen: set<Rel>)
    requires rel !in seen && PullPart(pull, local, idx, m, seen)
    ensures PullPart(if VerdictAt(local, idx, m, rel).TakeRemote? || VerdictAt(local, idx, m, rel).Forget?
                     then pull + [CopyIn(rel, Lookup(idx, rel))] else pull, local, idx, m, seen + {rel})
  {
  }

  lemma ConflictsGrow(conflicts: seq<Rel>, rel: Rel, local: map<Rel, LocalFile>, idx: map<Rel, IndexEntry>, m: map<Rel, Entry>, seen: set<Rel>)
    requires rel !in seen && ConflictPart(conflicts, local, idx, m, seen)
    ensures ConflictPart(if VerdictAt(local, idx, m, rel).Conflict? then conflicts + [rel] else conflicts, local, idx, m, seen + {rel})
  {
  }

  method PlanTwoWay(local: seq<LocalFile>, idx: map<Rel, IndexEntry>, m: Manifest) returns (plan: Plan)
    ensures IsPlan(plan, IndexOf(local), idx, m.entries)
  {
    var localIdx := IndexLocal(local);
    var rels := localIdx.Keys + idx.Keys + m.entries.Keys;
    plan := Plan([], [], []);
    var todo := rels;
    ghost var seen: set<Rel> := {};
    while todo != {}
      invariant todo !! seen && todo + seen == rels
      invariant Partial(plan, localIdx, idx, m.entries, seen)
      decreases |todo|
    {
      var rel :| rel in todo;
      plan := AddPath(rel, localIdx, idx, m, plan, seen);
      todo, seen := todo - {rel}, seen + {rel};
    }
    assert seen == rels;
    plan := SortConflicts(plan, localIdx, idx, m.entries);
  }

  method SortConflicts(plan: Plan, ghost local: map<Rel, LocalFile>, ghost idx: map<Rel, IndexEntry>, ghost m: map<Rel, Entry>)
    returns (p: Plan)
    requires Partial(plan, local, idx, m, local.Keys + idx.Keys + m.Keys)
    ensures IsPlan(p, local, idx, m)
    ensures p.push == plan.push && p.pull == plan.pull
  {
    var conflicts := Sort(plan.conflicts);
    DistinctByMultiset(plan.conflicts, conflicts);
    SameMembers(plan.conflicts, conflicts);
    p := plan.(conflicts := conflicts);
  }

  lemma SameMembers(a: seq<Rel>, b: seq<Rel>)
    requires multiset(a) == multiset(b)
    ensures forall x :: x in a <==> x in b
  {
    forall x ensures x in a <==> x in b {
      assert x in a <==> x in multiset(a);
      assert x in b <==> x in multiset(b);
    }
  }

  /** Push, pull and conflicts share no path, and a path is in none of them exactly when both sides look as the
      baseline says. */
  lemma PlanPartitions(plan: Plan, local: map<Rel, LocalFile>, idx: map<Rel, IndexEntry>, m: map<Rel, Entry>, p: Rel)
    requires IsPlan(plan, local, idx, m)
    ensures var pushed, pulled, conflicted := (exists it :: it in plan.push && it.rel == p), (exists it :: it in plan.pull && it.rel == p), p in plan.conflicts;
            && !(pushed && pulled) && !(pushed && conflicted) && !(pulled && conflicted)
            && (pushed || pulled || conflicted <==>
                  !(LocalMeta(local, p) == BaseLocal(m, p) && RemoteMeta(idx, p) == BaseRemote(m, p)))
  {
    if p in local.Keys + idx.Keys + m.Keys {
      assert VerdictAt(local, idx, m, p).TakeLocal? ==> CopyOut(p, Lookup(local, p), Lookup(m, p)) in plan.push;
      assert VerdictAt(local, idx, m, p).TakeRemote? || VerdictAt(local, idx, m, p).Forget? ==> CopyIn(p, Lookup(idx, p)) in plan.pull;
    }
  }

  /** What is planned for a path, from what each side looks like and what was recorded: the local side is copied out
      exactly if it alone changed; the remote side is copied in, or a path gone on both sides forgotten, exactly if the
      remote side alone changed or the path is gone on both; and a conflict is a change of both sides that leaves a
      file on one of them. */
  lemma PlanActs(plan: Plan, local: map<Rel, LocalFile>, idx: map<Rel, IndexEntry>, m: map<Rel, Entry>, p: Rel)
    requires IsPlan(plan, local, idx, m)
    ensures var (localChanged, remoteChanged) := (LocalMeta(local, p) != BaseLocal(m, p), RemoteMeta(idx, p) != BaseRemote(m, p));
            var gone := p !in local && p !in idx;
            && ((exists it :: it in plan.push && it.rel == p) <==> localChanged && !remoteChanged)
            && ((exists it :: it in plan.pull && it.rel == p) <==> remoteChanged && (!localChanged || gone))
            && (p in plan.conflicts <==> localChanged && remoteChanged && !gone)
    ensures forall it :: it in plan.push && it.rel == p ==>
              if p !in local then p in m && it.op.Delete? && it.remoteID == m[p].remoteID
              else it.size == local[p].size && it.mtime == local[p].mtime
                   && (if p in m then it.op.Overwrite? && it.remoteID == m[p].remoteID else it.op.Upload?)
    ensures forall it :: it in plan.pull && it.rel == p ==>
              if p in idx then it.op.Download? && it.remoteID == idx[p].id && it.remoteMtime == idx[p].mtime else it.op.DeleteLocal?
  {
    if p in local.Keys + idx.Keys + m.Keys {
      assert VerdictAt(local, idx, m, p).TakeLocal? ==> CopyOut(p, Lookup(local, p), Lookup(m, p)) in plan.push;
      assert VerdictAt(local, idx, m, p).TakeRemote? || VerdictAt(local, idx, m, p).Forget? ==> CopyIn(p, Lookup(idx, p)) in plan.pull;
    }
  }

  // ---- The first run ----

  /** Paths on both sides with one size count as synced when there is no baseline at all. */
  function Seeded(m: map<Rel, Entry>, idx: map<Rel, IndexEntry>, local: map<Rel, LocalFile>): map<Rel, Entry> {
    m + map p | p in local && p in idx && idx[p].size == local[p].size ::
          Entry(idx[p].size, local[p].mtime, idx[p].id, idx[p].mtime)
  }

  method SeedSynced(m: Manifest, idx: map<Rel, IndexEntry>, local: seq<LocalFile>)
    requires UniqueWalk(local)
    modifies m
    ensures m.entries == Seeded(old(m.entries), idx, IndexOf(local))
  {
    IndexOfKeys(local);
    for i := 0 to |local|
      invariant m.entries == Seeded(old(m.entries), idx, IndexOf(local[..i]))
    {
      var f := local[i];
      assert local[..i + 1][..i] == local[..i];
      IndexOfKeys(local[..i]);
      assert f.rel !in IndexOf(local[..i]);
      SeedOne(old(m.entries), idx, IndexOf(local[..i]), f);
      if f.rel in idx && idx[f.rel].size == f.size {
        var r := idx[f.rel];
        m.Set(f.rel, Entry(r.size, f.mtime, r.id, r.mtime));
      }
    }
    assert local[..|local|] == local;
  }

  lemma SeedOne(m: map<Rel, Entry>, idx: map<Rel, IndexEntry>, local: map<Rel, LocalFile>, f: LocalFile)
    requires f.rel !in local
    ensures Seeded(m, idx, local[f.rel := f]) ==
            if f.rel in idx && idx[f.rel].size == f.size
            then Seeded(m, idx, local)[f.rel := Entry(idx[f.rel].size, f.mtime, idx[f.rel].id, idx[f.rel].mtime)]
            else Seeded(m, idx, local)
  {
  }
}
