/** After a run in which every item succeeded there is nothing left to copy or delete. */
module TwoWayFixpoint {
  import opened Types
  import opened Paths
  import opened Ordering
  import opened Pool
  import opened Worlds
  import opened Collecting
  import opened Planning
  import opened TwoWayPlanning
  import opened MovePlanning
  import opened TwoWay
  import opened TwoWayCrash
  import opened Verifying

  /** A run of the full plan in which every item succeeded, all of it recorded. */
  ghost predicate CompleteRun(w: World, disk: map<Rel, Entry>, plan: Plan, jobs: seq<Job>, log: seq<Outcome>, rec: seq<Outcome>) {
    && Planned(w, NextBaseline(w, disk), plan, false, jobs)
    && Execution(w, jobs, log) && DistinctKeys(log) && DistinctKeys(rec)
    && (forall o :: o in rec <==> o in log)
    && KeysInRange(jobs, rec)
    && forall k: nat :: k < |jobs| ==> Succeeded(log, k)
  }

  /** In a complete run exactly the paths that called for an action have had it. */
  lemma ActedPaths(w: World, disk: map<Rel, Entry>, plan: Plan, jobs: seq<Job>, log: seq<Outcome>, rec: seq<Outcome>, p: Rel)
    requires Ready(w, disk) && CompleteRun(w, disk, plan, jobs, log, rec)
    ensures var v := VerdictOf(w, NextBaseline(w, disk), p); v.InSync? || v.Conflict? || DoneAt(jobs, log, p)
  {
    var m := NextBaseline(w, disk);
    var v := VerdictOf(w, m, p);
    if !v.InSync? && !v.Conflict? {
      var k := ItemOf(w, m, plan, p);
      assert jobs[k].Rel() == p;
      assert Succeeded(log, k);
      var i :| 0 <= i < |log| && log[i].k == k && log[i].ok;
      assert DoneBy(jobs, log, p, log[i]);
    }
  }

  /** The item planned for a path that needs one. */
  lemma ItemOf(w: World, m: map<Rel, Entry>, plan: Plan, p: Rel) returns (k: nat)
    requires IsPlan(plan, WalkOf(w), IndexOfRemote(w), m)
    requires !VerdictOf(w, m, p).InSync? && !VerdictOf(w, m, p).Conflict?
    ensures k < |PlanJobs(plan)| && PlanJobs(plan)[k].Rel() == p
  {
    ActionPlanned(w, m, plan, p);
    if VerdictOf(w, m, p).TakeLocal? {
      k := PlaceOfPush(plan, CopyOut(p, Lookup(WalkOf(w), p), Lookup(m, p)));
    } else {
      k := PlaceOfPull(plan, CopyIn(p, Lookup(IndexOfRemote(w), p)));
    }
  }

  lemma ActionPlanned(w: World, m: map<Rel, Entry>, plan: Plan, p: Rel)
    requires IsPlan(plan, WalkOf(w), IndexOfRemote(w), m)
    ensures var v := VerdictOf(w, m, p);
            && (v.TakeLocal? ==> CopyOut(p, Lookup(WalkOf(w), p), Lookup(m, p)) in plan.push)
            && (v.TakeRemote? || v.Forget? ==> CopyIn(p, Lookup(IndexOfRemote(w), p)) in plan.pull)
  {
    if !VerdictOf(w, m, p).InSync? {
      assert p in WalkOf(w).Keys + IndexOfRemote(w).Keys + m.Keys;
    }
  }

  lemma PlaceOfPush(plan: Plan, it: Item) returns (k: nat)
    requires it in plan.push
    ensures k < |PlanJobs(plan)| && PlanJobs(plan)[k] == Push(it)
  {
    var i :| 0 <= i < |plan.push| && plan.push[i] == it;
    k := |plan.pull| + i;
  }

  lemma PlaceOfPull(plan: Plan, it: PullItem) returns (k: nat)
    requires it in plan.pull
    ensures k < |PlanJobs(plan)| && PlanJobs(plan)[k] == Pull(it)
  {
    k :| 0 <= k < |plan.pull| && plan.pull[k] == it;
  }

  /** A synced path is in sync for the planner; any other path is as it was. */
  lemma NextSpot(w: World, disk: map<Rel, Entry>, plan: Plan, jobs: seq<Job>, log: seq<Outcome>, rec: seq<Outcome>, p: Rel)
    requires Ready(w, disk) && CompleteRun(w, disk, plan, jobs, log, rec)
    ensures KeysInRange(jobs, log)
    ensures var m := NextBaseline(w, disk);
            var (w1, m1) := (WorldAfter(w, jobs, log), RecordAll(m, jobs, rec));
            && Ready(w1, m1)
            && (VerdictOf(w, m, p) == Conflict ==> SpotAt(w1, m1, p) == SpotAt(w, m, p) && VerdictOf(w1, m1, p) == Conflict)
            && (VerdictOf(w, m, p) != Conflict ==> VerdictOf(w1, m1, p) == InSync)
  {
    NextBaselineIsReady(w, disk);
    var m := NextBaseline(w, disk);
    ActedPaths(w, disk, plan, jobs, log, rec, p);
    RunRefinesMerge(w, m, plan, false, jobs, log, rec, p);
    RunKeepsReady(w, m, plan, false, jobs, log, rec);
    var w1, m1 := WorldAfter(w, jobs, log), RecordAll(m, jobs, rec);
    VerdictFromSpot(w, m, p);
    VerdictFromSpot(w1, m1, p);
    if DoneAt(jobs, log, p) {
      assert Synced(SpotAt(w1, m1, p));
    }
  }

  /** Seeding an empty manifest only settles conflicts between files of one size. */
  lemma SeedingVerdict(w: World, disk: map<Rel, Entry>, p: Rel)
    requires Ready(w, disk)
    ensures var (before, after) := (VerdictOf(w, disk, p), VerdictOf(w, NextBaseline(w, disk), p));
            && (before.InSync? ==> after.InSync?)
            && (before.Conflict? ==> after.InSync? || after.Conflict?)
            && (before.Conflict? && after.InSync? ==> disk == map[] && p in w.local && p in w.remote && |w.local[p].data| == |w.remote[p].data|)
  {
  }

  /** In the world before, an unseeded path of a first run does not have one size on both sides. */
  lemma ConflictOfFirstRun(w: World, p: Rel)
    requires Ready(w, map[]) && VerdictOf(w, NextBaseline(w, map[]), p) == Conflict
    ensures p in w.local && p in w.remote && |w.local[p].data| != |w.remote[p].data|
  {
  }

  /** The fixpoint: planning again after a complete run finds nothing to push or pull. Its conflicts are among those
      found before, and they are all of those unless the run emptied a manifest that was not empty. */
  lemma NothingLeftToDo(w: World, disk: map<Rel, Entry>, plan: Plan, jobs: seq<Job>, log: seq<Outcome>, rec: seq<Outcome>, next: Plan)
    requires Ready(w, disk) && CompleteRun(w, disk, plan, jobs, log, rec)
    requires var (w1, m1) := (WorldAfter(w, jobs, log), RecordAll(NextBaseline(w, disk), jobs, rec));
             IsPlan(next, WalkOf(w1), IndexOfRemote(w1), NextBaseline(w1, m1))
    ensures next.push == [] && next.pull == []
    ensures forall p :: p in next.conflicts ==> p in plan.conflicts
    ensures RecordAll(NextBaseline(w, disk), jobs, rec) != map[] || disk == map[] ==> next.conflicts == plan.conflicts
  {
    var m := NextBaseline(w, disk);
    NextSpot(w, disk, plan, jobs, log, rec, "");
    var w1, m1 := WorldAfter(w, jobs, log), RecordAll(m, jobs, rec);
    forall p ensures StaysPut(w, disk, w1, m1, p) {
      NextVerdict(w, disk, plan, jobs, log, rec, p);
    }
    PlanIsByVerdict(w, m, plan);
    PlanIsByVerdict(w1, NextBaseline(w1, m1), next);
    NothingPlanned(w, disk, plan, w1, m1, next);
  }

  /** The parts of a plan that matter here. */
  ghost predicate ByVerdict(w: World, m: map<Rel, Entry>, plan: Plan) {
    && (forall it :: it in plan.push ==> VerdictOf(w, m, it.rel).TakeLocal?)
    && (forall it :: it in plan.pull ==> VerdictOf(w, m, it.rel).TakeRemote? || VerdictOf(w, m, it.rel).Forget?)
    && (forall p :: p in plan.conflicts <==> VerdictOf(w, m, p).Conflict?)
    && Sorted(plan.conflicts) && Distinct(plan.conflicts)
  }

  lemma PlanIsByVerdict(w: World, m: map<Rel, Entry>, plan: Plan)
    requires IsPlan(plan, WalkOf(w), IndexOfRemote(w), m)
    ensures ByVerdict(w, m, plan)
  {
    ConflictsAre(w, m, plan);
  }

  lemma EmptyOrMember<T>(s: seq<T>)
    ensures s == [] || s[0] in s
  {
  }

  lemma NothingToCopy(w: World, disk: map<Rel, Entry>, w1: World, m1: map<Rel, Entry>, next: Plan)
    requires ByVerdict(w1, NextBaseline(w1, m1), next)
    requires forall p :: StaysPut(w, disk, w1, m1, p)
    ensures next.push == [] && next.pull == []
  {
    EmptyOrMember(next.push);
    EmptyOrMember(next.pull);
    forall it ensures it !in next.push {
      assert StaysPut(w, disk, w1, m1, it.rel);
    }
    forall it ensures it !in next.pull {
      assert StaysPut(w, disk, w1, m1, it.rel);
    }
  }

  lemma NothingPlanned(w: World, disk: map<Rel, Entry>, plan: Plan, w1: World, m1: map<Rel, Entry>, next: Plan)
    requires ByVerdict(w, NextBaseline(w, disk), plan)
    requires ByVerdict(w1, NextBaseline(w1, m1), next)
    requires forall p :: StaysPut(w, disk, w1, m1, p)
    ensures next.push == [] && next.pull == []
    ensures forall p :: p in next.conflicts ==> p in plan.conflicts
    ensures m1 != map[] || disk == map[] ==> next.conflicts == plan.conflicts
  {
    NothingToCopy(w, disk, w1, m1, next);
    forall p ensures p in next.conflicts ==> p in plan.conflicts {
      assert StaysPut(w, disk, w1, m1, p);
    }
    if m1 != map[] || disk == map[] {
      forall p ensures p in plan.conflicts ==> p in next.conflicts {
        assert StaysPut(w, disk, w1, m1, p);
      }
      SortedSetIsUnique(plan.conflicts, next.conflicts);
    }
  }

  /** A path is in sync at the next planning, or was and is in conflict; no conflict goes away but by seeding. */
  ghost predicate StaysPut(w: World, disk: map<Rel, Entry>, w1: World, m1: map<Rel, Entry>, p: Rel) {
    var (before, after) := (VerdictOf(w, NextBaseline(w, disk), p), VerdictOf(w1, NextBaseline(w1, m1), p));
    && (after.InSync? || after.Conflict?)
    && (after.Conflict? ==> before.Conflict?)
    && (before.Conflict? && (m1 != map[] || disk == map[]) ==> after.Conflict?)
  }

  lemma NextVerdict(w: World, disk: map<Rel, Entry>, plan: Plan, jobs: seq<Job>, log: seq<Outcome>, rec: seq<Outcome>, p: Rel)
    requires Ready(w, disk) && CompleteRun(w, disk, plan, jobs, log, rec)
    ensures StaysPut(w, disk, WorldAfter(w, jobs, log), RecordAll(NextBaseline(w, disk), jobs, rec), p)
  {
    NextSpot(w, disk, plan, jobs, log, rec, p);
    SeedingVerdict(WorldAfter(w, jobs, log), RecordAll(NextBaseline(w, disk), jobs, rec), p);
    if disk == map[] && VerdictOf(w, NextBaseline(w, disk), p) == Conflict {
      ConflictOfFirstRun(w, p);
    }
  }

  lemma ConflictsAre(w: World, m: map<Rel, Entry>, plan: Plan)
    requires IsPlan(plan, WalkOf(w), IndexOfRemote(w), m)
    ensures forall p :: p in plan.conflicts <==> VerdictOf(w, m, p) == Conflict
  {
  }

  /** What a complete run does with a change on one side: it arrives on the other, bytes and all, and the changed side
      stays; what changed on both sides, other than by going, stays on both. */
  lemma ChangesArrive(w: World, disk: map<Rel, Entry>, plan: Plan, jobs: seq<Job>, log: seq<Outcome>, rec: seq<Outcome>, p: Rel)
    requires Ready(w, disk) && CompleteRun(w, disk, plan, jobs, log, rec) && !Pruned(p)
    ensures KeysInRange(jobs, log)
    ensures var (before, after, m) := (At(w, p), At(WorldAfter(w, jobs, log), p), NextBaseline(w, disk));
            var (localChanged, remoteChanged) := (LocalLook(before.l) != BaseLocal(m, p), RemoteLook(before.r) != BaseRemote(m, p));
            && (localChanged && !remoteChanged ==> after.l == before.l && SameBytes(after))
            && (remoteChanged && !localChanged ==> after.r == before.r && SameBytes(after))
            && (localChanged && remoteChanged && (before.l.Some? || before.r.Some?) ==> after == before)
            && (!localChanged && !remoteChanged ==> after == before)
  {
    NextBaselineIsReady(w, disk);
    var m := NextBaseline(w, disk);
    ActedPaths(w, disk, plan, jobs, log, rec, p);
    RunRefinesMerge(w, m, plan, false, jobs, log, rec, p);
    VerdictFromSpot(w, m, p);
  }

  /** The path is there on both sides with the same bytes, or on neither. */
  predicate SameBytes(c: Cell) {
    if c.l.Some? && c.r.Some? then c.l.value.data == c.r.value.data else c == Cell(None, None)
  }

  /** After a complete run without conflicts both trees hold the same files at the same sizes. */
  lemma NothingLeftToReport(w: World, disk: map<Rel, Entry>, plan: Plan, jobs: seq<Job>, log: seq<Outcome>, rec: seq<Outcome>)
    requires Ready(w, disk) && CompleteRun(w, disk, plan, jobs, log, rec)
    requires plan.conflicts == []
    ensures SameFiles(WalkOf(WorldAfter(w, jobs, log)), IndexOfRemote(WorldAfter(w, jobs, log)))
  {
    var w1, m1 := WorldAfter(w, jobs, log), RecordAll(NextBaseline(w, disk), jobs, rec);
    forall p ensures VerdictOf(w1, m1, p) == InSync {
      NextSpot(w, disk, plan, jobs, log, rec, p);
      PlanIsByVerdict(w, NextBaseline(w, disk), plan);
      assert p !in plan.conflicts;
    }
    InSyncIsSame(w1, m1);
  }

  lemma InSyncIsSame(w: World, m: map<Rel, Entry>)
    requires forall p :: VerdictOf(w, m, p) == InSync
    ensures SameFiles(WalkOf(w), IndexOfRemote(w))
  {
    var (l, r) := (WalkOf(w), IndexOfRemote(w));
    forall p ensures (p in l <==> p in r) && (p in l && p in r ==> l[p].size == r[p].size) {
      assert VerdictOf(w, m, p) == InSync;
    }
    assert l.Keys == r.Keys;
  }

  // ---- Where the local walk does not look ----

  /** A file just pulled and recorded is in sync exactly when the walk will see it. Below a pruned directory the next
      run takes it for deleted locally, and plans to delete the remote file. */
  lemma PulledFileStaysIffWalked(w: World, m: map<Rel, Entry>, p: Rel)
    requires p in w.local && p in w.remote && p in m
    requires w.local[p].data == w.remote[p].data
    requires m[p] == Entry(|w.local[p].data|, w.local[p].mtime, w.remote[p].id, w.remote[p].mtime)
    ensures VerdictOf(w, m, p) == InSync <==> !Pruned(p)
    ensures Pruned(p) ==> VerdictOf(w, m, p) == TakeLocal
                          && CopyOut(p, Lookup(WalkOf(w), p), Lookup(m, p)) == Item(p, Delete, w.remote[p].id, 0, 0, "")
  {
  }
}
