/** The two-way pipeline around the two pools: seed, plan, guard, run, save; and what the guard is worth to it. */
module TwoWayDriver {
  import opened Types
  import opened Manifests
  import opened Pool
  import opened Collecting
  import opened Planning
  import opened TwoWayPlanning
  import opened MovePlanning
  import opened Worlds
  import opened TwoWay
  import opened TwoWayRuns
  import opened Guard

  datatype Options = Options(force: bool, dryRun: bool, noDelete: bool, deleteThreshold: real)

  datatype Answer = Refused | Preview(conflicts: nat) | Ran(pushed: nat, pulled: nat, conflicts: nat, failed: nat) | SaveFailed

  /** Seeding, planning and the options that cut the plan down. */
  method Prepare(local: seq<LocalFile>, idx: map<Rel, IndexEntry>, m: Manifest, noDelete: bool) returns (full: Plan, plan: Plan)
    requires UniqueWalk(local)
    modifies m
    ensures m.entries == if old(m.entries) == map[] then Seeded(map[], idx, IndexOf(local)) else old(m.entries)
    ensures IsPlan(full, IndexOf(local), idx, m.entries) && plan == Effective(full, noDelete)
  {
    if m.Len() == 0 {
      SeedSynced(m, idx, local);
    }
    full := PlanTwoWay(local, idx, m);
    plan := full;
    if noDelete {
      var push := DropDeletes(plan.push);
      var pull := DropPullDeletes(plan.pull);
      plan := plan.(push := push, pull := pull);
    }
  }

  /** Whether a plan's deletions, on either side, are too many for the guard. */
  predicate Guarded(plan: Plan, baseline: nat, o: Options) {
    || CheckDeleteRatio(|Filter(IsDelete, plan.push)|, baseline, o.deleteThreshold, o.force)
    || CheckDeleteRatio(|Filter(IsPullDelete, plan.pull)|, baseline, o.deleteThreshold, o.force)
  }

  /** A run is refused exactly if it is not forced, something was tracked, and the deletions on one of the two sides are
      more than the fraction given, or a fifth if none is. */
  lemma RefusedIff(plan: Plan, baseline: nat, o: Options)
    ensures Guarded(plan, baseline, o) <==>
              || TooMany(RemoteDeletes(plan.push), baseline, o.deleteThreshold, o.force)
              || TooMany(LocalDeletes(plan.pull), baseline, o.deleteThreshold, o.force)
  {
    RefusesIff(plan.push, plan.pull, baseline, o.deleteThreshold, o.force);
  }

  method Check(plan: Plan, baseline: nat, o: Options) returns (refused: bool)
    ensures refused <==> Guarded(plan, baseline, o)
  {
    refused := GuardDeletes(plan.push, baseline, o.deleteThreshold, o.force);
    if !refused {
      refused := GuardPullDeletes(plan.pull, baseline, o.deleteThreshold, o.force);
    }
  }

  /** What is on disk after both pools: everything if the final save worked; otherwise what the checkpoint at `b` of the
      push wrote, or else the one at `a` of the pull, or what was there. */
  predicate SaveOutcome(ok: bool, pulls: seq<Job>, pulled: seq<Outcome>, pushes: seq<Job>, pushed: seq<Outcome>, base: map<Rel, Entry>,
                        before: map<Rel, Entry>, after: map<Rel, Entry>, failures: int, a: nat, b: nat)
    requires KeysInRange(pulls, pulled) && KeysInRange(pushes, pushed)
  {
    var both := RecordAll(base, pulls, pulled);
    if ok then after == RecordAll(both, pushes, pushed)
    else && failures > 0 && IsCheckpoint(pulled, a) && IsCheckpoint(pushed, b)
         && after == (if b > 0 then RecordAll(both, pushes, pushed[..b]) else if a > 0 then RecordAll(base, pulls, pulled[..a]) else before)
         && (failures == 1 ==> a == LastCheckpoint(pulled) && b == LastCheckpoint(pushed))
  }

  /** What the answer of a run counts: the successes of either side, the conflicts, and the failures of both. */
  predicate Counts(res: Answer, plan: Plan, pulled: seq<Outcome>, pushed: seq<Outcome>)
    requires res.Ran? && KeysInRange(PullJobs(plan.pull), pulled) && KeysInRange(PushJobs(plan.push), pushed)
  {
    && res.pushed == Successes(pushed) && res.pulled == Successes(pulled)
    && res.conflicts == |plan.conflicts|
    && res.failed == |pulled| - Successes(pulled) + |pushed| - Successes(pushed)
  }

  lemma {:induction false} PushTally(jobs: seq<Job>, log: seq<Outcome>)
    requires KeysInRange(jobs, log) && forall i :: 0 <= i < |jobs| ==> jobs[i].Push? && !jobs[i].item.op.Move?
    ensures var r := Tally(jobs, log); r.uploaded + r.overwritten + r.deleted == Successes(log)
  {
    if log != [] {
      PushTally(jobs, log[..|log| - 1]);
    }
  }

  lemma {:induction false} PullTally(jobs: seq<Job>, log: seq<Outcome>)
    requires KeysInRange(jobs, log) && forall i :: 0 <= i < |jobs| ==> jobs[i].Pull?
    ensures var r := Tally(jobs, log); r.downloaded + r.removed == Successes(log)
  {
    if log != [] {
      PullTally(jobs, log[..|log| - 1]);
    }
  }

  lemma NoMovesPlanned(full: Plan, noDelete: bool, local: map<Rel, LocalFile>, idx: map<Rel, IndexEntry>, m: map<Rel, Entry>)
    requires IsPlan(full, local, idx, m)
    ensures forall it :: it in Effective(full, noDelete).push ==> !it.op.Move?
  {
    EffectiveMembers(full, noDelete);
  }

  lemma PushesAre(items: seq<Item>, log: seq<Outcome>)
    requires KeysInRange(PushJobs(items), log)
    ensures var r := Tally(PushJobs(items), log);
            && r.failed == |log| - Successes(log)
            && ((forall it :: it in items ==> !it.op.Move?) ==> r.uploaded + r.overwritten + r.deleted == Successes(log))
  {
    if forall it :: it in items ==> !it.op.Move? {
      forall i | 0 <= i < |items| ensures !items[i].op.Move? {
        assert items[i] in items;
      }
      PushTally(PushJobs(items), log);
    }
    TallyTotals(PushJobs(items), log);
  }

  lemma PullsAre(items: seq<PullItem>, log: seq<Outcome>)
    requires KeysInRange(PullJobs(items), log)
    ensures var r := Tally(PullJobs(items), log);
            r.downloaded + r.removed == Successes(log) && r.failed == |log| - Successes(log)
  {
    PullTally(PullJobs(items), log);
    TallyTotals(PullJobs(items), log);
  }

  /** Both pools and the final save. `pullPool` and `pushPool` stand for the pools: they say in what order which
      outcomes reach the collector. */
  method Execute(plan: Plan, m: Manifest, disk: Disk, pullPool: seq<Job> -> seq<Outcome>, pushPool: seq<Job> -> seq<Outcome>)
    returns (res: Answer, ghost a: nat, ghost b: nat)
    requires forall jobs :: KeysInRange(jobs, pullPool(jobs)) && KeysInRange(jobs, pushPool(jobs))
    modifies m, disk
    ensures var (pulls, pushes) := (PullJobs(plan.pull), PushJobs(plan.push));
            var (x, y) := (pullPool(pulls), pushPool(pushes));
            && m.entries == RecordAll(RecordAll(old(m.entries), pulls, x), pushes, y)
            && SaveOutcome(!res.SaveFailed?, pulls, x, pushes, y, old(m.entries), old(disk.saved), disk.saved, disk.failures - old(disk.failures), a, b)
            && (res.SaveFailed? || res.Ran?)
            && (res.Ran? && (forall it :: it in plan.push ==> !it.op.Move?) ==> Counts(res, plan, x, y))
  {
    var pulls, pushes := PullJobs(plan.pull), PushJobs(plan.push);
    var pulled, pushed;
    pulled, a := Collect(pulls, pullPool(pulls), m, disk);
    pushed, b := Collect(pushes, pushPool(pushes), m, disk);
    var ok := disk.Save(m);
    PullsAre(plan.pull, pullPool(pulls));
    PushesAre(plan.push, pushPool(pushes));
    res := if ok then Ran(pushed.uploaded + pushed.overwritten + pushed.deleted, pulled.downloaded + pulled.removed,
                          |plan.conflicts|, pushed.failed + pulled.failed)
           else SaveFailed;
  }

  /** One two-way pass. Nothing is saved when the guard refuses or for a dry run; otherwise the disk ends with the
      manifest in which every success of both pools is recorded, or the save failed. */
  method Sync(local: seq<LocalFile>, idx: map<Rel, IndexEntry>, m: Manifest, disk: Disk, o: Options,
              pullPool: seq<Job> -> seq<Outcome>, pushPool: seq<Job> -> seq<Outcome>)
    returns (res: Answer, full: Plan, base: map<Rel, Entry>, ghost a: nat, ghost b: nat)
    requires UniqueWalk(local)
    requires forall jobs :: KeysInRange(jobs, pullPool(jobs)) && KeysInRange(jobs, pushPool(jobs))
    modifies m, disk
    ensures base == if old(m.entries) == map[] then Seeded(map[], idx, IndexOf(local)) else old(m.entries)
    ensures IsPlan(full, IndexOf(local), idx, base)
    ensures res.Refused? <==> Guarded(Effective(full, o.noDelete), |base|, o)
    ensures res.Preview? <==> !res.Refused? && o.dryRun
    ensures res.Refused? || res.Preview? ==> disk.saved == old(disk.saved) && m.entries == base
    ensures var plan := Effective(full, o.noDelete);
            var (pulls, pushes) := (PullJobs(plan.pull), PushJobs(plan.push));
            !res.Refused? && !res.Preview? ==>
              && m.entries == RecordAll(RecordAll(base, pulls, pullPool(pulls)), pushes, pushPool(pushes))
              && SaveOutcome(res.Ran?, pulls, pullPool(pulls), pushes, pushPool(pushes), base, old(disk.saved), disk.saved,
                             disk.failures - old(disk.failures), a, b)
              && (res.Ran? ==> Counts(res, plan, pullPool(pulls), pushPool(pushes)))
    ensures res.Preview? ==> res.conflicts == |full.conflicts|
  {
    var plan;
    a, b := 0, 0;
    full, plan := Prepare(local, idx, m, o.noDelete);
    base := m.entries;
    var refused := Check(plan, m.Len(), o);
    if refused {
      res := Refused;
    } else if o.dryRun {
      res := Preview(|plan.conflicts|);
    } else {
      NoMovesPlanned(full, o.noDelete, IndexOf(local), idx, base);
      res, a, b := Execute(plan, m, disk, pullPool, pushPool);
    }
  }

  /** What `Sync` leaves behind when the pools did what `pulled` and `pushed` say: each path merged if its item
      succeeded, and otherwise exactly as it was, on both sides and on disk. */
  lemma SyncIsMerge(w: World, base: map<Rel, Entry>, full: Plan, noDelete: bool, pulled: seq<Outcome>, pushed: seq<Outcome>, p: Rel)
    requires Ready(w, base) && IsPlan(full, WalkOf(w), IndexOfRemote(w), base)
    requires DistinctKeys(pulled) && DistinctKeys(pushed)
    requires var e := Effective(full, noDelete);
             Execution(w, PullJobs(e.pull), pulled)
             && Execution(WorldAfter(w, PullJobs(e.pull), pulled), PushJobs(e.push), pushed)
    ensures var e := Effective(full, noDelete);
            var (pulls, pushes) := (PullJobs(e.pull), PushJobs(e.push));
            && KeysInRange(pulls, pulled) && KeysInRange(pushes, pushed)
            && var w1 := WorldAfter(WorldAfter(w, pulls, pulled), pushes, pushed);
            && var m1 := RecordAll(RecordAll(base, pulls, pulled), pushes, pushed);
            && var (before, after) := (SpotAt(w, base, p), SpotAt(w1, m1, p));
            if DoneAt(pulls, pulled, p) || DoneAt(pushes, pushed, p) then Merged(VerdictOf(w, base, p), before, after) else after == before
  {
    var e := Effective(full, noDelete);
    var (pulls, pushes) := (PullJobs(e.pull), PushJobs(e.push));
    var log := pulled + Shift(pushed, |pulls|);
    ExecutionKeys(w, pulls, pulled);
    ExecutionKeys(WorldAfter(w, pulls, pulled), pushes, pushed);
    ExecutionsJoin(w, pulls, pushes, pulled, pushed);
    JoinedLog(|pulls|, pulled, pushed);
    RecordsJoin(base, pulls, pushes, pulled, pushed);
    RunRefinesMerge(w, base, full, noDelete, pulls + pushes, log, log, p);
    JoinedDone(pulls, pushes, pulled, pushed, p);
  }

  /** A path is done by the joint log if either log did it. */
  lemma JoinedDone(a: seq<Job>, b: seq<Job>, la: seq<Outcome>, lb: seq<Outcome>, p: Rel)
    requires KeysInRange(a, la) && KeysInRange(b, lb)
    ensures DoneAt(a + b, la + Shift(lb, |a|), p) <==> DoneAt(a, la, p) || DoneAt(b, lb, p)
  {
    DoneByShift(a, b, lb, p);
    var log := la + Shift(lb, |a|);
    forall o ensures DoneBy(a + b, log, p, o) <==> DoneBy(a, la, p, o) || DoneBy(a + b, Shift(lb, |a|), p, o) {
      assert o in log <==> o in la || o in Shift(lb, |a|);
    }
  }

  lemma DoneByShift(a: seq<Job>, b: seq<Job>, log: seq<Outcome>, p: Rel)
    requires KeysInRange(b, log)
    ensures DoneAt(a + b, Shift(log, |a|), p) <==> DoneAt(b, log, p)
  {
    var s := Shift(log, |a|);
    if o :| DoneBy(b, log, p, o) {
      var i :| 0 <= i < |log| && log[i] == o;
      assert DoneBy(a + b, s, p, s[i]);
    }
    if o :| DoneBy(a + b, s, p, o) {
      var i :| 0 <= i < |s| && s[i] == o;
      assert log[i] in log;
      assert DoneBy(b, log, p, log[i]);
    }
  }

  // ---- The guard ----

  /** The first run, from a baseline seeded from both trees, has nothing to delete on either side. */
  lemma FirstRunDeletesNothing(plan: Plan, local: map<Rel, LocalFile>, idx: map<Rel, IndexEntry>)
    requires IsPlan(plan, local, idx, Seeded(map[], idx, local))
    ensures forall it :: it in plan.push ==> !it.op.Delete?
    ensures forall it :: it in plan.pull ==> !it.op.DeleteLocal?
  {
    var m := Seeded(map[], idx, local);
    forall it | it in plan.push ensures !it.op.Delete? {
      assert VerdictAt(local, idx, m, it.rel).TakeLocal? && it == CopyOut(it.rel, Lookup(local, it.rel), Lookup(m, it.rel));
    }
    forall it | it in plan.pull ensures !it.op.DeleteLocal? {
      assert VerdictAt(local, idx, m, it.rel).TakeRemote? || VerdictAt(local, idx, m, it.rel).Forget?;
      assert it == CopyIn(it.rel, Lookup(idx, it.rel));
    }
  }

  lemma PlannedItemsArePlannedFrom(w: World, m: map<Rel, Entry>, job: Job)
    requires Fitting(w, m, job)
    ensures PlannedFrom(m, job)
  {
  }

  lemma {:induction false} PullDeletionsPlanned(items: seq<PullItem>, jobs: seq<Job>, n: nat)
    requires n <= |items| <= |jobs|
    requires forall i :: 0 <= i < |items| ==> jobs[i] == Pull(items[i])
    ensures |DeletionsPlanned(jobs, false, n)| == |Filter(IsPullDelete, items[..n])|
  {
    if n > 0 {
      PullDeletionsPlanned(items, jobs, n - 1);
      DeletionsStep(jobs, false, n);
      assert jobs[n - 1] == Pull(items[n - 1]);
      assert items[..n][..n - 1] == items[..n - 1];
    }
  }

  lemma {:induction false} PushesDeleteNothingLocal(jobs: seq<Job>, first: nat, n: nat)
    requires first <= n <= |jobs| && forall i :: first <= i < n ==> jobs[i].Push?
    ensures DeletionsPlanned(jobs, false, n) == DeletionsPlanned(jobs, false, first)
  {
    if first < n {
      PushesDeleteNothingLocal(jobs, first, n - 1);
    }
  }

  lemma SyncConserves(w: World, m: map<Rel, Entry>, plan: Plan, noDelete: bool, jobs: seq<Job>, log: seq<Outcome>)
    requires Ready(w, m) && Planned(w, m, plan, noDelete, jobs)
    requires KeysInRange(jobs, log) && DistinctKeys(log)
    ensures |RecordAll(m, jobs, log)| + Tally(jobs, log).deleted + Tally(jobs, log).removed >= |m|
  {
    PlanIsRunnable(w, m, plan, noDelete, jobs);
    JobsFit(w, m, plan, noDelete, jobs);
    forall i | 0 <= i < |jobs| ensures PlannedFrom(m, jobs[i]) {
      PlannedItemsArePlannedFrom(w, m, jobs[i]);
    }
    FilesAreConserved(m, jobs, log);
  }

  /** A two-way run that passed the guard without force loses at most twice the allowed fraction of the tracked
      files: each side is guarded on its own. */
  lemma GuardedSyncKeeps(w: World, m: map<Rel, Entry>, plan: Plan, o: Options, jobs: seq<Job>, log: seq<Outcome>)
    requires Ready(w, m) && Planned(w, m, plan, o.noDelete, jobs)
    requires !o.force && !Guarded(Effective(plan, o.noDelete), |m|, o)
    requires KeysInRange(jobs, log) && DistinctKeys(log)
    ensures Keeps(|RecordAll(m, jobs, log)|, |m|, 2.0 * Threshold(o.deleteThreshold))
  {
    SyncConserves(w, m, plan, o.noDelete, jobs, log);
    SyncDeletesWithin(Effective(plan, o.noDelete), |m|, o, jobs, log, |RecordAll(m, jobs, log)|);
  }

  lemma SyncDeletesWithin(e: Plan, baseline: nat, o: Options, jobs: seq<Job>, log: seq<Outcome>, after: nat)
    requires jobs == PlanJobs(e) && KeysInRange(jobs, log) && DistinctKeys(log)
    requires !o.force && !Guarded(e, baseline, o)
    requires after + Tally(jobs, log).deleted + Tally(jobs, log).removed >= baseline
    ensures Keeps(after, baseline, 2.0 * Threshold(o.deleteThreshold))
  {
    PlanShape(e);
    DeletionsAreBounded(jobs, log, true);
    PlannedPushes(e, jobs);
    DeletionsAreBounded(jobs, log, false);
    PlannedPulls(e, jobs);
    Allowed(e, baseline, o);
    HalvesAddUp(baseline, after, Tally(jobs, log).deleted, Tally(jobs, log).removed,
                |Filter(IsDelete, e.push)|, |Filter(IsPullDelete, e.pull)|, Threshold(o.deleteThreshold));
  }

  lemma Allowed(e: Plan, baseline: nat, o: Options)
    requires !o.force && !Guarded(e, baseline, o)
    ensures Within(|Filter(IsDelete, e.push)|, baseline, Threshold(o.deleteThreshold))
    ensures Within(|Filter(IsPullDelete, e.pull)|, baseline, Threshold(o.deleteThreshold))
  {
    AllowedCount(|Filter(IsDelete, e.push)|, baseline, o);
    AllowedCount(|Filter(IsPullDelete, e.pull)|, baseline, o);
  }

  lemma AllowedCount(deletes: nat, baseline: nat, o: Options)
    requires !CheckDeleteRatio(deletes, baseline, o.deleteThreshold, o.force) && !o.force
    ensures Within(deletes, baseline, Threshold(o.deleteThreshold))
  {
  }

  /** Pulls first, then pushes. */
  predicate Shape(e: Plan, jobs: seq<Job>) {
    && |jobs| == |e.pull| + |e.push|
    && (forall i :: 0 <= i < |e.pull| ==> jobs[i] == Pull(e.pull[i]))
    && (forall i :: 0 <= i < |e.push| ==> jobs[|e.pull| + i] == Push(e.push[i]))
  }

  lemma PlanShape(e: Plan)
    ensures Shape(e, PlanJobs(e))
  {
  }

  lemma PlannedPushes(e: Plan, jobs: seq<Job>)
    requires Shape(e, jobs)
    ensures |DeletionsPlanned(jobs, true, |jobs|)| == |Filter(IsDelete, e.push)|
  {
    AllPushDeletions(jobs, |e.pull|, e.push);
  }

  lemma PlannedPulls(e: Plan, jobs: seq<Job>)
    requires Shape(e, jobs)
    ensures |DeletionsPlanned(jobs, false, |jobs|)| == |Filter(IsPullDelete, e.pull)|
  {
    assert e.pull[..|e.pull|] == e.pull;
    PullDeletionsPlanned(e.pull, jobs, |e.pull|);
    assert forall i :: |e.pull| <= i < |jobs| ==> jobs[i] == Push(e.push[i - |e.pull|]);
    PushesDeleteNothingLocal(jobs, |e.pull|, |jobs|);
  }

  lemma HalvesAddUp(before: nat, after: nat, deleted: nat, removed: nat, pushes: nat, pulls: nat, t: real)
    requires after + deleted + removed >= before && deleted <= pushes && removed <= pulls
    requires Within(pushes, before, t) && Within(pulls, before, t)
    ensures Keeps(after, before, 2.0 * t)
  {
    if before > 0 {
      assert (1.0 - 2.0 * t) * before as real == before as real - t * before as real - t * before as real;
    }
  }
}
