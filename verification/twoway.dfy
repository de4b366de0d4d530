/**
 Two-way sync as a whole: what a run, complete, failing in places or cut short by a crash, makes of every path.
 */
module TwoWay {
  import opened Types
  import opened Paths
  import opened Pool
  import opened Worlds
  import opened Collecting
  import opened Planning
  import opened TwoWayPlanning
  import opened MovePlanning

  // ---- What the planner is shown ----

  /** The local walk: it does not see what lies below a pruned directory. */
  function WalkOf(w: World): map<Rel, LocalFile> {
    map p | p in w.local && !Pruned(p) :: LocalFile(p, |w.local[p].data|, w.local[p].mtime)
  }

  function IndexOfRemote(w: World): map<Rel, IndexEntry> {
    map p | p in w.remote :: IndexEntry(w.remote[p].id, |w.remote[p].data|, w.remote[p].mtime)
  }

  function VerdictOf(w: World, m: map<Rel, Entry>, p: Rel): Verdict {
    VerdictAt(WalkOf(w), IndexOfRemote(w), m, p)
  }

  /** A remote file that looks, by size and mtime, as the baseline says is the file the baseline knows. */
  ghost predicate IdsAgree(w: World, m: map<Rel, Entry>) {
    forall p :: p in m && p in w.remote && RemoteMeta(IndexOfRemote(w), p) == BaseRemote(m, p) ==> w.remote[p].id == m[p].remoteID
  }

  /** What two-way sync takes for granted: ids are unique and name what the baseline thinks, and nothing remote or
      recorded lies in a directory the local walk leaves out. */
  ghost predicate Ready(w: World, m: map<Rel, Entry>) {
    && WellFormed(w)
    && IdsAgree(w, m)
    && (forall p :: p in w.remote ==> !Pruned(p))
    && (forall p :: p in m ==> !Pruned(p) && m[p].remoteID in w.used)
  }

  // ---- The items of a run ----

  function PullJobs(items: seq<PullItem>): (jobs: seq<Job>)
    ensures |jobs| == |items|
    ensures forall i :: 0 <= i < |items| ==> jobs[i] == Pull(items[i])
  {
    seq(|items|, i requires 0 <= i < |items| => Pull(items[i]))
  }

  /** The plan as it is run: without its deletions if they are turned off. */
  function Effective(plan: Plan, noDelete: bool): Plan {
    if noDelete then plan.(push := Filter(NotDelete, plan.push), pull := Filter(NotPullDelete, plan.pull)) else plan
  }

  /** All items of a run: pulls come before pushes. */
  function PlanJobs(plan: Plan): seq<Job> {
    PullJobs(plan.pull) + PushJobs(plan.push)
  }

  ghost predicate Planned(w: World, m: map<Rel, Entry>, plan: Plan, noDelete: bool, jobs: seq<Job>) {
    && IsPlan(plan, WalkOf(w), IndexOfRemote(w), m)
    && jobs == PlanJobs(Effective(plan, noDelete))
  }

  /** An item is the right action for its path's verdict. */
  ghost predicate Fitting(w: World, m: map<Rel, Entry>, job: Job) {
    var p := job.Rel();
    match job
    case Push(it) => VerdictOf(w, m, p) == TakeLocal && it == CopyOut(p, Lookup(WalkOf(w), p), Lookup(m, p))
    case Pull(it) => (VerdictOf(w, m, p) == TakeRemote || VerdictOf(w, m, p) == Forget) && it == CopyIn(p, Lookup(IndexOfRemote(w), p))
  }

  lemma EffectiveMembers(plan: Plan, noDelete: bool)
    requires DistinctRels(plan.push) && DistinctPullRels(plan.pull)
    ensures var e := Effective(plan, noDelete);
            && DistinctRels(e.push) && DistinctPullRels(e.pull)
            && (forall it :: it in e.push <==> it in plan.push && (noDelete ==> !it.op.Delete?))
            && (forall it :: it in e.pull <==> it in plan.pull && (noDelete ==> !it.op.DeleteLocal?))
  {
    if noDelete {
      FilterMembers(NotDelete, plan.push);
      FilterMembers(NotPullDelete, plan.pull);
      FilterKeepsDistinct(NotDelete, plan.push);
      FilterKeepsDistinctPull(NotPullDelete, plan.pull);
    }
  }

  lemma JobFits(w: World, m: map<Rel, Entry>, plan: Plan, noDelete: bool, jobs: seq<Job>, k: nat)
    requires Planned(w, m, plan, noDelete, jobs) && k < |jobs|
    ensures Fitting(w, m, jobs[k])
  {
    EffectiveMembers(plan, noDelete);
    var e := Effective(plan, noDelete);
    if k < |e.pull| {
      assert jobs[k] == Pull(e.pull[k]) && e.pull[k] in e.pull;
    } else {
      assert jobs[k] == Push(e.push[k - |e.pull|]) && e.push[k - |e.pull|] in e.push;
    }
  }

  lemma JobsAreApart(w: World, m: map<Rel, Entry>, plan: Plan, noDelete: bool, jobs: seq<Job>, i: nat, j: nat)
    requires Planned(w, m, plan, noDelete, jobs) && i < j < |jobs|
    ensures jobs[i].Rel() != jobs[j].Rel()
  {
    var n := |Effective(plan, noDelete).pull|;
    if i < n <= j {
      JobFits(w, m, plan, noDelete, jobs, i);
      JobFits(w, m, plan, noDelete, jobs, j);
      assert jobs[i].Pull? && jobs[j].Push?;
    } else {
      SameSideApart(Effective(plan, noDelete), jobs, i, j) by { EffectiveMembers(plan, noDelete); }
    }
  }

  lemma SameSideApart(e: Plan, jobs: seq<Job>, i: nat, j: nat)
    requires DistinctRels(e.push) && DistinctPullRels(e.pull) && jobs == PlanJobs(e) && i < j < |jobs|
    requires j < |e.pull| || |e.pull| <= i
    ensures jobs[i].Rel() != jobs[j].Rel()
  {
    if j < |e.pull| {
      assert jobs[i] == Pull(e.pull[i]) && jobs[j] == Pull(e.pull[j]);
    } else {
      assert jobs[i] == Push(e.push[i - |e.pull|]) && jobs[j] == Push(e.push[j - |e.pull|]);
    }
  }

  lemma JobsFit(w: World, m: map<Rel, Entry>, plan: Plan, noDelete: bool, jobs: seq<Job>)
    requires Planned(w, m, plan, noDelete, jobs)
    ensures DistinctPaths(jobs)
    ensures forall k :: 0 <= k < |jobs| ==> Fitting(w, m, jobs[k])
  {
    forall k | 0 <= k < |jobs| ensures Fitting(w, m, jobs[k]) {
      JobFits(w, m, plan, noDelete, jobs, k);
    }
    forall i, j | 0 <= i < j < |jobs| ensures jobs[i].Rel() != jobs[j].Rel() {
      JobsAreApart(w, m, plan, noDelete, jobs, i, j);
    }
  }

  lemma FittingIsAddressed(w: World, m: map<Rel, Entry>, job: Job)
    requires Ready(w, m) && Fitting(w, m, job)
    ensures Addressed(w, job) && Footprint(job) == {job.Rel()} && !Pruned(job.Rel())
  {
  }

  lemma PlanIsRunnable(w: World, m: map<Rel, Entry>, plan: Plan, noDelete: bool, jobs: seq<Job>)
    requires Ready(w, m) && Planned(w, m, plan, noDelete, jobs)
    ensures Runnable(w, jobs) && DisjointFootprints(jobs)
  {
    JobsFit(w, m, plan, noDelete, jobs);
    forall k | 0 <= k < |jobs| ensures Addressed(w, jobs[k]) && Footprint(jobs[k]) == {jobs[k].Rel()} {
      FittingIsAddressed(w, m, jobs[k]);
    }
  }

  // ---- One path of a run ----

  /** A path after a run: both copies and the baseline. */
  datatype Spot = Spot(c: Cell, e: Option<Entry>)

  function SpotAt(w: World, m: map<Rel, Entry>, p: Rel): Spot {
    Spot(At(w, p), Lookup(m, p))
  }

  /** Both sides hold the same bytes, and the baseline describes both; or the path is gone everywhere. */
  predicate Synced(s: Spot) {
    match (s.c.l, s.c.r, s.e)
    case (Some(l), Some(r), Some(e)) => l.data == r.data && e == Entry(|l.data|, l.mtime, r.id, r.mtime)
    case (None, None, None) => true
    case _ => false
  }

  /** What the merge of one path asks for: the winning side is kept as it was, and everything agrees with it. */
  predicate Merged(v: Verdict, before: Spot, after: Spot) {
    match v
    case InSync => after == before
    case Conflict => after == before
    case TakeLocal => Synced(after) && after.c.l == before.c.l && (before.c.r.Some? && after.c.r.Some? ==> after.c.r.value.id == before.c.r.value.id)
    case TakeRemote => Synced(after) && after.c.r == before.c.r
    case Forget => Synced(after) && after.c == Cell(None, None)
  }

  /** A run seen from one path: its own item, if it succeeded, settled it, and nothing else touched it. */
  lemma WorldAtPath(w: World, m: map<Rel, Entry>, plan: Plan, noDelete: bool, jobs: seq<Job>, log: seq<Outcome>, p: Rel)
    requires Ready(w, m) && Planned(w, m, plan, noDelete, jobs)
    requires Execution(w, jobs, log) && DistinctKeys(log)
    ensures RunOf(w, jobs, log) && KeysInRange(jobs, log)
    ensures !DoneAt(jobs, log, p) ==> At(WorldAfter(w, jobs, log), p) == At(w, p)
    ensures forall o :: DoneBy(jobs, log, p, o) ==>
              && Fitting(w, m, jobs[o.k])
              && Fits(jobs[o.k], o.a, o.b, At(w, p))
              && At(WorldAfter(w, jobs, log), p) == Settled(jobs[o.k], o.a, o.b, At(w, p))
  {
    PlanIsRunnable(w, m, plan, noDelete, jobs);
    JobsFit(w, m, plan, noDelete, jobs);
    RunAt(w, jobs, log, p);
  }

  /** The baseline at one path after the outcomes in `rec` have been recorded. */
  lemma BaselineAtPath(w: World, m: map<Rel, Entry>, plan: Plan, noDelete: bool, jobs: seq<Job>, rec: seq<Outcome>, p: Rel)
    requires Ready(w, m) && Planned(w, m, plan, noDelete, jobs)
    requires KeysInRange(jobs, rec) && DistinctKeys(rec)
    ensures !DoneAt(jobs, rec, p) ==> Lookup(RecordAll(m, jobs, rec), p) == Lookup(m, p)
    ensures forall o :: DoneBy(jobs, rec, p, o) ==> Lookup(RecordAll(m, jobs, rec), p) == Lookup(RecordOne(m, jobs[o.k], o), p)
  {
    PlanIsRunnable(w, m, plan, noDelete, jobs);
    JobsFit(w, m, plan, noDelete, jobs);
    RecordedAt(m, jobs, rec, p);
    forall o: Outcome | o.k < |jobs| ensures Footprint(jobs[o.k]) == {jobs[o.k].Rel()} {
      FittingIsAddressed(w, m, jobs[o.k]);
    }
    assert forall o :: TouchedBy(jobs, rec, p, o) <==> DoneBy(jobs, rec, p, o);
    if !DoneAt(jobs, rec, p) {
      assert forall o :: !DoneBy(jobs, rec, p, o);
    }
  }

  /** One success, executed and recorded, is the merge of its path. */
  lemma SettledIsMerged(w: World, m: map<Rel, Entry>, job: Job, o: Outcome, p: Rel)
    requires Ready(w, m) && Fitting(w, m, job) && p == job.Rel() && o.ok && Fits(job, o.a, o.b, At(w, p))
    ensures var v := VerdictOf(w, m, p);
            && !v.InSync? && !v.Conflict?
            && Merged(v, SpotAt(w, m, p), Spot(Settled(job, o.a, o.b, At(w, p)), Lookup(RecordOne(m, job, o), p)))
  {
    FittingIsAddressed(w, m, job);
    assert LocalMeta(WalkOf(w), p) == if p in w.local then Some(Meta(|w.local[p].data|, w.local[p].mtime)) else None;
    assert RemoteMeta(IndexOfRemote(w), p) == if p in w.remote then Some(Meta(|w.remote[p].data|, w.remote[p].mtime)) else None;
  }

  /** A run refines the three-way merge of each path: whatever the schedule and whichever items fail, a path whose
      item succeeded is merged and any other is exactly as it was, on both sides and in the baseline. */
  lemma RunRefinesMerge(w: World, m: map<Rel, Entry>, plan: Plan, noDelete: bool, jobs: seq<Job>, log: seq<Outcome>, rec: seq<Outcome>, p: Rel)
    requires Ready(w, m) && Planned(w, m, plan, noDelete, jobs)
    requires Execution(w, jobs, log) && DistinctKeys(log) && DistinctKeys(rec)
    requires forall o :: o in rec <==> o in log
    ensures KeysInRange(jobs, log) && KeysInRange(jobs, rec)
    ensures var (before, after) := (SpotAt(w, m, p), SpotAt(WorldAfter(w, jobs, log), RecordAll(m, jobs, rec), p));
            var v := VerdictOf(w, m, p);
            if DoneAt(jobs, log, p) then !v.InSync? && !v.Conflict? && Merged(v, before, after) else after == before
  {
    WorldAtPath(w, m, plan, noDelete, jobs, log, p);
    BaselineAtPath(w, m, plan, noDelete, jobs, rec, p);
    if DoneAt(jobs, log, p) {
      var o :| DoneBy(jobs, log, p, o);
      assert DoneBy(jobs, rec, p, o);
      SettledIsMerged(w, m, jobs[o.k], o, p);
    } else {
      assert !DoneAt(jobs, rec, p);
    }
  }
}
