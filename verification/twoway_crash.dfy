/**
 Crashes of a two-way run, and histories of runs, some of them crashed. A crash keeps every change made to either
 tree and the baseline of the last checkpoint. A call that took effect but was not answered, or whose answer was lost, is
 a success in the log that is not recorded.
 */
module TwoWayCrash {
  import opened Types
  import opened Paths
  import opened Pool
  import opened Worlds
  import opened Collecting
  import opened Planning
  import opened TwoWayPlanning
  import opened TwoWay

  // ---- Verdicts from what one path looks like ----

  function LocalLook(l: Option<LocalRec>): Option<Meta> {
    if l.Some? then Some(Meta(|l.value.data|, l.value.mtime)) else None
  }

  function RemoteLook(r: Option<RemoteRec>): Option<Meta> {
    if r.Some? then Some(Meta(|r.value.data|, r.value.mtime)) else None
  }

  function BaseLocalOf(e: Option<Entry>): Option<Meta> {
    if e.Some? then Some(Meta(e.value.size, e.value.localMtime)) else None
  }

  function BaseRemoteOf(e: Option<Entry>): Option<Meta> {
    if e.Some? then Some(Meta(e.value.size, e.value.remoteMtime)) else None
  }

  function SpotVerdict(s: Spot): Verdict {
    Merge(LocalLook(s.c.l), RemoteLook(s.c.r), BaseLocalOf(s.e), BaseRemoteOf(s.e))
  }

  lemma VerdictFromSpot(w: World, m: map<Rel, Entry>, p: Rel)
    ensures !Pruned(p) ==> VerdictOf(w, m, p) == SpotVerdict(SpotAt(w, m, p))
    ensures Pruned(p) && p !in w.remote && p !in m ==> VerdictOf(w, m, p) == InSync
  {
  }

  /** An item that is right for its path, from the path's looks alone. */
  predicate SpotFits(s: Spot, job: Job) {
    match job
    case Push(it) =>
      && SpotVerdict(s).TakeLocal?
      && it.op == (if s.c.l == None then Delete else if s.e == None then Upload else Overwrite)
      && (s.e.Some? ==> it.remoteID == s.e.value.remoteID)
    case Pull(it) =>
      && (SpotVerdict(s).TakeRemote? || SpotVerdict(s).Forget?)
      && it.op.Download? == s.c.r.Some?
      && (s.c.r.Some? ==> it.remoteID == s.c.r.value.id)
  }

  lemma FittingAtSpot(w: World, m: map<Rel, Entry>, job: Job, p: Rel)
    requires Ready(w, m) && Fitting(w, m, job) && p == job.Rel()
    ensures !Pruned(p) && SpotFits(SpotAt(w, m, p), job)
  {
    FittingIsAddressed(w, m, job);
    VerdictFromSpot(w, m, p);
  }

  /** A write is fresh if its size or its mtime is not the one the baseline recorded for that side. */
  predicate FreshWrite(s: Spot, job: Job, o: Outcome) {
    var after := Settled(job, o.a, o.b, s.c);
    if job.Push? then RemoteLook(after.r) != BaseRemoteOf(s.e) else LocalLook(after.l) != BaseLocalOf(s.e)
  }

  /** What the planner makes of a path whose item was carried out but not recorded. */
  lemma UnrecordedVerdict(s: Spot, job: Job, o: Outcome)
    requires SpotFits(s, job) && Fits(job, o.a, o.b, s.c)
    ensures var after := Spot(Settled(job, o.a, o.b, s.c), s.e);
            if after.c.l == None || after.c.r == None
            then after.c == Cell(None, None) && SpotVerdict(after) == Forget
            else && after.c.l.value.data == after.c.r.value.data
                 && SpotVerdict(after) == (if FreshWrite(s, job, o) then Conflict else SpotVerdict(s))
  {
  }

  /** Planning from what `rec` recorded of what `log` did: a deletion carried out but not recorded is a path gone on
      both sides, to be forgotten; a transfer carried out but not recorded is a conflict between two copies of the same
      bytes (or, if its write looks just as the baseline says, is simply planned again); what was recorded is in sync;
      and every other path keeps its verdict. */
  lemma RunReclassifies(w: World, m: map<Rel, Entry>, plan: Plan, noDelete: bool, jobs: seq<Job>,
                          log: seq<Outcome>, rec: seq<Outcome>, p: Rel)
    requires Ready(w, m) && Planned(w, m, plan, noDelete, jobs)
    requires Execution(w, jobs, log) && DistinctKeys(log) && DistinctKeys(rec)
    requires KeysInRange(jobs, rec) && forall o :: o in rec && o.ok ==> o in log
    ensures KeysInRange(jobs, log)
    ensures var (w1, m1) := (WorldAfter(w, jobs, log), RecordAll(m, jobs, rec));
            var now := VerdictOf(w1, m1, p);
            && (DoneAt(jobs, rec, p) ==> now == InSync)
            && (!DoneAt(jobs, log, p) ==> now == VerdictOf(w, m, p))
            && (forall o :: DoneBy(jobs, log, p, o) && !DoneAt(jobs, rec, p) ==> Reclassified(w, m, w1, m1, jobs[o.k], o, p))
  {
    WorldAtPath(w, m, plan, noDelete, jobs, log, p);
    BaselineAtPath(w, m, plan, noDelete, jobs, rec, p);
    if x :| DoneBy(jobs, rec, p, x) {
      assert DoneBy(jobs, log, p, x);
      RecordedIsInSync(w, m, WorldAfter(w, jobs, log), RecordAll(m, jobs, rec), jobs[x.k], x, p);
    } else if DoneAt(jobs, log, p) {
      forall o | DoneBy(jobs, log, p, o)
        ensures Reclassified(w, m, WorldAfter(w, jobs, log), RecordAll(m, jobs, rec), jobs[o.k], o, p)
      {
        UnrecordedIs(w, m, WorldAfter(w, jobs, log), RecordAll(m, jobs, rec), jobs[o.k], o, p);
      }
    } else {
      UntouchedKeeps(w, m, WorldAfter(w, jobs, log), RecordAll(m, jobs, rec), p);
    }
  }

  /** `p` after `o` of `job` was carried out but not recorded. */
  predicate Reclassified(w: World, m: map<Rel, Entry>, w1: World, m1: map<Rel, Entry>, job: Job, o: Outcome, p: Rel) {
    var (now, after) := (VerdictOf(w1, m1, p), At(w1, p));
    if after.l == None || after.r == None then after == Cell(None, None) && now == Forget
    else && after.l.value.data == after.r.value.data
         && now == (if FreshWrite(SpotAt(w, m, p), job, o) then Conflict else VerdictOf(w, m, p))
  }

  lemma UnrecordedIs(w: World, m: map<Rel, Entry>, w1: World, m1: map<Rel, Entry>, job: Job, o: Outcome, p: Rel)
    requires Ready(w, m) && Fitting(w, m, job) && p == job.Rel() && o.ok && Fits(job, o.a, o.b, At(w, p))
    requires At(w1, p) == Settled(job, o.a, o.b, At(w, p)) && Lookup(m1, p) == Lookup(m, p)
    ensures Reclassified(w, m, w1, m1, job, o, p)
  {
    FittingAtSpot(w, m, job, p);
    UnrecordedVerdict(SpotAt(w, m, p), job, o);
    VerdictFromSpot(w, m, p);
    VerdictFromSpot(w1, m1, p);
  }

  lemma RecordedIsInSync(w: World, m: map<Rel, Entry>, w1: World, m1: map<Rel, Entry>, job: Job, o: Outcome, p: Rel)
    requires Ready(w, m) && Fitting(w, m, job) && p == job.Rel() && o.ok && Fits(job, o.a, o.b, At(w, p))
    requires At(w1, p) == Settled(job, o.a, o.b, At(w, p)) && Lookup(m1, p) == Lookup(RecordOne(m, job, o), p)
    ensures VerdictOf(w1, m1, p) == InSync
  {
    FittingAtSpot(w, m, job, p);
    SettledIsMerged(w, m, job, o, p);
    VerdictFromSpot(w1, m1, p);
  }

  lemma UntouchedKeeps(w: World, m: map<Rel, Entry>, w1: World, m1: map<Rel, Entry>, p: Rel)
    requires Ready(w, m) && SpotAt(w1, m1, p) == SpotAt(w, m, p)
    ensures VerdictOf(w1, m1, p) == VerdictOf(w, m, p)
  {
    VerdictFromSpot(w, m, p);
    VerdictFromSpot(w1, m1, p);
    if Pruned(p) { NothingPruned(w, m, p); }
  }

  lemma NothingPruned(w: World, m: map<Rel, Entry>, p: Rel)
    requires Ready(w, m) && Pruned(p)
    ensures SpotAt(w, m, p).c.r == None && SpotAt(w, m, p).e == None
  {
  }

  // ---- What a crash leaves is a fit start for the next run ----

  ghost predicate ReadyAt(w: World, m: map<Rel, Entry>, p: Rel) {
    && (p in w.remote ==> !Pruned(p))
    && (p in m ==> !Pruned(p) && m[p].remoteID in w.used)
    && (p in w.remote && p in m && RemoteLook(At(w, p).r) == BaseRemoteOf(Lookup(m, p)) ==> w.remote[p].id == m[p].remoteID)
  }

  lemma ReadyByPath(w: World, m: map<Rel, Entry>)
    requires WellFormed(w) && forall p :: ReadyAt(w, m, p)
    ensures Ready(w, m)
  {
    forall p | p in w.remote ensures !Pruned(p) { assert ReadyAt(w, m, p); }
    forall p | p in m ensures !Pruned(p) && m[p].remoteID in w.used { assert ReadyAt(w, m, p); }
    forall p | p in m && p in w.remote && RemoteMeta(IndexOfRemote(w), p) == BaseRemote(m, p) ensures w.remote[p].id == m[p].remoteID {
      assert ReadyAt(w, m, p);
    }
  }

  lemma PathStaysReady(w: World, m: map<Rel, Entry>, plan: Plan, noDelete: bool, jobs: seq<Job>,
                       log: seq<Outcome>, rec: seq<Outcome>, p: Rel)
    requires Ready(w, m) && Planned(w, m, plan, noDelete, jobs)
    requires Execution(w, jobs, log) && DistinctKeys(log) && DistinctKeys(rec)
    requires KeysInRange(jobs, rec) && forall o :: o in rec && o.ok ==> o in log
    ensures KeysInRange(jobs, log)
    ensures WellFormed(WorldAfter(w, jobs, log))
    ensures ReadyAt(WorldAfter(w, jobs, log), RecordAll(m, jobs, rec), p)
  {
    WorldAtPath(w, m, plan, noDelete, jobs, log, p);
    BaselineAtPath(w, m, plan, noDelete, jobs, rec, p);
    RunKeepsAddresses(w, jobs, log);
    var w1, m1 := WorldAfter(w, jobs, log), RecordAll(m, jobs, rec);
    if DoneAt(jobs, rec, p) {
      var x :| DoneBy(jobs, rec, p, x);
      assert DoneBy(jobs, log, p, x);
      SettledIsMerged(w, m, jobs[x.k], x, p);
      FittingAtSpot(w, m, jobs[x.k], p);
      assert p in w1.remote ==> w1.remote[p].id in w1.used;
      assert Synced(SpotAt(w1, m1, p));
    } else {
      assert Lookup(m1, p) == Lookup(m, p);
      if DoneAt(jobs, log, p) {
        var o :| DoneBy(jobs, log, p, o);
        FittingAtSpot(w, m, jobs[o.k], p);
        assert SpotAt(w1, m1, p) == Spot(Settled(jobs[o.k], o.a, o.b, At(w, p)), Lookup(m, p));
      } else {
        assert SpotAt(w1, m1, p) == SpotAt(w, m, p);
      }
    }
  }

  lemma RunKeepsReady(w: World, m: map<Rel, Entry>, plan: Plan, noDelete: bool, jobs: seq<Job>, log: seq<Outcome>, rec: seq<Outcome>)
    requires Ready(w, m) && Planned(w, m, plan, noDelete, jobs)
    requires Execution(w, jobs, log) && DistinctKeys(log) && DistinctKeys(rec)
    requires KeysInRange(jobs, rec) && forall o :: o in rec && o.ok ==> o in log
    ensures KeysInRange(jobs, log)
    ensures Ready(WorldAfter(w, jobs, log), RecordAll(m, jobs, rec))
  {
    PathStaysReady(w, m, plan, noDelete, jobs, log, rec, "");
    forall p ensures ReadyAt(WorldAfter(w, jobs, log), RecordAll(m, jobs, rec), p) {
      PathStaysReady(w, m, plan, noDelete, jobs, log, rec, p);
    }
    ReadyByPath(WorldAfter(w, jobs, log), RecordAll(m, jobs, rec));
  }

  // ---- One run from what is on disk ----

  /** The baseline a run plans with: an empty manifest is seeded first. */
  function NextBaseline(w: World, disk: map<Rel, Entry>): map<Rel, Entry> {
    if disk == map[] then Seeded(disk, IndexOfRemote(w), WalkOf(w)) else disk
  }

  lemma NextBaselineIsReady(w: World, disk: map<Rel, Entry>)
    requires Ready(w, disk)
    ensures Ready(w, NextBaseline(w, disk))
  {
    var m := NextBaseline(w, disk);
    forall p ensures ReadyAt(w, m, p) {
    }
    ReadyByPath(w, m);
  }

  /** One run, finished or cut short: what was planned, what took effect, and which outcomes the disk has at the end. */
  datatype Session = Session(plan: Plan, noDelete: bool, log: seq<Outcome>, rec: seq<Outcome>)

  ghost predicate IsSession(w: World, disk: map<Rel, Entry>, s: Session, w': World, disk': map<Rel, Entry>) {
    var m := NextBaseline(w, disk);
    var jobs := PlanJobs(Effective(s.plan, s.noDelete));
    && Planned(w, m, s.plan, s.noDelete, jobs)
    && Execution(w, jobs, s.log) && DistinctKeys(s.log) && DistinctKeys(s.rec)
    && KeysInRange(jobs, s.rec) && (forall o :: o in s.rec && o.ok ==> o in s.log)
    && w' == WorldAfter(w, jobs, s.log)
    && (disk' == disk || disk' == RecordAll(m, jobs, s.rec))
  }

  lemma SessionKeepsReady(w: World, disk: map<Rel, Entry>, s: Session, w': World, disk': map<Rel, Entry>)
    requires Ready(w, disk) && IsSession(w, disk, s, w', disk')
    ensures Ready(w', disk')
  {
    NextBaselineIsReady(w, disk);
    var m := NextBaseline(w, disk);
    var jobs := PlanJobs(Effective(s.plan, s.noDelete));
    if disk' == RecordAll(m, jobs, s.rec) {
      RunKeepsReady(w, m, s.plan, s.noDelete, jobs, s.log, s.rec);
    } else {
      RunKeepsReady(w, m, s.plan, s.noDelete, jobs, s.log, []);
    }
  }

  /** An item replaces or removes a copy only if that copy is as the baseline says. */
  lemma LossNeedsBaseline(s: Spot, job: Job, o: Outcome)
    requires SpotFits(s, job) && Fits(job, o.a, o.b, s.c)
    ensures var after := Settled(job, o.a, o.b, s.c);
            && (s.c.r.Some? && after.r != s.c.r ==> s.e.Some? && RemoteLook(s.c.r) == BaseRemoteOf(s.e))
            && (s.c.l.Some? && after.l != s.c.l ==> s.e.Some? && LocalLook(s.c.l) == BaseLocalOf(s.e))
  {
  }

  lemma SeededIsInSync(w: World, p: Rel)
    requires p in NextBaseline(w, map[])
    ensures SpotVerdict(SpotAt(w, NextBaseline(w, map[]), p)) == InSync
  {
  }

  /** Whatever a run, finished or not, takes away or replaces on one side looked exactly as the baseline recorded it
      on that side, so nobody's unseen change is lost; and with no baseline nothing is taken away at all. */
  lemma SessionLosesNothing(w: World, disk: map<Rel, Entry>, s: Session, w': World, disk': map<Rel, Entry>, p: Rel)
    requires Ready(w, disk) && IsSession(w, disk, s, w', disk')
    ensures At(w, p).r.Some? && At(w', p).r != At(w, p).r ==> p in disk && RemoteLook(At(w, p).r) == BaseRemote(disk, p)
    ensures At(w, p).l.Some? && At(w', p).l != At(w, p).l ==> p in disk && LocalLook(At(w, p).l) == BaseLocal(disk, p)
  {
    NextBaselineIsReady(w, disk);
    var m := NextBaseline(w, disk);
    var jobs := PlanJobs(Effective(s.plan, s.noDelete));
    WorldAtPath(w, m, s.plan, s.noDelete, jobs, s.log, p);
    if DoneAt(jobs, s.log, p) {
      var o :| DoneBy(jobs, s.log, p, o);
      FittingAtSpot(w, m, jobs[o.k], p);
      LossNeedsBaseline(SpotAt(w, m, p), jobs[o.k], o);
      if disk == map[] && p in m {
        SeededIsInSync(w, p);
      }
    }
  }

  // ---- Planning again ----

  /** What of a run the disk holds: nothing without a checkpoint. */
  function Persisted(s: Session, disk: map<Rel, Entry>, disk': map<Rel, Entry>): seq<Outcome> {
    if disk' == disk then [] else s.rec
  }

  predicate SameSize(c: Cell) {
    c.l.Some? && c.r.Some? && |c.l.value.data| == |c.r.value.data|
  }

  /** A path seen with an empty manifest: taken for synced if both copies have one size. */
  function SeededVerdict(c: Cell): Verdict {
    if SameSize(c) then InSync else Merge(LocalLook(c.l), RemoteLook(c.r), None, None)
  }

  lemma VerdictWhenSeeded(w: World, p: Rel)
    requires !Pruned(p)
    ensures VerdictOf(w, NextBaseline(w, map[]), p) == SeededVerdict(At(w, p))
  {
    VerdictFromSpot(w, NextBaseline(w, map[]), p);
  }

  /** The manifest is empty after the run: whatever the run carried out is in sync all the same, and of the rest only
      a conflict between copies of one size can look different. */
  lemma EmptiedReclassifies(w: World, disk: map<Rel, Entry>, s: Session, w': World, p: Rel)
    requires Ready(w, disk) && IsSession(w, disk, s, w', map[])
    ensures var (m, jobs, now) := (NextBaseline(w, disk), PlanJobs(Effective(s.plan, s.noDelete)), VerdictOf(w', NextBaseline(w', map[]), p));
            && (!Pruned(p) ==> now == SeededVerdict(At(w', p)))
            && (DoneAt(jobs, s.log, p) ==> now == InSync)
            && (!DoneAt(jobs, s.log, p) ==> now == VerdictOf(w, m, p) || (now == InSync && VerdictOf(w, m, p) == Conflict))
  {
    NextBaselineIsReady(w, disk);
    SessionKeepsReady(w, disk, s, w', map[]);
    if !Pruned(p) {
      VerdictWhenSeeded(w', p);
    }
    if DoneAt(PlanJobs(Effective(s.plan, s.noDelete)), s.log, p) {
      CarriedOutIsSeeded(w, disk, s, w', p);
    } else {
      LeftAloneWhenSeeded(w, disk, s, w', p);
    }
  }

  lemma CarriedOutIsSeeded(w: World, disk: map<Rel, Entry>, s: Session, w': World, p: Rel)
    requires Ready(w, NextBaseline(w, disk)) && IsSession(w, disk, s, w', map[])
    requires DoneAt(PlanJobs(Effective(s.plan, s.noDelete)), s.log, p)
    ensures !Pruned(p) && SeededVerdict(At(w', p)) == InSync
  {
    var m, jobs := NextBaseline(w, disk), PlanJobs(Effective(s.plan, s.noDelete));
    WorldAtPath(w, m, s.plan, s.noDelete, jobs, s.log, p);
    var o :| DoneBy(jobs, s.log, p, o);
    FittingAtSpot(w, m, jobs[o.k], p);
    UnrecordedVerdict(SpotAt(w, m, p), jobs[o.k], o);
  }

  lemma LeftAloneWhenSeeded(w: World, disk: map<Rel, Entry>, s: Session, w': World, p: Rel)
    requires Ready(w, disk) && Ready(w, NextBaseline(w, disk)) && IsSession(w, disk, s, w', map[])
    requires !DoneAt(PlanJobs(Effective(s.plan, s.noDelete)), s.log, p)
    ensures var (now, was) := (VerdictOf(w', NextBaseline(w', map[]), p), VerdictOf(w, NextBaseline(w, disk), p));
            now == was || (now == InSync && was == Conflict)
  {
    var m, jobs := NextBaseline(w, disk), PlanJobs(Effective(s.plan, s.noDelete));
    WorldAtPath(w, m, s.plan, s.noDelete, jobs, s.log, p);
    NothingLeftRecorded(w, disk, s, w', p);
    SeededAgain(w, disk, w', p);
  }

  /** A path without an entry, seeded at the start or not, and seeded at the end. */
  lemma SeededAgain(w: World, disk: map<Rel, Entry>, w': World, p: Rel)
    requires Ready(w, NextBaseline(w, disk)) && At(w', p) == At(w, p) && p !in disk
    ensures var (now, was) := (VerdictOf(w', NextBaseline(w', map[]), p), VerdictOf(w, NextBaseline(w, disk), p));
            now == was || (now == InSync && was == Conflict)
  {
    VerdictFromSpot(w, NextBaseline(w, disk), p);
    VerdictFromSpot(w', NextBaseline(w', map[]), p);
    if Pruned(p) {
      NothingPruned(w, NextBaseline(w, disk), p);
    } else {
      VerdictWhenSeeded(w', p);
    }
  }

  /** If a run leaves the manifest empty, a path it did not carry out had no entry, but for seeding. */
  lemma NothingLeftRecorded(w: World, disk: map<Rel, Entry>, s: Session, w': World, p: Rel)
    requires Ready(w, disk) && IsSession(w, disk, s, w', map[])
    requires !DoneAt(PlanJobs(Effective(s.plan, s.noDelete)), s.log, p)
    ensures p !in disk
  {
    var m, jobs := NextBaseline(w, disk), PlanJobs(Effective(s.plan, s.noDelete));
    NextBaselineIsReady(w, disk);
    BaselineAtPath(w, m, s.plan, s.noDelete, jobs, s.rec, p);
    if x :| DoneBy(jobs, s.rec, p, x) {
      assert DoneBy(jobs, s.log, p, x);
    }
  }

  /** Planning again after a crash at any moment, or after a finished run, from the manifest on disk, seeded if it is
      empty. */
  lemma CrashReclassifies(w: World, disk: map<Rel, Entry>, s: Session, w': World, disk': map<Rel, Entry>, p: Rel)
    requires Ready(w, disk) && IsSession(w, disk, s, w', disk')
    ensures var (m, m', rec) := (NextBaseline(w, disk), NextBaseline(w', disk'), Persisted(s, disk, disk'));
            var (jobs, now) := (PlanJobs(Effective(s.plan, s.noDelete)), VerdictOf(w', m', p));
            if disk' == map[] then
              && (!Pruned(p) ==> now == SeededVerdict(At(w', p)))
              && (DoneAt(jobs, s.log, p) ==> now == InSync)
              && (!DoneAt(jobs, s.log, p) ==> now == VerdictOf(w, m, p) || (now == InSync && VerdictOf(w, m, p) == Conflict))
            else
              && (DoneAt(jobs, rec, p) ==> now == InSync)
              && (!DoneAt(jobs, s.log, p) ==> now == VerdictOf(w, m, p))
              && (forall o :: DoneBy(jobs, s.log, p, o) && !DoneAt(jobs, rec, p) ==> Reclassified(w, m, w', m', jobs[o.k], o, p))
  {
    if disk' == map[] {
      EmptiedReclassifies(w, disk, s, w', p);
    } else {
      NextBaselineIsReady(w, disk);
      RunReclassifies(w, NextBaseline(w, disk), s.plan, s.noDelete, PlanJobs(Effective(s.plan, s.noDelete)), s.log, Persisted(s, disk, disk'), p);
    }
  }

  // ---- Histories of runs ----

  /** What others do between two runs: anything to the local tree; to the remote tree anything but putting files below
      pruned directories, and making a path look, by size and mtime, as recorded with a file that is not the recorded
      one. The drive gives out no id twice. */
  ghost predicate Edited(w: World, disk: map<Rel, Entry>, v: World) {
    && WellFormed(v) && w.used <= v.used
    && forall p :: p in v.remote && Lookup(v.remote, p) != Lookup(w.remote, p) ==>
         !Pruned(p) && (p in disk && RemoteLook(At(v, p).r) == BaseRemote(disk, p) ==> v.remote[p].id == disk[p].remoteID)
  }

  lemma EditsKeepReady(w: World, disk: map<Rel, Entry>, v: World)
    requires Ready(w, disk) && Edited(w, disk, v)
    ensures Ready(v, disk)
  {
    forall p ensures ReadyAt(v, disk, p) {
      assert Lookup(v.remote, p) == Lookup(w.remote, p) ==> At(v, p).r == At(w, p).r;
    }
    ReadyByPath(v, disk);
  }

  /** Runs one after the other, each from `starts[i]` to `ends[i]`, with edits of both trees in between. */
  ghost predicate IsHistory(starts: seq<World>, ends: seq<World>, disks: seq<map<Rel, Entry>>, ss: seq<Session>) {
    && |starts| == |ends| == |ss| && |disks| == |ss| + 1
    && (forall i :: 0 <= i < |ss| ==> IsSession(starts[i], disks[i], ss[i], ends[i], disks[i + 1]))
    && (forall i {:trigger ends[i]} :: 0 <= i < |ss| - 1 ==> Edited(ends[i], disks[i + 1], starts[i + 1]))
  }

  lemma {:induction false} HistoryIsReady(starts: seq<World>, ends: seq<World>, disks: seq<map<Rel, Entry>>, ss: seq<Session>, n: nat)
    requires IsHistory(starts, ends, disks, ss) && n < |ss| && Ready(starts[0], disks[0])
    ensures Ready(starts[n], disks[n])
  {
    if n > 0 {
      HistoryIsReady(starts, ends, disks, ss, n - 1);
      NextIsReady(starts, ends, disks, ss, n - 1);
      assert n - 1 + 1 == n;
    }
  }

  lemma NextIsReady(starts: seq<World>, ends: seq<World>, disks: seq<map<Rel, Entry>>, ss: seq<Session>, n: nat)
    requires IsHistory(starts, ends, disks, ss) && n + 1 < |ss| && Ready(starts[n], disks[n])
    ensures Ready(starts[n + 1], disks[n + 1])
  {
    SessionKeepsReady(starts[n], disks[n], ss[n], ends[n], disks[n + 1]);
    EditsKeepReady(ends[n], disks[n + 1], starts[n + 1]);
  }

  /** The entry of `p` described both copies; they had the same bytes or, seeded into an empty manifest, one size. */
  ghost predicate SyncedThen(w: World, was: map<Rel, Entry>, disk: map<Rel, Entry>, p: Rel) {
    && p in w.local && p in w.remote && |w.local[p].data| == |w.remote[p].data|
    && Lookup(disk, p) == Some(Entry(|w.local[p].data|, w.local[p].mtime, w.remote[p].id, w.remote[p].mtime))
    && (was != map[] ==> w.local[p].data == w.remote[p].data)
  }

  /** A run puts an entry on disk only for copies that agree. */
  lemma RecordsTheSynced(w: World, disk: map<Rel, Entry>, s: Session, w': World, disk': map<Rel, Entry>, p: Rel)
    requires Ready(w, disk) && IsSession(w, disk, s, w', disk')
    ensures p in disk' ==> Lookup(disk', p) == Lookup(disk, p) || SyncedThen(w', disk, disk', p)
  {
    NextBaselineIsReady(w, disk);
    if disk' != disk {
      if DoneAt(PlanJobs(Effective(s.plan, s.noDelete)), s.rec, p) {
        RecordedIsSynced(w, disk, s, w', disk', p);
      } else {
        UnrecordedIsSeeded(w, disk, s, w', disk', p);
      }
    }
  }

  lemma RecordedIsSynced(w: World, disk: map<Rel, Entry>, s: Session, w': World, disk': map<Rel, Entry>, p: Rel)
    requires Ready(w, NextBaseline(w, disk)) && IsSession(w, disk, s, w', disk') && disk' != disk
    requires DoneAt(PlanJobs(Effective(s.plan, s.noDelete)), s.rec, p)
    ensures Synced(SpotAt(w', disk', p))
  {
    var m, jobs := NextBaseline(w, disk), PlanJobs(Effective(s.plan, s.noDelete));
    WorldAtPath(w, m, s.plan, s.noDelete, jobs, s.log, p);
    BaselineAtPath(w, m, s.plan, s.noDelete, jobs, s.rec, p);
    var x :| DoneBy(jobs, s.rec, p, x);
    assert DoneBy(jobs, s.log, p, x);
    SettledIsMerged(w, m, jobs[x.k], x, p);
  }

  lemma UnrecordedIsSeeded(w: World, disk: map<Rel, Entry>, s: Session, w': World, disk': map<Rel, Entry>, p: Rel)
    requires Ready(w, NextBaseline(w, disk)) && IsSession(w, disk, s, w', disk') && disk' != disk
    requires !DoneAt(PlanJobs(Effective(s.plan, s.noDelete)), s.rec, p)
    ensures p in disk' ==> Lookup(disk', p) == Lookup(disk, p) || SyncedThen(w', disk, disk', p)
  {
    var m, jobs := NextBaseline(w, disk), PlanJobs(Effective(s.plan, s.noDelete));
    BaselineAtPath(w, m, s.plan, s.noDelete, jobs, s.rec, p);
    if disk == map[] && p in m {
      WorldAtPath(w, m, s.plan, s.noDelete, jobs, s.log, p);
      SeededIsUntouched(w, m, jobs, s.log, p);
    }
  }

  lemma SeededIsUntouched(w: World, m: map<Rel, Entry>, jobs: seq<Job>, log: seq<Outcome>, p: Rel)
    requires m == NextBaseline(w, map[]) && p in m && Ready(w, m)
    requires forall o :: DoneBy(jobs, log, p, o) ==> Fitting(w, m, jobs[o.k])
    ensures !DoneAt(jobs, log, p)
  {
    SeededIsInSync(w, p);
    VerdictFromSpot(w, m, p);
    if Pruned(p) { NothingPruned(w, m, p); }
  }

  ghost predicate HasOrigin(ends: seq<World>, disks: seq<map<Rel, Entry>>, n: nat, p: Rel)
    requires n <= |ends| && |disks| == |ends| + 1
  {
    || Lookup(disks[n], p) == Lookup(disks[0], p)
    || exists j {:trigger ends[j]} :: 0 <= j < n && SyncedThen(ends[j], disks[j], disks[j + 1], p) && Lookup(disks[j + 1], p) == Lookup(disks[n], p)
  }

  /** Every entry was there from the start or comes from a run at whose end both copies agreed. */
  lemma {:induction false} EntryHasOrigin(starts: seq<World>, ends: seq<World>, disks: seq<map<Rel, Entry>>, ss: seq<Session>, n: nat, p: Rel)
    requires IsHistory(starts, ends, disks, ss) && n <= |ss| && |ss| > 0 && Ready(starts[0], disks[0])
    ensures p in disks[n] ==> HasOrigin(ends, disks, n, p)
  {
    if n > 0 && p in disks[n] {
      HistoryIsReady(starts, ends, disks, ss, n - 1);
      RecordsTheSynced(starts[n - 1], disks[n - 1], ss[n - 1], ends[n - 1], disks[n], p);
      if Lookup(disks[n], p) == Lookup(disks[n - 1], p) {
        EntryHasOrigin(starts, ends, disks, ss, n - 1, p);
      }
    }
  }

  /** No lost update, over any number of runs, any of them crashed, with any edits in between: what a run replaces or
      removes on one side looks as recorded there, and it was recorded before the first run or when both sides agreed. */
  lemma NoLostUpdate(starts: seq<World>, ends: seq<World>, disks: seq<map<Rel, Entry>>, ss: seq<Session>, n: nat, p: Rel)
    requires IsHistory(starts, ends, disks, ss) && n < |ss| && Ready(starts[0], disks[0])
    ensures var (before, after, disk) := (At(starts[n], p), At(ends[n], p), disks[n]);
            && (before.r.Some? && after.r != before.r ==>
                  p in disk && RemoteLook(before.r) == BaseRemote(disk, p) && HasOrigin(ends, disks, n, p))
            && (before.l.Some? && after.l != before.l ==>
                  p in disk && LocalLook(before.l) == BaseLocal(disk, p) && HasOrigin(ends, disks, n, p))
  {
    HistoryIsReady(starts, ends, disks, ss, n);
    SessionLosesNothing(starts[n], disks[n], ss[n], ends[n], disks[n + 1], p);
    EntryHasOrigin(starts, ends, disks, ss, n, p);
  }
}
