/** The push and pull pipelines around their pools, and what they can and cannot lose. */
module OneWay {
  import opened Types
  import opened Manifests
  import opened Pool
  import opened Collecting
  import opened Planning
  import opened MovePlanning
  import opened Worlds
  import opened Paths
  import opened TwoWay
  import opened Guard
  import opened PushTrace
  import opened PushWorld
  import opened PushCrash
  import opened PushRecovery

  datatype PushOptions = PushOptions(plan: Options, force: bool, dryRun: bool, deleteThreshold: real)

  /** `Ran` if the plan was carried out and the manifest saved, `SaveFailed` if it was carried out and not saved. */
  datatype Answer = StatFailed | Refused | Preview | Ran(result: Result) | SaveFailed(result: Result)

  predicate CarriedOut(res: Answer) {
    res.Ran? || res.SaveFailed?
  }

  /** The drift check of a push that is not forced. */
  predicate DriftKept(force: bool, m: map<Rel, Entry>, stat: int -> Stat, out: seq<Item>, kept: seq<Item>) {
    kept == if force then out else Filter(Undrifted(m, stat), out)
  }

  /** Seeding, planning, pairing and dropping. */
  method PreparePush(local: seq<LocalFile>, idx: map<Rel, IndexEntry>, m: Manifest, o: Options) returns (items: seq<Item>, out: seq<Item>)
    requires UniqueWalk(local)
    modifies m
    ensures m.entries == if Boots(o, old(m.entries)) then Bootstrapped(old(m.entries), idx, IndexOf(local)) else old(m.entries)
    ensures IsPushPlan(items, IndexOf(local), m.entries) && Rewritten(o, m.entries, items, out)
  {
    if o.refresh || (m.Len() == 0 && !o.assumeNew) {
      Bootstrap(m, idx, local);
    }
    items := PlanPush(local, m);
    out := items;
    if o.detectMoves && !o.noDelete {
      out := DetectMoves(out, m);
    }
    if o.noDelete {
      out := DropDeletes(out);
    }
  }

  /** What is on disk once the plan was carried out: every success if the final save worked, and otherwise what the
      checkpoint at `at` wrote, if any. */
  predicate SaveOutcome(res: Answer, jobs: seq<Job>, log: seq<Outcome>, base: map<Rel, Entry>,
                        before: map<Rel, Entry>, after: map<Rel, Entry>, failures: int, at: nat)
    requires KeysInRange(jobs, log)
  {
    && (res.Ran? ==> after == RecordAll(base, jobs, log))
    && (res.SaveFailed? ==>
          && failures > 0 && IsCheckpoint(log, at) && after == (if at == 0 then before else RecordAll(base, jobs, log[..at]))
          && (failures == 1 ==> at == LastCheckpoint(log)))
  }

  /** One push. The manifest is changed and saved only when the plan is carried out; `pool` says in what order which
      outcomes reach the collector. */
  method Push(local: seq<LocalFile>, idx: map<Rel, IndexEntry>, m: Manifest, disk: Disk, o: PushOptions,
              stat: int -> Stat, pool: seq<Job> -> seq<Outcome>)
    returns (res: Answer, items: seq<Item>, out: seq<Item>, kept: seq<Item>, base: map<Rel, Entry>, ghost at: nat)
    requires UniqueWalk(local) && forall jobs :: KeysInRange(jobs, pool(jobs))
    modifies m, disk
    ensures base == if Boots(o.plan, old(m.entries)) then Bootstrapped(old(m.entries), idx, IndexOf(local)) else old(m.entries)
    ensures IsPushPlan(items, IndexOf(local), base) && Rewritten(o.plan, base, items, out)
    ensures res.StatFailed? <==> !o.force && exists it :: it in out && (it.op.Overwrite? || it.op.Delete?) && stat(it.remoteID) == Failed
    ensures !res.StatFailed? ==> DriftKept(o.force, base, stat, out, kept)
    ensures !res.StatFailed? ==> (res.Refused? <==> CheckDeleteRatio(|Filter(IsDelete, kept)|, |base|, o.deleteThreshold, o.force))
    ensures !res.StatFailed? && !res.Refused? ==> (res.Preview? <==> o.dryRun)
    ensures !CarriedOut(res) ==> disk.saved == old(disk.saved) && m.entries == base
    ensures CarriedOut(res) ==> m.entries == RecordAll(base, PushJobs(kept), pool(PushJobs(kept))) && res.result == Tally(PushJobs(kept), pool(PushJobs(kept)))
    ensures CarriedOut(res) ==> SaveOutcome(res, PushJobs(kept), pool(PushJobs(kept)), base, old(disk.saved), disk.saved, disk.failures - old(disk.failures), at)
  {
    at := 0;
    items, out := PreparePush(local, idx, m, o.plan);
    base, kept := m.entries, out;
    if !o.force {
      var r := FilterPushDrift(out, m, stat);
      if r.None? {
        res := StatFailed;
        return;
      }
      kept := r.value;
    }
    var refused := GuardDeletes(kept, m.Len(), o.deleteThreshold, o.force);
    if refused {
      res := Refused;
    } else if o.dryRun {
      res := Preview;
    } else {
      var jobs := PushJobs(kept);
      var result;
      result, at := Collect(jobs, pool(jobs), m, disk);
      var ok := disk.Save(m);
      res := if ok then Ran(result) else SaveFailed(result);
    }
  }

  /** What a pull carries out of its plan. */
  function PullKept(items: seq<PullItem>, local: map<Rel, LocalFile>, m: map<Rel, Entry>, force: bool, noDelete: bool): seq<PullItem> {
    var safe := if force then items else Filter(Unedited(m, local), items);
    if noDelete then Filter(NotPullDelete, safe) else safe
  }

  method PreparePull(local: seq<LocalFile>, idx: map<Rel, IndexEntry>, m: Manifest, force: bool, noDelete: bool)
    returns (items: seq<PullItem>, kept: seq<PullItem>)
    ensures IsPullPlan(items, idx, m.entries) && kept == PullKept(items, IndexOf(local), m.entries, force, noDelete)
  {
    items := PlanPull(idx, m);
    kept := items;
    if !force {
      var byRel := IndexLocal(local);
      kept := FilterDrift(kept, byRel, m);
    }
    if noDelete {
      kept := DropPullDeletes(kept);
    }
  }

  method Pull(local: seq<LocalFile>, idx: map<Rel, IndexEntry>, m: Manifest, disk: Disk, force: bool, noDelete: bool,
              dryRun: bool, deleteThreshold: real, pool: seq<Job> -> seq<Outcome>)
    returns (res: Answer, items: seq<PullItem>, kept: seq<PullItem>, ghost at: nat)
    requires forall jobs :: KeysInRange(jobs, pool(jobs))
    modifies m, disk
    ensures IsPullPlan(items, idx, old(m.entries)) && kept == PullKept(items, IndexOf(local), old(m.entries), force, noDelete)
    ensures !res.StatFailed?
    ensures res.Refused? <==> CheckDeleteRatio(|Filter(IsPullDelete, kept)|, |old(m.entries)|, deleteThreshold, force)
    ensures !res.Refused? ==> (res.Preview? <==> dryRun)
    ensures !CarriedOut(res) ==> disk.saved == old(disk.saved) && m.entries == old(m.entries)
    ensures CarriedOut(res) ==> m.entries == RecordAll(old(m.entries), PullJobs(kept), pool(PullJobs(kept))) && res.result == Tally(PullJobs(kept), pool(PullJobs(kept)))
    ensures CarriedOut(res) ==>
              SaveOutcome(res, PullJobs(kept), pool(PullJobs(kept)), old(m.entries), old(disk.saved), disk.saved, disk.failures - old(disk.failures), at)
  {
    at := 0;
    items, kept := PreparePull(local, idx, m, force, noDelete);
    var refused := GuardPullDeletes(kept, m.Len(), deleteThreshold, force);
    if refused {
      res := Refused;
    } else if dryRun {
      res := Preview;
    } else {
      var jobs := PullJobs(kept);
      var result;
      result, at := Collect(jobs, pool(jobs), m, disk);
      var ok := disk.Save(m);
      res := if ok then Ran(result) else SaveFailed(result);
    }
  }

  // ---- What is carried out ----

  /** A push carries out, of its rewritten plan, everything if forced; and otherwise every upload and move, every
      overwrite or delete of an untracked path or an unchanged remote file, and every delete of a file that is gone. */
  lemma PushCarriesOut(force: bool, m: map<Rel, Entry>, stat: int -> Stat, out: seq<Item>, kept: seq<Item>, it: Item)
    requires DriftKept(force, m, stat, out, kept)
    ensures it in kept <==>
              && it in out
              && (force || it.op.Upload? || it.op.Move?
                  || (it.op.Delete? && stat(it.remoteID) == Gone)
                  || (it.rel !in m && stat(it.remoteID).Info?)
                  || (it.rel in m && stat(it.remoteID) == Info(m[it.rel].size, m[it.rel].remoteMtime)))
  {
    UndriftedAre(m, stat, out, it);
  }

  /** A pull carries out, of its plan, every delete unless they are turned off; and every download if forced, and
      otherwise those to a path without a file, or with a tracked one that was not edited. */
  lemma PullCarriesOut(items: seq<PullItem>, local: map<Rel, LocalFile>, m: map<Rel, Entry>, force: bool, noDelete: bool, it: PullItem)
    ensures it in PullKept(items, local, m, force, noDelete) <==>
              && it in items
              && (if it.op.DeleteLocal? then !noDelete
                  else force || it.rel !in local
                       || (it.rel in m && local[it.rel].size == m[it.rel].size && local[it.rel].mtime == m[it.rel].localMtime))
  {
    var safe := if force then items else Filter(Unedited(m, local), items);
    UneditedAre(m, local, items, it);
    NoDeletesAre([], safe);
  }

  lemma PullIsRunnable(w: World, m: map<Rel, Entry>, items: seq<PullItem>, force: bool, noDelete: bool)
    requires WellFormed(w) && IsPullPlan(items, IndexOfRemote(w), m)
    ensures Runnable(w, PullJobs(PullKept(items, WalkOf(w), m, force, noDelete)))
  {
    var kept := PullKept(items, WalkOf(w), m, force, noDelete);
    var jobs := PullJobs(kept);
    forall i | 0 <= i < |jobs| ensures Addressed(w, jobs[i]) {
      assert kept[i] in kept;
      PullCarriesOut(items, WalkOf(w), m, force, noDelete, kept[i]);
    }
    KeptIsDistinct(items, WalkOf(w), m, force, noDelete);
    forall i, j | 0 <= i < j < |jobs| ensures jobs[i].Rel() != jobs[j].Rel() {
      assert kept[i].rel != kept[j].rel;
    }
  }

  lemma KeptIsDistinct(items: seq<PullItem>, local: map<Rel, LocalFile>, m: map<Rel, Entry>, force: bool, noDelete: bool)
    requires DistinctPullRels(items)
    ensures DistinctPullRels(PullKept(items, local, m, force, noDelete))
  {
    var safe := if force then items else Filter(Unedited(m, local), items);
    FilterKeepsDistinctPull(Unedited(m, local), items);
    FilterKeepsDistinctPull(NotPullDelete, safe);
  }

  /** The path `p` as a pull leaves it when nothing fails. */
  ghost predicate Pulled(w: World, w': World, p: Rel) {
    if p in w.remote then p in w'.local && w'.local[p].data == w.remote[p].data else p !in w'.local
  }

  /** A complete pull brings every remote change that meets no local edit: where the remote file is not as recorded, and
      there is no local one or one as recorded, the local tree then has the remote bytes; a tracked path gone remotely
      is gone, unless deletes are turned off; and with force, all of it whatever is there. */
  lemma PullBringsChanges(w: World, m: map<Rel, Entry>, items: seq<PullItem>, force: bool, noDelete: bool, log: seq<Outcome>, p: Rel)
    requires WellFormed(w) && IsPullPlan(items, IndexOfRemote(w), m)
    requires var jobs := PullJobs(PullKept(items, WalkOf(w), m, force, noDelete)); Execution(w, jobs, log) && Complete(jobs, log)
    requires RemoteMeta(IndexOfRemote(w), p) != BaseRemote(m, p)
    requires if p in w.remote then force || p !in WalkOf(w) || LocalMeta(WalkOf(w), p) == BaseLocal(m, p) else !noDelete
    ensures Pulled(w, WorldAfter(w, PullJobs(PullKept(items, WalkOf(w), m, force, noDelete)), log), p)
  {
    var kept := PullKept(items, WalkOf(w), m, force, noDelete);
    var jobs := PullJobs(kept);
    var it := CopyIn(p, Lookup(IndexOfRemote(w), p));
    assert it in items;
    PullCarriesOut(items, WalkOf(w), m, force, noDelete, it);
    PullIsRunnable(w, m, items, force, noDelete);
    RunAt(w, jobs, log, p);
    var k: nat :| k < |kept| && kept[k] == it;
    assert Succeeded(log, k);
    var i :| 0 <= i < |log| && log[i].k == k && log[i].ok;
    assert DoneBy(jobs, log, p, log[i]);
  }

  // ---- The guard ----

  lemma PushItemIsPlannedFrom(items: seq<Item>, local: map<Rel, LocalFile>, m: map<Rel, Entry>, x: Item)
    requires IsPushPlan(items, local, m) && (x in items || IsMove(items, m, x))
    ensures PlannedFrom(m, Job.Push(x))
  {
    if IsMove(items, m, x) {
      MovesArePairs(items, local, m, x);
    }
  }

  /** Nothing is ever deleted for a baseline that was empty, seeded or not. */
  lemma EmptyBaselineDeletesNothing(o: Options, w: World, items: seq<Item>, out: seq<Item>)
    requires PushPlanned(o, w, Baseline(o, w, map[]), items, out)
    ensures forall x :: x in out ==> !x.op.Delete? && !x.op.Move?
  {
    var b := Baseline(o, w, map[]);
    PlanIsApart(o, w, b, items, out);
    forall x | x in out ensures !x.op.Delete? && !x.op.Move? {
      if IsMove(items, b, x) {
        MovesArePairs(items, WalkOf(w), b, x);
        assert false;
      }
    }
  }

  lemma KeptIsApart(o: Options, w: World, m: map<Rel, Entry>, items: seq<Item>, out: seq<Item>, stat: int -> Stat, force: bool, kept: seq<Item>)
    requires PushPlanned(o, w, m, items, out) && DriftKept(force, m, stat, out, kept)
    ensures DisjointFootprints(PushJobs(kept)) && Apart(kept)
    ensures forall x :: x in kept ==> (x in items || IsMove(items, m, x)) && (!force ==> Undrifted(m, stat)(x))
  {
    PlanIsApart(o, w, m, items, out);
    if !force {
      FilterMembers(Undrifted(m, stat), out);
      RewrittenIsDistinct(o, w, m, items, out);
      FilterKeepsDistinct(Undrifted(m, stat), out);
      forall i, j | 0 <= i < j < |kept| ensures Footprint(PushJobs(kept)[i]) !! Footprint(PushJobs(kept)[j]) {
        assert kept[i] in kept && kept[j] in kept;
        assert FP(kept[i]) !! FP(kept[j]);
      }
    }
  }

  lemma RewrittenIsDistinct(o: Options, w: World, m: map<Rel, Entry>, items: seq<Item>, out: seq<Item>)
    requires PushPlanned(o, w, m, items, out)
    ensures DistinctRels(out)
  {
    if o.noDelete {
      FilterKeepsDistinct(NotDelete, items);
    }
  }

  /** An unforced push that the guard lets through keeps all but the allowed fraction of the tracked files, whatever
      fails or is cut short. */
  lemma PushKeepsTracked(o: Options, w: World, m: map<Rel, Entry>, items: seq<Item>, out: seq<Item>, stat: int -> Stat,
                         kept: seq<Item>, threshold: real, log: seq<Outcome>)
    requires PushPlanned(o, w, m, items, out) && DriftKept(false, m, stat, out, kept)
    requires !CheckDeleteRatio(|Filter(IsDelete, kept)|, |m|, threshold, false)
    requires KeysInRange(PushJobs(kept), log) && DistinctKeys(log)
    ensures Keeps(|RecordAll(m, PushJobs(kept), log)|, |m|, Threshold(threshold))
  {
    KeptIsApart(o, w, m, items, out, stat, false, kept);
    forall i | 0 <= i < |kept| ensures PlannedFrom(m, Job.Push(kept[i])) {
      assert kept[i] in kept;
      PushItemIsPlannedFrom(items, WalkOf(w), m, kept[i]);
    }
    GuardedPushKeeps(m, kept, threshold, log);
  }

  // ---- What a push can lose ----

  /** The drive's answer to a stat. */
  ghost function StatOf(w: World): int -> Stat {
    (id: int) => if HasId(w, id) then Info(|DataOf(w, id)|, MtimeOf(w, id)) else Gone
  }

  ghost function MtimeOf(w: World, id: int): int
    requires HasId(w, id)
  {
    var p :| p in w.remote && w.remote[p].id == id;
    w.remote[p].mtime
  }

  lemma StatOfPath(w: World, p: Rel)
    requires WellFormed(w) && p in w.remote
    ensures StatOf(w)(w.remote[p].id) == Info(|w.remote[p].data|, w.remote[p].mtime)
  {
    assert HasId(w, w.remote[p].id);
  }

  /** How an item may change what lies at `p`: an overwrite or delete only of a file that is, by size and mtime, as the
      baseline recorded; otherwise by moving the very file, or by an upload to an untracked path. */
  predicate MayReplace(w: World, m: map<Rel, Entry>, it: Item, p: Rel)
    requires p in w.remote
  {
    match it.op
    case Upload => p == it.rel && p !in m
    case Move => w.remote[p].id == it.remoteID
    case _ => Known(w, m, it, p)
  }

  predicate Known(w: World, m: map<Rel, Entry>, it: Item, p: Rel)
    requires p in w.remote
  {
    w.remote[p].id == it.remoteID && BaseRemote(m, it.rel) == Some(Meta(|w.remote[p].data|, w.remote[p].mtime))
  }

  /** The setting of an unforced push: its plan, and what of it the drift filter keeps. */
  ghost predicate Filtered(o: Options, w: World, m: map<Rel, Entry>, items: seq<Item>, out: seq<Item>, kept: seq<Item>) {
    WellFormed(w) && PushPlanned(o, w, m, items, out) && DriftKept(false, m, StatOf(w), out, kept)
  }

  lemma KeptMayReplace(o: Options, w: World, m: map<Rel, Entry>, items: seq<Item>, out: seq<Item>, kept: seq<Item>, it: Item, p: Rel)
    requires Filtered(o, w, m, items, out, kept) && it in kept && p in w.remote
    requires if it.op.Upload? then p == it.rel else w.remote[p].id == it.remoteID
    ensures MayReplace(w, m, it, p)
  {
    KeptIsApart(o, w, m, items, out, StatOf(w), false, kept);
    StatOfPath(w, p);
    if IsMove(items, m, it) {
      MovesArePairs(items, WalkOf(w), m, it);
    }
  }

  /** An event changes what lies at a path only for the file its item is about, or for an upload to that path. */
  lemma EventChanges(w0: World, v: World, out: seq<Item>, e: Event, p: Rel)
    requires Sound(w0, v) && CanHappen(v, out, e) && p in v.remote
    requires Lookup(Next(v, out, e).remote, p) != Lookup(v.remote, p)
    ensures var it := out[ItemOfEvent(e)]; if it.op.Upload? then p == it.rel else v.remote[p].id == it.remoteID
  {
  }

  /** No lost update: an unforced push, complete or cut short between any two calls, and whatever the recorded ids are
      of by now, changes what lies at a path only by an item that may. */
  lemma {:induction false} PushLosesNoUpdate(o: Options, w: World, m: map<Rel, Entry>, items: seq<Item>, out: seq<Item>, kept: seq<Item>,
                                             es: seq<Event>, p: Rel) returns (it: Item)
    requires Filtered(o, w, m, items, out, kept) && IsTrace(w, kept, es)
    requires p in w.remote && Lookup(WorldOf(w, kept, es).remote, p) != Lookup(w.remote, p)
    ensures it in kept && MayReplace(w, m, it, p)
  {
    var front, e := es[..|es| - 1], es[|es| - 1];
    if Lookup(WorldOf(w, kept, front).remote, p) != Lookup(w.remote, p) {
      it := PushLosesNoUpdate(o, w, m, items, out, kept, front, p);
    } else {
      TraceIsSound(w, kept, front);
      EventChanges(w, WorldOf(w, kept, front), kept, e, p);
      it := kept[ItemOfEvent(e)];
      KeptMayReplace(o, w, m, items, out, kept, it, p);
    }
  }

  // ---- What becomes of the bytes ----

  /** A move in the plan brings the file with this id to the folder of `q`. */
  ghost predicate FolderOfMove(kept: seq<Item>, id: int, q: Rel) {
    exists mv :: mv in kept && mv.op.Move? && mv.remoteID == id && DirOf(mv.rel) == DirOf(q)
  }

  /** The name of `q` is one that a move in the plan gives the file with this id. */
  ghost predicate NameOfMove(kept: seq<Item>, id: int, q: Rel) {
    exists mv :: mv in kept && mv.op.Move? && mv.remoteID == id && BaseOf(mv.rel) == BaseOf(q)
  }

  /** Where the file from `p` can be: where it was, or in the folder of a move of it, under its old name or one that a
      move gives it. With one move of it, these are its old path, the one halfway and the new one. */
  ghost predicate MayBeAt(kept: seq<Item>, id: int, p: Rel, q: Rel) {
    q == p || (FolderOfMove(kept, id, q) && (BaseOf(q) == BaseOf(p) || NameOfMove(kept, id, q)))
  }

  lemma OneMoveMeansThree(kept: seq<Item>, id: int, p: Rel, q: Rel, mv: Item)
    requires mv in kept && mv.op.Move? && mv.remoteID == id && forall x :: x in kept && x.op.Move? && x.remoteID == id ==> x == mv
    ensures MayBeAt(kept, id, p, q) <==> q == p || q == Halfway(p, mv.rel) || q == mv.rel
  {
    HalfwayParts(p, mv.rel);
    if MayBeAt(kept, id, p, q) && q != p {
      if BaseOf(q) == BaseOf(p) {
        SameParts(q, Halfway(p, mv.rel));
      } else {
        SameParts(q, mv.rel);
      }
    }
  }

  /** How an item may destroy the bytes of the file at `p`: as a known file; or by an upload to an untracked path where
      the file is, or where a move brings it. */
  ghost predicate MayDestroy(w: World, m: map<Rel, Entry>, kept: seq<Item>, it: Item, p: Rel)
    requires p in w.remote
  {
    match it.op
    case Upload => it.rel !in m && MayBeAt(kept, w.remote[p].id, p, it.rel)
    case Move => false
    case _ => Known(w, m, it, p)
  }

  /** The file that was at `p` is still there with its bytes, where it was or where a move brings it. */
  ghost predicate BytesThere(w: World, kept: seq<Item>, v: World, p: Rel)
    requires p in w.remote
  {
    var id := w.remote[p].id;
    HasId(v, id) && DataOf(v, id) == w.remote[p].data && MayBeAt(kept, id, p, PathOf(v, id))
  }

  lemma BytesAfter(w: World, kept: seq<Item>, v: World, e: Event, p: Rel)
    requires p in w.remote && Sound(w, v) && CanHappen(v, kept, e) && BytesThere(w, kept, v, p)
    ensures var it := kept[ItemOfEvent(e)];
            || BytesThere(w, kept, Next(v, kept, e), p)
            || (e.Call? && e.o.ok && (if it.op.Upload? then it.rel == PathOf(v, w.remote[p].id) else !it.op.Move? && it.remoteID == w.remote[p].id))
  {
    var id, v', it := w.remote[p].id, Next(v, kept, e), kept[ItemOfEvent(e)];
    var q := PathOf(v, id);
    if it.op.Move? && it.remoteID == id && (e.Shift? || e.o.ok) {
      HalfwayParts(q, it.rel);
      var to := if e.Call? then it.rel else Halfway(q, it.rel);
      MovedMayBeAt(kept, id, p, q, it, to);
      assert v'.remote[to].id == id;
    } else if Lookup(v'.remote, q) == Lookup(v.remote, q) {
      assert v'.remote[q].id == id;
    } else {
      EventChanges(w, v, kept, e, q);
    }
  }

  lemma MovedMayBeAt(kept: seq<Item>, id: int, p: Rel, q: Rel, it: Item, to: Rel)
    requires MayBeAt(kept, id, p, q) && it in kept && it.op.Move? && it.remoteID == id
    requires to == it.rel || (DirOf(to) == DirOf(it.rel) && BaseOf(to) == BaseOf(q))
    ensures MayBeAt(kept, id, p, to)
  {
    if to == it.rel {
      assert NameOfMove(kept, id, to);
    } else if mv :| q != p && BaseOf(q) != BaseOf(p) && mv in kept && mv.op.Move? && mv.remoteID == id && BaseOf(mv.rel) == BaseOf(q) {
      assert NameOfMove(kept, id, to);
    }
  }

  /** No bytes are lost unknown: whatever an unforced push does, the bytes of a remote file are still on the drive, or
      the file was, by size and mtime, as the baseline recorded for an overwrite or delete of it, or an upload went to
      its untracked path, or to one where a move brings it, halfway or for good. */
  lemma {:induction false} PushKeepsBytes(o: Options, w: World, m: map<Rel, Entry>, items: seq<Item>, out: seq<Item>, kept: seq<Item>,
                                          es: seq<Event>, p: Rel)
    requires Filtered(o, w, m, items, out, kept) && IsTrace(w, kept, es) && p in w.remote
    ensures BytesThere(w, kept, WorldOf(w, kept, es), p) || exists it :: it in kept && MayDestroy(w, m, kept, it, p)
  {
    if es == [] {
      assert PathOf(w, w.remote[p].id) == p;
    } else {
      var front, e := es[..|es| - 1], es[|es| - 1];
      PushKeepsBytes(o, w, m, items, out, kept, front, p);
      var v := WorldOf(w, kept, front);
      if BytesThere(w, kept, v, p) {
        TraceIsSound(w, kept, front);
        BytesAfter(w, kept, v, e, p);
        KeptMayDestroy(o, w, m, items, out, kept, kept[ItemOfEvent(e)], v, p);
      }
    }
  }

  lemma KeptMayDestroy(o: Options, w: World, m: map<Rel, Entry>, items: seq<Item>, out: seq<Item>, kept: seq<Item>, it: Item, v: World, p: Rel)
    requires Filtered(o, w, m, items, out, kept) && it in kept && p in w.remote && BytesThere(w, kept, v, p)
    ensures (if it.op.Upload? then it.rel == PathOf(v, w.remote[p].id) else !it.op.Move? && it.remoteID == w.remote[p].id) ==>
              MayDestroy(w, m, kept, it, p)
  {
    KeptIsApart(o, w, m, items, out, StatOf(w), false, kept);
    StatOfPath(w, p);
    if IsMove(items, m, it) {
      MovesArePairs(items, WalkOf(w), m, it);
    }
  }

  /** Where recorded ids name the file at their own path, and no upload goes where a move passes through, a move keeps
      its file's bytes at every moment. */
  lemma MovesKeepBytes(w: World, kept: seq<Item>, es: seq<Event>, it: Item)
    requires Startable(w, kept) && !Crossed(kept) && IsTrace(w, kept, es)
    requires it in kept && it.op.Move? && HasId(w, it.remoteID)
    ensures var v := WorldOf(w, kept, es); HasId(v, it.remoteID) && DataOf(v, it.remoteID) == DataOf(w, it.remoteID)
  {
    StartIsInProgress(w, kept);
    RunInProgress(w, kept, w, kept, es);
    StillThere(w, kept, WorldOf(w, kept, es), it);
  }

  lemma StillThere(w: World, kept: seq<Item>, v: World, it: Item)
    requires Startable(w, kept) && InProgress(w, kept, v) && it in kept && it.op.Move? && HasId(w, it.remoteID)
    ensures HasId(v, it.remoteID) && DataOf(v, it.remoteID) == DataOf(w, it.remoteID)
  {
    var c := Core(kept, v);
    assert ItemOk(w, kept, v, it) && Placed(w, it);
    CoreAt(kept, v, it.srcRel);
    CoreAt(kept, v, it.rel);
    if Fresh(w, c, it) {
      assert it.srcRel in FP(it) && Lookup(c.remote, it.srcRel) == Lookup(w.remote, it.srcRel);
    }
    assert HasId(v, it.remoteID);
    MovedData(w, kept, v, it);
  }
}
