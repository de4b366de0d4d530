/** Attempts at a forced push, each picking up the disk and the remote tree the one before left behind. */
module PushRecovery {
  import opened Types
  import opened Paths
  import opened Pool
  import opened Worlds
  import opened Collecting
  import opened Planning
  import opened MovePlanning
  import opened TwoWay
  import opened PushTrace
  import opened PushWorld
  import opened PushCrash

  /** What was planned, what is carried out, what had happened by the end, and which answers a checkpoint recorded. */
  datatype Attempt = Attempt(items: seq<Item>, out: seq<Item>, es: seq<Event>, rec: seq<Outcome>)

  /** One attempt, finished or not. Without a checkpoint the disk stays as it was, unseeded. A call that takes effect
      although its answer is lost is a success among the events that no checkpoint records. */
  ghost predicate IsAttempt(o: Options, w: World, disk: map<Rel, Entry>, a: Attempt, w': World, disk': map<Rel, Entry>) {
    var (b, jobs) := (Baseline(o, w, disk), PushJobs(a.out));
    && PushPlanned(o, w, b, a.items, a.out)
    && IsTrace(w, a.out, a.es) && w' == WorldOf(w, a.out, a.es)
    && KeysInRange(jobs, a.rec) && DistinctKeys(a.rec) && (forall x :: x in a.rec ==> x in Outcomes(a.es))
    && (disk' == disk || disk' == RecordAll(b, jobs, a.rec))
  }

  /** Every item was carried out. */
  ghost predicate Completed(a: Attempt) {
    forall k: nat :: k < |a.out| ==> Succeeded(Outcomes(a.es), k)
  }

  /** The baseline's ids were given out by the drive and name the file at their own path, if any. */
  ghost predicate IdsNamed(w: World, b: map<Rel, Entry>) {
    && WellFormed(w)
    && forall p :: p in b ==> b[p].remoteID in w.used && forall q :: q in w.remote ==> (w.remote[q].id == b[p].remoteID <==> q == p)
  }

  // ---- The first plan ----

  lemma PlanIsApart(o: Options, w: World, b: map<Rel, Entry>, items: seq<Item>, out: seq<Item>)
    requires PushPlanned(o, w, b, items, out)
    ensures DisjointFootprints(PushJobs(out)) && Apart(out)
    ensures forall x :: x in out ==> x in items || IsMove(items, b, x)
  {
    if !o.noDelete && o.detectMoves {
      RewriteKeepsFootprintsDisjoint(items, WalkOf(w), b, out);
    } else if o.noDelete {
      FilterMembers(NotDelete, items);
      FilterKeepsDistinct(NotDelete, items);
      NoMoves(items, WalkOf(w), b, out);
    } else {
      NoMoves(items, WalkOf(w), b, out);
    }
    DisjointIsApart(out);
  }

  lemma NoMoves(items: seq<Item>, local: map<Rel, LocalFile>, b: map<Rel, Entry>, out: seq<Item>)
    requires IsPushPlan(items, local, b) && DistinctRels(out) && forall x :: x in out ==> x in items
    ensures DisjointFootprints(PushJobs(out))
  {
    forall i, j | 0 <= i < j < |out| ensures Footprint(PushJobs(out)[i]) !! Footprint(PushJobs(out)[j]) {
      assert out[i] in out && out[j] in out;
      assert out[i] in items && out[j] in items;
    }
  }

  lemma DisjointIsApart(out: seq<Item>)
    requires DisjointFootprints(PushJobs(out))
    ensures Apart(out)
  {
    var jobs := PushJobs(out);
    forall x, y | x in out && y in out && x != y ensures FP(x) !! FP(y) {
      var i :| 0 <= i < |out| && out[i] == x;
      var j :| 0 <= j < |out| && out[j] == y;
      assert FP(x) == Footprint(jobs[i]) && FP(y) == Footprint(jobs[j]);
      if i < j { assert Footprint(jobs[i]) !! Footprint(jobs[j]); } else { assert Footprint(jobs[j]) !! Footprint(jobs[i]); }
    }
  }

  lemma ItemIsPlaced(w: World, b: map<Rel, Entry>, items: seq<Item>, x: Item)
    requires IsPushPlan(items, WalkOf(w), b) && (x in items || IsMove(items, b, x)) && IdsNamed(w, b)
    ensures Placed(w, x)
  {
    if IsMove(items, b, x) {
      MovesArePairs(items, WalkOf(w), b, x);
    }
  }

  lemma PlanStartsInProgress(o: Options, w: World, b: map<Rel, Entry>, items: seq<Item>, out: seq<Item>)
    requires PushPlanned(o, w, b, items, out) && IdsNamed(w, b)
    ensures Startable(w, out) && InProgress(w, out, w) && Core(out, w) == w
  {
    PlanIsApart(o, w, b, items, out);
    forall x | x in out ensures Placed(w, x) {
      ItemIsPlaced(w, b, items, x);
    }
    StartIsInProgress(w, out);
  }

  // ---- The next baseline ----

  /** A push told to refresh its baseline moves nothing. */
  predicate RefreshesNoMove(o: Options, plan: seq<Item>) {
    o.refresh ==> forall x :: x in plan ==> !x.op.Move?
  }

  /** A push that seeds its baseline has no moves. */
  lemma SeededHasNoMoves(o: Options, w: World, disk: map<Rel, Entry>, items: seq<Item>, out: seq<Item>)
    requires Boots(o, disk) && RefreshesNoMove(o, out)
    requires PushPlanned(o, w, Baseline(o, w, disk), items, out)
    ensures forall x :: x in out ==> x in items && !x.op.Move?
  {
    var b := Baseline(o, w, disk);
    if o.noDelete {
      FilterMembers(NotDelete, items);
    } else if o.detectMoves {
      forall x | x in out ensures !IsMove(items, b, x) {
        if !o.refresh && IsMove(items, b, x) {
          MovesArePairs(items, WalkOf(w), b, x);
          assert false;
        }
      }
    }
  }

  lemma SeededEntry(w: World, disk: map<Rel, Entry>, p: Rel)
    ensures Lookup(Bootstrapped(disk, IndexOfRemote(w), WalkOf(w)), p) ==
            if p in WalkOf(w) && p in w.remote then Some(Entry(|w.remote[p].data|, w.local[p].mtime, w.remote[p].id, w.remote[p].mtime))
            else Lookup(disk, p)
  {
  }

  /** Seeding again, from a remote tree an earlier attempt has worked on. */
  lemma SeededItem(w0: World, disk0: map<Rel, Entry>, items: seq<Item>, v: World, disk: map<Rel, Entry>, it: Item)
    requires var b0 := Bootstrapped(disk0, IndexOfRemote(w0), WalkOf(w0));
             IsPushPlan(items, WalkOf(w0), b0) && (disk == disk0 || EntryOk(w0, b0, v, disk, it))
    requires it in items && v.local == w0.local && (Fresh(w0, v, it) || Done(w0, v, it))
    ensures EntryOk(w0, Bootstrapped(disk0, IndexOfRemote(w0), WalkOf(w0)), v, Bootstrapped(disk, IndexOfRemote(v), WalkOf(v)), it)
  {
    var p := it.rel;
    SeededEntry(w0, disk0, p);
    SeededEntry(v, disk, p);
    assert FP(it) == {p};
    if Fresh(w0, v, it) {
      assert Lookup(v.remote, p) == Lookup(w0.remote, p);
    } else {
      assert ContentAt(v, p) == Aim(w0, it, p);
    }
  }

  lemma SeededOutside(w0: World, disk0: map<Rel, Entry>, v: World, disk: map<Rel, Entry>, p: Rel)
    requires v.local == w0.local && Lookup(v.remote, p) == Lookup(w0.remote, p)
    requires Lookup(disk, p) == Lookup(disk0, p) || Lookup(disk, p) == Lookup(Bootstrapped(disk0, IndexOfRemote(w0), WalkOf(w0)), p)
    ensures Lookup(Bootstrapped(disk, IndexOfRemote(v), WalkOf(v)), p) == Lookup(Bootstrapped(disk0, IndexOfRemote(w0), WalkOf(w0)), p)
  {
    SeededEntry(w0, disk0, p);
    SeededEntry(v, disk, p);
  }

  /** Between attempts: the remote tree is somewhere along the first plan, and the disk is as at the start or at a
      baseline that records only what is done. */
  ghost predicate Underway(o: Options, w0: World, disk0: map<Rel, Entry>, plan: seq<Item>, v: World, disk: map<Rel, Entry>) {
    InProgress(w0, plan, v) && (disk == disk0 || Behind(w0, Baseline(o, w0, disk0), plan, Core(plan, v), disk))
  }

  /** The baseline the next attempt plans from differs from the first attempt's only where things are done. */
  lemma NextBaselineIsBehind(o: Options, w0: World, disk0: map<Rel, Entry>, items0: seq<Item>, plan: seq<Item>, v: World, disk: map<Rel, Entry>)
    requires Underway(o, w0, disk0, plan, v, disk) && RefreshesNoMove(o, plan)
    requires PushPlanned(o, w0, Baseline(o, w0, disk0), items0, plan)
    requires Boots(o, disk) ==> Boots(o, disk0)
    ensures Behind(w0, Baseline(o, w0, disk0), plan, Core(plan, v), Baseline(o, v, disk))
  {
    var b0, b := Baseline(o, w0, disk0), Baseline(o, v, disk);
    if Boots(o, disk) {
      SeededHasNoMoves(o, w0, disk0, items0, plan);
      NothingPassing(w0, plan, v);
      forall it | it in plan ensures EntryOk(w0, b0, v, b, it) {
        assert ItemOk(w0, plan, v, it);
        SeededItem(w0, disk0, items0, v, disk, it);
      }
      forall p | Outside(plan, p) ensures Lookup(b, p) == Lookup(b0, p) {
        assert Lookup(Core(plan, v).remote, p) == Lookup(w0.remote, p);
        SeededOutside(w0, disk0, v, disk, p);
      }
    } else {
      assert disk == disk0 ==> b == b0;
    }
  }

  // ---- One attempt ----

  /** Some success of `rec` was for item `it`. */
  ghost predicate RecordedBy(out: seq<Item>, rec: seq<Outcome>, it: Item, x: Outcome) {
    x in rec && x.ok && x.k < |out| && out[x.k] == it
  }

  lemma EntryAfter(w0: World, b0: map<Rel, Entry>, items: seq<Item>, plan: seq<Item>, v: World, v': World,
                   b: map<Rel, Entry>, out: seq<Item>, rec: seq<Outcome>, it: Item)
    requires IsPushPlan(items, WalkOf(w0), b) && (forall x :: x in out ==> x in plan && (x in items || IsMove(items, b, x)))
    requires Apart(plan) && DisjointFootprints(PushJobs(out)) && it in plan
    requires KeysInRange(PushJobs(out), rec) && DistinctKeys(rec)
    requires EntryOk(w0, b0, v, b, it) && (Done(w0, v, it) ==> Done(w0, v', it))
    requires forall x :: x in rec && x.ok ==> Done(w0, v', out[x.k])
    ensures EntryOk(w0, b0, v', RecordAll(b, PushJobs(out), rec), it)
  {
    var jobs, after := PushJobs(out), RecordAll(b, PushJobs(out), rec);
    if x :| RecordedBy(out, rec, it, x) {
      assert out[x.k] in out;
      forall p | p in FP(it) ensures BaseLocal(after, p) == LocalMeta(WalkOf(w0), p) {
        RecordedAt(b, jobs, rec, p);
        assert TouchedBy(jobs, rec, p, x);
        RecordMatchesLocal(items, WalkOf(w0), b, it, x, p);
      }
    } else {
      forall p | p in FP(it) ensures Lookup(after, p) == Lookup(b, p) && BaseLocal(after, p) == BaseLocal(b, p) {
        NotTouched(plan, out, rec, it, p);
        RecordedAt(b, jobs, rec, p);
        assert Lookup(after, p) == Lookup(b, p);
      }
    }
  }

  lemma NotTouched(plan: seq<Item>, out: seq<Item>, rec: seq<Outcome>, it: Item, p: Rel)
    requires Apart(plan) && (forall x :: x in out ==> x in plan) && KeysInRange(PushJobs(out), rec)
    requires it in plan && p in FP(it) && forall x :: !RecordedBy(out, rec, it, x)
    ensures forall x :: !TouchedBy(PushJobs(out), rec, p, x)
  {
    forall x | x in rec && x.ok ensures p !in FP(out[x.k]) {
      assert out[x.k] in out;
      assert !RecordedBy(out, rec, it, x);
    }
  }

  lemma OutsideAfter(plan: seq<Item>, b: map<Rel, Entry>, out: seq<Item>, rec: seq<Outcome>, p: Rel)
    requires (forall x :: x in out ==> x in plan) && DisjointFootprints(PushJobs(out))
    requires KeysInRange(PushJobs(out), rec) && DistinctKeys(rec) && Outside(plan, p)
    ensures Lookup(RecordAll(b, PushJobs(out), rec), p) == Lookup(b, p)
  {
    forall x ensures !TouchedBy(PushJobs(out), rec, p, x) {
      if x.k < |out| {
        assert out[x.k] in out;
      }
    }
    RecordedAt(b, PushJobs(out), rec, p);
  }

  /** What the first attempt starts from and plans. */
  ghost predicate StartsWith(o: Options, w0: World, disk0: map<Rel, Entry>, items0: seq<Item>, plan: seq<Item>) {
    var b0 := Baseline(o, w0, disk0);
    && IdsNamed(w0, b0)
    && PushPlanned(o, w0, b0, items0, plan)
    && (o.detectMoves ==> Unambiguous(items0, b0))
  }

  /** The setting of a recovery. */
  ghost predicate Recoverable(o: Options, w0: World, disk0: map<Rel, Entry>, items0: seq<Item>, plan: seq<Item>) {
    StartsWith(o, w0, disk0, items0, plan) && RefreshesNoMove(o, plan)
  }

  lemma AttemptPlan(o: Options, w0: World, disk0: map<Rel, Entry>, items0: seq<Item>, plan: seq<Item>,
                    v: World, disk: map<Rel, Entry>, a: Attempt, v': World, disk': map<Rel, Entry>)
    requires Recoverable(o, w0, disk0, items0, plan) && Underway(o, w0, disk0, plan, v, disk)
    requires (Boots(o, disk) ==> Boots(o, disk0)) && IsAttempt(o, v, disk, a, v', disk')
    ensures Behind(w0, Baseline(o, w0, disk0), plan, Core(plan, v), Baseline(o, v, disk))
    ensures forall x :: x in a.out ==> x in plan
    ensures forall x :: x in plan && x !in a.out ==> Done(w0, Core(plan, v), x)
  {
    NextBaselineIsBehind(o, w0, disk0, items0, plan, v, disk);
    var b0, b, c := Baseline(o, w0, disk0), Baseline(o, v, disk), Core(plan, v);
    assert WalkOf(c) == WalkOf(v);
    forall x ensures x in a.out ==> x in plan {
      PlanShrinks(o, w0, b0, items0, plan, c, b, a.items, a.out, x);
    }
    forall x | x in plan && x !in a.out ensures Done(w0, c, x) {
      PlanShrinks(o, w0, b0, items0, plan, c, b, a.items, a.out, x);
      assert EntryOk(w0, b0, c, b, x);
    }
  }

  lemma AttemptKeepsUnderway(o: Options, w0: World, disk0: map<Rel, Entry>, items0: seq<Item>, plan: seq<Item>,
                             v: World, disk: map<Rel, Entry>, a: Attempt, v': World, disk': map<Rel, Entry>)
    requires Recoverable(o, w0, disk0, items0, plan) && !Crossed(plan) && Underway(o, w0, disk0, plan, v, disk)
    requires (Boots(o, disk) ==> Boots(o, disk0)) && IsAttempt(o, v, disk, a, v', disk')
    ensures Underway(o, w0, disk0, plan, v', disk')
    ensures Completed(a) ==> forall it :: it in plan ==> Done(w0, Core(plan, v'), it)
  {
    var b0, b, c, c' := Baseline(o, w0, disk0), Baseline(o, v, disk), Core(plan, v), Core(plan, v');
    AttemptPlan(o, w0, disk0, items0, plan, v, disk, a, v', disk');
    PlanStartsInProgress(o, w0, b0, items0, plan);
    PlanIsApart(o, v, b, a.items, a.out);
    RunInProgress(w0, plan, v, a.out, a.es);
    BaselineAfter(w0, b0, plan, c, c', b, a);
    if disk' == disk && disk != disk0 {
      StillBehind(w0, b0, plan, c, c', disk);
    }
    if Completed(a) {
      AllOfItDone(w0, plan, c, c', a);
    }
  }

  lemma AllOfItDone(w0: World, plan: seq<Item>, c: World, c': World, a: Attempt)
    requires Completed(a)
    requires forall x :: x in plan && x !in a.out ==> Done(w0, c, x)
    requires forall y :: y in plan && Done(w0, c, y) ==> Done(w0, c', y)
    requires forall x :: x in Outcomes(a.es) && x.ok ==> x.k < |a.out| && Done(w0, c', a.out[x.k])
    ensures forall it :: it in plan ==> Done(w0, c', it)
  {
    forall it | it in plan ensures Done(w0, c', it) {
      if it in a.out {
        var k: nat :| k < |a.out| && a.out[k] == it;
        assert Succeeded(Outcomes(a.es), k);
      }
    }
  }

  lemma StillBehind(w0: World, b0: map<Rel, Entry>, plan: seq<Item>, v: World, v': World, b: map<Rel, Entry>)
    requires Behind(w0, b0, plan, v, b) && forall y :: y in plan && Done(w0, v, y) ==> Done(w0, v', y)
    ensures Behind(w0, b0, plan, v', b)
  {
    forall it | it in plan ensures EntryOk(w0, b0, v', b, it) {
      assert EntryOk(w0, b0, v, b, it);
    }
  }

  lemma BaselineAfter(w0: World, b0: map<Rel, Entry>, plan: seq<Item>, v: World, v': World, b: map<Rel, Entry>, a: Attempt)
    requires Behind(w0, b0, plan, v, b) && Apart(plan) && IsPushPlan(a.items, WalkOf(w0), b)
    requires forall x :: x in a.out ==> x in plan && (x in a.items || IsMove(a.items, b, x))
    requires DisjointFootprints(PushJobs(a.out)) && KeysInRange(PushJobs(a.out), a.rec) && DistinctKeys(a.rec)
    requires forall x :: x in a.rec ==> x in Outcomes(a.es)
    requires forall y :: y in plan && Done(w0, v, y) ==> Done(w0, v', y)
    requires forall x :: x in Outcomes(a.es) && x.ok ==> x.k < |a.out| && Done(w0, v', a.out[x.k])
    ensures Behind(w0, b0, plan, v', RecordAll(b, PushJobs(a.out), a.rec))
  {
    forall it | it in plan ensures EntryOk(w0, b0, v', RecordAll(b, PushJobs(a.out), a.rec), it) {
      EntryAfter(w0, b0, a.items, plan, v, v', b, a.out, a.rec, it);
    }
    forall p | Outside(plan, p) ensures Lookup(RecordAll(b, PushJobs(a.out), a.rec), p) == Lookup(b0, p) {
      OutsideAfter(plan, b, a.out, a.rec, p);
    }
  }

  /** Stopped at any moment of any schedule of its pool, a push is an attempt that recorded what the last save that
      worked wrote: the first `n` outcomes handled, or nothing. If no save fails, `n` is the last checkpoint, and all of
      them after the final save. `es` is what has happened by then: every answer a worker got, in whatever order the
      calls took effect, the calls under way, those whose answers were lost, and the moves that are half done. */
  lemma PoolMomentIsAttempt(o: Options, w: World, disk: map<Rel, Entry>, items: seq<Item>, out: seq<Item>, workers: int,
                            steps: seq<Step>, es: seq<Event>, n: nat)
    requires PushPlanned(o, w, Baseline(o, w, disk), items, out)
    requires IsRun(Config(|out|, workers, true), steps)
    requires IsTrace(w, out, es)
    requires forall x :: x in After(Config(|out|, workers, true), steps).produced ==> x in Outcomes(es)
    ensures var s := After(Config(|out|, workers, true), steps);
            && KeysInRange(PushJobs(out), s.handled) && s.persisted <= |s.handled|
            && IsAttempt(o, w, disk, Attempt(items, out, es, []), WorldOf(w, out, es), disk)
            && (n <= |s.handled| ==>
                  IsAttempt(o, w, disk, Attempt(items, out, es, s.handled[..n]), WorldOf(w, out, es),
                            RecordAll(Baseline(o, w, disk), PushJobs(out), s.handled[..n])))
  {
    var c := Config(|out|, workers, true);
    OutcomesAreUnique(c, steps);
    BoundedRework(c, steps);
  }

  // ---- Main results ----

  /** Attempts one after the other with the same options. None seeds its baseline unless the first one does: the
      manifest, if it had entries, is not emptied on the way. */
  ghost predicate IsHistory(o: Options, ws: seq<World>, disks: seq<map<Rel, Entry>>, attempts: seq<Attempt>) {
    && |ws| == |disks| == |attempts| + 1
    && forall i :: 0 <= i < |attempts| ==>
         IsAttempt(o, ws[i], disks[i], attempts[i], ws[i + 1], disks[i + 1]) && (Boots(o, disks[i]) ==> Boots(o, disks[0]))
  }

  /** A history from a start: what the first attempt finds. */
  ghost predicate StartsAt(w0: World, disk0: map<Rel, Entry>, ws: seq<World>, disks: seq<map<Rel, Entry>>) {
    ws != [] && disks != [] && ws[0] == w0 && disks[0] == disk0
  }

  lemma {:induction false} HistoryIsUnderway(o: Options, ws: seq<World>, disks: seq<map<Rel, Entry>>, attempts: seq<Attempt>,
                                             items0: seq<Item>, plan: seq<Item>, n: nat)
    requires IsHistory(o, ws, disks, attempts) && n <= |attempts|
    requires Recoverable(o, ws[0], disks[0], items0, plan) && !Crossed(plan)
    ensures Underway(o, ws[0], disks[0], plan, ws[n], disks[n])
  {
    if n == 0 {
      PlanStartsInProgress(o, ws[0], Baseline(o, ws[0], disks[0]), items0, plan);
    } else {
      HistoryIsUnderway(o, ws, disks, attempts, items0, plan, n - 1);
      AttemptKeepsUnderway(o, ws[0], disks[0], items0, plan, ws[n - 1], disks[n - 1], attempts[n - 1], ws[n], disks[n]);
    }
  }

  /** What the first plan is for: its items' aims at their paths, and every other path as it was. */
  ghost predicate Reached(w0: World, plan: seq<Item>, w: World) {
    && (forall it, p :: it in plan && p in FP(it) ==> ContentAt(w, p) == Aim(w0, it, p))
    && (forall p :: Outside(plan, p) ==> ContentAt(w, p) == ContentAt(w0, p))
  }

  lemma DoneIsReached(w0: World, plan: seq<Item>, v: World)
    requires InProgress(w0, plan, v) && forall it :: it in plan ==> Done(w0, Core(plan, v), it)
    ensures Reached(w0, plan, v)
  {
    NothingPassing(w0, plan, v);
    forall p | Outside(plan, p) ensures ContentAt(v, p) == ContentAt(w0, p) {
      assert Lookup(Core(plan, v).remote, p) == Lookup(w0.remote, p);
    }
  }

  /** However often a forced push crashes, between any two calls, once an attempt completes the remote files are what
      the first plan was for, as long as no upload goes where a move passes through. */
  lemma CrashedPushReachesItsAim(o: Options, ws: seq<World>, disks: seq<map<Rel, Entry>>, attempts: seq<Attempt>,
                                 items0: seq<Item>, plan: seq<Item>)
    requires IsHistory(o, ws, disks, attempts) && attempts != []
    requires Recoverable(o, ws[0], disks[0], items0, plan) && !Crossed(plan)
    requires Completed(attempts[|attempts| - 1])
    ensures Reached(ws[0], plan, ws[|attempts|])
  {
    var n := |attempts|;
    HistoryIsUnderway(o, ws, disks, attempts, items0, plan, n - 1);
    AttemptKeepsUnderway(o, ws[0], disks[0], items0, plan, ws[n - 1], disks[n - 1], attempts[n - 1], ws[n], disks[n]);
    DoneIsReached(ws[0], plan, ws[n]);
  }

  /** Crashing, any number of times and anywhere, and running again until done gives the same remote contents as the
      same push uninterrupted, as long as no upload goes where a move passes through. */
  lemma CrashesDoNotMatter(o: Options, ws: seq<World>, disks: seq<map<Rel, Entry>>, attempts: seq<Attempt>,
                           once: Attempt, w: World, disk: map<Rel, Entry>, p: Rel)
    requires IsHistory(o, ws, disks, attempts) && attempts != []
    requires Recoverable(o, ws[0], disks[0], once.items, once.out) && !Crossed(once.out)
    requires IsAttempt(o, ws[0], disks[0], once, w, disk) && Completed(once)
    requires Completed(attempts[|attempts| - 1])
    ensures ContentAt(ws[|attempts|], p) == ContentAt(w, p)
  {
    CrashedPushReachesItsAim(o, ws, disks, attempts, once.items, once.out);
    CrashedPushReachesItsAim(o, [ws[0], w], [disks[0], disk], [once], once.items, once.out);
    if it :| it in once.out && p in FP(it) {
      assert ContentAt(w, p) == Aim(ws[0], it, p);
    } else {
      assert Outside(once.out, p);
    }
  }
}
