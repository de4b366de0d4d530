/** Where the promises of one-way runs end, and exactly when they hold. */
module PushLimits {
  import opened Types
  import opened Paths
  import opened Pool
  import opened Worlds
  import opened Collecting
  import opened Planning
  import opened MovePlanning
  import opened TwoWay
  import opened PushTrace
  import opened PushWorld
  import opened PushCrash
  import opened PushRecovery
  import opened PushCrossing
  import opened OneWay

  // ---- Without force, a push does not recognise its own unrecorded work ----

  /** After an overwrite that was carried out but not recorded, an unforced re-run keeps the item only if the drive
      reports the very size and mtime of the old baseline; otherwise it takes its own write for a change by others. */
  lemma OwnOverwriteIsDrift(w: World, m: map<Rel, Entry>, it: Item, a: int, b: int)
    requires IdsNamed(w, m) && it.op.Overwrite? && it.rel in m && it.remoteID == m[it.rel].remoteID
    requires Possible(w, Push(it), a, b)
    ensures Undrifted(m, StatOf(Effect(w, Push(it), a, b)))(it) <==> Some(Meta(|w.local[it.rel].data|, b)) == BaseRemote(m, it.rel)
  {
    var v := Effect(w, Push(it), a, b);
    assert v.remote[it.rel] == RemoteRec(it.remoteID, w.local[it.rel].data, b);
    StatOfPath(v, it.rel);
  }

  // ---- A manifest emptied on the way ----

  /** When a baseline becomes empty between two attempts, the second one seeds it, and takes an untracked file that is
      on both sides for synced if the sizes are equal. A complete re-run puts the local bytes there exactly when the
      sizes differ or the bytes were the same. */
  lemma EmptiedManifestSkips(o: Options, v: World, items: seq<Item>, out: seq<Item>, es: seq<Event>, q: Rel)
    requires !o.refresh && !o.assumeNew
    requires IdsNamed(v, Baseline(o, v, map[])) && PushPlanned(o, v, Baseline(o, v, map[]), items, out)
    requires CompleteTrace(v, out, es)
    requires q in WalkOf(v) && q in v.remote
    ensures ContentAt(WorldOf(v, out, es), q) == Some(v.local[q].data) <==>
            |v.remote[q].data| != |v.local[q].data| || v.remote[q].data == v.local[q].data
  {
    var b := Baseline(o, v, map[]);
    SeededPlanIsAsPlanned(o, v, items, out);
    PlanStartsInProgress(o, v, b, items, out);
    CompleteReaches(v, out, es);
    var w := WorldOf(v, out, es);
    SeededPlansIff(o, v, items, q);
    if |v.remote[q].data| != |v.local[q].data| {
      var it :| it in items && it.rel == q && it.op.Overwrite?;
      assert it in out && q in FP(it);
      assert ContentAt(w, q) == Aim(v, it, q);
    } else {
      assert Outside(out, q);
      assert ContentAt(w, q) == ContentAt(v, q);
    }
  }

  lemma SeededPlansIff(o: Options, v: World, items: seq<Item>, q: Rel)
    requires IsPushPlan(items, WalkOf(v), Baseline(o, v, map[])) && Boots(o, map[])
    requires q in WalkOf(v) && q in v.remote
    ensures |v.remote[q].data| != |v.local[q].data| ==> exists it :: it in items && it.rel == q && it.op.Overwrite?
    ensures |v.remote[q].data| == |v.local[q].data| ==> forall it :: it in items ==> it.rel != q
  {
    var b := Baseline(o, v, map[]);
    SeededEntry(v, map[], q);
    if |v.remote[q].data| != |v.local[q].data| {
      var it := CopyOut(q, Lookup(WalkOf(v), q), Lookup(b, q));
      assert it in items;
    }
  }

  /** From an empty manifest every planned item is carried out as it is. */
  lemma SeededPlanIsAsPlanned(o: Options, v: World, items: seq<Item>, out: seq<Item>)
    requires !o.refresh && PushPlanned(o, v, Baseline(o, v, map[]), items, out) && Boots(o, map[])
    ensures forall x :: x in out <==> x in items
    ensures forall x :: x in out ==> !x.op.Move?
  {
    SeededHasNoMoves(o, v, map[], items, out);
    assert forall x :: x in items ==> !x.op.Delete?;
    if o.noDelete {
      FilterMembers(NotDelete, items);
    } else if o.detectMoves {
      forall x | x in items ensures IsKept(items, Baseline(o, v, map[]), x) {
        var i: nat :| i < |items| && items[i] == x;
        NothingToPair(items, Baseline(o, v, map[]), i);
      }
    }
  }

  lemma NothingToPair(items: seq<Item>, m: map<Rel, Entry>, i: nat)
    requires i < |items| && forall x :: x in items ==> !x.op.Delete?
    ensures !Consumed(items, m, i)
  {
    if KeyOf(m, items[i]).Some? {
      PairHasDelete(items, m, KeyOf(m, items[i]).value);
    }
  }

  lemma PairHasDelete(items: seq<Item>, m: map<Rel, Entry>, k: Key)
    ensures PairKey(items, m, k) ==> exists x :: x in items && x.op.Delete?
  {
    if PairKey(items, m, k) {
      assert items[DeleteAt(items, m, k)] in items;
    }
  }

  // ---- Ambiguous moves ----

  /** Uploads that could both be the new place of one deleted file are left alone. Once one of them is recorded, and
      `rest` is the only one left, `rest` is paired. */
  lemma AmbiguityIsResolvedLater(items: seq<Item>, local: map<Rel, LocalFile>, m: map<Rel, Entry>, u: Item, rest: Item, d: Item,
                                 later: seq<Item>, o: Outcome)
    requires IsPushPlan(items, local, m) && u in items && rest in items && d in items && u != rest
    requires Paired(m, u, d) && Paired(m, rest, d) && o.ok
    requires IsPushPlan(later, local, RecordOne(m, Push(u), o)) && PairKey(later, RecordOne(m, Push(u), o), KeyOf(m, u).value)
    ensures IsKept(items, m, rest) && IsKept(items, m, d)
    ensures rest in later && d in later && IsMove(later, RecordOne(m, Push(u), o), MoveOf(m, rest, d))
  {
    var m1, k := RecordOne(m, Push(u), o), KeyOf(m, u).value;
    TwoUploads(items, m, k, u, rest);
    forall i: nat | i < |items| && (items[i] == rest || items[i] == d) ensures !Consumed(items, m, i) { }
    forall x | x == rest || x == d ensures x in later && KeyOf(m1, x) == Some(k) {
      assert Lookup(m1, x.rel) == Lookup(m, x.rel);
      assert LocalMeta(local, x.rel) != BaseLocal(m1, x.rel);
    }
    OnlyOfItsKey(later, m1, k, rest);
    OnlyOfItsKey(later, m1, k, d);
    assert MoveFor(later, m1, k) == MoveOf(m, rest, d);
  }

  lemma OnlyOfItsKey(items: seq<Item>, m: map<Rel, Entry>, k: Key, x: Item)
    requires PairKey(items, m, k) && x in items && KeyOf(m, x) == Some(k)
    ensures x == items[if x.op.Upload? then UploadAt(items, m, k) else DeleteAt(items, m, k)]
  {
    var i: nat :| i < |items| && items[i] == x;
    OnlyTwoConsumed(items, m, i);
  }

  /** An upload, carried out and recorded, leaves the recorded ids naming their files. */
  lemma UploadKeepsIdsNamed(w: World, m: map<Rel, Entry>, u: Item, o: Outcome)
    requires IdsNamed(w, m) && u.op.Upload? && u.rel !in m && o.ok && Possible(w, Push(u), o.a, o.b)
    ensures IdsNamed(Effect(w, Push(u), o.a, o.b), RecordOne(m, Push(u), o))
  {
  }

  /** The first run's state after an upload was carried out and recorded, and a re-run from there. */
  ghost predicate ResolvedLater(opts: Options, w: World, m: map<Rel, Entry>, items: seq<Item>, out: seq<Item>, u: Item, rest: Item, d: Item, o: Outcome,
                                later: seq<Item>, again: seq<Item>) {
    && opts.detectMoves && !opts.noDelete && IdsNamed(w, m)
    && PushPlanned(opts, w, m, items, out) && !Crossed(out)
    && u in items && rest in items && d in items && u != rest && Paired(m, u, d) && Paired(m, rest, d)
    && o.ok && Possible(w, Push(u), o.a, o.b)
    && var (w1, m1) := (Effect(w, Push(u), o.a, o.b), RecordOne(m, Push(u), o));
    && PushPlanned(opts, w1, m1, later, again) && !Crossed(again)
    && PairKey(later, m1, KeyOf(m, u).value)
  }

  /** What this does to the contents: the uninterrupted push puts the local bytes at the path of `rest`, and a complete
      re-run the bytes of the deleted file, so they agree exactly if these are the same. */
  lemma AmbiguityChangesContent(opts: Options, w: World, m: map<Rel, Entry>, items: seq<Item>, out: seq<Item>, u: Item, rest: Item, d: Item, o: Outcome,
                                later: seq<Item>, again: seq<Item>, es: seq<Event>, es1: seq<Event>)
    requires ResolvedLater(opts, w, m, items, out, u, rest, d, o, later, again)
    requires CompleteTrace(w, out, es) && CompleteTrace(Effect(w, Push(u), o.a, o.b), again, es1)
    ensures HasId(w, d.remoteID) && rest.rel in w.local
    ensures var (once, resumed) := (ContentAt(WorldOf(w, out, es), rest.rel), ContentAt(WorldOf(Effect(w, Push(u), o.a, o.b), again, es1), rest.rel));
            && once == Some(w.local[rest.rel].data)
            && resumed == Some(DataOf(w, d.remoteID))
            && (resumed == once <==> DataOf(w, d.remoteID) == w.local[rest.rel].data)
  {
    AmbiguityIsResolvedLater(items, WalkOf(w), m, u, rest, d, later, o);
    KeptUploadArrives(opts, w, m, items, out, rest, es);
    ResumedMoveArrives(opts, w, m, items, out, u, rest, d, o, later, again, es1);
  }

  /** What a complete run puts at the path of an upload or a move. */
  lemma ItemArrives(w: World, out: seq<Item>, x: Item, es: seq<Event>)
    requires Startable(w, out) && !Crossed(out) && CompleteTrace(w, out, es) && x in out
    ensures x.op.Upload? ==> x.rel in w.local && ContentAt(WorldOf(w, out, es), x.rel) == Some(w.local[x.rel].data)
    ensures x.op.Move? ==> HasId(w, x.remoteID) && ContentAt(WorldOf(w, out, es), x.rel) == Some(DataOf(w, x.remoteID))
  {
    CompleteReaches(w, out, es);
    var k: nat :| k < |out| && out[k] == x;
    CompleteNeeds(w, out, es, k);
    assert x.rel in FP(x);
    assert ContentAt(WorldOf(w, out, es), x.rel) == Aim(w, x, x.rel);
  }

  lemma KeptUploadArrives(opts: Options, w: World, m: map<Rel, Entry>, items: seq<Item>, out: seq<Item>, rest: Item, es: seq<Event>)
    requires IdsNamed(w, m) && PushPlanned(opts, w, m, items, out) && !Crossed(out) && CompleteTrace(w, out, es)
    requires rest in out && rest.op.Upload?
    ensures rest.rel in w.local && ContentAt(WorldOf(w, out, es), rest.rel) == Some(w.local[rest.rel].data)
  {
    PlanStartsInProgress(opts, w, m, items, out);
    ItemArrives(w, out, rest, es);
  }

  lemma MoveArrives(opts: Options, w: World, m: map<Rel, Entry>, items: seq<Item>, out: seq<Item>, mv: Item, es: seq<Event>)
    requires IdsNamed(w, m) && PushPlanned(opts, w, m, items, out) && !Crossed(out) && CompleteTrace(w, out, es)
    requires mv in out && mv.op.Move?
    ensures HasId(w, mv.remoteID) && ContentAt(WorldOf(w, out, es), mv.rel) == Some(DataOf(w, mv.remoteID))
  {
    PlanStartsInProgress(opts, w, m, items, out);
    ItemArrives(w, out, mv, es);
  }

  lemma ResumedMoveArrives(opts: Options, w: World, m: map<Rel, Entry>, items: seq<Item>, out: seq<Item>, u: Item, rest: Item, d: Item, o: Outcome,
                           later: seq<Item>, again: seq<Item>, es1: seq<Event>)
    requires ResolvedLater(opts, w, m, items, out, u, rest, d, o, later, again)
    requires CompleteTrace(Effect(w, Push(u), o.a, o.b), again, es1)
    ensures HasId(w, d.remoteID)
    ensures ContentAt(WorldOf(Effect(w, Push(u), o.a, o.b), again, es1), rest.rel) == Some(DataOf(w, d.remoteID))
  {
    var (w1, m1, mv) := (Effect(w, Push(u), o.a, o.b), RecordOne(m, Push(u), o), MoveOf(m, rest, d));
    UploadKeepsIdsNamed(w, m, u, o);
    AmbiguityIsResolvedLater(items, WalkOf(w), m, u, rest, d, later, o);
    MoveArrives(opts, w1, m1, later, again, mv, es1);
    UploadLeavesFile(w, m, u, d, o);
  }

  lemma UploadLeavesFile(w: World, m: map<Rel, Entry>, u: Item, d: Item, o: Outcome)
    requires IdsNamed(w, m) && u.op.Upload? && u.rel !in m && d.rel in m && Possible(w, Push(u), o.a, o.b)
    ensures var (w1, id) := (Effect(w, Push(u), o.a, o.b), m[d.rel].remoteID);
            HasId(w1, id) ==> HasId(w, id) && DataOf(w1, id) == DataOf(w, id)
  {
    var (w1, id) := (Effect(w, Push(u), o.a, o.b), m[d.rel].remoteID);
    if HasId(w1, id) {
      assert w1.remote[PathOf(w1, id)].id == id;
      assert d.rel in w.remote && w.remote[d.rel].id == id;
    }
  }

  lemma TwoUploads(items: seq<Item>, m: map<Rel, Entry>, k: Key, u: Item, v: Item)
    requires u in items && v in items && u != v && u.op.Upload? && v.op.Upload? && KeyOf(m, u) == KeyOf(m, v) == Some(k)
    ensures !PairKey(items, m, k)
  {
    var i: nat :| i < |items| && items[i] == u;
    var j: nat :| j < |items| && items[j] == v;
    PositionsAre(items, m, Upload, k, |items|);
    var ps := Positions(items, m, Upload, k, |items|);
    assert i in ps && j in ps;
  }

  // ---- What a pull can lose ----

  lemma PullKeptAre(items: seq<PullItem>, idx: map<Rel, IndexEntry>, local: map<Rel, LocalFile>, m: map<Rel, Entry>, noDelete: bool, it: PullItem)
    requires IsPullPlan(items, idx, m)
    ensures it in PullKept(items, local, m, false, noDelete) <==>
            it in items && Unedited(m, local)(it) && (noDelete ==> !it.op.DeleteLocal?)
    ensures DistinctPullRels(PullKept(items, local, m, false, noDelete))
  {
    var safe := Filter(Unedited(m, local), items);
    FilterMembers(Unedited(m, local), items);
    FilterKeepsDistinctPull(Unedited(m, local), items);
    if noDelete {
      FilterMembers(NotPullDelete, safe);
      FilterKeepsDistinctPull(NotPullDelete, safe);
    }
  }

  /** The drift filter of an unforced pull looks at downloads only. An edited local file is left alone unless it is
      tracked and gone remotely: exactly then a deletion of it is planned and carried out. */
  lemma EditedFileIsAtRiskIff(items: seq<PullItem>, idx: map<Rel, IndexEntry>, local: map<Rel, LocalFile>, m: map<Rel, Entry>, noDelete: bool, p: Rel)
    requires IsPullPlan(items, idx, m) && p in local && LocalMeta(local, p) != BaseLocal(m, p)
    ensures (exists it :: it in PullKept(items, local, m, false, noDelete) && it.rel == p) <==> !noDelete && p in m && p !in idx
  {
    forall it | it in PullKept(items, local, m, false, noDelete) && it.rel == p ensures !noDelete && p in m && p !in idx {
      PullKeptAre(items, idx, local, m, noDelete, it);
    }
    if !noDelete && p in m && p !in idx {
      PullKeptAre(items, idx, local, m, noDelete, CopyIn(p, None));
      assert Lookup(idx, p) == None;
    }
  }

  /** A local file changed by an unforced pull was as recorded, or is one of those edited files that are deleted, or
      lies where the walk does not look. */
  lemma PullLosesOnlyDeletedEdits(w: World, m: map<Rel, Entry>, items: seq<PullItem>, noDelete: bool, log: seq<Outcome>, p: Rel)
    requires WellFormed(w) && IsPullPlan(items, IndexOfRemote(w), m)
    requires var jobs := PullJobs(PullKept(items, WalkOf(w), m, false, noDelete)); Execution(w, jobs, log) && DistinctKeys(log)
    ensures var jobs := PullJobs(PullKept(items, WalkOf(w), m, false, noDelete));
            p in w.local && At(WorldAfter(w, jobs, log), p).l != At(w, p).l ==>
              || Pruned(p)
              || LocalMeta(WalkOf(w), p) == BaseLocal(m, p)
              || (!noDelete && p in m && p !in w.remote && p !in WorldAfter(w, jobs, log).local)
  {
    var kept := PullKept(items, WalkOf(w), m, false, noDelete);
    var jobs := PullJobs(kept);
    PullIsRunnable(w, m, items, false, noDelete);
    RunAt(w, jobs, log, p);
    if o :| DoneBy(jobs, log, p, o) {
      assert kept[o.k] in kept && kept[o.k].rel == p;
      PullKeptAre(items, IndexOfRemote(w), WalkOf(w), m, noDelete, kept[o.k]);
      assert At(WorldAfter(w, jobs, log), p) == Settled(jobs[o.k], o.a, o.b, At(w, p));
    } else {
      assert !DoneAt(jobs, log, p);
    }
  }
}
