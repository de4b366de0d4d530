/** The deletion guard, and what it means for the number of tracked files after a run. */
module Guard {
  import opened Types
  import opened Pool
  import opened Collecting
  import opened Planning
  import opened MovePlanning

  const DEFAULT_THRESHOLD := 0.2

  function Threshold(t: real): real {
    if t == 0.0 then DEFAULT_THRESHOLD else t
  }

  /** Refused when more than the allowed fraction of the baseline would go. */
  function CheckDeleteRatio(dels: nat, baseline: nat, threshold: real, force: bool): (refused: bool)
    ensures !refused && !force && baseline > 0 ==> dels as real <= Threshold(threshold) * baseline as real
    ensures refused ==> !force && baseline > 0 && dels as real > Threshold(threshold) * baseline as real
  {
    if force || baseline == 0 then false
    else dels as real > Threshold(threshold) * baseline as real
  }

  /** At most the fraction `t` of a non-empty baseline. */
  predicate Within(n: nat, baseline: nat, t: real) {
    baseline > 0 ==> n as real <= t * baseline as real
  }

  /** All but the fraction `lost` are still there. */
  predicate Keeps(after: nat, before: nat, lost: real) {
    after as real >= (1.0 - lost) * before as real
  }

  const IsDelete: Item -> bool := (it: Item) => it.op.Delete?
  const IsPullDelete: PullItem -> bool := (it: PullItem) => it.op.DeleteLocal?

  method GuardDeletes(items: seq<Item>, baseline: nat, threshold: real, force: bool) returns (refused: bool)
    ensures refused == CheckDeleteRatio(|Filter(IsDelete, items)|, baseline, threshold, force)
  {
    var dels := 0;
    for i := 0 to |items|
      invariant dels == |Filter(IsDelete, items[..i])|
    {
      assert items[..i + 1][..i] == items[..i];
      if items[i].op.Delete? {
        dels := dels + 1;
      }
    }
    assert items[..|items|] == items;
    refused := CheckDeleteRatio(dels, baseline, threshold, force);
  }

  method GuardPullDeletes(items: seq<PullItem>, baseline: nat, threshold: real, force: bool) returns (refused: bool)
    ensures refused == CheckDeleteRatio(|Filter(IsPullDelete, items)|, baseline, threshold, force)
  {
    var dels := 0;
    for i := 0 to |items|
      invariant dels == |Filter(IsPullDelete, items[..i])|
    {
      assert items[..i + 1][..i] == items[..i];
      if items[i].op.DeleteLocal? {
        dels := dels + 1;
      }
    }
    assert items[..|items|] == items;
    refused := CheckDeleteRatio(dels, baseline, threshold, force);
  }

  /** A plan is refused exactly if it is not forced, something is tracked, and its deletes are more than the fraction given,
      or a fifth if none is. */
  lemma RefusesIff(items: seq<Item>, pulls: seq<PullItem>, baseline: nat, threshold: real, force: bool)
    ensures CheckDeleteRatio(|Filter(IsDelete, items)|, baseline, threshold, force) <==> TooMany(RemoteDeletes(items), baseline, threshold, force)
    ensures CheckDeleteRatio(|Filter(IsPullDelete, pulls)|, baseline, threshold, force) <==> TooMany(LocalDeletes(pulls), baseline, threshold, force)
  {
    RemoteDeletesCount(items);
    LocalDeletesCount(pulls);
    RatioIs(RemoteDeletes(items), baseline, threshold, force);
    RatioIs(LocalDeletes(pulls), baseline, threshold, force);
  }

  function RemoteDeletes(items: seq<Item>): nat {
    |set i | 0 <= i < |items| && items[i].op.Delete?|
  }

  function LocalDeletes(pulls: seq<PullItem>): nat {
    |set i | 0 <= i < |pulls| && pulls[i].op.DeleteLocal?|
  }

  lemma RemoteDeletesCount(items: seq<Item>)
    ensures |Filter(IsDelete, items)| == RemoteDeletes(items)
  {
    FilterCounts(IsDelete, items);
    assert Where(IsDelete, items) == set i | 0 <= i < |items| && items[i].op.Delete?;
  }

  lemma LocalDeletesCount(pulls: seq<PullItem>)
    ensures |Filter(IsPullDelete, pulls)| == LocalDeletes(pulls)
  {
    FilterCounts(IsPullDelete, pulls);
    assert Where(IsPullDelete, pulls) == set i | 0 <= i < |pulls| && pulls[i].op.DeleteLocal?;
  }

  predicate TooMany(dels: nat, baseline: nat, threshold: real, force: bool) {
    !force && baseline > 0 && if threshold == 0.0 then 5 * dels > baseline else dels as real > threshold * baseline as real
  }

  lemma RatioIs(dels: nat, baseline: nat, threshold: real, force: bool)
    ensures CheckDeleteRatio(dels, baseline, threshold, force) <==> TooMany(dels, baseline, threshold, force)
  {
  }

  // ---- Conservation ----

  /** An item planned from `m`: what it creates is not tracked yet, what it replaces, removes or moves away is. */
  predicate PlannedFrom(m: map<Rel, Entry>, job: Job) {
    match job
    case Push(it) => (
      match it.op
      case Upload => it.rel !in m
      case Overwrite => it.rel in m
      case Delete => it.rel in m
      case Move => it.srcRel in m && it.rel !in m)
    case Pull(it) => it.op.DeleteLocal? ==> it.rel in m
  }

  /** Successful downloads of paths not tracked before. */
  function NewDownloads(m: map<Rel, Entry>, jobs: seq<Job>, log: seq<Outcome>): nat
    requires KeysInRange(jobs, log)
  {
    if log == [] then 0
    else
      var o := log[|log| - 1];
      NewDownloads(m, jobs, log[..|log| - 1])
      + One(o.ok && jobs[o.k].Pull? && jobs[o.k].pullItem.op.Download? && jobs[o.k].Rel() !in m)
  }

  function Created(m: map<Rel, Entry>, job: Job, o: Outcome): int {
    if !o.ok then 0
    else match job
      case Push(it) => if it.op.Upload? then 1 else if it.op.Delete? then -1 else 0
      case Pull(it) => if it.op.DeleteLocal? then -1 else One(it.rel !in m)
  }

  lemma PutSize(v: map<Rel, Entry>, p: Rel, e: Entry)
    ensures |v[p := e]| == |v| + (if p in v then 0 else 1)
  {
    assert v[p := e].Keys == v.Keys + {p};
  }

  lemma RemoveSize(v: map<Rel, Entry>, p: Rel)
    ensures |v - {p}| == |v| - (if p in v then 1 else 0)
  {
    assert (v - {p}).Keys == v.Keys - {p};
  }

  lemma OneIsConserved(m: map<Rel, Entry>, v: map<Rel, Entry>, job: Job, o: Outcome)
    requires PlannedFrom(m, job)
    requires forall p :: p in Footprint(job) ==> (p in v <==> p in m)
    ensures |RecordOne(v, job, o)| == |v| + Created(m, job, o)
  {
    if o.ok {
      match job {
      case Push(it) =>
        match it.op {
        case Upload => PutSize(v, it.rel, Entry(it.size, it.mtime, o.a, o.b));
        case Overwrite => PutSize(v, it.rel, Entry(it.size, it.mtime, it.remoteID, o.b));
        case Delete => RemoveSize(v, it.rel);
        case Move =>
          RemoveSize(v, it.srcRel);
          PutSize(v - {it.srcRel}, it.rel, Entry(it.size, it.mtime, it.remoteID, o.b));
        }
      case Pull(it) =>
        match it.op {
        case Download => PutSize(v, it.rel, Entry(o.a, o.b, it.remoteID, it.remoteMtime));
        case DeleteLocal => RemoveSize(v, it.rel);
        }
      }
    }
  }

  /** Whatever fails, the tracked files are those there were, plus the ones created, minus the ones deleted. */
  lemma {:induction false} FilesAreConserved(m: map<Rel, Entry>, jobs: seq<Job>, log: seq<Outcome>)
    requires KeysInRange(jobs, log) && DistinctKeys(log) && DisjointFootprints(jobs)
    requires forall i :: 0 <= i < |jobs| ==> PlannedFrom(m, jobs[i])
    ensures var r := Tally(jobs, log);
            |RecordAll(m, jobs, log)| == |m| + r.uploaded + NewDownloads(m, jobs, log) - r.deleted - r.removed
  {
    if log != [] {
      var n := |log| - 1;
      var front, o := log[..n], log[n];
      FilesAreConserved(m, jobs, front);
      assert front + [o] == log;
      NextIsConserved(m, jobs, front, o);
      CountedChange(Tally(jobs, front), m, jobs[o.k], o);
    }
  }

  lemma NextIsConserved(m: map<Rel, Entry>, jobs: seq<Job>, front: seq<Outcome>, o: Outcome)
    requires KeysInRange(jobs, front + [o]) && DistinctKeys(front + [o]) && DisjointFootprints(jobs)
    requires KeysInRange(jobs, front) && DistinctKeys(front) && o.k < |jobs| && PlannedFrom(m, jobs[o.k])
    ensures var v := RecordAll(m, jobs, front); |RecordOne(v, jobs[o.k], o)| == |v| + Created(m, jobs[o.k], o)
  {
    forall p | p in Footprint(jobs[o.k]) ensures p in RecordAll(m, jobs, front) <==> p in m {
      StillAsPlanned(m, jobs, front, o, p);
    }
    OneIsConserved(m, RecordAll(m, jobs, front), jobs[o.k], o);
  }

  /** A key of an item that has not been recorded yet is as it was when planned. */
  lemma StillAsPlanned(m: map<Rel, Entry>, jobs: seq<Job>, front: seq<Outcome>, o: Outcome, p: Rel)
    requires KeysInRange(jobs, front + [o]) && DistinctKeys(front + [o]) && DisjointFootprints(jobs)
    requires o.k < |jobs| && p in Footprint(jobs[o.k]) && KeysInRange(jobs, front) && DistinctKeys(front)
    ensures p in RecordAll(m, jobs, front) <==> p in m
  {
    RecordedAt(m, jobs, front, p);
    NoOtherTouches(jobs, front, o, p);
    assert Lookup(RecordAll(m, jobs, front), p) == Lookup(m, p);
  }

  lemma CountedChange(r: Result, m: map<Rel, Entry>, job: Job, o: Outcome)
    ensures var s := CountOne(r, job, o);
            s.uploaded - s.deleted - s.removed + One(o.ok && job.Pull? && job.pullItem.op.Download? && job.Rel() !in m)
            == r.uploaded - r.deleted - r.removed + Created(m, job, o)
  {
  }

  // ---- Deletions done are deletions planned ----

  predicate Deletes(job: Job, pushed: bool) {
    if pushed then job.Push? && job.item.op.Delete? else job.Pull? && job.pullItem.op.DeleteLocal?
  }

  /** The positions below `n` of the deletions on one side. */
  function DeletionsPlanned(jobs: seq<Job>, pushed: bool, n: nat): set<nat>
    requires n <= |jobs|
  {
    if n == 0 then {}
    else DeletionsPlanned(jobs, pushed, n - 1) + (if Deletes(jobs[n - 1], pushed) then {n - 1} else {})
  }

  lemma {:induction false} DeletionsPlannedAre(jobs: seq<Job>, pushed: bool, n: nat)
    requires n <= |jobs|
    ensures forall k: nat :: k in DeletionsPlanned(jobs, pushed, n) <==> k < n && Deletes(jobs[k], pushed)
  {
    if n > 0 {
      DeletionsPlannedAre(jobs, pushed, n - 1);
    }
  }

  /** The items of a log that are successful deletions on one side. */
  function DeletionsDone(jobs: seq<Job>, log: seq<Outcome>, pushed: bool): set<nat>
    requires KeysInRange(jobs, log)
  {
    if log == [] then {}
    else
      var o := log[|log| - 1];
      DeletionsDone(jobs, log[..|log| - 1], pushed) + (if o.ok && Deletes(jobs[o.k], pushed) then {o.k} else {})
  }

  lemma {:induction false} DeletionsDoneAre(jobs: seq<Job>, log: seq<Outcome>, pushed: bool)
    requires KeysInRange(jobs, log)
    ensures forall k :: k in DeletionsDone(jobs, log, pushed) ==> k < |jobs| && Deletes(jobs[k], pushed) && Reports(log, k)
  {
    if log != [] {
      var n := |log| - 1;
      DeletionsDoneAre(jobs, log[..n], pushed);
      forall k | Reports(log[..n], k) ensures Reports(log, k) {
        var i :| 0 <= i < n && log[..n][i].k == k;
        assert log[i].k == k;
      }
      assert Reports(log, log[n].k);
    }
  }

  lemma CountedDeletion(r: Result, job: Job, o: Outcome)
    ensures var s := CountOne(r, job, o);
            && s.deleted == r.deleted + One(o.ok && Deletes(job, true))
            && s.removed == r.removed + One(o.ok && Deletes(job, false))
  {
  }

  lemma {:induction false} DeletionsCount(jobs: seq<Job>, log: seq<Outcome>, pushed: bool)
    requires KeysInRange(jobs, log) && DistinctKeys(log)
    ensures |DeletionsDone(jobs, log, pushed)| == if pushed then Tally(jobs, log).deleted else Tally(jobs, log).removed
  {
    if log != [] {
      var n := |log| - 1;
      DeletionsCount(jobs, log[..n], pushed);
      DeletionsDoneAre(jobs, log[..n], pushed);
      assert !Reports(log[..n], log[n].k);
      CountedDeletion(Tally(jobs, log[..n]), jobs[log[n].k], log[n]);
    }
  }

  /** No side loses more files than its plan has deletions. */
  lemma DeletionsAreBounded(jobs: seq<Job>, log: seq<Outcome>, pushed: bool)
    requires KeysInRange(jobs, log) && DistinctKeys(log)
    ensures (if pushed then Tally(jobs, log).deleted else Tally(jobs, log).removed) <= |DeletionsPlanned(jobs, pushed, |jobs|)|
  {
    DeletionsCount(jobs, log, pushed);
    DeletionsDoneAre(jobs, log, pushed);
    DeletionsPlannedAre(jobs, pushed, |jobs|);
    SubsetSize(DeletionsDone(jobs, log, pushed), DeletionsPlanned(jobs, pushed, |jobs|));
  }

  lemma SubsetSize(a: set<nat>, b: set<nat>)
    requires a <= b
    ensures |a| <= |b|
  {
    assert b == a + (b - a);
  }

  lemma DeletionsStep(jobs: seq<Job>, pushed: bool, n: nat)
    requires 0 < n <= |jobs|
    ensures |DeletionsPlanned(jobs, pushed, n)| == |DeletionsPlanned(jobs, pushed, n - 1)| + One(Deletes(jobs[n - 1], pushed))
  {
    DeletionsPlannedAre(jobs, pushed, n - 1);
  }

  lemma {:induction false} PushDeletionsPlanned(jobs: seq<Job>, first: nat, items: seq<Item>, n: nat)
    requires Pushing(jobs, first, items) && n <= |items|
    ensures |DeletionsPlanned(jobs, true, first + n)| == |Filter(IsDelete, items[..n])|
  {
    if n == 0 {
      NoneOfTheOther(jobs, true, first);
    } else {
      PushDeletionsPlanned(jobs, first, items, n - 1);
      DeletionsStep(jobs, true, first + n);
      assert jobs[first + (n - 1)] == Push(items[n - 1]);
      LongerFilter(items, n);
    }
  }

  /** The jobs are `first` pulls and then these pushes. */
  predicate Pushing(jobs: seq<Job>, first: nat, items: seq<Item>) {
    && |jobs| == first + |items|
    && (forall i :: 0 <= i < first ==> jobs[i].Pull?)
    && (forall i :: 0 <= i < |items| ==> jobs[first + i] == Push(items[i]))
  }

  lemma AllPushDeletions(jobs: seq<Job>, first: nat, items: seq<Item>)
    requires Pushing(jobs, first, items)
    ensures |DeletionsPlanned(jobs, true, |jobs|)| == |Filter(IsDelete, items)|
  {
    var (n, all) := (|items|, |jobs|);
    PushDeletionsPlanned(jobs, first, items, n);
    assert first + n == all;
    SameFilter(items[..n], items);
  }

  lemma SameFilter(some: seq<Item>, items: seq<Item>)
    requires |some| == |items| && forall i :: 0 <= i < |items| ==> some[i] == items[i]
    ensures |Filter(IsDelete, some)| == |Filter(IsDelete, items)|
  {
    assert some == items;
  }

  lemma LongerFilter(items: seq<Item>, n: nat)
    requires 0 < n <= |items|
    ensures |Filter(IsDelete, items[..n])| == |Filter(IsDelete, items[..n - 1])| + One(items[n - 1].op.Delete?)
  {
    assert items[..n][..n - 1] == items[..n - 1];
  }

  lemma {:induction false} NoneOfTheOther(jobs: seq<Job>, pushed: bool, n: nat)
    requires n <= |jobs| && forall i :: 0 <= i < n ==> jobs[i].Pull? == pushed
    ensures DeletionsPlanned(jobs, pushed, n) == {}
  {
    if n > 0 {
      NoneOfTheOther(jobs, pushed, n - 1);
    }
  }

  /** A push that passed the guard without force keeps all but the allowed fraction of the tracked files, whatever
      happens while it runs. */
  lemma GuardedPushKeeps(m: map<Rel, Entry>, items: seq<Item>, threshold: real, log: seq<Outcome>)
    requires !CheckDeleteRatio(|Filter(IsDelete, items)|, |m|, threshold, false)
    requires KeysInRange(PushJobs(items), log) && DistinctKeys(log) && DisjointFootprints(PushJobs(items))
    requires forall i :: 0 <= i < |items| ==> PlannedFrom(m, Push(items[i]))
    ensures Keeps(|RecordAll(m, PushJobs(items), log)|, |m|, Threshold(threshold))
  {
    PushConserves(m, items, log);
    ShareKept(|m|, |RecordAll(m, PushJobs(items), log)|, |Filter(IsDelete, items)|, Threshold(threshold));
  }

  /** No more files go than the plan deletes. */
  lemma PushConserves(m: map<Rel, Entry>, items: seq<Item>, log: seq<Outcome>)
    requires KeysInRange(PushJobs(items), log) && DistinctKeys(log) && DisjointFootprints(PushJobs(items))
    requires forall i :: 0 <= i < |items| ==> PlannedFrom(m, Push(items[i]))
    ensures |RecordAll(m, PushJobs(items), log)| + |Filter(IsDelete, items)| >= |m|
  {
    var jobs := PushJobs(items);
    FilesAreConserved(m, jobs, log);
    DeletionsAreBounded(jobs, log, true);
    DeletionsAreBounded(jobs, log, false);
    AllPushDeletions(jobs, 0, items);
    NoneOfTheOther(jobs, false, |jobs|);
  }

  lemma ShareKept(before: nat, after: nat, deletes: nat, t: real)
    requires after + deletes >= before && Within(deletes, before, t)
    ensures Keeps(after, before, t)
  {
    if before > 0 {
      assert (1.0 - t) * before as real == before as real - t * before as real;
    }
  }
}
