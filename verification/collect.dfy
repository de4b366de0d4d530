/**
 The collector: it alone changes the manifest, one outcome at a time, counts what happened, and saves the
 manifest at every 64th success.
 */
module Collecting {
  import opened Types
  import opened Manifests
  import opened Pool

  /** The counters of a push and of a pull run; the errors are known by the item they belong to. */
  datatype Result = Result(
    uploaded: nat, overwritten: nat, deleted: nat, moved: nat, downloaded: nat, removed: nat,
    failed: nat, errs: seq<nat>)

  const NOTHING := Result(0, 0, 0, 0, 0, 0, 0, [])

  predicate KeysInRange(jobs: seq<Job>, log: seq<Outcome>) {
    forall o :: o in log ==> o.k < |jobs|
  }

  // ---- What recording an outcome means for the manifest ----

  function RecordOne(m: map<Rel, Entry>, job: Job, o: Outcome): map<Rel, Entry> {
    if !o.ok then m
    else match job
      case Push(it) => (
        match it.op
        case Upload => m[it.rel := Entry(it.size, it.mtime, o.a, o.b)]
        case Overwrite => m[it.rel := Entry(it.size, it.mtime, it.remoteID, o.b)]
        case Delete => m - {it.rel}
        case Move => (m - {it.srcRel})[it.rel := Entry(it.size, it.mtime, it.remoteID, o.b)])
      case Pull(it) => (
        match it.op
        case Download => m[it.rel := Entry(o.a, o.b, it.remoteID, it.remoteMtime)]
        case DeleteLocal => m - {it.rel})
  }

  function RecordAll(m: map<Rel, Entry>, jobs: seq<Job>, log: seq<Outcome>): map<Rel, Entry>
    requires KeysInRange(jobs, log)
  {
    if log == [] then m
    else RecordOne(RecordAll(m, jobs, log[..|log| - 1]), jobs[log[|log| - 1].k], log[|log| - 1])
  }

  function CountOne(res: Result, job: Job, o: Outcome): Result {
    if !o.ok then res.(failed := res.failed + 1, errs := res.errs + [o.k])
    else match job
      case Push(it) => (
        match it.op
        case Upload => res.(uploaded := res.uploaded + 1)
        case Overwrite => res.(overwritten := res.overwritten + 1)
        case Delete => res.(deleted := res.deleted + 1)
        case Move => res.(moved := res.moved + 1))
      case Pull(it) => (
        match it.op
        case Download => res.(downloaded := res.downloaded + 1)
        case DeleteLocal => res.(removed := res.removed + 1))
  }

  function Tally(jobs: seq<Job>, log: seq<Outcome>): Result
    requires KeysInRange(jobs, log)
  {
    if log == [] then NOTHING
    else CountOne(Tally(jobs, log[..|log| - 1]), jobs[log[|log| - 1].k], log[|log| - 1])
  }

  /** A place in a log at which a checkpoint is due, or its start. */
  predicate IsCheckpoint(log: seq<Outcome>, n: nat) {
    n <= |log| && LastCheckpoint(log[..n]) == n
  }

  /** The collector's loop over the outcomes in the order they reach it. The disk ends with the manifest as it was at
      some checkpoint, `at` outcomes into the loop, or as it was before if that is 0; if no save failed, at the last
      one. A checkpoint that fails is ignored. */
  method Collect(jobs: seq<Job>, outs: seq<Outcome>, m: Manifest, disk: Disk) returns (res: Result, ghost at: nat)
    requires KeysInRange(jobs, outs)
    modifies m, disk
    ensures m.entries == RecordAll(old(m.entries), jobs, outs)
    ensures res == Tally(jobs, outs)
    ensures IsCheckpoint(outs, at) && disk.failures >= old(disk.failures)
    ensures disk.saved == if at == 0 then old(disk.saved) else RecordAll(old(m.entries), jobs, outs[..at])
    ensures disk.failures == old(disk.failures) ==> at == LastCheckpoint(outs)
  {
    res, at := NOTHING, 0;
    var since := 0;
    ghost var m0, d0, f0 := m.entries, disk.saved, disk.failures;
    for i := 0 to |outs|
      invariant disk.failures >= f0
      invariant Collected(m0, jobs, outs[..i], m.entries, res, since)
      invariant OnDisk(m0, d0, jobs, outs[..i], disk.saved, disk.failures == f0, at)
    {
      assert outs[..i + 1] == outs[..i] + [outs[i]];
      res, since, at := Handle(jobs, outs[i], m, disk, res, since, m0, d0, f0, outs[..i], at);
    }
    assert outs[..|outs|] == outs;
  }

  /** One outcome: a failure is counted, a success recorded, counted, and perhaps followed by a checkpoint. */
  method Handle(jobs: seq<Job>, o: Outcome, m: Manifest, disk: Disk, res: Result, since: nat,
                ghost m0: map<Rel, Entry>, ghost d0: map<Rel, Entry>, ghost f0: nat, ghost done: seq<Outcome>, ghost at: nat)
    returns (res': Result, since': nat, ghost at': nat)
    requires o.k < |jobs| && disk.failures >= f0
    requires Collected(m0, jobs, done, m.entries, res, since) && OnDisk(m0, d0, jobs, done, disk.saved, disk.failures == f0, at)
    modifies m, disk
    ensures disk.failures >= f0
    ensures Collected(m0, jobs, done + [o], m.entries, res', since') && OnDisk(m0, d0, jobs, done + [o], disk.saved, disk.failures == f0, at')
  {
    CollectOne(m0, jobs, done, o, m.entries, res, since);
    SavedBefore(m0, d0, jobs, done, o, disk.saved, disk.failures == f0, at);
    since', at' := since, at;
    if !o.ok {
      res' := res.(failed := res.failed + 1, errs := res.errs + [o.k]);
    } else {
      Apply(jobs[o.k], o, m);
      res' := CountOne(res, jobs[o.k], o);
      since', at' := MaybeCheckpoint(m, disk, since, |done| + 1, at);
    }
  }

  /** One more success: every 64th is a checkpoint. */
  method MaybeCheckpoint(m: Manifest, disk: Disk, since: nat, ghost here: nat, ghost at: nat) returns (since': nat, ghost at': nat)
    modifies disk
    ensures since' == if since + 1 >= CHECKPOINT_INTERVAL then 0 else since + 1
    ensures if since + 1 < CHECKPOINT_INTERVAL then at' == at && disk.saved == old(disk.saved) && disk.failures == old(disk.failures)
            else if at' == here && disk.failures == old(disk.failures) then disk.saved == m.entries
            else at' == at && disk.saved == old(disk.saved) && disk.failures > old(disk.failures)
  {
    since', at' := since + 1, at;
    if since' >= CHECKPOINT_INTERVAL {
      var ok := disk.Save(m);
      at' := if ok then here else at;
      since' := 0;
    }
  }

  /** What a checkpointed collector that started from manifest `m` has after the outcomes in `done`. */
  predicate Collected(m: map<Rel, Entry>, jobs: seq<Job>, done: seq<Outcome>, now: map<Rel, Entry>, res: Result, since: nat) {
    && KeysInRange(jobs, done)
    && now == RecordAll(m, jobs, done)
    && res == Tally(jobs, done)
    && since == Since(done)
  }

  /** Successes since the latest place for a checkpoint. */
  function Since(log: seq<Outcome>): (n: nat)
    ensures n < CHECKPOINT_INTERVAL
  {
    if log == [] then 0
    else if !log[|log| - 1].ok then Since(log[..|log| - 1])
    else if Since(log[..|log| - 1]) + 1 >= CHECKPOINT_INTERVAL then 0
    else Since(log[..|log| - 1]) + 1
  }

  /** The disk, which was `d`, has what the checkpoint at `at` wrote; `sound` if no save has failed. */
  predicate OnDisk(m: map<Rel, Entry>, d: map<Rel, Entry>, jobs: seq<Job>, done: seq<Outcome>, saved: map<Rel, Entry>, sound: bool, at: nat) {
    && KeysInRange(jobs, done) && IsCheckpoint(done, at)
    && saved == (if at == 0 then d else RecordAll(m, jobs, done[..at]))
    && (sound ==> at == LastCheckpoint(done))
  }

  /** One more outcome, before a checkpoint that is due: the disk is as it was. */
  lemma SavedBefore(m: map<Rel, Entry>, d: map<Rel, Entry>, jobs: seq<Job>, done: seq<Outcome>, o: Outcome,
                    saved: map<Rel, Entry>, sound: bool, at: nat)
    requires OnDisk(m, d, jobs, done, saved, sound, at) && o.k < |jobs|
    ensures var (log, due) := (done + [o], o.ok && Since(done) + 1 >= CHECKPOINT_INTERVAL);
            && OnDisk(m, d, jobs, log, saved, sound && !due, at)
            && (due ==> OnDisk(m, d, jobs, log, RecordAll(m, jobs, log), sound, |log|))
  {
    var log := done + [o];
    assert log[..at] == done[..at] && log[..|log|] == log;
    SinceIsRemainder(done);
    LastCheckpointAppend(done, o, Successes(done) / CHECKPOINT_INTERVAL, Since(done));
  }

  /** What one more outcome does to what the collector keeps in memory. */
  lemma CollectOne(m: map<Rel, Entry>, jobs: seq<Job>, done: seq<Outcome>, o: Outcome, now: map<Rel, Entry>, res: Result, since: nat)
    requires Collected(m, jobs, done, now, res, since) && o.k < |jobs|
    ensures var (now', res') := (RecordOne(now, jobs[o.k], o), CountOne(res, jobs[o.k], o));
            Collected(m, jobs, done + [o], now', res', if !o.ok then since else if since + 1 >= CHECKPOINT_INTERVAL then 0 else since + 1)
  {
    assert (done + [o])[..|done|] == done;
  }

  lemma {:induction false} SinceIsRemainder(log: seq<Outcome>)
    ensures Successes(log) % CHECKPOINT_INTERVAL == Since(log)
  {
    if log != [] {
      var front := log[..|log| - 1];
      SinceIsRemainder(front);
      var q := Successes(front) / CHECKPOINT_INTERVAL;
      if log[|log| - 1].ok {
        if Since(front) + 1 >= CHECKPOINT_INTERVAL { Remainder(Successes(log), q + 1, 0); } else { Remainder(Successes(log), q, Since(front) + 1); }
      }
    }
  }

  /** The manifest update of one success. */
  method Apply(job: Job, o: Outcome, m: Manifest)
    requires o.ok
    modifies m
    ensures m.entries == RecordOne(old(m.entries), job, o)
  {
    match job {
      case Push(it) =>
        match it.op {
          case Upload => m.Set(it.rel, Entry(it.size, it.mtime, o.a, o.b));
          case Overwrite => m.Set(it.rel, Entry(it.size, it.mtime, it.remoteID, o.b));
          case Delete => m.Delete(it.rel);
          case Move =>
            m.Delete(it.srcRel);
            m.Set(it.rel, Entry(it.size, it.mtime, it.remoteID, o.b));
        }
      case Pull(it) =>
        match it.op {
          case Download => m.Set(it.rel, Entry(o.a, o.b, it.remoteID, it.remoteMtime));
          case DeleteLocal => m.Delete(it.rel);
        }
    }
  }

  // ---- Counters ----

  function Total(r: Result): nat {
    r.uploaded + r.overwritten + r.deleted + r.moved + r.downloaded + r.removed + r.failed
  }

  lemma CountOneTotals(res: Result, job: Job, o: Outcome)
    ensures var r := CountOne(res, job, o);
            && Total(r) == Total(res) + 1
            && r.failed == res.failed + One(!o.ok)
            && r.errs == res.errs + (if o.ok then [] else [o.k])
  {
  }

  lemma {:induction false} TallyTotals(jobs: seq<Job>, log: seq<Outcome>)
    requires KeysInRange(jobs, log)
    ensures var r := Tally(jobs, log);
            Total(r) == |log| && |r.errs| == r.failed && r.failed == |log| - Successes(log)
  {
    if log != [] {
      var n := |log| - 1;
      var front, o := log[..n], log[n];
      TallyTotals(jobs, front);
      var prev, job := Tally(jobs, front), jobs[o.k];
      CountOneTotals(prev, job, o);
      var r := CountOne(prev, job, o);
      assert Tally(jobs, log) == r;
      assert Successes(log) == Successes(front) + One(o.ok);
    }
  }

  /** How many successes were for items of one kind. */
  function SuccessesOf(jobs: seq<Job>, log: seq<Outcome>, kind: Job -> bool): nat
    requires KeysInRange(jobs, log)
  {
    if log == [] then 0
    else SuccessesOf(jobs, log[..|log| - 1], kind) + One(log[|log| - 1].ok && kind(jobs[log[|log| - 1].k]))
  }

  function OfOp(op: Op): Job -> bool {
    (job: Job) => job.Push? && job.item.op == op
  }

  function OfPullOp(op: PullOp): Job -> bool {
    (job: Job) => job.Pull? && job.pullItem.op == op
  }

  /** Each counter counts the successes of its own operation. */
  lemma {:induction false} CountersCount(jobs: seq<Job>, log: seq<Outcome>)
    requires KeysInRange(jobs, log)
    ensures var r := Tally(jobs, log);
            && r.uploaded == SuccessesOf(jobs, log, OfOp(Upload)) && r.overwritten == SuccessesOf(jobs, log, OfOp(Overwrite))
            && r.deleted == SuccessesOf(jobs, log, OfOp(Delete)) && r.moved == SuccessesOf(jobs, log, OfOp(Move))
            && r.downloaded == SuccessesOf(jobs, log, OfPullOp(Download)) && r.removed == SuccessesOf(jobs, log, OfPullOp(DeleteLocal))
  {
    if log != [] {
      CountersCount(jobs, log[..|log| - 1]);
    }
  }

  /** The errors reported are those of the failed items, no more and no fewer. */
  lemma {:induction false} ErrorsAreTheFailures(jobs: seq<Job>, log: seq<Outcome>, k: nat)
    requires KeysInRange(jobs, log)
    ensures k in Tally(jobs, log).errs <==> exists o :: o in log && !o.ok && o.k == k
  {
    if log != [] {
      var n := |log| - 1;
      ErrorsAreTheFailures(jobs, log[..n], k);
      CountOneTotals(Tally(jobs, log[..n]), jobs[log[n].k], log[n]);
      assert forall o :: o in log <==> o == log[n] || o in log[..n];
    }
  }

  // ---- Footprints: the manifest keys an item may touch ----

  function Footprint(job: Job): set<Rel> {
    if job.Push? && job.item.op.Move? then {job.item.srcRel, job.item.rel} else {job.Rel()}
  }

  ghost predicate DisjointFootprints(jobs: seq<Job>) {
    forall i, j :: 0 <= i < j < |jobs| ==> Footprint(jobs[i]) !! Footprint(jobs[j])
  }

  /** A success for an item whose footprint holds `p`. */
  ghost predicate TouchedBy(jobs: seq<Job>, log: seq<Outcome>, p: Rel, o: Outcome) {
    o in log && o.ok && o.k < |jobs| && p in Footprint(jobs[o.k])
  }

  lemma RecordOneAt(m: map<Rel, Entry>, other: map<Rel, Entry>, job: Job, o: Outcome, p: Rel)
    ensures !o.ok || p !in Footprint(job) ==> Lookup(RecordOne(m, job, o), p) == Lookup(m, p)
    ensures o.ok && p in Footprint(job) ==> Lookup(RecordOne(m, job, o), p) == Lookup(RecordOne(other, job, o), p)
  {
  }

  /** Entry by entry: the one success that touches a key decides it, and with none it stays. */
  lemma {:induction false} RecordedAt(m: map<Rel, Entry>, jobs: seq<Job>, log: seq<Outcome>, p: Rel)
    requires KeysInRange(jobs, log) && DistinctKeys(log) && DisjointFootprints(jobs)
    ensures forall o :: TouchedBy(jobs, log, p, o) ==>
              Lookup(RecordAll(m, jobs, log), p) == Lookup(RecordOne(m, jobs[o.k], o), p)
    ensures (forall o :: !TouchedBy(jobs, log, p, o)) ==> Lookup(RecordAll(m, jobs, log), p) == Lookup(m, p)
  {
    if log != [] {
      var n := |log| - 1;
      var front, last := log[..n], log[n];
      RecordedAt(m, jobs, front, p);
      RecordOneAt(RecordAll(m, jobs, front), m, jobs[last.k], last, p);
      assert forall o :: o in log <==> o == last || o in front;
      assert forall o :: TouchedBy(jobs, log, p, o) <==> TouchedBy(jobs, front, p, o) || (o == last && TouchedBy(jobs, log, p, last));
      if TouchedBy(jobs, log, p, last) {
        NoOtherTouches(jobs, front, last, p);
      }
    }
  }

  lemma NoOtherTouches(jobs: seq<Job>, front: seq<Outcome>, last: Outcome, p: Rel)
    requires KeysInRange(jobs, front + [last]) && DistinctKeys(front + [last]) && DisjointFootprints(jobs)
    requires last.k < |jobs| && p in Footprint(jobs[last.k])
    ensures forall o :: !TouchedBy(jobs, front, p, o)
  {
    forall o | o in front ensures o.k != last.k {
      var i :| 0 <= i < |front| && front[i] == o;
      assert (front + [last])[i].k != (front + [last])[|front|].k;
    }
    forall o | o in front && o.k < |jobs| ensures p !in Footprint(jobs[o.k]) {
      assert Footprint(jobs[o.k]) !! Footprint(jobs[last.k]) by {
        if o.k < last.k { } else { assert last.k < o.k; }
      }
    }
  }

  /** The order in which outcomes reach the collector does not matter. */
  lemma OrderDoesNotMatter(m: map<Rel, Entry>, jobs: seq<Job>, log: seq<Outcome>, other: seq<Outcome>)
    requires KeysInRange(jobs, log) && DistinctKeys(log) && DistinctKeys(other) && DisjointFootprints(jobs)
    requires forall o :: o in log <==> o in other
    ensures RecordAll(m, jobs, log) == RecordAll(m, jobs, other)
  {
    var a, b := RecordAll(m, jobs, log), RecordAll(m, jobs, other);
    forall p ensures Lookup(a, p) == Lookup(b, p) {
      RecordedAt(m, jobs, log, p);
      RecordedAt(m, jobs, other, p);
      if o :| TouchedBy(jobs, log, p, o) {
        assert TouchedBy(jobs, other, p, o);
      } else {
        assert forall o :: TouchedBy(jobs, other, p, o) ==> TouchedBy(jobs, log, p, o);
      }
    }
    MapsAreLookups(a, b);
  }

  lemma MapsAreLookups<K, V>(a: map<K, V>, b: map<K, V>)
    requires forall k :: Lookup(a, k) == Lookup(b, k)
    ensures a == b
  {
    forall k ensures (k in a <==> k in b) && (k in a ==> a[k] == b[k]) {
      assert Lookup(a, k) == Lookup(b, k);
    }
  }

  ghost function OutcomeOf(log: seq<Outcome>, k: nat): Outcome
    requires Reports(log, k)
  {
    var i :| 0 <= i < |log| && log[i].k == k;
    log[i]
  }

  /** The outcomes of a full log in the order of the plan. */
  ghost function InPlanOrder(log: seq<Outcome>, n: nat): seq<Outcome>
    requires forall k: nat :: k < n ==> Reports(log, k)
  {
    seq(n, (k: nat) requires k < n => OutcomeOf(log, k))
  }

  /** Whatever the schedule, a finished run has counted every item once, its failures are its errors, and its
      manifest is the one a single worker going through the plan in order would have left. */
  lemma RunEqualsSequentialFold(c: Config, steps: seq<Step>, m: map<Rel, Entry>, jobs: seq<Job>)
    requires IsRun(c, steps) && After(c, steps).collector.Returned?
    requires c.items == |jobs| && DisjointFootprints(jobs)
    ensures var log := After(c, steps).handled;
            && KeysInRange(jobs, log)
            && (forall k: nat :: k < |jobs| ==> Reports(log, k))
            && KeysInRange(jobs, InPlanOrder(log, |jobs|))
            && RecordAll(m, jobs, log) == RecordAll(m, jobs, InPlanOrder(log, |jobs|))
            && Total(Tally(jobs, log)) == |jobs|
            && |Tally(jobs, log).errs| == Tally(jobs, log).failed
  {
    OneOutcomePerItem(c, steps);
    OutcomesAreUnique(c, steps);
    var log := After(c, steps).handled;
    TallyTotals(jobs, log);
    var ordered := InPlanOrder(log, |jobs|);
    forall k: nat | k < |jobs| ensures ordered[k].k == k && ordered[k] in log {
      assert Reports(log, k);
    }
    forall o | o in log ensures o in ordered {
      assert ordered[o.k].k == o.k && ordered[o.k] in log;
      SameKeySameOutcome(log, ordered[o.k], o);
    }
    OrderDoesNotMatter(m, jobs, log, ordered);
  }

  lemma SameKeySameOutcome(log: seq<Outcome>, o: Outcome, p: Outcome)
    requires DistinctKeys(log) && o in log && p in log && o.k == p.k
    ensures o == p
  {
    var i :| 0 <= i < |log| && log[i] == o;
    var j :| 0 <= j < |log| && log[j] == p;
  }
}
