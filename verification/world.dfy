/**
 The two trees a run changes, and what each executor call does to them. Remote files are found by id, as the
 drive finds them; local files by path. An outcome is applied when its call succeeds.
 */
module Worlds {
  import opened Types
  import opened Pool

  datatype LocalRec = LocalRec(data: Bytes, mtime: int)

  datatype RemoteRec = RemoteRec(id: int, data: Bytes, mtime: int)

  /** `used` holds every id the drive has ever given out: a new file gets an id outside it. */
  datatype World = World(local: map<Rel, LocalRec>, remote: map<Rel, RemoteRec>, used: set<int>)

  ghost predicate WellFormed(w: World) {
    && (forall p, q :: p in w.remote && q in w.remote && w.remote[p].id == w.remote[q].id ==> p == q)
    && (forall p :: p in w.remote ==> w.remote[p].id in w.used)
  }

  ghost predicate HasId(w: World, id: int) {
    exists p :: p in w.remote && w.remote[p].id == id
  }

  ghost function DataOf(w: World, id: int): Bytes
    requires HasId(w, id)
  {
    var p :| p in w.remote && w.remote[p].id == id;
    w.remote[p].data
  }

  /** Whether the call for `job` can succeed in `w` and return (a, b). An upload whose name is taken is turned
      into an overwrite of the file found there; a delete of a missing file succeeds. */
  ghost predicate Possible(w: World, job: Job, a: int, b: int) {
    match job
    case Push(it) => (
      match it.op
      case Upload => it.rel in w.local && (if it.rel in w.remote then a == w.remote[it.rel].id else a !in w.used)
      case Overwrite => it.rel in w.local && HasId(w, it.remoteID)
      case Delete => true
      case Move => HasId(w, it.remoteID) && (it.rel in w.remote ==> w.remote[it.rel].id == it.remoteID))
    case Pull(it) => (
      match it.op
      case Download => HasId(w, it.remoteID) && a == |DataOf(w, it.remoteID)|
      case DeleteLocal => true)
  }

  /** The world after a successful call. Ids are addresses: the path of an overwrite, delete or move is wherever
      the file with that id is. */
  ghost function Effect(w: World, job: Job, a: int, b: int): World
    requires Possible(w, job, a, b)
  {
    match job
    case Push(it) => (
      match it.op
      case Upload => w.(remote := w.remote[it.rel := RemoteRec(a, w.local[it.rel].data, b)], used := w.used + {a})
      case Overwrite => w.(remote := map p | p in w.remote ::
        if w.remote[p].id == it.remoteID then RemoteRec(it.remoteID, w.local[it.rel].data, b) else w.remote[p])
      case Delete => w.(remote := map p | p in w.remote && w.remote[p].id != it.remoteID :: w.remote[p])
      case Move => w.(remote := (map p | p in w.remote && w.remote[p].id != it.remoteID :: w.remote[p])
        [it.rel := RemoteRec(it.remoteID, DataOf(w, it.remoteID), b)]))
    case Pull(it) => (
      match it.op
      case Download => w.(local := w.local[it.rel := LocalRec(DataOf(w, it.remoteID), b)])
      case DeleteLocal => w.(local := w.local - {it.rel}))
  }

  // ---- One path at a time ----

  /** Both copies of one path. */
  datatype Cell = Cell(l: Option<LocalRec>, r: Option<RemoteRec>)

  function At(w: World, p: Rel): Cell {
    Cell(Lookup(w.local, p), Lookup(w.remote, p))
  }

  /** What a successful job is for, seen from its own path: copy one side onto the other, or remove a side. */
  function Settled(job: Job, a: int, b: int, c: Cell): Cell {
    match job
    case Push(it) => (
      match it.op
      case Upload => if c.l.Some? then c.(r := Some(RemoteRec(a, c.l.value.data, b))) else c
      case Overwrite => if c.l.Some? && c.r.Some? then c.(r := Some(RemoteRec(c.r.value.id, c.l.value.data, b))) else c
      case Delete => c.(r := None)
      case Move => c)
    case Pull(it) => (
      match it.op
      case Download => if c.r.Some? then c.(l := Some(LocalRec(c.r.value.data, b))) else c
      case DeleteLocal => c.(l := None))
  }

  /** What a success tells about the job's own path: the copies it needed were there, and a transfer reports the id
      it kept or the size it read. */
  predicate Fits(job: Job, a: int, b: int, c: Cell) {
    match job
    case Push(it) => (
      match it.op
      case Upload => c.l.Some? && (c.r.Some? ==> a == c.r.value.id)
      case Overwrite => c.l.Some? && c.r.Some? && c.r.value.id == it.remoteID
      case Delete => true
      case Move => true)
    case Pull(it) => (
      match it.op
      case Download => c.r.Some? && a == |c.r.value.data|
      case DeleteLocal => true)
  }

  predicate ById(job: Job) {
    (job.Push? && (job.item.op.Overwrite? || job.item.op.Delete?)) || (job.Pull? && job.pullItem.op.Download?)
  }

  function IdOf(job: Job): int {
    if job.Push? then job.item.remoteID else job.pullItem.remoteID
  }

  /** The job's id, if it goes by one, names the file at the job's own path or no file at all. */
  ghost predicate Addressed(w: World, job: Job) {
    && !(job.Push? && job.item.op.Move?)
    && (ById(job) ==>
          && IdOf(job) in w.used
          && forall p :: p in w.remote ==> (w.remote[p].id == IdOf(job) <==> p == job.Rel()))
  }

  lemma EffectIsLocal(w: World, job: Job, a: int, b: int)
    requires WellFormed(w) && Addressed(w, job) && Possible(w, job, a, b)
    ensures var w' := Effect(w, job, a, b);
            && WellFormed(w') && w.used <= w'.used
            && Fits(job, a, b, At(w, job.Rel()))
            && At(w', job.Rel()) == Settled(job, a, b, At(w, job.Rel()))
            && (forall q :: q != job.Rel() ==> At(w', q) == At(w, q))
  {
    if job.Pull? && job.pullItem.op.Download? {
      assert forall p :: p in w.remote && w.remote[p].id == job.pullItem.remoteID ==> p == job.Rel();
    }
  }

  lemma AddressedIsStable(w: World, job: Job, a: int, b: int, other: Job)
    requires WellFormed(w) && Addressed(w, job) && Possible(w, job, a, b)
    requires Addressed(w, other) && other.Rel() != job.Rel()
    ensures Addressed(Effect(w, job, a, b), other)
  {
  }

  // ---- A run: the calls in the order they took effect ----

  ghost predicate Execution(w: World, jobs: seq<Job>, log: seq<Outcome>)
    decreases |log|, 0
  {
    log == [] ||
    var front, o := log[..|log| - 1], log[|log| - 1];
    && Execution(w, jobs, front)
    && o.k < |jobs|
    && (o.ok ==> Possible(WorldAfter(w, jobs, front), jobs[o.k], o.a, o.b))
  }

  /** A failed call changes nothing. */
  ghost function WorldAfter(w: World, jobs: seq<Job>, log: seq<Outcome>): World
    requires Execution(w, jobs, log)
    decreases |log|, 1
  {
    if log == [] then w
    else
      var front, o := log[..|log| - 1], log[|log| - 1];
      var v := WorldAfter(w, jobs, front);
      if o.ok then Effect(v, jobs[o.k], o.a, o.b) else v
  }

  ghost predicate DistinctPaths(jobs: seq<Job>) {
    forall i, j :: 0 <= i < j < |jobs| ==> jobs[i].Rel() != jobs[j].Rel()
  }

  /** A success in the log for path `p`. */
  predicate DoneBy(jobs: seq<Job>, log: seq<Outcome>, p: Rel, o: Outcome) {
    o in log && o.ok && o.k < |jobs| && jobs[o.k].Rel() == p
  }

  ghost predicate DoneAt(jobs: seq<Job>, log: seq<Outcome>, p: Rel) {
    exists o :: DoneBy(jobs, log, p, o)
  }

  ghost predicate Runnable(w: World, jobs: seq<Job>) {
    && WellFormed(w)
    && DistinctPaths(jobs)
    && forall i :: 0 <= i < |jobs| ==> Addressed(w, jobs[i])
  }

  ghost predicate RunOf(w: World, jobs: seq<Job>, log: seq<Outcome>) {
    Runnable(w, jobs) && Execution(w, jobs, log) && DistinctKeys(log)
  }

  lemma FrontRun(w: World, jobs: seq<Job>, log: seq<Outcome>)
    requires RunOf(w, jobs, log) && log != []
    ensures RunOf(w, jobs, log[..|log| - 1])
  {
  }

  /** Jobs on different paths do not get in each other's way: what is left to do is still well addressed, and no
      path is touched but by its own job. */
  lemma {:induction false} RunKeepsAddresses(w: World, jobs: seq<Job>, log: seq<Outcome>)
    requires RunOf(w, jobs, log)
    ensures WellFormed(WorldAfter(w, jobs, log)) && w.used <= WorldAfter(w, jobs, log).used
    ensures forall i :: 0 <= i < |jobs| && (forall o :: o in log ==> o.k != i) ==> Addressed(WorldAfter(w, jobs, log), jobs[i])
  {
    if log != [] {
      var n := |log| - 1;
      var front, o := log[..n], log[n];
      FrontRun(w, jobs, log);
      RunKeepsAddresses(w, jobs, front);
      var v := WorldAfter(w, jobs, front);
      assert forall x :: x in front ==> x in log;
      assert forall x :: x in front ==> x.k != o.k;
      if o.ok {
        EffectIsLocal(v, jobs[o.k], o.a, o.b);
        forall i | 0 <= i < |jobs| && (forall x :: x in log ==> x.k != i)
          ensures Addressed(WorldAfter(w, jobs, log), jobs[i])
        {
          assert o in log && o.k != i;
          AddressedIsStable(v, jobs[o.k], o.a, o.b, jobs[i]);
        }
      }
    }
  }

  /** A run settles the path of every success, once, and leaves every other path as it was. */
  lemma {:induction false} RunAt(w: World, jobs: seq<Job>, log: seq<Outcome>, p: Rel)
    requires RunOf(w, jobs, log)
    ensures var w' := WorldAfter(w, jobs, log);
            && (forall o :: DoneBy(jobs, log, p, o) ==>
                  Fits(jobs[o.k], o.a, o.b, At(w, p)) && At(w', p) == Settled(jobs[o.k], o.a, o.b, At(w, p)))
            && (!DoneAt(jobs, log, p) ==> At(w', p) == At(w, p))
    ensures forall o :: o in log ==> o.k < |jobs|
  {
    if log != [] {
      var n := |log| - 1;
      var front, o := log[..n], log[n];
      FrontRun(w, jobs, log);
      RunAt(w, jobs, front, p);
      RunKeepsAddresses(w, jobs, front);
      assert forall x :: x in log ==> x == o || x in front;
      assert forall x :: x in front ==> x in log;
      var v := WorldAfter(w, jobs, front);
      assert forall x :: DoneBy(jobs, front, p, x) ==> DoneBy(jobs, log, p, x);
      if o.ok {
        assert Addressed(v, jobs[o.k]);
        EffectIsLocal(v, jobs[o.k], o.a, o.b);
        if jobs[o.k].Rel() == p {
          assert !DoneAt(jobs, front, p);
          assert DoneBy(jobs, log, p, o);
        }
      }
    }
  }
}
