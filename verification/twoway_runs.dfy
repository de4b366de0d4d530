/** The two worker pools of a two-way run, one after the other, make one session of the combined plan. */
module TwoWayRuns {
  import opened Types
  import opened Pool
  import opened Worlds
  import opened Collecting
  import opened TwoWayPlanning
  import opened MovePlanning
  import opened TwoWay
  import opened TwoWayCrash

  /** A log of the second pool with its items renumbered after the `n` items of the first. */
  function Shift(log: seq<Outcome>, n: nat): (s: seq<Outcome>)
    ensures |s| == |log|
    ensures forall i :: 0 <= i < |log| ==> s[i] == log[i].(k := log[i].k + n)
  {
    seq(|log|, i requires 0 <= i < |log| => log[i].(k := log[i].k + n))
  }

  lemma ShiftFront(log: seq<Outcome>, n: nat)
    requires log != []
    ensures Shift(log, n) != [] && Shift(log, n)[..|log| - 1] == Shift(log[..|log| - 1], n)
  {
  }

  // Executions: more jobs, renumbered jobs, and one log after another.

  lemma {:induction false} MoreJobs(w: World, a: seq<Job>, b: seq<Job>, log: seq<Outcome>)
    requires Execution(w, a, log)
    ensures Execution(w, a + b, log) && WorldAfter(w, a + b, log) == WorldAfter(w, a, log)
  {
    if log != [] {
      MoreJobs(w, a, b, log[..|log| - 1]);
      assert (a + b)[log[|log| - 1].k] == a[log[|log| - 1].k];
    }
  }

  lemma {:induction false} LaterJobs(w: World, a: seq<Job>, b: seq<Job>, log: seq<Outcome>)
    requires Execution(w, b, log)
    ensures Execution(w, a + b, Shift(log, |a|)) && WorldAfter(w, a + b, Shift(log, |a|)) == WorldAfter(w, b, log)
  {
    if log != [] {
      LaterJobs(w, a, b, log[..|log| - 1]);
      ShiftFront(log, |a|);
      assert (a + b)[log[|log| - 1].k + |a|] == b[log[|log| - 1].k];
    }
  }

  lemma {:induction false} ThenExecution(w: World, jobs: seq<Job>, la: seq<Outcome>, lb: seq<Outcome>)
    requires Execution(w, jobs, la) && Execution(WorldAfter(w, jobs, la), jobs, lb)
    ensures Execution(w, jobs, la + lb) && WorldAfter(w, jobs, la + lb) == WorldAfter(WorldAfter(w, jobs, la), jobs, lb)
  {
    if lb == [] {
      assert la + lb == la;
    } else {
      ThenExecution(w, jobs, la, lb[..|lb| - 1]);
      assert (la + lb)[..|la + lb| - 1] == la + lb[..|lb| - 1];
    }
  }

  lemma ExecutionsJoin(w: World, a: seq<Job>, b: seq<Job>, la: seq<Outcome>, lb: seq<Outcome>)
    requires Execution(w, a, la) && Execution(WorldAfter(w, a, la), b, lb)
    ensures Execution(w, a + b, la + Shift(lb, |a|))
    ensures WorldAfter(w, a + b, la + Shift(lb, |a|)) == WorldAfter(WorldAfter(w, a, la), b, lb)
  {
    MoreJobs(w, a, b, la);
    LaterJobs(WorldAfter(w, a, la), a, b, lb);
    ThenExecution(w, a + b, la, Shift(lb, |a|));
  }

  // The same for recording.

  lemma {:induction false} MoreJobsRecorded(m: map<Rel, Entry>, a: seq<Job>, b: seq<Job>, log: seq<Outcome>)
    requires KeysInRange(a, log)
    ensures KeysInRange(a + b, log) && RecordAll(m, a + b, log) == RecordAll(m, a, log)
  {
    if log != [] {
      MoreJobsRecorded(m, a, b, log[..|log| - 1]);
      assert (a + b)[log[|log| - 1].k] == a[log[|log| - 1].k];
    }
  }

  lemma {:induction false} LaterJobsRecorded(m: map<Rel, Entry>, a: seq<Job>, b: seq<Job>, log: seq<Outcome>)
    requires KeysInRange(b, log)
    ensures KeysInRange(a + b, Shift(log, |a|)) && RecordAll(m, a + b, Shift(log, |a|)) == RecordAll(m, b, log)
  {
    if log != [] {
      var n := |log| - 1;
      LaterJobsRecorded(m, a, b, log[..n]);
      ShiftFront(log, |a|);
      assert (a + b)[log[n].k + |a|] == b[log[n].k];
      Renumbered(RecordAll(m, b, log[..n]), b[log[n].k], log[n], log[n].k + |a|);
    }
  }

  lemma {:induction false} ThenRecord(m: map<Rel, Entry>, jobs: seq<Job>, la: seq<Outcome>, lb: seq<Outcome>)
    requires KeysInRange(jobs, la) && KeysInRange(jobs, lb)
    ensures KeysInRange(jobs, la + lb) && RecordAll(m, jobs, la + lb) == RecordAll(RecordAll(m, jobs, la), jobs, lb)
  {
    if lb == [] {
      assert la + lb == la;
    } else {
      ThenRecord(m, jobs, la, lb[..|lb| - 1]);
      assert (la + lb)[..|la + lb| - 1] == la + lb[..|lb| - 1];
    }
  }

  /** Recording does not depend on an item's number. */
  lemma Renumbered(m: map<Rel, Entry>, job: Job, o: Outcome, k: nat)
    ensures RecordOne(m, job, o.(k := k)) == RecordOne(m, job, o)
  {
  }

  lemma RecordsJoin(m: map<Rel, Entry>, a: seq<Job>, b: seq<Job>, la: seq<Outcome>, lb: seq<Outcome>)
    requires KeysInRange(a, la) && KeysInRange(b, lb)
    ensures KeysInRange(a + b, la + Shift(lb, |a|))
    ensures RecordAll(m, a + b, la + Shift(lb, |a|)) == RecordAll(RecordAll(m, a, la), b, lb)
  {
    MoreJobsRecorded(m, a, b, la);
    LaterJobsRecorded(RecordAll(m, a, la), a, b, lb);
    ThenRecord(m, a + b, la, Shift(lb, |a|));
  }

  lemma JoinedLog(a: nat, la: seq<Outcome>, lb: seq<Outcome>)
    requires DistinctKeys(la) && DistinctKeys(lb) && forall o :: o in la ==> o.k < a
    ensures DistinctKeys(la + Shift(lb, a))
  {
  }

  lemma JoinedMembers(a: nat, la: seq<Outcome>, lb: seq<Outcome>, ra: seq<Outcome>, rb: seq<Outcome>)
    requires forall o :: o in ra && o.ok ==> o in la
    requires forall o :: o in rb && o.ok ==> o in lb
    ensures forall o :: o in ra + Shift(rb, a) && o.ok ==> o in la + Shift(lb, a)
  {
    forall o | o in Shift(rb, a) && o.ok ensures o in Shift(lb, a) {
      var i :| 0 <= i < |rb| && Shift(rb, a)[i] == o;
      assert rb[i] in lb;
      var j :| 0 <= j < |lb| && lb[j] == rb[i];
      assert Shift(lb, a)[j] == o;
    }
  }

  /** The state of a two-way run: how far the pull pool got and, once it has returned, how far the push pool got. */
  datatype Pools = Pools(pull: State, push: State)

  function PoolConfig(n: nat, jobs: int): Config {
    Config(n, jobs, true)
  }

  /** What has taken effect: every success of a worker, and any calls under way or whose answers were lost. */
  datatype Effects = Effects(pull: seq<Outcome>, push: seq<Outcome>)

  /** Any moment of a two-way run of `plan` with `jobs` workers asked for; `finished` when both pools have returned
      and the final save is due. Both pools checkpoint. */
  ghost predicate Moment(w: World, plan: Plan, jobs: int, ps: Pools, pullSteps: seq<Step>, pushSteps: seq<Step>, finished: bool, fx: Effects) {
    var (pulls, pushes) := (PullJobs(plan.pull), PushJobs(plan.push));
    var (c1, c2) := (PoolConfig(|pulls|, jobs), PoolConfig(|pushes|, jobs));
    && IsRun(c1, pullSteps) && ps.pull == After(c1, pullSteps)
    && IsRun(c2, pushSteps) && ps.push == After(c2, pushSteps)
    && (pushSteps != [] ==> ps.pull.collector.Returned?)
    && (finished ==> ps.pull.collector.Returned? && ps.push.collector.Returned?)
    && Execution(w, pulls, fx.pull) && DistinctKeys(fx.pull) && KeysInRange(pulls, fx.pull)
    && Execution(WorldAfter(w, pulls, fx.pull), pushes, fx.push) && DistinctKeys(fx.push)
    && (forall o :: o in ps.pull.produced && o.ok ==> o in fx.pull)
    && (forall o :: o in ps.push.produced && o.ok ==> o in fx.push)
  }

  function Log(plan: Plan, fx: Effects): seq<Outcome> {
    fx.pull + Shift(fx.push, |plan.pull|)
  }

  /** The last save of a run that worked: none, or one after so many outcomes of the pull, or of the push. */
  datatype LastSave = Never | InPull(n: nat) | InPush(n: nat)

  /** What it wrote. A save of the push has all of the pull too, since both write the same manifest. */
  function Written(plan: Plan, ps: Pools, s: LastSave): seq<Outcome>
    requires CanBe(ps, s)
  {
    match s
    case Never => []
    case InPull(n) => ps.pull.handled[..n]
    case InPush(n) => ps.pull.handled + Shift(ps.push.handled[..n], |plan.pull|)
  }

  predicate CanBe(ps: Pools, s: LastSave) {
    match s
    case Never => true
    case InPull(n) => n <= |ps.pull.handled|
    case InPush(n) => n <= |ps.push.handled|
  }

  /** The last save that was due: the final one, or the last checkpoint. If no save fails it is the last that worked. */
  function LastDue(ps: Pools, finished: bool): (s: LastSave)
    ensures CanBe(ps, s)
  {
    if finished then InPush(|ps.push.handled|)
    else if LastCheckpoint(ps.push.handled) > 0 then InPush(LastCheckpoint(ps.push.handled))
    else if LastCheckpoint(ps.pull.handled) > 0 then InPull(LastCheckpoint(ps.pull.handled))
    else Never
  }

  lemma LogsOfMoment(w: World, plan: Plan, jobs: int, ps: Pools, pullSteps: seq<Step>, pushSteps: seq<Step>, finished: bool, fx: Effects, save: LastSave)
    requires Moment(w, plan, jobs, ps, pullSteps, pushSteps, finished, fx) && CanBe(ps, save)
    ensures DistinctKeys(Log(plan, fx)) && DistinctKeys(Written(plan, ps, save))
    ensures KeysInRange(PlanJobs(plan), Written(plan, ps, save))
    ensures forall o :: o in Written(plan, ps, save) && o.ok ==> o in Log(plan, fx)
  {
    var n := |plan.pull|;
    OutcomesAreUnique(PoolConfig(n, jobs), pullSteps);
    OutcomesAreUnique(PoolConfig(|plan.push|, jobs), pushSteps);
    JoinedLog(n, fx.pull, fx.push);
    if save.InPush? {
      var q := ps.push.handled[..save.n];
      JoinedLog(n, ps.pull.handled, q);
      JoinedMembers(n, fx.pull, fx.push, ps.pull.handled, q);
    }
  }

  /** When both pools have returned, the final save has every outcome. */
  lemma FinalSaveHasAll(plan: Plan, jobs: int, ps: Pools, pullSteps: seq<Step>, pushSteps: seq<Step>)
    requires var (c1, c2) := (PoolConfig(|plan.pull|, jobs), PoolConfig(|plan.push|, jobs));
             && IsRun(c1, pullSteps) && ps.pull == After(c1, pullSteps) && ps.pull.collector.Returned?
             && IsRun(c2, pushSteps) && ps.push == After(c2, pushSteps) && ps.push.collector.Returned?
    ensures forall o :: o in Written(plan, ps, LastDue(ps, true)) <==> o in ps.pull.produced + Shift(ps.push.produced, |plan.pull|)
  {
    OneOutcomePerItem(PoolConfig(|plan.pull|, jobs), pullSteps);
    OneOutcomePerItem(PoolConfig(|plan.push|, jobs), pushSteps);
    assert ps.push.handled[..|ps.push.handled|] == ps.push.handled;
    SameShifted(ps.push.handled, ps.push.produced, |plan.pull|);
  }

  lemma SameShifted(la: seq<Outcome>, lb: seq<Outcome>, n: nat)
    requires forall o :: o in la <==> o in lb
    ensures forall o :: o in Shift(la, n) <==> o in Shift(lb, n)
  {
    ShiftMembers(la, n);
    ShiftMembers(lb, n);
  }

  lemma ShiftMembers(log: seq<Outcome>, n: nat)
    ensures forall o :: o in Shift(log, n) <==> o.k >= n && o.(k := o.k - n) in log
  {
    forall o ensures o in Shift(log, n) <==> o.k >= n && o.(k := o.k - n) in log {
      if o in Shift(log, n) {
        var i :| 0 <= i < |log| && Shift(log, n)[i] == o;
        assert log[i] == o.(k := o.k - n);
      }
      if o.k >= n && o.(k := o.k - n) in log {
        var i :| 0 <= i < |log| && log[i] == o.(k := o.k - n);
        assert Shift(log, n)[i] == o;
      }
    }
  }

  /** Stopping a two-way run at any moment, under any schedule and whichever answers are lost or saves fail, is a
      session of its plan. */
  lemma MomentIsSession(w: World, disk: map<Rel, Entry>, plan: Plan, noDelete: bool, jobs: int, ps: Pools,
                        pullSteps: seq<Step>, pushSteps: seq<Step>, finished: bool, fx: Effects, save: LastSave)
    requires IsPlan(plan, WalkOf(w), IndexOfRemote(w), NextBaseline(w, disk))
    requires Moment(w, Effective(plan, noDelete), jobs, ps, pullSteps, pushSteps, finished, fx) && CanBe(ps, save)
    ensures
      var e := Effective(plan, noDelete);
      var (log, rec) := (Log(e, fx), Written(e, ps, save));
      && Execution(w, PlanJobs(e), log) && KeysInRange(PlanJobs(e), rec)
      && IsSession(w, disk, Session(plan, noDelete, log, rec), WorldAfter(w, PlanJobs(e), log),
                   if save.Never? then disk else RecordAll(NextBaseline(w, disk), PlanJobs(e), rec))
  {
    var e := Effective(plan, noDelete);
    LogsOfMoment(w, e, jobs, ps, pullSteps, pushSteps, finished, fx, save);
    ExecutionsJoin(w, PullJobs(e.pull), PushJobs(e.push), fx.pull, fx.push);
  }

  lemma {:induction false} ExecutionKeys(w: World, jobs: seq<Job>, log: seq<Outcome>)
    requires Execution(w, jobs, log)
    ensures KeysInRange(jobs, log)
  {
    if log != [] {
      ExecutionKeys(w, jobs, log[..|log| - 1]);
      assert forall o :: o in log <==> o == log[|log| - 1] || o in log[..|log| - 1];
    }
  }

  /** Actions of both pools that a crash at this moment would find missing from the disk. */
  function UnsavedOfBoth(ps: Pools): int
    requires ps.pull.persisted <= |ps.pull.handled| && ps.push.persisted <= |ps.push.handled|
  {
    Unsaved(ps.push) + (if LastCheckpoint(ps.push.handled) > 0 then 0 else Unsaved(ps.pull))
  }

  /** Across the two pools, whose counters both start at zero, at most 127 actions plus one a worker are missing. */
  lemma BoundedReworkOfBoth(w: World, plan: Plan, jobs: int, ps: Pools, pullSteps: seq<Step>, pushSteps: seq<Step>, fx: Effects)
    requires Moment(w, plan, jobs, ps, pullSteps, pushSteps, false, fx)
    ensures ps.pull.persisted <= |ps.pull.handled| && ps.push.persisted <= |ps.push.handled|
    ensures UnsavedOfBoth(ps) <= 127 + WorkerCount(PoolConfig(0, jobs))
  {
    BoundedRework(PoolConfig(|plan.pull|, jobs), pullSteps);
    BoundedRework(PoolConfig(|plan.push|, jobs), pushSteps);
    if pushSteps == [] {
      NothingUnsavedAtStart(PoolConfig(|plan.push|, jobs));
    }
  }

  lemma NothingUnsavedAtStart(c: Config)
    ensures Unsaved(Init(c)) == 0
  {
    SumConstant(AtRisk(), Init(c).workers, 0);
  }
}
