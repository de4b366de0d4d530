/** What a push records is what the drive then has: ids, sizes and remote mtimes, moves included. */
module PushRecord {
  import opened Types
  import opened Paths
  import opened Pool
  import opened Worlds
  import opened Collecting
  import opened Planning
  import opened MovePlanning
  import opened TwoWay
  import opened PushTrace
  import opened PushWorld
  import opened PushCrash
  import opened PushRecovery
  import opened PushCrossing

  // ---- What a success says about its paths ----

  /** The file that an answer says is at a path of its item. */
  ghost function Told(w0: World, it: Item, o: Outcome, p: Rel): Option<RemoteRec> {
    match it.op
    case Upload => if it.rel in w0.local then Some(RemoteRec(o.a, w0.local[it.rel].data, o.b)) else None
    case Overwrite => if it.rel in w0.local then Some(RemoteRec(it.remoteID, w0.local[it.rel].data, o.b)) else None
    case Delete => None
    case Move => if p == it.rel && HasId(w0, it.remoteID) then Some(RemoteRec(it.remoteID, DataOf(w0, it.remoteID), o.b)) else None
  }

  /** It is there, files on their way aside; and what the item needed was there at the start. */
  ghost predicate Stands(w0: World, plan: seq<Item>, v: World, it: Item, o: Outcome) {
    && (it.op.Upload? || it.op.Overwrite? ==> it.rel in w0.local) && (it.op.Move? ==> HasId(w0, it.remoteID))
    && forall p :: p in FP(it) ==> Lookup(Core(plan, v).remote, p) == Told(w0, it, o, p)
  }

  lemma UploadStands(w0: World, plan: seq<Item>, v: World, it: Item, o: Outcome)
    requires Startable(w0, plan) && InProgress(w0, plan, v) && !Crossed(plan) && it in plan && it.op.Upload? && Possible(v, Push(it), o.a, o.b)
    ensures Stands(w0, plan, Effect(v, Push(it), o.a, o.b), it, o)
  {
    var v' := Effect(v, Push(it), o.a, o.b);
    CoreAt(plan, v', it.rel);
    forall mv | mv in plan ensures !Crosses(it, mv) { }
    assert ItemOk(w0, plan, v, it);
    NotVisited(w0, plan, v, v', it, o.a);
  }

  lemma NotVisited(w0: World, plan: seq<Item>, v: World, v': World, it: Item, a: int)
    requires Startable(w0, plan) && InProgress(w0, plan, v) && it in plan && it.op.Upload? && forall mv :: mv in plan ==> !Crosses(it, mv)
    requires it.rel in v'.remote && v'.remote[it.rel].id == a
    ensures !Visited(plan, v', it.rel)
  {
  }

  lemma OverwriteStands(w0: World, plan: seq<Item>, v: World, it: Item, o: Outcome)
    requires Startable(w0, plan) && InProgress(w0, plan, v) && it in plan && it.op.Overwrite? && Possible(v, Push(it), o.a, o.b)
    ensures Stands(w0, plan, Effect(v, Push(it), o.a, o.b), it, o)
  {
    var v' := Effect(v, Push(it), o.a, o.b);
    assert ItemOk(w0, plan, v, it);
    OwnIsNotPassing(w0, plan, v, it, v', it.rel);
  }

  lemma DeleteStands(w0: World, plan: seq<Item>, v: World, it: Item, o: Outcome)
    requires Startable(w0, plan) && InProgress(w0, plan, v) && it in plan && it.op.Delete? && Possible(v, Push(it), o.a, o.b)
    ensures Stands(w0, plan, Effect(v, Push(it), o.a, o.b), it, o)
  {
    var v' := Effect(v, Push(it), o.a, o.b);
    assert ItemOk(w0, plan, v, it);
    CallChanges(v, it, o.a, o.b);
    OldPathIsLeft(w0, plan, v, v', it);
  }

  lemma MoveStands(w0: World, plan: seq<Item>, v: World, it: Item, o: Outcome)
    requires Startable(w0, plan) && InProgress(w0, plan, v) && it in plan && it.op.Move? && Possible(v, Push(it), o.a, o.b)
    ensures Stands(w0, plan, Effect(v, Push(it), o.a, o.b), it, o)
  {
    var v' := Effect(v, Push(it), o.a, o.b);
    assert ItemOk(w0, plan, v, it) && it.srcRel != it.rel;
    CallChanges(v, it, o.a, o.b);
    MovedData(w0, plan, v, it);
    OwnIsNotPassing(w0, plan, v, it, v', it.rel);
    OldPathIsLeft(w0, plan, v, v', it);
  }

  lemma CallStands(w0: World, plan: seq<Item>, v: World, it: Item, o: Outcome)
    requires Startable(w0, plan) && InProgress(w0, plan, v) && !Crossed(plan) && it in plan && Possible(v, Push(it), o.a, o.b)
    ensures Stands(w0, plan, Effect(v, Push(it), o.a, o.b), it, o)
  {
    match it.op {
      case Upload => UploadStands(w0, plan, v, it, o);
      case Overwrite => OverwriteStands(w0, plan, v, it, o);
      case Delete => DeleteStands(w0, plan, v, it, o);
      case Move => MoveStands(w0, plan, v, it, o);
    }
  }

  /** Another item's event leaves it. */
  lemma OtherStands(w0: World, plan: seq<Item>, v: World, v': World, it: Item, y: Item, o: Outcome)
    requires it in plan && FP(it) !! FP(y) && Changes(v, v', it) && Stands(w0, plan, v, y, o)
    ensures Stands(w0, plan, v', y, o)
  {
    forall p | p in FP(y) ensures Lookup(Core(plan, v').remote, p) == Told(w0, y, o, p) {
      CoreStays(plan, v, v', it, p);
    }
  }

  /** An event of the plan as a change of its item. */
  lemma EventChanging(w0: World, plan: seq<Item>, v: World, e: Event)
    requires Startable(w0, plan) && InProgress(w0, plan, v) && CanHappen(v, plan, e) && (e.Call? ==> e.o.ok)
    ensures Changes(v, Next(v, plan, e), plan[ItemOfEvent(e)])
  {
    var it := plan[ItemOfEvent(e)];
    assert it in plan && ItemOk(w0, plan, v, it);
    match e {
      case Call(o) => CallChanges(v, it, o.a, o.b);
      case Shift(k, mtime) => ShiftIsHalf(w0, plan, v, it, mtime);
    }
  }

  /** Every success stands, at every later moment. */
  lemma {:induction false} AnswersStand(w0: World, plan: seq<Item>, es: seq<Event>, o: Outcome)
    requires Startable(w0, plan) && DisjointFootprints(PushJobs(plan)) && !Crossed(plan)
    requires IsTrace(w0, plan, es) && DistinctKeys(Outcomes(es)) && o in Outcomes(es) && o.ok
    ensures o.k < |plan| && Stands(w0, plan, WorldOf(w0, plan, es), plan[o.k], o)
  {
    var (front, e) := (es[..|es| - 1], es[|es| - 1]);
    var v := WorldOf(w0, plan, front);
    StartIsInProgress(w0, plan);
    RunInProgress(w0, plan, w0, plan, front);
    LastAnswer(es, o.k);
    if e == Call(o) {
      assert plan[o.k] in plan;
      CallStands(w0, plan, v, plan[o.k], o);
    } else {
      InFront(es, o);
      AnswersStand(w0, plan, front, o);
      if e.Shift? || e.o.ok {
        NotItsOwn(es, e, o);
        ItemsApart(plan, ItemOfEvent(e), o.k);
        EventChanging(w0, plan, v, e);
        OtherStands(w0, plan, v, Next(v, plan, e), plan[ItemOfEvent(e)], plan[o.k], o);
      }
    }
  }

  lemma InFront(es: seq<Event>, o: Outcome)
    requires es != [] && o in Outcomes(es) && es[|es| - 1] != Call(o)
    ensures o in Outcomes(es[..|es| - 1])
  {
  }

  /** The next event is of another item: a shift comes before its item's answer, and no item is answered twice. */
  lemma NotItsOwn(es: seq<Event>, e: Event, o: Outcome)
    requires es != [] && e == es[|es| - 1] && DistinctKeys(Outcomes(es)) && o in Outcomes(es[..|es| - 1])
    requires e.Shift? ==> !Reports(Outcomes(es[..|es| - 1]), e.k)
    ensures ItemOfEvent(e) != o.k
  {
    var front := es[..|es| - 1];
    if e.Shift? {
      var i :| 0 <= i < |Outcomes(front)| && Outcomes(front)[i] == o;
    } else {
      DistinctFront(Outcomes(front), e.o);
    }
  }

  lemma ItemsApart(plan: seq<Item>, i: nat, j: nat)
    requires DisjointFootprints(PushJobs(plan)) && i < |plan| && j < |plan| && i != j
    ensures FP(plan[i]) !! FP(plan[j])
  {
    var jobs := PushJobs(plan);
    assert FP(plan[i]) == Footprint(jobs[i]) && FP(plan[j]) == Footprint(jobs[j]);
    if i < j { assert Footprint(jobs[i]) !! Footprint(jobs[j]); } else { assert Footprint(jobs[j]) !! Footprint(jobs[i]); }
  }

  // ---- What is recorded ----

  /** The entry at `p` has the id and the remote mtime of the file there, and its size if `sized`; without an entry there
      is no file. */
  ghost predicate Describes(e: Option<Entry>, r: Option<RemoteRec>, sized: bool) {
    && (e.Some? <==> r.Some?)
    && (e.Some? ==> e.value.remoteID == r.value.id && e.value.remoteMtime == r.value.mtime && (e.value.size == |r.value.data| <==> sized))
  }

  /** Only a moved file can have another size than the one recorded: the one it had already. */
  ghost predicate Sized(w0: World, it: Item) {
    it.op.Move? && HasId(w0, it.remoteID) ==> |DataOf(w0, it.remoteID)| == it.size
  }

  lemma OneDescribes(w0: World, b0: map<Rel, Entry>, items: seq<Item>, it: Item, o: Outcome, p: Rel)
    requires IsPushPlan(items, WalkOf(w0), b0) && (it in items || IsMove(items, b0, it)) && o.ok && p in FP(it)
    requires (it.op.Upload? || it.op.Overwrite? ==> it.rel in w0.local) && (it.op.Move? ==> HasId(w0, it.remoteID))
    ensures Describes(Lookup(RecordOne(b0, Push(it), o), p), Told(w0, it, o, p), Sized(w0, it))
  {
    if IsMove(items, b0, it) {
      MovesArePairs(items, WalkOf(w0), b0, it);
    }
  }

  /** Stopped anywhere, with the successes in `rec` recorded: each of them is recorded as the drive then has it, id, size
      and the mtime the drive reported; only a moved file that had another size than recorded before still has. */
  lemma RecordedIsThere(o: Options, w0: World, b0: map<Rel, Entry>, items0: seq<Item>, plan: seq<Item>, es: seq<Event>, rec: seq<Outcome>,
                        x: Outcome, p: Rel)
    requires PushPlanned(o, w0, b0, items0, plan) && IdsNamed(w0, b0) && !Crossed(plan)
    requires IsTrace(w0, plan, es) && DistinctKeys(Outcomes(es))
    requires KeysInRange(PushJobs(plan), rec) && DistinctKeys(rec) && (forall y :: y in rec ==> y in Outcomes(es))
    requires x in rec && x.ok && p in FP(plan[x.k])
    ensures Describes(Lookup(RecordAll(b0, PushJobs(plan), rec), p), Lookup(Core(plan, WorldOf(w0, plan, es)).remote, p), Sized(w0, plan[x.k]))
  {
    var it := plan[x.k];
    assert it in plan;
    PlanStartsInProgress(o, w0, b0, items0, plan);
    PlanIsApart(o, w0, b0, items0, plan);
    AnswersStand(w0, plan, es, x);
    RecordedAt(b0, PushJobs(plan), rec, p);
    assert TouchedBy(PushJobs(plan), rec, p, x);
    OneDescribes(w0, b0, items0, it, x, p);
  }

  /** The setting of a complete push, all of it recorded. */
  ghost predicate AllRecorded(o: Options, w0: World, b0: map<Rel, Entry>, items0: seq<Item>, plan: seq<Item>, es: seq<Event>) {
    PushPlanned(o, w0, b0, items0, plan) && IdsNamed(w0, b0) && !Crossed(plan) && CompleteTrace(w0, plan, es)
  }

  /** After a complete push the baseline describes the remote tree at every planned path, and so no drift filter takes its
      work for somebody else's; except that a moved file keeps a size that was not the recorded one. */
  lemma CompletePushRecords(o: Options, w0: World, b0: map<Rel, Entry>, items0: seq<Item>, plan: seq<Item>, es: seq<Event>, it: Item, p: Rel)
    requires AllRecorded(o, w0, b0, items0, plan, es) && it in plan && p in FP(it)
    ensures var (w1, m1) := (WorldOf(w0, plan, es), RecordAll(b0, PushJobs(plan), Outcomes(es)));
            && (p in m1 <==> p in w1.remote) && (p in m1 ==> m1[p].remoteID == w1.remote[p].id && m1[p].remoteMtime == w1.remote[p].mtime)
            && (BaseRemote(m1, p) == RemoteMeta(IndexOfRemote(w1), p) <==> p !in m1 || Sized(w0, it))
  {
    var k: nat :| k < |plan| && plan[k] == it;
    CompleteAnswers(w0, plan, es, k);
    var x :| Call(x) in es && x.ok && x.k == k;
    AnswerOf(es, Call(x));
    RecordedIsThere(o, w0, b0, items0, plan, es, Outcomes(es), x, p);
    CompleteHasNonePassing(o, w0, b0, items0, plan, es);
  }

  lemma CompleteHasNonePassing(o: Options, w0: World, b0: map<Rel, Entry>, items0: seq<Item>, plan: seq<Item>, es: seq<Event>)
    requires AllRecorded(o, w0, b0, items0, plan, es)
    ensures Core(plan, WorldOf(w0, plan, es)) == WorldOf(w0, plan, es)
  {
    PlanStartsInProgress(o, w0, b0, items0, plan);
    RunInProgress(w0, plan, w0, plan, es);
    forall mv | mv in plan ensures Done(w0, Core(plan, WorldOf(w0, plan, es)), mv) {
      var k: nat :| k < |plan| && plan[k] == mv;
      CompleteAnswers(w0, plan, es, k);
      var x :| Call(x) in es && x.ok && x.k == k;
      AnswerOf(es, Call(x));
    }
    NothingPassing(w0, plan, WorldOf(w0, plan, es));
  }

  /** And there is nothing left to push. */
  lemma NothingLeftToPush(o: Options, w0: World, b0: map<Rel, Entry>, items0: seq<Item>, plan: seq<Item>, es: seq<Event>, next: seq<Item>)
    requires AllRecorded(o, w0, b0, items0, plan, es) && !o.noDelete
    requires IsPushPlan(next, WalkOf(w0), RecordAll(b0, PushJobs(plan), Outcomes(es)))
    ensures next == []
  {
    if next != [] {
      assert next[0] in next;
      CompleteRunMatchesLocal(items0, WalkOf(w0), b0, plan, Outcomes(es), next[0].rel);
    }
  }
}
