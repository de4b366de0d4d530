/**
 A push that refreshes its baseline before it plans does not recover from a move it did not record. With that and the
 crossings, when a forced push recovers from every crash is known exactly.
 */
module PushRefresh {
  import opened Types
  import opened Paths
  import opened Pool
  import opened Worlds
  import opened Collecting
  import opened Planning
  import opened MovePlanning
  import opened TwoWay
  import opened PushTrace
  import opened PushWorld
  import opened PushCrash
  import opened PushRecovery
  import opened PushCrossing

  // ---- Refreshing after an unrecorded move ----

  predicate Removes(it: Item, id: int) {
    (it.op.Delete? || it.op.Move?) && it.remoteID == id
  }

  ghost predicate RemovedBy(out: seq<Item>, es: seq<Event>, id: int) {
    exists o :: Call(o) in es && o.ok && o.k < |out| && Removes(out[o.k], id)
  }

  /** No item brings a file to `p`. */
  predicate BringsNothing(out: seq<Item>, p: Rel) {
    forall x :: x in out && x.rel == p ==> x.op.Overwrite? || x.op.Delete?
  }

  /** What is at `p` is the file `id`, not yet removed, or the file of a move that is not finished. */
  ghost predicate Leaving(out: seq<Item>, v: World, es: seq<Event>, p: Rel, id: int) {
    p in v.remote ==>
      || (v.remote[p].id == id && !RemovedBy(out, es, id))
      || exists k: nat :: k < |out| && out[k].op.Move? && out[k].remoteID == v.remote[p].id && !Answered(es, k)
  }

  lemma StillLeaving(v: World, out: seq<Item>, es: seq<Event>, p: Rel, id: int)
    requires WellFormed(v) && IsTrace(v, out, es) && es != [] && BringsNothing(out, p)
    requires var front := es[..|es| - 1]; Leaving(out, WorldOf(v, out, front), front, p, id)
    ensures Leaving(out, WorldOf(v, out, es), es, p, id)
  {
    var front, e := es[..|es| - 1], es[|es| - 1];
    var u, u', j := WorldOf(v, out, front), WorldOf(v, out, es), ItemOfEvent(e);
    TraceIsSound(v, out, front);
    EventAt(v, u, out, e, p);
    assert out[j] in out;
    assert forall x :: x in es <==> x in front || x == e;
    if p in u'.remote {
      if p !in u.remote {
        AnsweredIsReported(front, j);
        assert e.Shift? && !Answered(es, j);
      } else if k: nat :| k < |out| && out[k].op.Move? && out[k].remoteID == u.remote[p].id && !Answered(front, k) {
        assert out[k] in out;
        assert !Answered(es, k);
      } else {
        assert !RemovedBy(out, es, id);
      }
    }
  }

  lemma {:induction false} RunLeaves(v: World, out: seq<Item>, es: seq<Event>, p: Rel, id: int)
    requires WellFormed(v) && IsTrace(v, out, es) && BringsNothing(out, p)
    requires p in v.remote ==> v.remote[p].id == id
    ensures Leaving(out, WorldOf(v, out, es), es, p, id)
  {
    if es != [] {
      RunLeaves(v, out, es[..|es| - 1], p, id);
      StillLeaving(v, out, es, p, id);
    }
  }

  /** A move, carried out but not recorded, is undone for good by a re-run that refreshes its baseline: the moved file
      is seeded under its new path, its old entry still has the same id, and the deletion planned for the old path
      removes it. So the exception made for refreshing is needed. */
  lemma RefreshLosesMoved(o: Options, w: World, disk: map<Rel, Entry>, items: seq<Item>, out: seq<Item>, it: Item, mtime: int,
                          again: Attempt, w': World, disk': map<Rel, Entry>)
    requires o.refresh && IdsNamed(w, Baseline(o, w, disk)) && PushPlanned(o, w, Baseline(o, w, disk), items, out)
    requires it in out && it.op.Move? && HasId(w, it.remoteID) && it.rel !in w.remote
    requires IsAttempt(o, Relocated(w, it.remoteID, it.rel, mtime), disk, again, w', disk') && Completed(again)
    ensures ContentAt(w', it.rel) == None && Aim(w, it, it.rel) == Some(DataOf(w, it.remoteID))
  {
    var v := Relocated(w, it.remoteID, it.rel, mtime);
    MoveIsPaired(o, w, Baseline(o, w, disk), items, out, it);
    RefreshedAfterMove(o, w, disk, items, it, mtime);
    RerunRemoves(o, v, disk, again, w', disk', it);
  }

  lemma RerunRemoves(o: Options, v: World, disk: map<Rel, Entry>, again: Attempt, w': World, disk': map<Rel, Entry>, it: Item)
    requires WellFormed(v) && IsAttempt(o, v, disk, again, w', disk') && Completed(again) && !o.noDelete
    requires it.rel in Baseline(o, v, disk)
    requires it.srcRel !in WalkOf(v) && it.srcRel in Baseline(o, v, disk) && Baseline(o, v, disk)[it.srcRel].remoteID == it.remoteID
    requires it.rel in v.remote && v.remote[it.rel].id == it.remoteID
    ensures ContentAt(w', it.rel) == None
  {
    ReplannedAfterRefresh(o, v, disk, again, it);
    RunLeaves(v, again.out, again.es, it.rel, it.remoteID);
    forall k: nat | k < |again.out| ensures Answered(again.es, k) {
      SucceededIsAnswered(again.es, k);
    }
  }

  lemma MoveIsPaired(o: Options, w: World, m: map<Rel, Entry>, items: seq<Item>, out: seq<Item>, it: Item)
    requires PushPlanned(o, w, m, items, out) && it in out && it.op.Move?
    ensures IsMove(items, m, it) && !o.noDelete
  {
    PlanIsApart(o, w, m, items, out);
    MoveNeedsOption(o, m, items, out, it);
  }

  lemma MoveNeedsOption(o: Options, m: map<Rel, Entry>, items: seq<Item>, out: seq<Item>, it: Item)
    requires Rewritten(o, m, items, out) && it in out && it.op.Move?
    requires it in items || IsMove(items, m, it)
    requires forall x :: x in items ==> !x.op.Move?
    ensures IsMove(items, m, it) && !o.noDelete
  {
    if o.noDelete {
      FilterMembers(NotDelete, items);
    }
  }

  /** The refreshed baseline has the moved file under both paths. */
  lemma RefreshedAfterMove(o: Options, w: World, disk: map<Rel, Entry>, items: seq<Item>, it: Item, mtime: int)
    requires o.refresh && IdsNamed(w, Baseline(o, w, disk)) && IsPushPlan(items, WalkOf(w), Baseline(o, w, disk))
    requires IsMove(items, Baseline(o, w, disk), it) && it.op.Move? && HasId(w, it.remoteID) && it.rel !in w.remote
    ensures var v := Relocated(w, it.remoteID, it.rel, mtime);
            var again := Baseline(o, v, disk);
            && WellFormed(v)
            && it.rel in again
            && it.srcRel !in WalkOf(v) && it.srcRel in again && again[it.srcRel].remoteID == it.remoteID
            && it.rel in v.remote && v.remote[it.rel].id == it.remoteID
  {
    var v := Relocated(w, it.remoteID, it.rel, mtime);
    RelocatedIsThere(w, it, mtime);
    MoveIsTracked(w, Baseline(o, w, disk), items, it);
    TwiceAfterMove(o, w, disk, v, it);
  }

  lemma RelocatedIsThere(w: World, it: Item, mtime: int)
    requires WellFormed(w) && HasId(w, it.remoteID) && it.rel !in w.remote
    ensures var v := Relocated(w, it.remoteID, it.rel, mtime);
            WellFormed(v) && WalkOf(v) == WalkOf(w) && it.rel in v.remote && v.remote[it.rel].id == it.remoteID
  {
  }

  lemma MoveIsTracked(w: World, b: map<Rel, Entry>, items: seq<Item>, it: Item)
    requires IsPushPlan(items, WalkOf(w), b) && IsMove(items, b, it)
    ensures it.srcRel !in WalkOf(w) && it.rel in WalkOf(w) && it.srcRel in b && b[it.srcRel].remoteID == it.remoteID
  {
    MovesArePairs(items, WalkOf(w), b, it);
  }

  lemma TwiceAfterMove(o: Options, w: World, disk: map<Rel, Entry>, v: World, it: Item)
    requires o.refresh && WalkOf(v) == WalkOf(w) && it.srcRel !in WalkOf(w) && it.srcRel in Baseline(o, w, disk)
    requires it.rel in WalkOf(v) && it.rel in v.remote
    ensures it.rel in Baseline(o, v, disk) && it.srcRel in Baseline(o, v, disk)
    ensures Baseline(o, v, disk)[it.srcRel] == Baseline(o, w, disk)[it.srcRel]
  {
    SeededEntry(w, disk, it.srcRel);
    SeededEntry(v, disk, it.srcRel);
    SeededEntry(v, disk, it.rel);
  }

  lemma ReplannedAfterRefresh(o: Options, v: World, disk: map<Rel, Entry>, again: Attempt, it: Item)
    requires PushPlanned(o, v, Baseline(o, v, disk), again.items, again.out) && !o.noDelete
    requires Completed(again)
    requires it.rel in Baseline(o, v, disk)
    requires it.srcRel !in WalkOf(v) && it.srcRel in Baseline(o, v, disk) && Baseline(o, v, disk)[it.srcRel].remoteID == it.remoteID
    ensures BringsNothing(again.out, it.rel)
    ensures RemovedBy(again.out, again.es, it.remoteID)
  {
    var b := Baseline(o, v, disk);
    PlanIsApart(o, v, b, again.items, again.out);
    forall x | x in again.out && x.rel == it.rel ensures x.op.Overwrite? || x.op.Delete? {
      MoveHasUpload(again.items, b, x);
    }
    var d := Item(it.srcRel, Delete, it.remoteID, 0, 0, "");
    assert d == CopyOut(it.srcRel, Lookup(WalkOf(v), it.srcRel), Lookup(b, it.srcRel));
    assert d in again.items;
    var y := RemoverOf(o, b, again.items, again.out, d);
    var k: nat :| k < |again.out| && again.out[k] == y;
    SucceededIsAnswered(again.es, k);
  }

  /** A planned deletion is carried out, or made part of a move of the same file. */
  lemma RemoverOf(o: Options, m: map<Rel, Entry>, items: seq<Item>, out: seq<Item>, d: Item) returns (y: Item)
    requires !o.noDelete && Rewritten(o, m, items, out) && d in items && d.op.Delete? && d.rel in m && d.remoteID == m[d.rel].remoteID
    ensures y in out && Removes(y, d.remoteID)
  {
    var i: nat :| i < |items| && items[i] == d;
    if !o.detectMoves || !Consumed(items, m, i) {
      y := d;
      if o.detectMoves { assert IsKept(items, m, d); }
    } else {
      OnlyTwoConsumed(items, m, i);
      y := MoveFor(items, m, KeyOf(m, d).value);
      assert IsMove(items, m, y);
    }
  }

  // ---- A re-run that refreshes ----

  lemma {:induction false} ItemsFor(todo: set<Rel>, local: map<Rel, LocalFile>, m: map<Rel, Entry>) returns (items: seq<Item>)
    ensures DistinctRels(items)
    ensures forall it :: it in items ==> it.rel in todo && it == CopyOut(it.rel, Lookup(local, it.rel), Lookup(m, it.rel))
    ensures forall p :: p in todo ==> CopyOut(p, Lookup(local, p), Lookup(m, p)) in items
    decreases |todo|
  {
    items := [];
    if p :| p in todo {
      var rest := ItemsFor(todo - {p}, local, m);
      items := rest + [CopyOut(p, Lookup(local, p), Lookup(m, p))];
      forall i, j | 0 <= i < j < |items| ensures items[i].rel != items[j].rel {
        assert rest[i] in rest;
      }
    }
  }

  /** There is a plan for any trees and baseline. */
  lemma PlanExists(local: map<Rel, LocalFile>, m: map<Rel, Entry>) returns (items: seq<Item>)
    ensures IsPushPlan(items, local, m)
  {
    var changed := set p | p in local.Keys + m.Keys && LocalMeta(local, p) != BaseLocal(m, p);
    items := ItemsFor(changed, local, m);
    forall p | LocalMeta(local, p) != BaseLocal(m, p) ensures p in local.Keys + m.Keys { }
  }

  /** A delete, or an overwrite of a file that is there. */
  ghost predicate Rerunnable(v: World, x: Item) {
    x.op.Delete? || (x.op.Overwrite? && x.rel in v.local && HasId(v, x.remoteID))
  }

  function Success(k: nat): Event {
    Call(Outcome(k, true, 0, 0))
  }

  lemma {:induction false} OverwritesRun(v: World, out: seq<Item>, n: nat) returns (es: seq<Event>)
    requires WellFormed(v) && n <= |out| && forall x :: x in out ==> Rerunnable(v, x)
    ensures IsTrace(v, out, es) && WorldOf(v, out, es).local == v.local
    ensures forall id :: HasId(v, id) ==> HasId(WorldOf(v, out, es), id)
    ensures forall k: nat :: k < n && out[k].op.Overwrite? ==> Success(k) in es
  {
    if n == 0 {
      es := [];
    } else {
      es := OverwritesRun(v, out, n - 1);
      var x, u := out[n - 1], WorldOf(v, out, es);
      assert x in out;
      if x.op.Overwrite? {
        TraceGrows(v, out, es, Success(n - 1));
        OverwriteKeepsIds(u, x, Next(u, out, Success(n - 1)));
        es := es + [Success(n - 1)];
      }
    }
  }

  lemma OverwriteKeepsIds(u: World, x: Item, u': World)
    requires x.op.Overwrite? && Possible(u, Push(x), 0, 0) && u' == Effect(u, Push(x), 0, 0)
    ensures forall id :: HasId(u, id) ==> HasId(u', id)
  {
    forall id | HasId(u, id) ensures HasId(u', id) {
      var p :| p in u.remote && u.remote[p].id == id;
      assert p in u'.remote && u'.remote[p].id == id;
    }
  }

  lemma {:induction false} DeletesRun(v: World, out: seq<Item>, before: seq<Event>, n: nat) returns (es: seq<Event>)
    requires IsTrace(v, out, before) && n <= |out|
    ensures IsTrace(v, out, es) && forall e :: e in before ==> e in es
    ensures forall k: nat :: k < n && out[k].op.Delete? ==> Success(k) in es
  {
    if n == 0 {
      es := before;
    } else {
      es := DeletesRun(v, out, before, n - 1);
      if out[n - 1].op.Delete? {
        TraceGrows(v, out, es, Success(n - 1));
        es := es + [Success(n - 1)];
      }
    }
  }

  /** Such a plan can be carried out: the overwrites first, then the deletes. */
  lemma RerunCompletes(v: World, out: seq<Item>) returns (es: seq<Event>)
    requires WellFormed(v) && forall x :: x in out ==> Rerunnable(v, x)
    ensures IsTrace(v, out, es) && forall k: nat :: k < |out| ==> Succeeded(Outcomes(es), k)
  {
    var first := OverwritesRun(v, out, |out|);
    es := DeletesRun(v, out, first, |out|);
    forall k: nat | k < |out| ensures Succeeded(Outcomes(es), k) {
      assert out[k] in out;
      assert Success(k) in es;
      AnsweredIsSucceeded(es, k);
    }
  }

  // ---- After a complete run ----

  /** A plan with moves, and the world after a complete run of it. */
  ghost predicate RanOnce(o: Options, w0: World, disk0: map<Rel, Entry>, items0: seq<Item>, plan: seq<Item>, w1: World) {
    && o.refresh && !o.noDelete && StartsWith(o, w0, disk0, items0, plan)
    && InProgress(w0, plan, w1) && Core(plan, w1) == w1
    && forall it :: it in plan ==> Done(w0, w1, it)
  }

  lemma OnceIsDone(o: Options, w0: World, disk0: map<Rel, Entry>, once: Attempt, mv: Item)
    requires o.refresh && StartsWith(o, w0, disk0, once.items, once.out) && !Crossed(once.out)
    requires CompleteTrace(w0, once.out, once.es) && mv in once.out && mv.op.Move?
    ensures RanOnce(o, w0, disk0, once.items, once.out, WorldOf(w0, once.out, once.es))
  {
    var plan, w1 := once.out, WorldOf(w0, once.out, once.es);
    PlanIsStartable(o, w0, disk0, once.items, plan);
    StartIsInProgress(w0, plan);
    RunInProgress(w0, plan, w0, plan, once.es);
    forall it | it in plan ensures Done(w0, Core(plan, w1), it) {
      ItemIsDone(w0, plan, once.es, it);
    }
    NothingPassing(w0, plan, w1);
    MoveIsPaired(o, w0, Baseline(o, w0, disk0), once.items, plan, mv);
  }

  lemma ItemIsDone(w0: World, plan: seq<Item>, es: seq<Event>, it: Item)
    requires CompleteTrace(w0, plan, es) && it in plan
    requires forall o :: o in Outcomes(es) && o.ok ==> o.k < |plan| && Done(w0, Core(plan, WorldOf(w0, plan, es)), plan[o.k])
    ensures Done(w0, Core(plan, WorldOf(w0, plan, es)), it)
  {
    var k: nat :| k < |plan| && plan[k] == it;
    CompleteAnswers(w0, plan, es, k);
    var o :| Call(o) in es && o.ok && o.k == k;
    AnswerOf(es, Call(o));
  }

  /** What a refreshed re-run plans: deletes, and overwrites of files that are there. */
  lemma RerunItems(o: Options, w0: World, disk0: map<Rel, Entry>, items0: seq<Item>, plan: seq<Item>, w1: World, items: seq<Item>)
    requires RanOnce(o, w0, disk0, items0, plan, w1) && IsPushPlan(items, WalkOf(w1), Baseline(o, w1, disk0))
    ensures forall x :: x in items ==> Rerunnable(w1, x)
  {
    forall x | x in items ensures Rerunnable(w1, x) {
      SeededEntry(w1, disk0, x.rel);
      if x.rel in WalkOf(w1) {
        if x.rel in w1.remote {
          assert HasId(w1, w1.remote[x.rel].id);
        } else {
          UnplannedIsRecorded(o, w0, disk0, items0, plan, w1, x.rel);
        }
      }
    }
  }

  /** A local file that is not there remotely after a complete run is as recorded, so it was not planned. */
  lemma UnplannedIsRecorded(o: Options, w0: World, disk0: map<Rel, Entry>, items0: seq<Item>, plan: seq<Item>, w1: World, p: Rel)
    requires RanOnce(o, w0, disk0, items0, plan, w1) && p in WalkOf(w1) && p !in w1.remote
    ensures LocalMeta(WalkOf(w1), p) == BaseLocal(Baseline(o, w1, disk0), p)
  {
    var b0 := Baseline(o, w0, disk0);
    assert WalkOf(w1) == WalkOf(w0);
    forall it | it in plan ensures p !in FP(it) {
      NotOfItem(o, w0, disk0, items0, plan, w1, p, it);
    }
    if LocalMeta(WalkOf(w0), p) != BaseLocal(b0, p) {
      var x := CopyOut(p, Lookup(WalkOf(w0), p), Lookup(b0, p));
      assert x in items0;
      var y := CarrierOf(o, b0, items0, plan, x);
      assert false;
    }
    assert Lookup(w1.remote, p) == Lookup(w0.remote, p);
    SeededEntry(w0, disk0, p);
    SeededEntry(w1, disk0, p);
  }

  lemma CarrierOf(o: Options, m: map<Rel, Entry>, items: seq<Item>, out: seq<Item>, x: Item) returns (y: Item)
    requires !o.noDelete && Rewritten(o, m, items, out) && x in items && !x.op.Move?
    ensures y in out && x.rel in FP(y)
  {
    y := Carrier(items, m, out, x);
  }

  lemma NotOfItem(o: Options, w0: World, disk0: map<Rel, Entry>, items0: seq<Item>, plan: seq<Item>, w1: World, p: Rel, it: Item)
    requires RanOnce(o, w0, disk0, items0, plan, w1) && p in WalkOf(w1) && p !in w1.remote && it in plan
    ensures p !in FP(it)
  {
    PlanIsApart(o, w0, Baseline(o, w0, disk0), items0, plan);
    NotOfDone(w0, Baseline(o, w0, disk0), items0, w1, p, it);
  }

  lemma NotOfDone(w0: World, b0: map<Rel, Entry>, items0: seq<Item>, w1: World, p: Rel, it: Item)
    requires IsPushPlan(items0, WalkOf(w0), b0) && (it in items0 || IsMove(items0, b0, it)) && Done(w0, w1, it)
    requires p in WalkOf(w0) && p !in w1.remote
    ensures p !in FP(it)
  {
    if IsMove(items0, b0, it) {
      MovesArePairs(items0, WalkOf(w0), b0, it);
    }
  }

  /** The moved file is under both paths in the refreshed baseline. */
  lemma MovedIsTwice(o: Options, w0: World, disk0: map<Rel, Entry>, items0: seq<Item>, plan: seq<Item>, w1: World, mv: Item)
    requires RanOnce(o, w0, disk0, items0, plan, w1) && mv in plan && mv.op.Move?
    ensures var again := Baseline(o, w1, disk0);
            && mv.rel in again && mv.rel in w1.remote && w1.remote[mv.rel].id == mv.remoteID
            && mv.srcRel !in WalkOf(w1) && mv.srcRel in again && again[mv.srcRel].remoteID == mv.remoteID
  {
    var b0 := Baseline(o, w0, disk0);
    assert Done(w0, w1, mv);
    MoveIsPaired(o, w0, b0, items0, plan, mv);
    MoveIsTracked(w0, b0, items0, mv);
    assert WalkOf(w1) == WalkOf(w0);
    TwiceAfterMove(o, w0, disk0, w1, mv);
  }

  lemma PairHasUpload(items: seq<Item>, m: map<Rel, Entry>, k: Key)
    ensures PairKey(items, m, k) ==> exists x :: x in items && x.op.Upload? && KeyOf(m, x) == Some(k)
  {
    if PairKey(items, m, k) {
      assert items[UploadAt(items, m, k)] in items;
    }
  }

  lemma MoveHasUpload(items: seq<Item>, m: map<Rel, Entry>, x: Item)
    ensures IsMove(items, m, x) ==> exists u :: u in items && u.op.Upload? && u.rel == x.rel
  {
    if k :| PairKey(items, m, k) && x == MoveFor(items, m, k) {
      assert items[UploadAt(items, m, k)] in items;
    }
  }

  /** With nothing to pair, the plan is carried out as it is. */
  lemma NoUploadsNoMoves(o: Options, m: map<Rel, Entry>, items: seq<Item>)
    requires !o.noDelete && DistinctRels(items) && forall x :: x in items ==> !x.op.Upload?
    ensures Rewritten(o, m, items, items)
  {
    forall k ensures !PairKey(items, m, k) {
      PairHasUpload(items, m, k);
    }
    forall x | x in items ensures IsKept(items, m, x) {
      var i: nat :| i < |items| && items[i] == x;
      assert !Consumed(items, m, i);
    }
  }

  /** A complete re-run of a refreshing push, after a complete run that recorded nothing. */
  lemma RefreshingRerun(o: Options, w0: World, disk0: map<Rel, Entry>, items0: seq<Item>, plan: seq<Item>, w1: World, mv: Item) returns (again: Attempt)
    requires RanOnce(o, w0, disk0, items0, plan, w1) && mv in plan && mv.op.Move?
    ensures IsTrace(w1, again.out, again.es) && IsAttempt(o, w1, disk0, again, WorldOf(w1, again.out, again.es), disk0)
    ensures Completed(again) && ContentAt(WorldOf(w1, again.out, again.es), mv.rel) == None
  {
    again := SomeRerun(o, w0, disk0, items0, plan, w1);
    MovedIsTwice(o, w0, disk0, items0, plan, w1, mv);
    RerunRemoves(o, w1, disk0, again, WorldOf(w1, again.out, again.es), disk0, mv);
  }

  lemma SomeRerun(o: Options, w0: World, disk0: map<Rel, Entry>, items0: seq<Item>, plan: seq<Item>, w1: World) returns (again: Attempt)
    requires RanOnce(o, w0, disk0, items0, plan, w1)
    ensures IsTrace(w1, again.out, again.es) && IsAttempt(o, w1, disk0, again, WorldOf(w1, again.out, again.es), disk0)
    ensures Completed(again)
  {
    var b := Baseline(o, w1, disk0);
    var items := PlanExists(WalkOf(w1), b);
    RerunItems(o, w0, disk0, items0, plan, w1, items);
    NoUploadsNoMoves(o, b, items);
    var es := RerunCompletes(w1, items);
    again := Attempt(items, items, es, []);
    UnrecordedAttempt(o, w1, disk0, again);
  }

  lemma UnrecordedAttempt(o: Options, w: World, disk: map<Rel, Entry>, a: Attempt)
    requires PushPlanned(o, w, Baseline(o, w, disk), a.items, a.out) && IsTrace(w, a.out, a.es) && a.rec == []
    ensures IsAttempt(o, w, disk, a, WorldOf(w, a.out, a.es), disk)
  {
  }

  lemma TwoAttempts(o: Options, w0: World, disk0: map<Rel, Entry>, a: Attempt, w1: World, b: Attempt, w2: World)
    requires IsAttempt(o, w0, disk0, a, w1, disk0) && IsAttempt(o, w1, disk0, b, w2, disk0) && Completed(b)
    ensures Finished(o, w0, disk0, [w0, w1, w2], [disk0, disk0, disk0], [a, b])
  {
    assert IsHistory(o, [w0, w1, w2], [disk0, disk0, disk0], [a, b]);
  }

  lemma LostIsNotReached(w0: World, plan: seq<Item>, w: World, mv: Item)
    requires mv in plan && mv.op.Move? && HasId(w0, mv.remoteID) && ContentAt(w, mv.rel) == None
    ensures !Reached(w0, plan, w)
  {
    assert mv.rel in FP(mv) && Aim(w0, mv, mv.rel).Some?;
    assert ContentAt(w, mv.rel) != Aim(w0, mv, mv.rel);
  }

  /** A refreshing push with a move: run once without a record, then again, it loses the moved file. */
  lemma RefreshingSometimesFails(o: Options, w0: World, disk0: map<Rel, Entry>, once: Attempt, mv: Item)
    requires o.refresh && StartsWith(o, w0, disk0, once.items, once.out) && !Crossed(once.out)
    requires CompleteTrace(w0, once.out, once.es) && mv in once.out && mv.op.Move?
    ensures !AlwaysReaches(o, w0, disk0, once.out)
  {
    var plan, w1 := once.out, WorldOf(w0, once.out, once.es);
    OnceIsDone(o, w0, disk0, once, mv);
    var again := RefreshingRerun(o, w0, disk0, once.items, plan, w1, mv);
    var a, w2 := Attempt(once.items, plan, once.es, []), WorldOf(w1, again.out, again.es);
    UnrecordedAttempt(o, w0, disk0, a);
    TwoAttempts(o, w0, disk0, a, w1, again, w2);
    MovedWasThere(o, w0, disk0, once, mv);
    LostIsNotReached(w0, plan, w2, mv);
    FailingHistory(o, w0, disk0, plan, [w0, w1, w2], [disk0, disk0, disk0], [a, again]);
  }

  lemma MovedWasThere(o: Options, w0: World, disk0: map<Rel, Entry>, once: Attempt, mv: Item)
    requires StartsWith(o, w0, disk0, once.items, once.out) && CompleteTrace(w0, once.out, once.es) && mv in once.out && mv.op.Move?
    ensures HasId(w0, mv.remoteID)
  {
    PlanIsStartable(o, w0, disk0, once.items, once.out);
    var k: nat :| k < |once.out| && once.out[k] == mv;
    CompleteNeeds(w0, once.out, once.es, k);
  }

  // ---- Main result ----

  /** A forced push that can be carried out at all recovers from every crash, and from every interleaving of its calls,
      exactly if no upload of its plan goes to a path that a move of it passes through, and it does not both refresh its
      baseline and move. */
  lemma RecoversIff(o: Options, w0: World, disk0: map<Rel, Entry>, once: Attempt, w: World, disk: map<Rel, Entry>)
    requires StartsWith(o, w0, disk0, once.items, once.out)
    requires IsAttempt(o, w0, disk0, once, w, disk) && Completed(once) && DistinctKeys(Outcomes(once.es))
    ensures AlwaysReaches(o, w0, disk0, once.out) <==> !Crossed(once.out) && RefreshesNoMove(o, once.out)
  {
    if Crossed(once.out) {
      CrossedSometimesFails(o, w0, disk0, once, w, disk);
    } else if RefreshesNoMove(o, once.out) {
      UncrossedReaches(o, w0, disk0, once.items, once.out);
    } else {
      var mv :| mv in once.out && mv.op.Move?;
      OnceIsComplete(o, w0, disk0, once, w, disk);
      RefreshingSometimesFails(o, w0, disk0, once, mv);
    }
  }
}
