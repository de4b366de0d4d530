/**
 When an upload goes to a path that a move passes through, the upload can find the moving file there, take it for an
 earlier copy of its own, and overwrite it. Then a push need not recover from a crash, or even from its own
 interleaving.
 */
module PushCrossing {
  import opened Types
  import opened Paths
  import opened Pool
  import opened Worlds
  import opened Collecting
  import opened Planning
  import opened MovePlanning
  import opened TwoWay
  import opened PushTrace
  import opened PushWorld
  import opened PushCrash
  import opened PushRecovery

  /** The positions of an upload and a move that cross, in a plan whose items are about different paths. */
  ghost predicate Crossing(w0: World, plan: seq<Item>, ku: nat, km: nat) {
    && Startable(w0, plan) && DisjointFootprints(PushJobs(plan))
    && ku < |plan| && km < |plan| && Crosses(plan[ku], plan[km])
    && HasId(w0, plan[km].remoteID)
  }

  ghost predicate Answered(es: seq<Event>, k: nat) {
    exists o :: Call(o) in es && o.ok && o.k == k
  }

  lemma OnlyUpload(plan: seq<Item>, ku: nat, k: nat)
    requires DisjointFootprints(PushJobs(plan)) && ku < |plan| && k < |plan| && k != ku
    ensures FP(plan[ku]) !! FP(plan[k]) && plan[ku].rel !in FP(plan[k])
  {
    var jobs := PushJobs(plan);
    assert FP(plan[ku]) == Footprint(jobs[ku]) && FP(plan[k]) == Footprint(jobs[k]);
    if ku < k { assert Footprint(jobs[ku]) !! Footprint(jobs[k]); } else { assert Footprint(jobs[k]) !! Footprint(jobs[ku]); }
    assert plan[ku].rel in FP(plan[ku]);
  }

  // ---- Where the file of the move is ----

  ghost predicate ShiftedIn(es: seq<Event>, k: nat) {
    exists e :: e in es && e.Shift? && e.k == k
  }

  /** The move at `km` of a plan takes two calls, and its file is there. */
  ghost predicate Travels(w0: World, plan: seq<Item>, km: nat) {
    && Startable(w0, plan) && DisjointFootprints(PushJobs(plan))
    && km < |plan| && TwoCalls(plan[km]) && HasId(w0, plan[km].remoteID)
  }

  lemma OthersLeaveIt(w0: World, plan: seq<Item>, km: nat, k: nat)
    requires Travels(w0, plan, km) && k < |plan| && k != km
    ensures !plan[k].op.Upload? ==> plan[k].remoteID != plan[km].remoteID
  {
    OnlyUpload(plan, km, k);
    assert plan[k] in plan && plan[km] in plan;
    assert Home(plan[k]) in FP(plan[k]) && Home(plan[km]) in FP(plan[km]);
    OneHome(w0, plan[k], plan[km]);
  }

  function Stage(it: Item, answered: bool, shifted: bool): Rel {
    if answered then it.rel else if shifted then HalfOf(it) else it.srcRel
  }

  /** The file is at its old path, halfway, or at its new path, as the events so far say. */
  lemma {:induction false} WhereIs(w0: World, plan: seq<Item>, es: seq<Event>, km: nat)
    requires Travels(w0, plan, km) && IsTrace(w0, plan, es)
    ensures var v := WorldOf(w0, plan, es);
            && HasId(v, plan[km].remoteID)
            && PathOf(v, plan[km].remoteID) == Stage(plan[km], Answered(es, km), ShiftedIn(es, km))
  {
    var id := plan[km].remoteID;
    TraceIsSound(w0, plan, es);
    if es == [] {
      assert plan[km] in plan;
      assert PathOf(w0, id) == plan[km].srcRel;
    } else {
      var front, e := es[..|es| - 1], es[|es| - 1];
      assert forall x :: x in es <==> x in front || x == e;
      WhereIs(w0, plan, front, km);
      TraceIsSound(w0, plan, front);
      var v, v' := WorldOf(w0, plan, front), WorldOf(w0, plan, es);
      if ItemOfEvent(e) == km {
        HalfIsApart(plan[km]);
        OwnEventMoves(v, plan, e, km);
      } else {
        OthersLeaveIt(w0, plan, km, ItemOfEvent(e));
        EventAt(w0, v, plan, e, PathOf(v, id));
        assert PathOf(v', id) == PathOf(v, id);
      }
      assert Answered(es, km) <==> Answered(front, km) || (e.Call? && e.o.ok && e.o.k == km);
      assert ShiftedIn(es, km) <==> ShiftedIn(front, km) || (e.Shift? && e.k == km);
    }
  }

  lemma OwnEventMoves(v: World, plan: seq<Item>, e: Event, km: nat)
    requires WellFormed(v) && km < |plan| && TwoCalls(plan[km]) && HasId(v, plan[km].remoteID) && CanHappen(v, plan, e) && ItemOfEvent(e) == km
    requires DirOf(HalfOf(plan[km])) == DirOf(plan[km].rel)
    requires PathOf(v, plan[km].remoteID) in {plan[km].srcRel, HalfOf(plan[km]), plan[km].rel}
    ensures var (v', id) := (Next(v, plan, e), plan[km].remoteID);
            && HasId(v', id)
            && PathOf(v', id) == (if e.Shift? then HalfOf(plan[km]) else if e.o.ok then plan[km].rel else PathOf(v, id))
            && (e.Shift? ==> PathOf(v, id) == plan[km].srcRel)
            && (e.Call? && e.o.ok ==> PathOf(v, id) != plan[km].srcRel)
  {
    var v', id := Next(v, plan, e), plan[km].remoteID;
    if e.Shift? {
      assert v'.remote[HalfOf(plan[km])].id == id;
    } else if e.o.ok {
      assert v'.remote[plan[km].rel].id == id;
    }
  }

  // ---- Who is at the upload's path ----

  /** A file no item is about stays where it is. */
  lemma {:induction false} TakenStays(w0: World, plan: seq<Item>, es: seq<Event>, d: nat, n: nat, p: Rel)
    requires WellFormed(w0) && IsTrace(w0, plan, es) && d <= n <= |es| && IsTrace(w0, plan, es[..d])
    requires var v := WorldOf(w0, plan, es[..d]); p in v.remote && forall it :: it in plan && !it.op.Upload? ==> it.remoteID != v.remote[p].id
    ensures IsTrace(w0, plan, es[..n])
    ensures p in WorldOf(w0, plan, es[..n]).remote && WorldOf(w0, plan, es[..n]).remote[p].id == WorldOf(w0, plan, es[..d]).remote[p].id
  {
    TracePrefix(w0, plan, es, n);
    if d < n {
      TakenStays(w0, plan, es, d, n - 1, p);
      assert es[..n][..n - 1] == es[..n - 1];
      TraceIsSound(w0, plan, es[..n - 1]);
      EventAt(w0, WorldOf(w0, plan, es[..n - 1]), plan, es[n - 1], p);
      assert plan[ItemOfEvent(es[n - 1])] in plan;
    }
  }

  /** Whatever is at `p` is the file of a move that is not finished. */
  ghost predicate OnlyPassing(plan: seq<Item>, v: World, es: seq<Event>, p: Rel) {
    p in v.remote ==> exists k: nat :: k < |plan| && plan[k].op.Move? && plan[k].remoteID == v.remote[p].id && !Answered(es, k)
  }

  /** The upload at `ku` found nothing at its path. */
  ghost predicate FindsNothing(v: World, plan: seq<Item>, e: Event, ku: nat) {
    e.Call? && e.o.ok && e.o.k == ku && ku < |plan| && plan[ku].rel !in v.remote
  }

  lemma StillOnlyPassing(w0: World, plan: seq<Item>, es: seq<Event>, ku: nat)
    requires Startable(w0, plan) && DisjointFootprints(PushJobs(plan)) && ku < |plan| && plan[ku].op.Upload?
    requires IsTrace(w0, plan, es) && es != []
    requires var front := es[..|es| - 1];
             OnlyPassing(plan, WorldOf(w0, plan, front), front, plan[ku].rel)
             && !FindsNothing(WorldOf(w0, plan, front), plan, es[|es| - 1], ku)
    ensures OnlyPassing(plan, WorldOf(w0, plan, es), es, plan[ku].rel)
  {
    var p, front, e := plan[ku].rel, es[..|es| - 1], es[|es| - 1];
    var v, v', j := WorldOf(w0, plan, front), WorldOf(w0, plan, es), ItemOfEvent(e);
    TraceIsSound(w0, plan, front);
    EventAt(w0, v, plan, e, p);
    OutcomesAre(front);
    assert es == front + [e];
    if j != ku {
      OnlyUpload(plan, ku, j);
    }
    if p in v.remote && p in v'.remote {
      StaysUnanswered(plan, v, front, e, ku);
    } else if p in v'.remote {
      assert e.Shift? && !Answered(es, j);
    }
  }

  /** An event that does not move the passing file on leaves its move unfinished. */
  lemma StaysUnanswered(plan: seq<Item>, v: World, front: seq<Event>, e: Event, ku: nat)
    requires DisjointFootprints(PushJobs(plan)) && ku < |plan| && plan[ku].op.Upload? && WellFormed(v)
    requires CanHappen(v, plan, e) && plan[ku].rel in v.remote && plan[ku].rel in Next(v, plan, e).remote
    requires OnlyPassing(plan, v, front, plan[ku].rel)
    requires ItemOfEvent(e) != ku ==> plan[ku].rel !in FP(plan[ItemOfEvent(e)])
    ensures exists k: nat :: k < |plan| && plan[k].op.Move? && plan[k].remoteID == v.remote[plan[ku].rel].id && !Answered(front + [e], k)
  {
    var k: nat :| k < |plan| && plan[k].op.Move? && plan[k].remoteID == v.remote[plan[ku].rel].id && !Answered(front, k);
    assert forall x :: x in front + [e] <==> x in front || x == e;
    assert plan[k].rel in FP(plan[k]);
    assert !Answered(front + [e], k);
  }

  lemma {:induction false} PassesOnly(w0: World, plan: seq<Item>, es: seq<Event>, ku: nat, n: nat)
    requires Startable(w0, plan) && DisjointFootprints(PushJobs(plan)) && ku < |plan| && plan[ku].op.Upload?
    requires IsTrace(w0, plan, es) && n <= |es| && plan[ku].rel !in w0.remote
    requires forall i :: 0 <= i < n ==> IsTrace(w0, plan, es[..i]) && !FindsNothing(WorldOf(w0, plan, es[..i]), plan, es[i], ku)
    ensures IsTrace(w0, plan, es[..n]) && OnlyPassing(plan, WorldOf(w0, plan, es[..n]), es[..n], plan[ku].rel)
  {
    TracePrefix(w0, plan, es, n);
    if n > 0 {
      PassesOnly(w0, plan, es, ku, n - 1);
      assert es[..n][..n - 1] == es[..n - 1];
      StillOnlyPassing(w0, plan, es[..n], ku);
    }
  }

  // ---- A complete run that crosses ----

  ghost predicate CompleteTrace(w0: World, plan: seq<Item>, es: seq<Event>) {
    IsTrace(w0, plan, es) && Complete(PushJobs(plan), Outcomes(es))
  }

  lemma SucceededIsAnswered(es: seq<Event>, k: nat)
    requires Succeeded(Outcomes(es), k)
    ensures Answered(es, k)
  {
    var i :| 0 <= i < |Outcomes(es)| && Outcomes(es)[i].k == k && Outcomes(es)[i].ok;
    OutcomesAre(es);
    assert Call(Outcomes(es)[i]) in es;
  }

  lemma CompleteAnswers(w0: World, plan: seq<Item>, es: seq<Event>, k: nat)
    requires CompleteTrace(w0, plan, es) && k < |plan|
    ensures Answered(es, k)
  {
    assert Succeeded(Outcomes(es), k);
    SucceededIsAnswered(es, k);
  }

  /** Without crossings, a complete run does what its plan is for. */
  lemma CompleteReaches(w0: World, plan: seq<Item>, es: seq<Event>)
    requires Startable(w0, plan) && !Crossed(plan) && CompleteTrace(w0, plan, es)
    ensures Reached(w0, plan, WorldOf(w0, plan, es))
  {
    var v := WorldOf(w0, plan, es);
    StartIsInProgress(w0, plan);
    RunInProgress(w0, plan, w0, plan, es);
    forall it | it in plan ensures Done(w0, Core(plan, v), it) {
      var k: nat :| k < |plan| && plan[k] == it;
      CompleteAnswers(w0, plan, es, k);
      var o :| Call(o) in es && o.ok && o.k == k;
      AnswerOf(es, Call(o));
    }
    DoneIsReached(w0, plan, v);
  }

  /** The upload wants its file where it is to be. */
  lemma MissingIsNotReached(w0: World, plan: seq<Item>, w: World, ku: nat)
    requires ku < |plan| && plan[ku].op.Upload? && plan[ku].rel in w0.local && plan[ku].rel !in w.remote
    ensures !Reached(w0, plan, w)
  {
    var u := plan[ku];
    assert u in plan && u.rel in FP(u);
    assert ContentAt(w, u.rel) != Aim(w0, u, u.rel);
  }

  /** If the upload found the moving file, its path is empty in the end. */
  lemma FoundMeansMissing(w0: World, plan: seq<Item>, es: seq<Event>, ku: nat)
    requires Startable(w0, plan) && DisjointFootprints(PushJobs(plan)) && ku < |plan| && plan[ku].op.Upload?
    requires CompleteTrace(w0, plan, es) && plan[ku].rel !in w0.remote
    requires forall i :: 0 <= i < |es| ==> IsTrace(w0, plan, es[..i]) && !FindsNothing(WorldOf(w0, plan, es[..i]), plan, es[i], ku)
    ensures plan[ku].rel !in WorldOf(w0, plan, es).remote
  {
    PassesOnly(w0, plan, es, ku, |es|);
    assert es[..|es|] == es;
    forall k: nat | k < |plan| ensures Answered(es, k) {
      CompleteAnswers(w0, plan, es, k);
    }
  }

  // ---- The same run with the upload called between the calls of the move ----

  /** Two worlds that differ in the bytes and mtimes of files, and, once `gone`, in that only the first has the file
      that the upload made at `p`. */
  ghost predicate Alike(w0: World, v: World, v': World, p: Rel, gone: bool) {
    Sound(w0, v) && Sound(w0, v') && SameFiles(w0, v, v', p, gone)
  }

  ghost predicate SameFiles(w0: World, v: World, v': World, p: Rel, gone: bool) {
    && v'.used <= v.used
    && (forall q :: q in v'.remote ==> q in v.remote && v'.remote[q].id == v.remote[q].id)
    && (forall q :: q in v.remote && !(gone && q == p) ==> q in v'.remote)
    && (gone ==> p !in v'.remote && p in v.remote && v.remote[p].id !in w0.used)
  }

  lemma SamePlace(w0: World, v: World, v': World, p: Rel, gone: bool, id: int)
    requires Alike(w0, v, v', p, gone) && id in w0.used
    ensures HasId(v, id) <==> HasId(v', id)
    ensures HasId(v, id) ==> PathOf(v, id) == PathOf(v', id)
  {
    if HasId(v, id) {
      assert v'.remote[PathOf(v, id)].id == id;
    }
    if HasId(v', id) {
      assert v.remote[PathOf(v', id)].id == id;
    }
  }

  lemma AlikeCanHappen(w0: World, plan: seq<Item>, v: World, v': World, p: Rel, gone: bool, e: Event)
    requires Alike(w0, v, v', p, gone) && CanHappen(v, plan, e)
    requires var it := plan[ItemOfEvent(e)]; Placed(w0, it) && p !in FP(it)
    ensures CanHappen(v', plan, e)
  {
    var it := plan[ItemOfEvent(e)];
    if !it.op.Upload? {
      SamePlace(w0, v, v', p, gone, it.remoteID);
    }
    assert it.rel in FP(it);
  }

  lemma AlikeNext(w0: World, plan: seq<Item>, v: World, v': World, p: Rel, gone: bool, e: Event)
    requires Alike(w0, v, v', p, gone) && CanHappen(v, plan, e) && CanHappen(v', plan, e)
    requires var it := plan[ItemOfEvent(e)]; Placed(w0, it) && p !in FP(it)
    ensures Alike(w0, Next(v, plan, e), Next(v', plan, e), p, gone)
  {
    EventIsSound(w0, v, plan, e);
    EventIsSound(w0, v', plan, e);
    SameFilesNext(w0, plan, v, v', p, gone, e);
  }

  lemma SameFilesNext(w0: World, plan: seq<Item>, v: World, v': World, p: Rel, gone: bool, e: Event)
    requires Alike(w0, v, v', p, gone) && CanHappen(v, plan, e) && CanHappen(v', plan, e)
    requires var it := plan[ItemOfEvent(e)]; Placed(w0, it) && p !in FP(it)
    ensures SameFiles(w0, Next(v, plan, e), Next(v', plan, e), p, gone)
  {
    var it := plan[ItemOfEvent(e)];
    if !it.op.Upload? {
      SamePlace(w0, v, v', p, gone, it.remoteID);
    }
    assert it.rel in FP(it);
  }

  /** All but the upload's own answer. */
  function Without(es: seq<Event>, ku: nat): seq<Event> {
    if es == [] then []
    else Without(es[..|es| - 1], ku) + (if IsCallOf(es[|es| - 1], ku) then [] else [es[|es| - 1]])
  }

  lemma {:induction false} WithoutMembers(es: seq<Event>, ku: nat)
    ensures forall e :: e in Without(es, ku) <==> e in es && !IsCallOf(e, ku)
  {
    if es != [] {
      WithoutMembers(es[..|es| - 1], ku);
      assert forall e :: e in es <==> e in es[..|es| - 1] || e == es[|es| - 1];
    }
  }

  /** If the `i`-th event of `rest` is the upload's answer, the upload found its path free. */
  ghost predicate FoundNothingAt(w0: World, plan: seq<Item>, head: seq<Event>, rest: seq<Event>, ku: nat, i: nat)
    requires i < |rest|
  {
    IsCallOf(rest[i], ku) ==>
      rest[i].o.ok && IsTrace(w0, plan, head + rest[..i]) && FindsNothing(WorldOf(w0, plan, head + rest[..i]), plan, rest[i], ku)
  }

  ghost predicate FoundNothing(w0: World, plan: seq<Item>, head: seq<Event>, rest: seq<Event>, ku: nat) {
    forall i :: 0 <= i < |rest| ==> FoundNothingAt(w0, plan, head, rest, ku, i)
  }

  /** `head` ends between the calls of the move; `u` is the upload called there; `rest` is what else there was. */
  ghost predicate IsRerouted(w0: World, plan: seq<Item>, head: seq<Event>, u: Event, rest: seq<Event>, ku: nat)
    requires ku < |plan|
  {
    && IsTrace(w0, plan, head + rest) && IsTrace(w0, plan, head + [u] + Without(rest, ku))
    && Alike(w0, WorldOf(w0, plan, head + rest), WorldOf(w0, plan, head + [u] + Without(rest, ku)), plan[ku].rel, HasCallOf(rest, ku))
  }

  lemma {:induction false} Rerouted(w0: World, plan: seq<Item>, head: seq<Event>, u: Event, rest: seq<Event>, ku: nat)
    requires Startable(w0, plan) && DisjointFootprints(PushJobs(plan)) && ku < |plan| && plan[ku].op.Upload?
    requires IsTrace(w0, plan, head + rest) && IsTrace(w0, plan, head) && DistinctKeys(Outcomes(head + rest))
    requires u.Call? && u.o.ok && u.o.k == ku && IsTrace(w0, plan, head + [u])
    requires Alike(w0, WorldOf(w0, plan, head), WorldOf(w0, plan, head + [u]), plan[ku].rel, false)
    requires FoundNothing(w0, plan, head, rest, ku)
    ensures IsRerouted(w0, plan, head, u, rest, ku)
  {
    if rest == [] {
      assert head + rest == head && head + [u] + [] == head + [u];
    } else {
      var front, e := rest[..|rest| - 1], rest[|rest| - 1];
      OneMore(head, u, front, e, ku);
      assert rest == front + [e];
      LastAnswer(head + rest, ku);
      ShorterRest(w0, plan, head, rest, ku);
      Rerouted(w0, plan, head, u, front, ku);
      ReroutedMore(w0, plan, head, u, front, e, ku);
    }
  }

  lemma OneMore(head: seq<Event>, u: Event, front: seq<Event>, e: Event, ku: nat)
    ensures head + (front + [e]) == (head + front) + [e] && (head + (front + [e]))[..|head + front|] == head + front
    ensures head + [u] + Without(front + [e], ku) == (head + [u] + Without(front, ku)) + (if IsCallOf(e, ku) then [] else [e])
    ensures HasCallOf(front + [e], ku) <==> HasCallOf(front, ku) || IsCallOf(e, ku)
  {
    assert (front + [e])[..|front|] == front;
    HasCallOfLast(front + [e], ku);
  }

  lemma ReroutedMore(w0: World, plan: seq<Item>, head: seq<Event>, u: Event, front: seq<Event>, e: Event, ku: nat)
    requires Startable(w0, plan) && DisjointFootprints(PushJobs(plan)) && ku < |plan| && plan[ku].op.Upload?
    requires IsRerouted(w0, plan, head, u, front, ku) && IsTrace(w0, plan, (head + front) + [e]) && IsCallOf(u, ku)
    requires IsCallOf(e, ku) ==> e.o.ok && !HasCallOf(front, ku) && FindsNothing(WorldOf(w0, plan, head + front), plan, e, ku)
    ensures IsRerouted(w0, plan, head, u, front + [e], ku)
  {
    OneMore(head, u, front, e, ku);
    ReroutedMembers(head, u, front, ku);
    ReroutedStep(w0, plan, head + front, head + [u] + Without(front, ku), e, ku, HasCallOf(front, ku));
  }

  lemma ShorterRest(w0: World, plan: seq<Item>, head: seq<Event>, rest: seq<Event>, ku: nat)
    requires rest != [] && FoundNothing(w0, plan, head, rest, ku)
    ensures FoundNothing(w0, plan, head, rest[..|rest| - 1], ku)
    ensures var e := rest[|rest| - 1]; IsCallOf(e, ku) ==>
              var before := head + rest[..|rest| - 1]; e.o.ok && IsTrace(w0, plan, before) && FindsNothing(WorldOf(w0, plan, before), plan, e, ku)
  {
    var front := rest[..|rest| - 1];
    forall i | 0 <= i < |front| ensures FoundNothingAt(w0, plan, head, front, ku, i) {
      assert front[..i] == rest[..i] && FoundNothingAt(w0, plan, head, rest, ku, i);
    }
    assert FoundNothingAt(w0, plan, head, rest, ku, |front|);
  }

  lemma ReroutedMembers(head: seq<Event>, u: Event, front: seq<Event>, ku: nat)
    requires IsCallOf(u, ku)
    ensures forall x :: x in head + [u] + Without(front, ku) ==> x in head + front || IsCallOf(x, ku)
  {
    WithoutMembers(front, ku);
  }

  predicate HasCallOf(es: seq<Event>, k: nat) {
    exists x :: x in es && IsCallOf(x, k)
  }

  lemma HasCallOfLast(es: seq<Event>, k: nat)
    requires es != []
    ensures HasCallOf(es, k) <==> HasCallOf(es[..|es| - 1], k) || IsCallOf(es[|es| - 1], k)
  {
    assert forall x :: x in es <==> x in es[..|es| - 1] || x == es[|es| - 1];
  }

  lemma LastAnswer(es: seq<Event>, ku: nat)
    requires es != [] && DistinctKeys(Outcomes(es))
    ensures DistinctKeys(Outcomes(es[..|es| - 1]))
    ensures IsCallOf(es[|es| - 1], ku) ==> forall x :: x in es[..|es| - 1] ==> !IsCallOf(x, ku)
  {
    var front, e := es[..|es| - 1], es[|es| - 1];
    if e.Call? {
      DistinctFront(Outcomes(front), e.o);
      forall x | x in front && x.Call? ensures x.o.k != e.o.k {
        AnswerOf(front, x);
      }
    } else {
      assert Outcomes(es) == Outcomes(front);
    }
  }

  lemma AnswerOf(es: seq<Event>, x: Event)
    requires x in es && x.Call?
    ensures x.o in Outcomes(es)
  {
    OutcomesAre(es);
    assert x == Call(x.o);
  }

  lemma DistinctFront(log: seq<Outcome>, o: Outcome)
    requires DistinctKeys(log + [o])
    ensures DistinctKeys(log) && forall x :: x in log ==> x.k != o.k
  {
    forall i, j | 0 <= i < j < |log| ensures log[i].k != log[j].k {
      assert (log + [o])[i] == log[i] && (log + [o])[j] == log[j];
    }
    forall x | x in log ensures x.k != o.k {
      var i :| 0 <= i < |log| && log[i] == x;
      assert (log + [o])[i] == x && (log + [o])[|log|] == o;
    }
  }

  lemma NotReported(es: seq<Event>, es': seq<Event>, k: nat, ku: nat)
    requires !Reports(Outcomes(es), k) && k != ku
    requires forall x :: x in es' ==> x in es || IsCallOf(x, ku)
    ensures !Reports(Outcomes(es'), k)
  {
    OutcomesAre(es);
    OutcomesAre(es');
    forall i | 0 <= i < |Outcomes(es')| ensures Outcomes(es')[i].k != k {
      var o := Outcomes(es')[i];
      assert o in Outcomes(es') && Call(o) in es';
      if Call(o) in es {
        var j :| 0 <= j < |Outcomes(es)| && Outcomes(es)[j] == o;
      }
    }
  }

  predicate IsCallOf(e: Event, k: nat) {
    e.Call? && e.o.k == k
  }

  lemma ReroutedStep(w0: World, plan: seq<Item>, es: seq<Event>, es': seq<Event>, e: Event, ku: nat, gone: bool)
    requires Startable(w0, plan) && DisjointFootprints(PushJobs(plan)) && ku < |plan| && plan[ku].op.Upload?
    requires IsTrace(w0, plan, es + [e]) && IsTrace(w0, plan, es) && IsTrace(w0, plan, es')
    requires Alike(w0, WorldOf(w0, plan, es), WorldOf(w0, plan, es'), plan[ku].rel, gone)
    requires IsCallOf(e, ku) ==> e.o.ok && !gone && FindsNothing(WorldOf(w0, plan, es), plan, e, ku)
    requires forall x :: x in es' ==> x in es || IsCallOf(x, ku)
    ensures var after := es' + (if IsCallOf(e, ku) then [] else [e]);
            && IsTrace(w0, plan, after)
            && Alike(w0, WorldOf(w0, plan, es + [e]), WorldOf(w0, plan, after), plan[ku].rel, gone || IsCallOf(e, ku))
  {
    var v, v', p := WorldOf(w0, plan, es), WorldOf(w0, plan, es'), plan[ku].rel;
    assert (es + [e])[..|es|] == es;
    if IsCallOf(e, ku) {
      assert es' + [] == es';
      EventIsSound(w0, v, plan, e);
    } else {
      OnlyUpload(plan, ku, ItemOfEvent(e));
      assert plan[ItemOfEvent(e)] in plan;
      AlikeCanHappen(w0, plan, v, v', p, gone, e);
      if e.Shift? {
        NotReported(es, es', e.k, ku);
      }
      TraceGrows(w0, plan, es', e);
      AlikeNext(w0, plan, v, v', p, gone, e);
    }
  }

  lemma {:induction false} AnswerNeedsShift(w0: World, plan: seq<Item>, es: seq<Event>, km: nat)
    requires Travels(w0, plan, km) && IsTrace(w0, plan, es) && Answered(es, km)
    ensures ShiftedIn(es, km)
  {
    var front, e := es[..|es| - 1], es[|es| - 1];
    assert forall x :: x in es <==> x in front || x == e;
    if Answered(front, km) {
      AnswerNeedsShift(w0, plan, front, km);
    } else {
      WhereIs(w0, plan, front, km);
      TraceIsSound(w0, plan, front);
      HalfIsApart(plan[km]);
      OwnEventMoves(WorldOf(w0, plan, front), plan, e, km);
    }
  }

  /** A plan that was carried out completely had its moves' files, and its uploads' sources. */
  lemma CompleteNeeds(w0: World, plan: seq<Item>, es: seq<Event>, k: nat)
    requires Startable(w0, plan) && CompleteTrace(w0, plan, es) && k < |plan|
    ensures plan[k].op.Move? ==> HasId(w0, plan[k].remoteID)
    ensures plan[k].op.Upload? ==> plan[k].rel in w0.local
  {
    CompleteAnswers(w0, plan, es, k);
    var o :| Call(o) in es && o.ok && o.k == k;
    var c :| 0 <= c < |es| && es[c] == Call(o);
    TracePrefix(w0, plan, es, c);
    TraceIsSound(w0, plan, es[..c]);
    assert plan[k] in plan && Placed(w0, plan[k]);
  }

  /** The halfway path of a move that was made is free at the start, if an upload is to go there. */
  lemma HalfwayIsFree(w0: World, plan: seq<Item>, es: seq<Event>, ku: nat, km: nat, s: nat, d: nat)
    requires Crossing(w0, plan, ku, km) && IsTrace(w0, plan, es) && d <= s < |es| && es[s].Shift? && es[s].k == km
    requires IsTrace(w0, plan, es[..d])
    requires var v := WorldOf(w0, plan, es[..d]); plan[ku].rel in v.remote ==>
               forall it :: it in plan && !it.op.Upload? ==> it.remoteID != v.remote[plan[ku].rel].id
    ensures plan[ku].rel !in WorldOf(w0, plan, es[..d]).remote
  {
    TracePrefix(w0, plan, es, s);
    WhereIs(w0, plan, es[..s], km);
    TraceIsSound(w0, plan, es[..s]);
    HalfIsApart(plan[km]);
    OwnEventMoves(WorldOf(w0, plan, es[..s]), plan, es[s], km);
    assert plan[ku].rel !in WorldOf(w0, plan, es[..s]).remote;
    if plan[ku].rel in WorldOf(w0, plan, es[..d]).remote {
      TakenStays(w0, plan, es, d, s, plan[ku].rel);
    }
  }

  lemma UploadPathIsNotHome(w0: World, plan: seq<Item>, ku: nat)
    requires Startable(w0, plan) && DisjointFootprints(PushJobs(plan)) && ku < |plan| && plan[ku].op.Upload?
    ensures plan[ku].rel in w0.remote ==> forall it :: it in plan && !it.op.Upload? ==> it.remoteID != w0.remote[plan[ku].rel].id
  {
    forall it | it in plan && !it.op.Upload? ensures Home(it) != plan[ku].rel {
      var k: nat :| k < |plan| && plan[k] == it;
      OnlyUpload(plan, ku, k);
      assert Home(it) in FP(it);
    }
  }

  lemma {:induction false} AnsweredOnce(es: seq<Event>, i: nat, j: nat, k: nat)
    requires DistinctKeys(Outcomes(es)) && i < |es| && j < |es| && IsCallOf(es[i], k) && IsCallOf(es[j], k)
    ensures i == j
  {
    var n := |es| - 1;
    LastAnswer(es, k);
    forall x | 0 <= x < n ensures es[x] in es[..n] {
      assert es[..n][x] == es[x];
    }
    if i < n && j < n {
      AnsweredOnce(es[..n], i, j, k);
    }
  }

  lemma {:induction false} ReroutedDistinct(head: seq<Event>, u: Event, rest: seq<Event>, ku: nat)
    requires DistinctKeys(Outcomes(head + rest)) && IsCallOf(u, ku) && !HasCallOf(head, ku)
    ensures DistinctKeys(Outcomes(head + [u] + Without(rest, ku)))
  {
    if rest == [] {
      assert head + rest == head && head + [u] + [] == head + [u];
      DistinctWith(head, u);
    } else {
      var front, e := rest[..|rest| - 1], rest[|rest| - 1];
      assert (head + rest)[..|head + rest| - 1] == head + front;
      LastAnswer(head + rest, if e.Call? then e.o.k else ku);
      ReroutedDistinct(head, u, front, ku);
      if IsCallOf(e, ku) {
        assert head + [u] + Without(rest, ku) == head + [u] + Without(front, ku);
      } else {
        assert head + [u] + Without(rest, ku) == head + [u] + Without(front, ku) + [e];
        ReroutedMembers(head, u, front, ku);
        DistinctWith(head + [u] + Without(front, ku), e);
      }
    }
  }

  lemma DistinctWith(es: seq<Event>, e: Event)
    requires DistinctKeys(Outcomes(es)) && (e.Call? ==> forall x :: x in es ==> !IsCallOf(x, e.o.k))
    ensures DistinctKeys(Outcomes(es + [e]))
  {
    assert (es + [e])[..|es|] == es;
    if e.Call? {
      var log := Outcomes(es);
      assert Outcomes(es + [e]) == log + [e.o];
      forall i | 0 <= i < |log| ensures log[i].k != e.o.k {
        AnswerIn(es, log[i]);
      }
    } else {
      assert Outcomes(es + [e]) == Outcomes(es);
    }
  }

  lemma AnswerIn(es: seq<Event>, o: Outcome)
    requires o in Outcomes(es)
    ensures exists x :: x in es && IsCallOf(x, o.k)
  {
    OutcomesAre(es);
    assert Call(o) in es && IsCallOf(Call(o), o.k);
  }

  lemma AnsweredIsSucceeded(es: seq<Event>, k: nat)
    requires Answered(es, k)
    ensures Succeeded(Outcomes(es), k)
  {
    var o :| Call(o) in es && o.ok && o.k == k;
    AnswerOf(es, Call(o));
    var i :| 0 <= i < |Outcomes(es)| && Outcomes(es)[i] == o;
  }

  /** The rerouted run is complete too. */
  lemma ReroutedIsComplete(w0: World, plan: seq<Item>, head: seq<Event>, u: Event, rest: seq<Event>, ku: nat)
    requires CompleteTrace(w0, plan, head + rest) && IsCallOf(u, ku) && u.o.ok && !HasCallOf(head, ku)
    requires IsTrace(w0, plan, head + [u] + Without(rest, ku))
    ensures CompleteTrace(w0, plan, head + [u] + Without(rest, ku))
  {
    var es := head + [u] + Without(rest, ku);
    ReroutedDistinct(head, u, rest, ku);
    TraceKeys(w0, plan, es);
    WithoutMembers(rest, ku);
    forall k: nat | k < |plan| ensures Succeeded(Outcomes(es), k) {
      if k == ku {
        assert u in es && Call(u.o) == u;
      } else {
        CompleteAnswers(w0, plan, head + rest, k);
        var o :| Call(o) in head + rest && o.ok && o.k == k;
        assert Call(o) in es;
      }
      AnsweredIsSucceeded(es, k);
    }
  }

  /** The upload can be called just after the move's first call: it overwrites the moving file. */
  lemma UploadFindsMoving(w0: World, plan: seq<Item>, head: seq<Event>, ku: nat, km: nat) returns (u: Event)
    requires Crossing(w0, plan, ku, km) && plan[ku].rel in w0.local && IsTrace(w0, plan, head)
    requires ShiftedIn(head, km) && !Answered(head, km)
    ensures IsCallOf(u, ku) && u.o.ok && IsTrace(w0, plan, head + [u])
    ensures Alike(w0, WorldOf(w0, plan, head), WorldOf(w0, plan, head + [u]), plan[ku].rel, false)
  {
    var v, id := WorldOf(w0, plan, head), plan[km].remoteID;
    TraceIsSound(w0, plan, head);
    WhereIs(w0, plan, head, km);
    assert plan[km] in plan && Placed(w0, plan[km]);
    u := Call(Outcome(ku, true, id, 0));
    TraceGrows(w0, plan, head, u);
    EventIsSound(w0, v, plan, u);
  }

  /** The events of a complete run cut just after the first call of the move. */
  lemma CutAfterShift(w0: World, plan: seq<Item>, es: seq<Event>, km: nat, s: nat)
    requires IsTrace(w0, plan, es) && s < |es| && es[s].Shift? && es[s].k == km
    ensures IsTrace(w0, plan, es[..s + 1]) && ShiftedIn(es[..s + 1], km) && !Answered(es[..s + 1], km)
  {
    TracePrefix(w0, plan, es, s + 1);
    assert es[..s + 1][s] == es[s];
    EndsWithShift(w0, plan, es[..s + 1], km);
  }

  lemma EndsWithShift(w0: World, plan: seq<Item>, head: seq<Event>, km: nat)
    requires IsTrace(w0, plan, head) && head != [] && head[|head| - 1].Shift? && head[|head| - 1].k == km
    ensures ShiftedIn(head, km) && !Answered(head, km)
  {
    var front := head[..|head| - 1];
    AnsweredIsReported(front, km);
    assert head[|head| - 1] in head;
    assert forall x :: x in head ==> x in front || x == head[|head| - 1];
  }

  lemma AnsweredIsReported(es: seq<Event>, k: nat)
    ensures Answered(es, k) ==> Reports(Outcomes(es), k)
  {
    if Answered(es, k) {
      AnsweredIsSucceeded(es, k);
    }
  }

  /** The upload's answer came after the cut, and found its path free. */
  lemma FreeAfterCut(w0: World, plan: seq<Item>, es: seq<Event>, ku: nat, s: nat, d: nat)
    requires DistinctKeys(Outcomes(es)) && s < d < |es| && IsTrace(w0, plan, es[..d])
    requires FindsNothing(WorldOf(w0, plan, es[..d]), plan, es[d], ku)
    ensures !HasCallOf(es[..s + 1], ku) && HasCallOf(es[s + 1..], ku)
    ensures FoundNothing(w0, plan, es[..s + 1], es[s + 1..], ku)
  {
    var head, rest := es[..s + 1], es[s + 1..];
    forall i | 0 <= i < |es| && i != d ensures !IsCallOf(es[i], ku) {
      if IsCallOf(es[i], ku) {
        AnsweredOnce(es, i, d, ku);
      }
    }
    assert forall x :: x in head ==> exists i :: 0 <= i <= s && es[i] == x;
    assert rest[d - s - 1] == es[d] && es[d] in rest;
    forall i | 0 <= i < |rest| ensures FoundNothingAt(w0, plan, head, rest, ku, i) {
      FoundAt(w0, plan, es, ku, s, d, i);
    }
  }

  lemma FoundAt(w0: World, plan: seq<Item>, es: seq<Event>, ku: nat, s: nat, d: nat, i: nat)
    requires s < d < |es| && IsTrace(w0, plan, es[..d]) && i < |es| - s - 1
    requires FindsNothing(WorldOf(w0, plan, es[..d]), plan, es[d], ku)
    requires s + 1 + i != d ==> !IsCallOf(es[s + 1 + i], ku)
    ensures FoundNothingAt(w0, plan, es[..s + 1], es[s + 1..], ku, i)
  {
    CutsJoin(es, s + 1, i);
    assert es[s + 1..][i] == es[s + 1 + i];
  }

  lemma CutsJoin<T>(es: seq<T>, n: nat, i: nat)
    requires n + i <= |es|
    ensures es[..n] + es[n..][..i] == es[..n + i]
  {
    assert es[n..][..i] == es[n..n + i];
  }

  lemma UploadAfterShift(w0: World, plan: seq<Item>, es: seq<Event>, ku: nat, km: nat, s: nat, d: nat)
    requires Crossing(w0, plan, ku, km) && IsTrace(w0, plan, es)
    requires s < |es| && es[s].Shift? && es[s].k == km && d < |es| && IsTrace(w0, plan, es[..d])
    requires FindsNothing(WorldOf(w0, plan, es[..d]), plan, es[d], ku)
    ensures s < d
  {
    if d < s {
      TakenAfterUpload(w0, plan, es, ku, d);
      HalfwayIsFree(w0, plan, es, ku, km, s, d + 1);
      assert false;
    }
  }

  lemma TakenAfterUpload(w0: World, plan: seq<Item>, es: seq<Event>, ku: nat, d: nat)
    requires Startable(w0, plan) && IsTrace(w0, plan, es) && d < |es| && IsTrace(w0, plan, es[..d])
    requires FindsNothing(WorldOf(w0, plan, es[..d]), plan, es[d], ku) && plan[ku].op.Upload?
    ensures IsTrace(w0, plan, es[..d + 1])
    ensures var v := WorldOf(w0, plan, es[..d + 1]);
            plan[ku].rel in v.remote && forall it :: it in plan && !it.op.Upload? ==> it.remoteID != v.remote[plan[ku].rel].id
  {
    TracePrefix(w0, plan, es, d + 1);
    assert es[..d + 1][..d] == es[..d];
    TraceIsSound(w0, plan, es[..d]);
  }

  lemma ShiftOf(w0: World, plan: seq<Item>, es: seq<Event>, km: nat) returns (s: nat)
    requires Travels(w0, plan, km) && CompleteTrace(w0, plan, es)
    ensures s < |es| && es[s].Shift? && es[s].k == km
  {
    CompleteAnswers(w0, plan, es, km);
    AnswerNeedsShift(w0, plan, es, km);
    var e :| e in es && e.Shift? && e.k == km;
    s :| 0 <= s < |es| && es[s] == e;
  }

  /** The upload found its path free, after the move: the same run can be had with the upload between its calls. */
  lemma FailsRerouted(w0: World, plan: seq<Item>, es: seq<Event>, ku: nat, km: nat, s: nat, d: nat) returns (bad: seq<Event>)
    requires Crossing(w0, plan, ku, km) && CompleteTrace(w0, plan, es) && plan[ku].rel in w0.local
    requires s < d < |es| && es[s].Shift? && es[s].k == km && IsTrace(w0, plan, es[..d])
    requires FindsNothing(WorldOf(w0, plan, es[..d]), plan, es[d], ku)
    ensures CompleteTrace(w0, plan, bad) && plan[ku].rel !in WorldOf(w0, plan, bad).remote
  {
    CutIsClean(w0, plan, es, ku, km, s, d);
    JoinedAgain(es, s + 1);
    bad := FailsAfterCut(w0, plan, es, es[..s + 1], es[s + 1..], ku, km);
  }

  /** The events up to the move's first call, and the rest, which has the upload's answer. */
  lemma CutIsClean(w0: World, plan: seq<Item>, es: seq<Event>, ku: nat, km: nat, s: nat, d: nat)
    requires IsTrace(w0, plan, es) && DistinctKeys(Outcomes(es))
    requires s < d < |es| && es[s].Shift? && es[s].k == km && IsTrace(w0, plan, es[..d])
    requires FindsNothing(WorldOf(w0, plan, es[..d]), plan, es[d], ku)
    ensures IsTrace(w0, plan, es[..s + 1]) && ShiftedIn(es[..s + 1], km) && !Answered(es[..s + 1], km)
    ensures !HasCallOf(es[..s + 1], ku) && HasCallOf(es[s + 1..], ku) && FoundNothing(w0, plan, es[..s + 1], es[s + 1..], ku)
  {
    CutAfterShift(w0, plan, es, km, s);
    FreeAfterCut(w0, plan, es, ku, s, d);
  }

  lemma JoinedAgain<T>(es: seq<T>, n: nat)
    requires n <= |es|
    ensures es == es[..n] + es[n..]
  {
  }

  lemma FailsAfterCut(w0: World, plan: seq<Item>, es: seq<Event>, head: seq<Event>, rest: seq<Event>, ku: nat, km: nat) returns (bad: seq<Event>)
    requires Crossing(w0, plan, ku, km) && CompleteTrace(w0, plan, es) && es == head + rest && plan[ku].rel in w0.local
    requires IsTrace(w0, plan, head) && ShiftedIn(head, km) && !Answered(head, km)
    requires !HasCallOf(head, ku) && HasCallOf(rest, ku) && FoundNothing(w0, plan, head, rest, ku)
    ensures CompleteTrace(w0, plan, bad) && plan[ku].rel !in WorldOf(w0, plan, bad).remote
  {
    var u := UploadFindsMoving(w0, plan, head, ku, km);
    Rerouted(w0, plan, head, u, rest, ku);
    ReroutedIsComplete(w0, plan, head, u, rest, ku);
    bad := head + [u] + Without(rest, ku);
  }

  /** The upload did not find its path free: this very run fails. */
  lemma FailsAlready(w0: World, plan: seq<Item>, es: seq<Event>, ku: nat)
    requires Startable(w0, plan) && DisjointFootprints(PushJobs(plan)) && ku < |plan| && plan[ku].op.Upload?
    requires CompleteTrace(w0, plan, es) && plan[ku].rel !in w0.remote
    requires forall d: nat :: d < |es| && IsTrace(w0, plan, es[..d]) ==> !FindsNothing(WorldOf(w0, plan, es[..d]), plan, es[d], ku)
    ensures plan[ku].rel !in WorldOf(w0, plan, es).remote
  {
    forall i | 0 <= i < |es| ensures IsTrace(w0, plan, es[..i]) {
      TracePrefix(w0, plan, es, i);
    }
    FoundMeansMissing(w0, plan, es, ku);
  }

  /** Whenever an upload and a move of a plan cross, a run of it in which every call succeeds can end with the upload's
      file missing. */
  lemma CrossingCanFail(w0: World, plan: seq<Item>, es: seq<Event>, ku: nat, km: nat) returns (bad: seq<Event>)
    requires Startable(w0, plan) && DisjointFootprints(PushJobs(plan)) && CompleteTrace(w0, plan, es)
    requires ku < |plan| && km < |plan| && Crosses(plan[ku], plan[km])
    ensures CompleteTrace(w0, plan, bad) && plan[ku].rel in w0.local && plan[ku].rel !in WorldOf(w0, plan, bad).remote
  {
    CompleteNeeds(w0, plan, es, ku);
    CompleteNeeds(w0, plan, es, km);
    var s := ShiftOf(w0, plan, es, km);
    UploadPathIsNotHome(w0, plan, ku);
    assert es[..0] == [];
    HalfwayIsFree(w0, plan, es, ku, km, s, 0);
    if d: nat :| d < |es| && IsTrace(w0, plan, es[..d]) && FindsNothing(WorldOf(w0, plan, es[..d]), plan, es[d], ku) {
      UploadAfterShift(w0, plan, es, ku, km, s, d);
      bad := FailsRerouted(w0, plan, es, ku, km, s, d);
    } else {
      FailsAlready(w0, plan, es, ku);
      bad := es;
    }
  }

  // ---- Main result ----

  /** Every history of attempts from this start, once an attempt completes, reaches what the first plan is for. */
  ghost predicate AlwaysReaches(o: Options, w0: World, disk0: map<Rel, Entry>, plan: seq<Item>) {
    forall ws, disks, attempts :: Finished(o, w0, disk0, ws, disks, attempts) ==> Reached(w0, plan, ws[|attempts|])
  }

  ghost predicate Finished(o: Options, w0: World, disk0: map<Rel, Entry>, ws: seq<World>, disks: seq<map<Rel, Entry>>, attempts: seq<Attempt>) {
    && StartsAt(w0, disk0, ws, disks) && IsHistory(o, ws, disks, attempts)
    && attempts != [] && Completed(attempts[|attempts| - 1])
  }

  lemma UncrossedReaches(o: Options, w0: World, disk0: map<Rel, Entry>, items0: seq<Item>, plan: seq<Item>)
    requires Recoverable(o, w0, disk0, items0, plan) && !Crossed(plan)
    ensures AlwaysReaches(o, w0, disk0, plan)
  {
    forall ws, disks, attempts | Finished(o, w0, disk0, ws, disks, attempts) ensures Reached(w0, plan, ws[|attempts|]) {
      CrashedPushReachesItsAim(o, ws, disks, attempts, items0, plan);
    }
  }

  lemma FailingHistory(o: Options, w0: World, disk0: map<Rel, Entry>, plan: seq<Item>, ws: seq<World>, disks: seq<map<Rel, Entry>>, attempts: seq<Attempt>)
    requires Finished(o, w0, disk0, ws, disks, attempts) && !Reached(w0, plan, ws[|attempts|])
    ensures !AlwaysReaches(o, w0, disk0, plan)
  {
  }

  lemma CrossedSometimesFails(o: Options, w0: World, disk0: map<Rel, Entry>, once: Attempt, w: World, disk: map<Rel, Entry>)
    requires StartsWith(o, w0, disk0, once.items, once.out) && Crossed(once.out)
    requires IsAttempt(o, w0, disk0, once, w, disk) && Completed(once) && DistinctKeys(Outcomes(once.es))
    ensures !AlwaysReaches(o, w0, disk0, once.out)
  {
    PlanIsStartable(o, w0, disk0, once.items, once.out);
    OnceIsComplete(o, w0, disk0, once, w, disk);
    var bad := CrossedCanFail(w0, once.out, once.es);
    OneBadAttempt(o, w0, disk0, once, bad);
  }

  lemma OneBadAttempt(o: Options, w0: World, disk0: map<Rel, Entry>, once: Attempt, bad: seq<Event>)
    requires PushPlanned(o, w0, Baseline(o, w0, disk0), once.items, once.out) && CompleteTrace(w0, once.out, bad)
    requires !Reached(w0, once.out, WorldOf(w0, once.out, bad))
    ensures !AlwaysReaches(o, w0, disk0, once.out)
  {
    OneAttempt(o, w0, disk0, once, bad);
    var w := WorldOf(w0, once.out, bad);
    FailingHistory(o, w0, disk0, once.out, [w0, w], [disk0, disk0], [Attempt(once.items, once.out, bad, [])]);
  }

  /** A complete run of the plan is a history by itself. */
  lemma OneAttempt(o: Options, w0: World, disk0: map<Rel, Entry>, once: Attempt, es: seq<Event>)
    requires PushPlanned(o, w0, Baseline(o, w0, disk0), once.items, once.out) && CompleteTrace(w0, once.out, es)
    ensures var w := WorldOf(w0, once.out, es);
            Finished(o, w0, disk0, [w0, w], [disk0, disk0], [Attempt(once.items, once.out, es, [])])
  {
    var a, w := Attempt(once.items, once.out, es, []), WorldOf(w0, once.out, es);
    assert IsAttempt(o, w0, disk0, a, w, disk0);
    assert IsHistory(o, [w0, w], [disk0, disk0], [a]);
  }

  lemma PlanIsStartable(o: Options, w0: World, disk0: map<Rel, Entry>, items0: seq<Item>, plan: seq<Item>)
    requires StartsWith(o, w0, disk0, items0, plan)
    ensures Startable(w0, plan) && DisjointFootprints(PushJobs(plan))
  {
    PlanStartsInProgress(o, w0, Baseline(o, w0, disk0), items0, plan);
    PlanIsApart(o, w0, Baseline(o, w0, disk0), items0, plan);
  }

  lemma OnceIsComplete(o: Options, w0: World, disk0: map<Rel, Entry>, once: Attempt, w: World, disk: map<Rel, Entry>)
    requires IsAttempt(o, w0, disk0, once, w, disk) && Completed(once) && DistinctKeys(Outcomes(once.es))
    ensures CompleteTrace(w0, once.out, once.es)
  {
    TraceKeys(w0, once.out, once.es);
  }

  lemma CrossedCanFail(w0: World, plan: seq<Item>, es: seq<Event>) returns (bad: seq<Event>)
    requires Startable(w0, plan) && DisjointFootprints(PushJobs(plan)) && CompleteTrace(w0, plan, es) && Crossed(plan)
    ensures CompleteTrace(w0, plan, bad) && !Reached(w0, plan, WorldOf(w0, plan, bad))
  {
    var u, mv :| u in plan && mv in plan && Crosses(u, mv);
    var ku: nat :| ku < |plan| && plan[ku] == u;
    var km: nat :| km < |plan| && plan[km] == mv;
    bad := CrossingCanFail(w0, plan, es, ku, km);
    MissingIsNotReached(w0, plan, WorldOf(w0, plan, bad), ku);
  }
}
