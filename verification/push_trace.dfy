/**
 What a push does to the remote tree, call by call. Each item is one call, except a move to another folder under
 another name: that is two, and between them, or if the second is never made, the file lies in the new folder under
 its old name. Items of one run are carried out side by side, so the calls of one can fall between those of another.
 */
module PushTrace {
  import opened Types
  import opened Paths
  import opened Pool
  import opened Worlds
  import opened MovePlanning

  /** `Call`: the last or only call of an item, answered. `Shift`: the call that brings the file of a move into its new
      folder, where a call for its new name is still to come. */
  datatype Event = Call(o: Outcome) | Shift(k: nat, mtime: int)

  /** The file with an id at another path; its bytes stay. */
  ghost function Relocated(w: World, id: int, to: Rel, mtime: int): World
    requires HasId(w, id)
  {
    w.(remote := (map p | p in w.remote && w.remote[p].id != id :: w.remote[p])[to := RemoteRec(id, DataOf(w, id), mtime)])
  }

  ghost function PathOf(w: World, id: int): (p: Rel)
    requires HasId(w, id)
    ensures p in w.remote && w.remote[p].id == id
  {
    var p :| p in w.remote && w.remote[p].id == id;
    p
  }

  /** A move that one call can finish from where the file is. */
  ghost predicate OneCall(w: World, it: Item) {
    it.op.Move? && HasId(w, it.remoteID) ==>
      DirOf(PathOf(w, it.remoteID)) == DirOf(it.rel) || BaseOf(PathOf(w, it.remoteID)) == BaseOf(it.rel)
  }

  /** The drive does not move a file to a name that is taken. */
  ghost predicate CanShift(w: World, it: Item) {
    && it.op.Move? && HasId(w, it.remoteID)
    && DirOf(PathOf(w, it.remoteID)) != DirOf(it.rel)
    && Halfway(PathOf(w, it.remoteID), it.rel) !in w.remote
  }

  ghost predicate CanHappen(w: World, out: seq<Item>, e: Event) {
    match e
    case Call(o) => o.k < |out| && (o.ok ==> Possible(w, Push(out[o.k]), o.a, o.b) && OneCall(w, out[o.k]))
    case Shift(k, _) => k < |out| && CanShift(w, out[k])
  }

  ghost function Next(w: World, out: seq<Item>, e: Event): World
    requires CanHappen(w, out, e)
  {
    match e
    case Call(o) => if o.ok then Effect(w, Push(out[o.k]), o.a, o.b) else w
    case Shift(k, mtime) => Relocated(w, out[k].remoteID, Halfway(PathOf(w, out[k].remoteID), out[k].rel), mtime)
  }

  /** The answers among the events, in their order. */
  function Outcomes(es: seq<Event>): (log: seq<Outcome>)
  {
    if es == [] then []
    else Outcomes(es[..|es| - 1]) + (if es[|es| - 1].Call? then [es[|es| - 1].o] else [])
  }

  /** Events one after the other from `w`; an item's first call comes before its answer. */
  ghost predicate IsTrace(w: World, out: seq<Item>, es: seq<Event>)
    decreases |es|, 0
  {
    es == [] ||
    var front, e := es[..|es| - 1], es[|es| - 1];
    && IsTrace(w, out, front)
    && CanHappen(WorldOf(w, out, front), out, e)
    && (e.Shift? ==> !Reports(Outcomes(front), e.k))
  }

  ghost function WorldOf(w: World, out: seq<Item>, es: seq<Event>): World
    requires IsTrace(w, out, es)
    decreases |es|, 1
  {
    if es == [] then w
    else Next(WorldOf(w, out, es[..|es| - 1]), out, es[|es| - 1])
  }

  lemma {:induction false} OutcomesAre(es: seq<Event>)
    ensures forall o :: o in Outcomes(es) <==> Call(o) in es
  {
    if es != [] {
      OutcomesAre(es[..|es| - 1]);
      assert forall e :: e in es <==> e in es[..|es| - 1] || e == es[|es| - 1];
    }
  }

  lemma {:induction false} TraceKeys(w: World, out: seq<Item>, es: seq<Event>)
    requires IsTrace(w, out, es)
    ensures forall o :: o in Outcomes(es) ==> o.k < |out|
  {
    if es != [] {
      TraceKeys(w, out, es[..|es| - 1]);
    }
  }

  function ItemOfEvent(e: Event): nat {
    if e.Call? then e.o.k else e.k
  }

  lemma TraceGrows(w: World, plan: seq<Item>, es: seq<Event>, e: Event)
    requires IsTrace(w, plan, es) && CanHappen(WorldOf(w, plan, es), plan, e)
    requires e.Shift? ==> !Reports(Outcomes(es), e.k)
    ensures IsTrace(w, plan, es + [e]) && WorldOf(w, plan, es + [e]) == Next(WorldOf(w, plan, es), plan, e)
  {
    assert (es + [e])[..|es|] == es;
  }

  lemma {:induction false} TracePrefix(w: World, plan: seq<Item>, es: seq<Event>, n: nat)
    requires IsTrace(w, plan, es) && n <= |es|
    ensures IsTrace(w, plan, es[..n])
    ensures n < |es| ==> CanHappen(WorldOf(w, plan, es[..n]), plan, es[n])
  {
    if n == |es| {
      assert es[..n] == es;
    } else {
      assert es[..|es| - 1][..n] == es[..n];
      TracePrefix(w, plan, es[..|es| - 1], n);
      if n == |es| - 1 {
        assert es[..n] == es[..|es| - 1];
      }
    }
  }

  /** A file with an id from the start was there at the start. */
  ghost predicate OldIds(w0: World, v: World) {
    forall q :: q in v.remote && v.remote[q].id in w0.used ==> HasId(w0, v.remote[q].id)
  }

  /** A move by itself, in one call or two, brings its file to its new path. */
  lemma MoveRelocates(w: World, out: seq<Item>, k: nat, a: int, b: int) returns (es: seq<Event>)
    requires WellFormed(w) && k < |out| && out[k].op.Move? && HasId(w, out[k].remoteID) && out[k].rel !in w.remote
    requires OneCall(w, out[k]) || CanShift(w, out[k])
    ensures IsTrace(w, out, es) && es != [] && es[|es| - 1] == Call(Outcome(k, true, a, b))
    ensures WorldOf(w, out, es).local == w.local && WorldOf(w, out, es).used == w.used
    ensures WorldOf(w, out, es).remote == Relocated(w, out[k].remoteID, out[k].rel, b).remote
  {
    var it, e := out[k], Call(Outcome(k, true, a, b));
    if OneCall(w, it) {
      TraceGrows(w, out, [], e);
      es := [] + [e];
    } else {
      var half := Halfway(PathOf(w, it.remoteID), it.rel);
      HalfwayParts(PathOf(w, it.remoteID), it.rel);
      var s := Shift(k, b);
      TraceGrows(w, out, [], s);
      var v := Next(w, out, s);
      assert v.remote[half].id == it.remoteID;
      assert WellFormed(v) && PathOf(v, it.remoteID) == half;
      TraceGrows(w, out, [] + [s], e);
      es := [] + [s] + [e];
    }
  }

  // ---- What holds however files meet ----

  ghost predicate Sound(w0: World, v: World) {
    WellFormed(v) && v.local == w0.local && w0.used <= v.used && OldIds(w0, v)
  }

  lemma EventIsSound(w0: World, v: World, out: seq<Item>, e: Event)
    requires Sound(w0, v) && CanHappen(v, out, e)
    ensures Sound(w0, Next(v, out, e)) && v.used <= Next(v, out, e).used
  {
    EventKeepsOldIds(w0, v, out, e);
  }

  lemma EventKeepsOldIds(w0: World, v: World, out: seq<Item>, e: Event)
    requires w0.used <= v.used && OldIds(w0, v) && CanHappen(v, out, e)
    ensures OldIds(w0, Next(v, out, e))
  {
    var v' := Next(v, out, e);
    forall q | q in v'.remote && v'.remote[q].id in w0.used ensures HasId(w0, v'.remote[q].id) {
      assert HasId(v, v'.remote[q].id);
      var h :| h in v.remote && v.remote[h].id == v'.remote[q].id;
    }
  }

  lemma {:induction false} TraceIsSound(w0: World, out: seq<Item>, es: seq<Event>)
    requires WellFormed(w0) && IsTrace(w0, out, es)
    ensures Sound(w0, WorldOf(w0, out, es))
  {
    if es != [] {
      TraceIsSound(w0, out, es[..|es| - 1]);
      EventIsSound(w0, WorldOf(w0, out, es[..|es| - 1]), out, es[|es| - 1]);
    }
  }

  /** What an event leaves at a path. */
  lemma EventAt(w0: World, v: World, out: seq<Item>, e: Event, p: Rel)
    requires Sound(w0, v) && CanHappen(v, out, e)
    ensures var (v', it) := (Next(v, out, e), out[if e.Call? then e.o.k else e.k]);
            && (p in v'.remote && p in v.remote ==> v'.remote[p].id == v.remote[p].id)
            && (p in v'.remote && p !in v.remote ==>
                  if e.Call? && it.op.Upload? then p == it.rel && v'.remote[p].id !in v.used
                  else it.op.Move? && v'.remote[p].id == it.remoteID && HasId(v, it.remoteID)
                       && p == (if e.Call? then it.rel else Halfway(PathOf(v, it.remoteID), it.rel)))
            && (p in v.remote && p !in v'.remote ==> !it.op.Upload? && v.remote[p].id == it.remoteID)
  {
  }
}
