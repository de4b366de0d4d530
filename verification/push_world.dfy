/**
 What push items do to the remote tree when some of them are carried out more than once, or half. Every item is not
 begun, with its paths as they were; or a move half done, with its file on the way; or done, with its paths as it
 wants them. Doing it again keeps it done.
 */
module PushWorld {
  import opened Types
  import opened Paths
  import opened Pool
  import opened Worlds
  import opened Collecting
  import opened MovePlanning
  import opened PushTrace

  function FP(it: Item): set<Rel> {
    Footprint(Push(it))
  }

  /** A move to another folder under another name, which takes two calls. */
  predicate TwoCalls(it: Item) {
    it.op.Move? && DirOf(it.srcRel) != DirOf(it.rel) && BaseOf(it.srcRel) != BaseOf(it.rel)
  }

  /** Where a move leaves its file between its calls. */
  function HalfOf(it: Item): Rel {
    Halfway(it.srcRel, it.rel)
  }

  function Spots(it: Item): set<Rel> {
    FP(it) + (if TwoCalls(it) then {HalfOf(it)} else {})
  }

  lemma HalfIsApart(it: Item)
    requires TwoCalls(it)
    ensures HalfOf(it) !in FP(it) && DirOf(HalfOf(it)) == DirOf(it.rel) && BaseOf(HalfOf(it)) == BaseOf(it.srcRel)
  {
    HalfwayParts(it.srcRel, it.rel);
  }

  /** Where the file that the item's id names was at the start, if it was anywhere. */
  function Home(it: Item): Rel {
    if it.op.Move? then it.srcRel else it.rel
  }

  ghost predicate Placed(w0: World, it: Item) {
    !it.op.Upload? ==>
      && it.remoteID in w0.used
      && (it.op.Move? ==> it.srcRel != it.rel)
      && forall q :: q in w0.remote ==> (w0.remote[q].id == it.remoteID <==> q == Home(it))
  }

  ghost predicate Apart(plan: seq<Item>) {
    forall x, y :: x in plan && y in plan && x != y ==> FP(x) !! FP(y)
  }

  /** An upload goes to a path that the file of a move passes through. */
  ghost predicate Crosses(u: Item, mv: Item) {
    u.op.Upload? && TwoCalls(mv) && u.rel == HalfOf(mv)
  }

  ghost predicate Crossed(plan: seq<Item>) {
    exists u, mv :: u in plan && mv in plan && Crosses(u, mv)
  }

  ghost predicate Startable(w0: World, plan: seq<Item>) {
    WellFormed(w0) && Apart(plan) && forall it :: it in plan ==> Placed(w0, it)
  }

  function ContentAt(w: World, p: Rel): Option<Bytes> {
    if p in w.remote then Some(w.remote[p].data) else None
  }

  // ---- The tree without the files on their way ----

  /** The file at `p` is only passing. */
  ghost predicate Visited(plan: seq<Item>, v: World, p: Rel) {
    p in v.remote && exists mv :: mv in plan && TwoCalls(mv) && HalfOf(mv) == p && v.remote[p].id == mv.remoteID
  }

  ghost function Core(plan: seq<Item>, v: World): World {
    v.(remote := map p | p in v.remote && !Visited(plan, v, p) :: v.remote[p])
  }

  lemma CoreAt(plan: seq<Item>, v: World, p: Rel)
    ensures Lookup(Core(plan, v).remote, p) == if Visited(plan, v, p) then None else Lookup(v.remote, p)
  {
  }

  // ---- The states of an item ----

  /** What the item wants at a path of its footprint, given the trees at the start. */
  ghost function Aim(w0: World, it: Item, p: Rel): Option<Bytes> {
    match it.op
    case Delete => None
    case Move => if p == it.rel && HasId(w0, it.remoteID) then Some(DataOf(w0, it.remoteID)) else None
    case _ => if it.rel in w0.local then Some(w0.local[it.rel].data) else None
  }

  ghost predicate Fresh(w0: World, c: World, it: Item) {
    forall p :: p in FP(it) ==> Lookup(c.remote, p) == Lookup(w0.remote, p)
  }

  ghost predicate Done(w0: World, c: World, it: Item) {
    && (forall p :: p in FP(it) ==> ContentAt(c, p) == Aim(w0, it, p))
    && (it.op.Move? ==> it.rel in c.remote && c.remote[it.rel].id == it.remoteID)
    && (it.op.Upload? || it.op.Overwrite? ==> it.rel in c.remote)
  }

  ghost predicate Midway(w0: World, plan: seq<Item>, v: World, it: Item) {
    && TwoCalls(it) && HasId(w0, it.remoteID)
    && HalfOf(it) in v.remote && v.remote[HalfOf(it)].id == it.remoteID && v.remote[HalfOf(it)].data == DataOf(w0, it.remoteID)
    && Lookup(Core(plan, v).remote, it.srcRel) == None
    && Lookup(Core(plan, v).remote, it.rel) == Lookup(w0.remote, it.rel)
  }

  /** The file the item's id names is at one of the item's own spots. */
  ghost predicate IdsAtSpots(v: World, it: Item) {
    !it.op.Upload? ==> forall q :: q in v.remote && v.remote[q].id == it.remoteID ==> q in Spots(it)
  }

  ghost predicate ItemOk(w0: World, plan: seq<Item>, v: World, it: Item) {
    IdsAtSpots(v, it) && (Fresh(w0, Core(plan, v), it) || Midway(w0, plan, v, it) || Done(w0, Core(plan, v), it))
  }

  ghost predicate Outside(plan: seq<Item>, p: Rel) {
    forall it :: it in plan ==> p !in FP(it)
  }

  /** The state of the world at any moment of any number of runs of items of `plan`. */
  ghost predicate InProgress(w0: World, plan: seq<Item>, v: World) {
    && WellFormed(v) && v.local == w0.local && w0.used <= v.used && OldIds(w0, v)
    && (forall it :: it in plan ==> ItemOk(w0, plan, v, it))
    && (forall p :: Outside(plan, p) ==> Lookup(Core(plan, v).remote, p) == Lookup(w0.remote, p))
  }

  /** No two items are about the same file. */
  lemma Unshared(w0: World, plan: seq<Item>, v: World, x: Item, y: Item)
    requires Startable(w0, plan) && InProgress(w0, plan, v) && x in plan && y in plan && x != y
    requires !x.op.Upload? && !y.op.Upload? && x.remoteID == y.remoteID
    ensures !HasId(v, x.remoteID)
  {
    OneHome(w0, x, y);
    assert FP(x) !! FP(y) && Home(x) in FP(x) && Home(y) in FP(y);
  }

  lemma OneHome(w0: World, x: Item, y: Item)
    requires Placed(w0, x) && Placed(w0, y)
    ensures !x.op.Upload? && !y.op.Upload? && x.remoteID == y.remoteID && HasId(w0, x.remoteID) ==> Home(x) == Home(y)
  {
  }

  // ---- What one event changes ----

  /** An event of `it` changes only the item's own spots, takes files only from where they have the item's id, or, for
      an upload, are at its path, and brings only such a file, or a new one. */
  ghost predicate Changes(v: World, v': World, it: Item) {
    && WellFormed(v') && v'.local == v.local && v.used <= v'.used
    && (forall q :: q !in Spots(it) ==> Lookup(v'.remote, q) == Lookup(v.remote, q))
    && (forall q :: q in v.remote && (if it.op.Upload? then q != it.rel else v.remote[q].id != it.remoteID) ==>
          Lookup(v'.remote, q) == Lookup(v.remote, q))
    && (forall q :: q in v'.remote ==>
          || Lookup(v'.remote, q) == Lookup(v.remote, q)
          || (!it.op.Upload? && v'.remote[q].id == it.remoteID && HasId(v, it.remoteID))
          || (it.op.Upload? && q == it.rel && (v'.remote[q].id !in v.used || (q in v.remote && v'.remote[q].id == v.remote[q].id))))
  }

  lemma RelocationChanges(v: World, it: Item, to: Rel, mtime: int)
    requires WellFormed(v) && IdsAtSpots(v, it) && it.op.Move? && HasId(v, it.remoteID) && to in Spots(it)
    requires to in v.remote ==> v.remote[to].id == it.remoteID
    ensures Changes(v, Relocated(v, it.remoteID, to, mtime), it)
  {
  }

  lemma CallChanges(v: World, it: Item, a: int, b: int)
    requires WellFormed(v) && IdsAtSpots(v, it) && Possible(v, Push(it), a, b)
    ensures Changes(v, Effect(v, Push(it), a, b), it)
  {
    if it.op.Move? {
      RelocationChanges(v, it, it.rel, b);
      assert Effect(v, Push(it), a, b) == Relocated(v, it.remoteID, it.rel, b);
    }
  }

  lemma CoreStays(plan: seq<Item>, v: World, v': World, it: Item, p: Rel)
    requires it in plan && Changes(v, v', it) && p !in FP(it)
    ensures Lookup(Core(plan, v').remote, p) == Lookup(Core(plan, v).remote, p)
  {
    CoreAt(plan, v, p);
    CoreAt(plan, v', p);
    if Lookup(v'.remote, p) == Lookup(v.remote, p) {
      assert Visited(plan, v', p) <==> Visited(plan, v, p);
    } else {
      assert p in Spots(it) && TwoCalls(it) && p == HalfOf(it);
      assert p in v'.remote ==> Visited(plan, v', p);
      assert p in v.remote ==> Visited(plan, v, p);
    }
  }

  lemma OthersStay(w0: World, plan: seq<Item>, v: World, v': World, it: Item, y: Item)
    requires Startable(w0, plan) && InProgress(w0, plan, v) && !Crossed(plan)
    requires it in plan && y in plan && it != y && Changes(v, v', it)
    ensures ItemOk(w0, plan, v', y) && (Done(w0, Core(plan, v), y) ==> Done(w0, Core(plan, v'), y))
  {
    assert FP(it) !! FP(y);
    forall p | p in FP(y)
      ensures Lookup(Core(plan, v').remote, p) == Lookup(Core(plan, v).remote, p) && ContentAt(Core(plan, v'), p) == ContentAt(Core(plan, v), p)
    {
      CoreStays(plan, v, v', it, p);
      assert Lookup(Core(plan, v').remote, p) == Lookup(Core(plan, v).remote, p);
    }
    assert y.rel in FP(y) && (y.op.Move? ==> y.srcRel in FP(y));
    if !it.op.Upload? && !y.op.Upload? && it.remoteID == y.remoteID {
      Unshared(w0, plan, v, it, y);
    }
    assert ItemOk(w0, plan, v, y);
    OtherIds(w0, plan, v, v', it, y);
    if Midway(w0, plan, v, y) {
      MidwayStays(w0, plan, v, v', it, y);
    }
  }

  lemma OtherIds(w0: World, plan: seq<Item>, v: World, v': World, it: Item, y: Item)
    requires IdsAtSpots(v, y) && Placed(w0, y) && w0.used <= v.used && Changes(v, v', it)
    requires !it.op.Upload? && !y.op.Upload? && it.remoteID == y.remoteID ==> !HasId(v, it.remoteID)
    ensures IdsAtSpots(v', y)
  {
  }

  lemma MidwayStays(w0: World, plan: seq<Item>, v: World, v': World, it: Item, y: Item)
    requires Midway(w0, plan, v, y) && Changes(v, v', it) && !Crossed(plan) && it in plan && y in plan
    requires !it.op.Upload? && it.remoteID == y.remoteID ==> !HasId(v, it.remoteID)
    requires forall p :: p in FP(y) ==> Lookup(Core(plan, v').remote, p) == Lookup(Core(plan, v).remote, p)
    ensures Midway(w0, plan, v', y)
  {
    assert !Crosses(it, y);
    assert Lookup(v'.remote, HalfOf(y)) == Lookup(v.remote, HalfOf(y));
  }

  /** Wherever the file of a move is, it has the bytes it had. */
  lemma MovedData(w0: World, plan: seq<Item>, v: World, it: Item)
    requires Startable(w0, plan) && InProgress(w0, plan, v) && it in plan && it.op.Move? && HasId(v, it.remoteID)
    ensures HasId(w0, it.remoteID) && DataOf(v, it.remoteID) == DataOf(w0, it.remoteID)
    ensures Fresh(w0, Core(plan, v), it) ==> PathOf(v, it.remoteID) == it.srcRel
    ensures Midway(w0, plan, v, it) ==> PathOf(v, it.remoteID) == HalfOf(it)
    ensures Done(w0, Core(plan, v), it) ==> PathOf(v, it.remoteID) == it.rel
  {
    assert ItemOk(w0, plan, v, it);
    FreshData(w0, plan, v, it);
    DoneData(w0, plan, v, it);
    var h :| h in w0.remote && w0.remote[h].id == it.remoteID;
  }

  lemma FreshData(w0: World, plan: seq<Item>, v: World, it: Item)
    requires Startable(w0, plan) && InProgress(w0, plan, v) && it in plan && it.op.Move? && HasId(v, it.remoteID)
    ensures Fresh(w0, Core(plan, v), it) ==>
              PathOf(v, it.remoteID) == it.srcRel && HasId(w0, it.remoteID) && DataOf(v, it.remoteID) == DataOf(w0, it.remoteID)
  {
    var h :| h in w0.remote && w0.remote[h].id == it.remoteID;
    assert h == it.srcRel;
    CoreAt(plan, v, it.srcRel);
    if Fresh(w0, Core(plan, v), it) {
      assert Lookup(Core(plan, v).remote, it.srcRel) == Lookup(w0.remote, it.srcRel);
    }
  }

  lemma DoneData(w0: World, plan: seq<Item>, v: World, it: Item)
    requires Startable(w0, plan) && InProgress(w0, plan, v) && it in plan && it.op.Move? && HasId(v, it.remoteID)
    ensures Done(w0, Core(plan, v), it) ==>
              PathOf(v, it.remoteID) == it.rel && HasId(w0, it.remoteID) && DataOf(v, it.remoteID) == DataOf(w0, it.remoteID)
  {
    CoreAt(plan, v, it.rel);
    if Done(w0, Core(plan, v), it) {
      assert ContentAt(Core(plan, v), it.rel) == Aim(w0, it, it.rel);
    }
  }

  /** After an event of a move nothing of its own is left at its old path. */
  lemma OldPathIsLeft(w0: World, plan: seq<Item>, v: World, v': World, it: Item)
    requires Startable(w0, plan) && InProgress(w0, plan, v) && it in plan && !it.op.Upload? && Changes(v, v', it)
    requires Home(it) in v'.remote ==> v'.remote[Home(it)].id != it.remoteID
    requires it.op.Move? || it.op.Delete?
    ensures Lookup(Core(plan, v').remote, Home(it)) == None
  {
    var p := Home(it);
    CoreAt(plan, v, p);
    CoreAt(plan, v', p);
    assert p in FP(it) && ItemOk(w0, plan, v, it);
    SettledAtHome(w0, plan, v, it);
    assert p in v'.remote ==> Lookup(v'.remote, p) == Lookup(v.remote, p);
    assert Lookup(v'.remote, p) == Lookup(v.remote, p) ==> (Visited(plan, v', p) <==> Visited(plan, v, p));
  }

  /** What lies settled where the item's file was is that file. */
  lemma SettledAtHome(w0: World, plan: seq<Item>, v: World, it: Item)
    requires Placed(w0, it) && ItemOk(w0, plan, v, it) && (it.op.Move? || it.op.Delete?)
    ensures Home(it) in Core(plan, v).remote ==> Core(plan, v).remote[Home(it)].id == it.remoteID
  {
    var c := Core(plan, v);
    assert Home(it) in FP(it);
    if Fresh(w0, c, it) {
      assert Lookup(c.remote, Home(it)) == Lookup(w0.remote, Home(it));
    } else if Done(w0, c, it) {
      assert ContentAt(c, Home(it)) == None;
    }
  }

  /** A file with the item's own id is passing only halfway. */
  lemma OwnIsNotPassing(w0: World, plan: seq<Item>, v: World, it: Item, v': World, p: Rel)
    requires Startable(w0, plan) && InProgress(w0, plan, v) && it in plan && !it.op.Upload? && HasId(v, it.remoteID)
    requires p in FP(it) && p in v'.remote && v'.remote[p].id == it.remoteID
    ensures Lookup(Core(plan, v').remote, p) == Lookup(v'.remote, p)
  {
    CoreAt(plan, v', p);
    forall mv | mv in plan && TwoCalls(mv) && HalfOf(mv) == p && v'.remote[p].id == mv.remoteID ensures false {
      HalfIsApart(mv);
      if mv != it {
        Unshared(w0, plan, v, it, mv);
      }
    }
  }

  /** An answered call makes its item done, whether for the first time or again. */
  lemma CallMakesDone(w0: World, plan: seq<Item>, v: World, it: Item, a: int, b: int)
    requires Startable(w0, plan) && InProgress(w0, plan, v) && !Crossed(plan) && it in plan && Possible(v, Push(it), a, b)
    ensures var v' := Effect(v, Push(it), a, b); Done(w0, Core(plan, v'), it) && IdsAtSpots(v', it)
  {
    var v' := Effect(v, Push(it), a, b);
    assert ItemOk(w0, plan, v, it);
    CallChanges(v, it, a, b);
    match it.op {
      case Upload =>
        CoreAt(plan, v', it.rel);
        forall mv | mv in plan ensures !Crosses(it, mv) { }
        assert !Visited(plan, v', it.rel);
      case Overwrite =>
        OwnIsNotPassing(w0, plan, v, it, v', it.rel);
      case Delete =>
        OldPathIsLeft(w0, plan, v, v', it);
      case Move =>
        MovedData(w0, plan, v, it);
        OwnIsNotPassing(w0, plan, v, it, v', it.rel);
        OldPathIsLeft(w0, plan, v, v', it);
    }
  }

  /** The first call of a move leaves it halfway, or done if that was all there was to do. */
  lemma ShiftIsHalf(w0: World, plan: seq<Item>, v: World, it: Item, mtime: int)
    requires Startable(w0, plan) && InProgress(w0, plan, v) && it in plan && CanShift(v, it)
    ensures var v' := Relocated(v, it.remoteID, Halfway(PathOf(v, it.remoteID), it.rel), mtime);
            && Changes(v, v', it) && IdsAtSpots(v', it) && !Done(w0, Core(plan, v), it)
            && (Midway(w0, plan, v', it) || Done(w0, Core(plan, v'), it))
  {
    var to := Halfway(PathOf(v, it.remoteID), it.rel);
    var v' := Relocated(v, it.remoteID, to, mtime);
    assert ItemOk(w0, plan, v, it);
    MovedData(w0, plan, v, it);
    HalfwayParts(it.srcRel, it.rel);
    assert PathOf(v, it.remoteID) == it.srcRel && to == HalfOf(it);
    RelocationChanges(v, it, to, mtime);
    OldPathIsLeft(w0, plan, v, v', it);
    if TwoCalls(it) {
      HalfIsApart(it);
      RelStays(w0, plan, v, v', it, mtime);
    } else {
      assert to == it.rel;
      OwnIsNotPassing(w0, plan, v, it, v', it.rel);
    }
  }

  lemma RelStays(w0: World, plan: seq<Item>, v: World, v': World, it: Item, mtime: int)
    requires TwoCalls(it) && it.srcRel != it.rel && Fresh(w0, Core(plan, v), it) && WellFormed(v) && HasId(v, it.remoteID)
    requires PathOf(v, it.remoteID) == it.srcRel && v' == Relocated(v, it.remoteID, HalfOf(it), mtime)
    ensures Lookup(Core(plan, v').remote, it.rel) == Lookup(w0.remote, it.rel)
  {
    HalfIsApart(it);
    CoreAt(plan, v, it.rel);
    CoreAt(plan, v', it.rel);
    assert it.rel in FP(it);
    assert Lookup(v'.remote, it.rel) == Lookup(v.remote, it.rel);
    assert Visited(plan, v', it.rel) <==> Visited(plan, v, it.rel);
  }

  // ---- Runs ----

  lemma OldIdsStay(w0: World, v: World, v': World, it: Item)
    requires OldIds(w0, v) && w0.used <= v.used && Changes(v, v', it)
    ensures OldIds(w0, v')
  {
    forall q | q in v'.remote && v'.remote[q].id in w0.used ensures HasId(w0, v'.remote[q].id) {
      if Lookup(v'.remote, q) == Lookup(v.remote, q) {
        assert v.remote[q].id in w0.used;
      }
    }
  }

  lemma ChangeInProgress(w0: World, plan: seq<Item>, v: World, v': World, it: Item)
    requires Startable(w0, plan) && InProgress(w0, plan, v) && !Crossed(plan) && it in plan && Changes(v, v', it)
    requires ItemOk(w0, plan, v', it) && (Done(w0, Core(plan, v), it) ==> Done(w0, Core(plan, v'), it))
    ensures InProgress(w0, plan, v')
    ensures forall y :: y in plan && Done(w0, Core(plan, v), y) ==> Done(w0, Core(plan, v'), y)
  {
    OldIdsStay(w0, v, v', it);
    forall y | y in plan ensures ItemOk(w0, plan, v', y) && (Done(w0, Core(plan, v), y) ==> Done(w0, Core(plan, v'), y)) {
      if y != it {
        OthersStay(w0, plan, v, v', it, y);
      }
    }
    forall p | Outside(plan, p) ensures Lookup(Core(plan, v').remote, p) == Lookup(w0.remote, p) {
      assert p !in FP(it);
      CoreStays(plan, v, v', it, p);
    }
  }

  lemma EventInProgress(w0: World, plan: seq<Item>, v: World, out: seq<Item>, e: Event)
    requires Startable(w0, plan) && InProgress(w0, plan, v) && !Crossed(plan)
    requires (forall x :: x in out ==> x in plan) && CanHappen(v, out, e)
    ensures var v' := Next(v, out, e);
            && InProgress(w0, plan, v')
            && (forall y :: y in plan && Done(w0, Core(plan, v), y) ==> Done(w0, Core(plan, v'), y))
            && (e.Call? && e.o.ok ==> Done(w0, Core(plan, v'), out[e.o.k]))
  {
    match e {
      case Call(o) =>
        if o.ok {
          var it := out[o.k];
          assert it in plan && ItemOk(w0, plan, v, it);
          CallChanges(v, it, o.a, o.b);
          CallMakesDone(w0, plan, v, it, o.a, o.b);
          ChangeInProgress(w0, plan, v, Next(v, out, e), it);
        }
      case Shift(k, mtime) =>
        assert out[k] in plan;
        ShiftIsHalf(w0, plan, v, out[k], mtime);
        ChangeInProgress(w0, plan, v, Next(v, out, e), out[k]);
    }
  }

  /** Any run of items of the plan, at any point of any number of earlier ones, leaves each of them not begun, half
      moved or done; what has been answered is done, and what was done stays done. */
  lemma {:induction false} RunInProgress(w0: World, plan: seq<Item>, v: World, out: seq<Item>, es: seq<Event>)
    requires Startable(w0, plan) && InProgress(w0, plan, v) && !Crossed(plan)
    requires (forall x :: x in out ==> x in plan) && IsTrace(v, out, es)
    ensures var v' := WorldOf(v, out, es);
            && InProgress(w0, plan, v')
            && (forall y :: y in plan && Done(w0, Core(plan, v), y) ==> Done(w0, Core(plan, v'), y))
            && (forall o :: o in Outcomes(es) && o.ok ==> o.k < |out| && Done(w0, Core(plan, v'), out[o.k]))
  {
    if es != [] {
      var front, e := es[..|es| - 1], es[|es| - 1];
      RunInProgress(w0, plan, v, out, front);
      EventInProgress(w0, plan, WorldOf(v, out, front), out, e);
      AnswersSoFar(w0, plan, WorldOf(v, out, front), WorldOf(v, out, es), out, es);
    }
  }

  lemma AnswersSoFar(w0: World, plan: seq<Item>, v: World, v': World, out: seq<Item>, es: seq<Event>)
    requires es != [] && forall x :: x in out ==> x in plan
    requires forall o :: o in Outcomes(es[..|es| - 1]) && o.ok ==> o.k < |out| && Done(w0, Core(plan, v), out[o.k])
    requires forall y :: y in plan && Done(w0, Core(plan, v), y) ==> Done(w0, Core(plan, v'), y)
    requires var e := es[|es| - 1]; e.Call? && e.o.ok ==> e.o.k < |out| && Done(w0, Core(plan, v'), out[e.o.k])
    ensures forall o :: o in Outcomes(es) && o.ok ==> o.k < |out| && Done(w0, Core(plan, v'), out[o.k])
  {
    forall o | o in Outcomes(es) && o.ok ensures o.k < |out| && Done(w0, Core(plan, v'), out[o.k]) {
      if o in Outcomes(es[..|es| - 1]) {
        assert out[o.k] in plan;
      }
    }
  }

  lemma StartIsInProgress(w0: World, plan: seq<Item>)
    requires Startable(w0, plan)
    ensures InProgress(w0, plan, w0) && Core(plan, w0) == w0
  {
    forall p ensures !Visited(plan, w0, p) {
      forall mv | mv in plan && TwoCalls(mv) && HalfOf(mv) == p && p in w0.remote ensures w0.remote[p].id != mv.remoteID {
        HalfIsApart(mv);
      }
    }
    assert Core(plan, w0).remote == w0.remote;
  }

  /** Once everything is done no file is on its way. */
  lemma NothingPassing(w0: World, plan: seq<Item>, v: World)
    requires WellFormed(v) && forall it :: it in plan && it.op.Move? ==> Done(w0, Core(plan, v), it)
    ensures Core(plan, v) == v
  {
    forall p ensures !Visited(plan, v, p) {
      forall mv | mv in plan && TwoCalls(mv) && HalfOf(mv) == p && p in v.remote ensures v.remote[p].id != mv.remoteID {
        HalfIsApart(mv);
        CoreAt(plan, v, mv.rel);
      }
    }
    assert Core(plan, v).remote == v.remote;
  }
}
