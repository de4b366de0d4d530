/**
 A forced push that crashes, any number of times, and is run again reaches what it would have reached at once. After
 a crash the remote tree keeps every change made, the disk the baseline of the last checkpoint, if there was one.
 */
module PushCrash {
  import opened Types
  import opened Paths
  import opened Pool
  import opened Worlds
  import opened Collecting
  import opened Planning
  import opened MovePlanning
  import opened TwoWay
  import opened PushWorld

  datatype Options = Options(refresh: bool, assumeNew: bool, noDelete: bool, detectMoves: bool)

  /** Whether a push seeds its baseline from the remote index. */
  predicate Boots(o: Options, disk: map<Rel, Entry>) {
    o.refresh || (disk == map[] && !o.assumeNew)
  }

  function Baseline(o: Options, w: World, disk: map<Rel, Entry>): map<Rel, Entry> {
    if Boots(o, disk) then Bootstrapped(disk, IndexOfRemote(w), WalkOf(w)) else disk
  }

  /** A push takes its baseline from both trees if it is told to refresh, or has none and is not told that all is new;
      and otherwise as it is. */
  lemma BaselineAt(o: Options, w: World, disk: map<Rel, Entry>, p: Rel)
    ensures var b := Baseline(o, w, disk);
            if (o.refresh || (disk == map[] && !o.assumeNew)) && p in WalkOf(w) && p in w.remote
            then Lookup(b, p) == Some(Entry(|w.remote[p].data|, w.local[p].mtime, w.remote[p].id, w.remote[p].mtime))
            else Lookup(b, p) == Lookup(disk, p)
  {
  }

  /** The plan a forced push carries out, from what PlanPush planned. */
  ghost predicate Rewritten(o: Options, m: map<Rel, Entry>, items: seq<Item>, out: seq<Item>) {
    if o.noDelete then out == Filter(NotDelete, items)
    else if o.detectMoves then IsRewrite(items, m, out)
    else out == items
  }

  ghost predicate PushPlanned(o: Options, w: World, m: map<Rel, Entry>, items: seq<Item>, out: seq<Item>) {
    IsPushPlan(items, WalkOf(w), m) && Rewritten(o, m, items, out)
  }

  // ---- Pairs, item by item ----

  predicate Paired(m: map<Rel, Entry>, u: Item, d: Item) {
    u.op.Upload? && d.op.Delete? && KeyOf(m, u).Some? && KeyOf(m, u) == KeyOf(m, d)
  }

  function MoveOf(m: map<Rel, Entry>, u: Item, d: Item): Item
    requires d.rel in m
  {
    Item(u.rel, Move, m[d.rel].remoteID, m[d.rel].size, u.mtime, d.rel)
  }

  /** No two uploads, and no two deletes, have the same key. */
  ghost predicate Unambiguous(items: seq<Item>, m: map<Rel, Entry>) {
    forall x, y :: x in items && y in items && x.op == y.op && KeyOf(m, x).Some? && KeyOf(m, x) == KeyOf(m, y) ==> x == y
  }

  ghost predicate HasPartner(items: seq<Item>, m: map<Rel, Entry>, x: Item) {
    exists y :: y in items && (Paired(m, x, y) || Paired(m, y, x))
  }

  /** Without ambiguity, one item of an operation and key means exactly one position. */
  lemma OnePosition(items: seq<Item>, m: map<Rel, Entry>, op: Op, k: Key)
    requires DistinctRels(items) && Unambiguous(items, m)
    ensures |Positions(items, m, op, k, |items|)| == 1 <==> exists x :: x in items && x.op == op && KeyOf(m, x) == Some(k)
    ensures |Positions(items, m, op, k, |items|)| <= 1
  {
    PositionsAre(items, m, op, k, |items|);
    var ps := Positions(items, m, op, k, |items|);
    PositionsIncrease(items, m, op, k, |items|);
    forall i, j | 0 <= i < |ps| && 0 <= j < |ps| ensures ps[i] == ps[j] {
      assert ps[i] in ps && ps[j] in ps;
      assert items[ps[i]] in items && items[ps[j]] in items;
    }
    IncreasingVaries(ps, |items|);
    if x :| x in items && x.op == op && KeyOf(m, x) == Some(k) {
      var i: nat :| i < |items| && items[i] == x;
      assert i in ps;
    }
    if |ps| == 1 {
      assert ps[0] in ps && items[ps[0]] in items;
    }
  }

  predicate Increasing(s: seq<nat>, n: nat) {
    && (forall i, j :: 0 <= i < j < |s| ==> s[i] < s[j])
    && (forall i :: 0 <= i < |s| ==> s[i] < n)
  }

  lemma IncreasingVaries(s: seq<nat>, n: nat)
    requires Increasing(s, n)
    ensures |s| >= 2 ==> exists i, j :: 0 <= i < |s| && 0 <= j < |s| && s[i] != s[j]
  {
    if |s| >= 2 {
      assert s[0] != s[1];
    }
  }

  lemma {:induction false} PositionsIncrease(items: seq<Item>, m: map<Rel, Entry>, op: Op, k: Key, n: nat)
    requires n <= |items|
    ensures Increasing(Positions(items, m, op, k, n), n)
  {
    if n > 0 {
      PositionsIncrease(items, m, op, k, n - 1);
    }
  }

  /** The uploads of `items` with a size and mtime, and the deletes of files recorded with them. */
  predicate NewAs(it: Item, size: int, mtime: int) {
    it.op.Upload? && it.size == size && it.mtime == mtime
  }

  predicate GoneAs(m: map<Rel, Entry>, it: Item, size: int, mtime: int) {
    it.op.Delete? && it.rel in m && m[it.rel].size == size && m[it.rel].localMtime == mtime
  }

  /** `u` is the only new file, and `d` the only deleted one, of some size but zero and some mtime. */
  ghost predicate LonePair(items: seq<Item>, m: map<Rel, Entry>, u: Item, d: Item) {
    && u in items && d in items && u.size != 0 && NewAs(u, u.size, u.mtime) && GoneAs(m, d, u.size, u.mtime)
    && (forall x :: x in items && NewAs(x, u.size, u.mtime) ==> x == u)
    && (forall x :: x in items && GoneAs(m, x, u.size, u.mtime) ==> x == d)
  }

  lemma SinglePosition(items: seq<Item>, m: map<Rel, Entry>, op: Op, k: Key, x: Item)
    requires DistinctRels(items) && x in items && x.op == op && KeyOf(m, x) == Some(k)
    ensures |Positions(items, m, op, k, |items|)| == 1 <==> forall y :: y in items && y.op == op && KeyOf(m, y) == Some(k) ==> y == x
  {
    var ps := Positions(items, m, op, k, |items|);
    PositionsAre(items, m, op, k, |items|);
    PositionsIncrease(items, m, op, k, |items|);
    var i: nat :| i < |items| && items[i] == x;
    assert i in ps;
    if forall y :: y in items && y.op == op && KeyOf(m, y) == Some(k) ==> y == x {
      forall j, j' | 0 <= j < |ps| && 0 <= j' < |ps| ensures ps[j] == ps[j'] {
        assert ps[j] in ps && ps[j'] in ps;
        assert items[ps[j]] in items && items[ps[j']] in items;
      }
      IncreasingVaries(ps, |items|);
    }
    if |ps| == 1 {
      forall y | y in items && y.op == op && KeyOf(m, y) == Some(k) ensures y == x {
        var j: nat :| j < |items| && items[j] == y;
        assert j in ps;
      }
    }
  }

  /** What the options make of the items of a plan: overwrites stay as they are; uploads stay unless they become moves, which
      takes deletes allowed and moves asked for; and so do deletes, where they are allowed. */
  lemma OptionsRewrite(o: Options, items: seq<Item>, local: map<Rel, LocalFile>, m: map<Rel, Entry>, out: seq<Item>, it: Item)
    requires IsPushPlan(items, local, m) && Rewritten(o, m, items, out)
    ensures var moving := o.detectMoves && !o.noDelete;
            && (it.op.Overwrite? ==> (it in out <==> it in items))
            && (it.op.Upload? ==> (it in out <==> it in items && !(moving && exists d :: LonePair(items, m, it, d))))
            && (it.op.Delete? ==> (it in out <==> it in items && !o.noDelete && !(moving && exists u :: LonePair(items, m, u, it))))
            && (it.op.Move? ==> (it in out <==> moving && exists u, d :: LonePair(items, m, u, d) && it == Item(u.rel, Move, m[d.rel].remoteID, u.size, u.mtime, d.rel)))
  {
    FilterMembers(NotDelete, items);
    if o.detectMoves && !o.noDelete {
      RewriteIs(items, local, m, out, it);
    }
  }

  /** A pair of an upload and a delete that share size and mtime with no other of their kind becomes one move; every other item
      stays. */
  lemma RewriteIs(items: seq<Item>, local: map<Rel, LocalFile>, m: map<Rel, Entry>, out: seq<Item>, it: Item)
    requires IsPushPlan(items, local, m) && IsRewrite(items, m, out)
    ensures it.op.Overwrite? ==> (it in out <==> it in items)
    ensures it.op.Upload? ==> (it in out <==> it in items && !exists d :: LonePair(items, m, it, d))
    ensures it.op.Delete? ==> (it in out <==> it in items && !exists u :: LonePair(items, m, u, it))
    ensures it.op.Move? ==> (it in out <==> exists u, d :: LonePair(items, m, u, d) && it == Item(u.rel, Move, m[d.rel].remoteID, u.size, u.mtime, d.rel))
  {
    MovesAreLone(items, local, m, it);
    if it in items && !IsKept(items, m, it) {
      GoneIsLone(items, m, it);
    }
    forall u, d | LonePair(items, m, u, d) ensures !IsKept(items, m, u) && !IsKept(items, m, d) {
      LoneIsPaired(items, m, u, d);
    }
    assert it.op.Move? ==> it !in items;
  }

  lemma MovesAreLone(items: seq<Item>, local: map<Rel, LocalFile>, m: map<Rel, Entry>, it: Item)
    requires IsPushPlan(items, local, m)
    ensures IsMove(items, m, it) <==> exists u, d :: LonePair(items, m, u, d) && it == Item(u.rel, Move, m[d.rel].remoteID, u.size, u.mtime, d.rel)
  {
    if u, d :| LonePair(items, m, u, d) && it == Item(u.rel, Move, m[d.rel].remoteID, u.size, u.mtime, d.rel) {
      LoneIsPaired(items, m, u, d);
    }
    if IsMove(items, m, it) {
      var k :| PairKey(items, m, k) && it == MoveFor(items, m, k);
      var (i, j) := (UploadAt(items, m, k), DeleteAt(items, m, k));
      var (u, d) := (items[i], items[j]);
      assert u in items && d in items;
      SinglePosition(items, m, Upload, k, u);
      SinglePosition(items, m, Delete, k, d);
      assert LonePair(items, m, u, d);
    }
  }

  lemma LoneIsPaired(items: seq<Item>, m: map<Rel, Entry>, u: Item, d: Item)
    requires DistinctRels(items) && LonePair(items, m, u, d)
    ensures !IsKept(items, m, u) && !IsKept(items, m, d) && IsMove(items, m, Item(u.rel, Move, m[d.rel].remoteID, u.size, u.mtime, d.rel))
  {
    var k := Key(u.size, u.mtime);
    SinglePosition(items, m, Upload, k, u);
    SinglePosition(items, m, Delete, k, d);
    assert items[UploadAt(items, m, k)] in items && items[DeleteAt(items, m, k)] in items;
    assert MoveFor(items, m, k) == Item(u.rel, Move, m[d.rel].remoteID, u.size, u.mtime, d.rel);
  }

  lemma GoneIsLone(items: seq<Item>, m: map<Rel, Entry>, x: Item)
    requires DistinctRels(items) && x in items && !IsKept(items, m, x)
    ensures x.op.Upload? ==> exists d :: LonePair(items, m, x, d)
    ensures x.op.Delete? ==> exists u :: LonePair(items, m, u, x)
  {
    var i: nat :| i < |items| && items[i] == x;
    assert Consumed(items, m, i);
    var k := KeyOf(m, x).value;
    var u, d := items[UploadAt(items, m, k)], items[DeleteAt(items, m, k)];
    assert u in items && d in items;
    SinglePosition(items, m, Upload, k, u);
    SinglePosition(items, m, Delete, k, d);
    assert LonePair(items, m, u, d);
    OnlyTwoConsumed(items, m, i);
  }

  lemma MovesAre(items: seq<Item>, m: map<Rel, Entry>, y: Item)
    requires DistinctRels(items) && Unambiguous(items, m)
    ensures IsMove(items, m, y) <==> exists u, d :: u in items && d in items && Paired(m, u, d) && y == MoveOf(m, u, d)
  {
    if IsMove(items, m, y) {
      var k :| PairKey(items, m, k) && y == MoveFor(items, m, k);
      var u, d := items[UploadAt(items, m, k)], items[DeleteAt(items, m, k)];
      assert u in items && d in items && Paired(m, u, d) && y == MoveOf(m, u, d);
    }
    if u, d :| u in items && d in items && Paired(m, u, d) && y == MoveOf(m, u, d) {
      PairIsMove(items, m, u, d);
    }
  }

  lemma PairIsMove(items: seq<Item>, m: map<Rel, Entry>, u: Item, d: Item)
    requires DistinctRels(items) && Unambiguous(items, m) && u in items && d in items && Paired(m, u, d)
    ensures IsMove(items, m, MoveOf(m, u, d))
    ensures PairKey(items, m, KeyOf(m, u).value)
  {
    var k := KeyOf(m, u).value;
    OnePosition(items, m, Upload, k);
    OnePosition(items, m, Delete, k);
    assert items[UploadAt(items, m, k)] in items && items[DeleteAt(items, m, k)] in items;
    assert MoveFor(items, m, k) == MoveOf(m, u, d);
  }

  lemma KeptAre(items: seq<Item>, m: map<Rel, Entry>, x: Item)
    requires DistinctRels(items) && Unambiguous(items, m)
    ensures IsKept(items, m, x) <==> x in items && !HasPartner(items, m, x)
  {
    if x in items {
      var i: nat :| i < |items| && items[i] == x;
      assert forall j: nat :: j < |items| && items[j] == x ==> j == i;
      if Consumed(items, m, i) {
        var k := KeyOf(m, x).value;
        var u, d := items[UploadAt(items, m, k)], items[DeleteAt(items, m, k)];
        assert u in items && d in items && Paired(m, u, d);
        OnlyTwoConsumed(items, m, i);
      }
      if y :| y in items && (Paired(m, x, y) || Paired(m, y, x)) {
        if Paired(m, x, y) { PairIsMove(items, m, x, y); } else { PairIsMove(items, m, y, x); }
      }
    }
  }

  // ---- The baseline of a later attempt ----

  /** The item's entries are those the first attempt planned from. */
  ghost predicate Unrecorded(b0: map<Rel, Entry>, b: map<Rel, Entry>, it: Item) {
    forall p :: p in FP(it) ==> Lookup(b, p) == Lookup(b0, p)
  }

  /** The item's entries agree with the local tree. */
  ghost predicate Recorded(w0: World, b: map<Rel, Entry>, it: Item) {
    forall p :: p in FP(it) ==> BaseLocal(b, p) == LocalMeta(WalkOf(w0), p)
  }

  ghost predicate EntryOk(w0: World, b0: map<Rel, Entry>, v: World, b: map<Rel, Entry>, it: Item) {
    Unrecorded(b0, b, it) || (Done(w0, v, it) && Recorded(w0, b, it))
  }

  ghost predicate Behind(w0: World, b0: map<Rel, Entry>, plan: seq<Item>, v: World, b: map<Rel, Entry>) {
    && (forall it :: it in plan ==> EntryOk(w0, b0, v, b, it))
    && (forall p :: Outside(plan, p) ==> Lookup(b, p) == Lookup(b0, p))
  }

  /** A later attempt plans only what the first one planned, and all of it that is not recorded. */
  lemma SamePlanned(w0: World, b0: map<Rel, Entry>, items0: seq<Item>, plan: seq<Item>, v: World, b: map<Rel, Entry>, items: seq<Item>, x: Item)
    requires IsPushPlan(items0, WalkOf(w0), b0) && IsPushPlan(items, WalkOf(w0), b) && Behind(w0, b0, plan, v, b)
    ensures x in items <==> x in items0 && Lookup(b, x.rel) == Lookup(b0, x.rel)
  {
    var p := x.rel;
    if x in items {
      if it :| it in plan && p in FP(it) {
        assert EntryOk(w0, b0, v, b, it);
      } else {
        assert Outside(plan, p);
      }
      assert LocalMeta(WalkOf(w0), p) != BaseLocal(b0, p);
    }
    if x in items0 && Lookup(b, p) == Lookup(b0, p) {
      assert LocalMeta(WalkOf(w0), p) != BaseLocal(b, p);
    }
  }

  lemma StillUnambiguous(w0: World, b0: map<Rel, Entry>, items0: seq<Item>, plan: seq<Item>, v: World, b: map<Rel, Entry>, items: seq<Item>)
    requires IsPushPlan(items0, WalkOf(w0), b0) && IsPushPlan(items, WalkOf(w0), b) && Behind(w0, b0, plan, v, b)
    requires Unambiguous(items0, b0)
    ensures Unambiguous(items, b)
  {
    forall x | x in items ensures x in items0 && KeyOf(b, x) == KeyOf(b0, x) {
      SamePlanned(w0, b0, items0, plan, v, b, items, x);
    }
  }

  /** A pair of the first attempt is still a pair as long as one of its halves is planned. */
  lemma PairsStayTogether(w0: World, b0: map<Rel, Entry>, items0: seq<Item>, plan: seq<Item>, v: World, b: map<Rel, Entry>, items: seq<Item>, u: Item, d: Item)
    requires IsPushPlan(items0, WalkOf(w0), b0) && IsPushPlan(items, WalkOf(w0), b) && Behind(w0, b0, plan, v, b)
    requires Unambiguous(items0, b0) && IsRewrite(items0, b0, plan)
    requires u in items0 && d in items0 && Paired(b0, u, d) && (u in items || d in items)
    ensures u in items && d in items && Paired(b, u, d) && MoveOf(b, u, d) == MoveOf(b0, u, d)
  {
    PairIsMove(items0, b0, u, d);
    var move := MoveOf(b0, u, d);
    assert move in plan;
    assert u.rel in FP(move) && d.rel in FP(move);
    assert EntryOk(w0, b0, v, b, move);
    SamePlanned(w0, b0, items0, plan, v, b, items, u);
    SamePlanned(w0, b0, items0, plan, v, b, items, d);
  }

  lemma MoveIsRepeated(w0: World, b0: map<Rel, Entry>, items0: seq<Item>, plan: seq<Item>, v: World, b: map<Rel, Entry>, items: seq<Item>, y: Item)
    requires IsPushPlan(items0, WalkOf(w0), b0) && IsPushPlan(items, WalkOf(w0), b) && Behind(w0, b0, plan, v, b)
    requires Unambiguous(items0, b0) && IsRewrite(items0, b0, plan) && Unambiguous(items, b)
    requires IsMove(items0, b0, y) && Unrecorded(b0, b, y)
    ensures IsMove(items, b, y)
  {
    MovesAre(items0, b0, y);
    var u, d :| u in items0 && d in items0 && Paired(b0, u, d) && y == MoveOf(b0, u, d);
    assert u.rel in FP(y);
    SamePlanned(w0, b0, items0, plan, v, b, items, u);
    PairsStayTogether(w0, b0, items0, plan, v, b, items, u, d);
    PairIsMove(items, b, u, d);
  }

  lemma NoNewMove(w0: World, b0: map<Rel, Entry>, items0: seq<Item>, plan: seq<Item>, v: World, b: map<Rel, Entry>, items: seq<Item>, y: Item)
    requires IsPushPlan(items0, WalkOf(w0), b0) && IsPushPlan(items, WalkOf(w0), b) && Behind(w0, b0, plan, v, b)
    requires Unambiguous(items0, b0) && Unambiguous(items, b) && IsMove(items, b, y)
    ensures IsMove(items0, b0, y)
  {
    MovesAre(items, b, y);
    var u, d :| u in items && d in items && Paired(b, u, d) && y == MoveOf(b, u, d);
    SamePlanned(w0, b0, items0, plan, v, b, items, u);
    SamePlanned(w0, b0, items0, plan, v, b, items, d);
    PairIsMove(items0, b0, u, d);
  }

  lemma KeptIsRepeated(w0: World, b0: map<Rel, Entry>, items0: seq<Item>, plan: seq<Item>, v: World, b: map<Rel, Entry>, items: seq<Item>, y: Item)
    requires IsPushPlan(items0, WalkOf(w0), b0) && IsPushPlan(items, WalkOf(w0), b) && Behind(w0, b0, plan, v, b)
    requires Unambiguous(items0, b0) && IsRewrite(items0, b0, plan) && Unambiguous(items, b)
    ensures IsKept(items, b, y) ==> IsKept(items0, b0, y)
    ensures IsKept(items0, b0, y) && Unrecorded(b0, b, y) ==> IsKept(items, b, y)
  {
    KeptAre(items, b, y);
    KeptAre(items0, b0, y);
    SamePlanned(w0, b0, items0, plan, v, b, items, y);
    assert y.rel in FP(y);
    if y in items {
      forall z | z in items0 && (Paired(b0, y, z) || Paired(b0, z, y)) ensures HasPartner(items, b, y) {
        if Paired(b0, y, z) {
          PairsStayTogether(w0, b0, items0, plan, v, b, items, y, z);
        } else {
          PairsStayTogether(w0, b0, items0, plan, v, b, items, z, y);
        }
      }
      forall z | z in items && (Paired(b, y, z) || Paired(b, z, y)) ensures HasPartner(items0, b0, y) {
        SamePlanned(w0, b0, items0, plan, v, b, items, z);
        assert Paired(b0, y, z) || Paired(b0, z, y);
      }
    }
  }

  /** The plan of a later attempt: what of the first plan is not recorded, and nothing else. */
  lemma PlanShrinks(o: Options, w0: World, b0: map<Rel, Entry>, items0: seq<Item>, plan: seq<Item>,
                    v: World, b: map<Rel, Entry>, items: seq<Item>, out: seq<Item>, y: Item)
    requires v.local == w0.local && Behind(w0, b0, plan, v, b)
    requires PushPlanned(o, w0, b0, items0, plan) && PushPlanned(o, v, b, items, out)
    requires o.detectMoves ==> Unambiguous(items0, b0)
    ensures y in out ==> y in plan
    ensures y in plan && Unrecorded(b0, b, y) ==> y in out
  {
    assert y.rel in FP(y);
    if o.noDelete {
      FilterMembers(NotDelete, items0);
      FilterMembers(NotDelete, items);
      SamePlanned(w0, b0, items0, plan, v, b, items, y);
    } else if o.detectMoves {
      StillUnambiguous(w0, b0, items0, plan, v, b, items);
      if IsMove(items, b, y) {
        NoNewMove(w0, b0, items0, plan, v, b, items, y);
      } else if IsMove(items0, b0, y) && Unrecorded(b0, b, y) {
        MoveIsRepeated(w0, b0, items0, plan, v, b, items, y);
      }
      KeptIsRepeated(w0, b0, items0, plan, v, b, items, y);
    } else {
      SamePlanned(w0, b0, items0, plan, v, b, items, y);
    }
  }
}
