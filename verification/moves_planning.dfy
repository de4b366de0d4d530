/**
 DetectMoves: a delete and an upload that are alone in having the same size and local mtime become one move.
 The rewritten plan leaves the manifest with the same keys, sizes and local mtimes.
 */
module MovePlanning {
  import opened Types
  import opened Manifests
  import opened Planning
  import opened Pool
  import opened Collecting

  datatype Key = Key(size: int, mtime: int)

  /** What an item is paired by; empty files are never paired. */
  function KeyOf(m: map<Rel, Entry>, it: Item): Option<Key> {
    if it.op.Upload? && it.size != 0 then Some(Key(it.size, it.mtime))
    else if it.op.Delete? && it.rel in m && m[it.rel].size != 0 then Some(Key(m[it.rel].size, m[it.rel].localMtime))
    else None
  }

  function Bucket(b: map<Key, seq<nat>>, k: Key): seq<nat> {
    if k in b then b[k] else []
  }

  predicate HasKey(items: seq<Item>, m: map<Rel, Entry>, op: Op, k: Key, i: nat)
    requires i < |items|
  {
    items[i].op == op && KeyOf(m, items[i]) == Some(k)
  }

  /** The positions below `n` of the items of kind `op` with key `k`. */
  function Positions(items: seq<Item>, m: map<Rel, Entry>, op: Op, k: Key, n: nat): seq<nat>
    requires n <= |items|
  {
    if n == 0 then []
    else if HasKey(items, m, op, k, n - 1) then Positions(items, m, op, k, n - 1) + [n - 1]
    else Positions(items, m, op, k, n - 1)
  }

  lemma {:induction false} PositionsAre(items: seq<Item>, m: map<Rel, Entry>, op: Op, k: Key, n: nat)
    requires n <= |items|
    ensures forall i: nat :: i in Positions(items, m, op, k, n) <==> i < n && HasKey(items, m, op, k, i)
  {
    if n > 0 {
      PositionsAre(items, m, op, k, n - 1);
    }
  }

  /** Exactly one upload and exactly one delete have this key. */
  predicate PairKey(items: seq<Item>, m: map<Rel, Entry>, k: Key) {
    |Positions(items, m, Upload, k, |items|)| == 1 && |Positions(items, m, Delete, k, |items|)| == 1
  }

  function UploadAt(items: seq<Item>, m: map<Rel, Entry>, k: Key): (i: nat)
    requires PairKey(items, m, k)
    ensures i < |items| && items[i].op.Upload? && KeyOf(m, items[i]) == Some(k)
  {
    PositionsAre(items, m, Upload, k, |items|);
    assert Positions(items, m, Upload, k, |items|)[0] in Positions(items, m, Upload, k, |items|);
    Positions(items, m, Upload, k, |items|)[0]
  }

  function DeleteAt(items: seq<Item>, m: map<Rel, Entry>, k: Key): (i: nat)
    requires PairKey(items, m, k)
    ensures i < |items| && items[i].op.Delete? && KeyOf(m, items[i]) == Some(k)
  {
    PositionsAre(items, m, Delete, k, |items|);
    assert Positions(items, m, Delete, k, |items|)[0] in Positions(items, m, Delete, k, |items|);
    Positions(items, m, Delete, k, |items|)[0]
  }

  function MoveFor(items: seq<Item>, m: map<Rel, Entry>, k: Key): Item
    requires PairKey(items, m, k)
  {
    var up, del := items[UploadAt(items, m, k)], items[DeleteAt(items, m, k)];
    Item(up.rel, Move, m[del.rel].remoteID, m[del.rel].size, up.mtime, del.rel)
  }

  /** Whether item `i` is half of a pair. */
  predicate Consumed(items: seq<Item>, m: map<Rel, Entry>, i: nat)
    requires i < |items|
  {
    KeyOf(m, items[i]).Some? && PairKey(items, m, KeyOf(m, items[i]).value)
  }

  ghost predicate IsKept(items: seq<Item>, m: map<Rel, Entry>, x: Item) {
    exists i: nat :: i < |items| && items[i] == x && !Consumed(items, m, i)
  }

  ghost predicate IsMove(items: seq<Item>, m: map<Rel, Entry>, x: Item) {
    exists k :: PairKey(items, m, k) && x == MoveFor(items, m, k)
  }

  /** The rewritten plan is the moves of all pairs and the items of none. */
  ghost predicate IsRewrite(items: seq<Item>, m: map<Rel, Entry>, out: seq<Item>) {
    && (forall x :: x in out <==> IsKept(items, m, x) || IsMove(items, m, x))
    && DistinctRels(out)
  }

  lemma OnlyTwoConsumed(items: seq<Item>, m: map<Rel, Entry>, i: nat)
    requires i < |items| && Consumed(items, m, i)
    ensures var k := KeyOf(m, items[i]).value; i == if items[i].op.Upload? then UploadAt(items, m, k) else DeleteAt(items, m, k)
  {
    PositionsAre(items, m, items[i].op, KeyOf(m, items[i]).value, |items|);
    assert i in Positions(items, m, items[i].op, KeyOf(m, items[i]).value, |items|);
  }

  /** The items of each kind by key, in plan order. */
  method FillBuckets(items: seq<Item>, m: Manifest) returns (uploads: map<Key, seq<nat>>, deletes: map<Key, seq<nat>>)
    ensures forall k :: Bucket(uploads, k) == Positions(items, m.entries, Upload, k, |items|)
    ensures forall k :: Bucket(deletes, k) == Positions(items, m.entries, Delete, k, |items|)
  {
    uploads, deletes := map[], map[];
    for i := 0 to |items|
      invariant forall k :: Bucket(uploads, k) == Positions(items, m.entries, Upload, k, i)
      invariant forall k :: Bucket(deletes, k) == Positions(items, m.entries, Delete, k, i)
    {
      var it := items[i];
      match it.op {
        case Upload =>
          if it.size != 0 {
            var k := Key(it.size, it.mtime);
            uploads := uploads[k := Bucket(uploads, k) + [i]];
          }
        case Delete =>
          var e := m.Get(it.rel);
          if e.Some? && e.value.size != 0 {
            var k := Key(e.value.size, e.value.localMtime);
            deletes := deletes[k := Bucket(deletes, k) + [i]];
          }
        case _ =>
      }
    }
  }

  /** One move for every pair, whatever order the buckets are visited in, and the positions the pairs take up. */
  method PairUp(items: seq<Item>, m: Manifest, uploads: map<Key, seq<nat>>, deletes: map<Key, seq<nat>>)
    returns (moves: seq<Item>, drop: set<nat>)
    requires DistinctRels(items)
    requires forall k :: Bucket(uploads, k) == Positions(items, m.entries, Upload, k, |items|)
    requires forall k :: Bucket(deletes, k) == Positions(items, m.entries, Delete, k, |items|)
    ensures forall x :: x in moves <==> IsMove(items, m.entries, x)
    ensures forall i: nat :: i < |items| ==> (i in drop <==> Consumed(items, m.entries, i))
    ensures DistinctRels(moves)
  {
    ghost var mm := m.entries;
    drop, moves := {}, [];
    ghost var done: set<Key>, keys: seq<Key> := {}, [];
    var todo := uploads.Keys;
    while todo != {}
      invariant todo <= uploads.Keys && done == uploads.Keys - todo
      invariant MovesFor(items, mm, keys, moves)
      invariant forall k :: k in keys <==> k in done && PairKey(items, mm, k)
      invariant Drops(items, mm, keys, drop)
      decreases |todo|
    {
      var k :| k in todo;
      todo, done := todo - {k}, done + {k};
      assert uploads[k] == Bucket(uploads, k);
      var move, up, del := PairOf(items, m, k, uploads[k], Bucket(deletes, k));
      if move.Some? {
        DropPair(items, mm, keys, drop, k);
        AddMove(items, mm, keys, moves, k);
        moves, keys := moves + [move.value], keys + [k];
        drop := drop + {up, del};
      }
    }
    forall k | PairKey(items, mm, k) ensures k in keys {
      assert Bucket(uploads, k) == Positions(items, mm, Upload, k, |items|);
    }
    DistinctMoves(items, mm, keys, moves);
  }

  /** The move for one key, if its two buckets hold one item each. */
  method PairOf(items: seq<Item>, m: Manifest, k: Key, ups: seq<nat>, dels: seq<nat>) returns (move: Option<Item>, up: nat, del: nat)
    requires ups == Positions(items, m.entries, Upload, k, |items|)
    requires dels == Positions(items, m.entries, Delete, k, |items|)
    ensures move.Some? <==> PairKey(items, m.entries, k)
    ensures move.Some? ==> up == UploadAt(items, m.entries, k) && del == DeleteAt(items, m.entries, k)
                           && move.value == MoveFor(items, m.entries, k)
  {
    move, up, del := None, 0, 0;
    if |ups| == 1 && |dels| == 1 {
      assert ups[0] == UploadAt(items, m.entries, k) && dels[0] == DeleteAt(items, m.entries, k);
      up, del := ups[0], dels[0];
      var e := m.Get(items[del].rel);
      move := Some(Item(items[up].rel, Move, e.value.remoteID, e.value.size, items[up].mtime, items[del].rel));
    }
  }

  /** One move a key, no key twice. */
  predicate MovesFor(items: seq<Item>, m: map<Rel, Entry>, keys: seq<Key>, moves: seq<Item>) {
    && |keys| == |moves|
    && (forall i :: 0 <= i < |keys| ==> PairKey(items, m, keys[i]) && moves[i] == MoveFor(items, m, keys[i]))
    && (forall i, j :: 0 <= i < j < |keys| ==> keys[i] != keys[j])
  }

  /** The positions to drop are those of the items with one of the keys. */
  ghost predicate Drops(items: seq<Item>, m: map<Rel, Entry>, keys: seq<Key>, drop: set<nat>) {
    forall i: nat :: i in drop <==> i < |items| && KeyOf(m, items[i]).Some? && KeyOf(m, items[i]).value in keys
  }

  lemma AddMove(items: seq<Item>, m: map<Rel, Entry>, keys: seq<Key>, moves: seq<Item>, k: Key)
    requires MovesFor(items, m, keys, moves) && PairKey(items, m, k) && k !in keys
    ensures MovesFor(items, m, keys + [k], moves + [MoveFor(items, m, k)])
  {
  }

  lemma DropPair(items: seq<Item>, m: map<Rel, Entry>, keys: seq<Key>, drop: set<nat>, k: Key)
    requires Drops(items, m, keys, drop) && PairKey(items, m, k)
    ensures Drops(items, m, keys + [k], drop + {UploadAt(items, m, k), DeleteAt(items, m, k)})
  {
    ConsumedByKey(items, m, k);
  }

  lemma ConsumedByKey(items: seq<Item>, m: map<Rel, Entry>, k: Key)
    requires PairKey(items, m, k)
    ensures forall i: nat :: i < |items| ==> (KeyOf(m, items[i]) == Some(k) <==> i == UploadAt(items, m, k) || i == DeleteAt(items, m, k))
  {
    forall i: nat | i < |items| && KeyOf(m, items[i]) == Some(k) ensures i == UploadAt(items, m, k) || i == DeleteAt(items, m, k) {
      OnlyTwoConsumed(items, m, i);
    }
  }

  lemma DistinctMoves(items: seq<Item>, m: map<Rel, Entry>, keys: seq<Key>, moves: seq<Item>)
    requires DistinctRels(items) && MovesFor(items, m, keys, moves)
    requires forall k :: PairKey(items, m, k) ==> k in keys
    ensures DistinctRels(moves)
    ensures forall x :: x in moves <==> IsMove(items, m, x)
  {
    forall i, j | 0 <= i < j < |moves| ensures moves[i].rel != moves[j].rel {
      assert UploadAt(items, m, keys[i]) != UploadAt(items, m, keys[j]);
    }
    forall x | IsMove(items, m, x) ensures x in moves {
      var k :| PairKey(items, m, k) && x == MoveFor(items, m, k);
      var i :| 0 <= i < |keys| && keys[i] == k;
      assert moves[i] == x;
    }
  }

  method DetectMoves(items: seq<Item>, m: Manifest) returns (out: seq<Item>)
    requires DistinctRels(items)
    ensures IsRewrite(items, m.entries, out)
  {
    ghost var mm := m.entries;
    var uploads, deletes := FillBuckets(items, m);
    var moves, drop := PairUp(items, m, uploads, deletes);
    if |moves| == 0 {
      NothingPaired(items, mm, moves);
      return items;
    }
    var kept: seq<Item> := [];
    for i := 0 to |items|
      invariant forall x :: x in kept <==> exists j: nat :: j < i && items[j] == x && !Consumed(items, mm, j)
      invariant DistinctRels(kept)
    {
      if i !in drop {
        assert forall x :: x in kept ==> x.rel != items[i].rel;
        kept := kept + [items[i]];
      }
    }
    out := kept + moves;
    forall x, y | x in kept && y in moves ensures x.rel != y.rel {
      var k :| PairKey(items, mm, k) && y == MoveFor(items, mm, k);
      var j: nat :| j < |items| && items[j] == x && !Consumed(items, mm, j);
      assert j != UploadAt(items, mm, k);
    }
  }

  lemma NothingPaired(items: seq<Item>, m: map<Rel, Entry>, moves: seq<Item>)
    requires |moves| == 0 && DistinctRels(items)
    requires forall x :: x in moves <==> IsMove(items, m, x)
    ensures IsRewrite(items, m, items)
  {
    forall i: nat | i < |items| ensures !Consumed(items, m, i) {
      if Consumed(items, m, i) {
        assert IsMove(items, m, MoveFor(items, m, KeyOf(m, items[i]).value));
      }
    }
    assert forall x :: x in items ==> exists i: nat :: i < |items| && items[i] == x;
  }

  // ---- Main results ----

  function PushJobs(items: seq<Item>): (jobs: seq<Job>)
    ensures |jobs| == |items|
    ensures forall i :: 0 <= i < |items| ==> jobs[i] == Push(items[i])
  {
    seq(|items|, i requires 0 <= i < |items| => Push(items[i]))
  }

  predicate Succeeded(log: seq<Outcome>, k: nat) {
    exists i :: 0 <= i < |log| && log[i].k == k && log[i].ok
  }

  /** Every item succeeded. */
  ghost predicate Complete(jobs: seq<Job>, log: seq<Outcome>) {
    && KeysInRange(jobs, log) && DistinctKeys(log)
    && forall k: nat :: k < |jobs| ==> Succeeded(log, k)
  }

  /** Each item of the first plan is part of at most one move, and each move stands for one upload and one delete of
      the same non-empty size and the same mtime. */
  lemma MovesArePairs(items: seq<Item>, local: map<Rel, LocalFile>, m: map<Rel, Entry>, x: Item)
    requires IsPushPlan(items, local, m) && IsMove(items, m, x)
    ensures x.rel in local && x.rel !in m && x.srcRel in m && x.srcRel !in local
    ensures m[x.srcRel].size == local[x.rel].size == x.size && x.size != 0
    ensures m[x.srcRel].localMtime == local[x.rel].mtime == x.mtime && m[x.srcRel].remoteID == x.remoteID
    ensures forall y :: IsMove(items, m, y) && (y.rel == x.rel || y.srcRel == x.srcRel) ==> y == x
  {
    var k :| PairKey(items, m, k) && x == MoveFor(items, m, k);
    var u, d := UploadAt(items, m, k), DeleteAt(items, m, k);
    assert items[u] in items && items[d] in items;
    forall y | IsMove(items, m, y) && (y.rel == x.rel || y.srcRel == x.srcRel) ensures y == x {
      var k' :| PairKey(items, m, k') && y == MoveFor(items, m, k');
      assert items[UploadAt(items, m, k')] in items && items[DeleteAt(items, m, k')] in items;
    }
  }

  lemma KeptAreNotMoved(items: seq<Item>, local: map<Rel, LocalFile>, m: map<Rel, Entry>, x: Item, y: Item)
    requires IsPushPlan(items, local, m) && IsMove(items, m, x) && IsKept(items, m, y)
    ensures y in items && y.rel != x.rel && y.rel != x.srcRel && !y.op.Move?
  {
    var k :| PairKey(items, m, k) && x == MoveFor(items, m, k);
    var i: nat :| i < |items| && items[i] == y && !Consumed(items, m, i);
    assert i != UploadAt(items, m, k) && i != DeleteAt(items, m, k);
  }

  /** A move and another item of the rewritten plan, a move or a kept one, share no path. */
  lemma MoveIsApart(items: seq<Item>, local: map<Rel, LocalFile>, m: map<Rel, Entry>, out: seq<Item>, x: Item, y: Item)
    requires IsPushPlan(items, local, m) && IsRewrite(items, m, out)
    requires x in out && y in out && x.rel != y.rel && IsMove(items, m, x)
    ensures Footprint(Push(x)) !! Footprint(Push(y))
  {
    MovesArePairs(items, local, m, x);
    if IsMove(items, m, y) {
      MovesArePairs(items, local, m, y);
    } else {
      KeptAreNotMoved(items, local, m, x, y);
    }
  }

  lemma RewriteKeepsFootprintsDisjoint(items: seq<Item>, local: map<Rel, LocalFile>, m: map<Rel, Entry>, out: seq<Item>)
    requires IsPushPlan(items, local, m) && IsRewrite(items, m, out)
    ensures DisjointFootprints(PushJobs(out))
  {
    forall i, j | 0 <= i < j < |out| ensures Footprint(Push(out[i])) !! Footprint(Push(out[j])) {
      var x, y := out[i], out[j];
      assert x in out && y in out && x.rel != y.rel;
      if IsMove(items, m, x) {
        MoveIsApart(items, local, m, out, x, y);
      } else if IsMove(items, m, y) {
        MoveIsApart(items, local, m, out, y, x);
      }
    }
  }

  /** Running a plan to the end, as planned or with moves, makes the baseline's local side equal to the local tree. */
  lemma CompleteRunMatchesLocal(items: seq<Item>, local: map<Rel, LocalFile>, m: map<Rel, Entry>, out: seq<Item>, log: seq<Outcome>, p: Rel)
    requires IsPushPlan(items, local, m)
    requires out == items || IsRewrite(items, m, out)
    requires Complete(PushJobs(out), log)
    ensures BaseLocal(RecordAll(m, PushJobs(out), log), p) == LocalMeta(local, p)
  {
    var jobs := PushJobs(out);
    EitherIsDisjoint(items, local, m, out);
    RecordedAt(m, jobs, log, p);
    if o :| TouchedBy(jobs, log, p, o) {
      assert out[o.k] in out;
      RecordMatchesLocal(items, local, m, out[o.k], o, p);
    } else {
      UntouchedMatchesLocal(items, local, m, out, log, p);
    }
  }

  lemma UntouchedMatchesLocal(items: seq<Item>, local: map<Rel, LocalFile>, m: map<Rel, Entry>, out: seq<Item>, log: seq<Outcome>, p: Rel)
    requires IsPushPlan(items, local, m) && (out == items || IsRewrite(items, m, out)) && Complete(PushJobs(out), log)
    requires forall o :: !TouchedBy(PushJobs(out), log, p, o)
    ensures BaseLocal(m, p) == LocalMeta(local, p)
  {
    if LocalMeta(local, p) != BaseLocal(m, p) {
      var o := ChangedIsTouched(items, local, m, out, log, p);
    }
  }

  lemma EitherIsDisjoint(items: seq<Item>, local: map<Rel, LocalFile>, m: map<Rel, Entry>, out: seq<Item>)
    requires IsPushPlan(items, local, m) && (out == items || IsRewrite(items, m, out))
    ensures DisjointFootprints(PushJobs(out))
    ensures forall x :: x in out ==> x in items || IsMove(items, m, x)
  {
    if out == items {
      assert forall x :: x in items ==> !x.op.Move?;
      assert forall i :: 0 <= i < |items| ==> items[i] in items;
    } else {
      RewriteKeepsFootprintsDisjoint(items, local, m, out);
    }
  }

  /** A changed path is touched by a success of a complete run. */
  lemma ChangedIsTouched(items: seq<Item>, local: map<Rel, LocalFile>, m: map<Rel, Entry>, out: seq<Item>, log: seq<Outcome>, p: Rel) returns (o: Outcome)
    requires IsPushPlan(items, local, m) && (out == items || IsRewrite(items, m, out))
    requires Complete(PushJobs(out), log) && LocalMeta(local, p) != BaseLocal(m, p)
    ensures TouchedBy(PushJobs(out), log, p, o)
  {
    var x := CopyOut(p, Lookup(local, p), Lookup(m, p));
    var y := Carrier(items, m, out, x);
    var k: nat :| k < |out| && out[k] == y;
    assert Succeeded(log, k);
    var i :| 0 <= i < |log| && log[i].k == k && log[i].ok;
    o := log[i];
  }

  /** Recording one success makes the entries of its footprint agree with the local tree. */
  lemma RecordMatchesLocal(items: seq<Item>, local: map<Rel, LocalFile>, m: map<Rel, Entry>, x: Item, o: Outcome, p: Rel)
    requires IsPushPlan(items, local, m) && (x in items || IsMove(items, m, x))
    requires o.ok && p in Footprint(Push(x))
    ensures BaseLocal(RecordOne(m, Push(x), o), p) == LocalMeta(local, p)
  {
    if IsMove(items, m, x) {
      MovesArePairs(items, local, m, x);
    }
  }

  /** The item of the rewritten plan that does what `x` was planned for. */
  lemma Carrier(items: seq<Item>, m: map<Rel, Entry>, out: seq<Item>, x: Item) returns (y: Item)
    requires x in items && (out == items || IsRewrite(items, m, out)) && !x.op.Move?
    ensures y in out && x.rel in Footprint(Push(y))
  {
    var i: nat :| i < |items| && items[i] == x;
    if out == items || !Consumed(items, m, i) {
      y := x;
    } else {
      OnlyTwoConsumed(items, m, i);
      y := MoveFor(items, m, KeyOf(m, x).value);
      assert IsMove(items, m, y);
    }
  }

  /** DetectMoves preserves meaning: whatever order either plan is carried out in, both leave the same keys with the
      same sizes and local mtimes. */
  lemma MovesPreserveMeaning(items: seq<Item>, local: map<Rel, LocalFile>, m: map<Rel, Entry>, out: seq<Item>,
                             log: seq<Outcome>, movedLog: seq<Outcome>)
    requires IsPushPlan(items, local, m) && IsRewrite(items, m, out)
    requires Complete(PushJobs(items), log) && Complete(PushJobs(out), movedLog)
    ensures var (a, b) := (RecordAll(m, PushJobs(items), log), RecordAll(m, PushJobs(out), movedLog));
            && a.Keys == b.Keys
            && forall p :: p in a ==> a[p].size == b[p].size && a[p].localMtime == b[p].localMtime
  {
    var a, b := RecordAll(m, PushJobs(items), log), RecordAll(m, PushJobs(out), movedLog);
    forall p ensures BaseLocal(a, p) == BaseLocal(b, p) {
      CompleteRunMatchesLocal(items, local, m, items, log, p);
      CompleteRunMatchesLocal(items, local, m, out, movedLog, p);
    }
    forall p ensures p in a <==> p in b {
      assert BaseLocal(a, p) == BaseLocal(b, p);
    }
    forall p | p in a ensures a[p].size == b[p].size && a[p].localMtime == b[p].localMtime {
      assert BaseLocal(a, p) == BaseLocal(b, p);
    }
  }
}
