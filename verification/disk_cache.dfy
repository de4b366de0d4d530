/** The disk cache: file bodies by id and mtime, and the least recently used dropped when the budget is short. */
module DiskCaching {
  import opened Types
  import opened Decimals
  import opened Ordering
  import opened Texts

  /** A stored body and when it was last used, in seconds. */
  datatype Body = Body(data: Bytes, used: int)

  type Dir = map<string, Body>

  /** The file name of a body. */
  function Name(id: int, mtime: int): string {
    Decimal(id) + "_" + Decimal(mtime)
  }

  lemma SameFront(a: string, b: string, x: string, y: string)
    requires '_' !in a && '_' !in b && a + "_" + x == b + "_" + y
    ensures a == b && x == y
  {
    UntilAfter(a, '_', x);
    UntilAfter(b, '_', y);
    var s := a + ['_'] + x;
    assert s == b + ['_'] + y;
    assert a == s[..|a|] && b == s[..|b|];
    assert x == s[|a| + 1..] && y == s[|b| + 1..];
  }

  /** No two files, and no two versions of a file, share a name. */
  lemma NameIsInjective(id: int, mtime: int, id': int, mtime': int)
    requires Name(id, mtime) == Name(id', mtime')
    ensures id == id' && mtime == mtime'
  {
    ParsePrinted(id);
    ParsePrinted(id');
    SameFront(Decimal(id), Decimal(id'), Decimal(mtime), Decimal(mtime'));
    DecimalIsInjective(id, id');
    DecimalIsInjective(mtime, mtime');
  }

  // ---- Sizes ----

  ghost function Total(d: Dir): nat {
    if d == map[] then 0
    else
      var k :| k in d;
      |d[k].data| + Total(d - {k})
  }

  lemma {:induction false} TotalWithout(d: Dir, k: string)
    requires k in d
    ensures Total(d) == |d[k].data| + Total(d - {k})
  {
    var first :| first in d && Total(d) == |d[first].data| + Total(d - {first});
    if first != k {
      TotalWithout(d - {first}, k);
      TotalWithout(d - {k}, first);
      assert (d - {first}) - {k} == (d - {k}) - {first};
    }
  }

  lemma TotalWith(d: Dir, k: string, b: Body)
    requires k !in d
    ensures Total(d[k := b]) == Total(d) + |b.data|
  {
    TotalWithout(d[k := b], k);
    assert d[k := b] - {k} == d;
  }

  lemma TotalTouched(d: Dir, k: string, now: int)
    requires k in d
    ensures Total(d[k := d[k].(used := now)]) == Total(d)
  {
    TotalWithout(d, k);
    TotalWithout(d[k := d[k].(used := now)], k);
    assert d[k := d[k].(used := now)] - {k} == d - {k};
  }

  // ---- Eviction ----

  predicate Kept(before: Dir, after: Dir) {
    forall k :: k in after ==> k in before && after[k] == before[k]
  }

  predicate Gone(before: Dir, after: Dir, k: string) {
    k in before && k !in after
  }

  /** The eviction of a minimal prefix of the last-use order, but for the files in `stuck`, whose removal failed: what
      goes, or was to go, was used no later than what stays; it goes only if room is needed, as far as it is, and no
      further: without the last one gone there was not room yet. */
  ghost predicate Evicted(before: Dir, after: Dir, need: nat, maxB: nat, stuck: set<string>) {
    && Kept(before, after) && stuck <= after.Keys
    && (forall r, k :: (Gone(before, after, r) || r in stuck) && k in after && k !in stuck ==> before[r].used <= before[k].used)
    && (after.Keys != stuck ==> Total(after) + need <= maxB)
    && (stuck != {} ==> Total(before) + need > maxB)
    && (after == before || exists last :: IsLast(before, after, need, maxB, last))
  }

  ghost predicate IsLast(before: Dir, after: Dir, need: nat, maxB: nat, last: string) {
    && Gone(before, after, last)
    && (forall r :: Gone(before, after, r) ==> before[r].used <= before[last].used)
    && Total(after) + |before[last].data| + need > maxB
  }

  datatype Listed = Listed(name: string, size: nat, used: int)

  /** The directory's files, each once. */
  ghost predicate Lists(items: seq<Listed>, d: Dir) {
    && (forall i :: 0 <= i < |items| ==> items[i].name in d && items[i] == ItemOf(d, items[i].name))
    && (forall i, j :: 0 <= i < j < |items| ==> items[i].name != items[j].name)
    && (forall k :: k in d ==> ItemOf(d, k) in items)
  }

  /** All files but those in `todo` are listed. */
  ghost predicate ListedSoFar(items: seq<Listed>, d: Dir, todo: Dir) {
    && Kept(d, todo)
    && (forall i :: 0 <= i < |items| ==> items[i].name in d && items[i].name !in todo && items[i] == ItemOf(d, items[i].name))
    && (forall i, j :: 0 <= i < j < |items| ==> items[i].name != items[j].name)
    && (forall k :: k in d && k !in todo ==> ItemOf(d, k) in items)
  }

  lemma OneMoreListed(items: seq<Listed>, d: Dir, todo: Dir, k: string)
    requires ListedSoFar(items, d, todo) && k in todo
    ensures ListedSoFar(items + [ItemOf(todo, k)], d, todo - {k})
    ensures (todo - {k}).Keys == todo.Keys - {k}
  {
    assert forall x :: x in items + [ItemOf(todo, k)] <==> x in items || x == ItemOf(todo, k);
  }

  function ItemOf(d: Dir, k: string): Listed
    requires k in d
  {
    Listed(k, |d[k].data|, d[k].used)
  }

  predicate ByUse(items: seq<Listed>) {
    forall i, j :: 0 <= i < j < |items| ==> items[i].used <= items[j].used
  }

  /** Sorts by last use; files used in the same second may come in any order. */
  method SortByUse(items: seq<Listed>) returns (sorted: seq<Listed>)
    ensures ByUse(sorted) && multiset(sorted) == multiset(items)
  {
    sorted := [];
    for n := 0 to |items|
      invariant ByUse(sorted) && multiset(sorted) == multiset(items[..n])
    {
      assert items[..n + 1] == items[..n] + [items[n]];
      sorted := InsertByUse(sorted, items[n]);
    }
    assert items[..|items|] == items;
  }

  method InsertByUse(sorted: seq<Listed>, x: Listed) returns (r: seq<Listed>)
    requires ByUse(sorted)
    ensures ByUse(r) && multiset(r) == multiset(sorted) + multiset{x}
  {
    var i := |sorted|;
    while i > 0 && sorted[i - 1].used > x.used
      invariant 0 <= i <= |sorted|
      invariant forall j :: i <= j < |sorted| ==> x.used <= sorted[j].used
    {
      i := i - 1;
    }
    PutIn(sorted, i, x);
    r := sorted[..i] + [x] + sorted[i..];
  }

  lemma PutIn(items: seq<Listed>, i: nat, x: Listed)
    requires ByUse(items) && i <= |items| && (i > 0 ==> items[i - 1].used <= x.used)
    requires forall j :: i <= j < |items| ==> x.used <= items[j].used
    ensures ByUse(items[..i] + [x] + items[i..])
    ensures multiset(items[..i] + [x] + items[i..]) == multiset(items) + multiset{x}
  {
    SameWithOneMore(items, i, x);
    SortedWithOneMore(items, i, x);
  }

  lemma SortedWithOneMore(items: seq<Listed>, i: nat, x: Listed)
    requires ByUse(items) && i <= |items| && (i > 0 ==> items[i - 1].used <= x.used)
    requires forall j :: i <= j < |items| ==> x.used <= items[j].used
    ensures ByUse(items[..i] + [x] + items[i..])
  {
    var r := items[..i] + [x] + items[i..];
    forall j, k | 0 <= j < k < |r| ensures r[j].used <= r[k].used {
      assert r[j] == if j < i then items[j] else if j == i then x else items[j - 1];
      assert r[k] == if k < i then items[k] else if k == i then x else items[k - 1];
    }
  }

  lemma SameWithOneMore(items: seq<Listed>, i: nat, x: Listed)
    requires i <= |items|
    ensures multiset(items[..i] + [x] + items[i..]) == multiset(items) + multiset{x}
  {
    assert items == items[..i] + items[i..];
  }

  lemma SortedLists(items: seq<Listed>, sorted: seq<Listed>, d: Dir)
    requires Lists(items, d) && multiset(sorted) == multiset(items)
    ensures Lists(sorted, d)
  {
    forall x ensures x in sorted <==> x in items {
      assert x in sorted <==> x in multiset(sorted);
      assert x in items <==> x in multiset(items);
    }
    forall i | 0 <= i < |sorted| ensures sorted[i].name in d && sorted[i] == ItemOf(d, sorted[i].name) {
      assert sorted[i] in items;
    }
    forall i, j | 0 <= i < j < |sorted| ensures sorted[i].name != sorted[j].name {
      if sorted[i].name == sorted[j].name {
        CountTwice(sorted, i, j);
        CountOnce(items, sorted[i]);
      }
    }
  }

  /** The files left when the first `n` of the list are gone, but for those in `stuck`; the last to go was at `last`. */
  ghost predicate LeftAfter(before: Dir, after: Dir, items: seq<Listed>, n: nat, stuck: set<string>, last: int) {
    && n <= |items| && Kept(before, after) && stuck <= after.Keys && -1 <= last < n
    && (forall i :: 0 <= i < |items| ==> (items[i].name in after <==> n <= i || items[i].name in stuck))
    && (forall i :: n <= i < |items| ==> items[i].name !in stuck)
    && (last >= 0 ==> items[last].name !in stuck)
    && forall i :: last < i < n ==> items[i].name in stuck
  }

  lemma OneMoreGone(before: Dir, after: Dir, items: seq<Listed>, n: nat, stuck: set<string>, last: int)
    requires Lists(items, before) && LeftAfter(before, after, items, n, stuck, last) && n < |items|
    ensures items[n].name in after && LeftAfter(before, after - {items[n].name}, items, n + 1, stuck, n)
    ensures Total(after) == items[n].size + Total(after - {items[n].name})
  {
    NextIsThere(before, after, items, n, stuck, last);
    LessByOne(before, after, items[n].name);
    OneMoreLeft(before, after, items, n, stuck, last);
  }

  lemma NextIsThere(before: Dir, after: Dir, items: seq<Listed>, n: nat, stuck: set<string>, last: int)
    requires Lists(items, before) && LeftAfter(before, after, items, n, stuck, last) && n < |items|
    ensures items[n].name in after && items[n].name in before && items[n] == ItemOf(before, items[n].name)
  {
  }

  lemma OneMoreLeft(before: Dir, after: Dir, items: seq<Listed>, n: nat, stuck: set<string>, last: int)
    requires Lists(items, before) && LeftAfter(before, after, items, n, stuck, last) && n < |items|
    ensures LeftAfter(before, after - {items[n].name}, items, n + 1, stuck, n)
  {
  }

  lemma LessByOne(before: Dir, after: Dir, name: string)
    requires Kept(before, after) && name in after
    ensures Total(after) == ItemOf(before, name).size + Total(after - {name})
  {
    TotalWithout(after, name);
  }

  lemma OneMoreStuck(before: Dir, after: Dir, items: seq<Listed>, n: nat, stuck: set<string>, last: int)
    requires Lists(items, before) && LeftAfter(before, after, items, n, stuck, last) && n < |items|
    ensures items[n].name !in stuck && LeftAfter(before, after, items, n + 1, stuck + {items[n].name}, last)
  {
  }

  lemma PrefixIsEvicted(before: Dir, after: Dir, items: seq<Listed>, n: nat, stuck: set<string>, last: int, need: nat, maxB: nat)
    requires Lists(items, before) && ByUse(items) && LeftAfter(before, after, items, n, stuck, last)
    requires n < |items| ==> Total(after) + need <= maxB
    requires last >= 0 ==> Total(after) + items[last].size + need > maxB
    requires stuck != {} ==> Total(before) + need > maxB
    ensures Evicted(before, after, need, maxB, stuck)
  {
    OldestGone(before, after, items, n, stuck, last);
    if last >= 0 {
      LastGone(before, after, items, n, stuck, last);
      assert IsLast(before, after, need, maxB, items[last].name);
    } else {
      NothingGone(before, after, items, n, stuck);
    }
  }

  lemma LastGone(before: Dir, after: Dir, items: seq<Listed>, n: nat, stuck: set<string>, last: nat)
    requires Lists(items, before) && ByUse(items) && LeftAfter(before, after, items, n, stuck, last)
    ensures var name := items[last].name;
            && Gone(before, after, name) && |before[name].data| == items[last].size && before[name].used == items[last].used
            && forall r :: Gone(before, after, r) ==> before[r].used <= items[last].used
  {
    forall r | Gone(before, after, r) ensures before[r].used <= items[last].used {
      var i := PlaceIn(before, after, items, n, stuck, last, r);
    }
  }

  lemma NothingGone(before: Dir, after: Dir, items: seq<Listed>, n: nat, stuck: set<string>)
    requires Lists(items, before) && LeftAfter(before, after, items, n, stuck, -1)
    ensures after == before
  {
    forall k | k in before ensures k in after {
      var i := PlaceIn(before, after, items, n, stuck, -1, k);
    }
  }

  /** What a prefix of the list leaves out. */
  lemma OldestGone(before: Dir, after: Dir, items: seq<Listed>, n: nat, stuck: set<string>, last: int)
    requires Lists(items, before) && ByUse(items) && LeftAfter(before, after, items, n, stuck, last)
    ensures forall r, k :: (Gone(before, after, r) || r in stuck) && k in after && k !in stuck ==> before[r].used <= before[k].used
    ensures n == |items| ==> after.Keys == stuck
  {
    forall r, k | (Gone(before, after, r) || r in stuck) && k in after && k !in stuck ensures before[r].used <= before[k].used {
      var i := PlaceIn(before, after, items, n, stuck, last, r);
      var j := PlaceIn(before, after, items, n, stuck, last, k);
    }
    if n == |items| {
      forall k | k in after ensures k in stuck {
        var i := PlaceIn(before, after, items, n, stuck, last, k);
      }
    }
  }

  ghost predicate PlaceOf(before: Dir, after: Dir, items: seq<Listed>, n: nat, stuck: set<string>, k: string, i: nat) {
    i < |items| && k in before && items[i] == ItemOf(before, k) && (k in after <==> n <= i || k in stuck) && (k in stuck ==> i < n)
  }

  lemma PlaceIn(before: Dir, after: Dir, items: seq<Listed>, n: nat, stuck: set<string>, last: int, k: string) returns (i: nat)
    requires Lists(items, before) && LeftAfter(before, after, items, n, stuck, last) && k in before
    ensures PlaceOf(before, after, items, n, stuck, k, i) && (i < n && k !in stuck ==> i <= last)
  {
    assert ItemOf(before, k) in items;
    i :| i < |items| && items[i] == ItemOf(before, k);
    assert items[i].name == k;
  }

  // ---- The cache ----

  /** A call, what the download would yield, and the clock. */
  datatype Request = Request(id: int, mtime: int, size: nat, download: Option<Bytes>, now: int)

  /** What went wrong in a call: the files whose removal failed, and whether anything else did. */
  datatype Faults = Faults(stuck: set<string>, others: bool)

  const NO_FAULTS := Faults({}, false)

  /** What one call does: a hit is touched; a miss makes room and stores the download, if there is one. */
  ghost predicate IsOpen(maxB: nat, before: Dir, r: Request, after: Dir, result: Option<Bytes>, f: Faults) {
    || IsHit(before, r, after, result, f)
    || ((NameOf(r) in before ==> f.others) && exists mid :: Evicted(before, mid, r.size, maxB, f.stuck) && Stores(mid, r, after, result, f))
    || (f == Faults({}, true) && after == before && result == None)
  }

  predicate IsHit(before: Dir, r: Request, after: Dir, result: Option<Bytes>, f: Faults) {
    && NameOf(r) in before && result == Some(before[NameOf(r)].data) && f.stuck == {}
    && after == (if f.others then before else before[NameOf(r) := before[NameOf(r)].(used := r.now)])
  }

  function With(mid: Dir, r: Request): Dir {
    if r.download.None? then mid else mid[NameOf(r) := Body(r.download.value, r.now)]
  }

  /** A file that cannot be created or renamed is as good as none; one that then cannot be opened is stored. */
  predicate Stores(mid: Dir, r: Request, after: Dir, result: Option<Bytes>, f: Faults) {
    || (result == r.download && after == With(mid, r))
    || (f.others && result == None && (after == mid || after == With(mid, r)))
  }

  function NameOf(r: Request): string {
    Name(r.id, r.mtime)
  }

  class DiskCache {
    const maxB: nat
    var dir: Dir
    /** How often a call to the file system failed. */
    var faults: nat

    constructor (maxB: nat)
      ensures this.maxB == maxB && dir == map[] && faults == 0
    {
      this.maxB, dir, faults := maxB, map[], 0;
    }

    method List() returns (items: seq<Listed>, total: nat)
      ensures Lists(items, dir) && total == Total(dir)
    {
      items, total := [], 0;
      var todo := dir;
      while todo != map[]
        invariant ListedSoFar(items, dir, todo) && total + Total(todo) == Total(dir)
        decreases |todo.Keys|
      {
        var k :| k in todo;
        TotalWithout(todo, k);
        OneMoreListed(items, dir, todo, k);
        items, total := items + [Listed(k, |todo[k].data|, todo[k].used)], total + |todo[k].data|;
        todo := todo - {k};
      }
    }

    /** Makes room as far as it can. It fails only if the directory cannot be listed. */
    method EvictIfNeeded(need: nat) returns (ok: bool, ghost stuck: set<string>)
      modifies this
      ensures if ok then Evicted(old(dir), dir, need, maxB, stuck) else stuck == {} && dir == old(dir)
      ensures faults == old(faults) + |stuck| + (if ok then 0 else 1)
    {
      stuck := {};
      if * {
        faults := faults + 1;
        return false, stuck;
      }
      ok := true;
      var items, total := List();
      if total + need <= maxB {
        return;
      }
      var sorted := SortByUse(items);
      SortedLists(items, sorted, dir);
      stuck := RemoveOldest(sorted, total, need);
    }

    method Remove(name: string) returns (ok: bool)
      modifies this
      ensures dir == (if ok then old(dir) - {name} else old(dir)) && faults == old(faults) + (if ok then 0 else 1)
    {
      if * {
        faults := faults + 1;
        return false;
      }
      dir := dir - {name};
      ok := true;
    }

    /** Removes files in their order until there is room; one that cannot be removed is passed over. */
    method RemoveOldest(sorted: seq<Listed>, size: nat, need: nat) returns (ghost stuck: set<string>)
      requires Lists(sorted, dir) && ByUse(sorted) && size == Total(dir) && size + need > maxB
      modifies this
      ensures Evicted(old(dir), dir, need, maxB, stuck) && faults == old(faults) + |stuck|
    {
      var total, n := size, 0;
      ghost var last, before := -1, dir;
      stuck := {};
      while n < |sorted| && total + need > maxB
        invariant 0 <= n <= |sorted| && total == Total(dir) && faults == old(faults) + |stuck|
        invariant LeftAfter(before, dir, sorted, n, stuck, last)
        invariant last >= 0 ==> total + sorted[last].size + need > maxB
      {
        OneMoreGone(before, dir, sorted, n, stuck, last);
        OneMoreStuck(before, dir, sorted, n, stuck, last);
        var ok := Remove(sorted[n].name);
        if ok {
          total, last := total - sorted[n].size, n;
        } else {
          stuck := stuck + {sorted[n].name};
        }
        n := n + 1;
      }
      PrefixIsEvicted(before, dir, sorted, n, stuck, last, need, maxB);
    }

    /** `f` says what went wrong on the way; without it the call is a plain hit or miss. */
    method Open(id: int, mtime: int, size: nat, download: Option<Bytes>, now: int) returns (result: Option<Bytes>, ghost f: Faults)
      modifies this
      ensures IsOpen(maxB, old(dir), Request(id, mtime, size, download, now), dir, result, f)
      ensures f == NO_FAULTS <==> faults == old(faults)
    {
      var p := Name(id, mtime);
      f := NO_FAULTS;
      var opens: bool := *;
      if p in dir && opens {
        var touched: bool := *;
        if touched {
          dir := dir[p := dir[p].(used := now)];
        } else {
          faults, f := faults + 1, f.(others := true);
        }
        return Some(dir[p].data), f;
      }
      if p in dir {
        faults, f := faults + 1, f.(others := true);
      }
      var ok;
      ok, f := MakeRoom(size, f);
      if !ok {
        return None, f;
      }
      result, f := Fetch(Request(id, mtime, size, download, now), f);
    }

    method MakeRoom(size: nat, ghost f: Faults) returns (ok: bool, ghost f': Faults)
      requires f.stuck == {}
      modifies this
      ensures if ok then f'.others == f.others && Evicted(old(dir), dir, size, maxB, f'.stuck) else f' == Faults({}, true) && dir == old(dir)
      ensures faults >= old(faults) && (if faults == old(faults) then f' == f else f' != NO_FAULTS) && (f.others ==> f'.others)
    {
      ghost var stuck;
      ok, stuck := EvictIfNeeded(size);
      f' := Faults(stuck, f.others || !ok);
    }

    /** The download, by way of a file of its own. */
    method Fetch(r: Request, ghost f: Faults) returns (result: Option<Bytes>, ghost f': Faults)
      modifies this
      ensures f'.stuck == f.stuck && (f.others ==> f'.others) && Stores(old(dir), r, dir, result, f')
      ensures faults >= old(faults) && (faults > old(faults) ==> f'.others) && (faults == old(faults) ==> f' == f)
    {
      f' := f;
      if * {
        faults, f' := faults + 1, f.(others := true);
        return None, f';
      }
      if r.download.None? {
        return None, f';
      }
      if * {
        faults, f' := faults + 1, f.(others := true);
        return None, f';
      }
      dir := dir[NameOf(r) := Body(r.download.value, r.now)];
      if * {
        faults, f' := faults + 1, f.(others := true);
        return None, f';
      }
      result := r.download;
    }
  }

  // ---- Main results ----

  /** What a call without a fault does to the directory: a hit only notes its use; a miss leaves the download there under
      the file's name, and nothing at all is dropped as long as it fits. */
  lemma OpenStores(maxB: nat, before: Dir, r: Request, after: Dir, result: Option<Bytes>)
    requires IsOpen(maxB, before, r, after, result, NO_FAULTS)
    ensures if NameOf(r) in before
            then result == Some(before[NameOf(r)].data) && after == before[NameOf(r) := Body(before[NameOf(r)].data, r.now)]
            else && result == r.download
                 && (result.Some? ==> NameOf(r) in after && after[NameOf(r)] == Body(result.value, r.now))
                 && (Total(before) + r.size <= maxB ==> forall k :: k in before ==> k in after && after[k] == before[k])
  {
    if NameOf(r) !in before {
      var mid :| Evicted(before, mid, r.size, maxB, {}) && Stores(mid, r, after, result, NO_FAULTS);
      MissStores(maxB, before, mid, r, after, result);
    } else {
      HitTouches(before, r, after, result);
    }
  }

  lemma HitTouches(before: Dir, r: Request, after: Dir, result: Option<Bytes>)
    requires IsHit(before, r, after, result, NO_FAULTS)
    ensures result == Some(before[NameOf(r)].data) && after == before[NameOf(r) := Body(before[NameOf(r)].data, r.now)]
  {
  }

  lemma MissStores(maxB: nat, before: Dir, mid: Dir, r: Request, after: Dir, result: Option<Bytes>)
    requires NameOf(r) !in before && Evicted(before, mid, r.size, maxB, {}) && Stores(mid, r, after, result, NO_FAULTS)
    ensures result == r.download && (result.Some? ==> NameOf(r) in after && after[NameOf(r)] == Body(result.value, r.now))
    ensures Total(before) + r.size <= maxB ==> forall k :: k in before ==> k in after && after[k] == before[k]
  {
    if Total(before) + r.size <= maxB {
      AllFits(maxB, before, mid, r.size);
    }
  }

  lemma AllFits(maxB: nat, before: Dir, mid: Dir, need: nat)
    requires Evicted(before, mid, need, maxB, {}) && Total(before) + need <= maxB
    ensures mid == before
  {
    if mid != before {
      var last :| IsLast(before, mid, need, maxB, last);
      PartFits(before, mid, last);
    }
  }

  /** Less was there, with what went last, than in the beginning. */
  lemma PartFits(before: Dir, mid: Dir, last: string)
    requires Kept(before, mid) && Gone(before, mid, last)
    ensures Total(mid) + |before[last].data| <= Total(before)
  {
    var keys := mid.Keys + {last};
    assert Only(before, keys) == mid[last := before[last]];
    PartIsLess(before, keys);
    TotalWith(mid, last, before[last]);
  }

  function Only(d: Dir, keys: set<string>): Dir {
    map k | k in d && k in keys :: d[k]
  }

  lemma {:induction false} PartIsLess(d: Dir, keys: set<string>)
    ensures Total(Only(d, keys)) <= Total(d)
    decreases |d.Keys|
  {
    if k :| k in d {
      assert (d - {k}).Keys == d.Keys - {k};
      PartIsLess(d - {k}, keys);
      TotalWithout(d, k);
      assert Only(d - {k}, keys) == Only(d, keys) - {k};
      if k in keys {
        TotalWithout(Only(d, keys), k);
      } else {
        assert Only(d, keys) - {k} == Only(d, keys);
      }
    }
  }

  /** There is room after an eviction exactly if there would be with nothing left but what could not be removed. */
  lemma RoomIff(before: Dir, mid: Dir, need: nat, maxB: nat, stuck: set<string>)
    requires Evicted(before, mid, need, maxB, stuck)
    ensures Total(mid) + need <= maxB <==> Total(Only(before, stuck)) + need <= maxB
  {
    assert Only(before, stuck) == Only(mid, stuck);
    PartIsLess(mid, stuck);
    if mid.Keys == stuck {
      assert Only(mid, stuck) == mid;
    }
  }

  /** The budget holds after a call that stores what it said it would exactly if that fits beside the files that could
      not be removed: if no removal failed, if it is no more than the budget. */
  lemma BudgetKeptIff(maxB: nat, before: Dir, r: Request, after: Dir, result: Option<Bytes>, f: Faults)
    requires IsOpen(maxB, before, r, after, result, f)
    requires NameOf(r) !in before && result.Some? && |result.value| == r.size
    ensures Total(after) <= maxB <==> Total(Only(before, f.stuck)) + r.size <= maxB
  {
    var mid :| Evicted(before, mid, r.size, maxB, f.stuck) && Stores(mid, r, after, result, f);
    TotalWith(mid, NameOf(r), Body(result.value, r.now));
    RoomIff(before, mid, r.size, maxB, f.stuck);
  }

  lemma TotalReplaced(d: Dir, k: string, b: Body)
    ensures Total(d[k := b]) <= Total(d) + |b.data|
  {
    TotalWithout(d[k := b], k);
    assert d[k := b] - {k} == d - {k};
    if k in d {
      TotalWithout(d, k);
    } else {
      assert d - {k} == d;
    }
  }

  lemma BudgetKept(maxB: nat, before: Dir, r: Request, after: Dir, result: Option<Bytes>, f: Faults)
    requires IsOpen(maxB, before, r, after, result, f) && f.stuck == {} && Total(before) <= maxB
    requires r.size <= maxB && (r.download.Some? ==> |r.download.value| == r.size)
    ensures Total(after) <= maxB
  {
    if IsHit(before, r, after, result, f) {
      TotalTouched(before, NameOf(r), r.now);
    } else if !(f == Faults({}, true) && after == before && result == None) {
      var mid :| Evicted(before, mid, r.size, maxB, f.stuck) && Stores(mid, r, after, result, f);
      StoredKeepsBudget(maxB, mid, r, after, result, f);
    }
  }

  lemma StoredKeepsBudget(maxB: nat, mid: Dir, r: Request, after: Dir, result: Option<Bytes>, f: Faults)
    requires Stores(mid, r, after, result, f) && (mid.Keys != {} ==> Total(mid) + r.size <= maxB)
    requires r.size <= maxB && (r.download.Some? ==> |r.download.value| == r.size)
    ensures Total(after) <= maxB
  {
    if r.download.Some? {
      TotalReplaced(mid, NameOf(r), Body(r.download.value, r.now));
    }
    assert mid.Keys == {} ==> mid == map[];
  }

  ghost predicate IsRun(maxB: nat, dirs: seq<Dir>, rs: seq<Request>, results: seq<Option<Bytes>>, fs: seq<Faults>) {
    && |dirs| == |rs| + 1 && |results| == |fs| == |rs| && dirs[0] == map[]
    && forall i :: 0 <= i < |rs| ==> OpensAt(maxB, dirs, rs, results, fs, i)
  }

  ghost predicate OpensAt(maxB: nat, dirs: seq<Dir>, rs: seq<Request>, results: seq<Option<Bytes>>, fs: seq<Faults>, i: nat)
    requires i < |rs| && |dirs| == |rs| + 1 && |results| == |fs| == |rs|
  {
    IsOpen(maxB, dirs[i], rs[i], dirs[i + 1], results[i], fs[i])
  }

  /** From an empty directory on, the stored bytes never exceed the budget, whatever else fails as long as no removal
      does. */
  lemma {:induction false} NeverOverBudget(maxB: nat, dirs: seq<Dir>, rs: seq<Request>, results: seq<Option<Bytes>>, fs: seq<Faults>, n: nat)
    requires IsRun(maxB, dirs, rs, results, fs) && n <= |rs|
    requires forall i :: 0 <= i < |rs| ==>
               rs[i].size <= maxB && (rs[i].download.Some? ==> |rs[i].download.value| == rs[i].size) && fs[i].stuck == {}
    ensures Total(dirs[n]) <= maxB
  {
    if n > 0 {
      NeverOverBudget(maxB, dirs, rs, results, fs, n - 1);
      assert OpensAt(maxB, dirs, rs, results, fs, n - 1);
      BudgetKept(maxB, dirs[n - 1], rs[n - 1], dirs[n], results[n - 1], fs[n - 1]);
    }
  }

  /** A body changes only by a miss on its own name, or after a fault, and its last use by any call for it. */
  ghost predicate Touches(before: Dir, name: string, now: int, after: Dir, result: Option<Bytes>, f: Faults) {
    forall k :: k in after ==>
      if k != name then k in before && after[k] == before[k]
      else !f.others ==> result == Some(after[k].data) && after[k].used == now && (k in before ==> after[k].data == before[k].data)
  }

  lemma OpenTouches(maxB: nat, before: Dir, r: Request, after: Dir, result: Option<Bytes>, f: Faults)
    requires IsOpen(maxB, before, r, after, result, f)
    ensures Touches(before, NameOf(r), r.now, after, result, f)
  {
    if !IsHit(before, r, after, result, f) {
      if mid :| Evicted(before, mid, r.size, maxB, f.stuck) && Stores(mid, r, after, result, f) {
        assert Kept(before, mid);
      }
    }
  }

  ghost predicate TouchesAt(dirs: seq<Dir>, names: seq<string>, nows: seq<int>, results: seq<Option<Bytes>>, fs: seq<Faults>, x: nat) {
    && |dirs| == |names| + 1 && |nows| == |results| == |fs| == |names| && x < |names|
    && Touches(dirs[x], names[x], nows[x], dirs[x + 1], results[x], fs[x])
  }

  lemma {:induction false} HitStays(dirs: seq<Dir>, names: seq<string>, nows: seq<int>, results: seq<Option<Bytes>>, fs: seq<Faults>, i: nat, n: nat)
    requires i < n <= |names| && forall x: nat :: x < |names| ==> TouchesAt(dirs, names, nows, results, fs, x)
    requires |dirs| == |names| + 1 && |nows| == |results| == |fs| == |names|
    requires names[i] in dirs[n] && forall x :: i < x < n && names[x] == names[i] ==> names[i] in dirs[x]
    requires forall x :: i <= x < n && names[x] == names[i] ==> !fs[x].others
    ensures results[i] == Some(dirs[n][names[i]].data)
    ensures (forall x :: i < x < n ==> names[x] != names[i]) ==> dirs[n][names[i]].used == nows[i]
  {
    assert TouchesAt(dirs, names, nows, results, fs, n - 1);
    if i < n - 1 {
      HitStays(dirs, names, nows, results, fs, i, n - 1);
    }
  }

  /** A hit returns what was stored: if no call for the file in between missed or went wrong, a later hit on it answers
      as the earlier call did. And a file's recorded use is its last one. */
  lemma HitReturnsStored(maxB: nat, dirs: seq<Dir>, rs: seq<Request>, results: seq<Option<Bytes>>, fs: seq<Faults>, i: nat, n: nat)
    requires IsRun(maxB, dirs, rs, results, fs) && i < n <= |rs|
    requires NameOf(rs[i]) in dirs[n] && forall x :: i < x < n && SameFile(rs[x], rs[i]) ==> NameOf(rs[i]) in dirs[x]
    requires forall x :: i <= x < n && SameFile(rs[x], rs[i]) ==> !fs[x].others
    ensures results[i] == Some(dirs[n][NameOf(rs[i])].data)
    ensures (forall x :: i < x < n ==> !SameFile(rs[x], rs[i])) ==> dirs[n][NameOf(rs[i])].used == rs[i].now
  {
    var names, nows := Names(rs), Nows(rs);
    RunTouches(maxB, dirs, rs, results, fs);
    forall x | 0 <= x < |rs| ensures names[x] == names[i] <==> SameFile(rs[x], rs[i]) {
      SameNameIsSameFile(rs[x], rs[i]);
    }
    HitStays(dirs, names, nows, results, fs, i, n);
  }

  function Names(rs: seq<Request>): (names: seq<string>)
    ensures |names| == |rs| && forall x :: 0 <= x < |rs| ==> names[x] == NameOf(rs[x])
  {
    seq(|rs|, x requires 0 <= x < |rs| => NameOf(rs[x]))
  }

  function Nows(rs: seq<Request>): (nows: seq<int>)
    ensures |nows| == |rs| && forall x :: 0 <= x < |rs| ==> nows[x] == rs[x].now
  {
    seq(|rs|, x requires 0 <= x < |rs| => rs[x].now)
  }

  lemma RunTouches(maxB: nat, dirs: seq<Dir>, rs: seq<Request>, results: seq<Option<Bytes>>, fs: seq<Faults>)
    requires IsRun(maxB, dirs, rs, results, fs)
    ensures forall x: nat :: x < |rs| ==> TouchesAt(dirs, Names(rs), Nows(rs), results, fs, x)
  {
    forall x: nat | x < |rs| ensures TouchesAt(dirs, Names(rs), Nows(rs), results, fs, x) {
      assert OpensAt(maxB, dirs, rs, results, fs, x);
      OpenTouches(maxB, dirs[x], rs[x], dirs[x + 1], results[x], fs[x]);
    }
  }

  predicate SameFile(r: Request, s: Request) {
    r.id == s.id && r.mtime == s.mtime
  }

  lemma SameNameIsSameFile(r: Request, s: Request)
    ensures NameOf(r) == NameOf(s) <==> SameFile(r, s)
  {
    if NameOf(r) == NameOf(s) {
      NameIsInjective(r.id, r.mtime, s.id, s.mtime);
    }
  }
}
