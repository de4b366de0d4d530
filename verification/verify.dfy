/** Verify: presence and size on both sides. */
module Verifying {
  import opened Types
  import opened Planning

  datatype VerifyResult = VerifyResult(ok: nat, missingRemote: nat, missingLocal: nat, sizeDiff: nat)

  function Issues(r: VerifyResult): nat {
    r.missingRemote + r.missingLocal + r.sizeDiff
  }

  /** Both sides hold the same paths, each at one size. */
  predicate SameFiles(local: map<Rel, LocalFile>, idx: map<Rel, IndexEntry>) {
    local.Keys == idx.Keys && forall p :: p in local ==> local[p].size == idx[p].size
  }

  function MissingRemote(local: map<Rel, LocalFile>, idx: map<Rel, IndexEntry>, seen: set<Rel>): set<Rel>
    requires seen <= local.Keys
  {
    set p | p in seen && p !in idx
  }

  function SizeDiff(local: map<Rel, LocalFile>, idx: map<Rel, IndexEntry>, seen: set<Rel>): set<Rel>
    requires seen <= local.Keys
  {
    set p | p in seen && p in idx && local[p].size != idx[p].size
  }

  function SameSize(local: map<Rel, LocalFile>, idx: map<Rel, IndexEntry>, seen: set<Rel>): set<Rel>
    requires seen <= local.Keys
  {
    set p | p in seen && p in idx && local[p].size == idx[p].size
  }

  function MissingLocal(local: map<Rel, LocalFile>, idx: map<Rel, IndexEntry>, seen: set<Rel>): set<Rel> {
    set p | p in seen && p !in local
  }

  /** Every file of the union of both trees is counted once, in the counter that describes it. */
  method Verify(local: seq<LocalFile>, idx: map<Rel, IndexEntry>) returns (res: VerifyResult)
    requires UniqueWalk(local)
    ensures var l := IndexOf(local);
            && res.missingRemote == |MissingRemote(l, idx, l.Keys)|
            && res.missingLocal == |MissingLocal(l, idx, idx.Keys)|
            && res.sizeDiff == |SizeDiff(l, idx, l.Keys)|
            && res.ok == |SameSize(l, idx, l.Keys)|
            && res.ok + Issues(res) == |l.Keys + idx.Keys|
            && (res.missingRemote == 0 <==> l.Keys <= idx.Keys) && (res.missingLocal == 0 <==> idx.Keys <= l.Keys)
            && (res.sizeDiff == 0 <==> forall p :: p in l && p in idx ==> l[p].size == idx[p].size)
            && (Issues(res) == 0 <==> SameFiles(l, idx))
  {
    var localIdx := IndexLocal(local);
    var same, missing, different := CompareLocal(local, localIdx, idx);
    var absent := CountAbsent(localIdx, idx);
    res := VerifyResult(same, missing, absent, different);
    NoIssues(localIdx, idx);
    NoneOfAKind(localIdx, idx);
    AllCounted(localIdx, idx);
  }

  lemma NoneOfAKind(local: map<Rel, LocalFile>, idx: map<Rel, IndexEntry>)
    ensures MissingRemote(local, idx, local.Keys) == {} <==> local.Keys <= idx.Keys
    ensures MissingLocal(local, idx, idx.Keys) == {} <==> idx.Keys <= local.Keys
    ensures SizeDiff(local, idx, local.Keys) == {} <==> forall p :: p in local && p in idx ==> local[p].size == idx[p].size
  {
    assert forall p :: p in MissingRemote(local, idx, local.Keys) <==> p in local.Keys && p !in idx.Keys;
    assert forall p :: p in MissingLocal(local, idx, idx.Keys) <==> p in idx.Keys && p !in local.Keys;
    assert forall p :: p in SizeDiff(local, idx, local.Keys) <==> p in local && p in idx && local[p].size != idx[p].size;
  }

  /** Every path of either tree is of one kind. */
  lemma AllCounted(local: map<Rel, LocalFile>, idx: map<Rel, IndexEntry>)
    ensures |SameSize(local, idx, local.Keys)| + |MissingRemote(local, idx, local.Keys)| + |SizeDiff(local, idx, local.Keys)|
            + |MissingLocal(local, idx, idx.Keys)| == |local.Keys + idx.Keys|
  {
    var (same, missing, different, absent) := (SameSize(local, idx, local.Keys), MissingRemote(local, idx, local.Keys),
                                               SizeDiff(local, idx, local.Keys), MissingLocal(local, idx, idx.Keys));
    forall p ensures p in local.Keys <==> p in same || p in missing || p in different { }
    ThreeParts(same, missing, different, local.Keys);
    forall p ensures p in local.Keys + idx.Keys <==> p in local.Keys || p in absent { }
    ThreeParts(local.Keys, absent, {}, local.Keys + idx.Keys);
  }

  lemma ThreeParts(a: set<Rel>, b: set<Rel>, c: set<Rel>, all: set<Rel>)
    requires a !! b && a !! c && b !! c && forall p :: p in all <==> p in a || p in b || p in c
    ensures |all| == |a| + |b| + |c|
  {
    assert all == (a + b) + c;
  }

  /** Counting a subset one path at a time. */
  lemma OneMoreCounted(before: set<Rel>, after: set<Rel>, p: Rel, counted: bool)
    requires p !in before
    requires forall q :: q in after <==> q in before || (q == p && counted)
    ensures |after| == |before| + (if counted then 1 else 0)
  {
    assert after == before + (if counted then {p} else {});
  }

  lemma OneMore(local: map<Rel, LocalFile>, idx: map<Rel, IndexEntry>, seen: set<Rel>, p: Rel)
    requires seen <= local.Keys && p in local && p !in seen
    ensures |MissingRemote(local, idx, seen + {p})| == |MissingRemote(local, idx, seen)| + (if p !in idx then 1 else 0)
    ensures |SizeDiff(local, idx, seen + {p})| == |SizeDiff(local, idx, seen)| + (if p in idx && local[p].size != idx[p].size then 1 else 0)
    ensures |SameSize(local, idx, seen + {p})| == |SameSize(local, idx, seen)| + (if p in idx && local[p].size == idx[p].size then 1 else 0)
  {
    OneMoreCounted(MissingRemote(local, idx, seen), MissingRemote(local, idx, seen + {p}), p, p !in idx);
    OneMoreCounted(SizeDiff(local, idx, seen), SizeDiff(local, idx, seen + {p}), p, p in idx && local[p].size != idx[p].size);
    OneMoreCounted(SameSize(local, idx, seen), SameSize(local, idx, seen + {p}), p, p in idx && local[p].size == idx[p].size);
  }

  /** The next file of a walk is a new path, and the index of the whole walk has it. */
  lemma NextFile(local: seq<LocalFile>, i: nat)
    requires UniqueWalk(local) && i < |local|
    ensures local[i].rel !in IndexOf(local[..i]) && IndexOf(local[..i + 1]).Keys == IndexOf(local[..i]).Keys + {local[i].rel}
    ensures local[i].rel in IndexOf(local) && IndexOf(local)[local[i].rel] == local[i]
  {
    IndexOfKeys(local[..i]);
    IndexOfKeys(local);
    assert local[..i + 1][..i] == local[..i];
  }

  method CompareLocal(local: seq<LocalFile>, localIdx: map<Rel, LocalFile>, idx: map<Rel, IndexEntry>)
    returns (same: nat, missing: nat, different: nat)
    requires UniqueWalk(local) && localIdx == IndexOf(local)
    ensures missing == |MissingRemote(localIdx, idx, localIdx.Keys)|
    ensures different == |SizeDiff(localIdx, idx, localIdx.Keys)|
    ensures same == |SameSize(localIdx, idx, localIdx.Keys)|
  {
    same, missing, different := 0, 0, 0;
    ghost var seen: set<Rel> := {};
    for i := 0 to |local|
      invariant seen == IndexOf(local[..i]).Keys && seen <= localIdx.Keys
      invariant missing == |MissingRemote(localIdx, idx, seen)|
      invariant different == |SizeDiff(localIdx, idx, seen)|
      invariant same == |SameSize(localIdx, idx, seen)|
    {
      var f := local[i];
      NextFile(local, i);
      OneMore(localIdx, idx, seen, f.rel);
      seen := seen + {f.rel};
      if f.rel !in idx {
        missing := missing + 1;
      } else if idx[f.rel].size != f.size {
        different := different + 1;
      } else {
        same := same + 1;
      }
    }
    assert local[..|local|] == local;
  }

  method CountAbsent(localIdx: map<Rel, LocalFile>, idx: map<Rel, IndexEntry>) returns (absent: nat)
    ensures absent == |MissingLocal(localIdx, idx, idx.Keys)|
  {
    absent := 0;
    var todo := idx.Keys;
    while todo != {}
      invariant todo <= idx.Keys
      invariant absent == |MissingLocal(localIdx, idx, idx.Keys - todo)|
      decreases |todo|
    {
      var rel :| rel in todo;
      assert idx.Keys - (todo - {rel}) == idx.Keys - todo + {rel};
      assert MissingLocal(localIdx, idx, idx.Keys - todo + {rel}) ==
             MissingLocal(localIdx, idx, idx.Keys - todo) + (if rel !in localIdx then {rel} else {});
      todo := todo - {rel};
      if rel !in localIdx {
        absent := absent + 1;
      }
    }
    assert idx.Keys - todo == idx.Keys;
  }

  lemma NoIssues(local: map<Rel, LocalFile>, idx: map<Rel, IndexEntry>)
    ensures (MissingRemote(local, idx, local.Keys) == {} && MissingLocal(local, idx, idx.Keys) == {}
             && SizeDiff(local, idx, local.Keys) == {}) <==> SameFiles(local, idx)
  {
    if MissingRemote(local, idx, local.Keys) == {} && MissingLocal(local, idx, idx.Keys) == {} && SizeDiff(local, idx, local.Keys) == {} {
      forall p ensures (p in local <==> p in idx) && (p in local && p in idx ==> local[p].size == idx[p].size) {
        assert p !in MissingRemote(local, idx, local.Keys) && p !in MissingLocal(local, idx, idx.Keys);
        assert p !in SizeDiff(local, idx, local.Keys);
      }
      assert local.Keys == idx.Keys;
    }
  }
}
