/** Concrete pushes whose second attempt plans from a baseline that misleads it. */
module PushBaselineExamples {
  import opened Types
  import opened Paths
  import opened Pool
  import opened Worlds
  import opened Collecting
  import opened Planning
  import opened MovePlanning
  import opened TwoWay
  import opened PushTrace
  import opened PushWorld
  import opened PushCrash
  import opened PushRecovery
  import opened PushCrossing
  import opened PushRefresh

  // ---- A refreshed baseline ----

  const REFRESHING := Options(true, false, false, true)

  /** c was renamed to d. */
  const RENAMED := World(map["d" := LocalRec([1, 1], 5)], map["c" := RemoteRec(7, [1, 1], 9)], {7})
  const TRACKED: map<Rel, Entry> := map["c" := Entry(2, 5, 7, 9)]
  const UPLOAD_D := Item("d", Upload, 0, 2, 5, "")
  const DELETE_C := Item("c", Delete, 7, 0, 0, "")
  const MOVE_D := Item("d", Move, 7, 2, 5, "c")
  /** The move is carried out, and not recorded. */
  const MOVED := Attempt([UPLOAD_D, DELETE_C], [MOVE_D], [MOVE_CALL], [])

  function Refreshed(): map<Rel, Entry> {
    Baseline(REFRESHING, RENAMED, TRACKED)
  }

  lemma RenamedAt(p: Rel)
    ensures Lookup(WalkOf(RENAMED), p) == if p == "d" then Some(LocalFile(p, 2, 5)) else None
    ensures LocalMeta(WalkOf(RENAMED), p) == if p == "d" then Some(Meta(2, 5)) else None
    ensures Lookup(Refreshed(), p) == if p == "c" then Some(Entry(2, 5, 7, 9)) else None
    ensures BaseLocal(Refreshed(), p) == if p == "c" then Some(Meta(2, 5)) else None
  {
    SplitName("d");
    SeededEntry(RENAMED, TRACKED, p);
  }

  lemma RenamedItems()
    ensures IsPushPlan(MOVED.items, WalkOf(RENAMED), Refreshed())
  {
    forall p
      ensures LocalMeta(WalkOf(RENAMED), p) != BaseLocal(Refreshed(), p) ==> CopyOut(p, Lookup(WalkOf(RENAMED), p), Lookup(Refreshed(), p)) in MOVED.items
    {
      RenamedAt(p);
    }
    forall it | it in MOVED.items
      ensures LocalMeta(WalkOf(RENAMED), it.rel) != BaseLocal(Refreshed(), it.rel)
              && it == CopyOut(it.rel, Lookup(WalkOf(RENAMED), it.rel), Lookup(Refreshed(), it.rel))
    {
      RenamedAt(it.rel);
    }
  }

  lemma RenamedPair()
    ensures Paired(Refreshed(), UPLOAD_D, DELETE_C) && MoveOf(Refreshed(), UPLOAD_D, DELETE_C) == MOVE_D
    ensures UPLOAD_D in MOVED.items && DELETE_C in MOVED.items && Unambiguous(MOVED.items, Refreshed())
  {
    RenamedAt("c");
  }

  lemma RenamedIsPaired()
    ensures IsRewrite(MOVED.items, Refreshed(), MOVED.out) && Unambiguous(MOVED.items, Refreshed())
  {
    var (m, items) := (Refreshed(), MOVED.items);
    RenamedItems();
    RenamedPair();
    forall x ensures x in MOVED.out <==> IsKept(items, m, x) || IsMove(items, m, x) {
      MovesAre(items, m, x);
      KeptAre(items, m, x);
    }
  }

  lemma RenamedStarts()
    ensures StartsWith(REFRESHING, RENAMED, TRACKED, MOVED.items, MOVED.out) && !Crossed(MOVED.out)
  {
    RenamedItems();
    RenamedIsPaired();
    SplitName("c");
    SplitName("d");
    forall p | p in Refreshed() ensures p == "c" && Refreshed()[p].remoteID == 7 {
      RenamedAt(p);
    }
  }

  const MOVE_CALL := Call(Outcome(0, true, 0, 3))

  lemma MoveHappens()
    ensures CanHappen(RENAMED, MOVED.out, MOVE_CALL) && ContentAt(Next(RENAMED, MOVED.out, MOVE_CALL), "d") == Some([1, 1])
  {
    assert "c" in RENAMED.remote && RENAMED.remote["c"].id == 7;
    assert HasId(RENAMED, 7) && PathOf(RENAMED, 7) == "c" && DataOf(RENAMED, 7) == [1, 1];
    SplitName("c");
    SplitName("d");
  }

  lemma OneAnswer()
    ensures Outcomes([MOVE_CALL]) == [MOVE_CALL.o] && Succeeded([MOVE_CALL.o], 0)
  {
    assert [MOVE_CALL][..0] == [];
    assert [MOVE_CALL.o][0].k == 0;
  }

  lemma MovedOnce()
    ensures CompleteTrace(RENAMED, MOVED.out, MOVED.es)
    ensures ContentAt(WorldOf(RENAMED, MOVED.out, MOVED.es), "d") == Some([1, 1])
  {
    MoveHappens();
    TraceGrows(RENAMED, MOVED.out, [], MOVE_CALL);
    assert [] + [MOVE_CALL] == MOVED.es;
    OneAnswer();
  }

  /** The second attempt completes, and leaves nothing of the moved file. */
  lemma RefreshExample() returns (moved: World, again: Attempt, end: World)
    ensures StartsWith(REFRESHING, RENAMED, TRACKED, MOVED.items, MOVED.out) && !Crossed(MOVED.out)
    ensures Finished(REFRESHING, RENAMED, TRACKED, [RENAMED, moved, end], [TRACKED, TRACKED, TRACKED], [MOVED, again])
    ensures "d" in end.local && ContentAt(moved, "d") == Some([1, 1]) && ContentAt(end, "d") == None
  {
    RenamedStarts();
    MovedOnce();
    moved := WorldOf(RENAMED, MOVED.out, MOVED.es);
    OnceIsDone(REFRESHING, RENAMED, TRACKED, MOVED, MOVE_D);
    again := RefreshingRerun(REFRESHING, RENAMED, TRACKED, MOVED.items, MOVED.out, moved, MOVE_D);
    end := WorldOf(moved, again.out, again.es);
    UnrecordedAttempt(REFRESHING, RENAMED, TRACKED, MOVED);
    TwoAttempts(REFRESHING, RENAMED, TRACKED, MOVED, moved, again, end);
    SameLocal(moved, again, end);
  }

  lemma SameLocal(moved: World, again: Attempt, end: World)
    requires IsTrace(RENAMED, MOVED.out, MOVED.es) && moved == WorldOf(RENAMED, MOVED.out, MOVED.es)
    requires IsTrace(moved, again.out, again.es) && end == WorldOf(moved, again.out, again.es)
    ensures end.local == RENAMED.local
  {
    TraceIsSound(RENAMED, MOVED.out, MOVED.es);
    TraceIsSound(moved, again.out, again.es);
  }

  // ---- An emptied baseline ----

  const PLAIN := Options(false, false, false, false)

  /** q is new on both sides, with the same size; c, the only tracked file, is gone locally. */
  const UNTRACKED := World(map["q" := LocalRec([1], 5)], map["q" := RemoteRec(1, [2], 3), "c" := RemoteRec(2, [9], 4)], {1, 2})
  const ONE_ENTRY: map<Rel, Entry> := map["c" := Entry(1, 8, 2, 4)]
  const BOTH := [Item("q", Upload, 0, 1, 5, ""), Item("c", Delete, 2, 0, 0, "")]
  const FAILED := Outcome(0, false, 0, 0)
  const DELETED := Outcome(1, true, 0, 0)
  /** The upload fails, and the delete is recorded: the manifest is empty. */
  const HALF := Attempt(BOTH, BOTH, [Call(FAILED), Call(DELETED)], [FAILED, DELETED])
  const NOTHING_TO_DO := Attempt([], [], [], [])
  /** The same push with no failure. */
  const WHOLE := Attempt(BOTH, BOTH, [Call(Outcome(0, true, 1, 6)), Call(DELETED)], [])

  lemma UntrackedAt(w: World, p: Rel)
    requires w.local == UNTRACKED.local
    ensures Lookup(WalkOf(w), p) == if p == "q" then Some(LocalFile(p, 1, 5)) else None
    ensures LocalMeta(WalkOf(w), p) == if p == "q" then Some(Meta(1, 5)) else None
  {
    SplitName("q");
  }

  lemma BothPlanned()
    ensures PushPlanned(PLAIN, UNTRACKED, Baseline(PLAIN, UNTRACKED, ONE_ENTRY), BOTH, BOTH)
  {
    assert "c" in ONE_ENTRY && Baseline(PLAIN, UNTRACKED, ONE_ENTRY) == ONE_ENTRY;
    forall p
      ensures LocalMeta(WalkOf(UNTRACKED), p) != BaseLocal(ONE_ENTRY, p) ==> CopyOut(p, Lookup(WalkOf(UNTRACKED), p), Lookup(ONE_ENTRY, p)) in BOTH
    {
      UntrackedAt(UNTRACKED, p);
    }
    forall it | it in BOTH
      ensures LocalMeta(WalkOf(UNTRACKED), it.rel) != BaseLocal(ONE_ENTRY, it.rel)
              && it == CopyOut(it.rel, Lookup(WalkOf(UNTRACKED), it.rel), Lookup(ONE_ENTRY, it.rel))
    {
      UntrackedAt(UNTRACKED, it.rel);
    }
  }

  lemma NothingPlanned(w: World)
    requires w.local == UNTRACKED.local && "q" in w.remote && |w.remote["q"].data| == 1
    ensures PushPlanned(PLAIN, w, Baseline(PLAIN, w, map[]), [], [])
  {
    forall p ensures LocalMeta(WalkOf(w), p) == BaseLocal(Baseline(PLAIN, w, map[]), p) {
      UntrackedAt(w, p);
      SeededEntry(w, map[], p);
    }
  }

  /** Two answers, the second a success. */
  lemma TwoAnswers(a: Outcome)
    requires a.k == 0
    ensures Outcomes([Call(a), Call(DELETED)]) == [a, DELETED]
    ensures a.ok ==> Succeeded([a, DELETED], 0) && Succeeded([a, DELETED], 1)
  {
    var es, log := [Call(a), Call(DELETED)], [a, DELETED];
    assert es[..1] == [Call(a)] && es[..1][..0] == [];
    assert Outcomes(es[..1]) == [a];
    assert log[0].k == 0 && log[1].k == 1 && log[1].ok;
  }

  lemma HalfRun()
    ensures IsTrace(UNTRACKED, BOTH, HALF.es) && WorldOf(UNTRACKED, BOTH, HALF.es).local == UNTRACKED.local
    ensures ContentAt(WorldOf(UNTRACKED, BOTH, HALF.es), "q") == Some([2])
  {
    TraceGrows(UNTRACKED, BOTH, [], Call(FAILED));
    TraceGrows(UNTRACKED, BOTH, [] + [Call(FAILED)], Call(DELETED));
    assert [] + [Call(FAILED)] + [Call(DELETED)] == HALF.es;
  }

  lemma HalfRecord()
    ensures KeysInRange(PushJobs(BOTH), HALF.rec) && RecordAll(ONE_ENTRY, PushJobs(BOTH), HALF.rec) == map[]
  {
    var jobs := PushJobs(BOTH);
    assert HALF.rec[..1] == [FAILED] && HALF.rec[..1][..0] == [];
    assert RecordAll(ONE_ENTRY, jobs, HALF.rec[..1]) == ONE_ENTRY;
    assert RecordAll(ONE_ENTRY, jobs, HALF.rec) == ONE_ENTRY - {"c"};
  }

  lemma WholeRun()
    ensures IsTrace(UNTRACKED, BOTH, WHOLE.es) && ContentAt(WorldOf(UNTRACKED, BOTH, WHOLE.es), "q") == Some([1])
  {
    var first := WHOLE.es[0];
    TraceGrows(UNTRACKED, BOTH, [], first);
    TraceGrows(UNTRACKED, BOTH, [] + [first], Call(DELETED));
    assert [] + [first] + [Call(DELETED)] == WHOLE.es;
  }

  /** The second attempt takes q for synced, by its size, and completes at once: the remote bytes stay. Without the
      failure the local bytes get there. */
  lemma EmptiedManifestExample() returns (left: World, end: World)
    ensures StartsWith(PLAIN, UNTRACKED, ONE_ENTRY, BOTH, BOTH)
    ensures IsAttempt(PLAIN, UNTRACKED, ONE_ENTRY, HALF, left, map[])
    ensures IsAttempt(PLAIN, left, map[], NOTHING_TO_DO, left, map[]) && Completed(NOTHING_TO_DO)
    ensures IsAttempt(PLAIN, UNTRACKED, ONE_ENTRY, WHOLE, end, ONE_ENTRY) && Completed(WHOLE)
    ensures ContentAt(left, "q") == Some([2]) && ContentAt(end, "q") == Some([1])
  {
    UntrackedStarts();
    left := FirstHalf();
    end := InOneGo();
    NothingToDo(left);
  }

  lemma UntrackedStarts()
    ensures StartsWith(PLAIN, UNTRACKED, ONE_ENTRY, BOTH, BOTH)
  {
    BothPlanned();
    assert "c" in ONE_ENTRY && Baseline(PLAIN, UNTRACKED, ONE_ENTRY) == ONE_ENTRY;
  }

  lemma NothingToDo(left: World)
    requires left.local == UNTRACKED.local && ContentAt(left, "q") == Some([2])
    ensures IsAttempt(PLAIN, left, map[], NOTHING_TO_DO, left, map[]) && Completed(NOTHING_TO_DO)
  {
    NothingPlanned(left);
  }

  lemma FirstHalf() returns (left: World)
    ensures IsAttempt(PLAIN, UNTRACKED, ONE_ENTRY, HALF, left, map[])
    ensures left.local == UNTRACKED.local && ContentAt(left, "q") == Some([2])
  {
    BothPlanned();
    HalfRun();
    HalfRecord();
    TwoAnswers(FAILED);
    left := WorldOf(UNTRACKED, BOTH, HALF.es);
    assert "c" in ONE_ENTRY;
  }

  lemma InOneGo() returns (end: World)
    ensures IsAttempt(PLAIN, UNTRACKED, ONE_ENTRY, WHOLE, end, ONE_ENTRY) && Completed(WHOLE)
    ensures ContentAt(end, "q") == Some([1])
  {
    BothPlanned();
    WholeRun();
    TwoAnswers(Outcome(0, true, 1, 6));
    end := WorldOf(UNTRACKED, BOTH, WHOLE.es);
  }
}
