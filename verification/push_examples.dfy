/** Concrete pushes that go wrong. */
module PushExamples {
  import opened Types
  import opened Paths
  import opened Pool
  import opened Worlds
  import opened Collecting
  import opened Planning
  import opened MovePlanning
  import opened TwoWay
  import opened PushTrace
  import opened PushWorld
  import opened PushCrash
  import opened PushRecovery
  import opened PushCrossing
  import opened OneWay
  import opened PushLimits
  import opened PushRefresh

  const MOVES := Options(false, false, false, true)

  // ---- A move cut in half ----

  /** a/x was renamed to b/y, and a new file b/x was made. */
  const LOCAL: map<Rel, LocalRec> := map["b/x" := LocalRec([1], 11), "b/y" := LocalRec([9, 9], 10)]
  const START := World(LOCAL, map["a/x" := RemoteRec(7, [9, 9], 3)], {7})
  const BASE: map<Rel, Entry> := map["a/x" := Entry(2, 10, 7, 3)]
  const UPLOAD_X := Item("b/x", Upload, 0, 1, 11, "")
  const UPLOAD_Y := Item("b/y", Upload, 0, 2, 10, "")
  const DELETE_X := Item("a/x", Delete, 7, 0, 0, "")
  const MOVE_Y := Item("b/y", Move, 7, 2, 10, "a/x")
  const ITEMS := [UPLOAD_X, UPLOAD_Y, DELETE_X]
  const PLAN := [UPLOAD_X, MOVE_Y]

  /** The process dies between the two calls of the move. */
  const FIRST := Attempt(ITEMS, PLAN, [Shift(1, 4)], [])
  /** The re-run's upload finds a file of its name, and overwrites it. */
  const ANSWERS := [Outcome(0, true, 7, 5), Outcome(1, true, 0, 6)]
  const SECOND := Attempt(ITEMS, PLAN, [Call(ANSWERS[0]), Call(ANSWERS[1])], ANSWERS)

  lemma TwoParts(dir: string, name: string)
    requires SlashFree(dir) && SlashFree(name)
    ensures Split(dir + "/" + name) == [dir, name]
    ensures DirOf(dir + "/" + name) == [dir] && BaseOf(dir + "/" + name) == name
    ensures dir !in PRUNED_DIRS ==> !Pruned(dir + "/" + name)
  {
    SplitPrefix(dir, name);
    SplitName(name);
  }

  lemma ExamplePaths()
    ensures DirOf("a/x") == ["a"] && BaseOf("a/x") == "x"
    ensures DirOf("b/x") == ["b"] && BaseOf("b/x") == "x"
    ensures DirOf("b/y") == ["b"] && BaseOf("b/y") == "y"
    ensures !Pruned("b/x") && !Pruned("b/y")
    ensures Halfway("a/x", "b/y") == "b/x"
  {
    TwoParts("a", "x");
    TwoParts("b", "x");
    TwoParts("b", "y");
    assert "a" + "/" + "x" == "a/x" && "b" + "/" + "x" == "b/x" && "b" + "/" + "y" == "b/y";
    HalfwayParts("a/x", "b/y");
    SameParts(Halfway("a/x", "b/y"), "b/x");
  }

  lemma ExampleWalk(w: World, p: Rel)
    requires w.local == LOCAL
    ensures LocalMeta(WalkOf(w), p) == if p == "b/x" then Some(Meta(1, 11)) else if p == "b/y" then Some(Meta(2, 10)) else None
    ensures Lookup(WalkOf(w), p) == if p == "b/x" then Some(LocalFile(p, 1, 11)) else if p == "b/y" then Some(LocalFile(p, 2, 10)) else None
  {
    ExamplePaths();
  }

  lemma ExampleItems(w: World)
    requires w.local == LOCAL
    ensures IsPushPlan(ITEMS, WalkOf(w), BASE)
  {
    forall p
      ensures LocalMeta(WalkOf(w), p) != BaseLocal(BASE, p) ==> CopyOut(p, Lookup(WalkOf(w), p), Lookup(BASE, p)) in ITEMS
    {
      ExampleWalk(w, p);
    }
    forall it | it in ITEMS
      ensures LocalMeta(WalkOf(w), it.rel) != BaseLocal(BASE, it.rel) && it == CopyOut(it.rel, Lookup(WalkOf(w), it.rel), Lookup(BASE, it.rel))
    {
      ExampleWalk(w, it.rel);
    }
  }

  lemma ExampleRewrite()
    ensures IsRewrite(ITEMS, BASE, PLAN) && Unambiguous(ITEMS, BASE)
  {
    assert KeyOf(BASE, UPLOAD_X) == Some(Key(1, 11)) && KeyOf(BASE, UPLOAD_Y) == KeyOf(BASE, DELETE_X) == Some(Key(2, 10));
    forall x ensures x in PLAN <==> IsKept(ITEMS, BASE, x) || IsMove(ITEMS, BASE, x) {
      MovesAre(ITEMS, BASE, x);
      KeptAre(ITEMS, BASE, x);
      assert Paired(BASE, UPLOAD_Y, DELETE_X) && MoveOf(BASE, UPLOAD_Y, DELETE_X) == MOVE_Y;
      assert UPLOAD_Y in ITEMS && DELETE_X in ITEMS && UPLOAD_X in ITEMS;
    }
  }

  lemma ExamplePlanned(w: World)
    requires w.local == LOCAL
    ensures PushPlanned(MOVES, w, BASE, ITEMS, PLAN)
  {
    ExampleItems(w);
    ExampleRewrite();
  }

  /** The only remote file has id 7 and is at `p`. */
  ghost predicate OnlyFile(w: World, p: Rel, data: Bytes) {
    && w.local == LOCAL && w.used == {7}
    && (forall q :: q in w.remote <==> q == p)
    && w.remote[p].id == 7 && w.remote[p].data == data
  }

  lemma Found(w: World, p: Rel, data: Bytes)
    requires OnlyFile(w, p, data)
    ensures HasId(w, 7) && PathOf(w, 7) == p && DataOf(w, 7) == data
  {
    assert p in w.remote;
  }

  /** After the first attempt the file is in the new folder under its old name. */
  lemma HalfMoved()
    ensures IsTrace(START, PLAN, FIRST.es) && OnlyFile(WorldOf(START, PLAN, FIRST.es), "b/x", [9, 9])
  {
    ExamplePaths();
    Found(START, "a/x", [9, 9]);
    var e := Shift(1, 4);
    assert [] + [e] == FIRST.es;
    assert CanHappen(START, PLAN, e);
    TraceGrows(START, PLAN, [], e);
    assert WorldOf(START, PLAN, FIRST.es) == Next(START, PLAN, e);
  }

  lemma Overwritten(w: World)
    requires OnlyFile(w, "b/x", [9, 9])
    ensures IsTrace(w, PLAN, [Call(ANSWERS[0])]) && OnlyFile(WorldOf(w, PLAN, [Call(ANSWERS[0])]), "b/x", [1])
  {
    var e := Call(ANSWERS[0]);
    assert [] + [e] == [e];
    assert CanHappen(w, PLAN, e);
    TraceGrows(w, PLAN, [], e);
  }

  lemma RenamedNext(v: World)
    requires OnlyFile(v, "b/x", [1])
    ensures var e := Call(ANSWERS[1]); CanHappen(v, PLAN, e) && OnlyFile(Next(v, PLAN, e), "b/y", [1])
  {
    ExamplePaths();
    Found(v, "b/x", [1]);
  }

  lemma Renamed(w: World)
    requires OnlyFile(w, "b/x", [9, 9])
    ensures IsTrace(w, PLAN, SECOND.es) && OnlyFile(WorldOf(w, PLAN, SECOND.es), "b/y", [1])
  {
    var before, e := [Call(ANSWERS[0])], Call(ANSWERS[1]);
    Overwritten(w);
    RenamedNext(WorldOf(w, PLAN, before));
    TraceGrows(w, PLAN, before, e);
    assert before + [e] == SECOND.es;
  }

  lemma SecondAnswers()
    ensures Outcomes(SECOND.es) == ANSWERS && Complete(PushJobs(PLAN), ANSWERS)
  {
    assert SECOND.es[..1] == [Call(ANSWERS[0])] && SECOND.es[..1][..0] == [];
    assert Outcomes(SECOND.es[..1]) == [ANSWERS[0]];
    BothSucceeded();
  }

  lemma BothSucceeded()
    ensures Complete(PushJobs(PLAN), ANSWERS)
  {
    assert ANSWERS[0].k == 0 && ANSWERS[0].ok && ANSWERS[1].k == 1 && ANSWERS[1].ok;
    assert Succeeded(ANSWERS, 0) && Succeeded(ANSWERS, 1);
  }

  lemma SecondRecord(p: Rel)
    ensures KeysInRange(PushJobs(PLAN), ANSWERS)
    ensures BaseLocal(RecordAll(BASE, PushJobs(PLAN), ANSWERS), p) == if p == "b/x" then Some(Meta(1, 11)) else if p == "b/y" then Some(Meta(2, 10)) else None
  {
    var jobs := PushJobs(PLAN);
    assert ANSWERS[..1] == [ANSWERS[0]] && ANSWERS[..1][..0] == [];
    assert RecordAll(BASE, jobs, ANSWERS[..1]) == RecordOne(BASE, jobs[0], ANSWERS[0]);
  }

  lemma FirstAttempt(half: World)
    requires IsTrace(START, PLAN, FIRST.es) && half == WorldOf(START, PLAN, FIRST.es)
    ensures IsAttempt(MOVES, START, BASE, FIRST, half, BASE)
  {
    ExamplePlanned(START);
    assert Outcomes(FIRST.es) == [];
  }

  lemma SecondAttempt(half: World, end: World, saved: map<Rel, Entry>)
    requires half.local == LOCAL && IsTrace(half, PLAN, SECOND.es) && end == WorldOf(half, PLAN, SECOND.es)
    requires KeysInRange(PushJobs(PLAN), ANSWERS) && saved == RecordAll(BASE, PushJobs(PLAN), ANSWERS)
    ensures IsAttempt(MOVES, half, BASE, SECOND, end, saved) && Completed(SECOND)
  {
    ExamplePlanned(half);
    SecondAnswers();
  }

  lemma ExampleRecoverable()
    ensures Recoverable(MOVES, START, BASE, ITEMS, PLAN)
  {
    ExamplePlanned(START);
    ExampleRewrite();
  }

  /** The recovery fails. The plan meets every other condition; the first attempt dies halfway through the move, and
      the second completes. In the end b/y has the bytes of b/x, the moved bytes are gone, b/x is missing, and the
      manifest says that both are in sync. */
  lemma HalfMoveExample() returns (half: World, end: World, saved: map<Rel, Entry>)
    ensures Recoverable(MOVES, START, BASE, ITEMS, PLAN)
    ensures IsHistory(MOVES, [START, half, end], [BASE, BASE, saved], [FIRST, SECOND]) && Completed(SECOND)
    ensures OnlyFile(end, "b/y", LOCAL["b/x"].data) && LOCAL["b/x"].data != LOCAL["b/y"].data
    ensures forall p :: BaseLocal(saved, p) == LocalMeta(WalkOf(end), p)
  {
    half, end, saved := BothAttempts();
    TwoAttempts(MOVES, START, half, end, BASE, saved, FIRST, SECOND);
    ExampleRecoverable();
  }

  lemma BothAttempts() returns (half: World, end: World, saved: map<Rel, Entry>)
    ensures IsAttempt(MOVES, START, BASE, FIRST, half, BASE) && IsAttempt(MOVES, half, BASE, SECOND, end, saved) && Completed(SECOND)
    ensures OnlyFile(end, "b/y", LOCAL["b/x"].data)
    ensures forall p :: BaseLocal(saved, p) == LocalMeta(WalkOf(end), p)
  {
    HalfMoved();
    half := WorldOf(START, PLAN, FIRST.es);
    Renamed(half);
    SecondRecord("b/x");
    end, saved := WorldOf(half, PLAN, SECOND.es), RecordAll(BASE, PushJobs(PLAN), ANSWERS);
    FirstAttempt(half);
    SecondAttempt(half, end, saved);
    InSyncBySize(end, saved);
  }

  lemma InSyncBySize(end: World, saved: map<Rel, Entry>)
    requires end.local == LOCAL && KeysInRange(PushJobs(PLAN), ANSWERS) && saved == RecordAll(BASE, PushJobs(PLAN), ANSWERS)
    ensures forall p :: BaseLocal(saved, p) == LocalMeta(WalkOf(end), p)
  {
    forall p ensures BaseLocal(saved, p) == LocalMeta(WalkOf(end), p) {
      SecondRecord(p);
      ExampleWalk(end, p);
    }
  }

  lemma TwoAttempts(o: Options, w0: World, w1: World, w2: World, disk: map<Rel, Entry>, saved: map<Rel, Entry>, a: Attempt, b: Attempt)
    requires IsAttempt(o, w0, disk, a, w1, disk) && IsAttempt(o, w1, disk, b, w2, saved)
    ensures IsHistory(o, [w0, w1, w2], [disk, disk, saved], [a, b])
  {
  }

  // ---- An ambiguous move ----

  /** c is gone locally; a and b are new, and both have its size and mtime. */
  const TWINS: map<Rel, LocalRec> := map["a" := LocalRec([1], 5), "b" := LocalRec([2], 5)]
  const BEFORE := World(TWINS, map["c" := RemoteRec(7, [3], 9)], {7})
  const TRACKED: map<Rel, Entry> := map["c" := Entry(1, 5, 7, 9)]
  const UPLOAD_A := Item("a", Upload, 0, 1, 5, "")
  const UPLOAD_B := Item("b", Upload, 0, 1, 5, "")
  const DELETE_C := Item("c", Delete, 7, 0, 0, "")
  const MOVE_B := Item("b", Move, 7, 1, 5, "c")
  const ALL := [UPLOAD_A, UPLOAD_B, DELETE_C]
  const LEFT := [UPLOAD_B, DELETE_C]
  const SENT := Outcome(0, true, 10, 1)
  const WHOLE: seq<Event> := [Call(SENT), Call(Outcome(1, true, 11, 2)), Call(Outcome(2, true, 0, 0))]
  const RESUMED: seq<Event> := [Call(Outcome(0, true, 0, 3))]

  lemma TwinWalk(w: World, p: Rel)
    requires w.local == TWINS
    ensures Lookup(WalkOf(w), p) == if p == "a" || p == "b" then Some(LocalFile(p, 1, 5)) else None
    ensures LocalMeta(WalkOf(w), p) == if p == "a" || p == "b" then Some(Meta(1, 5)) else None
  {
    SplitName("a");
    SplitName("b");
  }

  lemma TwinItems(w: World)
    requires w.local == TWINS
    ensures IsPushPlan(ALL, WalkOf(w), TRACKED)
  {
    forall p
      ensures LocalMeta(WalkOf(w), p) != BaseLocal(TRACKED, p) ==> CopyOut(p, Lookup(WalkOf(w), p), Lookup(TRACKED, p)) in ALL
    {
      TwinWalk(w, p);
    }
    forall it | it in ALL
      ensures LocalMeta(WalkOf(w), it.rel) != BaseLocal(TRACKED, it.rel) && it == CopyOut(it.rel, Lookup(WalkOf(w), it.rel), Lookup(TRACKED, it.rel))
    {
      TwinWalk(w, it.rel);
    }
  }

  lemma TwinsAreLeftAlone()
    ensures IsRewrite(ALL, TRACKED, ALL)
  {
    assert UPLOAD_A in ALL && UPLOAD_B in ALL;
    TwoUploads(ALL, TRACKED, Key(1, 5), UPLOAD_A, UPLOAD_B);
    forall k ensures !PairKey(ALL, TRACKED, k) {
      PairHasUpload(ALL, TRACKED, k);
    }
    NothingPaired(ALL, TRACKED, []);
  }

  /** The baseline once the first upload is recorded. */
  function Recorded1(): map<Rel, Entry> {
    RecordOne(TRACKED, Push(UPLOAD_A), SENT)
  }

  lemma LeftItems(w: World)
    requires w.local == TWINS
    ensures IsPushPlan(LEFT, WalkOf(w), Recorded1())
  {
    forall p
      ensures LocalMeta(WalkOf(w), p) != BaseLocal(Recorded1(), p) ==> CopyOut(p, Lookup(WalkOf(w), p), Lookup(Recorded1(), p)) in LEFT
    {
      TwinWalk(w, p);
    }
    forall it | it in LEFT
      ensures LocalMeta(WalkOf(w), it.rel) != BaseLocal(Recorded1(), it.rel) && it == CopyOut(it.rel, Lookup(WalkOf(w), it.rel), Lookup(Recorded1(), it.rel))
    {
      TwinWalk(w, it.rel);
    }
  }

  lemma LeftIsPaired()
    ensures IsRewrite(LEFT, Recorded1(), [MOVE_B]) && PairKey(LEFT, Recorded1(), Key(1, 5))
  {
    var m := Recorded1();
    assert UPLOAD_B in LEFT && DELETE_C in LEFT && Paired(m, UPLOAD_B, DELETE_C) && MoveOf(m, UPLOAD_B, DELETE_C) == MOVE_B;
    assert Unambiguous(LEFT, m);
    PairIsMove(LEFT, m, UPLOAD_B, DELETE_C);
    forall x ensures x in [MOVE_B] <==> IsKept(LEFT, m, x) || IsMove(LEFT, m, x) {
      MovesAre(LEFT, m, x);
      KeptAre(LEFT, m, x);
    }
  }

  lemma WholeRun()
    ensures CompleteTrace(BEFORE, ALL, WHOLE)
  {
    var (e0, e1, e2) := (WHOLE[0], WHOLE[1], WHOLE[2]);
    TraceGrows(BEFORE, ALL, [], e0);
    TraceGrows(BEFORE, ALL, [] + [e0], e1);
    TraceGrows(BEFORE, ALL, [] + [e0] + [e1], e2);
    assert [] + [e0] + [e1] + [e2] == WHOLE;
    AnswersInOrder(e0, e1, e2);
    var log := Outcomes(WHOLE);
    assert log[0].k == 0 && log[1].k == 1 && log[2].k == 2;
  }

  lemma AnswersInOrder(e0: Event, e1: Event, e2: Event)
    requires e0.Call? && e1.Call? && e2.Call?
    ensures Outcomes([e0, e1, e2]) == [e0.o, e1.o, e2.o]
  {
    var es := [e0, e1, e2];
    assert es[..2] == [e0, e1] && es[..2][..1] == [e0] && [e0][..0] == [];
    assert Outcomes([e0]) == [e0.o];
    assert Outcomes([e0, e1]) == [e0.o, e1.o];
  }

  ghost function Sent1(): World {
    Effect(BEFORE, Push(UPLOAD_A), SENT.a, SENT.b)
  }

  lemma ResumedRun()
    ensures CompleteTrace(Sent1(), [MOVE_B], RESUMED)
  {
    var w, e := Sent1(), RESUMED[0];
    assert "c" in w.remote && w.remote["c"].id == 7 && HasId(w, 7);
    assert forall q :: q in w.remote ==> q == "c" || q == "a";
    assert PathOf(w, 7) == "c";
    SplitName("b");
    SplitName("c");
    TraceGrows(w, [MOVE_B], [], e);
    assert [] + [e] == RESUMED && RESUMED[..0] == [];
    assert Outcomes(RESUMED) == [e.o];
    assert Outcomes(RESUMED)[0].k == 0;
  }

  lemma TwinsResolvedLater()
    ensures ResolvedLater(MOVES, BEFORE, TRACKED, ALL, ALL, UPLOAD_A, UPLOAD_B, DELETE_C, SENT, LEFT, [MOVE_B])
  {
    TwinItems(BEFORE);
    TwinsAreLeftAlone();
    LeftItems(Sent1());
    LeftIsPaired();
    NotTwoCalls();
  }

  lemma NotTwoCalls()
    ensures !TwoCalls(MOVE_B) && !Crossed(ALL) && !Crossed([MOVE_B])
  {
    SplitName("b");
    SplitName("c");
  }

  /** A push cut short after it recorded the upload of a, and resumed, leaves the bytes of c at b; the same push in one
      go leaves those of b. */
  lemma AmbiguityExample()
    ensures CompleteTrace(BEFORE, ALL, WHOLE) && CompleteTrace(Sent1(), [MOVE_B], RESUMED)
    ensures PushPlanned(MOVES, BEFORE, TRACKED, ALL, ALL) && PushPlanned(MOVES, Sent1(), Recorded1(), LEFT, [MOVE_B])
    ensures ContentAt(WorldOf(BEFORE, ALL, WHOLE), "b") == Some([2])
    ensures ContentAt(WorldOf(Sent1(), [MOVE_B], RESUMED), "b") == Some([3])
  {
    WholeRun();
    ResumedRun();
    TwinsResolvedLater();
    AmbiguityChangesContent(MOVES, BEFORE, TRACKED, ALL, ALL, UPLOAD_A, UPLOAD_B, DELETE_C, SENT, LEFT, [MOVE_B], WHOLE, RESUMED);
    assert "c" in BEFORE.remote;
  }
}
