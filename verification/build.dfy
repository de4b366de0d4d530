/** Every schedule of the goroutines that build the remote index. */
module Building {
  import opened Types
  import opened Indexing

  const DEFAULT_PARALLELISM: nat := 8

  function Parallelism(asked: int): (n: nat)
    ensures n >= 1
  {
    if asked > 0 then asked else DEFAULT_PARALLELISM
  }

  /** A goroutine: waiting for the semaphore, listing its folder, going through the children left, or returned. */
  datatype Task = Waiting(folder: Folder, prefix: string) | Listing(folder: Folder, prefix: string)
                | Recording(rest: seq<Child>, prefix: string) | Returned

  /** `errored`: some goroutine returned an error. `cancelled`: the group's context is done, by that or by the caller. */
  datatype State = State(tasks: seq<Task>, idx: map<string, IndexEntry>, errored: bool, cancelled: bool)

  datatype Step = Acquire(t: nat) | GiveUp(t: nat) | Listed(t: nat) | ListFailed(t: nat) | Next(t: nat) | Finish(t: nat) | Cancel

  function Init(root: Folder): State {
    State([Waiting(root, "")], map[], false, false)
  }

  function One(b: bool): nat {
    if b then 1 else 0
  }

  function Total(f: Task -> nat, tasks: seq<Task>): nat {
    if tasks == [] then 0 else f(tasks[0]) + Total(f, tasks[1..])
  }

  function IsListing(): Task -> nat {
    (t: Task) => One(t.Listing?)
  }

  predicate Enabled(n: nat, s: State, step: Step) {
    match step
    case Acquire(t) => t < |s.tasks| && s.tasks[t].Waiting? && Total(IsListing(), s.tasks) < n
    case GiveUp(t) => t < |s.tasks| && s.tasks[t].Waiting? && s.cancelled
    case Listed(t) => t < |s.tasks| && s.tasks[t].Listing?
    case ListFailed(t) => t < |s.tasks| && s.tasks[t].Listing?
    case Next(t) => t < |s.tasks| && s.tasks[t].Recording? && s.tasks[t].rest != []
    case Finish(t) => t < |s.tasks| && s.tasks[t].Recording? && s.tasks[t].rest == []
    case Cancel => !s.cancelled
  }

  function Apply(n: nat, s: State, step: Step): State
    requires Enabled(n, s, step)
  {
    match step
    case Acquire(t) => s.(tasks := s.tasks[t := Listing(s.tasks[t].folder, s.tasks[t].prefix)])
    case GiveUp(t) => s.(tasks := s.tasks[t := Returned], errored := true)
    case Listed(t) => s.(tasks := s.tasks[t := Recording(s.tasks[t].folder.children, s.tasks[t].prefix)])
    case ListFailed(t) => s.(tasks := s.tasks[t := Returned], errored := true, cancelled := true)
    case Next(t) => (
      var (c, prefix) := (s.tasks[t].rest[0], s.tasks[t].prefix);
      var tasks := s.tasks[t := Recording(s.tasks[t].rest[1..], prefix)];
      match c
      case File(name, e) => s.(tasks := tasks, idx := s.idx[Under(prefix, name) := e])
      case Dir(name, f) => s.(tasks := tasks + [Waiting(f, Under(prefix, name))]))
    case Finish(t) => s.(tasks := s.tasks[t := Returned])
    case Cancel => s.(cancelled := true)
  }

  predicate IsRun(n: nat, root: Folder, steps: seq<Step>)
    decreases |steps|, 0
  {
    steps == [] ||
    (IsRun(n, root, steps[..|steps| - 1]) && Enabled(n, After(n, root, steps[..|steps| - 1]), steps[|steps| - 1]))
  }

  function After(n: nat, root: Folder, steps: seq<Step>): State
    requires IsRun(n, root, steps)
    decreases |steps|, 1
  {
    if steps == [] then Init(root)
    else Apply(n, After(n, root, steps[..|steps| - 1]), steps[|steps| - 1])
  }

  // ---- Sums over the goroutines ----

  lemma {:induction false} TotalUpdate(f: Task -> nat, tasks: seq<Task>, i: nat, t: Task)
    requires i < |tasks|
    ensures Total(f, tasks[i := t]) + f(tasks[i]) == Total(f, tasks) + f(t)
  {
    if i == 0 {
      assert tasks[0 := t][1..] == tasks[1..];
    } else {
      assert tasks[i := t][1..] == tasks[1..][i - 1 := t];
      assert tasks[i := t][0] == tasks[0];
      TotalUpdate(f, tasks[1..], i - 1, t);
    }
  }

  lemma {:induction false} TotalAppend(f: Task -> nat, tasks: seq<Task>, t: Task)
    ensures Total(f, tasks + [t]) == Total(f, tasks) + f(t)
  {
    if tasks == [] {
      assert tasks + [t] == [t];
    } else {
      assert (tasks + [t])[1..] == tasks[1..] + [t];
      TotalAppend(f, tasks[1..], t);
    }
  }

  lemma {:induction false} TotalZero(f: Task -> nat, tasks: seq<Task>)
    requires forall i :: 0 <= i < |tasks| ==> f(tasks[i]) == 0
    ensures Total(f, tasks) == 0
  {
    if tasks != [] {
      TotalZero(f, tasks[1..]);
    }
  }

  /** The goroutine a step is for. */
  function Actor(step: Step): int {
    if step.Cancel? then -1 else step.t
  }

  lemma TotalAfter(f: Task -> nat, n: nat, s: State, step: Step)
    requires Enabled(n, s, step)
    ensures var (t, s') := (Actor(step), Apply(n, s, step));
            if t < 0 then s'.tasks == s.tasks
            else && t < |s.tasks| <= |s'.tasks|
                 && Total(f, s'.tasks) + f(s.tasks[t]) == Total(f, s.tasks) + f(s'.tasks[t])
                    + (if step.Next? && s.tasks[t].rest[0].Dir? then f(Waiting(s.tasks[t].rest[0].folder, Under(s.tasks[t].prefix, s.tasks[t].rest[0].name))) else 0)
  {
    var t := Actor(step);
    if 0 <= t {
      var s' := Apply(n, s, step);
      TotalUpdate(f, s.tasks, t, s'.tasks[t]);
      if step.Next? && s.tasks[t].rest[0].Dir? {
        TotalAppend(f, s.tasks[t := s'.tasks[t]], Waiting(s.tasks[t].rest[0].folder, Under(s.tasks[t].prefix, s.tasks[t].rest[0].name)));
      }
    }
  }

  // ---- Termination ----

  function Weight(children: seq<Child>): nat {
    if children == [] then 0
    else (match children[0] case File(_, _) => 1 case Dir(_, f) => 4 + Weight(f.children)) + Weight(children[1..])
  }

  function TaskWeight(): Task -> nat {
    (t: Task) => match t
      case Waiting(f, _) => 3 + Weight(f.children)
      case Listing(f, _) => 2 + Weight(f.children)
      case Recording(rest, _) => 1 + Weight(rest)
      case Returned => 0
  }

  function Measure(s: State): nat {
    Total(TaskWeight(), s.tasks) + One(!s.cancelled)
  }

  lemma StepDecreases(n: nat, s: State, step: Step)
    requires Enabled(n, s, step)
    ensures Measure(Apply(n, s, step)) < Measure(s)
  {
    TotalAfter(TaskWeight(), n, s, step);
  }

  // ---- The invariant ----

  function TaskFiles(t: Task): set<(string, IndexEntry)> {
    match t
    case Waiting(f, prefix) => Files(f.children, prefix)
    case Listing(f, prefix) => Files(f.children, prefix)
    case Recording(rest, prefix) => Files(rest, prefix)
    case Returned => {}
  }

  predicate Pending(tasks: seq<Task>, x: (string, IndexEntry)) {
    exists i :: 0 <= i < |tasks| && x in TaskFiles(tasks[i])
  }

  predicate InIndex(idx: map<string, IndexEntry>, x: (string, IndexEntry)) {
    x.0 in idx && idx[x.0] == x.1
  }

  /** A file of the tree is recorded or still to come, unless there was an error; and nothing else is. */
  ghost predicate FileOk(root: Folder, s: State, x: (string, IndexEntry)) {
    && (x in Files(root.children, "") ==> s.errored || InIndex(s.idx, x) || Pending(s.tasks, x))
    && (InIndex(s.idx, x) || Pending(s.tasks, x) ==> x in Files(root.children, ""))
  }

  lemma FirstAndRest(children: seq<Child>, prefix: string)
    requires children != []
    ensures Files(children, prefix) == FilesOf(children[0], prefix) + Files(children[1..], prefix)
    ensures children[0].File? ==> FilesOf(children[0], prefix) == {(Under(prefix, children[0].name), children[0].entry)}
    ensures children[0].Dir? ==> FilesOf(children[0], prefix) == Files(children[0].folder.children, Under(prefix, children[0].name))
  {
  }

  lemma PendingAfter(n: nat, s: State, step: Step, x: (string, IndexEntry))
    requires Enabled(n, s, step)
    ensures var s' := Apply(n, s, step);
            && (Pending(s'.tasks, x) ==> Pending(s.tasks, x))
            && (Pending(s.tasks, x) && !Pending(s'.tasks, x) && !s'.errored ==>
                  step.Next? && s.tasks[step.t].rest[0].File? && x in FilesOf(s.tasks[step.t].rest[0], s.tasks[step.t].prefix))
  {
    var (t, s') := (Actor(step), Apply(n, s, step));
    if step.Next? {
      FirstAndRest(s.tasks[t].rest, s.tasks[t].prefix);
    }
    if i :| 0 <= i < |s.tasks| && x in TaskFiles(s.tasks[i]) {
      if i != t {
        assert s'.tasks[i] == s.tasks[i];
      } else if x in TaskFiles(s'.tasks[t]) {
        assert Pending(s'.tasks, x);
      } else if step.Next? && s.tasks[t].rest[0].Dir? {
        assert x in TaskFiles(s'.tasks[|s.tasks|]);
      }
    }
    if i :| 0 <= i < |s'.tasks| && x in TaskFiles(s'.tasks[i]) {
      if i < |s.tasks| && i != t {
        assert s'.tasks[i] == s.tasks[i];
      } else {
        assert x in TaskFiles(s.tasks[t]);
      }
    }
  }

  lemma StepFileOk(n: nat, root: Folder, s: State, step: Step, x: (string, IndexEntry))
    requires Enabled(n, s, step) && Named(root.children) && forall y :: FileOk(root, s, y)
    ensures FileOk(root, Apply(n, s, step), x)
  {
    PendingAfter(n, s, step, x);
    assert FileOk(root, s, x);
    if step.Next? && s.tasks[step.t].rest[0].File? {
      var c := s.tasks[step.t].rest[0];
      var y := (Under(s.tasks[step.t].prefix, c.name), c.entry);
      FirstAndRest(s.tasks[step.t].rest, s.tasks[step.t].prefix);
      assert y in TaskFiles(s.tasks[step.t]);
      assert Pending(s.tasks, y);
      assert FileOk(root, s, y);
      if x in Files(root.children, "") && x.0 == y.0 {
        FilesAreUnique(root.children, x, y);
      }
    }
  }

  ghost predicate Inv(n: nat, root: Folder, s: State) {
    && Total(IsListing(), s.tasks) <= n
    && (forall x :: FileOk(root, s, x))
  }

  lemma {:induction false} RunInv(n: nat, root: Folder, steps: seq<Step>)
    requires n >= 1 && Named(root.children) && IsRun(n, root, steps)
    ensures Inv(n, root, After(n, root, steps))
    ensures |steps| + Measure(After(n, root, steps)) <= Measure(Init(root))
  {
    if steps == [] {
      var s := Init(root);
      assert s.tasks[1..] == [];
      forall x ensures FileOk(root, s, x) {
        assert x in TaskFiles(s.tasks[0]) <==> Pending(s.tasks, x);
      }
    } else {
      var front, last := steps[..|steps| - 1], steps[|steps| - 1];
      RunInv(n, root, front);
      var s := After(n, root, front);
      StepDecreases(n, s, last);
      TotalAfter(IsListing(), n, s, last);
      forall x ensures FileOk(root, Apply(n, s, last), x) {
        StepFileOk(n, root, s, last, x);
      }
    }
  }

  // ---- Main results ----

  predicate Finished(s: State) {
    forall i :: 0 <= i < |s.tasks| ==> s.tasks[i].Returned?
  }

  /** Build's answer once every goroutine has returned: the map, or nothing after any error. */
  function Answer(s: State): Option<map<string, IndexEntry>> {
    if s.errored then None else Some(s.idx)
  }

  /** Whatever the schedule, an answer that is not an error has exactly one entry for each file of the tree, at its
      path, and no other. */
  lemma BuildIsTheTree(n: nat, root: Folder, steps: seq<Step>)
    requires n >= 1 && Named(root.children) && IsRun(n, root, steps) && Finished(After(n, root, steps))
    requires Answer(After(n, root, steps)).Some?
    ensures var idx := Answer(After(n, root, steps)).value;
            && (forall p, e :: p in idx && idx[p] == e <==> (p, e) in Files(root.children, ""))
            && |idx| == FileCount(root.children)
  {
    RunInv(n, root, steps);
    var s := After(n, root, steps);
    forall p, e ensures p in s.idx && s.idx[p] == e <==> (p, e) in Files(root.children, "") {
      assert FileOk(root, s, (p, e));
    }
    FilesAreCounted(root.children);
    PairsSize(s.idx, Files(root.children, ""));
  }

  lemma SomePair(idx: map<string, IndexEntry>, pairs: set<(string, IndexEntry)>)
    requires forall p, e :: p in idx && idx[p] == e <==> (p, e) in pairs
    ensures idx == map[] || exists x :: x in pairs
  {
    if idx != map[] {
      var p :| p in idx;
      assert (p, idx[p]) in pairs;
    }
  }

  lemma {:induction false} PairsSize(idx: map<string, IndexEntry>, pairs: set<(string, IndexEntry)>)
    requires forall p, e :: p in idx && idx[p] == e <==> (p, e) in pairs
    ensures |idx| == |pairs|
  {
    if pairs == {} {
      SomePair(idx, pairs);
    } else {
      var x :| x in pairs;
      forall p, e ensures p in idx - {x.0} && (idx - {x.0})[p] == e <==> (p, e) in pairs - {x} {
        assert (p, e) in pairs <==> p in idx && idx[p] == e;
        assert (x.0, x.1) in pairs;
      }
      PairsSize(idx - {x.0}, pairs - {x});
      assert (idx - {x.0}).Keys == idx.Keys - {x.0};
      assert (x.0, x.1) in pairs;
    }
  }

  /** No schedule lists more than the allowed number of folders at once, and none goes on for ever. */
  lemma BuildIsBounded(asked: int, root: Folder, steps: seq<Step>)
    requires Named(root.children) && IsRun(Parallelism(asked), root, steps)
    ensures Total(IsListing(), After(Parallelism(asked), root, steps).tasks) <= (if asked > 0 then asked else 8)
    ensures |steps| <= 4 + Weight(root.children)
  {
    RunInv(Parallelism(asked), root, steps);
    InitMeasure(root);
  }

  lemma InitMeasure(root: Folder)
    ensures Measure(Init(root)) == 4 + Weight(root.children)
  {
    var t := Waiting(root, "");
    assert [t][1..] == [];
    assert TaskWeight()(t) == 3 + Weight(root.children);
    assert Total(TaskWeight(), [t]) == TaskWeight()(t);
  }

  /** Until every goroutine has returned one of them can go on, without a failure and without being cancelled. */
  lemma NoDeadlock(n: nat, root: Folder, steps: seq<Step>) returns (step: Step)
    requires n >= 1 && Named(root.children) && IsRun(n, root, steps) && !Finished(After(n, root, steps))
    ensures Enabled(n, After(n, root, steps), step) && !step.Cancel? && !step.ListFailed? && !step.GiveUp?
  {
    var s := After(n, root, steps);
    if t: nat :| t < |s.tasks| && s.tasks[t].Listing? {
      step := Listed(t);
    } else {
      TotalZero(IsListing(), s.tasks);
      var t: nat :| t < |s.tasks| && !s.tasks[t].Returned?;
      step := if s.tasks[t].Waiting? then Acquire(t) else if s.tasks[t].rest == [] then Finish(t) else Next(t);
    }
  }

  predicate Undisturbed(steps: seq<Step>) {
    forall i :: 0 <= i < |steps| ==> !steps[i].Cancel? && !steps[i].ListFailed?
  }

  /** An error in the answer comes from a listing that failed or from cancellation; any listing that fails makes the
      answer an error, however much was indexed. */
  lemma {:induction false} ErrorsAreReported(n: nat, root: Folder, steps: seq<Step>)
    requires IsRun(n, root, steps)
    ensures Undisturbed(steps) ==> !After(n, root, steps).cancelled && Answer(After(n, root, steps)).Some?
    ensures (exists i :: 0 <= i < |steps| && steps[i].ListFailed?) ==> Answer(After(n, root, steps)).None?
  {
    if steps != [] {
      var front, last := steps[..|steps| - 1], steps[|steps| - 1];
      ErrorsAreReported(n, root, front);
      if i :| 0 <= i < |steps| && steps[i].ListFailed? {
        assert i < |front| ==> front[i].ListFailed?;
      }
    }
  }
}
