/**
 The worker pool that runs a plan: a feeder goroutine, N workers on an unbuffered input channel, one
 collector on an unbuffered output channel, and a checkpoint every 64 recorded successes. RunPush and
 RunPull are the same machine over different items, so an item is known here by its position only.

 An unbuffered send and its receive are one step. A worker that has taken an item first looks at the
 context (Look or Skip), then calls its executor (Start), waits for it (Answer), and for the collector (Hand).
 */
module Pool {
  import opened Types

  const CHECKPOINT_INTERVAL: nat := 64

  /** What a worker reports for item `k`: success or failure, and the two numbers its executor returned. */
  datatype Outcome = Outcome(k: nat, ok: bool, a: int, b: int)

  datatype Worker = Idle | Held(k: nat) | Cleared(k: nat) | Calling(k: nat) | Sending(o: Outcome) | Exited

  datatype Collector = Receiving | Handling(o: Outcome) | Returned

  /** `jobs` is the number asked for; fewer than one means one. */
  datatype Config = Config(items: nat, jobs: int, checkpoints: bool)

  /** `produced` and `handled` list the outcomes in the order workers made them and the collector recorded
      them; the first `persisted` of the handled ones are on disk. */
  datatype State = State(
    next: nat,
    inClosed: bool,
    outClosed: bool,
    cancelled: bool,
    workers: seq<Worker>,
    collector: Collector,
    produced: seq<Outcome>,
    handled: seq<Outcome>,
    since: nat,
    persisted: nat,
    saves: nat,
    calls: nat)

  datatype Step =
    | Feed(w: nat)
    | Look(w: nat)
    | Start(w: nat)
    | Skip(w: nat)
    | Answer(w: nat, ok: bool, a: int, b: int)
    | Hand(w: nat)
    | Record
    | Exit(w: nat)
    | CloseIn
    | CloseOut
    | Return
    | Cancel

  function WorkerCount(c: Config): (n: nat)
    ensures n >= 1 && n >= c.jobs
  {
    if c.jobs < 1 then 1 else c.jobs
  }

  function Init(c: Config): State {
    State(0, false, false, false, seq(WorkerCount(c), _ => Idle), Receiving, [], [], 0, 0, 0, 0)
  }

  predicate AllExited(ws: seq<Worker>) {
    forall i :: 0 <= i < |ws| ==> ws[i].Exited?
  }

  predicate Enabled(c: Config, s: State, step: Step) {
    match step
    case Feed(w) => w < |s.workers| && s.workers[w].Idle? && s.next < c.items
    case Look(w) => w < |s.workers| && s.workers[w].Held? && !s.cancelled
    case Start(w) => w < |s.workers| && s.workers[w].Cleared?
    case Skip(w) => w < |s.workers| && s.workers[w].Held? && s.cancelled
    case Answer(w, _, _, _) => w < |s.workers| && s.workers[w].Calling?
    case Hand(w) => w < |s.workers| && s.workers[w].Sending? && s.collector.Receiving?
    case Record => s.collector.Handling?
    case Exit(w) => w < |s.workers| && s.workers[w].Idle? && s.inClosed
    case CloseIn => s.next == c.items && !s.inClosed
    case CloseOut => AllExited(s.workers) && !s.outClosed
    case Return => s.outClosed && s.collector.Receiving?
    case Cancel => !s.cancelled
  }

  /** The collector records one outcome: a success counts towards the next checkpoint, a failure does not. */
  function Recorded(c: Config, s: State): State
    requires s.collector.Handling?
  {
    var s' := s.(collector := Receiving, handled := s.handled + [s.collector.o]);
    if !s.collector.o.ok || !c.checkpoints then s'
    else if s.since + 1 >= CHECKPOINT_INTERVAL then
      s'.(since := 0, persisted := |s'.handled|, saves := s.saves + 1)
    else s'.(since := s.since + 1)
  }

  function Apply(c: Config, s: State, step: Step): State
    requires Enabled(c, s, step)
  {
    match step
    case Feed(w) => s.(workers := s.workers[w := Held(s.next)], next := s.next + 1)
    case Look(w) => s.(workers := s.workers[w := Cleared(s.workers[w].k)])
    case Start(w) => s.(workers := s.workers[w := Calling(s.workers[w].k)], calls := s.calls + 1)
    case Skip(w) =>
      var o := Outcome(s.workers[w].k, false, 0, 0);
      s.(workers := s.workers[w := Sending(o)], produced := s.produced + [o])
    case Answer(w, ok, a, b) =>
      var o := Outcome(s.workers[w].k, ok, a, b);
      s.(workers := s.workers[w := Sending(o)], produced := s.produced + [o])
    case Hand(w) => s.(workers := s.workers[w := Idle], collector := Handling(s.workers[w].o))
    case Record => Recorded(c, s)
    case Exit(w) => s.(workers := s.workers[w := Exited])
    case CloseIn => s.(inClosed := true)
    case CloseOut => s.(outClosed := true)
    case Return => s.(collector := Returned)
    case Cancel => s.(cancelled := true)
  }

  /** A run is any sequence of enabled steps from the initial state: every interleaving is one. */
  predicate IsRun(c: Config, steps: seq<Step>)
    decreases |steps|, 0
  {
    steps == [] ||
    (IsRun(c, steps[..|steps| - 1]) && Enabled(c, After(c, steps[..|steps| - 1]), steps[|steps| - 1]))
  }

  function After(c: Config, steps: seq<Step>): State
    requires IsRun(c, steps)
    decreases |steps|, 1
  {
    if steps == [] then Init(c)
    else Apply(c, After(c, steps[..|steps| - 1]), steps[|steps| - 1])
  }

  // ---- Counting what the workers carry ----

  function Sum(f: Worker -> nat, ws: seq<Worker>): nat {
    if ws == [] then 0 else f(ws[0]) + Sum(f, ws[1..])
  }

  lemma {:induction false} SumUpdate(f: Worker -> nat, ws: seq<Worker>, i: nat, w: Worker)
    requires i < |ws|
    ensures Sum(f, ws[i := w]) + f(ws[i]) == Sum(f, ws) + f(w)
  {
    if i == 0 {
      assert ws[0 := w][1..] == ws[1..];
    } else {
      assert ws[i := w][1..] == ws[1..][i - 1 := w];
      assert ws[i := w][0] == ws[0];
      SumUpdate(f, ws[1..], i - 1, w);
    }
  }

  /** A sum of the same value `v` for every worker. */
  lemma {:induction false} SumConstant(f: Worker -> nat, ws: seq<Worker>, v: nat)
    requires forall i :: 0 <= i < |ws| ==> f(ws[i]) == v
    ensures Sum(f, ws) == v * |ws|
  {
    if ws != [] {
      SumConstant(f, ws[1..], v);
    }
  }

  function One(b: bool): nat {
    if b then 1 else 0
  }

  /** Whether a worker has item `k` and has not answered for it yet. */
  function PendingKey(k: nat): Worker -> nat {
    (w: Worker) => One((w.Held? || w.Cleared? || w.Calling?) && w.k == k)
  }

  /** Whether a worker is waiting to hand over an outcome for `k`. */
  function SendingKey(k: nat): Worker -> nat {
    (w: Worker) => One(w.Sending? && w.o.k == k)
  }

  function SendingOutcome(o: Outcome): Worker -> nat {
    (w: Worker) => One(w.Sending? && w.o == o)
  }

  function Weight(): Worker -> nat {
    (w: Worker) => match w
      case Idle => 1
      case Held(_) => 6
      case Cleared(_) => 5
      case Calling(_) => 4
      case Sending(_) => 3
      case Exited => 0
  }

  // ---- Logs ----

  function KeyCount(log: seq<Outcome>, k: nat): nat {
    if log == [] then 0 else KeyCount(log[..|log| - 1], k) + One(log[|log| - 1].k == k)
  }

  function Count(log: seq<Outcome>, o: Outcome): nat {
    if log == [] then 0 else Count(log[..|log| - 1], o) + One(log[|log| - 1] == o)
  }

  function Successes(log: seq<Outcome>): (n: nat)
    ensures n <= |log|
  {
    if log == [] then 0 else Successes(log[..|log| - 1]) + One(log[|log| - 1].ok)
  }

  /** How much of a log the last checkpoint wrote: up to its latest 64th success. */
  function LastCheckpoint(log: seq<Outcome>): (n: nat)
    ensures n <= |log|
  {
    if log == [] then 0
    else if log[|log| - 1].ok && Successes(log) % CHECKPOINT_INTERVAL == 0 then |log|
    else LastCheckpoint(log[..|log| - 1])
  }

  lemma SuccessesAppend(log: seq<Outcome>, o: Outcome)
    ensures Successes(log + [o]) == Successes(log) + One(o.ok)
  {
    assert (log + [o])[..|log|] == log;
  }

  lemma CountsAppend(log: seq<Outcome>, o: Outcome, k: nat, p: Outcome)
    ensures KeyCount(log + [o], k) == KeyCount(log, k) + One(o.k == k)
    ensures Count(log + [o], p) == Count(log, p) + One(o == p)
  {
    assert (log + [o])[..|log|] == log;
  }

  lemma {:induction false} MemberIsCounted(log: seq<Outcome>, i: nat)
    requires i < |log|
    ensures KeyCount(log, log[i].k) >= 1
    ensures Count(log, log[i]) >= 1
  {
    if i < |log| - 1 {
      MemberIsCounted(log[..|log| - 1], i);
    }
  }

  lemma {:induction false} CountedIsMember(log: seq<Outcome>, o: Outcome)
    requires Count(log, o) >= 1
    ensures o in log
  {
    if log[|log| - 1] != o {
      CountedIsMember(log[..|log| - 1], o);
    }
  }

  /** Some outcome of the log is for item `k`. */
  predicate Reports(log: seq<Outcome>, k: nat) {
    exists i :: 0 <= i < |log| && log[i].k == k
  }

  lemma {:induction false} CountedIsReported(log: seq<Outcome>, k: nat)
    requires KeyCount(log, k) >= 1
    ensures Reports(log, k)
  {
    var n := |log| - 1;
    if log[n].k != k {
      CountedIsReported(log[..n], k);
      var i :| 0 <= i < n && log[..n][i].k == k;
      assert log[i].k == k;
    }
  }

  /** No item twice: the outcomes of a log are told apart by their items. */
  predicate DistinctKeys(log: seq<Outcome>) {
    forall i, j :: 0 <= i < j < |log| ==> log[i].k != log[j].k
  }

  lemma {:induction false} SingleCountsAreDistinct(log: seq<Outcome>)
    requires forall k :: KeyCount(log, k) <= 1
    ensures DistinctKeys(log)
  {
    if log != [] {
      var n := |log| - 1;
      var front, last := log[..n], log[n];
      assert forall k :: KeyCount(log, k) == KeyCount(front, k) + One(last.k == k);
      SingleCountsAreDistinct(front);
      forall i | 0 <= i < n ensures log[i].k != last.k {
        assert front[i] == log[i];
        if front[i].k == last.k {
          MemberIsCounted(front, i);
        }
      }
    }
  }

  // ---- The invariant ----

  /** Item `k`, once taken from the plan, is with exactly one worker, on its way, or in the log, on both sides. */
  predicate KeyAccounted(s: State, k: nat) {
    TakenAccounted(s, k) && MadeAccounted(s, k)
  }

  predicate TakenAccounted(s: State, k: nat) {
    KeyCount(s.produced, k) + Sum(PendingKey(k), s.workers) == One(k < s.next)
  }

  predicate MadeAccounted(s: State, k: nat) {
    KeyCount(s.handled, k) + One(s.collector.Handling? && s.collector.o.k == k)
    + Sum(SendingKey(k), s.workers) == KeyCount(s.produced, k)
  }

  /** Every outcome made is with its worker, with the collector, or recorded. */
  predicate OutcomeAccounted(s: State, o: Outcome) {
    Count(s.handled, o) + One(s.collector == Handling(o)) + Sum(SendingOutcome(o), s.workers) == Count(s.produced, o)
  }

  predicate ChannelsOk(c: Config, s: State) {
    && s.next <= c.items
    && |s.workers| == WorkerCount(c)
    && (s.inClosed ==> s.next == c.items)
    && (forall i :: 0 <= i < |s.workers| && s.workers[i].Exited? ==> s.inClosed)
    && (s.outClosed ==> AllExited(s.workers))
    && (s.collector.Returned? ==> s.outClosed)
  }

  predicate CheckpointsOk(c: Config, s: State) {
    && s.persisted <= |s.handled|
    && (!c.checkpoints ==> s.persisted == 0 && s.saves == 0 && s.since == 0)
    && (c.checkpoints ==>
          && s.since < CHECKPOINT_INTERVAL
          && s.persisted == LastCheckpoint(s.handled)
          && Successes(s.handled) == CHECKPOINT_INTERVAL * s.saves + s.since
          && Successes(s.handled[..s.persisted]) == CHECKPOINT_INTERVAL * s.saves)
  }

  ghost predicate Inv(c: Config, s: State) {
    (forall k :: KeyAccounted(s, k)) && (forall o :: OutcomeAccounted(s, o)) && ChannelsOk(c, s) && CheckpointsOk(c, s)
  }

  function Flag(b: bool): nat {
    if b then 0 else 1
  }

  /** Strictly smaller after every step. */
  function Measure(c: Config, s: State): nat
    requires s.next <= c.items
  {
    6 * (c.items - s.next) + Sum(Weight(), s.workers)
    + (match s.collector case Receiving => 1 case Handling(_) => 2 case Returned => 0)
    + Flag(s.inClosed) + Flag(s.outClosed) + Flag(s.cancelled)
  }

  lemma InitInv(c: Config)
    ensures Inv(c, Init(c))
  {
    var s := Init(c);
    forall k ensures KeyAccounted(s, k) {
      SumConstant(PendingKey(k), s.workers, 0);
      SumConstant(SendingKey(k), s.workers, 0);
    }
    forall o ensures OutcomeAccounted(s, o) {
      SumConstant(SendingOutcome(o), s.workers, 0);
    }
  }

  /** The worker a step moves, if it moves one. */
  function Mover(step: Step): int {
    match step
    case Feed(w) => w
    case Look(w) => w
    case Start(w) => w
    case Skip(w) => w
    case Answer(w, _, _, _) => w
    case Hand(w) => w
    case Exit(w) => w
    case _ => -1
  }

  lemma SumAfter(f: Worker -> nat, c: Config, s: State, step: Step)
    requires Enabled(c, s, step)
    ensures var (w, s') := (Mover(step), Apply(c, s, step));
            if 0 <= w then w < |s.workers| == |s'.workers| && Sum(f, s'.workers) + f(s.workers[w]) == Sum(f, s.workers) + f(s'.workers[w])
            else s'.workers == s.workers
  {
    if 0 <= Mover(step) {
      SumUpdate(f, s.workers, Mover(step), Apply(c, s, step).workers[Mover(step)]);
    }
  }

  /** The outcome a step makes, if it makes one. */
  function Made(s': State, step: Step): Option<Outcome> {
    if (step.Skip? || step.Answer?) && step.w < |s'.workers| && s'.workers[step.w].Sending? then Some(s'.workers[step.w].o) else None
  }

  function With(log: seq<Outcome>, o: Option<Outcome>): seq<Outcome> {
    if o.Some? then log + [o.value] else log
  }

  lemma LogsAfter(c: Config, s: State, step: Step)
    requires Enabled(c, s, step)
    ensures var s' := Apply(c, s, step);
            && (step.Skip? || step.Answer? ==> Made(s', step).Some?)
            && s'.produced == With(s.produced, Made(s', step))
            && s'.handled == With(s.handled, if step.Record? then Some(s.collector.o) else None)
  {
  }

  lemma CountsWith(log: seq<Outcome>, o: Option<Outcome>, k: nat, p: Outcome)
    ensures KeyCount(With(log, o), k) == KeyCount(log, k) + One(o.Some? && o.value.k == k)
    ensures Count(With(log, o), p) == Count(log, p) + One(o == Some(p))
  {
    if o.Some? {
      CountsAppend(log, o.value, k, p);
    }
  }

  lemma StepKeyAccounted(c: Config, s: State, step: Step, k: nat)
    requires KeyAccounted(s, k) && Enabled(c, s, step)
    ensures KeyAccounted(Apply(c, s, step), k)
  {
    StepTaken(c, s, step, k);
    StepMade(c, s, step, k);
  }

  lemma StepTaken(c: Config, s: State, step: Step, k: nat)
    requires TakenAccounted(s, k) && Enabled(c, s, step)
    ensures TakenAccounted(Apply(c, s, step), k)
  {
    LogsAfter(c, s, step);
    KeyTaken(c, s, step, k);
    SumAfter(PendingKey(k), c, s, step);
    TakenBalance(s, Apply(c, s, step), Mover(step), Made(Apply(c, s, step), step), k);
  }

  function Pending(ws: seq<Worker>, w: int, k: nat): nat
    requires w < |ws|
  {
    if 0 <= w then One((ws[w].Held? || ws[w].Cleared? || ws[w].Calling?) && ws[w].k == k) else 0
  }

  /** A step takes an item from the plan, or answers for it. */
  lemma KeyTaken(c: Config, s: State, step: Step, k: nat)
    requires Enabled(c, s, step)
    ensures var (s', w) := (Apply(c, s, step), Mover(step));
            && |s'.workers| == |s.workers| && w < |s.workers|
            && One(Made(s', step).Some? && Made(s', step).value.k == k) + Pending(s'.workers, w, k) + One(k < s.next) ==
               Pending(s.workers, w, k) + One(k < s'.next)
  {
  }

  lemma TakenBalance(s: State, s': State, w: int, made: Option<Outcome>, k: nat)
    requires TakenAccounted(s, k) && w < |s.workers| == |s'.workers| && s'.produced == With(s.produced, made)
    requires One(made.Some? && made.value.k == k) + Pending(s'.workers, w, k) + One(k < s.next) == Pending(s.workers, w, k) + One(k < s'.next)
    requires Sum(PendingKey(k), s'.workers) + Pending(s.workers, w, k) == Sum(PendingKey(k), s.workers) + Pending(s'.workers, w, k)
    ensures TakenAccounted(s', k)
  {
    CountsWith(s.produced, made, k, Outcome(k, true, 0, 0));
  }

  lemma StepMade(c: Config, s: State, step: Step, k: nat)
    requires MadeAccounted(s, k) && Enabled(c, s, step)
    ensures MadeAccounted(Apply(c, s, step), k)
  {
    LogsAfter(c, s, step);
    KeyPassed(c, s, step, k);
    SumAfter(SendingKey(k), c, s, step);
    KeyBalance(s, Apply(c, s, step), Mover(step), Made(Apply(c, s, step), step), if step.Record? then Some(s.collector.o) else None, k);
  }

  function CarriedKey(ws: seq<Worker>, w: int, k: nat): nat
    requires w < |ws|
  {
    if 0 <= w then One(ws[w].Sending? && ws[w].o.k == k) else 0
  }

  lemma KeyPassed(c: Config, s: State, step: Step, k: nat)
    requires Enabled(c, s, step)
    ensures var (s', w) := (Apply(c, s, step), Mover(step));
            && |s'.workers| == |s.workers| && w < |s.workers|
            && One(step.Record? && s.collector.o.k == k) + One(s'.collector.Handling? && s'.collector.o.k == k) + CarriedKey(s'.workers, w, k) ==
               One(Made(s', step).Some? && Made(s', step).value.k == k) + One(s.collector.Handling? && s.collector.o.k == k) + CarriedKey(s.workers, w, k)
  {
  }

  lemma KeyBalance(s: State, s': State, w: int, made: Option<Outcome>, recorded: Option<Outcome>, k: nat)
    requires MadeAccounted(s, k) && w < |s.workers| == |s'.workers|
    requires s'.produced == With(s.produced, made) && s'.handled == With(s.handled, recorded)
    requires One(recorded.Some? && recorded.value.k == k) + One(s'.collector.Handling? && s'.collector.o.k == k) + CarriedKey(s'.workers, w, k) ==
             One(made.Some? && made.value.k == k) + One(s.collector.Handling? && s.collector.o.k == k) + CarriedKey(s.workers, w, k)
    requires Sum(SendingKey(k), s'.workers) + CarriedKey(s.workers, w, k) == Sum(SendingKey(k), s.workers) + CarriedKey(s'.workers, w, k)
    ensures MadeAccounted(s', k)
  {
    CountsWith(s.produced, made, k, Outcome(k, true, 0, 0));
    CountsWith(s.handled, recorded, k, Outcome(k, true, 0, 0));
  }

  /** A step hands an outcome on, from its worker to the collector and from there to the log. */
  lemma OutcomePassed(c: Config, s: State, step: Step, o: Outcome)
    requires Enabled(c, s, step)
    ensures var (s', w) := (Apply(c, s, step), Mover(step));
            && |s'.workers| == |s.workers| && w < |s.workers|
            && One(step.Record? && s.collector.o == o) + One(s'.collector == Handling(o)) + Carried(s'.workers, w, o) ==
               One(Made(s', step) == Some(o)) + One(s.collector == Handling(o)) + Carried(s.workers, w, o)
  {
  }

  function Carried(ws: seq<Worker>, w: int, o: Outcome): nat
    requires w < |ws|
  {
    if 0 <= w then One(ws[w].Sending? && ws[w].o == o) else 0
  }

  lemma StepOutcomeAccounted(c: Config, s: State, step: Step, o: Outcome)
    requires OutcomeAccounted(s, o) && Enabled(c, s, step)
    ensures OutcomeAccounted(Apply(c, s, step), o)
  {
    LogsAfter(c, s, step);
    OutcomePassed(c, s, step, o);
    SumAfter(SendingOutcome(o), c, s, step);
    Balance(s, Apply(c, s, step), Mover(step), Made(Apply(c, s, step), step), if step.Record? then Some(s.collector.o) else None, o);
  }

  lemma Balance(s: State, s': State, w: int, made: Option<Outcome>, recorded: Option<Outcome>, o: Outcome)
    requires OutcomeAccounted(s, o) && w < |s.workers| == |s'.workers|
    requires s'.produced == With(s.produced, made) && s'.handled == With(s.handled, recorded)
    requires One(recorded == Some(o)) + One(s'.collector == Handling(o)) + Carried(s'.workers, w, o) ==
             One(made == Some(o)) + One(s.collector == Handling(o)) + Carried(s.workers, w, o)
    requires Sum(SendingOutcome(o), s'.workers) + Carried(s.workers, w, o) == Sum(SendingOutcome(o), s.workers) + Carried(s'.workers, w, o)
    ensures OutcomeAccounted(s', o)
  {
    CountsWith(s.produced, made, 0, o);
    CountsWith(s.handled, recorded, 0, o);
  }

  lemma StepDecreases(c: Config, s: State, step: Step)
    requires s.next <= c.items && Enabled(c, s, step)
    ensures var s' := Apply(c, s, step); s'.next <= c.items && Measure(c, s') < Measure(c, s)
  {
    SumAfter(Weight(), c, s, step);
  }

  lemma Remainder(n: nat, q: nat, r: nat)
    requires n == CHECKPOINT_INTERVAL * q + r && r < CHECKPOINT_INTERVAL
    ensures n % CHECKPOINT_INTERVAL == r && n / CHECKPOINT_INTERVAL == q
  {
  }

  lemma LastCheckpointAppend(log: seq<Outcome>, o: Outcome, q: nat, r: nat)
    requires Successes(log) == CHECKPOINT_INTERVAL * q + r && r < CHECKPOINT_INTERVAL
    ensures LastCheckpoint(log + [o]) == if o.ok && r == CHECKPOINT_INTERVAL - 1 then |log| + 1 else LastCheckpoint(log)
  {
    assert (log + [o])[..|log|] == log;
    SuccessesAppend(log, o);
    if o.ok {
      if r == CHECKPOINT_INTERVAL - 1 { Remainder(Successes(log + [o]), q + 1, 0); } else { Remainder(Successes(log + [o]), q, r + 1); }
    }
  }

  lemma StepCheckpointsOk(c: Config, s: State, step: Step)
    requires CheckpointsOk(c, s) && Enabled(c, s, step)
    ensures CheckpointsOk(c, Apply(c, s, step))
  {
    if step.Record? {
      RecordedCheckpoints(c, s);
    }
  }

  lemma RecordedCheckpoints(c: Config, s: State)
    requires CheckpointsOk(c, s) && s.collector.Handling?
    ensures CheckpointsOk(c, Recorded(c, s))
  {
    if c.checkpoints {
      var handled := s.handled + [s.collector.o];
      SuccessesAppend(s.handled, s.collector.o);
      LastCheckpointAppend(s.handled, s.collector.o, s.saves, s.since);
      assert handled[..s.persisted] == s.handled[..s.persisted];
      assert handled[..|handled|] == handled;
    }
  }

  lemma StepChannelsOk(c: Config, s: State, step: Step)
    requires ChannelsOk(c, s) && Enabled(c, s, step)
    ensures ChannelsOk(c, Apply(c, s, step))
  {
  }

  lemma StepInv(c: Config, s: State, step: Step)
    requires Inv(c, s) && Enabled(c, s, step)
    ensures Inv(c, Apply(c, s, step))
  {
    forall k ensures KeyAccounted(Apply(c, s, step), k) { StepKeyAccounted(c, s, step, k); }
    forall o ensures OutcomeAccounted(Apply(c, s, step), o) { StepOutcomeAccounted(c, s, step, o); }
    StepChannelsOk(c, s, step);
    StepCheckpointsOk(c, s, step);
  }

  lemma {:induction false} RunInv(c: Config, steps: seq<Step>)
    requires IsRun(c, steps)
    ensures Inv(c, After(c, steps))
    ensures |steps| + Measure(c, After(c, steps)) <= Measure(c, Init(c))
  {
    if steps == [] {
      InitInv(c);
    } else {
      var front, last := steps[..|steps| - 1], steps[|steps| - 1];
      RunInv(c, front);
      StepInv(c, After(c, front), last);
      StepDecreases(c, After(c, front), last);
    }
  }

  // ---- Main results ----

  /** No schedule takes more than 6 steps an item, one a worker and 4 more. */
  lemma EveryRunTerminates(c: Config, steps: seq<Step>)
    requires IsRun(c, steps)
    ensures |steps| <= 6 * c.items + WorkerCount(c) + 4
  {
    RunInv(c, steps);
    SumConstant(Weight(), Init(c).workers, 1);
  }

  /** As long as the collector has not returned, some goroutine can move, without any new cancellation. */
  lemma NoRunDeadlocks(c: Config, steps: seq<Step>) returns (step: Step)
    requires IsRun(c, steps)
    requires !After(c, steps).collector.Returned?
    ensures Enabled(c, After(c, steps), step) && !step.Cancel?
  {
    RunInv(c, steps);
    var s := After(c, steps);
    if s.collector.Handling? {
      step := Record;
    } else if i :| 0 <= i < |s.workers| && !s.workers[i].Exited? {
      step := match s.workers[i]
        case Idle => if s.next < c.items then Feed(i) else if s.inClosed then Exit(i) else CloseIn
        case Held(_) => if s.cancelled then Skip(i) else Look(i)
        case Cleared(_) => Start(i)
        case Calling(_) => Answer(i, true, 0, 0)
        case Sending(_) => Hand(i);
    } else {
      step := if s.outClosed then Return else CloseOut;
    }
  }

  /** In any state of any run each item has at most one outcome, and the collector records none that no worker made. */
  lemma OutcomesAreUnique(c: Config, steps: seq<Step>)
    requires IsRun(c, steps)
    ensures var s := After(c, steps);
            && DistinctKeys(s.produced) && DistinctKeys(s.handled)
            && (forall o :: o in s.produced ==> o.k < c.items)
            && (forall o :: o in s.handled ==> o in s.produced)
  {
    RunInv(c, steps);
    var s := After(c, steps);
    forall k ensures KeyCount(s.produced, k) <= 1 && KeyCount(s.handled, k) <= 1 {
      assert KeyAccounted(s, k);
    }
    SingleCountsAreDistinct(s.produced);
    SingleCountsAreDistinct(s.handled);
    forall o | o in s.produced ensures o.k < c.items {
      var i :| 0 <= i < |s.produced| && s.produced[i] == o;
      MemberIsCounted(s.produced, i);
      assert KeyAccounted(s, o.k);
    }
    forall o | o in s.handled ensures o in s.produced {
      var i :| 0 <= i < |s.handled| && s.handled[i] == o;
      MemberIsCounted(s.handled, i);
      assert OutcomeAccounted(s, o);
      CountedIsMember(s.produced, o);
    }
  }

  /** When the collector returns, every item has exactly one outcome, cancelled or not, and it has been recorded. */
  lemma OneOutcomePerItem(c: Config, steps: seq<Step>)
    requires IsRun(c, steps) && After(c, steps).collector.Returned?
    ensures var s := After(c, steps);
            && |s.handled| == c.items
            && DistinctKeys(s.handled) && DistinctKeys(s.produced)
            && (forall o :: o in s.handled <==> o in s.produced)
            && (forall k: nat :: k < c.items ==> Reports(s.handled, k))
  {
    RunInv(c, steps);
    OutcomesAreUnique(c, steps);
    var s := After(c, steps);
    forall k: nat ensures KeyCount(s.handled, k) == KeyCount(s.produced, k) == One(k < c.items) {
      assert KeyAccounted(s, k);
      SumConstant(PendingKey(k), s.workers, 0);
      SumConstant(SendingKey(k), s.workers, 0);
    }
    forall k: nat | k < c.items ensures Reports(s.handled, k) {
      CountedIsReported(s.handled, k);
    }
    forall o | o in s.produced ensures o in s.handled {
      var i :| 0 <= i < |s.produced| && s.produced[i] == o;
      MemberIsCounted(s.produced, i);
      assert OutcomeAccounted(s, o);
      SumConstant(SendingOutcome(o), s.workers, 0);
      CountedIsMember(s.handled, o);
    }
    FullLogLength(s.handled, c.items);
  }

  /** A log with one outcome for each of 0..n has n outcomes. */
  lemma {:induction false} FullLogLength(log: seq<Outcome>, n: nat)
    requires forall k: nat :: KeyCount(log, k) == One(k < n)
    ensures |log| == n
  {
    SingleCountsAreDistinct(log);
    var keys := set i | 0 <= i < |log| :: log[i].k;
    forall k: nat ensures k in keys <==> k < n {
      if k < n {
        assert KeyCount(log, k) == 1;
        CountedIsReported(log, k);
      } else if k in keys {
        var i :| 0 <= i < |log| && log[i].k == k;
        MemberIsCounted(log, i);
      }
    }
    KeySetSize(log, keys);
    RangeSize(n, keys);
  }

  lemma {:induction false} KeySetSize(log: seq<Outcome>, keys: set<nat>)
    requires DistinctKeys(log) && keys == set i | 0 <= i < |log| :: log[i].k
    ensures |keys| == |log|
  {
    if log == [] {
      assert keys == {};
    } else {
      var n := |log| - 1;
      var rest := set i | 0 <= i < n :: log[..n][i].k;
      KeySetSize(log[..n], rest);
      assert keys == rest + {log[n].k} by {
        forall k | k in keys ensures k in rest + {log[n].k} {
          var i :| 0 <= i <= n && log[i].k == k;
          if i < n { assert log[..n][i].k == k; }
        }
      }
      assert log[n].k !in rest;
    }
  }

  lemma {:induction false} RangeSize(n: nat, keys: set<nat>)
    requires forall k: nat :: k in keys <==> k < n
    ensures |keys| == n
  {
    if n == 0 {
      assert keys == {};
    } else {
      assert n - 1 in keys;
      RangeSize(n - 1, keys - {n - 1});
    }
  }

  /** A call under way may still succeed; an unrecorded success has already done its work. */
  function AtRisk(): Worker -> nat {
    (w: Worker) => One(w.Calling? || (w.Sending? && w.o.ok))
  }

  lemma {:induction false} OnePerWorker(ws: seq<Worker>)
    ensures Sum(AtRisk(), ws) <= |ws|
  {
    if ws != [] {
      OnePerWorker(ws[1..]);
    }
  }

  /** Actions carried out, or under way, that a crash at this moment would find missing from the disk. */
  function Unsaved(s: State): int
    requires s.persisted <= |s.handled|
  {
    Successes(s.handled) - Successes(s.handled[..s.persisted])
    + One(s.collector.Handling? && s.collector.o.ok) + Sum(AtRisk(), s.workers)
  }

  /** With checkpoints on, a crash at any moment of any run loses the record of at most 64 actions plus one a
      worker; and a checkpoint has been taken at every 64th success and at no other time. */
  lemma BoundedRework(c: Config, steps: seq<Step>)
    requires IsRun(c, steps) && c.checkpoints
    ensures var s := After(c, steps);
            && s.persisted == LastCheckpoint(s.handled)
            && Unsaved(s) <= 64 + WorkerCount(c)
            && s.saves == Successes(s.handled) / 64
            && Successes(s.handled[..s.persisted]) == 64 * s.saves
            && (s.collector.Returned? ==> Unsaved(s) < 64)
  {
    RunInv(c, steps);
    OnePerWorker(After(c, steps).workers);
    Remainder(Successes(After(c, steps).handled), After(c, steps).saves, After(c, steps).since);
    if After(c, steps).collector.Returned? {
      SumConstant(AtRisk(), After(c, steps).workers, 0);
    }
  }

  lemma {:induction false} OneCallEach(ws: seq<Worker>)
    ensures Sum(InCall(), ws) <= |ws|
  {
    if ws != [] {
      OneCallEach(ws[1..]);
    }
  }

  /** At no moment are there more executor calls than jobs asked for, or than one if fewer were. */
  lemma CallsAtOnce(c: Config, steps: seq<Step>)
    requires IsRun(c, steps)
    ensures Sum(InCall(), After(c, steps).workers) <= (if c.jobs >= 1 then c.jobs else 1)
  {
    RunInv(c, steps);
    OneCallEach(After(c, steps).workers);
  }

  /** The `i`-th step is the executor's answer for an item, and `o` says what it said. */
  ghost predicate AnsweredAt(c: Config, steps: seq<Step>, i: nat, o: Outcome) {
    && i < |steps| && steps[i].Answer? && IsRun(c, steps[..i])
    && var ws := After(c, steps[..i]).workers;
    steps[i].w < |ws| && ws[steps[i].w] == Calling(o.k) && steps[i].ok == o.ok && steps[i].a == o.a && steps[i].b == o.b
  }

  /** The `i`-th step passes over an item because the context has been cancelled. */
  ghost predicate SkippedAt(c: Config, steps: seq<Step>, i: nat, o: Outcome) {
    && i < |steps| && steps[i].Skip? && IsRun(c, steps[..i]) && After(c, steps[..i]).cancelled
    && var ws := After(c, steps[..i]).workers;
    steps[i].w < |ws| && ws[steps[i].w] == Held(o.k) && o == Outcome(o.k, false, 0, 0)
  }

  /** Where an outcome comes from. */
  ghost predicate HasSource(c: Config, steps: seq<Step>, o: Outcome) {
    (exists i: nat :: AnsweredAt(c, steps, i, o)) || (exists i: nat :: SkippedAt(c, steps, i, o))
  }

  lemma SourceStays(c: Config, steps: seq<Step>, o: Outcome)
    requires steps != [] && HasSource(c, steps[..|steps| - 1], o)
    ensures HasSource(c, steps, o)
  {
    var front := steps[..|steps| - 1];
    if i: nat :| AnsweredAt(c, front, i, o) {
      assert front[..i] == steps[..i];
      assert AnsweredAt(c, steps, i, o);
    } else {
      var i: nat :| SkippedAt(c, front, i, o);
      assert front[..i] == steps[..i];
      assert SkippedAt(c, steps, i, o);
    }
  }

  /** The collector is told what the executors said: every outcome is the answer of a call, as it was given, or a failure
      for an item passed over after a cancellation. */
  lemma {:induction false} OutcomesAreAnswers(c: Config, steps: seq<Step>, o: Outcome)
    requires IsRun(c, steps) && o in After(c, steps).produced
    ensures HasSource(c, steps, o)
  {
    var n := |steps| - 1;
    var s := After(c, steps[..n]);
    if o in s.produced {
      OutcomesAreAnswers(c, steps[..n], o);
      SourceStays(c, steps, o);
    } else {
      LogsAfter(c, s, steps[n]);
      assert AnsweredAt(c, steps, n, o) || SkippedAt(c, steps, n, o);
    }
  }

  lemma {:induction false} CancelledFromThen(c: Config, steps: seq<Step>, n: nat)
    requires IsRun(c, steps) && n <= |steps| && IsRun(c, steps[..n]) && After(c, steps[..n]).cancelled
    ensures After(c, steps).cancelled
  {
    if n < |steps| {
      var front := steps[..|steps| - 1];
      assert front[..n] == steps[..n];
      CancelledFromThen(c, front, n);
    } else {
      assert steps[..n] == steps;
    }
  }

  /** In a run that is not cancelled every item is given to an executor, and its outcome is what the executor said. */
  lemma WithoutCancelAllAreCalled(c: Config, steps: seq<Step>, k: nat)
    requires IsRun(c, steps) && After(c, steps).collector.Returned? && !After(c, steps).cancelled && k < c.items
    ensures exists o, i: nat :: o in After(c, steps).handled && o.k == k && AnsweredAt(c, steps, i, o)
  {
    OneOutcomePerItem(c, steps);
    var log := After(c, steps).handled;
    assert Reports(log, k);
    var j :| 0 <= j < |log| && log[j].k == k;
    assert log[j] in log;
    OutcomesAreAnswers(c, steps, log[j]);
    if i: nat :| SkippedAt(c, steps, i, log[j]) {
      CancelledFromThen(c, steps, i);
    }
  }

  function LiveSeen(): Worker -> nat {
    (w: Worker) => One(w.Cleared?)
  }

  lemma {:induction false} AtMostOneEach(ws: seq<Worker>)
    ensures Sum(LiveSeen(), ws) <= |ws|
  {
    if ws != [] {
      AtMostOneEach(ws[1..]);
    }
  }

  lemma StepLiveSeen(c: Config, s: State, step: Step)
    requires Enabled(c, s, step)
    ensures var s' := Apply(c, s, step);
            Sum(LiveSeen(), s'.workers) + One(step.Start?) == Sum(LiveSeen(), s.workers) + One(step.Look?)
            && s'.calls == s.calls + One(step.Start?) && (s.cancelled ==> s'.cancelled && !step.Look?)
  {
    SumAfter(LiveSeen(), c, s, step);
  }

  /** Once the context is cancelled no worker that looks at it starts a call: the only calls still to come are those of
      the workers that had looked just before, at most one each. */
  lemma {:induction false} CancelStopsCalls(c: Config, steps: seq<Step>, n: nat)
    requires n <= |steps| && IsRun(c, steps)
    ensures IsRun(c, steps[..n])
    ensures var (before, now) := (After(c, steps[..n]), After(c, steps));
            before.cancelled ==>
              && now.cancelled && now.calls + Sum(LiveSeen(), now.workers) == before.calls + Sum(LiveSeen(), before.workers)
              && now.calls <= before.calls + WorkerCount(c)
  {
    if n == |steps| {
      assert steps[..n] == steps;
    } else {
      var front := steps[..|steps| - 1];
      assert front[..n] == steps[..n];
      CancelStopsCalls(c, front, n);
      StepLiveSeen(c, After(c, front), steps[|steps| - 1]);
    }
    RunInv(c, steps[..n]);
    AtMostOneEach(After(c, steps[..n]).workers);
  }

  /** Every success comes from a call that was started. */
  lemma {:induction false} SuccessesNeedCalls(c: Config, steps: seq<Step>)
    requires IsRun(c, steps)
    ensures var s := After(c, steps); Successes(s.produced) + Sum(InCall(), s.workers) <= s.calls
  {
    if steps == [] {
      SumConstant(InCall(), Init(c).workers, 0);
    } else {
      var front, last := steps[..|steps| - 1], steps[|steps| - 1];
      SuccessesNeedCalls(c, front);
      StepCalls(c, After(c, front), last);
    }
  }

  lemma StepCalls(c: Config, s: State, step: Step)
    requires Enabled(c, s, step) && Successes(s.produced) + Sum(InCall(), s.workers) <= s.calls
    ensures var s' := Apply(c, s, step); Successes(s'.produced) + Sum(InCall(), s'.workers) <= s'.calls
  {
    StepInCall(c, s, step);
    StepSuccesses(c, s, step);
  }

  lemma StepInCall(c: Config, s: State, step: Step)
    requires Enabled(c, s, step)
    ensures var s' := Apply(c, s, step);
            Sum(InCall(), s'.workers) + One(step.Answer?) == Sum(InCall(), s.workers) + One(step.Start?)
            && s'.calls == s.calls + One(step.Start?)
  {
    SumAfter(InCall(), c, s, step);
  }

  lemma StepSuccesses(c: Config, s: State, step: Step)
    requires Enabled(c, s, step)
    ensures Successes(Apply(c, s, step).produced) <= Successes(s.produced) + One(step.Answer?)
  {
    if step.Skip? || step.Answer? {
      SuccessesAppend(s.produced, Apply(c, s, step).workers[step.w].o);
    }
  }

  function InCall(): Worker -> nat {
    (w: Worker) => One(w.Calling?)
  }
}
