/**
 The write handle of the mounted drive: writes and truncations go to a working file, seeded from the drive on the
 first write of an edit, and the working file is uploaded once.
 */
module WriteHandles {
  import opened Types

  // ---- POSIX files ----

  function Zeros(n: nat): (z: Bytes)
    ensures |z| == n && forall i :: 0 <= i < n ==> z[i] == 0
  {
    seq(n, _ => 0)
  }

  /** pwrite: bytes between the end and the offset read as zero; writing nothing does nothing. */
  function Pwrite(c: Bytes, data: Bytes, off: nat): Bytes {
    if data == [] then c
    else (if off <= |c| then c[..off] else c + Zeros(off - |c|)) + data + (if off + |data| < |c| then c[off + |data|..] else [])
  }

  function Ftruncate(c: Bytes, n: nat): Bytes {
    if n <= |c| then c[..n] else c + Zeros(n - |c|)
  }

  // ---- The handle ----

  /** The handle's fields, and the bodies the drive has accepted from it. `cursor` is the working file's own position,
      where seeding appends. */
  datatype Handle = Handle(existing: bool, tmp: Option<Bytes>, cursor: nat, uploaded: bool, wrote: bool, truncated: bool,
                           seeded: bool, uploads: seq<Bytes>)

  /** How a download goes: all of it, an error before the first byte, or an error after `k` bytes. */
  datatype Seed = Got | Refused | Broken(k: nat)

  /** How a write to the working file goes: all of it, or an error after `k` bytes. */
  datatype Disk = Full | Torn(k: nat)

  /** A call, with what the drive and the disk make of it. */
  datatype Event = Write(data: Bytes, off: nat, seed: Seed, disk: Disk) | Truncate(n: nat, resized: bool) | Flush(accepted: bool) | Release(accepted: bool)

  function Opened(existing: bool, truncated: bool): Handle {
    Handle(existing, Some([]), 0, false, false, truncated, false, [])
  }

  /** What an edit may leave out: the handle holds the whole content of the file. */
  predicate Whole(h: Handle) {
    h.seeded || h.truncated || !h.existing
  }

  /** Seeding from the drive's content `orig`: the new handle, and whether it worked. */
  function Seeded(h: Handle, orig: Bytes, seed: Seed): (Handle, bool) {
    if Whole(h) then (h, true)
    else match seed
      case Refused => (h, false)
      case Got => if h.tmp.None? then (h, false)
        else (h.(tmp := Some(Pwrite(h.tmp.value, orig, h.cursor)), cursor := h.cursor + |orig|, seeded := true), true)
      case Broken(k) => if h.tmp.None? || |orig| < k then (h, false)
        else (h.(tmp := Some(Pwrite(h.tmp.value, orig[..k], h.cursor)), cursor := h.cursor + k), false)
  }

  function Committed(h: Handle, accepted: bool): Handle {
    if h.tmp.None? then h
    else if !accepted then h.(cursor := |h.tmp.value|)
    else h.(cursor := |h.tmp.value|, uploaded := true, uploads := h.uploads + [h.tmp.value])
  }

  /** Whether a write gets through. */
  predicate Writes(h: Handle, orig: Bytes, e: Event) {
    e.Write? && Seeded(h, orig, e.seed).1 && h.tmp.Some? && e.disk.Full?
  }

  /** The bytes that reach the working file. */
  function Reaching(data: Bytes, disk: Disk): Bytes {
    if disk.Torn? && disk.k < |data| then data[..disk.k] else data
  }

  function Step(h: Handle, orig: Bytes, e: Event): Handle {
    match e
    case Write(data, off, seed, disk) =>
      var (s, ok) := Seeded(h, orig, seed);
      if !ok || s.tmp.None? then s
      else s.(tmp := Some(Pwrite(s.tmp.value, Reaching(data, disk), off)), wrote := s.wrote || disk.Full?)
    case Truncate(n, resized) =>
      h.(truncated := true, seeded := true, tmp := if h.tmp.Some? && resized then Some(Ftruncate(h.tmp.value, n)) else h.tmp)
    case Flush(accepted) => if h.uploaded || !h.wrote then h else Committed(h, accepted)
    case Release(accepted) =>
      if h.tmp.None? then h
      else (if !h.uploaded && h.wrote then Committed(h, accepted) else h).(tmp := None)
  }

  class WriteHandle {
    const existing: bool
    const orig: Bytes
    var tmp: Option<Bytes>
    var cursor: nat
    var uploaded: bool
    var wrote: bool
    var truncated: bool
    var seeded: bool
    var uploads: seq<Bytes>

    /** Open: the working file starts empty, and stays unseeded when the file was opened for truncation or is empty. */
    constructor (existing: bool, orig: Bytes, truncate: bool)
      ensures this.orig == orig && Now() == Opened(existing, truncate || orig == [])
    {
      this.existing, this.orig := existing, orig;
      tmp, cursor, uploaded, wrote, truncated, seeded, uploads := Some([]), 0, false, false, truncate || orig == [], false, [];
    }

    function Now(): Handle
      reads this
    {
      Handle(existing, tmp, cursor, uploaded, wrote, truncated, seeded, uploads)
    }

    /** That the working file could not be resized is ignored. */
    method TruncateTo(n: nat, resized: bool)
      modifies this
      ensures Now() == Step(old(Now()), orig, Truncate(n, resized))
    {
      truncated := true;
      seeded := true;
      if tmp.Some? && resized {
        tmp := Some(Ftruncate(tmp.value, n));
      }
    }

    method SeedLocked(seed: Seed) returns (ok: bool)
      modifies this
      ensures (Now(), ok) == Seeded(old(Now()), orig, seed)
    {
      if seeded || truncated || !existing {
        return true;
      }
      if seed.Refused? || tmp.None? || (seed.Broken? && |orig| < seed.k) {
        return false;
      }
      var bytes := if seed.Got? then orig else orig[..seed.k];
      tmp, cursor := Some(Pwrite(tmp.value, bytes, cursor)), cursor + |bytes|;
      if seed.Broken? {
        return false;
      }
      seeded := true;
      return true;
    }

    method Write(data: Bytes, off: nat, seed: Seed, disk: Disk) returns (ok: bool)
      modifies this
      ensures Now() == Step(old(Now()), orig, Event.Write(data, off, seed, disk))
      ensures ok == Writes(old(Now()), orig, Event.Write(data, off, seed, disk))
    {
      var s := SeedLocked(seed);
      if !s || tmp.None? {
        return false;
      }
      tmp := Some(Pwrite(tmp.value, Reaching(data, disk), off));
      if disk.Torn? {
        return false;
      }
      wrote := true;
      return true;
    }

    method Flush(accepted: bool) returns (ok: bool)
      modifies this
      ensures Now() == Step(old(Now()), orig, Event.Flush(accepted))
      ensures ok <==> old(uploaded) || !old(wrote) || (accepted && old(tmp).Some?)
      ensures ok ==> uploaded || !wrote
    {
      if uploaded || !wrote {
        return true;
      }
      ok := CommitLocked(accepted);
    }

    method CommitLocked(accepted: bool) returns (ok: bool)
      modifies this
      ensures Now() == Committed(old(Now()), accepted)
      ensures ok <==> accepted && old(tmp).Some?
      ensures ok ==> uploaded
    {
      if tmp.None? {
        return false;
      }
      cursor := |tmp.value|;
      if !accepted {
        return false;
      }
      uploaded, uploads := true, uploads + [tmp.value];
      return true;
    }

    method Release(accepted: bool)
      modifies this
      ensures Now() == Step(old(Now()), orig, Event.Release(accepted))
    {
      if tmp.None? {
        return;
      }
      if !uploaded && wrote {
        var _ := CommitLocked(accepted);
      }
      tmp := None;
    }
  }

  // ---- Runs ----

  function Run(h: Handle, orig: Bytes, es: seq<Event>): Handle {
    if es == [] then h else Step(Run(h, orig, es[..|es| - 1]), orig, es[|es| - 1])
  }

  /** What a file on a local disk would hold after the calls that got through. */
  function Posix(h: Handle, orig: Bytes, es: seq<Event>): Bytes {
    if es == [] then (if h.existing && !h.truncated then orig else [])
    else
      var (front, e) := (es[..|es| - 1], es[|es| - 1]);
      match e
      case Write(data, off, _, _) =>
        if Writes(Run(h, orig, front), orig, e) then Pwrite(Posix(h, orig, front), data, off) else Posix(h, orig, front)
      case Truncate(n, _) => if Run(h, orig, front).tmp.Some? then Ftruncate(Posix(h, orig, front), n) else Posix(h, orig, front)
      case _ => Posix(h, orig, front)
  }

  /** What callers, drive and disk have to keep to: no download and no write breaks off half way, the working file can be
      resized or has the size already, a handle that has not been seeded is not truncated except to nothing, and nothing
      is written or truncated once the content has been committed. */
  predicate Orderly(h: Handle, e: Event) {
    match e
    case Write(data, _, seed, disk) => !h.uploaded && (seed.Broken? ==> seed.k == 0) && (disk.Torn? ==> Reaching(data, disk) == [])
    case Truncate(n, resized) => !h.uploaded && (if resized then n == 0 || Whole(h) else h.tmp.Some? ==> |h.tmp.value| == n)
    case _ => true
  }

  predicate OrderlyRun(h: Handle, orig: Bytes, es: seq<Event>) {
    forall i :: 0 <= i < |es| ==> Orderly(Run(h, orig, es[..i]), es[i])
  }

  lemma OrderlyFront(h: Handle, orig: Bytes, es: seq<Event>)
    requires es != [] && OrderlyRun(h, orig, es)
    ensures OrderlyRun(h, orig, es[..|es| - 1]) && Orderly(Run(h, orig, es[..|es| - 1]), es[|es| - 1])
  {
    var front := es[..|es| - 1];
    forall i | 0 <= i < |front| ensures Orderly(Run(h, orig, front[..i]), front[i]) {
      assert front[..i] == es[..i];
    }
  }

  /** How a handle stands to the POSIX content `c`. */
  predicate Tracks(h: Handle, orig: Bytes, c: Bytes) {
    && (h.tmp.Some? && Whole(h) ==> h.tmp.value == c)
    && (h.tmp.Some? && !Whole(h) ==> h.tmp.value == [] && c == orig)
    && (!Whole(h) ==> h.cursor == 0 && !h.wrote)
    && (!h.wrote ==> h.uploads == [] && !h.uploaded)
    && (h.uploads == if h.uploaded then [c] else [])
  }

  lemma StepTracks(h: Handle, orig: Bytes, c: Bytes, e: Event)
    requires Tracks(h, orig, c) && Orderly(h, e)
    ensures Tracks(Step(h, orig, e), orig,
                   if Writes(h, orig, e) then Pwrite(c, e.data, e.off)
                   else if e.Truncate? && h.tmp.Some? then Ftruncate(c, e.n) else c)
  {
    if e.Write? && !Whole(h) && h.tmp.Some? {
      assert Pwrite([], orig, 0) == orig;
      assert e.seed.Broken? ==> Pwrite([], orig[..0], 0) == [];
    }
  }

  lemma {:induction false} RunTracks(existing: bool, truncated: bool, orig: Bytes, es: seq<Event>)
    requires OrderlyRun(Opened(existing, truncated), orig, es)
    ensures var h := Opened(existing, truncated); Tracks(Run(h, orig, es), orig, Posix(h, orig, es))
  {
    if es != [] {
      OrderlyFront(Opened(existing, truncated), orig, es);
      RunTracks(existing, truncated, orig, es[..|es| - 1]);
      var h := Opened(existing, truncated);
      StepTracks(Run(h, orig, es[..|es| - 1]), orig, Posix(h, orig, es[..|es| - 1]), es[|es| - 1]);
    }
  }

  // ---- Main results ----

  /** Some write got through. */
  ghost predicate WroteIn(h: Handle, orig: Bytes, es: seq<Event>) {
    exists i: nat :: WritesAt(h, orig, es, i)
  }

  predicate WritesAt(h: Handle, orig: Bytes, es: seq<Event>, i: nat) {
    i < |es| && Writes(Run(h, orig, es[..i]), orig, es[i])
  }

  /** Whatever is called in whatever order, the drive accepts at most one upload, and none unless a write got through. */
  lemma {:induction false} OneUploadAtMost(existing: bool, truncated: bool, orig: Bytes, es: seq<Event>)
    ensures var h := Run(Opened(existing, truncated), orig, es);
            Counted(h) && (h.wrote <==> WroteIn(Opened(existing, truncated), orig, es))
  {
    if es != [] {
      OneUploadAtMost(existing, truncated, orig, es[..|es| - 1]);
      StepCounted(Run(Opened(existing, truncated), orig, es[..|es| - 1]), orig, es[|es| - 1]);
      WroteInFront(Opened(existing, truncated), orig, es);
    }
  }

  predicate Counted(h: Handle) {
    |h.uploads| == (if h.uploaded then 1 else 0) && (h.uploaded ==> h.wrote)
  }

  lemma StepCounted(h: Handle, orig: Bytes, e: Event)
    requires Counted(h)
    ensures Counted(Step(h, orig, e)) && Step(h, orig, e).wrote == (h.wrote || Writes(h, orig, e))
  {
  }

  lemma WroteInFront(h: Handle, orig: Bytes, es: seq<Event>)
    requires es != []
    ensures var front := es[..|es| - 1];
            WroteIn(h, orig, es) <==> WroteIn(h, orig, front) || Writes(Run(h, orig, front), orig, es[|es| - 1])
  {
    var front := es[..|es| - 1];
    forall i: nat ensures WritesAt(h, orig, es, i) <==> WritesAt(h, orig, front, i) || (i == |front| && Writes(Run(h, orig, front), orig, es[|es| - 1])) {
      WritesInFront(h, orig, es, i);
    }
    assert WritesAt(h, orig, es, |front|) <==> Writes(Run(h, orig, front), orig, es[|es| - 1]);
  }

  lemma WritesInFront(h: Handle, orig: Bytes, es: seq<Event>, i: nat)
    requires es != []
    ensures var front := es[..|es| - 1];
            WritesAt(h, orig, es, i) <==> WritesAt(h, orig, front, i) || (i == |front| && Writes(Run(h, orig, front), orig, es[|es| - 1]))
  {
    if i < |es| - 1 {
      assert es[..|es| - 1][..i] == es[..i];
    }
  }

  /** The handle is a POSIX file committed once: in an orderly run whatever was uploaded is the content a local file
      would have, and after a release that the drive accepts it has been uploaded if anything was written. */
  lemma HandleIsPosixFile(existing: bool, truncated: bool, orig: Bytes, es: seq<Event>)
    requires OrderlyRun(Opened(existing, truncated), orig, es)
    ensures var h0 := Opened(existing, truncated);
            var h := Run(h0, orig, es);
            && h.uploads == (if h.uploaded then [Posix(h0, orig, es)] else [])
            && (es != [] && es[|es| - 1] == Release(true) && Run(h0, orig, es[..|es| - 1]).tmp.Some? && WroteIn(h0, orig, es) ==> h.uploaded)
  {
    var h0 := Opened(existing, truncated);
    RunTracks(existing, truncated, orig, es);
    OneUploadAtMost(existing, truncated, orig, es);
  }

  lemma {:induction false} RunJoins(h: Handle, orig: Bytes, a: seq<Event>, b: seq<Event>)
    ensures Run(h, orig, a + b) == Run(Run(h, orig, a), orig, b)
  {
    if b == [] {
      assert a + b == a;
    } else {
      var front := b[..|b| - 1];
      RunJoins(h, orig, a, front);
      assert (a + b)[..|a + b| - 1] == a + front;
    }
  }

  /** A write gets through exactly if the handle is open, the disk takes it, and the file's content is there already or
      is downloaded for it, or need not be. */
  lemma WritesIff(h: Handle, orig: Bytes, e: Event)
    ensures Writes(h, orig, e) <==>
              && e.Write? && e.disk.Full? && h.tmp.Some?
              && (h.seeded || h.truncated || !h.existing || e.seed.Got?)
  {
  }

  /** A flush that the drive accepts commits: in an orderly run in which a write got through, the drive has the POSIX
      content after it. One that it refuses commits nothing, and a later one can. */
  lemma FlushCommits(existing: bool, truncated: bool, orig: Bytes, es: seq<Event>, accepted: bool)
    requires OrderlyRun(Opened(existing, truncated), orig, es)
    requires var h := Run(Opened(existing, truncated), orig, es);
             h.tmp.Some? && WroteIn(Opened(existing, truncated), orig, es)
    ensures var h0 := Opened(existing, truncated);
            var (before, after) := (Run(h0, orig, es), Run(h0, orig, es + [Flush(accepted)]));
            && after.tmp == before.tmp && after.wrote
            && (accepted || before.uploaded ==> after.uploaded && after.uploads == [Posix(h0, orig, es)])
            && (!accepted && !before.uploaded ==> !after.uploaded && after.uploads == [])
  {
    var h0 := Opened(existing, truncated);
    RunTracks(existing, truncated, orig, es);
    OneUploadAtMost(existing, truncated, orig, es);
    assert (es + [Flush(accepted)])[..|es|] == es;
    WrittenIsWhole(Run(h0, orig, es), orig, Posix(h0, orig, es));
  }

  lemma WrittenIsWhole(h: Handle, orig: Bytes, c: Bytes)
    requires Tracks(h, orig, c) && h.wrote && h.tmp.Some?
    ensures h.tmp.value == c
  {
  }

  /** A released handle is closed for good: whatever is called after, no write gets through and nothing is uploaded. */
  lemma {:induction false} ReleaseCloses(h: Handle, orig: Bytes, accepted: bool, more: seq<Event>)
    ensures var (closed, after) := (Step(h, orig, Release(accepted)), Run(Step(h, orig, Release(accepted)), orig, more));
            && closed.tmp.None? && after.tmp.None? && after.uploads == closed.uploads
            && forall e :: !Writes(after, orig, e)
  {
    if more != [] {
      ReleaseCloses(h, orig, accepted, more[..|more| - 1]);
    }
  }

  /** A flush before the first write changes nothing, whatever follows. */
  lemma EarlyFlushIsHarmless(h: Handle, orig: Bytes, es: seq<Event>, rest: seq<Event>, accepted: bool)
    requires !Run(h, orig, es).wrote
    ensures Run(h, orig, es + [Flush(accepted)] + rest) == Run(h, orig, es + rest)
  {
    RunJoins(h, orig, es, rest);
    RunJoins(h, orig, es + [Flush(accepted)], rest);
    assert (es + [Flush(accepted)])[..|es|] == es;
  }

  // ---- Where it is not one ----

  /** Truncating an unseeded edit to `n` bytes keeps the file's first bytes only if they are all zero: the working file
      is filled with zeros and will not be seeded any more. */
  lemma TruncateBeforeSeedingIff(h: Handle, orig: Bytes, n: nat)
    requires Tracks(h, orig, orig) && h.tmp.Some? && !Whole(h)
    ensures Tracks(Step(h, orig, Truncate(n, true)), orig, Ftruncate(orig, n)) <==> forall i :: 0 <= i < n && i < |orig| ==> orig[i] == 0
  {
    assert Ftruncate([], n) == Zeros(n);
    var c := Ftruncate(orig, n);
    assert |c| == n && forall i :: 0 <= i < n ==> c[i] == if i < |orig| then orig[i] else 0;
    if forall i :: 0 <= i < n && i < |orig| ==> orig[i] == 0 {
      assert c == Zeros(n);
    } else {
      var i :| 0 <= i < n && i < |orig| && orig[i] != 0;
      assert c[i] != Zeros(n)[i];
    }
  }

  /** A truncation that the disk refuses is taken for done: the content is right only if the working file had that size
      already. */
  lemma TruncateRefusedIff(h: Handle, orig: Bytes, c: Bytes, n: nat)
    requires Tracks(h, orig, c) && h.tmp.Some?
    ensures Tracks(Step(h, orig, Truncate(n, false)), orig, Ftruncate(c, n)) <==> |h.tmp.value| == n
  {
    assert |Ftruncate(c, n)| == n;
    if |h.tmp.value| == n {
      assert Ftruncate(h.tmp.value, n) == h.tmp.value;
      assert !Whole(h) ==> n == 0 && Ftruncate(c, n) == [];
    }
  }

  /** A write that the disk cuts short is reported as failed, but the bytes that reached the working file stay in it:
      the content is right only if they change nothing. */
  lemma TornWriteIff(h: Handle, orig: Bytes, c: Bytes, data: Bytes, off: nat, k: nat)
    requires Tracks(h, orig, c) && h.tmp.Some? && Whole(h)
    ensures var e := Event.Write(data, off, Got, Torn(k));
            && !Writes(h, orig, e)
            && (Tracks(Step(h, orig, e), orig, c) <==> Pwrite(c, Reaching(data, Torn(k)), off) == c)
  {
  }

  /** A download that breaks off after `k` bytes and is taken up again at the next write leaves these bytes in front of
      the file, so the working file is right only if there were none. */
  lemma BrokenSeedIff(h: Handle, orig: Bytes, k: nat)
    requires Tracks(h, orig, orig) && h.tmp.Some? && !Whole(h) && k <= |orig|
    ensures var again := Seeded(Seeded(h, orig, Broken(k)).0, orig, Got);
            again.1 && again.0.tmp == Some(orig[..k] + orig) && (Tracks(again.0, orig, orig) <==> k == 0)
  {
    var once := Seeded(h, orig, Broken(k)).0;
    assert once.tmp.value == orig[..k];
    assert Pwrite(orig[..k], orig, k) == orig[..k] + orig;
    assert |orig[..k] + orig| == k + |orig|;
    assert k == 0 ==> orig[..k] + orig == orig;
  }

  /** Once the content has been committed nothing that follows is ever uploaded: the drive has the POSIX content after
      `more` exactly if it is what it was before. */
  lemma LateWritesAreLostIff(existing: bool, truncated: bool, orig: Bytes, es: seq<Event>, more: seq<Event>)
    requires OrderlyRun(Opened(existing, truncated), orig, es) && Run(Opened(existing, truncated), orig, es).uploaded
    ensures var h0 := Opened(existing, truncated);
            Run(h0, orig, es + more).uploads == [Posix(h0, orig, es + more)] <==> Posix(h0, orig, es + more) == Posix(h0, orig, es)
  {
    RunTracks(existing, truncated, orig, es);
    RunJoins(Opened(existing, truncated), orig, es, more);
    NothingAfterCommit(Run(Opened(existing, truncated), orig, es), orig, more);
  }

  lemma {:induction false} NothingAfterCommit(h: Handle, orig: Bytes, more: seq<Event>)
    requires h.uploaded
    ensures Run(h, orig, more).uploaded && Run(h, orig, more).uploads == h.uploads
  {
    if more != [] {
      var front := more[..|more| - 1];
      NothingAfterCommit(h, orig, front);
      StepAfterCommit(Run(h, orig, front), orig, more[|more| - 1]);
    }
  }

  lemma StepAfterCommit(h: Handle, orig: Bytes, e: Event)
    requires h.uploaded
    ensures Step(h, orig, e).uploaded && Step(h, orig, e).uploads == h.uploads
  {
  }
}
