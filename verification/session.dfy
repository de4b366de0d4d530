/**
 The upload-session protocol: start, chunks, finish, and cancel after a failure. A request can be carried out
 without its answer arriving, and is sent again, so the server can see each one several times.
 */
module Sessions {
  import opened Types
  import opened Chunks
  import opened Accounts

  datatype Status = Open | Closed(content: Bytes, hash: string) | Cancelled

  datatype Session = Session(total: nat, chunks: map<nat, Bytes>, status: Status)

  predicate HasAll(s: Session) {
    forall k :: 1 <= k <= s.total ==> k in s.chunks
  }

  function Stored(s: Session, n: nat, data: Bytes): Session {
    s.(chunks := s.chunks[n := data])
  }

  /** What there is to see of the drive and of the caller's context: the sessions, how many requests to finish and to
      cancel were sent, the accounts of all attempts, and whether the context is done. */
  datatype Net = Net(sessions: map<int, Session>, finishes: nat, cancels: nat, books: Books, done: bool)

  // ---- What one attempt at a request does; once the context is done it is not sent, and fails ----

  ghost predicate IsStart(a: Net, b: Net, total: nat, r: Reply, token: int) {
    && b.finishes == a.finishes && b.cancels == a.cancels && Noted(a.books, b.books, Starting, r)
    && (forall t :: t in a.sessions ==> t in b.sessions && b.sessions[t] == a.sessions[t])
    && (forall t :: t in b.sessions && t !in a.sessions ==> b.sessions[t] == Session(total, map[], Open))
    && (r.Accepted? ==> token !in a.sessions && token in b.sessions)
    && (a.done ==> b.done) && (b.done ==> r.Fatal? && b.sessions == a.sessions)
  }

  ghost predicate IsPutChunk(a: Net, b: Net, token: int, n: nat, data: Bytes, r: Reply) {
    && b.finishes == a.finishes && b.cancels == a.cancels && Noted(a.books, b.books, Sending(token, n), r)
    && (b.sessions == a.sessions || (token in a.sessions && b.sessions == a.sessions[token := Stored(a.sessions[token], n, data)]))
    && (r.Accepted? ==> token in a.sessions && b.sessions == a.sessions[token := Stored(a.sessions[token], n, data)])
    && (a.done ==> b.done) && (b.done ==> r.Fatal? && b.sessions == a.sessions)
  }

  predicate CanFinish(a: Net, token: int) {
    token in a.sessions && a.sessions[token].status.Open? && HasAll(a.sessions[token])
  }

  ghost predicate IsFinish(a: Net, b: Net, token: int, hash: string, r: Reply) {
    && b.finishes == a.finishes + (if b.done then 0 else 1) && b.cancels == a.cancels && Noted(a.books, b.books, Finishing(token), r)
    && (b.sessions == a.sessions || (CanFinish(a, token) && b.sessions == a.sessions[token := ClosedWith(a.sessions[token], hash)]))
    && (r.Accepted? ==> token in b.sessions && b.sessions[token].status.Closed?)
    && (a.done ==> b.done) && (b.done ==> r.Fatal? && b.sessions == a.sessions)
  }

  predicate IsCancel(a: Net, b: Net, token: int) {
    && b.finishes == a.finishes && b.books == a.books && b.cancels == a.cancels + (if b.done then 0 else 1)
    && (b.sessions == a.sessions
        || (token in a.sessions && a.sessions[token].status.Open?
            && b.sessions == a.sessions[token := a.sessions[token].(status := Cancelled)]))
    && (a.done ==> b.done) && (b.done ==> b.sessions == a.sessions)
  }

  class UploadServer {
    var sessions: map<int, Session>
    /** How many requests to finish and to cancel were sent. */
    var finishes: nat
    var cancels: nat
    /** How often each request was made and how that ended. */
    var books: Books
    /** The caller's context, which the requests carry, is done. It can end at any time, and a request notices. */
    var done: bool

    constructor ()
      ensures sessions == map[] && finishes == cancels == 0 && books == NO_BOOKS && !done
    {
      sessions, finishes, cancels, books, done := map[], 0, 0, NO_BOOKS, false;
    }

    function Now(): Net
      reads this
    {
      Net(sessions, finishes, cancels, books, done)
    }

    /** Whether a request is still sent. */
    method Live() returns (live: bool)
      modifies this`done
      ensures (old(done) ==> done) && live == !done
    {
      if * {
        done := true;
      }
      live := !done;
    }

    method Note(x: Ask, r: Reply)
      modifies this`books
      ensures Noted(old(books), books, x, r)
    {
      books := Noting(books, x, r);
      NotingIsNoted(old(books), x, r);
    }

    /** Opens a session, under a new token. The answer can get lost. */
    method Start(total: nat) returns (r: Reply, token: int)
      modifies this
      ensures IsStart(old(Now()), Now(), total, r, token)
    {
      token, r := *, Fatal;
      var live := Live();
      if live {
        var refused: bool := *;
        if refused || token in sessions {
          r := AnyFailure();
        } else {
          sessions := sessions[token := Session(total, map[], Open)];
          r := AnyReply();
        }
      }
      Note(Starting, r);
    }

    method PutChunk(token: int, n: nat, data: Bytes) returns (r: Reply)
      modifies this
      ensures IsPutChunk(old(Now()), Now(), token, n, data, r)
    {
      r := Fatal;
      var live := Live();
      if live {
        if * {
          r := AnyFailure();
        } else if token in sessions && sessions[token].status.Open? {
          sessions := sessions[token := Stored(sessions[token], n, data)];
          r := AnyReply();
        }
      }
      Note(Sending(token, n), r);
    }

    /** Closes an open session that has all its chunks: its content is the chunks in order of their numbers. */
    method Finish(token: int, hash: string) returns (r: Reply)
      modifies this
      ensures IsFinish(old(Now()), Now(), token, hash, r)
    {
      r := Fatal;
      var live := Live();
      if live {
        finishes := finishes + 1;
        if * {
          r := AnyFailure();
        } else if token in sessions && sessions[token].status.Open? && forall k :: 1 <= k <= sessions[token].total ==> k in sessions[token].chunks {
          sessions := sessions[token := ClosedWith(sessions[token], hash)];
          r := AnyReply();
        }
      }
      Note(Finishing(token), r);
    }

    /** Gives an open session up, if the context is live: the request is sent once and its answer ignored. */
    method Cancel(token: int)
      modifies this
      ensures IsCancel(old(Now()), Now(), token)
    {
      var live := Live();
      if !live {
        return;
      }
      cancels := cancels + 1;
      if * {
        return;
      }
      if token in sessions && sessions[token].status.Open? {
        sessions := sessions[token := sessions[token].(status := Cancelled)];
      }
    }
  }

  method AnyFailure() returns (r: Reply)
    ensures !r.Accepted?
  {
    if * {
      return Transient;
    }
    return Fatal;
  }

  method AnyReply() returns (r: Reply)
  {
    if * {
      return Accepted;
    }
    if * {
      return Transient;
    }
    return Fatal;
  }

  function ClosedWith(s: Session, hash: string): Session
    requires HasAll(s)
  {
    s.(status := Closed(Assembled(s.chunks, s.total), hash))
  }

  // ---- Requests with retries ----

  method StartWithRetries(server: UploadServer, total: nat, maxRetries: int) returns (token: Option<int>)
    modifies server
    ensures server.finishes == old(server.finishes) && server.cancels == old(server.cancels)
    ensures forall t :: t in old(server.sessions) ==> t in server.sessions && server.sessions[t] == old(server.sessions)[t]
    ensures forall t :: t in server.sessions && t !in old(server.sessions) ==> server.sessions[t] == Session(total, map[], Open)
    ensures token.Some? ==> token.value in server.sessions && token.value !in old(server.sessions)
    ensures Retried(old(server.books), server.books, Starting, token.Some?, Attempts(maxRetries))
    ensures old(server.done) ==> token.None? && server.sessions == old(server.sessions)
  {
    var attempt := 0;
    while attempt <= maxRetries
      invariant server.finishes == old(server.finishes) && server.cancels == old(server.cancels)
      invariant forall t :: t in old(server.sessions) ==> t in server.sessions && server.sessions[t] == old(server.sessions)[t]
      invariant forall t :: t in server.sessions && t !in old(server.sessions) ==> server.sessions[t] == Session(total, map[], Open)
      invariant old(server.done) ==> server.done && server.sessions == old(server.sessions)
      invariant 0 <= attempt <= Attempts(maxRetries) && StillTrying(old(server.books), server.books, Starting, attempt)
      decreases maxRetries - attempt
    {
      ghost var before := server.books;
      var r, t := server.Start(total);
      OneMoreTry(old(server.books), before, server.books, Starting, attempt, r, Attempts(maxRetries));
      if r.Accepted? {
        return Some(t);
      }
      if r.Fatal? {
        return None;
      }
      attempt := attempt + 1;
    }
    OutOfTries(old(server.books), server.books, Starting, Attempts(maxRetries));
    return None;
  }

  /** Sends one chunk until it is acknowledged. Sent once or many times, it is stored as one chunk. */
  method ChunkWithRetries(server: UploadServer, token: int, n: nat, data: Bytes, maxRetries: int) returns (ok: bool)
    modifies server
    ensures server.finishes == old(server.finishes) && server.cancels == old(server.cancels)
    ensures server.sessions == old(server.sessions)
            || (token in old(server.sessions) && server.sessions == old(server.sessions)[token := Stored(old(server.sessions)[token], n, data)])
    ensures ok ==> token in old(server.sessions) && server.sessions == old(server.sessions)[token := Stored(old(server.sessions)[token], n, data)]
    ensures Retried(old(server.books), server.books, Sending(token, n), ok, Attempts(maxRetries))
  {
    var attempt := 0;
    while attempt <= maxRetries
      invariant server.finishes == old(server.finishes) && server.cancels == old(server.cancels)
      invariant server.sessions == old(server.sessions)
                || (token in old(server.sessions) && server.sessions == old(server.sessions)[token := Stored(old(server.sessions)[token], n, data)])
      invariant 0 <= attempt <= Attempts(maxRetries) && StillTrying(old(server.books), server.books, Sending(token, n), attempt)
      decreases maxRetries - attempt
    {
      ghost var before := server.books;
      var r := server.PutChunk(token, n, data);
      OneMoreTry(old(server.books), before, server.books, Sending(token, n), attempt, r, Attempts(maxRetries));
      if token in old(server.sessions) {
        StoredTwice(old(server.sessions)[token], n, data);
      }
      if r.Accepted? {
        return true;
      }
      if r.Fatal? {
        return false;
      }
      attempt := attempt + 1;
    }
    OutOfTries(old(server.books), server.books, Sending(token, n), Attempts(maxRetries));
    return false;
  }

  lemma StoredTwice(s: Session, n: nat, data: Bytes)
    ensures Stored(Stored(s, n, data), n, data) == Stored(s, n, data)
  {
  }

  method FinishWithRetries(server: UploadServer, token: int, hash: string, maxRetries: int) returns (ok: bool)
    requires token in server.sessions && server.sessions[token].status.Open? && HasAll(server.sessions[token])
    modifies server
    ensures server.cancels == old(server.cancels) && server.finishes >= old(server.finishes)
    ensures server.sessions == old(server.sessions)
            || server.sessions == old(server.sessions)[token := ClosedWith(old(server.sessions)[token], hash)]
    ensures ok ==> server.sessions[token] == ClosedWith(old(server.sessions)[token], hash)
    ensures Retried(old(server.books), server.books, Finishing(token), ok, Attempts(maxRetries))
    ensures server.finishes == old(server.finishes) ==> server.sessions == old(server.sessions)
  {
    var attempt := 0;
    while attempt <= maxRetries
      invariant server.cancels == old(server.cancels) && server.finishes >= old(server.finishes)
      invariant server.finishes == old(server.finishes) ==> server.sessions == old(server.sessions)
      invariant server.sessions == old(server.sessions)
                || server.sessions == old(server.sessions)[token := ClosedWith(old(server.sessions)[token], hash)]
      invariant 0 <= attempt <= Attempts(maxRetries) && StillTrying(old(server.books), server.books, Finishing(token), attempt)
      decreases maxRetries - attempt
    {
      ghost var before := server.books;
      var r := server.Finish(token, hash);
      OneMoreTry(old(server.books), before, server.books, Finishing(token), attempt, r, Attempts(maxRetries));
      if r.Accepted? {
        return true;
      }
      if r.Fatal? {
        return false;
      }
      attempt := attempt + 1;
    }
    OutOfTries(old(server.books), server.books, Finishing(token), Attempts(maxRetries));
    return false;
  }

  // ---- Both ways of sending the chunks ----

  /** The hash of a chunk, and the hash over the chunk hashes in order. */
  datatype Hashing = Hashing(chunk: Bytes -> string, total: seq<string> -> string)

  /** The hashes of chunks, in order. */
  function HashAll(h: Hashing, pieces: seq<Bytes>): (hs: seq<string>)
    ensures |hs| == |pieces| && forall k :: 0 <= k < |hs| ==> hs[k] == h.chunk(pieces[k])
  {
    if pieces == [] then [] else HashAll(h, pieces[..|pieces| - 1]) + [h.chunk(pieces[|pieces| - 1])]
  }

  /** The first `n` of the chunks are on the server. */
  predicate HasPieces(s: Session, pieces: seq<Bytes>, n: nat) {
    n <= |pieces| && forall k :: 1 <= k <= n ==> k in s.chunks && s.chunks[k] == pieces[k - 1]
  }

  /** A closed session has all the body's bytes, in order, and the hash of its chunks in order. */
  predicate Right(h: Hashing, s: Session, body: Bytes, chunk: nat)
    requires chunk > 0
  {
    s.status.Closed? ==> s.status == Closed(body, h.total(HashAll(h, Pieces(body, chunk))))
  }

  /** The session is the only one that changed, and only in its chunks. */
  ghost predicate OnlyChunks(before: map<int, Session>, after: map<int, Session>, token: int) {
    && token in before && token in after && after == before[token := after[token]]
    && after[token].total == before[token].total && after[token].status == before[token].status
  }

  /** The accounts of sending `n` chunks: no request but theirs, each no more often than allowed; and a failure has a
      cause, which a success has not. */
  ghost predicate ChunksAccounted(a: Books, b: Books, token: int, n: nat, ok: bool, short: bool, tries: nat) {
    && WithinTries(a, b, tries) && OnlyChunksBelow(a, b, token, n + 1)
    && (if ok then b.refused == a.refused && b.misread == a.misread else Justified(a, b, short, tries))
  }

  /** Chunk after chunk, as the body is read. `body` is what the reader yields; the upload is of its first `size` bytes. */
  method SendInOrder(server: UploadServer, h: Hashing, token: int, body: Bytes, size: nat, chunk: nat, maxRetries: int)
    returns (hashes: Option<seq<string>>)
    requires chunk > 0 && token in server.sessions
    modifies server
    ensures server.finishes == old(server.finishes) && server.cancels == old(server.cancels)
    ensures OnlyChunks(old(server.sessions), server.sessions, token)
    ensures hashes.Some? ==> AllSent(h, server.sessions[token], body, size, chunk, hashes.value)
    ensures ChunksAccounted(old(server.books), server.books, token, TotalChunks(size, chunk), hashes.Some?, |body| < size, Attempts(maxRetries))
  {
    var total := TotalChunks(size, chunk);
    var remaining, sent, n := size, [], 1;
    ghost var pieces, first, start := Pieces(Padded(body, size), chunk), server.sessions, server.books;
    LeftStep(size, chunk, 0);
    while n <= total
      invariant 1 <= n <= total + 1 && remaining == Left(size, chunk, n) && size - remaining <= |body|
      invariant server.finishes == old(server.finishes) && server.cancels == old(server.cancels)
      invariant OnlyChunks(first, server.sessions, token)
      invariant SentUpTo(h, server.sessions[token], pieces, n - 1, sent)
      invariant ChunksAccounted(start, server.books, token, n - 1, true, false, Attempts(maxRetries))
      decreases total + 1 - n
    {
      LeftStep(size, chunk, n);
      var next := SendNext(server, h, token, body, size, chunk, n, remaining, sent, maxRetries, first, start);
      if next.None? {
        return None;
      }
      remaining := remaining - (if remaining < chunk then remaining else chunk);
      sent, n := next.value, n + 1;
    }
    assert pieces[..total] == pieces;
    hashes := Some(sent);
  }

  /** One chunk: read, hashed, and sent. */
  method SendNext(server: UploadServer, h: Hashing, token: int, body: Bytes, size: nat, chunk: nat, n: nat, remaining: nat, sent: seq<string>,
                  maxRetries: int, ghost first: map<int, Session>, ghost start: Books) returns (next: Option<seq<string>>)
    requires chunk > 0 && 1 <= n <= TotalChunks(size, chunk) && remaining == Left(size, chunk, n) && 0 <= size - remaining <= |body|
    requires OnlyChunks(first, server.sessions, token)
    requires SentUpTo(h, server.sessions[token], Pieces(Padded(body, size), chunk), n - 1, sent)
    requires ChunksAccounted(start, server.books, token, n - 1, true, false, Attempts(maxRetries))
    modifies server
    ensures server.finishes == old(server.finishes) && server.cancels == old(server.cancels)
    ensures OnlyChunks(first, server.sessions, token)
    ensures next.Some? ==>
              && Left(size, chunk, n + 1) == remaining - Length(size, chunk, n) && size - Left(size, chunk, n + 1) <= |body|
              && SentUpTo(h, server.sessions[token], Pieces(Padded(body, size), chunk), n, next.value)
              && ChunksAccounted(start, server.books, token, n, true, false, Attempts(maxRetries))
    ensures next.None? ==> ChunksAccounted(start, server.books, token, TotalChunks(size, chunk), false, |body| < size, Attempts(maxRetries))
  {
    var total := TotalChunks(size, chunk);
    LeftStep(size, chunk, n);
    var clen := if remaining < chunk then remaining else chunk;
    var from := size - remaining;
    ChunksAreBelow(start, server.books, token, n - 1, total);
    if from + clen > |body| {
      return None;
    }
    if * {
      MisreadAccounted(start, server.books, token, total, |body| < size, Attempts(maxRetries));
      server.books := server.books.(misread := server.books.misread + 1);
      return None;
    }
    var buf := body[from..from + clen];
    ReadIsPiece(body, size, chunk, n, from, clen);
    OneMoreSent(h, server.sessions[token], Pieces(Padded(body, size), chunk), n, sent);
    ghost var before, books := server.sessions, server.books;
    var ok := ChunkWithRetries(server, token, n, buf, maxRetries);
    ChunkSent(first, before, server.sessions, token, n, buf);
    NextChunkAccounted(start, books, server.books, token, n, total, ok, |body| < size, Attempts(maxRetries));
    next := if ok then Some(sent + [h.chunk(buf)]) else None;
  }

  lemma ChunksAreBelow(a: Books, b: Books, token: int, n: nat, total: nat)
    requires OnlyChunksBelow(a, b, token, n + 1) && n <= total
    ensures OnlyChunksBelow(a, b, token, total + 1)
  {
    forall x | !IsChunk(x, token, total + 1) ensures Accounts.Alike(a, b, x) {
      assert !IsChunk(x, token, n + 1);
    }
  }

  lemma MisreadAccounted(a: Books, b: Books, token: int, n: nat, short: bool, tries: nat)
    requires WithinTries(a, b, tries) && OnlyChunksBelow(a, b, token, n + 1)
    ensures ChunksAccounted(a, b.(misread := b.misread + 1), token, n, false, short, tries)
  {
    var c := b.(misread := b.misread + 1);
    forall x ensures Within(a, c, x, tries) {
      assert Within(a, b, x, tries);
    }
    forall x | !IsChunk(x, token, n + 1) ensures Accounts.Alike(a, c, x) {
      assert Accounts.Alike(a, b, x);
    }
  }

  lemma NextChunkAccounted(a: Books, b: Books, c: Books, token: int, n: nat, total: nat, ok: bool, short: bool, tries: nat)
    requires 1 <= n <= total && ChunksAccounted(a, b, token, n - 1, true, false, tries) && Retried(b, c, Sending(token, n), ok, tries)
    ensures ok ==> ChunksAccounted(a, c, token, n, true, false, tries)
    ensures !ok ==> ChunksAccounted(a, c, token, total, false, short, tries)
  {
    OneMoreChunk(a, b, c, token, n, ok, tries);
    ChunksAreBelow(a, c, token, n, total);
  }

  /** All chunks of the first `size` bytes are on the server, and hashed. */
  predicate AllSent(h: Hashing, s: Session, body: Bytes, size: nat, chunk: nat, hashes: seq<string>)
    requires chunk > 0
  {
    && |body| >= size
    && HasPieces(s, Pieces(body[..size], chunk), TotalChunks(size, chunk))
    && hashes == HashAll(h, Pieces(body[..size], chunk))
  }

  /** The bytes to be sent, where the reader has them. */
  function Padded(body: Bytes, size: nat): (b: Bytes)
    ensures |b| == size
    ensures |body| >= size ==> b == body[..size]
  {
    if |body| >= size then body[..size] else body + seq(size - |body|, _ => 0)
  }

  /** How much is still to be sent before chunk `n`. */
  function Left(size: nat, chunk: nat, n: nat): int
    requires chunk > 0
  {
    if n <= TotalChunks(size, chunk) then size - Offset(chunk, n) else 0
  }

  lemma LeftStep(size: nat, chunk: nat, n: nat)
    requires chunk > 0 && n <= TotalChunks(size, chunk)
    ensures n == 0 ==> Left(size, chunk, 1) == size
    ensures n > 0 ==> var clen := Length(size, chunk, n);
                      && clen == (if Left(size, chunk, n) < chunk then Left(size, chunk, n) else chunk)
                      && 0 <= clen <= Left(size, chunk, n) <= size && Left(size, chunk, n + 1) == Left(size, chunk, n) - clen
  {
    if n > 0 {
      ChunksPartition(size, chunk, n);
    } else {
      ChunksPartition(size, chunk, 1);
    }
  }

  lemma ReadIsPiece(body: Bytes, size: nat, chunk: nat, n: nat, from: nat, clen: nat)
    requires chunk > 0 && 1 <= n <= TotalChunks(size, chunk)
    requires from == Offset(chunk, n) && clen == Length(size, chunk, n) && from + clen <= |body|
    ensures body[from..from + clen] == Pieces(Padded(body, size), chunk)[n - 1]
  {
    ChunksPartition(size, chunk, n);
  }

  lemma ChunkSent(first: map<int, Session>, before: map<int, Session>, after: map<int, Session>, token: int, n: nat, data: Bytes)
    requires OnlyChunks(first, before, token) && (after == before || after == before[token := Stored(before[token], n, data)])
    ensures OnlyChunks(first, after, token)
  {
  }

  /** The state of the upload once the first `n` chunks are acknowledged. */
  predicate SentUpTo(h: Hashing, s: Session, pieces: seq<Bytes>, n: nat, hashes: seq<string>) {
    HasPieces(s, pieces, n) && hashes == HashAll(h, pieces[..n])
  }

  lemma OneMoreSent(h: Hashing, s: Session, pieces: seq<Bytes>, n: nat, hashes: seq<string>)
    requires 1 <= n <= |pieces| && SentUpTo(h, s, pieces, n - 1, hashes)
    ensures SentUpTo(h, Stored(s, n, pieces[n - 1]), pieces, n, hashes + [h.chunk(pieces[n - 1])])
  {
    assert pieces[..n][..n - 1] == pieces[..n - 1];
  }

  function Sum(left: seq<nat>): nat {
    if left == [] then 0 else left[0] + Sum(left[1..])
  }

  lemma {:induction false} SumOneLess(left: seq<nat>, i: nat)
    requires i < |left| && left[i] > 0
    ensures Sum(left[i := left[i] - 1]) == Sum(left) - 1
  {
    if i == 0 {
      assert left[0 := left[0] - 1][1..] == left[1..];
    } else {
      assert left[i := left[i] - 1][1..] == left[1..][i - 1 := left[i] - 1];
      SumOneLess(left[1..], i - 1);
    }
  }

  /** Of the first `n` chunks, all that are not with a goroutine are acknowledged. */
  predicate AckedBut(s: Session, pieces: seq<Bytes>, n: nat, running: map<nat, Bytes>) {
    n <= |pieces| && forall k :: 1 <= k <= n && k !in running ==> k in s.chunks && s.chunks[k] == pieces[k - 1]
  }

  lemma OneMoreAcked(s: Session, pieces: seq<Bytes>, n: nat, running: map<nat, Bytes>, k: nat)
    requires 1 <= k <= n <= |pieces| && AckedBut(s, pieces, n, running)
    ensures AckedBut(Stored(s, k, pieces[k - 1]), pieces, n, running - {k})
    ensures AckedBut(Stored(s, k, pieces[k - 1]), pieces, n, running)
  {
  }

  /** The goroutines of a parallel upload: how many chunks have been handed out, which of them are still being sent,
      whether one has failed, and how many attempts each chunk has left. */
  datatype Crew = Crew(spawned: nat, bufs: map<nat, Bytes>, failed: bool, left: seq<nat>)

  /** What stays the same while they work: the chunks, the limit, the attempts allowed, whether the body is too short,
      the session, and the accounts at the start. */
  datatype Setting = Setting(h: Hashing, pieces: seq<Bytes>, limit: nat, attempts: nat, short: bool, token: int, start: Books)

  /** At most `limit` goroutines are at work, each with the chunk it read; and, unless one has failed, every other chunk
      handed out is acknowledged and every one is hashed. */
  ghost predicate Progress(t: Setting, c: Crew, s: Session, hashes: seq<string>) {
    && c.spawned <= |hashes| == |t.pieces| == |c.left| && |c.bufs.Keys| <= t.limit
    && (forall k :: k in c.bufs ==> 1 <= k <= c.spawned && c.bufs[k] == t.pieces[k - 1])
    && (!c.failed ==> AckedBut(s, t.pieces, c.spawned, c.bufs))
    && (!c.failed ==> forall k :: 0 <= k < c.spawned ==> hashes[k] == t.h.chunk(t.pieces[k]))
    && (!c.failed && c.spawned == |t.pieces| ==> !t.short)
  }

  /** Chunk `k` has been sent as often as its attempts are gone; if it is still being sent, all of them are to be made
      again. */
  predicate ChunkAccounted(t: Setting, c: Crew, b: Books, k: nat)
    requires 1 <= k <= |c.left|
  {
    var x := Sending(t.token, k);
    && c.left[k - 1] <= t.attempts && Tried(b, x) == Tried(t.start, x) + (t.attempts - c.left[k - 1])
    && 0 <= Waited(b, x) - Waited(t.start, x) <= t.attempts - c.left[k - 1]
    && (c.spawned < k || k in c.bufs ==> Waited(b, x) == Waited(t.start, x) + (t.attempts - c.left[k - 1]))
  }

  /** Nothing fails for no reason. */
  ghost predicate Accounted(t: Setting, c: Crew, b: Books) {
    && |c.left| == |t.pieces| && (forall k :: 1 <= k <= |c.left| ==> ChunkAccounted(t, c, b, k))
    && (forall x :: !IsOwnChunk(t, x) ==> Accounts.Alike(t.start, b, x))
    && b.refused >= t.start.refused && b.misread >= t.start.misread
    && (if c.failed then Justified(t.start, b, t.short, t.attempts) else b.refused == t.start.refused && b.misread == t.start.misread)
  }

  predicate IsOwnChunk(t: Setting, x: Ask) {
    x.Sending? && x.token == t.token && 1 <= x.n <= |t.pieces|
  }

  ghost predicate OnCourse(t: Setting, c: Crew, s: Session, b: Books, hashes: seq<string>) {
    Progress(t, c, s, hashes) && Accounted(t, c, b)
  }

  lemma NothingSpawned(t: Setting, s: Session, hashes: seq<string>, left: seq<nat>)
    requires |hashes| == |t.pieces| == |left| && t.pieces != []
    requires forall k :: 0 <= k < |left| ==> left[k] == t.attempts
    ensures OnCourse(t, Crew(0, map[], false, left), s, t.start, hashes)
  {
  }

  lemma SpawnFails(t: Setting, c: Crew, s: Session, a: Books, b: Books, hashes: seq<string>)
    requires OnCourse(t, c, s, a, hashes) && c.spawned < |t.pieces|
    requires (b == a && t.short) || b == a.(misread := a.misread + 1)
    ensures OnCourse(t, c.(spawned := c.spawned + 1, failed := true), s, b, hashes)
  {
    var c' := c.(spawned := c.spawned + 1, failed := true);
    forall k | 1 <= k <= |c'.left| ensures ChunkAccounted(t, c', b, k) {
      assert ChunkAccounted(t, c, a, k);
    }
    forall x | !IsOwnChunk(t, x) ensures Accounts.Alike(t.start, b, x) {
      assert Accounts.Alike(t.start, a, x);
    }
  }

  lemma Spawned(t: Setting, c: Crew, s: Session, b: Books, hashes: seq<string>)
    requires OnCourse(t, c, s, b, hashes) && c.spawned < |t.pieces| && |c.bufs.Keys| < t.limit
    requires c.spawned + 1 == |t.pieces| ==> !t.short
    ensures var n := c.spawned;
            OnCourse(t, c.(spawned := n + 1, bufs := c.bufs[n + 1 := t.pieces[n]]), s, b, hashes[n := t.h.chunk(t.pieces[n])])
  {
    var c' := c.(spawned := c.spawned + 1, bufs := c.bufs[c.spawned + 1 := t.pieces[c.spawned]]);
    SpawnedProgress(t, c, s, hashes);
    forall k | 1 <= k <= |c'.left| ensures ChunkAccounted(t, c', b, k) {
      assert ChunkAccounted(t, c, b, k);
    }
  }

  lemma SpawnedProgress(t: Setting, c: Crew, s: Session, hashes: seq<string>)
    requires Progress(t, c, s, hashes) && c.spawned < |t.pieces| && |c.bufs.Keys| < t.limit
    requires c.spawned + 1 == |t.pieces| ==> !t.short
    ensures var n := c.spawned;
            Progress(t, c.(spawned := n + 1, bufs := c.bufs[n + 1 := t.pieces[n]]), s, hashes[n := t.h.chunk(t.pieces[n])])
  {
    OneMoreBuf(c.bufs, c.spawned + 1, t.pieces[c.spawned]);
    if !c.failed {
      SpawnedAcked(s, t.pieces, c.spawned, c.bufs);
    }
  }

  lemma OneMoreBuf(bufs: map<nat, Bytes>, k: nat, data: Bytes)
    requires k !in bufs
    ensures |bufs[k := data].Keys| == |bufs.Keys| + 1
  {
    assert bufs[k := data].Keys == bufs.Keys + {k};
  }

  lemma SpawnedAcked(s: Session, pieces: seq<Bytes>, n: nat, running: map<nat, Bytes>)
    requires AckedBut(s, pieces, n, running) && n < |pieces|
    ensures AckedBut(s, pieces, n + 1, running[n + 1 := pieces[n]])
  {
  }

  /** A goroutine is done with its chunk: acknowledged, or given up. */
  function Without(c: Crew, k: nat, failed: bool): Crew {
    c.(bufs := c.bufs - {k}, failed := c.failed || failed)
  }

  lemma WithoutProgress(t: Setting, c: Crew, s: Session, s': Session, hashes: seq<string>, k: nat, left: seq<nat>, failed: bool)
    requires Progress(t, c, s, hashes) && k in c.bufs && |left| == |c.left|
    requires s' == s || s' == Stored(s, k, c.bufs[k])
    requires !failed ==> s' == Stored(s, k, c.bufs[k])
    ensures Progress(t, Without(c.(left := left), k, failed), s', hashes)
    ensures |Without(c.(left := left), k, failed).bufs.Keys| == |c.bufs.Keys| - 1
  {
    assert (c.bufs - {k}).Keys == c.bufs.Keys - {k};
    if !c.failed {
      OneMoreAcked(s, t.pieces, c.spawned, c.bufs, k);
    }
  }

  lemma AgainProgress(t: Setting, c: Crew, s: Session, s': Session, hashes: seq<string>, k: nat, left: seq<nat>)
    requires Progress(t, c, s, hashes) && k in c.bufs && |left| == |c.left|
    requires s' == s || s' == Stored(s, k, c.bufs[k])
    ensures Progress(t, c.(left := left), s', hashes)
  {
    if !c.failed {
      OneMoreAcked(s, t.pieces, c.spawned, c.bufs, k);
    }
  }

  /** A chunk without attempts left is given up. */
  lemma GivenUp(t: Setting, c: Crew, s: Session, b: Books, hashes: seq<string>, k: nat)
    requires OnCourse(t, c, s, b, hashes) && k in c.bufs && c.left[k - 1] == 0
    ensures OnCourse(t, Without(c, k, true), s, b, hashes) && |Without(c, k, true).bufs.Keys| == |c.bufs.Keys| - 1
  {
    var c' := Without(c, k, true);
    WithoutProgress(t, c, s, s, hashes, k, c.left, true);
    assert ChunkAccounted(t, c, b, k) && Waited(b, Sending(t.token, k)) == Waited(t.start, Sending(t.token, k)) + t.attempts;
    forall i | 1 <= i <= |c'.left| ensures ChunkAccounted(t, c', b, i) {
      assert ChunkAccounted(t, c, b, i);
    }
  }

  /** One attempt at chunk `k` in the accounts. */
  lemma AttemptAccounted(t: Setting, c: Crew, a: Books, b: Books, k: nat, r: Reply, bufs: map<nat, Bytes>)
    requires Accounted(t, c, a) && k in c.bufs && 1 <= k <= |c.left| && k <= c.spawned && c.left[k - 1] > 0
    requires Noted(a, b, Sending(t.token, k), r)
    requires bufs == if r.Transient? then c.bufs else c.bufs - {k}
    ensures Accounted(t, Crew(c.spawned, bufs, c.failed || r.Fatal?, c.left[k - 1 := c.left[k - 1] - 1]), b)
  {
    var c' := Crew(c.spawned, bufs, c.failed || r.Fatal?, c.left[k - 1 := c.left[k - 1] - 1]);
    assert ChunkAccounted(t, c, a, k);
    forall i | 1 <= i <= |c'.left| ensures ChunkAccounted(t, c', b, i) {
      assert ChunkAccounted(t, c, a, i);
    }
    forall x | !IsOwnChunk(t, x) ensures Accounts.Alike(t.start, b, x) {
      assert Accounts.Alike(t.start, a, x);
    }
    if c.failed {
      StillJustified(t, c, a, b, k, r);
    }
  }

  lemma StillJustified(t: Setting, c: Crew, a: Books, b: Books, k: nat, r: Reply)
    requires Accounted(t, c, a) && c.failed && 1 <= k <= |c.left| && c.left[k - 1] > 0 && Noted(a, b, Sending(t.token, k), r)
    ensures Justified(t.start, b, t.short, t.attempts)
  {
    assert ChunkAccounted(t, c, a, k);
    if x :| Waited(a, x) == Waited(t.start, x) + t.attempts {
      assert Waited(b, x) == Waited(t.start, x) + t.attempts;
    }
  }

  /** The chunk that a goroutine has read. */
  method ReadChunk(server: UploadServer, body: Bytes, size: nat, chunk: nat, n: nat) returns (buf: Option<Bytes>)
    requires chunk > 0 && 1 <= n <= TotalChunks(size, chunk)
    modifies server`books
    ensures buf.Some? ==> server.books == old(server.books)
    ensures buf.None? ==> (server.books == old(server.books) && |body| < size) || server.books == old(server.books).(misread := old(server.books).misread + 1)
    ensures buf.Some? ==> Offset(chunk, n) + Length(size, chunk, n) <= |body| && buf.value == Pieces(Padded(body, size), chunk)[n - 1]
  {
    ChunksPartition(size, chunk, n);
    var offset := (n - 1) * chunk;
    var clen := chunk;
    var remaining := size - offset;
    if remaining < clen {
      clen := remaining;
    }
    if offset + clen > |body| {
      return None;
    }
    if * {
      server.books := server.books.(misread := server.books.misread + 1);
      return None;
    }
    ReadIsPiece(body, size, chunk, n, offset, clen);
    buf := Some(body[offset..offset + clen]);
  }

  /** How many chunks may be on their way at once: as many as asked for, or four. */
  function Limit(parallelism: int): (n: nat)
    ensures n == (if parallelism > 0 then parallelism else 4)
  {
    if parallelism <= 0 then 4 else parallelism
  }

  /** All chunks at once, up to a limit: any goroutine may be the next to send its chunk once more. The hashes are
      kept by chunk number, so they come out in order whatever the order of completion. */
  method SendInParallel(server: UploadServer, h: Hashing, token: int, body: Bytes, size: nat, chunk: nat, parallelism: int, maxRetries: int)
    returns (hashes: Option<seq<string>>)
    requires chunk > 0 && token in server.sessions
    modifies server
    ensures server.finishes == old(server.finishes) && server.cancels == old(server.cancels)
    ensures OnlyChunks(old(server.sessions), server.sessions, token)
    ensures hashes.Some? ==> AllSent(h, server.sessions[token], body, size, chunk, hashes.value)
    ensures ChunksAccounted(old(server.books), server.books, token, TotalChunks(size, chunk), hashes.Some?, |body| < size, Attempts(maxRetries))
  {
    var limit, attempts := Limit(parallelism), Attempts(maxRetries);
    var chunkHashes := new string[TotalChunks(size, chunk)](_ => "");
    ghost var t := Setting(h, Pieces(Padded(body, size), chunk), limit, attempts, |body| < size, token, server.books);
    var failed := RunAll(server, h, token, body, size, chunk, limit, attempts, chunkHashes, t);
    if failed {
      return None;
    }
    hashes := Some(chunkHashes[..]);
  }

  /** Starts a goroutine for every chunk and waits for all of them. */
  method RunAll(server: UploadServer, h: Hashing, token: int, body: Bytes, size: nat, chunk: nat, limit: nat, attempts: nat,
                chunkHashes: array<string>, ghost t: Setting) returns (failed: bool)
    requires chunk > 0 && token in server.sessions && limit > 0 && chunkHashes.Length == TotalChunks(size, chunk)
    requires t == Setting(h, Pieces(Padded(body, size), chunk), limit, attempts, |body| < size, token, server.books)
    modifies server, chunkHashes
    ensures server.finishes == old(server.finishes) && server.cancels == old(server.cancels)
    ensures OnlyChunks(old(server.sessions), server.sessions, token)
    ensures !failed ==> AllSent(h, server.sessions[token], body, size, chunk, chunkHashes[..])
    ensures ChunksAccounted(old(server.books), server.books, token, TotalChunks(size, chunk), !failed, |body| < size, attempts)
  {
    var c := Crew(0, map[], false, seq(chunkHashes.Length, _ => attempts));
    ghost var first := server.sessions;
    NothingSpawned(t, server.sessions[token], chunkHashes[..], c.left);
    while c.spawned < chunkHashes.Length || c.bufs != map[]
      invariant server.finishes == old(server.finishes) && server.cancels == old(server.cancels)
      invariant OnlyChunks(first, server.sessions, token)
      invariant OnCourse(t, c, server.sessions[token], server.books, chunkHashes[..])
      decreases chunkHashes.Length - c.spawned, |c.bufs.Keys|, Sum(c.left)
    {
      c := Advance(server, h, token, body, size, chunk, limit, c, chunkHashes, t, first);
    }
    AllDone(t, c, server.sessions[token], server.books, chunkHashes[..]);
    failed := c.failed;
  }

  /** One more goroutine is started, or one at work goes on. */
  method Advance(server: UploadServer, h: Hashing, token: int, body: Bytes, size: nat, chunk: nat, limit: nat, c: Crew,
                 chunkHashes: array<string>, ghost t: Setting, ghost first: map<int, Session>) returns (c': Crew)
    requires chunk > 0 && (c.spawned < chunkHashes.Length || c.bufs != map[]) && 0 < limit == t.limit && t.token == token && OnlyChunks(first, server.sessions, token)
    requires t.h == h && t.pieces == Pieces(Padded(body, size), chunk) && t.short == (|body| < size)
    requires OnCourse(t, c, server.sessions[token], server.books, chunkHashes[..])
    modifies server, chunkHashes
    ensures server.finishes == old(server.finishes) && server.cancels == old(server.cancels)
    ensures OnlyChunks(first, server.sessions, token)
    ensures OnCourse(t, c', server.sessions[token], server.books, chunkHashes[..])
    ensures c'.spawned == c.spawned + 1
            || (c'.spawned == c.spawned
                && (|c'.bufs.Keys| < |c.bufs.Keys| || (|c'.bufs.Keys| == |c.bufs.Keys| && Sum(c'.left) < Sum(c.left))))
  {
    var spawn: bool := *;
    if c.spawned < chunkHashes.Length && |c.bufs.Keys| < limit && (spawn || c.bufs == map[]) {
      c' := Spawn(server, h, token, body, size, chunk, c, chunkHashes, t);
    } else {
      c' := GoOn(server, token, c, t, chunkHashes[..], first);
    }
  }

  lemma AllDone(t: Setting, c: Crew, s: Session, b: Books, hashes: seq<string>)
    requires OnCourse(t, c, s, b, hashes) && c.spawned == |t.pieces| && c.bufs == map[]
    ensures !c.failed ==> HasPieces(s, t.pieces, |t.pieces|) && hashes == HashAll(t.h, t.pieces) && !t.short
    ensures ChunksAccounted(t.start, b, t.token, |t.pieces|, !c.failed, t.short, t.attempts)
  {
    forall x ensures Within(t.start, b, x, t.attempts) {
      if IsOwnChunk(t, x) {
        assert ChunkAccounted(t, c, b, x.n);
      } else {
        assert Accounts.Alike(t.start, b, x);
      }
    }
    forall x | !IsChunk(x, t.token, |t.pieces| + 1) ensures Accounts.Alike(t.start, b, x) {
      assert !IsOwnChunk(t, x);
    }
  }

  /** A goroutine starts: it reads its chunk and notes its hash, or fails. */
  method Spawn(server: UploadServer, h: Hashing, ghost token: int, body: Bytes, size: nat, chunk: nat, c: Crew,
               chunkHashes: array<string>, ghost t: Setting) returns (c': Crew)
    requires chunk > 0 && c.spawned < chunkHashes.Length && |c.bufs.Keys| < t.limit && token in server.sessions
    requires t.h == h && t.pieces == Pieces(Padded(body, size), chunk) && t.short == (|body| < size)
    requires OnCourse(t, c, server.sessions[token], server.books, chunkHashes[..])
    modifies chunkHashes, server`books
    ensures OnCourse(t, c', server.sessions[token], server.books, chunkHashes[..]) && c'.spawned == c.spawned + 1
  {
    ghost var s, hashed, before := server.sessions[token], chunkHashes[..], server.books;
    var n := c.spawned;
    var buf := ReadChunk(server, body, size, chunk, n + 1);
    if buf.None? {
      SpawnFails(t, c, s, before, server.books, hashed);
      return c.(spawned := n + 1, failed := true);
    }
    LastChunkEnds(size, chunk, n + 1);
    c' := TakeUp(h, buf.value, c, chunkHashes, t, s, before);
  }

  /** The chunk is read: its hash is noted, and it is to be sent. */
  method TakeUp(h: Hashing, buf: Bytes, c: Crew, chunkHashes: array<string>, ghost t: Setting, ghost s: Session, ghost b: Books) returns (c': Crew)
    requires OnCourse(t, c, s, b, chunkHashes[..]) && c.spawned < |t.pieces| && |c.bufs.Keys| < t.limit
    requires t.h == h && buf == t.pieces[c.spawned] && (c.spawned + 1 == |t.pieces| ==> !t.short)
    modifies chunkHashes
    ensures OnCourse(t, c', s, b, chunkHashes[..]) && c'.spawned == c.spawned + 1
  {
    Spawned(t, c, s, b, chunkHashes[..]);
    ghost var hashed := chunkHashes[..];
    chunkHashes[c.spawned] := h.chunk(buf);
    assert chunkHashes[..] == hashed[c.spawned := h.chunk(buf)];
    c' := c.(spawned := c.spawned + 1, bufs := c.bufs[c.spawned + 1 := buf]);
  }

  lemma LastChunkEnds(size: nat, chunk: nat, n: nat)
    requires chunk > 0 && 1 <= n <= TotalChunks(size, chunk)
    ensures n == TotalChunks(size, chunk) ==> Offset(chunk, n) + Length(size, chunk, n) == size
  {
    ChunksPartition(size, chunk, n);
  }

  /** Some goroutine at work sends its chunk once more, or has run out of attempts. */
  method GoOn(server: UploadServer, token: int, c: Crew, ghost t: Setting, ghost hashes: seq<string>, ghost first: map<int, Session>) returns (c': Crew)
    requires c.bufs != map[] && OnlyChunks(first, server.sessions, token) && t.token == token
    requires OnCourse(t, c, server.sessions[token], server.books, hashes)
    modifies server
    ensures server.finishes == old(server.finishes) && server.cancels == old(server.cancels)
    ensures OnlyChunks(first, server.sessions, token)
    ensures OnCourse(t, c', server.sessions[token], server.books, hashes) && c'.spawned == c.spawned
    ensures |c'.bufs.Keys| < |c.bufs.Keys| || (|c'.bufs.Keys| == |c.bufs.Keys| && Sum(c'.left) < Sum(c.left))
  {
    var k :| k in c.bufs;
    if c.left[k - 1] == 0 {
      GivenUp(t, c, server.sessions[token], server.books, hashes, k);
      return Without(c, k, true);
    }
    SumOneLess(c.left, k - 1);
    c' := Attempt(server, token, c, k, t, hashes, first);
  }

  /** One attempt at chunk `k`. */
  method Attempt(server: UploadServer, token: int, c: Crew, k: nat, ghost t: Setting, ghost hashes: seq<string>, ghost first: map<int, Session>)
    returns (c': Crew)
    requires OnlyChunks(first, server.sessions, token) && OnCourse(t, c, server.sessions[token], server.books, hashes)
    requires k in c.bufs && c.left[k - 1] > 0 && t.token == token
    modifies server
    ensures server.finishes == old(server.finishes) && server.cancels == old(server.cancels)
    ensures OnlyChunks(first, server.sessions, token) && OnCourse(t, c', server.sessions[token], server.books, hashes)
    ensures c'.spawned == c.spawned && c'.left == c.left[k - 1 := c.left[k - 1] - 1]
    ensures |c'.bufs.Keys| <= |c.bufs.Keys|
  {
    ghost var before, books := server.sessions, server.books;
    var left := c.left[k - 1 := c.left[k - 1] - 1];
    var r := server.PutChunk(token, k, c.bufs[k]);
    ChunkSent(first, before, server.sessions, token, k, c.bufs[k]);
    AttemptAccounted(t, c, books, server.books, k, r, if r.Transient? then c.bufs else c.bufs - {k});
    if r.Transient? {
      AgainProgress(t, c, before[token], server.sessions[token], hashes, k, left);
      c' := c.(left := left);
    } else {
      WithoutProgress(t, c, before[token], server.sessions[token], hashes, k, left, r.Fatal?);
      c' := Without(c.(left := left), k, r.Fatal?);
    }
  }

  lemma AllSentAssembles(h: Hashing, s: Session, body: Bytes, size: nat, chunk: nat, hashes: seq<string>)
    requires chunk > 0 && AllSent(h, s, body, size, chunk, hashes) && s.total == TotalChunks(size, chunk)
    ensures HasAll(s) && Right(h, ClosedWith(s, h.total(hashes)), body[..size], chunk)
  {
    PiecesAssemble(s.chunks, body[..size], chunk, TotalChunks(size, chunk));
  }

  /** In parallel if the body can be read at any offset, in order otherwise. */
  method SendChunks(server: UploadServer, h: Hashing, token: int, body: Bytes, size: nat, chunk: nat, readerAt: bool, parallelism: int, maxRetries: int)
    returns (hashes: Option<seq<string>>)
    requires chunk > 0 && token in server.sessions
    modifies server
    ensures server.finishes == old(server.finishes) && server.cancels == old(server.cancels)
    ensures OnlyChunks(old(server.sessions), server.sessions, token)
    ensures hashes.Some? ==> AllSent(h, server.sessions[token], body, size, chunk, hashes.value)
    ensures ChunksAccounted(old(server.books), server.books, token, TotalChunks(size, chunk), hashes.Some?, |body| < size, Attempts(maxRetries))
  {
    if readerAt {
      hashes := SendInParallel(server, h, token, body, size, chunk, parallelism, maxRetries);
    } else {
      hashes := SendInOrder(server, h, token, body, size, chunk, maxRetries);
    }
  }

  ghost predicate NoStart(a: Books, b: Books) {
    Accounts.Alike(a, b, Starting)
  }

  lemma FinishAddsUp(a: Books, b: Books, c: Books, token: int, n: nat, ok: bool, short: bool, tries: nat)
    requires ChunksAccounted(a, b, token, n, true, short, tries) && Retried(b, c, Finishing(token), ok, tries)
    ensures WithinTries(a, c, tries) && NoStart(a, c)
    ensures if ok then c.refused == a.refused else Justified(a, c, short, tries)
  {
    RetriedIsWithin(b, c, Finishing(token), ok, tries);
    forall x ensures Accounts.Alike(a, b, x) || Accounts.Alike(b, c, x) {
      assert IsChunk(x, token, n + 1) ==> x != Finishing(token);
    }
    PartsAddUp(a, b, c, short, tries);
    assert Accounts.Alike(a, b, Starting) && Accounts.Alike(b, c, Starting);
  }

  lemma StartAddsUp(a: Books, b: Books, c: Books, ok: bool, short: bool, tries: nat)
    requires Retried(a, b, Starting, true, tries) && WithinTries(b, c, tries) && NoStart(b, c)
    requires if ok then c.refused == b.refused else Justified(b, c, short, tries)
    ensures WithinTries(a, c, tries)
    ensures if ok then c.refused == a.refused else Justified(a, c, short, tries)
  {
    RetriedIsWithin(a, b, Starting, true, tries);
    forall x ensures Accounts.Alike(a, b, x) || Accounts.Alike(b, c, x) {
      assert x != Starting ==> Accounts.Alike(a, b, x);
    }
    PartsAddUp(a, b, c, short, tries);
  }

  /** What follows once the session is open: the chunks and the finish, or giving it up. */
  method Transfer(server: UploadServer, h: Hashing, token: int, body: Bytes, size: nat, chunk: nat, readerAt: bool, parallelism: int, maxRetries: int)
    returns (ok: bool)
    requires chunk > 0 && token in server.sessions && server.sessions[token] == Session(TotalChunks(size, chunk), map[], Open)
    modifies server
    ensures token in server.sessions && server.sessions == old(server.sessions)[token := server.sessions[token]]
    ensures ok ==> server.sessions[token].status.Closed?
    ensures server.sessions[token].status.Closed? ==> |body| >= size && Right(h, server.sessions[token], body[..size], chunk)
    ensures server.finishes != old(server.finishes) ==>
              |body| >= size && HasPieces(server.sessions[token], Pieces(body[..size], chunk), TotalChunks(size, chunk))
    ensures server.cancels == old(server.cancels) + (if !ok && !server.done then 1 else 0)
    ensures !ok && server.done ==>
              && !server.sessions[token].status.Cancelled?
              && (server.finishes == old(server.finishes) ==> server.sessions[token].status.Open?)
    ensures WithinTries(old(server.books), server.books, Attempts(maxRetries)) && NoStart(old(server.books), server.books)
    ensures if ok then server.books.refused == old(server.books).refused else Justified(old(server.books), server.books, |body| < size, Attempts(maxRetries))
  {
    ghost var start := server.books;
    var hashes := SendChunks(server, h, token, body, size, chunk, readerAt, parallelism, maxRetries);
    ghost var sent := server.books;
    if hashes.None? {
      server.Cancel(token);
      return false;
    }
    AllSentAssembles(h, server.sessions[token], body, size, chunk, hashes.value);
    ok := FinishWithRetries(server, token, h.total(hashes.value), maxRetries);
    FinishAddsUp(start, sent, server.books, token, TotalChunks(size, chunk), ok, |body| < size, Attempts(maxRetries));
    if !ok {
      server.Cancel(token);
    }
  }

  /** A whole upload. If it succeeds the new session is closed with the body's bytes; any session it ever closes, even
      if it then reports a failure, is right; the request to finish is not sent before every chunk has been
      acknowledged; a failure after the start sends one request to cancel if and only if the context is live then, and
      otherwise leaves the session open, or closed if the finish got through. No request is made more often than allowed,
      and there is a failure only if a request ends for good, a read fails, the body is too short, or some request uses
      up its attempts; and no request ends for good in a success. */
  method Upload(server: UploadServer, h: Hashing, body: Bytes, size: nat, chunk: nat, readerAt: bool, parallelism: int, maxRetries: int)
    returns (ok: bool, token: Option<int>)
    requires chunk > 0 && size + chunk - 1 <= MAX_INT64
    modifies server
    ensures ok ==> token.Some? && token.value in server.sessions && server.sessions[token.value].status.Closed?
    ensures forall t :: t in old(server.sessions) ==> t in server.sessions && server.sessions[t] == old(server.sessions)[t]
    ensures forall t :: t in server.sessions && t !in old(server.sessions) && server.sessions[t].status.Closed? ==>
              |body| >= size && Right(h, server.sessions[t], body[..size], chunk)
    ensures server.finishes != old(server.finishes) ==>
              |body| >= size && token.Some? && token.value in server.sessions
              && HasPieces(server.sessions[token.value], Pieces(body[..size], chunk), TotalChunks(size, chunk))
    ensures server.cancels == old(server.cancels) + (if token.Some? && !ok && !server.done then 1 else 0)
    ensures token.Some? && !ok && server.done ==>
              && token.value in server.sessions && !server.sessions[token.value].status.Cancelled?
              && (server.finishes == old(server.finishes) ==> server.sessions[token.value].status.Open?)
    ensures old(server.done) ==> token.None? && server.sessions == old(server.sessions)
    ensures WithinTries(old(server.books), server.books, Attempts(maxRetries))
    ensures if ok then server.books.refused == old(server.books).refused else Justified(old(server.books), server.books, |body| < size, Attempts(maxRetries))
  {
    token := StartWithRetries(server, TotalChunks(size, chunk), maxRetries);
    RetriedIsWithin(old(server.books), server.books, Starting, token.Some?, Attempts(maxRetries));
    if token.None? {
      return false, token;
    }
    ghost var started := server.books;
    ok := Transfer(server, h, token.value, body, size, chunk, readerAt, parallelism, maxRetries);
    StartAddsUp(old(server.books), started, server.books, ok, |body| < size, Attempts(maxRetries));
  }

  // ---- Uploads that are given up ----

  datatype Request = Chunk(n: nat, data: Bytes) | Finish(hash: string)

  ghost predicate IsAsked(a: Net, b: Net, token: int, q: Request) {
    match q
    case Chunk(n, data) => exists r :: IsPutChunk(a, b, token, n, data, r)
    case Finish(hash) => exists r :: IsFinish(a, b, token, hash, r)
  }

  /** A session started, worked on, and given up: `nets` before and after every request. */
  ghost predicate IsGivenUp(nets: seq<Net>, total: nat, token: int, qs: seq<Request>) {
    && |nets| == |qs| + 3
    && IsStart(nets[0], nets[1], total, Accepted, token)
    && (forall i :: 0 <= i < |qs| ==> IsAsked(nets[i + 1], nets[i + 2], token, qs[i]))
    && IsCancel(nets[|qs| + 1], nets[|qs| + 2], token)
  }

  predicate HasFinish(qs: seq<Request>, n: nat)
    requires n <= |qs|
  {
    exists i :: 0 <= i < n && qs[i].Finish?
  }

  lemma {:induction false} BeforeGivingUp(nets: seq<Net>, total: nat, token: int, qs: seq<Request>, n: nat)
    requires IsGivenUp(nets, total, token, qs) && n <= |qs|
    ensures nets[n + 1].cancels == nets[0].cancels && token in nets[n + 1].sessions
    ensures !nets[n + 1].sessions[token].status.Cancelled?
    ensures !HasFinish(qs, n) ==> nets[n + 1].sessions[token].status.Open?
  {
    if n > 0 {
      BeforeGivingUp(nets, total, token, qs, n - 1);
      assert IsAsked(nets[n - 1 + 1], nets[n - 1 + 2], token, qs[n - 1]);
    }
  }

  /** Giving up sends a request to cancel exactly if the context is live; if it is done, the session is not cancelled,
      and stays open unless it was asked to finish. */
  lemma GivenUpIsCancelledIff(nets: seq<Net>, total: nat, token: int, qs: seq<Request>)
    requires IsGivenUp(nets, total, token, qs)
    ensures var (first, last) := (nets[0], nets[|qs| + 2]);
            && token in last.sessions
            && (last.cancels == first.cancels + 1 <==> !last.done) && (last.cancels == first.cancels <==> last.done)
            && (last.done ==> !last.sessions[token].status.Cancelled?)
            && (last.done && !HasFinish(qs, |qs|) ==> last.sessions[token].status.Open?)
  {
    BeforeGivingUp(nets, total, token, qs, |qs|);
  }

  /** For example, the context is cancelled while the only chunk is on its way: the session stays open on the drive, and
      nobody asks to cancel it. */
  lemma LeftOpenExample() returns (nets: seq<Net>)
    ensures IsGivenUp(nets, 1, 5, [Chunk(1, [7])])
    ensures !nets[0].done && !nets[1].done && nets[3].cancels == nets[0].cancels
    ensures 5 in nets[3].sessions && nets[3].sessions[5] == Session(1, map[], Open)
  {
    var before := Net(map[], 0, 0, NO_BOOKS, false);
    var after := Net(map[5 := Session(1, map[], Open)], 0, 0, Noting(NO_BOOKS, Starting, Accepted), false);
    var cut := after.(books := Noting(after.books, Sending(5, 1), Fatal), done := true);
    nets := [before, after, cut, cut];
    assert IsPutChunk(after, cut, 5, 1, [7], Fatal);
    assert IsAsked(nets[0 + 1], nets[0 + 2], 5, Chunk(1, [7]));
  }
}
