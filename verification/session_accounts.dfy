/** How often each request of an upload was made, and how its attempts ended. */
module Accounts {
  import opened Types

  /** The end of one attempt: the answer; an error worth another attempt; or one that is not. */
  datatype Reply = Accepted | Transient | Fatal

  datatype Ask = Starting | Sending(token: int, n: nat) | Finishing(token: int)

  /** `tries` and `waits` count, by request, all attempts and those that ended with an error worth another one; `refused`
      counts the attempts that ended with one that is not, and `misread` the reads of the body that failed. */
  datatype Books = Books(tries: map<Ask, nat>, waits: map<Ask, nat>, refused: nat, misread: nat)

  const NO_BOOKS := Books(map[], map[], 0, 0)

  function Got(m: map<Ask, nat>, x: Ask): nat {
    if x in m then m[x] else 0
  }

  function Tried(b: Books, x: Ask): nat {
    Got(b.tries, x)
  }

  function Waited(b: Books, x: Ask): nat {
    Got(b.waits, x)
  }

  function Noting(b: Books, x: Ask, r: Reply): Books {
    b.(tries := b.tries[x := Tried(b, x) + 1],
       waits := if r.Transient? then b.waits[x := Waited(b, x) + 1] else b.waits,
       refused := if r.Fatal? then b.refused + 1 else b.refused)
  }

  ghost predicate Noted(a: Books, b: Books, x: Ask, r: Reply) {
    && b.misread == a.misread && b.refused == a.refused + (if r.Fatal? then 1 else 0)
    && (forall y :: Tried(b, y) == Tried(a, y) + (if y == x then 1 else 0))
    && (forall y :: Waited(b, y) == Waited(a, y) + (if y == x && r.Transient? then 1 else 0))
  }

  lemma NotingIsNoted(b: Books, x: Ask, r: Reply)
    ensures Noted(b, Noting(b, x, r), x, r)
  {
  }

  // ---- One request, asked for again and again ----

  /** How many attempts a request gets: none with a negative number of retries. */
  function Attempts(maxRetries: int): (n: nat)
    ensures n == (if maxRetries < 0 then 0 else maxRetries + 1)
  {
    if maxRetries < 0 then 0 else maxRetries + 1
  }

  ghost predicate Alike(a: Books, b: Books, x: Ask) {
    Tried(b, x) == Tried(a, x) && Waited(b, x) == Waited(a, x)
  }

  /** The request was made no more than `tries` times, and again only after an error worth another attempt; it failed
      exactly if its last attempt ended for good, or all it has ended with such an error. */
  ghost predicate Retried(a: Books, b: Books, x: Ask, ok: bool, tries: nat) {
    var (n, t) := (Tried(b, x) - Tried(a, x), Waited(b, x) - Waited(a, x));
    && b.misread == a.misread && 0 <= t <= n <= tries && (forall y :: y != x ==> Alike(a, b, y))
    && (if ok then n == t + 1 && b.refused == a.refused
        else (n == t + 1 && b.refused == a.refused + 1) || (n == t == tries && b.refused == a.refused))
  }

  /** After `n` attempts, all to be made again. */
  ghost predicate StillTrying(a: Books, b: Books, x: Ask, n: nat) {
    && b.misread == a.misread && b.refused == a.refused && (forall y :: y != x ==> Alike(a, b, y))
    && Tried(b, x) == Tried(a, x) + n && Waited(b, x) == Waited(a, x) + n
  }

  lemma OneMoreTry(a: Books, b: Books, c: Books, x: Ask, n: nat, r: Reply, tries: nat)
    requires StillTrying(a, b, x, n) && Noted(b, c, x, r) && n < tries
    ensures if r.Transient? then StillTrying(a, c, x, n + 1) else Retried(a, c, x, r.Accepted?, tries)
  {
    assert forall y :: y != x && Alike(a, b, y) ==> Alike(a, c, y);
  }

  lemma OutOfTries(a: Books, b: Books, x: Ask, tries: nat)
    requires StillTrying(a, b, x, tries)
    ensures Retried(a, b, x, false, tries)
  {
  }

  // ---- Several requests ----

  /** Why something failed: a request ended for good, a read failed, the body is too short, or some request used up its
      attempts. */
  ghost predicate Justified(a: Books, b: Books, short: bool, tries: nat) {
    b.refused > a.refused || b.misread > a.misread || short || exists x :: Waited(b, x) == Waited(a, x) + tries
  }

  /** No request was made more often than allowed. */
  ghost predicate WithinTries(a: Books, b: Books, tries: nat) {
    && a.refused <= b.refused && a.misread <= b.misread
    && forall x :: Within(a, b, x, tries)
  }

  ghost predicate Within(a: Books, b: Books, x: Ask, tries: nat) {
    Tried(b, x) <= Tried(a, x) + tries && 0 <= Waited(b, x) - Waited(a, x) <= Tried(b, x) - Tried(a, x)
  }

  lemma RetriedIsWithin(a: Books, b: Books, x: Ask, ok: bool, tries: nat)
    requires Retried(a, b, x, ok, tries)
    ensures WithinTries(a, b, tries) && (!ok ==> Justified(a, b, false, tries)) && (ok ==> b.refused == a.refused && b.misread == a.misread)
  {
    forall y ensures Within(a, b, y, tries) {
      assert y != x ==> Alike(a, b, y);
    }
  }

  /** The chunks of one session below `n`. */
  predicate IsChunk(x: Ask, token: int, n: nat) {
    x.Sending? && x.token == token && x.n < n
  }

  ghost predicate OnlyChunksBelow(a: Books, b: Books, token: int, n: nat) {
    forall x :: !IsChunk(x, token, n) ==> Alike(a, b, x)
  }

  lemma OneMoreChunk(a: Books, b: Books, c: Books, token: int, n: nat, ok: bool, tries: nat)
    requires WithinTries(a, b, tries) && OnlyChunksBelow(a, b, token, n) && Retried(b, c, Sending(token, n), ok, tries)
    ensures WithinTries(a, c, tries) && OnlyChunksBelow(a, c, token, n + 1) && (!ok ==> Justified(a, c, false, tries))
    ensures ok ==> c.refused == b.refused && c.misread == b.misread
  {
    var x := Sending(token, n);
    assert !IsChunk(x, token, n) && Alike(a, b, x);
    forall y ensures Within(a, c, y, tries) {
      assert Within(a, b, y, tries) && (y != x ==> Alike(b, c, y));
    }
    forall y | !IsChunk(y, token, n + 1) ensures Alike(a, c, y) {
      assert y != x && Alike(a, b, y) && Alike(b, c, y);
    }
  }

  /** The requests of the two parts are different ones. */
  ghost predicate Separate(a: Books, b: Books, c: Books) {
    forall x :: Alike(a, b, x) || Alike(b, c, x)
  }

  lemma PartsAddUp(a: Books, b: Books, c: Books, short: bool, tries: nat)
    requires WithinTries(a, b, tries) && WithinTries(b, c, tries) && Separate(a, b, c)
    ensures WithinTries(a, c, tries)
    ensures Justified(b, c, short, tries) && tries > 0 ==> Justified(a, c, short, tries)
    ensures tries == 0 ==> Justified(a, c, short, tries)
  {
    forall x ensures Within(a, c, x, tries) {
      assert Within(a, b, x, tries) && Within(b, c, x, tries) && (Alike(a, b, x) || Alike(b, c, x));
    }
    if tries == 0 {
      assert Within(a, c, Starting, 0);
    } else if x :| Waited(c, x) == Waited(b, x) + tries {
      assert Alike(a, b, x) || Alike(b, c, x);
    }
  }
}
