/** Cutting a body into chunks. */
module Chunks {
  import opened Types

  const MAX_INT64: nat := 0x7FFF_FFFF_FFFF_FFFF
  const TWO_64: nat := 0x1_0000_0000_0000_0000

  /** The number of chunks: at least one, even for an empty body. */
  function TotalChunks(size: nat, chunk: nat): (n: nat)
    requires chunk > 0
    ensures n >= 1
  {
    var n := (size + chunk - 1) / chunk;
    if n == 0 then 1 else n
  }

  /** Where chunk `n`, counted from 1, starts. */
  function Offset(chunk: nat, n: nat): int {
    (n - 1) * chunk
  }

  /** The length of chunk `n`: what is left, but no more than a chunk. */
  function Length(size: nat, chunk: nat, n: nat): int {
    var remaining := size - Offset(chunk, n);
    if remaining < chunk then remaining else chunk
  }

  lemma CeilingOf(size: nat, chunk: nat)
    requires chunk > 0
    ensures var n := TotalChunks(size, chunk); (n - 1) * chunk < size <= n * chunk || (size == 0 && n == 1)
  {
    var q := (size + chunk - 1) / chunk;
    DivBounds(size + chunk - 1, chunk, q);
    assert (q - 1) * chunk == q * chunk - chunk;
  }

  lemma DivBounds(a: nat, d: nat, q: nat)
    requires d > 0 && q == a / d
    ensures q * d <= a < q * d + d
  {
  }

  lemma Monotone(a: int, b: int, d: nat)
    requires a <= b
    ensures a * d <= b * d
  {
  }

  /** The chunks partition the body: they are as long as a chunk, the last one perhaps shorter but not empty, each
      starts where the one before ends, and the last one ends where the body ends. */
  lemma ChunksPartition(size: nat, chunk: nat, n: nat)
    requires chunk > 0 && 1 <= n <= TotalChunks(size, chunk)
    ensures 0 <= Offset(chunk, n) <= size
    ensures (if size > 0 then 0 < Length(size, chunk, n) else Length(size, chunk, n) == 0) && Length(size, chunk, n) <= chunk
    ensures Offset(chunk, 1) == 0
    ensures n < TotalChunks(size, chunk) ==> Length(size, chunk, n) == chunk && Offset(chunk, n) + chunk == Offset(chunk, n + 1)
    ensures n == TotalChunks(size, chunk) ==> Offset(chunk, n) + Length(size, chunk, n) == size
  {
    var total := TotalChunks(size, chunk);
    CeilingOf(size, chunk);
    Monotone(n - 1, total - 1, chunk);
    assert n * chunk == (n - 1) * chunk + chunk;
    if n < total {
      Monotone(n, total - 1, chunk);
    }
  }

  /** Chunk `n` of a body. */
  function Piece(body: Bytes, chunk: nat, n: nat): Bytes
    requires chunk > 0 && 1 <= n <= TotalChunks(|body|, chunk)
  {
    ChunksPartition(|body|, chunk, n);
    body[Offset(chunk, n)..Offset(chunk, n) + Length(|body|, chunk, n)]
  }

  /** All chunks of a body, in order. */
  function Pieces(body: Bytes, chunk: nat): (ps: seq<Bytes>)
    requires chunk > 0
    ensures |ps| == TotalChunks(|body|, chunk)
    ensures forall k :: 0 <= k < |ps| ==> ps[k] == Piece(body, chunk, k + 1)
  {
    seq(TotalChunks(|body|, chunk), k requires 0 <= k < TotalChunks(|body|, chunk) => Piece(body, chunk, k + 1))
  }

  /** The first `n` chunks a server holds, put together. */
  function Assembled(chunks: map<nat, Bytes>, n: nat): Bytes
    requires forall k :: 1 <= k <= n ==> k in chunks
  {
    if n == 0 then [] else Assembled(chunks, n - 1) + chunks[n]
  }

  /** Pieces put together are the body up to where the last one ends. */
  lemma {:induction false} PiecesAssemble(chunks: map<nat, Bytes>, body: Bytes, chunk: nat, n: nat)
    requires chunk > 0 && n <= TotalChunks(|body|, chunk)
    requires forall k :: 1 <= k <= n ==> k in chunks && chunks[k] == Piece(body, chunk, k)
    ensures n < TotalChunks(|body|, chunk) ==> 0 <= Offset(chunk, n + 1) <= |body| && Assembled(chunks, n) == body[..Offset(chunk, n + 1)]
    ensures n == TotalChunks(|body|, chunk) ==> Assembled(chunks, n) == body
  {
    if n == 0 {
      ChunksPartition(|body|, chunk, 1);
    } else {
      PiecesAssemble(chunks, body, chunk, n - 1);
      NextPiece(body, chunk, n);
    }
  }

  lemma NextPiece(body: Bytes, chunk: nat, n: nat)
    requires chunk > 0 && 1 <= n <= TotalChunks(|body|, chunk)
    ensures 0 <= Offset(chunk, n) <= |body|
    ensures n < TotalChunks(|body|, chunk) ==>
              0 <= Offset(chunk, n + 1) <= |body| && body[..Offset(chunk, n)] + Piece(body, chunk, n) == body[..Offset(chunk, n + 1)]
    ensures n == TotalChunks(|body|, chunk) ==> body[..Offset(chunk, n)] + Piece(body, chunk, n) == body
  {
    ChunksPartition(|body|, chunk, n);
    if n < TotalChunks(|body|, chunk) {
      ChunksPartition(|body|, chunk, n + 1);
    }
  }

  // ---- Machine integers ----

  function Wrap(x: int): int {
    var r := x % TWO_64;
    if r > MAX_INT64 then r - TWO_64 else r
  }

  /** Division that drops the fraction, as the processor does it. */
  function Quotient(a: int, d: nat): int
    requires d > 0
  {
    if a >= 0 then a / d else -((-a) / d)
  }

  /** The number of chunks as computed in 64 bits. */
  function TotalChunks64(size: int, chunk: nat): int
    requires chunk > 0
  {
    var n := Quotient(Wrap(size + chunk - 1), chunk);
    if n == 0 then 1 else n
  }

  /** In 64 bits the number of chunks is right exactly as long as rounding up does not overflow. */
  lemma TotalIsRightIff(size: nat, chunk: nat)
    requires size <= MAX_INT64 && 0 < chunk <= 0x4000_0000_0000_0000
    ensures TotalChunks64(size, chunk) == TotalChunks(size, chunk) <==> size + chunk - 1 <= MAX_INT64
  {
    var sum := size + chunk - 1;
    if sum <= MAX_INT64 {
      assert sum % TWO_64 == sum;
    } else {
      assert sum % TWO_64 == sum;
      assert Wrap(sum) == sum - TWO_64;
      assert -Wrap(sum) >= chunk;
      DivBounds(-Wrap(sum), chunk, (-Wrap(sum)) / chunk);
      AtLeastOne(-Wrap(sum), chunk);
    }
  }

  lemma AtLeastOne(a: nat, d: nat)
    requires 0 < d <= a
    ensures a / d >= 1
  {
  }

  /** Below that bound no offset or length overflows either. */
  lemma OffsetsFit(size: nat, chunk: nat, n: nat)
    requires chunk > 0 && size + chunk - 1 <= MAX_INT64 && 1 <= n <= TotalChunks(size, chunk)
    ensures Wrap(Offset(chunk, n)) == Offset(chunk, n) && Wrap(Length(size, chunk, n)) == Length(size, chunk, n)
    ensures Wrap(size - Offset(chunk, n)) == size - Offset(chunk, n)
  {
    ChunksPartition(size, chunk, n);
  }
}
