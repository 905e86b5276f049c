/** Splitting a text into overlapping chunks. */
module Chunking {

  function Min(a: int, b: int): int {
    if a <= b then a else b
  }

  /** Where chunk k starts: each one `stride` characters after the one before. */
  function Start(k: nat, stride: nat): nat {
    if k == 0 then 0 else Start(k - 1, stride) + stride
  }

  lemma {:induction false} StartIsProduct(k: nat, stride: nat)
    ensures Start(k, stride) == k * stride
  {
    if k > 0 {
      StartIsProduct(k - 1, stride);
    }
  }

  /** The piece of the text that chunk k covers. */
  function Piece(text: string, size: nat, overlap: nat, k: nat): string
    requires overlap < size && Start(k, size - overlap) <= |text|
  {
    var start := Start(k, size - overlap);
    text[start..Min(start + size, |text|)]
  }

  /** Chunk k is not the last one: the text goes on behind it. */
  predicate GoesOn(length: nat, size: nat, overlap: nat, k: nat)
    requires overlap < size
  {
    Start(k, size - overlap) + size < length
  }

  /** The chunks are the pieces 0, 1, ... up to the first one that reaches the end of the text. */
  ghost predicate Chunked(text: string, size: nat, overlap: nat, chunks: seq<string>)
    requires overlap < size
  {
    if text == "" then chunks == []
    else
      && chunks != []
      && (forall k :: 0 <= k < |chunks| - 1 ==> GoesOn(|text|, size, overlap, k))
      && !GoesOn(|text|, size, overlap, |chunks| - 1)
      && (forall k :: 0 <= k < |chunks| ==> IsPiece(text, size, overlap, chunks, k))
  }

  predicate IsPiece(text: string, size: nat, overlap: nat, chunks: seq<string>, k: nat)
    requires overlap < size && k < |chunks|
  {
    Start(k, size - overlap) < |text| && chunks[k] == Piece(text, size, overlap, k)
  }

  /** The chunks made so far, none of which reaches the end of the text. */
  ghost predicate PiecesSoFar(text: string, size: nat, overlap: nat, chunks: seq<string>)
    requires overlap < size
  {
    forall k :: 0 <= k < |chunks| ==> IsPiece(text, size, overlap, chunks, k) && GoesOn(|text|, size, overlap, k)
  }

  lemma OnePieceMore(text: string, size: nat, overlap: nat, chunks: seq<string>)
    requires overlap < size && PiecesSoFar(text, size, overlap, chunks)
    requires Start(|chunks|, size - overlap) < |text|
    ensures var more := chunks + [Piece(text, size, overlap, |chunks|)];
            if GoesOn(|text|, size, overlap, |chunks|) then PiecesSoFar(text, size, overlap, more)
            else Chunked(text, size, overlap, more)
  {
    var n := |chunks|;
    var more := chunks + [Piece(text, size, overlap, n)];
    forall k | 0 <= k < |more|
      ensures IsPiece(text, size, overlap, more, k)
      ensures k < n ==> GoesOn(|text|, size, overlap, k)
    {
      if k < n {
        assert IsPiece(text, size, overlap, chunks, k);
      }
    }
  }

  method ChunkText(text: string, size: nat, overlap: nat) returns (chunks: seq<string>)
    requires overlap < size
    ensures Chunked(text, size, overlap, chunks)
    ensures |chunks| == Count(|text|, size, overlap)
    ensures Reassembled(chunks, overlap) == text
  {
    chunks := [];
    if text == "" {
      return;
    }
    var start, length := 0, |text|;
    while start < length
      invariant 0 <= start < length && start == Start(|chunks|, size - overlap)
      invariant PiecesSoFar(text, size, overlap, chunks)
      decreases length - start
    {
      var end := Min(start + size, length);
      ghost var before := chunks;
      chunks := chunks + [text[start..end]];
      OnePieceMore(text, size, overlap, before);
      if end >= length {
        break;
      }
      start := end - overlap;
      if start < 0 {
        start := 0;
      }
      if start >= length {
        break;
      }
    }
    CountOfChunks(text, size, overlap, chunks);
    ChunksRebuildText(text, size, overlap, chunks);
  }

  // ---- the number of chunks ----

  function CeilDiv(a: int, b: int): (q: int)
    requires b > 0
    ensures (q - 1) * b < a <= q * b
  {
    (a + b - 1) / b
  }

  /** No chunk for the empty text; otherwise max(1, ceil((length - overlap) / (size - overlap))). */
  function Count(length: nat, size: nat, overlap: nat): nat
    requires overlap < size
  {
    if length == 0 then 0
    else
      var q := CeilDiv(length - overlap, size - overlap);
      if q < 1 then 1 else q
  }

  lemma QuotientUnique(a: int, b: int, p: int, q: int)
    requires b > 0 && (p - 1) * b < a <= p * b && (q - 1) * b < a <= q * b
    ensures p == q
  {
    if p < q {
      ScaleUp(p, q - 1, b);
    } else if q < p {
      ScaleUp(q, p - 1, b);
    }
  }

  lemma ScaleUp(a: int, b: int, c: nat)
    requires a <= b
    ensures a * c <= b * c
  {
  }

  lemma CountOfChunks(text: string, size: nat, overlap: nat, chunks: seq<string>)
    requires overlap < size && Chunked(text, size, overlap, chunks)
    ensures |chunks| == Count(|text|, size, overlap)
  {
    if text != "" {
      var n, stride := |chunks|, size - overlap;
      var a, q := |text| - overlap, CeilDiv(|text| - overlap, stride);
      StartIsProduct(n, stride);
      assert Start(n, stride) == Start(n - 1, stride) + stride;
      assert a <= n * stride;
      if n > 1 {
        assert GoesOn(|text|, size, overlap, n - 2);
        assert Start(n - 1, stride) == Start(n - 2, stride) + stride;
        StartIsProduct(n - 1, stride);
        QuotientUnique(a, stride, n, q);
      } else if q > 1 {
        ScaleUp(1, q - 1, stride);
      }
    }
  }

  // ---- what the chunks say about the text ----

  /** The first chunk followed by every later chunk without its first `overlap` characters. */
  function Reassembled(chunks: seq<string>, overlap: nat): string {
    if chunks == [] then ""
    else if |chunks| == 1 then chunks[0]
    else
      var last := chunks[|chunks| - 1];
      Reassembled(chunks[..|chunks| - 1], overlap) + if overlap <= |last| then last[overlap..] else ""
  }

  lemma JoinPieces(text: string, start: nat, seam: nat, end: nat)
    requires start <= seam <= end <= |text|
    ensures text[..seam] + text[start..end][seam - start..] == text[..end]
  {
  }

  lemma {:induction false} PrefixReassembles(text: string, size: nat, overlap: nat, chunks: seq<string>, n: nat)
    requires overlap < size && Chunked(text, size, overlap, chunks) && 1 <= n <= |chunks|
    ensures Start(n - 1, size - overlap) < |text|
    ensures Reassembled(chunks[..n], overlap) == text[..Min(Start(n - 1, size - overlap) + size, |text|)]
  {
    assert IsPiece(text, size, overlap, chunks, n - 1);
    if n > 1 {
      PrefixReassembles(text, size, overlap, chunks, n - 1);
      assert GoesOn(|text|, size, overlap, n - 2);
      assert chunks[..n][..n - 1] == chunks[..n - 1];
      var start := Start(n - 1, size - overlap);
      JoinPieces(text, start, start + overlap, Min(start + size, |text|));
    } else {
      assert chunks[..1] == [chunks[0]];
    }
  }

  lemma ChunksRebuildText(text: string, size: nat, overlap: nat, chunks: seq<string>)
    requires overlap < size && Chunked(text, size, overlap, chunks)
    ensures Reassembled(chunks, overlap) == text
  {
    if text != "" {
      PrefixReassembles(text, size, overlap, chunks, |chunks|);
      assert chunks[..|chunks|] == chunks;
    }
  }

  /** Neighbours share exactly `overlap` characters: the end of one is the start of the next, and
      the next begins `overlap` characters before the one ends. Every chunk but the last is full,
      and the last is longer than the overlap unless it is the only one. */
  lemma NeighboursShareOverlap(text: string, size: nat, overlap: nat, chunks: seq<string>, k: nat)
    requires overlap < size && Chunked(text, size, overlap, chunks) && k + 1 < |chunks|
    ensures |chunks[k]| == size && overlap < |chunks[k + 1]| <= size
    ensures chunks[k][size - overlap..] == chunks[k + 1][..overlap]
  {
    assert GoesOn(|text|, size, overlap, k);
    assert IsPiece(text, size, overlap, chunks, k) && IsPiece(text, size, overlap, chunks, k + 1);
    var start := Start(k, size - overlap);
    var next := Start(k + 1, size - overlap);
    assert next == start + (size - overlap);
    SharedPart(text, start, next, start + size, Min(next + size, |text|));
  }

  /** Two stretches of the text that overlap between `next` and `end`. */
  lemma SharedPart(text: string, start: nat, next: nat, end: nat, last: nat)
    requires start <= next <= end <= last <= |text|
    ensures text[start..end][next - start..] == text[next..last][..end - next]
  {
    assert text[start..end][next - start..] == text[next..end];
    assert text[next..last][..end - next] == text[next..end];
  }
}
