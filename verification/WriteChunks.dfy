/**
 Splitting line protocol into requests. The stream reads its input in fragments as they arrive; what
 it emits is the one-shot splitting of the whole input, however the input was cut up.
 */
module WriteChunks {
  import opened Wrappers

  newtype Byte = x: int | 0 <= x < 256

  type Bytes = seq<Byte>

  const NEWLINE: Byte := 10

  predicate NoNewline(b: Bytes) { NEWLINE !in b }

  /** Ends with a newline. */
  predicate Whole(b: Bytes) { b != [] && b[|b| - 1] == NEWLINE }

  // ---- Where a chunk ends ----

  /** The last newline of `b`. */
  function LastNewline(b: Bytes): (r: Option<nat>)
    ensures r.Some? ==> r.value < |b| && b[r.value] == NEWLINE && forall k :: r.value < k < |b| ==> b[k] != NEWLINE
    ensures r.None? <==> NoNewline(b)
    decreases |b|
  {
    if b == [] then None
    else if b[|b| - 1] == NEWLINE then Some(|b| - 1)
    else LastNewline(b[..|b| - 1])
  }

  /** The first newline of `b` at or after `i`. */
  function FirstNewline(b: Bytes, i: nat): (r: Option<nat>)
    requires i <= |b|
    ensures r.Some? ==> i <= r.value < |b| && b[r.value] == NEWLINE && forall k :: i <= k < r.value ==> b[k] != NEWLINE
    ensures r.None? ==> forall k :: i <= k < |b| ==> b[k] != NEWLINE
    decreases |b| - i
  {
    if i == |b| then None else if b[i] == NEWLINE then Some(i) else FirstNewline(b, i + 1)
  }

  /** How much of `b` to emit: whole lines up to the limit, else one whole line, else the rest at the end. */
  function NextChunkEnd(b: Bytes, maxSize: nat, finished: bool): (r: Option<nat>)
    ensures r.Some? ==> 0 < r.value <= |b|
    ensures r.None? <==> b == [] || (NoNewline(b) && !finished)
  {
    if b == [] then None
    else
      var window := if maxSize <= |b| then maxSize else |b|;
      match LastNewline(b[..window])
      case Some(nl) => Some(nl + 1)
      case None =>
        match FirstNewline(b, 0)
        case Some(nl) => Some(nl + 1)
        case None => if finished then Some(|b|) else None
  }

  /** A full window decides the chunk: nothing that comes after it can change it. */
  lemma EndIsSettled(b: Bytes, more: Bytes, maxSize: nat)
    requires |b| >= maxSize && NextChunkEnd(b, maxSize, false).Some?
    ensures NextChunkEnd(b + more, maxSize, true) == NextChunkEnd(b, maxSize, false)
  {
    assert (b + more)[..maxSize] == b[..maxSize];
    if LastNewline(b[..maxSize]).None? {
      var nl := FirstNewline(b, 0).value;
      assert (b + more)[nl] == NEWLINE;
      assert forall k :: 0 <= k < nl ==> (b + more)[k] != NEWLINE;
    }
  }

  // ---- Splitting in one go ----

  function OneShot(b: Bytes, maxSize: nat): seq<Bytes>
    decreases |b|
  {
    if b == [] then []
    else
      var n := NextChunkEnd(b, maxSize, true).value;
      [b[..n]] + OneShot(b[n..], maxSize)
  }

  function Concat(chunks: seq<Bytes>): Bytes {
    if chunks == [] then [] else chunks[0] + Concat(chunks[1..])
  }

  /**
   What a chunk followed by `rest` has to be: whole lines, or a last line without a newline and
   nothing after it; within the limit or one line only; and with no room for the next line.
   */
  ghost predicate RightChunk(c: Bytes, rest: Bytes, maxSize: nat) {
    && (Whole(c) || (c != [] && NoNewline(c) && rest == []))
    && (|c| <= maxSize || NoNewline(c[..|c| - 1]))
    && (forall k :: 0 <= k < |rest| && rest[k] == NEWLINE ==> |c| + k + 1 > maxSize)
  }

  ghost predicate Chunking(chunks: seq<Bytes>, b: Bytes, maxSize: nat)
    decreases |chunks|
  {
    if chunks == [] then b == []
    else
      && chunks[0] <= b && RightChunk(chunks[0], b[|chunks[0]|..], maxSize)
      && Chunking(chunks[1..], b[|chunks[0]|..], maxSize)
  }

  lemma FirstIsRight(b: Bytes, maxSize: nat)
    requires b != []
    ensures var n := NextChunkEnd(b, maxSize, true).value; RightChunk(b[..n], b[n..], maxSize)
  {
  }

  /** One-shot splitting is a chunking: chunks concatenate to the input, break at lines and are as long as allowed. */
  lemma {:induction false} OneShotChunks(b: Bytes, maxSize: nat)
    ensures Chunking(OneShot(b, maxSize), b, maxSize)
    decreases |b|
  {
    if b != [] {
      var n := NextChunkEnd(b, maxSize, true).value;
      FirstIsRight(b, maxSize);
      OneShotChunks(b[n..], maxSize);
      assert OneShot(b, maxSize)[1..] == OneShot(b[n..], maxSize);
    }
  }

  /** A right first chunk never stops short of another one. */
  lemma RightNotShorter(b: Bytes, m: nat, n: nat, maxSize: nat)
    requires m <= |b| && n <= |b|
    requires RightChunk(b[..m], b[m..], maxSize) && RightChunk(b[..n], b[n..], maxSize)
    ensures m >= n
  {
  }

  /** There is only one chunking. */
  lemma {:induction false} ChunkingUnique(chunks: seq<Bytes>, b: Bytes, maxSize: nat)
    requires Chunking(chunks, b, maxSize)
    ensures chunks == OneShot(b, maxSize)
    decreases |chunks|
  {
    if chunks != [] {
      var m := |chunks[0]|;
      var n := NextChunkEnd(b, maxSize, true).value;
      FirstIsRight(b, maxSize);
      assert chunks[0] == b[..m];
      RightNotShorter(b, m, n, maxSize);
      RightNotShorter(b, n, m, maxSize);
      ChunkingUnique(chunks[1..], b[m..], maxSize);
    }
  }

  lemma {:induction false} ChunkingConcat(chunks: seq<Bytes>, b: Bytes, maxSize: nat)
    requires Chunking(chunks, b, maxSize)
    ensures Concat(chunks) == b
    decreases |chunks|
  {
    if chunks != [] {
      ChunkingConcat(chunks[1..], b[|chunks[0]|..], maxSize);
    }
  }

  // ---- What was sent ----

  function Newlines(b: Bytes): nat { if b == [] then 0 else (if b[0] == NEWLINE then 1 else 0) + Newlines(b[1..]) }

  function CountLines(b: Bytes): nat {
    if b == [] then 0 else if b[|b| - 1] == NEWLINE then Newlines(b) else Newlines(b) + 1
  }

  /** Where the lines of `b` end: at its newlines, and at its end. */
  ghost function LineEnds(b: Bytes): set<nat> { set i: nat | i < |b| && (b[i] == NEWLINE || i == |b| - 1) }

  ghost function NewlinesAt(b: Bytes): set<nat> { set i: nat | i < |b| && b[i] == NEWLINE }

  lemma {:induction false} NewlinesAreCounted(b: Bytes)
    ensures |NewlinesAt(b)| == Newlines(b)
    decreases |b|
  {
    if b != [] {
      var front, last := b[..|b| - 1], b[|b| - 1];
      NewlinesAreCounted(front);
      assert b == front + [last];
      NewlinesConcat(front, [last]);
      assert NewlinesAt(b) == NewlinesAt(front) + if last == NEWLINE then {|b| - 1} else {};
    }
  }

  /** Lines are counted by where they end; a last line without a newline counts. */
  lemma LinesAreCounted(b: Bytes)
    ensures CountLines(b) == |LineEnds(b)|
  {
    NewlinesAreCounted(b);
    if b != [] {
      assert LineEnds(b) == NewlinesAt(b) + {|b| - 1};
    } else {
      assert LineEnds(b) == {};
    }
  }

  datatype Metrics = Metrics(chunkCount: nat, bytesSent: nat, linesSent: nat)

  const NOTHING_SENT := Metrics(0, 0, 0)

  function Add(a: Metrics, b: Metrics): Metrics {
    Metrics(a.chunkCount + b.chunkCount, a.bytesSent + b.bytesSent, a.linesSent + b.linesSent)
  }

  function FromWrite(b: Bytes): Metrics { Metrics(1, |b|, CountLines(b)) }

  function Total(chunks: seq<Bytes>): Metrics {
    if chunks == [] then NOTHING_SENT else Add(FromWrite(chunks[0]), Total(chunks[1..]))
  }

  lemma {:induction false} NewlinesConcat(a: Bytes, b: Bytes)
    ensures Newlines(a + b) == Newlines(a) + Newlines(b)
  {
    if a == [] {
      assert a + b == b;
    } else {
      assert (a + b)[1..] == a[1..] + b;
      NewlinesConcat(a[1..], b);
    }
  }

  /** Sending chunk by chunk counts the bytes and lines of the whole input. */
  lemma {:induction false} SentIsWhole(chunks: seq<Bytes>, b: Bytes, maxSize: nat)
    requires Chunking(chunks, b, maxSize)
    ensures Total(chunks) == Metrics(|chunks|, |b|, CountLines(b))
    decreases |chunks|
  {
    if chunks != [] {
      var c, rest := chunks[0], b[|chunks[0]|..];
      assert b == c + rest;
      SentIsWhole(chunks[1..], rest, maxSize);
      NewlinesConcat(c, rest);
    }
  }
}
