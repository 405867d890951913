/** The chunk stream, polled step by step while its input arrives in fragments or fails. */
module WriteStream {
  import opened Wrappers
  import opened WriteChunks

  /** What polling the input yields; a sequence of these that is used up has ended. */
  datatype Input = Arrives(bytes: Bytes) | Fails | NotReady

  datatype Polled = Pending | Chunk(bytes: Bytes) | Failed | Done

  /** The data still to arrive, up to the end or the first failure. */
  function Ahead(input: seq<Input>): Bytes {
    if input == [] then []
    else match input[0]
      case Fails => []
      case NotReady => Ahead(input[1..])
      case Arrives(b) => b + Ahead(input[1..])
  }

  predicate Failing(input: seq<Input>) {
    input != [] && (input[0].Fails? || Failing(input[1..]))
  }

  /** However the data was cut into fragments, and wherever the input kept the stream waiting. */
  lemma {:induction false} AheadIsConcat(input: seq<Input>, fragments: seq<Bytes>)
    requires !Failing(input) && fragments == Fragments(input)
    ensures Ahead(input) == Concat(fragments)
  {
    if input != [] {
      AheadIsConcat(input[1..], Fragments(input[1..]));
      if input[0].Arrives? { assert fragments[1..] == Fragments(input[1..]); }
    }
  }

  function Fragments(input: seq<Input>): seq<Bytes> {
    if input == [] then []
    else if input[0].Arrives? then [input[0].bytes] + Fragments(input[1..])
    else Fragments(input[1..])
  }

  function BufferedLen(buffer: seq<Bytes>): nat {
    if buffer == [] then 0 else |buffer[0]| + BufferedLen(buffer[1..])
  }

  lemma {:induction false} BufferedIsConcat(buffer: seq<Bytes>)
    ensures BufferedLen(buffer) == |Concat(buffer)|
  {
    if buffer != [] { BufferedIsConcat(buffer[1..]); }
  }

  lemma {:induction false} ConcatSnoc(a: seq<Bytes>, b: Bytes)
    ensures Concat(a + [b]) == Concat(a) + b
  {
    if a == [] {
      assert a + [b] == [b];
    } else {
      assert (a + [b])[1..] == a[1..] + [b];
      ConcatSnoc(a[1..], b);
    }
  }

  lemma ConcatOne(b: Bytes)
    ensures Concat([b]) == b && Concat([]) == []
  {
  }

  /** The chunk at the head of `left` when no more can come, or when more is bound to come. */
  ghost predicate HeadChunk(c: Bytes, left: Bytes, more: bool, maxSize: nat) {
    && c != [] && c <= left
    && (!more ==> NextChunkEnd(left, maxSize, true) == Some(|c|))
    && (more ==> forall rest :: NextChunkEnd(left + rest, maxSize, true) == Some(|c|))
  }

  /** Data a chunk cannot be cut from yet: less than the limit, or no line of it complete. */
  predicate Unsettled(b: Bytes, maxSize: nat) { |b| < maxSize || NoNewline(b) }

  class WriteChunkStream {
    const maxSize: nat
    var buffer: seq<Bytes>
    var input: seq<Input>
    var finished: bool

    constructor (input: seq<Input>, maxSize: nat)
      ensures Valid() && Left() == Ahead(input) && this.maxSize == maxSize
      ensures WillFail() == Failing(input)
    {
      this.buffer := [];
      this.input := input;
      this.maxSize := maxSize;
      this.finished := false;
    }

    ghost predicate Valid()
      reads this
    {
      forall i :: 0 <= i < |buffer| ==> buffer[i] != []
    }

    /** What the stream still has to emit, if its input does not fail. */
    ghost function Left(): Bytes
      reads this
    {
      Concat(buffer) + if finished then [] else Ahead(input)
    }

    ghost predicate WillFail()
      reads this
    {
      !finished && Failing(input)
    }

    /** The buffer as one piece. */
    method Coalesce() returns (b: Bytes)
      modifies this`buffer
      ensures b == Concat(old(buffer)) && buffer == []
    {
      ConcatOne([]);
      if |buffer| == 0 {
        b := [];
      } else if |buffer| == 1 {
        b := buffer[0];
        ConcatOne(b);
        assert buffer == [b];
        buffer := [];
      } else {
        b := [];
        for i := 0 to |buffer|
          invariant buffer == old(buffer) && b == Concat(buffer[..i])
        {
          ConcatSnoc(buffer[..i], buffer[i]);
          assert buffer[..i + 1] == buffer[..i] + [buffer[i]];
          b := b + buffer[i];
        }
        assert buffer[..|buffer|] == buffer;
        buffer := [];
      }
    }

    /** Emit a chunk if the buffer settles one. */
    method TryEmit() returns (r: Option<Bytes>)
      requires Valid() && BufferedLen(buffer) > 0 && (BufferedLen(buffer) >= maxSize || finished)
      modifies this`buffer
      ensures Valid() && (finished ==> r.Some?)
      ensures r.None? ==> Left() == old(Left()) && NoNewline(Concat(buffer))
      ensures r.Some? ==>
        && r.value != [] && old(Left()) == r.value + Left()
        && HeadChunk(r.value, old(Left()), WillFail(), maxSize)
    {
      hide NextChunkEnd, Ahead, Failing;
      BufferedIsConcat(buffer);
      var b := Coalesce();
      ConcatOne(b);
      ghost var ahead := if finished then [] else Ahead(input);
      match NextChunkEnd(b, maxSize, finished)
      case None =>
        buffer := [b];
        r := None;
      case Some(n) =>
        if n < |b| {
          buffer := [b[n..]];
          ConcatOne(b[n..]);
        }
        Settled(b, ahead, n, maxSize, finished);
        assert b + ahead == b[..n] + (b[n..] + ahead);
        assert n == |b| ==> b[n..] == [];
        r := Some(b[..n]);
    }

    /** Take in what the input has, or stop at a wait or a failure. */
    method ReadInput() returns (stop: Option<Polled>)
      requires Valid() && !finished
      modifies this`buffer, this`input, this`finished
      ensures Valid() && (|input| < old(|input|) || (input == old(input) && finished && stop == None))
      ensures stop == None || stop == Some(Pending) ==> Left() == old(Left()) && WillFail() == old(WillFail())
      ensures stop == None || (stop == Some(Pending) && !finished) || stop == Some(Failed)
      ensures stop == Some(Failed) ==> old(WillFail()) && Left() == [] && !WillFail()
      ensures stop == Some(Failed) ==> old(Left()) == Concat(old(buffer))
      ensures stop == Some(Pending) ==> buffer == old(buffer)
    {
      stop := None;
      if input == [] {
        finished := true;
        return;
      }
      var next := input[0];
      input := input[1..];
      match next
      case NotReady => stop := Some(Pending);
      case Arrives(b) =>
        ConcatSnoc(buffer, b);
        assert Concat(buffer) + (b + Ahead(input)) == Concat(buffer) + b + Ahead(input);
        if b != [] {
          buffer := buffer + [b];
        }
      case Fails =>
        buffer := [];
        finished := true;
        stop := Some(Failed);
    }

    method PollNext() returns (r: Polled)
      requires Valid()
      modifies this`buffer, this`input, this`finished
      ensures Valid() && |input| <= old(|input|)
      ensures r.Pending? ==> Left() == old(Left()) && WillFail() == old(WillFail()) && |input| < old(|input|)
      ensures r.Chunk? ==>
        && r.bytes != [] && old(Left()) == r.bytes + Left() && WillFail() == old(WillFail())
        && HeadChunk(r.bytes, old(Left()), WillFail(), maxSize)
      ensures r.Failed? ==> old(WillFail()) && Left() == [] && !WillFail() && Unsettled(old(Left()), maxSize)
      ensures r.Pending? ==> Unsettled(Concat(buffer), maxSize)
      ensures r.Done? ==> old(Left()) == [] && !old(WillFail()) && buffer == [] && finished
    {
      hide HeadChunk, NextChunkEnd, Ahead, Failing;
      while true
        invariant Valid() && Left() == old(Left()) && WillFail() == old(WillFail()) && |input| <= old(|input|)
        decreases |input|, !finished
      {
        var total := BufferedLen(buffer);
        BufferedIsConcat(buffer);
        if total > 0 && (total >= maxSize || finished) {
          var c := TryEmit();
          if c.Some? {
            return Chunk(c.value);
          }
        }
        if finished {
          assert buffer == [];
          return Done;
        }
        assert Unsettled(Concat(buffer), maxSize);
        var stop := ReadInput();
        if stop.Some? {
          return stop.value;
        }
      }
    }

    /**
     Poll to the end, sending every chunk. Without a failure the chunks are the one-shot splitting
     of all the data; with one, they start the one-shot splitting of that data however it would
     have continued, and what was left unsent could not have been sent yet.
     */
    method SendAll() returns (chunks: seq<Bytes>, failed: bool, sent: Metrics)
      requires Valid()
      modifies this`buffer, this`input, this`finished
      ensures failed == old(WillFail()) && sent == Total(chunks)
      ensures !failed ==> chunks == OneShot(old(Left()), maxSize)
      ensures !failed ==> sent == Metrics(|chunks|, |old(Left())|, CountLines(old(Left())))
      ensures !failed ==> sent.linesSent == |LineEnds(old(Left()))| && Chunking(chunks, old(Left()), maxSize)
      ensures failed ==> forall more :: chunks <= OneShot(old(Left()) + more, maxSize)
      ensures failed ==> exists rest :: old(Left()) == Concat(chunks) + rest && Unsettled(rest, maxSize)
    {
      hide OneShot, NextChunkEnd, Begun, HeadChunk, Total, Concat, Ahead, LineEnds, Chunking;
      ConcatOne([]);
      LinesAreCounted(Left());
      OneShotChunks(Left(), maxSize);
      chunks, failed, sent := [], false, NOTHING_SENT;
      BegunEmpty(Left(), WillFail(), maxSize);
      while true
        invariant Valid() && WillFail() == old(WillFail()) && sent == Total(chunks)
        invariant Begun(chunks, Left(), old(Left()), WillFail(), maxSize) && old(Left()) == Concat(chunks) + Left()
        decreases |Left()|, |input|
      {
        ghost var left := Left();
        var r := PollNext();
        match r
        case Pending =>
        case Chunk(c) =>
          TotalSnoc(chunks, c);
          ConcatSnoc(chunks, c);
          assert Concat(chunks) + (c + Left()) == Concat(chunks) + c + Left();
          sent := Add(sent, FromWrite(c));
          BegunMore(chunks, c, Left(), old(Left()), WillFail(), maxSize);
          chunks := chunks + [c];
        case Failed =>
          BegunIsPrefix(chunks, left, old(Left()), maxSize);
          failed := true;
          return;
        case Done =>
          NothingLeft(chunks, old(Left()), maxSize);
          return;
      }
    }
  }

  lemma Settled(b: Bytes, ahead: Bytes, n: nat, maxSize: nat, finished: bool)
    requires NextChunkEnd(b, maxSize, finished) == Some(n) && (|b| >= maxSize || finished) && (finished ==> ahead == [])
    ensures NextChunkEnd(b + ahead, maxSize, true) == Some(n)
    ensures !finished ==> forall rest :: NextChunkEnd(b + ahead + rest, maxSize, true) == Some(n)
  {
    if finished {
      assert b + ahead == b;
    } else {
      EndIsSettled(b, ahead, maxSize);
      forall rest ensures NextChunkEnd(b + ahead + rest, maxSize, true) == Some(n) {
        assert b + ahead + rest == b + (ahead + rest);
        EndIsSettled(b, ahead + rest, maxSize);
      }
    }
  }

  /** `chunks` begin the splitting of `all`, with `left` still to split. */
  ghost predicate Begun(chunks: seq<Bytes>, left: Bytes, all: Bytes, more: bool, maxSize: nat) {
    && (!more ==> OneShot(all, maxSize) == chunks + OneShot(left, maxSize))
    && (more ==> forall rest :: OneShot(all + rest, maxSize) == chunks + OneShot(left + rest, maxSize))
  }

  lemma BegunEmpty(all: Bytes, more: bool, maxSize: nat)
    ensures Begun([], all, all, more, maxSize) && Total([]) == NOTHING_SENT
  {
  }

  lemma OneShotHead(c: Bytes, left: Bytes, maxSize: nat)
    requires c != [] && NextChunkEnd(c + left, maxSize, true) == Some(|c|)
    ensures OneShot(c + left, maxSize) == [c] + OneShot(left, maxSize)
  {
  }

  lemma BegunWith(chunks: seq<Bytes>, c: Bytes, left: Bytes, rest: Bytes, maxSize: nat)
    requires c != [] && NextChunkEnd(c + left + rest, maxSize, true) == Some(|c|)
    ensures chunks + OneShot(c + left + rest, maxSize) == chunks + [c] + OneShot(left + rest, maxSize)
  {
    assert c + left + rest == c + (left + rest);
    OneShotHead(c, left + rest, maxSize);
  }

  lemma BegunMore(chunks: seq<Bytes>, c: Bytes, left: Bytes, all: Bytes, more: bool, maxSize: nat)
    requires Begun(chunks, c + left, all, more, maxSize) && HeadChunk(c, c + left, more, maxSize)
    ensures Begun(chunks + [c], left, all, more, maxSize)
  {
    hide OneShot, NextChunkEnd;
    if more {
      forall rest ensures OneShot(all + rest, maxSize) == chunks + [c] + OneShot(left + rest, maxSize) {
        BegunWith(chunks, c, left, rest, maxSize);
      }
    } else {
      OneShotHead(c, left, maxSize);
    }
  }

  lemma NothingLeft(chunks: seq<Bytes>, all: Bytes, maxSize: nat)
    requires Begun(chunks, [], all, false, maxSize)
    ensures chunks == OneShot(all, maxSize) && Total(chunks) == Metrics(|chunks|, |all|, CountLines(all))
  {
    assert chunks + OneShot([], maxSize) == chunks;
    hide OneShot, Total, CountLines, Chunking;
    OneShotChunks(all, maxSize);
    SentIsWhole(chunks, all, maxSize);
  }

  lemma BegunIsPrefix(chunks: seq<Bytes>, left: Bytes, all: Bytes, maxSize: nat)
    requires Begun(chunks, left, all, true, maxSize)
    ensures forall more :: chunks <= OneShot(all + more, maxSize)
  {
  }

  lemma {:induction false} TotalSnoc(chunks: seq<Bytes>, c: Bytes)
    ensures Total(chunks + [c]) == Add(Total(chunks), FromWrite(c))
  {
    if chunks == [] {
      assert chunks + [c] == [c];
    } else {
      assert (chunks + [c])[1..] == chunks[1..] + [c];
      TotalSnoc(chunks[1..], c);
    }
  }
}
