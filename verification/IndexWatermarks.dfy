/** What the two watermarks of a node say, read off the log: the furthest it has published, and the latest time. */
module IndexWatermarks {
  import opened Wrappers
  import opened ParquetFiles
  import opened IndexModel
  import opened IndexReading

  ghost predicate About(h: seq<Event>, node: string, i: int) { 0 <= i < |h| && h[i].delta.key.node == node }

  /** Event `i` adds file `j` of the node. */
  ghost predicate Adds(h: seq<Event>, node: string, i: int, j: int) {
    About(h, node, i) && 0 <= j < |h[i].delta.added|
  }

  /** The node has a mark exactly if an event is about it: the greatest snapshot sequence of those. */
  ghost predicate PublishedIs(h: seq<Event>, node: string, marks: map<string, int>) {
    && (node in marks <==> exists i :: About(h, node, i))
    && (node in marks ==>
          && (exists i :: About(h, node, i) && h[i].delta.snapshotSequence == marks[node])
          && (forall i :: About(h, node, i) ==> h[i].delta.snapshotSequence <= marks[node]))
  }

  /** The node has a mark exactly if a file of it was ever added: the greatest time of those. */
  ghost predicate LatestIs(h: seq<Event>, node: string, marks: map<string, int>) {
    && (node in marks <==> exists i, j :: Adds(h, node, i, j))
    && (node in marks ==>
          && (exists i, j :: Adds(h, node, i, j) && h[i].delta.added[j].maxTime == marks[node])
          && (forall i, j :: Adds(h, node, i, j) ==> h[i].delta.added[j].maxTime <= marks[node]))
  }

  /** The highest time of a list of files bounds them all and is reached. */
  lemma {:induction false} HighestTimeIs(added: seq<ParquetFile>)
    ensures HighestTime(added).None? <==> added == []
    ensures HighestTime(added).Some? ==>
      && (exists j :: 0 <= j < |added| && added[j].maxTime == HighestTime(added).value)
      && (forall j :: 0 <= j < |added| ==> added[j].maxTime <= HighestTime(added).value)
  {
    if added != [] {
      HighestTimeIs(added[1..]);
      var t := HighestTime(added).value;
      if added[0].maxTime != t {
        var j :| 0 <= j < |added[1..]| && added[1..][j].maxTime == t;
        assert added[j + 1].maxTime == t;
      }
    }
  }

  lemma AboutSnoc(h: seq<Event>, e: Event, node: string)
    ensures forall i :: About(h, node, i) ==> About(h + [e], node, i) && (h + [e])[i] == h[i]
    ensures forall i :: About(h + [e], node, i) ==> About(h, node, i) || (i == |h| && e.delta.key.node == node)
    ensures e.delta.key.node == node ==> About(h + [e], node, |h|) && (h + [e])[|h|] == e
  {
  }

  lemma PublishedSnoc(h: seq<Event>, e: Event, node: string, marks: map<string, int>)
    requires PublishedIs(h, node, marks)
    ensures PublishedIs(h + [e], node, Raise(marks, e.delta.key.node, e.delta.snapshotSequence))
  {
    AboutSnoc(h, e, node);
    if node in marks {
      var i :| About(h, node, i) && h[i].delta.snapshotSequence == marks[node];
      assert About(h + [e], node, i);
    }
  }

  lemma LatestKept(h: seq<Event>, e: Event, node: string, marks: map<string, int>)
    requires LatestIs(h, node, marks) && (e.delta.key.node != node || e.delta.added == [])
    ensures LatestIs(h + [e], node, marks)
  {
    AboutSnoc(h, e, node);
    forall i, j ensures Adds(h + [e], node, i, j) <==> Adds(h, node, i, j) {}
    if node in marks {
      var i, j :| Adds(h, node, i, j) && h[i].delta.added[j].maxTime == marks[node];
      assert Adds(h + [e], node, i, j);
    }
  }

  lemma LatestRaised(h: seq<Event>, e: Event, node: string, marks: map<string, int>, t: int)
    requires LatestIs(h, node, marks) && e.delta.key.node == node && HighestTime(e.delta.added) == Some(t)
    ensures LatestIs(h + [e], node, Raise(marks, node, t))
  {
    AboutSnoc(h, e, node);
    HighestTimeIs(e.delta.added);
    var last :| 0 <= last < |e.delta.added| && e.delta.added[last].maxTime == t;
    assert Adds(h + [e], node, |h|, last);
    if node in marks {
      var i, j :| Adds(h, node, i, j) && h[i].delta.added[j].maxTime == marks[node];
      assert Adds(h + [e], node, i, j);
    }
    forall i, j | Adds(h + [e], node, i, j)
      ensures (h + [e])[i].delta.added[j].maxTime <= Raise(marks, node, t)[node]
    {
      if i < |h| { assert Adds(h, node, i, j); }
    }
  }

  ghost predicate MarksAre(h: seq<Event>, node: string, ix: Index) {
    PublishedIs(h, node, ix.watermarks) && LatestIs(h, node, ix.maxTimes)
  }

  lemma DeltaMarks(h: seq<Event>, node: string, ix: Index, d: Delta, at: nat)
    requires MarksAre(h, node, ix)
    ensures MarksAre(h + [Event(d, at)], node, ApplyDelta(ix, d, at))
  {
    var e := Event(d, at);
    PublishedSnoc(h, e, node, ix.watermarks);
    HighestTimeIs(d.added);
    hide PublishedIs;
    match HighestTime(d.added)
    case None => LatestKept(h, e, node, ix.maxTimes);
    case Some(t) =>
      if d.key.node == node {
        LatestRaised(h, e, node, ix.maxTimes, t);
      } else {
        LatestKept(h, e, node, ix.maxTimes);
        LatestSame(h + [e], node, ix.maxTimes, Raise(ix.maxTimes, d.key.node, t));
      }
  }

  lemma LatestSame(h: seq<Event>, node: string, marks: map<string, int>, other: map<string, int>)
    requires LatestIs(h, node, marks)
    requires (node in marks <==> node in other) && (node in marks ==> marks[node] == other[node])
    ensures LatestIs(h, node, other)
  {
  }

  lemma {:induction false} DeltasMarks(h: seq<Event>, node: string, ix: Index, ds: seq<Delta>, at: nat)
    requires MarksAre(h, node, ix)
    ensures MarksAre(h + Events(ds, at), node, ApplyDeltas(ix, ds, at))
    decreases |ds|
  {
    hide MarksAre;
    if ds == [] {
      assert h + Events(ds, at) == h;
    } else {
      DeltaMarks(h, node, ix, ds[0], at);
      DeltasMarks(h + [Event(ds[0], at)], node, ApplyDelta(ix, ds[0], at), ds[1..], at);
      assert h + Events(ds, at) == h + [Event(ds[0], at)] + Events(ds[1..], at);
    }
  }

  /**
   After any log of increasing sequences: a node has a published watermark exactly if some delta is
   about it, the greatest snapshot sequence of its deltas; and it has a time watermark exactly if a
   file of it was ever added, the greatest time of those.
   */
  lemma {:induction false} WatermarksReadLog(log: seq<LogEntry>, node: string)
    requires Increasing(log)
    ensures PublishedIs(History(log), node, Replay(EMPTY, log).watermarks)
    ensures LatestIs(History(log), node, Replay(EMPTY, log).maxTimes)
  {
    if log != [] {
      var init, e := log[..|log| - 1], log[|log| - 1];
      WatermarksReadLog(init, node);
      ReplaySnoc(log);
      ReplayFolds(init, TableKey("", 0, 0));
      DeltasMarks(History(init), node, Replay(EMPTY, init), e.deltas, e.sequence);
    }
  }
}
