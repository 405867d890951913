/**
 Folding a loaded index into one that other tasks have moved meanwhile. Restoring only adds, so the
 result is the index of one log position exactly if nothing the index behind holds is gone from the
 one ahead.
 */
module IndexMerge {
  import opened ParquetFiles
  import opened IndexModel
  import opened IndexReplay
  import opened IndexReading
  import opened CommittedLog

  // ---- One table ----

  lemma {:induction false} MergeStarts(files: seq<IndexedFile>, listed: seq<IndexedFile>)
    ensures files <= Merge(files, listed)
    ensures forall p :: HasPath(Merge(files, listed), p) <==> HasPath(files, p) || HasPath(listed, p)
    decreases |listed|
  {
    if listed != [] {
      var next := PushNew(files, listed[0]);
      MergeStarts(next, listed[1..]);
      forall p ensures HasPath(Merge(files, listed), p) <==> HasPath(files, p) || HasPath(listed, p) {
        PushNewHasPath(files, listed[0], p);
        HasPathTail(listed, p);
      }
    }
  }

  lemma PushNewHasPath(files: seq<IndexedFile>, f: IndexedFile, p: Path)
    ensures HasPath(PushNew(files, f), p) <==> HasPath(files, p) || f.file.path == p
  {
    var next := PushNew(files, f);
    if HasPath(files, p) {
      var i :| 0 <= i < |files| && files[i].file.path == p;
      assert next[i] == files[i];
    } else if f.file.path == p {
      assert next[|files|] == f;
    }
  }

  lemma HasPathTail(files: seq<IndexedFile>, p: Path)
    requires files != []
    ensures HasPath(files, p) <==> files[0].file.path == p || HasPath(files[1..], p)
  {
    if HasPath(files[1..], p) {
      var i :| 0 <= i < |files[1..]| && files[1..][i].file.path == p;
      assert files[i + 1].file.path == p;
    }
    if HasPath(files, p) && files[0].file.path != p {
      var i :| 0 <= i < |files| && files[i].file.path == p;
      assert files[1..][i - 1].file.path == p;
    }
  }

  /** Files whose paths are all there already add nothing. */
  lemma {:induction false} MergeSkips(files: seq<IndexedFile>, listed: seq<IndexedFile>)
    requires forall p :: HasPath(listed, p) ==> HasPath(files, p)
    ensures Merge(files, listed) == files
    decreases |listed|
  {
    if listed != [] {
      assert listed[0].file.path == listed[0].file.path && HasPath(listed, listed[0].file.path);
      forall p | HasPath(listed[1..], p) ensures HasPath(files, p) { HasPathTail(listed, p); }
      MergeSkips(files, listed[1..]);
    }
  }

  lemma {:induction false} MergeConcat(files: seq<IndexedFile>, a: seq<IndexedFile>, b: seq<IndexedFile>)
    ensures Merge(files, a + b) == Merge(Merge(files, a), b)
    decreases |a|
  {
    if a == [] {
      assert a + b == b;
    } else {
      assert (a + b)[0] == a[0] && (a + b)[1..] == a[1..] + b;
      MergeConcat(PushNew(files, a[0]), a[1..], b);
    }
  }

  /** Merging a longer table into a shorter one gives the longer one exactly if it starts with it. */
  lemma MergeAheadIff(files: seq<IndexedFile>, ahead: seq<IndexedFile>)
    requires UniquePaths(ahead)
    ensures Merge(files, ahead) == ahead <==> files <= ahead
  {
    MergeStarts(files, ahead);
    if files <= ahead {
      var rest := ahead[|files|..];
      assert ahead == files + rest;
      MergeConcat(files, files, rest);
      MergeSkips(files, files);
      MergeOfDistinct(files, rest);
    }
  }

  /** Merging an older table into a newer one changes nothing exactly if its paths are all still there. */
  lemma MergeBehindIff(files: seq<IndexedFile>, behind: seq<IndexedFile>)
    ensures Merge(files, behind) == files <==> forall p :: HasPath(behind, p) ==> HasPath(files, p)
  {
    MergeStarts(files, behind);
    if forall p :: HasPath(behind, p) ==> HasPath(files, p) { MergeSkips(files, behind); }
  }

  // ---- Watermarks ----

  lemma RaisedToHigher(m: map<string, int>, other: map<string, int>, ts: seq<(string, int)>)
    requires Enumerates(ts, other) && Below(m, other)
    ensures RaiseAll(m, ts) == other
  {
    var r := RaiseAll(m, ts);
    RaiseAllAdvances(m, ts);
    RaiseAllCovers(m, other, ts);
    forall n | n in r ensures n in other && r[n] == other[n] {
      if !(n in m && r[n] == m[n]) {
        var i :| 0 <= i < |ts| && ts[i] == (n, r[n]);
      }
    }
  }

  lemma RaisedByLower(m: map<string, int>, other: map<string, int>, ts: seq<(string, int)>)
    requires Enumerates(ts, other) && Below(other, m)
    ensures RaiseAll(m, ts) == m
  {
    var r := RaiseAll(m, ts);
    RaiseAllAdvances(m, ts);
    assert forall n :: n in r ==> n in m && r[n] == m[n];
  }

  // ---- Whole indexes ----

  /**
   What the two indexes must have in common for a merge: every table of the one behind starts the
   table of the one ahead, or, if the index merged into is ahead, has lost no path of the other.
   */
  ghost predicate Mergeable(ix: Index, loaded: Index) {
    if ix.sequence <= loaded.sequence then forall k :: Files(ix, k) <= Files(loaded, k)
    else forall k, p :: HasPath(Files(loaded, k), p) ==> HasPath(Files(ix, k), p)
  }

  lemma PrefixesAdvance(log: seq<LogEntry>, a: nat, b: nat)
    requires a <= b <= |log|
    ensures Advanced(Replay(EMPTY, log[..a]), Replay(EMPTY, log[..b]))
    ensures WellFormed(Replay(EMPTY, log[..b]))
  {
    assert log[..b] == log[..a] + log[a..b];
    ReplayConcat(EMPTY, log[..a], log[a..b]);
    ReplayWellFormed(EMPTY, log[..a]);
    ReplayWellFormed(Replay(EMPTY, log[..a]), log[a..b]);
  }

  lemma RestoredFiles(ix: Index, s: Snapshot, k: TableKey)
    ensures Files(Restore(ix, s), k) == Merge(Files(ix, k), Listed(s.files, k))
  {
    RestoreFilesMerges(ix, s.files, k);
    assert Files(Restore(ix, s), k) == Files(RestoreFiles(ix, s.files), k);
  }

  lemma MergeAheadExact(log: seq<LogEntry>, ix: Index, loaded: Index, s: Snapshot)
    requires ExactPrefix(log, ix) && ExactPrefix(log, loaded) && IsSnapshotOf(s, loaded)
    requires ix.sequence <= loaded.sequence
    ensures SameView(Restore(ix, s), loaded) <==> forall k :: Files(ix, k) <= Files(loaded, k)
  {
    PrefixesAdvance(log, ix.sequence, loaded.sequence);
    RaisedToHigher(ix.watermarks, loaded.watermarks, s.watermarks);
    RaisedToHigher(ix.maxTimes, loaded.maxTimes, s.maxTimes);
    forall k ensures Files(Restore(ix, s), k) == Files(loaded, k) <==> Files(ix, k) <= Files(loaded, k) {
      RestoredFiles(ix, s, k);
      var whole := Replay(EMPTY, log[..loaded.sequence]);
      assert TableOk(Files(whole, k), k.node, whole.sequence, whole.maxTimes);
      MergeAheadIff(Files(ix, k), Files(loaded, k));
    }
  }

  lemma MergeBehindExact(log: seq<LogEntry>, ix: Index, loaded: Index, s: Snapshot)
    requires ExactPrefix(log, ix) && ExactPrefix(log, loaded) && IsSnapshotOf(s, loaded)
    requires loaded.sequence <= ix.sequence
    ensures SameView(Restore(ix, s), ix) <==> forall k, p :: HasPath(Files(loaded, k), p) ==> HasPath(Files(ix, k), p)
  {
    PrefixesAdvance(log, loaded.sequence, ix.sequence);
    RaisedByLower(ix.watermarks, loaded.watermarks, s.watermarks);
    RaisedByLower(ix.maxTimes, loaded.maxTimes, s.maxTimes);
    forall k ensures Files(Restore(ix, s), k) == Files(ix, k) <==>
      forall p :: HasPath(Files(loaded, k), p) ==> HasPath(Files(ix, k), p)
    {
      RestoredFiles(ix, s, k);
      MergeBehindIff(Files(ix, k), Files(loaded, k));
    }
  }

  /** A merge ends at the exact index of the further of the two positions exactly if the two are mergeable. */
  lemma MergeExactIff(log: seq<LogEntry>, ix: Index, loaded: Index, s: Snapshot)
    requires ExactPrefix(log, ix) && ExactPrefix(log, loaded) && IsSnapshotOf(s, loaded)
    ensures ExactPrefix(log, Restore(ix, s)) <==> Mergeable(ix, loaded)
    ensures Restore(ix, s).sequence == if ix.sequence < loaded.sequence then loaded.sequence else ix.sequence
  {
    if ix.sequence <= loaded.sequence {
      MergeAheadExact(log, ix, loaded, s);
    } else {
      MergeBehindExact(log, ix, loaded, s);
    }
  }

  // ---- In terms of the log ----

  /** Some delta of the history removes the path from the table. */
  ghost predicate RemovedIn(h: seq<Event>, k: TableKey, p: Path) {
    exists i :: 0 <= i < |h| && RemovesPath(h[i], k, p)
  }

  lemma {:induction false} RetainConcat(a: seq<IndexedFile>, b: seq<IndexedFile>, removed: seq<Path>)
    ensures Retain(a + b, removed) == Retain(a, removed) + Retain(b, removed)
  {
    if a == [] {
      assert a + b == b;
    } else {
      assert (a + b)[0] == a[0] && (a + b)[1..] == a[1..] + b;
      RetainConcat(a[1..], b, removed);
    }
  }

  lemma {:induction false} RetainUntouched(a: seq<IndexedFile>, removed: seq<Path>)
    requires forall i :: 0 <= i < |a| ==> a[i].file.path !in removed
    ensures Retain(a, removed) == a
  {
    if a != [] {
      RetainUntouched(a[1..], removed);
    }
  }

  lemma {:induction false} AddAllStarts(files: seq<IndexedFile>, added: seq<ParquetFile>, at: nat)
    ensures files <= AddAll(files, added, at)
    decreases |added|
  {
    if added != [] { AddAllStarts(PushNew(files, IndexedFile(added[0], at)), added[1..], at); }
  }

  /** A delta that removes none of the files a table starts with leaves it starting with them. */
  lemma StepKeepsStart(start: seq<IndexedFile>, files: seq<IndexedFile>, e: Event, k: TableKey)
    requires start <= files && forall i :: 0 <= i < |start| ==> !RemovesPath(e, k, start[i].file.path)
    ensures start <= Step(files, e, k)
  {
    if e.delta.key == k {
      var rest := files[|start|..];
      assert files == start + rest;
      RetainConcat(start, rest, e.delta.removed);
      RetainUntouched(start, e.delta.removed);
      AddAllStarts(Retain(files, e.delta.removed), e.delta.added, e.at);
    }
  }

  /** A record a delta removes is not in the table after it: what the delta adds is dated later. */
  lemma StepDrops(files: seq<IndexedFile>, e: Event, k: TableKey, x: IndexedFile)
    requires x.addedAt < e.at && (x !in files || RemovesPath(e, k, x.file.path))
    ensures x !in Step(files, e, k)
  {
    if e.delta.key == k {
      RetainKeeps(files, e.delta.removed);
      AddAllReads(Retain(files, e.delta.removed), e.delta.added, e.at, x);
    }
  }

  /** Whatever a fold does, the table starts with what it held exactly if none of that was removed. */
  lemma {:induction false} FoldStartsIff(start: seq<IndexedFile>, h: seq<Event>, k: TableKey)
    requires forall i, j :: 0 <= i < |start| && 0 <= j < |h| ==> start[i].addedAt < h[j].at
    ensures start <= Fold(start, h, k) <==> forall i :: 0 <= i < |start| ==> !RemovedIn(h, k, start[i].file.path)
    ensures forall i :: 0 <= i < |start| && RemovedIn(h, k, start[i].file.path) ==> start[i] !in Fold(start, h, k)
    decreases |h|
  {
    if h != [] {
      var n := |h| - 1;
      var init, e := h[..n], h[n];
      FoldStartsIff(start, init, k);
      forall i | 0 <= i < |start|
        ensures RemovedIn(h, k, start[i].file.path) <==>
          RemovedIn(init, k, start[i].file.path) || RemovesPath(e, k, start[i].file.path)
      {
        RemovedSnoc(h, k, start[i].file.path);
      }
      forall i | 0 <= i < |start| && RemovedIn(h, k, start[i].file.path) ensures start[i] !in Fold(start, h, k) {
        StepDrops(Fold(start, init, k), e, k, start[i]);
      }
      if forall i :: 0 <= i < |start| ==> !RemovedIn(h, k, start[i].file.path) {
        StepKeepsStart(start, Fold(start, init, k), e, k);
      }
    }
  }

  lemma RemovedSnoc(h: seq<Event>, k: TableKey, p: Path)
    requires h != []
    ensures RemovedIn(h, k, p) <==> RemovedIn(h[..|h| - 1], k, p) || RemovesPath(h[|h| - 1], k, p)
  {
    var init := h[..|h| - 1];
    if RemovedIn(init, k, p) {
      var i :| 0 <= i < |init| && RemovesPath(init[i], k, p);
      assert RemovesPath(h[i], k, p);
    }
    if RemovedIn(h, k, p) && !RemovesPath(h[|h| - 1], k, p) {
      var i :| 0 <= i < |h| && RemovesPath(h[i], k, p);
      assert RemovesPath(init[i], k, p);
    }
  }

  lemma {:induction false} HistoryConcat(a: seq<LogEntry>, b: seq<LogEntry>)
    ensures History(a + b) == History(a) + History(b)
    decreases |b|
  {
    if b == [] {
      assert a + b == a;
    } else {
      assert (a + b)[..|a + b| - 1] == a + b[..|b| - 1] && (a + b)[|a + b| - 1] == b[|b| - 1];
      HistoryConcat(a, b[..|b| - 1]);
    }
  }

  /** Every event of a stretch of the log is dated after the position it starts from. */
  lemma {:induction false} LaterEvents(entries: seq<LogEntry>, p: nat)
    requires forall i :: 0 <= i < |entries| ==> entries[i].sequence > p
    ensures forall j :: 0 <= j < |History(entries)| ==> History(entries)[j].at > p
  {
    if entries != [] {
      LaterEvents(entries[..|entries| - 1], p);
    }
  }

  /** The table at a later position is the fold of the entries between over the earlier one. */
  lemma LaterFold(log: seq<LogEntry>, p: nat, s: nat, k: TableKey)
    requires Dense(log) && p <= s <= |log|
    ensures Files(Replay(EMPTY, log[..s]), k) == Fold(Files(Replay(EMPTY, log[..p]), k), History(log[p..s]), k)
  {
    assert Increasing(log[..p]) && Increasing(log[..s]) && log[..s] == log[..p] + log[p..s];
    ReplayFolds(log[..p], k);
    ReplayFolds(log[..s], k);
    HistoryConcat(log[..p], log[p..s]);
    FoldConcat([], History(log[..p]), History(log[p..s]), k);
  }

  /**
   Read off the log: a table at an earlier position starts the table at a later one exactly if no
   entry between removes a file it holds.
   */
  lemma StartsIffNotRemoved(log: seq<LogEntry>, p: nat, s: nat, k: TableKey)
    requires Dense(log) && p <= s <= |log|
    ensures var held := Files(Replay(EMPTY, log[..p]), k);
      held <= Files(Replay(EMPTY, log[..s]), k) <==>
      forall i :: 0 <= i < |held| ==> !RemovedIn(History(log[p..s]), k, held[i].file.path)
  {
    var before := Replay(EMPTY, log[..p]);
    var held, h := Files(before, k), History(log[p..s]);
    DenseReplay(log, p);
    assert TableOk(held, k.node, p, before.maxTimes);
    LaterEvents(log[p..s], p);
    LaterFold(log, p, s, k);
    FoldStartsIff(held, h, k);
  }
}
