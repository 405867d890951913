/**
 An entry applied to a shared index between the two halves of a reset: the index was emptied, takes
 the entry, and is then refilled from the snapshot. When that ends at an exact index, in terms of the
 entry and the snapshot.
 */
module InterruptedReset {
  import opened ParquetFiles
  import opened IndexModel
  import opened IndexReplay
  import opened IndexReading
  import opened CommittedLog
  import opened IndexMerge

  // ---- What a fold makes of the files it starts from ----

  function PathsIn(files: seq<IndexedFile>): seq<Path> {
    seq(|files|, i requires 0 <= i < |files| => files[i].file.path)
  }

  /** The files of a table that no event of the history removes. */
  function Survivors(files: seq<IndexedFile>, h: seq<Event>, k: TableKey): seq<IndexedFile> {
    if h == [] then files
    else
      var before, e := Survivors(files, h[..|h| - 1], k), h[|h| - 1];
      if e.delta.key == k then Retain(before, e.delta.removed) else before
  }

  lemma PathsInHas(files: seq<IndexedFile>, p: Path)
    ensures p in PathsIn(files) <==> HasPath(files, p)
  {
    if HasPath(files, p) {
      var i :| 0 <= i < |files| && files[i].file.path == p;
      assert PathsIn(files)[i] == p;
    }
  }

  lemma {:induction false} RetainSwaps(files: seq<IndexedFile>, a: seq<Path>, removed: seq<Path>, b: seq<Path>)
    requires forall p :: p !in removed ==> (p in a <==> p in b)
    ensures Retain(Retain(files, a), removed) == Retain(Retain(files, removed), b)
  {
    if files != [] { RetainSwaps(files[1..], a, removed, b); }
  }

  lemma RetainPaths(files: seq<IndexedFile>, removed: seq<Path>, p: Path)
    requires p !in removed
    ensures p in PathsIn(files) <==> p in PathsIn(Retain(files, removed))
  {
    RetainHasPath(files, removed, p);
    PathsInHas(files, p);
    PathsInHas(Retain(files, removed), p);
  }

  lemma {:induction false} RetainNothing(files: seq<IndexedFile>)
    ensures Retain(files, []) == files
  {
    if files != [] { RetainNothing(files[1..]); }
  }

  /** Adding beside files already there is adding to the rest, less what is already there. */
  lemma {:induction false} AddBeside(start: seq<IndexedFile>, rest: seq<IndexedFile>, added: seq<ParquetFile>, at: nat)
    ensures AddAll(start + Retain(rest, PathsIn(start)), added, at) ==
      start + Retain(AddAll(rest, added, at), PathsIn(start))
    decreases |added|
  {
    if added != [] {
      var f := IndexedFile(added[0], at);
      var all := start + Retain(rest, PathsIn(start));
      BesideHasPath(start, rest, f.file.path);
      PathsInHas(start, f.file.path);
      RetainConcat(rest, [f], PathsIn(start));
      assert PushNew(all, f) == start + Retain(PushNew(rest, f), PathsIn(start));
      AddBeside(start, PushNew(rest, f), added[1..], at);
    }
  }

  lemma BesideHasPath(start: seq<IndexedFile>, rest: seq<IndexedFile>, p: Path)
    ensures HasPath(start + Retain(rest, PathsIn(start)), p) <==> HasPath(start, p) || HasPath(rest, p)
  {
    var kept := Retain(rest, PathsIn(start));
    RetainHasPath(rest, PathsIn(start), p);
    PathsInHas(start, p);
    ConcatHasPath(start, kept, p);
  }

  lemma ConcatHasPath(a: seq<IndexedFile>, b: seq<IndexedFile>, p: Path)
    ensures HasPath(a + b, p) <==> HasPath(a, p) || HasPath(b, p)
  {
    if HasPath(a, p) {
      var i :| 0 <= i < |a| && a[i].file.path == p;
      assert (a + b)[i] == a[i];
    }
    if HasPath(b, p) {
      var i :| 0 <= i < |b| && b[i].file.path == p;
      assert (a + b)[|a| + i] == b[i];
    }
  }

  /** A fold over a table is its survivors followed by what the fold makes of nothing, less their paths. */
  lemma {:induction false} FoldBeside(files: seq<IndexedFile>, h: seq<Event>, k: TableKey)
    ensures var s := Survivors(files, h, k);
      Fold(files, h, k) == s + Retain(Fold([], h, k), PathsIn(s))
    decreases |h|
  {
    if h == [] {
      assert Retain([], PathsIn(files)) == [];
    } else {
      var init, e := h[..|h| - 1], h[|h| - 1];
      FoldBeside(files, init, k);
      if e.delta.key == k {
        StepBeside(Survivors(files, init, k), Fold([], init, k), e, k);
      }
    }
  }

  lemma StepBeside(start: seq<IndexedFile>, rest: seq<IndexedFile>, e: Event, k: TableKey)
    requires e.delta.key == k
    ensures var s := Retain(start, e.delta.removed);
      Step(start + Retain(rest, PathsIn(start)), e, k) == s + Retain(Step(rest, e, k), PathsIn(s))
  {
    var removed := e.delta.removed;
    var s := Retain(start, removed);
    RetainConcat(start, Retain(rest, PathsIn(start)), removed);
    forall p | p !in removed ensures p in PathsIn(start) <==> p in PathsIn(s) { RetainPaths(start, removed, p); }
    RetainSwaps(rest, PathsIn(start), removed, PathsIn(s));
    AddBeside(s, Retain(rest, removed), e.delta.added, e.at);
  }

  lemma {:induction false} SurvivorsRead(files: seq<IndexedFile>, h: seq<Event>, k: TableKey, x: IndexedFile)
    ensures x in Survivors(files, h, k) <==> x in files && !RemovedIn(h, k, x.file.path)
    decreases |h|
  {
    if h != [] {
      SurvivorsRead(files, h[..|h| - 1], k, x);
      RemovedSnoc(h, k, x.file.path);
      RetainKeeps(Survivors(files, h[..|h| - 1], k), h[|h| - 1].delta.removed);
    }
  }

  lemma {:induction false} AllSurvive(files: seq<IndexedFile>, h: seq<Event>, k: TableKey)
    requires forall x :: x in files ==> !RemovedIn(h, k, x.file.path)
    ensures Survivors(files, h, k) == files
    decreases |h|
  {
    if h != [] {
      forall x | x in files
        ensures !RemovedIn(h[..|h| - 1], k, x.file.path) && !RemovesPath(h[|h| - 1], k, x.file.path)
      {
        RemovedSnoc(h, k, x.file.path);
      }
      AllSurvive(files, h[..|h| - 1], k);
      if h[|h| - 1].delta.key == k { RetainUntouched(files, h[|h| - 1].delta.removed); }
    }
  }

  lemma {:induction false} FoldDated(h: seq<Event>, k: TableKey, at: nat)
    requires forall j :: 0 <= j < |h| ==> h[j].at == at
    ensures forall x :: x in Fold([], h, k) ==> x.addedAt == at
    decreases |h|
  {
    if h != [] {
      var before, e := Fold([], h[..|h| - 1], k), h[|h| - 1];
      FoldDated(h[..|h| - 1], k, at);
      RetainKeeps(before, e.delta.removed);
      AddAllKeeps(Retain(before, e.delta.removed), e.delta.added, e.at);
    }
  }

  // ---- One table, and the entry after the snapshot ----

  /**
   What an entry must have in common with a table of the snapshot it comes before: it leaves nothing
   in the table on its own and removes none of its files, or it removes and adds again every one.
   */
  ghost predicate Beside(files: seq<IndexedFile>, h: seq<Event>, k: TableKey) {
    || (Fold([], h, k) == [] && forall x :: x in files ==> !RemovedIn(h, k, x.file.path))
    || (forall x :: x in files ==> RemovedIn(h, k, x.file.path) && HasPath(Fold([], h, k), x.file.path))
  }

  lemma NoneSurviveIff(files: seq<IndexedFile>, h: seq<Event>, k: TableKey)
    requires Survivors(files, h, k) == []
    ensures Merge(Fold([], h, k), files) == Fold(files, h, k) <==>
      forall x :: x in files ==> HasPath(Fold([], h, k), x.file.path)
  {
    hide Fold, Retain;
    var own := Fold([], h, k);
    FoldBeside(files, h, k);
    RetainNothing(own);
    assert PathsIn(Survivors(files, h, k)) == [];
    MergeBehindIff(own, files);
    PathsOfFiles(files);
  }

  lemma SomeSurviveIff(files: seq<IndexedFile>, h: seq<Event>, k: TableKey, at: nat)
    requires Survivors(files, h, k) != [] && UniquePaths(files) && (forall x :: x in files ==> x.addedAt < at)
    requires forall j :: 0 <= j < |h| ==> h[j].at == at
    ensures Merge(Fold([], h, k), files) == Fold(files, h, k) <==>
      Fold([], h, k) == [] && Survivors(files, h, k) == files
  {
    hide Fold, Retain;
    var own, s := Fold([], h, k), Survivors(files, h, k);
    FoldBeside(files, h, k);
    if own == [] {
      assert [] + files == files;
      MergeOfDistinct([], files);
      RetainEmpty(PathsIn(s));
    } else {
      FoldDated(h, k, at);
      MergeStarts(own, files);
      SurvivorsRead(files, h, k, s[0]);
      assert own[0] in own && Merge(own, files)[0] == own[0] && Fold(files, h, k)[0] == s[0];
    }
  }

  lemma NextTableIff(files: seq<IndexedFile>, h: seq<Event>, k: TableKey, at: nat)
    requires UniquePaths(files) && (forall x :: x in files ==> x.addedAt < at)
    requires forall j :: 0 <= j < |h| ==> h[j].at == at
    ensures Merge(Fold([], h, k), files) == Fold(files, h, k) <==> Beside(files, h, k)
  {
    hide Fold, Retain, UniquePaths, Survivors, HasPath, RemovedIn;
    var s := Survivors(files, h, k);
    forall x ensures x in s <==> x in files && !RemovedIn(h, k, x.file.path) { SurvivorsRead(files, h, k, x); }
    if s == [] {
      NoneSurviveIff(files, h, k);
    } else {
      assert s[0] in s;
      SomeSurviveIff(files, h, k, at);
      if forall x :: x in files ==> !RemovedIn(h, k, x.file.path) { AllSurvive(files, h, k); }
    }
  }

  lemma RetainEmpty(removed: seq<Path>)
    ensures Retain([], removed) == []
  {
  }

  lemma PathsOfFiles(files: seq<IndexedFile>)
    ensures forall x :: x in files ==> HasPath(files, x.file.path)
    ensures forall p :: HasPath(files, p) ==> exists x :: x in files && x.file.path == p
  {
    forall p | HasPath(files, p) ensures exists x :: x in files && x.file.path == p {
      var i :| 0 <= i < |files| && files[i].file.path == p;
      assert files[i] in files;
    }
  }

  // ---- Watermarks ----

  /** Each entry of `m` is the higher of those of `a` and `b`. */
  ghost predicate Highest(m: map<string, int>, a: map<string, int>, b: map<string, int>) {
    && m.Keys == a.Keys + b.Keys
    && forall n :: n in m ==>
      m[n] == if n !in a then b[n] else if n !in b then a[n] else Max(a[n], b[n])
  }

  lemma RaiseHighest(m: map<string, int>, a: map<string, int>, b: map<string, int>, n: string, v: int)
    requires Highest(m, a, b)
    ensures Highest(Raise(m, n, v), a, Raise(b, n, v))
  {
  }

  /** Applying deltas raises the watermarks to what they would be on their own. */
  lemma {:induction false} DeltasRaise(ix: Index, own: Index, base: Index, ds: seq<Delta>, at: nat)
    requires Highest(ix.watermarks, base.watermarks, own.watermarks)
    requires Highest(ix.maxTimes, base.maxTimes, own.maxTimes)
    ensures Highest(ApplyDeltas(ix, ds, at).watermarks, base.watermarks, ApplyDeltas(own, ds, at).watermarks)
    ensures Highest(ApplyDeltas(ix, ds, at).maxTimes, base.maxTimes, ApplyDeltas(own, ds, at).maxTimes)
    decreases |ds|
  {
    if ds != [] {
      var d := ds[0];
      RaiseHighest(ix.watermarks, base.watermarks, own.watermarks, d.key.node, d.snapshotSequence);
      match HighestTime(d.added) {
        case None =>
        case Some(t) => RaiseHighest(ix.maxTimes, base.maxTimes, own.maxTimes, d.key.node, t);
      }
      hide Highest, Raise;
      DeltasRaise(ApplyDelta(ix, d, at), ApplyDelta(own, d, at), base, ds[1..], at);
    }
  }

  lemma RestoredHighest(own: map<string, int>, base: map<string, int>, ts: seq<(string, int)>)
    requires Enumerates(ts, base)
    ensures Highest(RaiseAll(own, ts), base, own)
  {
    var r := RaiseAll(own, ts);
    RaiseAllAdvances(own, ts);
    RaiseAllCovers(own, base, ts);
    forall n | n in r ensures n in base + own {
      if !(n in own && r[n] == own[n]) { var i :| 0 <= i < |ts| && ts[i] == (n, r[n]); }
    }
    forall n | n in r && n in own && r[n] != own[n] ensures n in base && r[n] == base[n] {
      var i :| 0 <= i < |ts| && ts[i] == (n, r[n]);
    }
    forall n | n in r && n !in own ensures n in base && r[n] == base[n] {
      var i :| 0 <= i < |ts| && ts[i] == (n, r[n]);
    }
  }

  lemma HighestUnique(m: map<string, int>, o: map<string, int>, a: map<string, int>, b: map<string, int>)
    requires Highest(m, a, b) && Highest(o, a, b)
    ensures m == o
  {
  }

  lemma HighestAbove(m: map<string, int>, a: map<string, int>, b: map<string, int>)
    requires Highest(m, a, b)
    ensures Below(b, m) && Below(a, m)
  {
  }

  lemma EmptyHighest(a: map<string, int>)
    ensures Highest(a, a, map[])
  {
  }

  // ---- The whole index ----

  /** The entry on its own. */
  function Alone(e: LogEntry): Index { Apply(EMPTY, e) }

  lemma EntryAt(log: seq<LogEntry>, e: LogEntry)
    requires Dense(log) && 1 <= e.sequence <= |log| && log[e.sequence - 1] == e
    ensures Replay(EMPTY, log[..e.sequence]) == Apply(Replay(EMPTY, log[..e.sequence - 1]), e)
    ensures Replay(EMPTY, log[..e.sequence - 1]).sequence == e.sequence - 1
  {
    ReplaySnoc(log[..e.sequence]);
    assert log[..e.sequence][..e.sequence - 1] == log[..e.sequence - 1];
    DenseReplay(log, e.sequence - 1);
  }

  lemma AloneHighest(base: Index, e: LogEntry)
    requires base.sequence < e.sequence
    ensures Highest(Apply(base, e).watermarks, base.watermarks, Alone(e).watermarks)
    ensures Highest(Apply(base, e).maxTimes, base.maxTimes, Alone(e).maxTimes)
  {
    EmptyHighest(base.watermarks);
    EmptyHighest(base.maxTimes);
    DeltasRaise(base, EMPTY, base, e.deltas, e.sequence);
  }

  lemma AloneFiles(base: Index, e: LogEntry, k: TableKey)
    requires base.sequence < e.sequence
    ensures Files(Apply(base, e), k) == Fold(Files(base, k), Events(e.deltas, e.sequence), k)
  {
    ApplyDeltasFolds(base, e.deltas, e.sequence, k);
    assert Files(Apply(base, e), k) == Files(ApplyDeltas(base, e.deltas, e.sequence), k);
  }

  lemma AloneBelow(log: seq<LogEntry>, e: LogEntry, to: nat)
    requires Dense(log) && 1 <= e.sequence <= to <= |log| && log[e.sequence - 1] == e
    ensures Below(Alone(e).watermarks, Replay(EMPTY, log[..to]).watermarks)
    ensures Below(Alone(e).maxTimes, Replay(EMPTY, log[..to]).maxTimes)
  {
    hide Replay, Apply, Highest;
    var base := Replay(EMPTY, log[..e.sequence - 1]);
    EntryAt(log, e);
    AloneHighest(base, e);
    HighestAbove(Apply(base, e).watermarks, base.watermarks, Alone(e).watermarks);
    HighestAbove(Apply(base, e).maxTimes, base.maxTimes, Alone(e).maxTimes);
    PrefixesAdvance(log, e.sequence, to);
  }

  lemma SnapshotTable(log: seq<LogEntry>, s: Snapshot, k: TableKey)
    requires Dense(log) && SnapshotOfPrefix(log, s)
    ensures var files := Files(Restore(EMPTY, s), k);
      && files == Files(Replay(EMPTY, log[..s.sequence]), k) && files == Listed(s.files, k)
      && UniquePaths(files) && forall x :: x in files ==> x.addedAt <= s.sequence
  {
    var whole := Replay(EMPTY, log[..s.sequence]);
    DenseReplay(log, s.sequence);
    RestoreExact(whole, s);
    assert TableOk(Files(whole, k), k.node, whole.sequence, whole.maxTimes);
  }

  /** An entry the snapshot covers does no harm exactly if every table starts with what it leaves there alone. */
  lemma EarlierEntryIff(log: seq<LogEntry>, e: LogEntry, s: Snapshot)
    requires Dense(log) && SnapshotOfPrefix(log, s) && 1 <= e.sequence <= s.sequence && log[e.sequence - 1] == e
    ensures ExactPrefix(log, Restore(Alone(e), s)) <==>
      forall k :: Files(Alone(e), k) <= Files(Restore(EMPTY, s), k)
  {
    hide Replay, ApplyDeltas;
    var whole, own := Replay(EMPTY, log[..s.sequence]), Alone(e);
    AloneBelow(log, e, s.sequence);
    RaisedToHigher(own.watermarks, whole.watermarks, s.watermarks);
    RaisedToHigher(own.maxTimes, whole.maxTimes, s.maxTimes);
    DenseReplay(log, s.sequence);
    forall k ensures
      Files(Restore(own, s), k) == Files(whole, k) <==> Files(own, k) <= Files(Restore(EMPTY, s), k)
    {
      RestoredFiles(own, s, k);
      SnapshotTable(log, s, k);
      MergeAheadIff(Files(own, k), Files(whole, k));
    }
  }

  /** The entry after the snapshot does no harm exactly if it is beside every table of it. */
  lemma NextEntryIff(log: seq<LogEntry>, e: LogEntry, s: Snapshot)
    requires Dense(log) && SnapshotOfPrefix(log, s)
    requires e.sequence == s.sequence + 1 <= |log| && log[e.sequence - 1] == e
    ensures ExactPrefix(log, Restore(Alone(e), s)) <==>
      forall k :: Beside(Files(Restore(EMPTY, s), k), Events(e.deltas, e.sequence), k)
  {
    hide Replay, ApplyDeltas, Beside, Highest;
    var before, own := Replay(EMPTY, log[..s.sequence]), Alone(e);
    EntryAt(log, e);
    var after := Apply(before, e);
    AloneHighest(before, e);
    RestoredHighest(own.watermarks, before.watermarks, s.watermarks);
    RestoredHighest(own.maxTimes, before.maxTimes, s.maxTimes);
    HighestUnique(after.watermarks, Restore(own, s).watermarks, before.watermarks, own.watermarks);
    HighestUnique(after.maxTimes, Restore(own, s).maxTimes, before.maxTimes, own.maxTimes);
    forall k ensures Files(Restore(own, s), k) == Files(after, k) <==>
      Beside(Files(Restore(EMPTY, s), k), Events(e.deltas, e.sequence), k)
    {
      NextTable(log, e, s, k);
    }
  }

  lemma NextTable(log: seq<LogEntry>, e: LogEntry, s: Snapshot, k: TableKey)
    requires Dense(log) && SnapshotOfPrefix(log, s)
    requires e.sequence == s.sequence + 1 <= |log| && log[e.sequence - 1] == e
    ensures Files(Restore(Alone(e), s), k) == Files(Apply(Replay(EMPTY, log[..s.sequence]), e), k) <==>
      Beside(Files(Restore(EMPTY, s), k), Events(e.deltas, e.sequence), k)
  {
    hide Replay, ApplyDeltas, Beside;
    EntryAt(log, e);
    RestoredFiles(Alone(e), s, k);
    SnapshotTable(log, s, k);
    AloneFiles(EMPTY, e, k);
    AloneFiles(Replay(EMPTY, log[..s.sequence]), e, k);
    NextTableIff(Files(Restore(EMPTY, s), k), Events(e.deltas, e.sequence), k, e.sequence);
  }

  /** When an entry applied to the emptied index does no harm to the reset. */
  ghost predicate Undisturbed(e: LogEntry, s: Snapshot) {
    if e.sequence <= s.sequence then forall k :: Files(Alone(e), k) <= Files(Restore(EMPTY, s), k)
    else forall k :: Beside(Files(Restore(EMPTY, s), k), Events(e.deltas, e.sequence), k)
  }

  /**
   An entry no later than the one after the snapshot leaves the refilled index exact exactly if it is
   undisturbed; a later one takes it past entries it lacks.
   */
  lemma InterruptedExactIff(log: seq<LogEntry>, e: LogEntry, s: Snapshot)
    requires Dense(log) && SnapshotOfPrefix(log, s) && 1 <= e.sequence <= |log| && log[e.sequence - 1] == e
    ensures e.sequence <= s.sequence + 1 ==> (ExactPrefix(log, Restore(Alone(e), s)) <==> Undisturbed(e, s))
    ensures e.sequence > s.sequence + 1 ==>
      Restore(Alone(e), s).sequence == e.sequence && !TakesAll(log, s.sequence, [e])
  {
    if e.sequence <= s.sequence {
      EarlierEntryIff(log, e, s);
    } else if e.sequence == s.sequence + 1 {
      NextEntryIff(log, e, s);
    } else {
      SkipsOne(log, s, e);
    }
  }
}
