/**
 The incremental index against a declarative reading of the log: which paths are live in a table,
 and which record and log position each of them carries, said without mentioning the index.
 */
module IndexReading {
  import opened ParquetFiles
  import opened IndexModel
  import opened IndexReplay

  /** One delta with the log position of the entry that carries it. */
  datatype Event = Event(delta: Delta, at: nat)

  function Events(ds: seq<Delta>, at: nat): seq<Event> {
    seq(|ds|, i requires 0 <= i < |ds| => Event(ds[i], at))
  }

  /** Every delta of the log, in log order. */
  function History(log: seq<LogEntry>): seq<Event> {
    if log == [] then []
    else History(log[..|log| - 1]) + Events(log[|log| - 1].deltas, log[|log| - 1].sequence)
  }

  ghost predicate Increasing(log: seq<LogEntry>) {
    && (forall i :: 0 <= i < |log| ==> log[i].sequence > 0)
    && (forall i, j :: 0 <= i < j < |log| ==> log[i].sequence < log[j].sequence)
  }

  // ---- The declarative reading ----

  ghost predicate AddsPath(e: Event, k: TableKey, p: Path) {
    e.delta.key == k && exists j :: 0 <= j < |e.delta.added| && e.delta.added[j].path == p
  }

  ghost predicate RemovesPath(e: Event, k: TableKey, p: Path) {
    e.delta.key == k && p in e.delta.removed
  }

  /** Event `i` adds the path and no later event removes it; its own removals come first. */
  ghost predicate LiveSince(h: seq<Event>, k: TableKey, p: Path, i: nat)
    requires i < |h|
  {
    AddsPath(h[i], k, p) && forall j :: i < j < |h| ==> !RemovesPath(h[j], k, p)
  }

  ghost predicate Live(h: seq<Event>, k: TableKey, p: Path) {
    exists i :: 0 <= i < |h| && LiveSince(h, k, p, i)
  }

  /** `f` is the first file of its path among `added`. */
  ghost predicate FirstOfPath(added: seq<ParquetFile>, f: ParquetFile) {
    exists j :: 0 <= j < |added| && added[j] == f &&
      forall i :: 0 <= i < j ==> added[i].path != f.path
  }

  /** Every add of the path before event `i` was followed by a removal no later than `i`. */
  ghost predicate EarliestSinceRemoval(h: seq<Event>, k: TableKey, p: Path, i: nat)
    requires i < |h|
  {
    forall a :: 0 <= a < i && AddsPath(h[a], k, p) ==> exists r :: a < r <= i && RemovesPath(h[r], k, p)
  }

  ghost predicate RecordedAt(h: seq<Event>, k: TableKey, x: IndexedFile, i: nat)
    requires i < |h|
  {
    && h[i].delta.key == k
    && h[i].at == x.addedAt
    && FirstOfPath(h[i].delta.added, x.file)
    && LiveSince(h, k, x.file.path, i)
    && EarliestSinceRemoval(h, k, x.file.path, i)
  }

  /** The history says `x` is the record of its path in table `k`. */
  ghost predicate Recorded(h: seq<Event>, k: TableKey, x: IndexedFile) {
    exists i :: 0 <= i < |h| && RecordedAt(h, k, x, i)
  }

  // ---- The index as a fold over the history ----

  function Step(files: seq<IndexedFile>, e: Event, k: TableKey): seq<IndexedFile> {
    if e.delta.key == k then AddAll(Retain(files, e.delta.removed), e.delta.added, e.at) else files
  }

  function Fold(files: seq<IndexedFile>, h: seq<Event>, k: TableKey): seq<IndexedFile> {
    if h == [] then files else Step(Fold(files, h[..|h| - 1], k), h[|h| - 1], k)
  }

  lemma {:induction false} FoldConcat(files: seq<IndexedFile>, a: seq<Event>, b: seq<Event>, k: TableKey)
    ensures Fold(files, a + b, k) == Fold(Fold(files, a, k), b, k)
    decreases |b|
  {
    if b == [] {
      assert a + b == a;
    } else {
      assert (a + b)[..|a + b| - 1] == a + b[..|b| - 1];
      FoldConcat(files, a, b[..|b| - 1], k);
    }
  }

  lemma {:induction false} ApplyDeltasFolds(ix: Index, ds: seq<Delta>, at: nat, k: TableKey)
    ensures Files(ApplyDeltas(ix, ds, at), k) == Fold(Files(ix, k), Events(ds, at), k)
    decreases |ds|
  {
    if ds != [] {
      var next := ApplyDelta(ix, ds[0], at);
      ApplyDeltasFolds(next, ds[1..], at, k);
      assert Events(ds, at) == [Event(ds[0], at)] + Events(ds[1..], at);
      FoldConcat(Files(ix, k), [Event(ds[0], at)], Events(ds[1..], at), k);
      assert Fold(Files(ix, k), [Event(ds[0], at)], k) == Step(Fold(Files(ix, k), [], k), Event(ds[0], at), k) by {
        assert [Event(ds[0], at)][..0] == [];
      }
      assert Files(next, k) == Step(Files(ix, k), Event(ds[0], at), k);
    }
  }

  lemma {:induction false} ReplayFolds(log: seq<LogEntry>, k: TableKey)
    requires Increasing(log)
    ensures Files(Replay(EMPTY, log), k) == Fold([], History(log), k)
    ensures Replay(EMPTY, log).sequence == if log == [] then 0 else log[|log| - 1].sequence
  {
    if log != [] {
      var init, e := log[..|log| - 1], log[|log| - 1];
      var before := Replay(EMPTY, init);
      ReplaySnoc(log);
      hide Replay, ApplyDeltas, Fold, Events;
      ReplayFolds(init, k);
      assert e.sequence > before.sequence by {
        if init != [] { assert init[|init| - 1] == log[|log| - 2]; }
      }
      ApplyDeltasFolds(before, e.deltas, e.sequence, k);
      FoldConcat([], History(init), Events(e.deltas, e.sequence), k);
    }
  }

  lemma ReplaySnoc(log: seq<LogEntry>)
    requires log != []
    ensures Replay(EMPTY, log) == Apply(Replay(EMPTY, log[..|log| - 1]), log[|log| - 1])
  {
    var init, e := log[..|log| - 1], log[|log| - 1];
    assert log == init + [e];
    ReplayConcat(EMPTY, init, [e]);
    var before := Replay(EMPTY, init);
    assert Replay(before, [e]) == Replay(Apply(before, e), []);
  }

  // ---- One step of the fold ----

  lemma {:induction false} AddAllReads(files: seq<IndexedFile>, added: seq<ParquetFile>, at: nat, x: IndexedFile)
    ensures x in AddAll(files, added, at) <==>
      x in files || (x.addedAt == at && !HasPath(files, x.file.path) && FirstOfPath(added, x.file))
    decreases |added|
  {
    if added != [] {
      var f := IndexedFile(added[0], at);
      var next := PushNew(files, f);
      AddAllReads(next, added[1..], at, x);
      assert next == files || next == files + [f];
      if x.file.path == added[0].path {
        assert HasPath(next, x.file.path) by {
          if next == files + [f] { assert next[|files|] == f; }
        }
        assert FirstOfPath(added, x.file) <==> x.file == added[0];
      } else {
        assert HasPath(next, x.file.path) <==> HasPath(files, x.file.path) by {
          if HasPath(files, x.file.path) {
            var i :| 0 <= i < |files| && files[i].file.path == x.file.path;
            assert next[i] == files[i];
          }
        }
        FirstOfTail(added, x.file);
      }
    }
  }

  lemma FirstOfTail(added: seq<ParquetFile>, f: ParquetFile)
    requires added != [] && added[0].path != f.path
    ensures FirstOfPath(added, f) <==> FirstOfPath(added[1..], f)
  {
  }

  lemma {:induction false} AddAllHasPath(files: seq<IndexedFile>, added: seq<ParquetFile>, at: nat, p: Path)
    ensures HasPath(AddAll(files, added, at), p) <==>
      HasPath(files, p) || exists j :: 0 <= j < |added| && added[j].path == p
    decreases |added|
  {
    if added != [] {
      var f := IndexedFile(added[0], at);
      var next := PushNew(files, f);
      AddAllHasPath(next, added[1..], at, p);
      assert HasPath(next, p) <==> HasPath(files, p) || added[0].path == p by {
        if HasPath(files, p) {
          var i :| 0 <= i < |files| && files[i].file.path == p;
          assert next[i] == files[i];
        } else if added[0].path == p {
          assert next == files + [f] && next[|files|] == f;
        }
      }
      assert (exists j :: 0 <= j < |added| && added[j].path == p) <==>
        added[0].path == p || exists j :: 0 <= j < |added[1..]| && added[1..][j].path == p by {
        if j :| 0 <= j < |added[1..]| && added[1..][j].path == p { assert added[j + 1].path == p; }
        if j :| 0 < j < |added| && added[j].path == p { assert added[1..][j - 1].path == p; }
      }
    }
  }

  lemma RetainHasPath(files: seq<IndexedFile>, removed: seq<Path>, p: Path)
    ensures HasPath(Retain(files, removed), p) <==> HasPath(files, p) && p !in removed
  {
    RetainKeeps(files, removed);
    var kept := Retain(files, removed);
    if HasPath(files, p) && p !in removed {
      var i :| 0 <= i < |files| && files[i].file.path == p;
      assert files[i] in kept;
      var j :| 0 <= j < |kept| && kept[j] == files[i];
    }
    if HasPath(kept, p) {
      var i :| 0 <= i < |kept| && kept[i].file.path == p;
      assert kept[i] in kept;
      var j :| 0 <= j < |files| && files[j] == kept[i];
    }
  }

  // ---- Main results ----

  /** A path is live in the fold exactly when the history says so. */
  lemma {:induction false} FoldLive(h: seq<Event>, k: TableKey, p: Path)
    ensures HasPath(Fold([], h, k), p) <==> Live(h, k, p)
  {
    if h != [] {
      var n := |h| - 1;
      var init, e := h[..n], h[n];
      FoldLive(init, k, p);
      StepHasPath(Fold([], init, k), e, k, p);
      LiveStep(h, k, p);
    }
  }

  lemma StepHasPath(files: seq<IndexedFile>, e: Event, k: TableKey, p: Path)
    ensures HasPath(Step(files, e, k), p) <==> AddsPath(e, k, p) || (HasPath(files, p) && !RemovesPath(e, k, p))
  {
    RetainHasPath(files, e.delta.removed, p);
    AddAllHasPath(Retain(files, e.delta.removed), e.delta.added, e.at, p);
  }

  lemma LiveStep(h: seq<Event>, k: TableKey, p: Path)
    requires h != []
    ensures var init, e := h[..|h| - 1], h[|h| - 1];
      Live(h, k, p) <==> AddsPath(e, k, p) || (Live(init, k, p) && !RemovesPath(e, k, p))
  {
    hide AddsPath, RemovesPath;
    var n := |h| - 1;
    var init, e := h[..n], h[n];
    if AddsPath(e, k, p) {
      assert LiveSince(h, k, p, n);
    } else {
      if Live(init, k, p) && !RemovesPath(e, k, p) {
        var i :| 0 <= i < |init| && LiveSince(init, k, p, i);
        assert LiveSince(h, k, p, i);
      }
      if Live(h, k, p) {
        var i :| 0 <= i < |h| && LiveSince(h, k, p, i);
        assert i < n && LiveSince(init, k, p, i);
      }
    }
  }

  lemma RecordedExtends(h: seq<Event>, k: TableKey, x: IndexedFile, i: nat)
    requires i + 1 < |h|
    ensures RecordedAt(h, k, x, i) <==>
      RecordedAt(h[..|h| - 1], k, x, i) && !RemovesPath(h[|h| - 1], k, x.file.path)
  {
  }

  /** The newest event records `x` exactly when it adds it first and the path was not live. */
  lemma RecordedNow(h: seq<Event>, k: TableKey, x: IndexedFile)
    requires h != []
    ensures var n := |h| - 1; RecordedAt(h, k, x, n) <==>
      && h[n].delta.key == k && h[n].at == x.addedAt && FirstOfPath(h[n].delta.added, x.file)
      && (!Live(h[..n], k, x.file.path) || RemovesPath(h[n], k, x.file.path))
  {
    var n, p := |h| - 1, x.file.path;
    var init := h[..n];
    if FirstOfPath(h[n].delta.added, x.file) && h[n].delta.key == k {
      assert AddsPath(h[n], k, p);
      assert LiveSince(h, k, p, n);
    }
    if EarliestSinceRemoval(h, k, p, n) && Live(init, k, p) {
      var a :| 0 <= a < |init| && LiveSince(init, k, p, a);
      assert AddsPath(h[a], k, p);
      var r :| a < r <= n && RemovesPath(h[r], k, p);
      assert RemovesPath(h[n], k, p);
    }
    if !Live(init, k, p) || RemovesPath(h[n], k, p) {
      forall a | 0 <= a < n && AddsPath(h[a], k, p)
        ensures exists r :: a < r <= n && RemovesPath(h[r], k, p)
      {
        if !RemovesPath(h[n], k, p) {
          assert !LiveSince(init, k, p, a) && AddsPath(init[a], k, p);
          var r :| a < r < |init| && RemovesPath(init[r], k, p);
          assert RemovesPath(h[r], k, p);
        }
      }
    }
  }

  /** The fold holds exactly the records the history names. */
  lemma {:induction false} FoldRecords(h: seq<Event>, k: TableKey, x: IndexedFile)
    ensures x in Fold([], h, k) <==> Recorded(h, k, x)
  {
    if h != [] {
      var n, p := |h| - 1, x.file.path;
      var init, e := h[..n], h[n];
      var files := Fold([], init, k);
      FoldRecords(init, k, x);
      FoldLive(init, k, p);
      RetainKeeps(files, e.delta.removed);
      RetainHasPath(files, e.delta.removed, p);
      AddAllReads(Retain(files, e.delta.removed), e.delta.added, e.at, x);
      RecordedNow(h, k, x);
      if Recorded(init, k, x) && !RemovesPath(e, k, p) {
        var i :| 0 <= i < |init| && RecordedAt(init, k, x, i);
        RecordedExtends(h, k, x, i);
      }
      if Recorded(h, k, x) {
        var i :| 0 <= i < |h| && RecordedAt(h, k, x, i);
        if i < n { RecordedExtends(h, k, x, i); }
      }
    }
  }

  /**
   The incremental index is the declarative reading of the log: a path is live in a table exactly
   when some delta adds it and no later one removes it, and the record and position it carries are
   those of the earliest add since its last removal.
   */
  lemma IndexReadsLog(log: seq<LogEntry>, k: TableKey, p: Path, x: IndexedFile)
    requires Increasing(log)
    ensures HasPath(Files(Replay(EMPTY, log), k), p) <==> Live(History(log), k, p)
    ensures x in Files(Replay(EMPTY, log), k) <==> Recorded(History(log), k, x)
  {
    ReplayFolds(log, k);
    FoldLive(History(log), k, p);
    FoldRecords(History(log), k, x);
  }
}
