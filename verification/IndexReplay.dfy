/**
 What replaying, rolling up and recovering the file index guarantee, over every log and every
 snapshot: rollups are exact, re-reads are harmless, and every reachable index is well formed.
 */
module IndexReplay {
  import opened ParquetFiles
  import opened IndexModel

  // ---- Replay depends only on the view ----

  lemma {:induction false} ApplyDeltasSameView(a: Index, b: Index, ds: seq<Delta>, at: nat)
    requires SameView(a, b)
    ensures SameView(ApplyDeltas(a, ds, at), ApplyDeltas(b, ds, at))
    decreases |ds|
  {
    if ds != [] {
      var d := ds[0];
      assert Files(a, d.key) == Files(b, d.key);
      forall k ensures Files(ApplyDelta(a, d, at), k) == Files(ApplyDelta(b, d, at), k) {
        assert Files(a, k) == Files(b, k);
      }
      ApplyDeltasSameView(ApplyDelta(a, d, at), ApplyDelta(b, d, at), ds[1..], at);
    }
  }

  lemma {:induction false} ReplaySameView(a: Index, b: Index, log: seq<LogEntry>)
    requires SameView(a, b)
    ensures SameView(Replay(a, log), Replay(b, log))
    decreases |log|
  {
    if log != [] {
      var e := log[0];
      if e.sequence > a.sequence {
        ApplyDeltasSameView(a, b, e.deltas, e.sequence);
        var x, y := ApplyDeltas(a, e.deltas, e.sequence), ApplyDeltas(b, e.deltas, e.sequence);
        forall k ensures Files(Apply(a, e), k) == Files(Apply(b, e), k) {
          assert Files(x, k) == Files(y, k);
        }
      }
      ReplaySameView(Apply(a, e), Apply(b, e), log[1..]);
    }
  }

  lemma {:induction false} ReplayConcat(ix: Index, p: seq<LogEntry>, q: seq<LogEntry>)
    ensures Replay(ix, p + q) == Replay(Replay(ix, p), q)
    decreases |p|
  {
    if p == [] {
      assert p + q == q;
    } else {
      assert (p + q)[0] == p[0] && (p + q)[1..] == p[1..] + q;
      ReplayConcat(Apply(ix, p[0]), p[1..], q);
    }
  }

  // ---- Well-formedness ----

  lemma {:induction false} RetainKeeps(files: seq<IndexedFile>, removed: seq<Path>)
    ensures forall f :: f in Retain(files, removed) <==> f in files && f.file.path !in removed
    ensures UniquePaths(files) ==> UniquePaths(Retain(files, removed))
  {
    if files != [] {
      RetainKeeps(files[1..], removed);
      assert forall f :: f in files <==> f == files[0] || f in files[1..];
      if UniquePaths(files) {
        var r := Retain(files[1..], removed);
        forall i | 0 <= i < |r| ensures r[i].file.path != files[0].file.path {
          assert r[i] in files[1..];
        }
      }
    }
  }

  lemma {:induction false} AddAllKeeps(files: seq<IndexedFile>, added: seq<ParquetFile>, at: nat)
    ensures UniquePaths(files) ==> UniquePaths(AddAll(files, added, at))
    ensures forall f :: f in AddAll(files, added, at) ==>
      f in files || (f.addedAt == at && f.file in added)
    decreases |added|
  {
    if added != [] {
      AddAllKeeps(PushNew(files, IndexedFile(added[0], at)), added[1..], at);
    }
  }

  lemma {:induction false} HighestTimeBounds(added: seq<ParquetFile>)
    ensures HighestTime(added).None? <==> added == []
    ensures forall f :: f in added ==> f.maxTime <= HighestTime(added).value
  {
    if added != [] {
      HighestTimeBounds(added[1..]);
    }
  }

  lemma ApplyDeltaWellFormed(ix: Index, d: Delta, at: nat)
    requires WellFormed(ix.(sequence := at))
    ensures WellFormed(ApplyDelta(ix, d, at).(sequence := at))
    ensures Advanced(ix, ApplyDelta(ix, d, at))
  {
    var was := ix.(sequence := at);
    var now := ApplyDelta(ix, d, at).(sequence := at);
    HighestTimeBounds(d.added);
    forall k ensures TableOk(Files(now, k), k.node, at, now.maxTimes) {
      var before := Files(ix, k);
      assert before == Files(was, k);
      assert TableOk(Files(was, k), k.node, at, was.maxTimes);
      if k == d.key {
        var kept := Retain(before, d.removed);
        RetainKeeps(before, d.removed);
        AddAllKeeps(kept, d.added, at);
        var files := Files(now, k);
        forall i | 0 <= i < |files|
          ensures files[i].addedAt <= at && k.node in now.maxTimes
          ensures files[i].file.maxTime <= now.maxTimes[k.node]
        {
          assert files[i] in files;
        }
      }
    }
  }

  lemma {:induction false} ApplyDeltasWellFormed(ix: Index, ds: seq<Delta>, at: nat)
    requires WellFormed(ix.(sequence := at))
    ensures WellFormed(ApplyDeltas(ix, ds, at).(sequence := at))
    ensures Advanced(ix, ApplyDeltas(ix, ds, at))
    ensures ApplyDeltas(ix, ds, at).sequence == ix.sequence
    decreases |ds|
  {
    if ds != [] {
      ApplyDeltaWellFormed(ix, ds[0], at);
      ApplyDeltasWellFormed(ApplyDelta(ix, ds[0], at), ds[1..], at);
    }
  }

  lemma TableOkLater(files: seq<IndexedFile>, node: string, sequence: nat, later: nat, maxTimes: map<string, int>)
    requires TableOk(files, node, sequence, maxTimes) && sequence <= later
    ensures TableOk(files, node, later, maxTimes)
  {
  }

  /** Every applied entry keeps the index well formed and only ever advances its watermarks. */
  lemma ApplyWellFormed(ix: Index, e: LogEntry)
    requires WellFormed(ix)
    ensures WellFormed(Apply(ix, e)) && Advanced(ix, Apply(ix, e))
    ensures Apply(ix, e).sequence == if e.sequence > ix.sequence then e.sequence else ix.sequence
  {
    if e.sequence > ix.sequence {
      var at := ix.(sequence := e.sequence);
      forall k ensures TableOk(Files(at, k), k.node, e.sequence, at.maxTimes) {
        assert TableOk(Files(ix, k), k.node, ix.sequence, ix.maxTimes);
        assert Files(at, k) == Files(ix, k);
        TableOkLater(Files(ix, k), k.node, ix.sequence, e.sequence, ix.maxTimes);
      }
      ApplyDeltasWellFormed(ix, e.deltas, e.sequence);
    }
  }

  lemma {:induction false} ReplayWellFormed(ix: Index, log: seq<LogEntry>)
    requires WellFormed(ix)
    ensures WellFormed(Replay(ix, log)) && Advanced(ix, Replay(ix, log))
    decreases |log|
  {
    if log != [] {
      ApplyWellFormed(ix, log[0]);
      ReplayWellFormed(Apply(ix, log[0]), log[1..]);
    }
  }

  // ---- Restoring a snapshot ----

  /** The files of a table followed by those listed files whose path is new. */
  function Merge(files: seq<IndexedFile>, listed: seq<IndexedFile>): seq<IndexedFile>
    decreases |listed|
  {
    if listed == [] then files else Merge(PushNew(files, listed[0]), listed[1..])
  }

  lemma {:induction false} MergeKeeps(files: seq<IndexedFile>, listed: seq<IndexedFile>)
    ensures UniquePaths(files) ==> UniquePaths(Merge(files, listed))
    ensures forall f :: f in Merge(files, listed) ==> f in files || f in listed
    decreases |listed|
  {
    if listed != [] {
      MergeKeeps(PushNew(files, listed[0]), listed[1..]);
    }
  }

  lemma {:induction false} MergeOfDistinct(files: seq<IndexedFile>, listed: seq<IndexedFile>)
    requires UniquePaths(files + listed)
    ensures Merge(files, listed) == files + listed
    decreases |listed|
  {
    if listed == [] {
      assert files + listed == files;
    } else {
      var all := files + listed;
      assert all == files + [listed[0]] + listed[1..];
      forall i | 0 <= i < |files| ensures files[i].file.path != listed[0].file.path {
        assert all[i] == files[i] && all[|files|] == listed[0];
      }
      MergeOfDistinct(files + [listed[0]], listed[1..]);
    }
  }

  lemma {:induction false} RestoreFilesMerges(ix: Index, entries: seq<SnapshotEntry>, k: TableKey)
    ensures Files(RestoreFiles(ix, entries), k) == Merge(Files(ix, k), Listed(entries, k))
    decreases |entries|
  {
    if entries != [] {
      var e := entries[0];
      var next := ix.(tables := ix.tables[e.key := PushNew(Files(ix, e.key), IndexedFile(e.file, e.addedAt))]);
      RestoreFilesMerges(next, entries[1..], k);
      if e.key == k {
        assert Listed(entries, k) == [IndexedFile(e.file, e.addedAt)] + Listed(entries[1..], k);
        assert Listed(entries, k)[1..] == Listed(entries[1..], k);
      }
    }
  }

  lemma {:induction false} RaiseAllAdvances(m: map<string, int>, ts: seq<(string, int)>)
    ensures Below(m, RaiseAll(m, ts))
    ensures forall i :: 0 <= i < |ts| ==> ts[i].0 in RaiseAll(m, ts) && ts[i].1 <= RaiseAll(m, ts)[ts[i].0]
    ensures forall n :: n in RaiseAll(m, ts) ==>
      (n in m && RaiseAll(m, ts)[n] == m[n]) || exists i :: 0 <= i < |ts| && ts[i] == (n, RaiseAll(m, ts)[n])
    decreases |ts|
  {
    if ts != [] {
      var next := Raise(m, ts[0].0, ts[0].1);
      RaiseAllAdvances(next, ts[1..]);
      var r := RaiseAll(m, ts);
      forall n | n in r && !(n in m && r[n] == m[n])
        ensures exists i :: 0 <= i < |ts| && ts[i] == (n, r[n])
      {
        if n in next && r[n] == next[n] {
          assert ts[0] == (n, r[n]);
        } else {
          var i :| 0 <= i < |ts[1..]| && ts[1..][i] == (n, r[n]);
          assert ts[i + 1] == (n, r[n]);
        }
      }
      forall i | 0 <= i < |ts| ensures ts[i].0 in r && ts[i].1 <= r[ts[i].0] {
        if i > 0 { assert ts[i] == ts[1..][i - 1]; }
      }
    }
  }

  lemma RaiseAllEnumerated(m: map<string, int>, ts: seq<(string, int)>)
    requires Enumerates(ts, m)
    ensures RaiseAll(map[], ts) == m
  {
    var r := RaiseAll(map[], ts);
    RaiseAllAdvances(map[], ts);
    forall n | n in m ensures n in r {
      var i :| 0 <= i < |ts| && ts[i] == (n, m[n]);
    }
    forall n | n in r ensures n in m && r[n] == m[n] {
      var i :| 0 <= i < |ts| && ts[i] == (n, r[n]);
    }
  }

  /** Restoring a snapshot of a well-formed index into an empty one reproduces its view. */
  lemma RestoreExact(ix: Index, s: Snapshot)
    requires WellFormed(ix) && IsSnapshotOf(s, ix)
    ensures SameView(Restore(EMPTY, s), ix)
  {
    var r := Restore(EMPTY, s);
    forall k ensures Files(r, k) == Files(ix, k) {
      RestoreFilesMerges(EMPTY, s.files, k);
      assert TableOk(Files(ix, k), k.node, ix.sequence, ix.maxTimes);
      assert [] + Listed(s.files, k) == Files(ix, k);
      MergeOfDistinct([], Listed(s.files, k));
      assert Files(r, k) == Files(RestoreFiles(EMPTY, s.files), k);
    }
    RaiseAllEnumerated(ix.watermarks, s.watermarks);
    RaiseAllEnumerated(ix.maxTimes, s.maxTimes);
  }

  lemma RaiseAllCovers(m: map<string, int>, other: map<string, int>, ts: seq<(string, int)>)
    requires Enumerates(ts, other)
    ensures Below(m, RaiseAll(m, ts)) && Below(other, RaiseAll(m, ts))
  {
    RaiseAllAdvances(m, ts);
    forall n | n in other ensures n in RaiseAll(m, ts) && other[n] <= RaiseAll(m, ts)[n] {
      var i :| 0 <= i < |ts| && ts[i] == (n, other[n]);
    }
  }

  lemma MergeTableOk(a: seq<IndexedFile>, b: seq<IndexedFile>, node: string, sa: nat, sb: nat,
                     ta: map<string, int>, tb: map<string, int>, to: nat, t: map<string, int>)
    requires TableOk(a, node, sa, ta) && TableOk(b, node, sb, tb)
    requires sa <= to && sb <= to && Below(ta, t) && Below(tb, t)
    ensures TableOk(Merge(a, b), node, to, t)
  {
    MergeKeeps(a, b);
    var files := Merge(a, b);
    forall i | 0 <= i < |files|
      ensures files[i].addedAt <= to && node in t && files[i].file.maxTime <= t[node]
    {
      assert files[i] in files;
    }
  }

  /** Merging a snapshot of one well-formed index into another keeps the result well formed. */
  lemma RestoreWellFormed(ix: Index, other: Index, s: Snapshot)
    requires WellFormed(ix) && WellFormed(other) && IsSnapshotOf(s, other)
    ensures WellFormed(Restore(ix, s)) && Advanced(ix, Restore(ix, s)) && Advanced(other, Restore(ix, s))
  {
    var r := Restore(ix, s);
    RaiseAllCovers(ix.watermarks, other.watermarks, s.watermarks);
    RaiseAllCovers(ix.maxTimes, other.maxTimes, s.maxTimes);
    forall k ensures TableOk(Files(r, k), k.node, r.sequence, r.maxTimes) {
      RestoreFilesMerges(ix, s.files, k);
      assert Files(r, k) == Files(RestoreFiles(ix, s.files), k);
      MergeTableOk(Files(ix, k), Files(other, k), k.node, ix.sequence, other.sequence,
                   ix.maxTimes, other.maxTimes, r.sequence, r.maxTimes);
    }
  }

  // ---- Main results ----

  /**
   Rollup is exact. Wherever the log is cut, restoring any snapshot of the prefix and applying the
   rest gives the index a full replay gives, so the prefix may be discarded.
   */
  lemma RollupExact(log: seq<LogEntry>, cut: nat, s: Snapshot)
    requires cut <= |log| && IsSnapshotOf(s, Replay(EMPTY, log[..cut]))
    ensures SameView(Replay(Restore(EMPTY, s), log[cut..]), Replay(EMPTY, log))
  {
    assert log == log[..cut] + log[cut..];
    ReplayConcat(EMPTY, log[..cut], log[cut..]);
    ReplayWellFormed(EMPTY, log[..cut]);
    RestoreExact(Replay(EMPTY, log[..cut]), s);
    ReplaySameView(Restore(EMPTY, s), Replay(EMPTY, log[..cut]), log[cut..]);
  }

  /** Entries at or below the index's position change nothing. */
  lemma {:induction false} RereadNoOp(ix: Index, log: seq<LogEntry>)
    requires forall i :: 0 <= i < |log| ==> log[i].sequence <= ix.sequence
    ensures Replay(ix, log) == ix
    decreases |log|
  {
    if log != [] {
      assert Apply(ix, log[0]) == ix;
      RereadNoOp(ix, log[1..]);
    }
  }

  lemma {:induction false} ReplayReaches(ix: Index, log: seq<LogEntry>)
    ensures Replay(ix, log).sequence >= ix.sequence
    ensures forall i :: 0 <= i < |log| ==> log[i].sequence <= Replay(ix, log).sequence
    decreases |log|
  {
    if log != [] {
      ReplayReaches(Apply(ix, log[0]), log[1..]);
      forall i | 0 <= i < |log| ensures log[i].sequence <= Replay(ix, log).sequence {
        if i > 0 { assert log[i] == log[1..][i - 1]; }
      }
    }
  }

  /** Re-applying any stretch of a log that has been replayed leaves the index as it is. */
  lemma RereadStretch(ix: Index, log: seq<LogEntry>, lo: nat, hi: nat)
    requires lo <= hi <= |log|
    ensures Replay(Replay(ix, log), log[lo..hi]) == Replay(ix, log)
  {
    ReplayReaches(ix, log);
    RereadNoOp(Replay(ix, log), log[lo..hi]);
  }
}
