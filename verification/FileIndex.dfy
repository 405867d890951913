/** The file index a node keeps in memory and updates in place, proved against `IndexModel`. */
module FileIndexes {
  import opened ParquetFiles
  import opened IndexModel
  import opened IndexQuery

  class FileIndex {
    var tables: map<TableKey, seq<IndexedFile>>
    var sequence: nat
    var watermarks: map<string, int>
    var maxTimes: map<string, int>

    /** The index as a value. */
    ghost function View(): Index
      reads this
    {
      Index(tables, sequence, watermarks, maxTimes)
    }

    constructor ()
      ensures View() == EMPTY
    {
      tables, sequence, watermarks, maxTimes := map[], 0, map[], map[];
    }

    method ApplyEntry(e: LogEntry)
      modifies this
      ensures View() == Apply(old(View()), e)
      ensures e.sequence <= old(sequence) ==> View() == old(View())
      ensures e.sequence > old(sequence) ==> sequence == e.sequence
    {
      if e.sequence <= sequence {
        return;
      }
      for i := 0 to |e.deltas|
        invariant ApplyDeltas(View(), e.deltas[i..], e.sequence)
               == ApplyDeltas(old(View()), e.deltas, e.sequence)
      {
        var d := e.deltas[i];
        assert e.deltas[i..][0] == d && e.deltas[i..][1..] == e.deltas[i + 1..];
        ghost var before := View();
        var table := if d.key in tables then tables[d.key] else [];
        if d.removed != [] {
          table := Retain(table, d.removed);
        } else {
          RetainAll(table);
        }
        ghost var kept := table;
        for j := 0 to |d.added|
          invariant AddAll(table, d.added[j..], e.sequence) == AddAll(kept, d.added, e.sequence)
          invariant View() == before
        {
          assert d.added[j..][0] == d.added[j] && d.added[j..][1..] == d.added[j + 1..];
          if !HasPath(table, d.added[j].path) {
            table := table + [IndexedFile(d.added[j], e.sequence)];
          }
        }
        tables := tables[d.key := table];
        watermarks := Raise(watermarks, d.key.node, d.snapshotSequence);
        match HighestTime(d.added)
        case None =>
        case Some(t) => maxTimes := Raise(maxTimes, d.key.node, t);
        assert View() == ApplyDelta(before, d, e.sequence);
      }
      sequence := e.sequence;
    }

    method Restored(s: Snapshot)
      modifies this
      ensures View() == Restore(old(View()), s)
    {
      ghost var was := View();
      for i := 0 to |s.files|
        invariant RestoreFiles(View(), s.files[i..]) == RestoreFiles(was, s.files)
        invariant View() == was.(tables := tables)
      {
        var f := s.files[i];
        assert s.files[i..][0] == f && s.files[i..][1..] == s.files[i + 1..];
        var table := if f.key in tables then tables[f.key] else [];
        tables := tables[f.key := PushNew(table, IndexedFile(f.file, f.addedAt))];
      }
      for i := 0 to |s.watermarks|
        invariant RaiseAll(watermarks, s.watermarks[i..]) == RaiseAll(was.watermarks, s.watermarks)
        invariant View() == was.(tables := RestoreFiles(was, s.files).tables, watermarks := watermarks)
      {
        assert s.watermarks[i..][1..] == s.watermarks[i + 1..];
        watermarks := Raise(watermarks, s.watermarks[i].0, s.watermarks[i].1);
      }
      for i := 0 to |s.maxTimes|
        invariant RaiseAll(maxTimes, s.maxTimes[i..]) == RaiseAll(was.maxTimes, s.maxTimes)
        invariant View() == Restore(was, s).(maxTimes := maxTimes, sequence := was.sequence)
      {
        assert s.maxTimes[i..][1..] == s.maxTimes[i + 1..];
        maxTimes := Raise(maxTimes, s.maxTimes[i].0, s.maxTimes[i].1);
      }
      sequence := if sequence < s.sequence then s.sequence else sequence;
    }

    /** Discard everything held, then restore. */
    method Reset(s: Snapshot)
      modifies this
      ensures View() == ResetFrom(old(View()), s)
    {
      tables, sequence, watermarks, maxTimes := map[], 0, map[], map[];
      Restored(s);
    }

    /** Collapse the index into a rollup, walking the maps in an arbitrary order. */
    method ToSnapshot() returns (s: Snapshot)
      ensures IsSnapshotOf(s, View())
    {
      var files: seq<SnapshotEntry> := [];
      var rest := tables.Keys;
      while rest != {}
        invariant rest <= tables.Keys
        invariant forall k :: Listed(files, k) == if k in tables && k !in rest then tables[k] else []
      {
        var k :| k in rest;
        ghost var before := files;
        for i := 0 to |tables[k]|
          invariant files == before + Entries(k, tables[k][..i])
        {
          files := files + [SnapshotEntry(k, tables[k][i].file, tables[k][i].addedAt)];
        }
        assert tables[k][..|tables[k]|] == tables[k];
        forall l ensures Listed(files, l) == Listed(before, l) + if l == k then tables[k] else [] {
          ListedConcat(before, Entries(k, tables[k]), l);
          ListedEntries(k, tables[k], l);
        }
        rest := rest - {k};
      }
      var ws := Pairs(watermarks);
      var ts := Pairs(maxTimes);
      s := Snapshot(sequence, files, ws, ts);
    }

    /** Fold another index into this one. */
    method MergeFrom(other: FileIndex)
      modifies this
      ensures exists s :: IsSnapshotOf(s, old(other.View())) && View() == Restore(old(View()), s)
    {
      var s := other.ToSnapshot();
      Restored(s);
    }

    /** The files a query reads, oldest publication first. */
    method FilesFiltered(q: Query) returns (out: seq<ParquetFile>)
      ensures exists picked :: Answers(View(), q, picked) && out == PlainFiles(picked)
      ensures forall f :: f in out <==>
        && (q.filter.lower.Some? ==> q.filter.lower.value <= f.maxTime)
        && (q.filter.upper.Some? ==> f.minTime <= q.filter.upper.value)
        && exists x :: LiveIn(View(), q, x) && x.file == f
    {
      hide Answers, LiveIn;
      var picked := Picked(q);
      AnswerFiles(View(), q, picked);
      out := PlainFiles(picked);
    }

    /** The matching files of every table in scope, collected and sorted. */
    method Picked(q: Query) returns (sorted: seq<IndexedFile>)
      ensures Answers(View(), q, sorted)
    {
      var found: seq<IndexedFile> := [];
      var rest := tables.Keys;
      while rest != {}
        invariant rest <= tables.Keys
        invariant forall x :: x in found <==>
          q.Accepts(x) && exists k :: k !in rest && q.InScope(k) && x in Files(View(), k)
        invariant DistinctPaths(View(), q) ==> UniquePaths(found)
      {
        var k :| k in rest;
        if q.InScope(k) {
          ghost var before := found;
          for i := 0 to |tables[k]|
            invariant forall x :: x in found <==> x in before || (q.Accepts(x) && x in tables[k][..i])
            invariant DistinctPaths(View(), q) ==> UniquePaths(found)
          {
            var x := tables[k][i];
            assert tables[k][..i + 1] == tables[k][..i] + [x];
            if q.Accepts(x) {
              if DistinctPaths(View(), q) {
                NewPath(View(), q, k, i, found, before, rest);
              }
              found := found + [x];
            }
          }
          assert tables[k][..|tables[k]|] == tables[k];
        }
        rest := rest - {k};
      }
      sorted := Sort(found);
      SortOrders(found);
      assert forall x :: x in sorted <==> x in multiset(sorted);
      assert forall x :: x in found <==> x in multiset(found);
      if DistinctPaths(View(), q) {
        SortOfDistinct(found);
      }
    }
  }

  lemma AnswerFiles(ix: Index, q: Query, picked: seq<IndexedFile>)
    requires Answers(ix, q, picked)
    ensures forall f :: f in PlainFiles(picked) <==>
      && (q.filter.lower.Some? ==> q.filter.lower.value <= f.maxTime)
      && (q.filter.upper.Some? ==> f.minTime <= q.filter.upper.value)
      && exists x :: LiveIn(ix, q, x) && x.file == f
  {
    AnswerMeans(ix, q, picked);
    hide Answers, LiveIn;
    assert forall i :: 0 <= i < |picked| ==> PlainFiles(picked)[i] == picked[i].file && picked[i] in picked;
    forall x | x in picked ensures x.file in PlainFiles(picked) {
      var i :| 0 <= i < |picked| && picked[i] == x;
      assert PlainFiles(picked)[i] == x.file;
    }
  }

  lemma {:induction false} RetainAll(files: seq<IndexedFile>)
    ensures Retain(files, []) == files
  {
    if files != [] {
      RetainAll(files[1..]);
    }
  }

  /** One table's files as snapshot entries. */
  function Entries(k: TableKey, files: seq<IndexedFile>): seq<SnapshotEntry> {
    seq(|files|, i requires 0 <= i < |files| => SnapshotEntry(k, files[i].file, files[i].addedAt))
  }

  lemma {:induction false} ListedConcat(a: seq<SnapshotEntry>, b: seq<SnapshotEntry>, k: TableKey)
    ensures Listed(a + b, k) == Listed(a, k) + Listed(b, k)
  {
    if a == [] {
      assert a + b == b;
    } else {
      assert (a + b)[0] == a[0] && (a + b)[1..] == a[1..] + b;
      ListedConcat(a[1..], b, k);
    }
  }

  lemma {:induction false} ListedEntries(k: TableKey, files: seq<IndexedFile>, l: TableKey)
    ensures Listed(Entries(k, files), l) == if l == k then files else []
  {
    if files != [] {
      assert Entries(k, files)[1..] == Entries(k, files[1..]);
      ListedEntries(k, files[1..], l);
    }
  }

  method Pairs(m: map<string, int>) returns (ps: seq<(string, int)>)
    ensures Enumerates(ps, m)
  {
    ps := [];
    var rest := m.Keys;
    while rest != {}
      invariant rest <= m.Keys
      invariant forall i :: 0 <= i < |ps| ==> ps[i].0 in m && m[ps[i].0] == ps[i].1
      invariant forall n :: n in m && n !in rest ==> (n, m[n]) in ps
    {
      var n :| n in rest;
      ps := ps + [(n, m[n])];
      rest := rest - {n};
    }
  }

  /** With distinct paths, the next file of table `k` has a path not found so far. */
  lemma NewPath(ix: Index, q: Query, k: TableKey, i: nat, found: seq<IndexedFile>,
                before: seq<IndexedFile>, rest: set<TableKey>)
    requires DistinctPaths(ix, q) && q.InScope(k) && k in rest && i < |Files(ix, k)|
    requires forall x :: x in before ==> exists l :: l !in rest && q.InScope(l) && x in Files(ix, l)
    requires forall x :: x in found ==> x in before || x in Files(ix, k)[..i]
    ensures forall j :: 0 <= j < |found| ==> found[j].file.path != Files(ix, k)[i].file.path
  {
    forall j | 0 <= j < |found| ensures found[j].file.path != Files(ix, k)[i].file.path {
      var x := found[j];
      if x in before {
        var l :| l !in rest && q.InScope(l) && x in Files(ix, l);
        var m :| 0 <= m < |Files(ix, l)| && Files(ix, l)[m] == x;
        assert l != k;
      } else {
        var m :| 0 <= m < i && Files(ix, k)[m] == x;
      }
    }
  }
}
