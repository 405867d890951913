/**
 The cluster file index as a value: what one log entry, a replay of the log, a rollup snapshot and
 a restore do to it. The nested node / database / table maps are one map keyed by all three.
 */
module IndexModel {
  import opened Wrappers
  import opened ParquetFiles

  datatype TableKey = TableKey(node: string, db: nat, table: nat)

  datatype Delta = Delta(
    key: TableKey,
    snapshotSequence: nat,
    added: seq<ParquetFile>,
    removed: seq<Path>)

  datatype LogEntry = LogEntry(sequence: nat, deltas: seq<Delta>)

  datatype IndexedFile = IndexedFile(file: ParquetFile, addedAt: nat)

  datatype Index = Index(
    tables: map<TableKey, seq<IndexedFile>>,
    sequence: nat,
    watermarks: map<string, int>,
    maxTimes: map<string, int>)

  const EMPTY: Index := Index(map[], 0, map[], map[])

  function Files(ix: Index, k: TableKey): seq<IndexedFile> {
    if k in ix.tables then ix.tables[k] else []
  }

  predicate HasPath(files: seq<IndexedFile>, p: Path) {
    exists i :: 0 <= i < |files| && files[i].file.path == p
  }

  // ---- Applying one log entry ----

  function Retain(files: seq<IndexedFile>, removed: seq<Path>): seq<IndexedFile> {
    if files == [] then []
    else if files[0].file.path in removed then Retain(files[1..], removed)
    else [files[0]] + Retain(files[1..], removed)
  }

  /** Push a file unless its path is already there. */
  function PushNew(files: seq<IndexedFile>, f: IndexedFile): seq<IndexedFile> {
    if HasPath(files, f.file.path) then files else files + [f]
  }

  function AddAll(files: seq<IndexedFile>, added: seq<ParquetFile>, at: nat): seq<IndexedFile>
    decreases |added|
  {
    if added == [] then files
    else AddAll(PushNew(files, IndexedFile(added[0], at)), added[1..], at)
  }

  function Max(a: int, b: int): int { if a < b then b else a }

  /** The map entry raised to at least `v`; an absent entry becomes `v`. */
  function Raise(m: map<string, int>, n: string, v: int): map<string, int> {
    m[n := if n in m then Max(m[n], v) else v]
  }

  function HighestTime(added: seq<ParquetFile>): Option<int> {
    if added == [] then None
    else match HighestTime(added[1..])
      case None => Some(added[0].maxTime)
      case Some(t) => Some(Max(added[0].maxTime, t))
  }

  function ApplyDelta(ix: Index, d: Delta, at: nat): Index {
    Index(
      ix.tables[d.key := AddAll(Retain(Files(ix, d.key), d.removed), d.added, at)],
      ix.sequence,
      Raise(ix.watermarks, d.key.node, d.snapshotSequence),
      match HighestTime(d.added)
      case None => ix.maxTimes
      case Some(t) => Raise(ix.maxTimes, d.key.node, t))
  }

  function ApplyDeltas(ix: Index, ds: seq<Delta>, at: nat): Index
    decreases |ds|
  {
    if ds == [] then ix else ApplyDeltas(ApplyDelta(ix, ds[0], at), ds[1..], at)
  }

  function Apply(ix: Index, e: LogEntry): Index {
    if e.sequence <= ix.sequence then ix
    else ApplyDeltas(ix, e.deltas, e.sequence).(sequence := e.sequence)
  }

  function Replay(ix: Index, log: seq<LogEntry>): Index
    decreases |log|
  {
    if log == [] then ix else Replay(Apply(ix, log[0]), log[1..])
  }

  // ---- Rollup snapshots ----

  datatype SnapshotEntry = SnapshotEntry(key: TableKey, file: ParquetFile, addedAt: nat)

  datatype Snapshot = Snapshot(
    sequence: nat,
    files: seq<SnapshotEntry>,
    watermarks: seq<(string, int)>,
    maxTimes: seq<(string, int)>)

  function RestoreFiles(ix: Index, entries: seq<SnapshotEntry>): Index
    decreases |entries|
  {
    if entries == [] then ix
    else
      var e := entries[0];
      var table := PushNew(Files(ix, e.key), IndexedFile(e.file, e.addedAt));
      RestoreFiles(ix.(tables := ix.tables[e.key := table]), entries[1..])
  }

  function RaiseAll(m: map<string, int>, ts: seq<(string, int)>): map<string, int>
    decreases |ts|
  {
    if ts == [] then m else RaiseAll(Raise(m, ts[0].0, ts[0].1), ts[1..])
  }

  function Restore(ix: Index, s: Snapshot): Index {
    Index(
      RestoreFiles(ix, s.files).tables,
      if ix.sequence < s.sequence then s.sequence else ix.sequence,
      RaiseAll(ix.watermarks, s.watermarks),
      RaiseAll(ix.maxTimes, s.maxTimes))
  }

  /** Discards what the index held before restoring. */
  function ResetFrom(ix: Index, s: Snapshot): Index {
    Restore(EMPTY, s)
  }

  /** The files a snapshot lists for one table, in listing order. */
  function Listed(entries: seq<SnapshotEntry>, k: TableKey): seq<IndexedFile> {
    if entries == [] then []
    else if entries[0].key == k then
      [IndexedFile(entries[0].file, entries[0].addedAt)] + Listed(entries[1..], k)
    else Listed(entries[1..], k)
  }

  /** The pairs of `ps` enumerate the map `m`, in any order. */
  ghost predicate Enumerates(ps: seq<(string, int)>, m: map<string, int>) {
    && (forall i :: 0 <= i < |ps| ==> ps[i].0 in m && m[ps[i].0] == ps[i].1)
    && (forall n :: n in m ==> (n, m[n]) in ps)
  }

  /**
   `s` is a snapshot `to_snapshot` may produce for `ix`: the hash maps are walked in an arbitrary
   order, but every table's files are listed in the table's own order.
   */
  ghost predicate IsSnapshotOf(s: Snapshot, ix: Index) {
    && s.sequence == ix.sequence
    && (forall k :: Listed(s.files, k) == Files(ix, k))
    && Enumerates(s.watermarks, ix.watermarks)
    && Enumerates(s.maxTimes, ix.maxTimes)
  }

  /** Equal in everything a reader can ask for: files per table, both watermarks and position. */
  ghost predicate SameView(a: Index, b: Index) {
    && a.sequence == b.sequence
    && (forall k :: Files(a, k) == Files(b, k))
    && a.watermarks == b.watermarks
    && a.maxTimes == b.maxTimes
  }

  // ---- Well-formedness ----

  ghost predicate UniquePaths(files: seq<IndexedFile>) {
    forall i, j :: 0 <= i < j < |files| ==> files[i].file.path != files[j].file.path
  }

  ghost predicate TableOk(files: seq<IndexedFile>, node: string, sequence: nat, maxTimes: map<string, int>) {
    && UniquePaths(files)
    && (forall i :: 0 <= i < |files| ==>
          && files[i].addedAt <= sequence
          && node in maxTimes
          && files[i].file.maxTime <= maxTimes[node])
  }

  /**
   Paths are unique per table, no file is from beyond the index's position, and a node's time
   watermark bounds the newest row of every live file of that node.
   */
  ghost predicate WellFormed(ix: Index) {
    forall k :: TableOk(Files(ix, k), k.node, ix.sequence, ix.maxTimes)
  }

  ghost predicate Below(a: map<string, int>, b: map<string, int>) {
    forall n :: n in a ==> n in b && a[n] <= b[n]
  }

  /** Position and watermarks of `b` are at least those of `a`. */
  ghost predicate Advanced(a: Index, b: Index) {
    a.sequence <= b.sequence && Below(a.watermarks, b.watermarks) && Below(a.maxTimes, b.maxTimes)
  }
}
