/**
 The shared log behind the index. Any number of indexes are moved by any number of tasks: a node's
 poller and publisher share one index, and a load works on an index of its own that is merged in
 when it is done. Each action is one object store request or one look at or change of an index, and
 actions of different tasks interleave freely. The committed log is the sequence of appends that
 landed at its end.
 */
module SharedLog {
  import opened Wrappers
  import opened IndexModel
  import opened IndexReplay
  import opened FileIndexes
  import opened CommittedLog
  import opened IndexMerge

  /** How far a task is with a sync, an append or a rollup. */
  datatype Phase =
    | Idle
    | Aimed(after: nat)                                           // read the position to list from
    | Listed(entries: seq<LogEntry>)
    | Gapped(entries: seq<LogEntry>)                              // saw that entries are missing
    | Fetched(entries: seq<LogEntry>, snapshot: Snapshot)
    | Cleared(entries: seq<LogEntry>, snapshot: Snapshot)         // emptied the index to refill it
    | Applying(entries: seq<LogEntry>)
    | Chosen(entry: LogEntry)                                     // about to create its object
    | Created(entry: LogEntry)                                    // about to apply it
    | Captured(snapshot: Snapshot)
    | Pruning(upTo: nat)

  datatype Task = Task(on: nat, phase: Phase)

  /** An index and the furthest position it has been at. */
  datatype Replica = Replica(index: Index, reached: nat)

  datatype Cluster = Cluster(
    log: seq<LogEntry>,
    objects: map<nat, LogEntry>,
    snapshot: Option<Snapshot>,
    replicas: map<nat, Replica>,
    tasks: map<nat, Task>)

  const START := Cluster([], map[], None, map[], map[])

  function StoredAt(s: Option<Snapshot>): nat { if s.None? then 0 else s.value.sequence }

  predicate Gap(at: nat, entries: seq<LogEntry>) { entries != [] && entries[0].sequence > at + 1 }

  /** The index a load starts from. */
  function Loaded(snapshot: Option<Snapshot>): Index {
    if snapshot.None? then EMPTY else Restore(EMPTY, snapshot.value)
  }

  datatype Action =
    | Open(i: nat)                                    // a node's own index, empty
    | Load(i: nat)                                    // an index restored from the snapshot, aside
    | Merge(i: nat, into: nat, snapshot: Snapshot)
    | Spawn(t: nat, i: nat)
    | Stop(t: nat)                                    // done, or given up on an error
    // A sync.
    | Aim(t: nat)
    | List(t: nat)
    | Check(t: nat)
    | Fetch(t: nat)
    | Clear(t: nat)
    | Refill(t: nat)
    | ApplyNext(t: nat)
    // An append.
    | Choose(t: nat, deltas: seq<Delta>)
    | Create(t: nat)
    | ApplyOwn(t: nat)
    // A rollup.
    | Capture(t: nat, snapshot: Snapshot)
    | PutSnapshot(t: nat)
    | Prune(t: nat, doomed: set<nat>)

  predicate HasTask(c: Cluster, t: nat) { t in c.tasks && c.tasks[t].on in c.replicas }

  ghost predicate Enabled(c: Cluster, a: Action) {
    match a
    case Open(i) => i !in c.replicas
    case Load(i) => i !in c.replicas
    case Merge(i, into, s) => i in c.replicas && into in c.replicas && IsSnapshotOf(s, c.replicas[i].index)
    case Spawn(t, i) => t !in c.tasks && i in c.replicas
    case Stop(t) => HasTask(c, t) && !c.tasks[t].phase.Cleared?
    case Aim(t) => HasTask(c, t) && c.tasks[t].phase.Idle?
    case List(t) => HasTask(c, t) && c.tasks[t].phase.Aimed?
    case Check(t) => HasTask(c, t) && c.tasks[t].phase.Listed?
    case Fetch(t) => HasTask(c, t) && c.tasks[t].phase.Gapped?
    case Clear(t) => HasTask(c, t) && c.tasks[t].phase.Fetched?
    case Refill(t) => HasTask(c, t) && c.tasks[t].phase.Cleared?
    case ApplyNext(t) => HasTask(c, t) && c.tasks[t].phase.Applying? && c.tasks[t].phase.entries != []
    case Choose(t, deltas) => HasTask(c, t) && c.tasks[t].phase.Idle? && deltas != []
    case Create(t) => HasTask(c, t) && c.tasks[t].phase.Chosen?
    case ApplyOwn(t) => HasTask(c, t) && c.tasks[t].phase.Created?
    case Capture(t, s) => HasTask(c, t) && c.tasks[t].phase.Idle? && IsSnapshotOf(s, c.replicas[c.tasks[t].on].index)
    case PutSnapshot(t) => HasTask(c, t) && c.tasks[t].phase.Captured?
    case Prune(t, doomed) =>
      HasTask(c, t) && c.tasks[t].phase.Pruning? && forall q :: q in doomed ==> q <= c.tasks[t].phase.upTo
  }

  function Moved(r: Replica, index: Index): Replica {
    Replica(index, if index.sequence > r.reached then index.sequence else r.reached)
  }

  function WithPhase(c: Cluster, t: nat, phase: Phase): Cluster
    requires t in c.tasks
  {
    c.(tasks := c.tasks[t := c.tasks[t].(phase := phase)])
  }

  function WithIndex(c: Cluster, i: nat, index: Index): Cluster
    requires i in c.replicas
  {
    c.(replicas := c.replicas[i := Moved(c.replicas[i], index)])
  }

  /** A task changes its index and goes on. */
  function Move(c: Cluster, t: nat, index: Index, phase: Phase): Cluster
    requires HasTask(c, t)
  {
    WithPhase(WithIndex(c, c.tasks[t].on, index), t, phase)
  }

  function IndexOf(c: Cluster, t: nat): Index
    requires HasTask(c, t)
  {
    c.replicas[c.tasks[t].on].index
  }

  ghost function Do(c: Cluster, a: Action): Cluster
    requires Enabled(c, a)
  {
    match a
    case Open(i) => c.(replicas := c.replicas[i := Replica(EMPTY, 0)])
    case Load(i) => c.(replicas := c.replicas[i := Replica(Loaded(c.snapshot), Loaded(c.snapshot).sequence)])
    case Merge(_, into, s) => WithIndex(c, into, Restore(c.replicas[into].index, s))
    case Spawn(t, i) => c.(tasks := c.tasks[t := Task(i, Idle)])
    case Stop(t) => WithPhase(c, t, Idle)
    case Aim(t) => WithPhase(c, t, Aimed(IndexOf(c, t).sequence))
    case List(t) => WithPhase(c, t, Listed(Above(c.objects, c.tasks[t].phase.after, |c.log|)))
    case Check(t) =>
      var entries := c.tasks[t].phase.entries;
      WithPhase(c, t, if Gap(IndexOf(c, t).sequence, entries) then Gapped(entries) else Applying(entries))
    case Fetch(t) =>
      var entries := c.tasks[t].phase.entries;
      WithPhase(c, t, if c.snapshot.Some? then Fetched(entries, c.snapshot.value) else Applying(entries))
    case Clear(t) => Move(c, t, EMPTY, Cleared(c.tasks[t].phase.entries, c.tasks[t].phase.snapshot))
    case Refill(t) => Move(c, t, Restore(IndexOf(c, t), c.tasks[t].phase.snapshot), Applying(c.tasks[t].phase.entries))
    case ApplyNext(t) =>
      var entries := c.tasks[t].phase.entries;
      Move(c, t, Apply(IndexOf(c, t), entries[0]), Applying(entries[1..]))
    case Choose(t, deltas) => WithPhase(c, t, Chosen(LogEntry(IndexOf(c, t).sequence + 1, deltas)))
    case Create(t) =>
      var e := c.tasks[t].phase.entry;
      if e.sequence in c.objects then WithPhase(c, t, Idle)
      else
        WithPhase(c, t, Created(e)).(
          log := if e.sequence == |c.log| + 1 then c.log + [e] else c.log,
          objects := c.objects[e.sequence := e])
    case ApplyOwn(t) => Move(c, t, Apply(IndexOf(c, t), c.tasks[t].phase.entry), Idle)
    case Capture(t, s) => WithPhase(c, t, Captured(s))
    case PutSnapshot(t) =>
      var s := c.tasks[t].phase.snapshot;
      WithPhase(c, t, Pruning(s.sequence)).(snapshot := Some(s))
    case Prune(_, doomed) => c.(objects := c.objects - doomed)
  }

  // ---- What the protocol needs ----

  /** No task has emptied the index and not yet refilled it. */
  ghost predicate Settled(c: Cluster, i: nat) {
    forall t :: t in c.tasks && c.tasks[t].on == i ==> !c.tasks[t].phase.Cleared?
  }

  /**
   What each action must respect, each condition one a task could check before it acts:
   an append is made above the stored snapshot; a rollup replaces the snapshot only while everything
   it does not cover is still in the log; pruning stays below the stored snapshot and deletes oldest
   first; a reset is made only by a reader that is not ahead of the snapshot it fetched; nothing
   touches an index while it is being refilled; and indexes are merged only if mergeable.
   The code enforces none of these.
   */
  ghost predicate Careful(c: Cluster, a: Action)
    requires Enabled(c, a)
  {
    match a
    case Create(t) => c.tasks[t].phase.entry.sequence > StoredAt(c.snapshot)
    case PutSnapshot(t) => AllAbove(c.log, c.objects, c.tasks[t].phase.snapshot.sequence)
    case Prune(_, doomed) =>
      && (forall d :: d in doomed ==> d <= StoredAt(c.snapshot))
      && (forall q, d :: q in c.objects && d in doomed && q <= d ==> q in doomed)
    case Clear(t) => Settled(c, c.tasks[t].on) && IndexOf(c, t).sequence <= c.tasks[t].phase.snapshot.sequence
    case ApplyNext(t) => Settled(c, c.tasks[t].on)
    case ApplyOwn(t) => Settled(c, c.tasks[t].on)
    case Merge(i, into, _) => Settled(c, into) && Mergeable(c.replicas[into].index, c.replicas[i].index)
    case _ => true
  }

  // ---- Runs ----

  ghost predicate Run(c: Cluster, actions: seq<Action>)
    decreases |actions|
  {
    actions == [] || (Enabled(c, actions[0]) && Run(Do(c, actions[0]), actions[1..]))
  }

  ghost predicate CarefulRun(c: Cluster, actions: seq<Action>)
    decreases |actions|
  {
    actions == [] ||
    (Enabled(c, actions[0]) && Careful(c, actions[0]) && CarefulRun(Do(c, actions[0]), actions[1..]))
  }

  ghost function After(c: Cluster, actions: seq<Action>): Cluster
    requires Run(c, actions)
    decreases |actions|
  {
    if actions == [] then c else After(Do(c, actions[0]), actions[1..])
  }

  // ---- A sync no one disturbs ----

  /** What it does with its listing: recover from the snapshot if entries are missing, then apply. */
  function Synced(ix: Index, entries: seq<LogEntry>, snapshot: Option<Snapshot>): Index {
    if Gap(ix.sequence, entries) && snapshot.Some? then Replay(ResetFrom(ix, snapshot.value), entries)
    else Replay(ix, entries)
  }

  /** What a node starting now ends up with after its first sync. */
  function FreshLoad(c: Cluster): Index {
    var ix := Loaded(c.snapshot);
    Synced(ix, Above(c.objects, ix.sequence, |c.log|), c.snapshot)
  }

  /** The snapshot covers the log up to where the listing takes over. */
  ghost predicate Covers(snapshot: Option<Snapshot>, log: seq<LogEntry>, entries: seq<LogEntry>) {
    && snapshot.Some? && |entries| <= |log| && entries == log[|log| - |entries|..]
    && IsSnapshotOf(snapshot.value, Replay(EMPTY, log[..|log| - |entries|]))
  }

  /**
   Apply a listing to the index in place, recovering from the snapshot when entries are missing. A
   recovery is exact whatever the index held before.
   */
  method Sync(index: FileIndex, entries: seq<LogEntry>, snapshot: Option<Snapshot>) returns (count: nat)
    modifies index
    ensures index.View() == Synced(old(index.View()), entries, snapshot)
    ensures count == |entries|
    ensures snapshot.Some? && entries != [] && entries[0].sequence > old(index.sequence) + 1 ==>
      index.View() == Replay(Restore(EMPTY, snapshot.value), entries)
    ensures snapshot.None? || entries == [] || entries[0].sequence <= old(index.sequence) + 1 ==>
      index.View() == Replay(old(index.View()), entries)
    ensures Gap(old(index.sequence), entries) ==>
      forall log :: Covers(snapshot, log, entries) ==> SameView(index.View(), Replay(EMPTY, log))
  {
    var gap := |entries| > 0 && entries[0].sequence > index.sequence + 1;
    if gap && snapshot.Some? {
      index.Reset(snapshot.value);
    }
    ghost var base := index.View();
    for i := 0 to |entries|
      invariant Replay(index.View(), entries[i..]) == Replay(base, entries)
    {
      assert entries[i..][0] == entries[i] && entries[i..][1..] == entries[i + 1..];
      index.ApplyEntry(entries[i]);
    }
    count := |entries|;
    if gap {
      forall log | Covers(snapshot, log, entries) ensures SameView(index.View(), Replay(EMPTY, log)) {
        RollupExact(log, |log| - |entries|, snapshot.value);
      }
    }
  }
}
