/**
 What each careful condition is for: exactly when an append, a new snapshot, a prune, a sync, a reset
 or a merge loses nothing, in every state careful runs reach.
 */
module SharedLogLimits {
  import opened ParquetFiles
  import opened IndexModel
  import opened IndexReplay
  import opened IndexReading
  import opened CommittedLog
  import opened IndexMerge
  import opened InterruptedReset
  import opened SharedLog
  import opened SharedLogRuns
  import opened SharedLogScenes

  // ---- Reading what the store holds ----

  /** A store of committed entries and a snapshot of some prefix of the log; entries may be missing. */
  ghost predicate Readable(c: Cluster) {
    && Dense(c.log) && FromLog(c.log, c.objects)
    && (c.snapshot.Some? ==> SnapshotOfPrefix(c.log, c.snapshot.value))
  }

  /** The position a sync from `at` applies its listing to. */
  function Base(c: Cluster, at: nat): nat {
    if Gap(at, Above(c.objects, at, |c.log|)) && c.snapshot.Some? then c.snapshot.value.sequence else at
  }

  /** Every committed entry is behind the position a sync from `at` starts over at, or is applied by it. */
  ghost predicate SyncComplete(c: Cluster, at: nat) {
    TakesAll(c.log, Base(c, at), Above(c.objects, at, |c.log|))
  }

  /** Every committed entry is in the stored snapshot, or is applied by a node that starts afresh. */
  ghost predicate FreshComplete(c: Cluster) {
    SyncComplete(c, StoredAt(c.snapshot))
  }

  lemma StartOver(c: Cluster, at: nat)
    requires FromLog(c.log, c.objects) && Dense(c.log) && Gap(at, Above(c.objects, at, |c.log|))
    ensures at + 1 !in c.objects && at + 1 < |c.log|
  {
    AboveMembers(c.objects, at, |c.log|);
    var listing := Above(c.objects, at, |c.log|);
    assert listing[0] in listing;
    var q :| at < q <= |c.log| && q in c.objects && listing[0] == c.objects[q];
  }

  lemma TakesAllIff(c: Cluster, base: nat, at: nat)
    requires Readable(c) && base <= |c.log| && (base < at ==> at + 1 <= |c.log| && at + 1 !in c.objects)
    ensures TakesAll(c.log, base, Above(c.objects, at, |c.log|)) <==> AllAbove(c.log, c.objects, base)
  {
    var listing := Above(c.objects, at, |c.log|);
    forall q | 1 <= q <= |c.log| ensures q in Taken(base, listing) <==> q in c.objects && at < q && base < q {
      TakenOfAbove(c.objects, base, at, |c.log|, q);
    }
  }

  /**
   A sync from an exact position applies every committed entry exactly if none is missing above the
   position it applies its listing to: the snapshot's if the entry after its own is gone and a later
   one is there, its own otherwise. It then ends at the exact index of the whole log.
   */
  lemma SyncCompleteIff(c: Cluster, ix: Index)
    requires Readable(c) && ExactPrefix(c.log, ix)
    ensures SyncComplete(c, ix.sequence) <==> AllAbove(c.log, c.objects, Base(c, ix.sequence))
    ensures SyncComplete(c, ix.sequence) ==>
      SameView(Synced(ix, Above(c.objects, ix.sequence, |c.log|), c.snapshot), Replay(EMPTY, c.log))
  {
    hide SnapshotOfPrefix, TakesAll, Replay, Above, Restore;
    var at, base := ix.sequence, Base(c, ix.sequence);
    PrefixInLog(c.log, ix);
    var gap := Gap(at, Above(c.objects, at, |c.log|)) && c.snapshot.Some?;
    if gap {
      StartOver(c, at);
      LoadedExact(c.log, c.snapshot.value);
    }
    var start := if gap then Restore(EMPTY, c.snapshot.value) else ix;
    PrefixInLog(c.log, start);
    TakesAllIff(c, base, at);
    if AllAbove(c.log, c.objects, base) {
      AboveExact(c.log, c.objects, start, at, |c.log|);
      assert c.log[..|c.log|] == c.log;
    }
  }

  /** A node that starts afresh applies every committed entry exactly if none is missing above the snapshot. */
  lemma FreshCompleteIff(c: Cluster)
    requires Readable(c)
    ensures FreshComplete(c) <==> AllAbove(c.log, c.objects, StoredAt(c.snapshot))
    ensures FreshComplete(c) ==> SameView(FreshLoad(c), Replay(EMPTY, c.log))
  {
    hide SyncComplete, SnapshotOfPrefix, Synced, AllAbove;
    if c.snapshot.Some? { LoadedExact(c.log, c.snapshot.value); } else { EmptyExact(c.log); }
    SyncCompleteIff(c, Loaded(c.snapshot));
    assert Base(c, StoredAt(c.snapshot)) == StoredAt(c.snapshot);
  }

  lemma ReadableStates(c: Cluster)
    requires Inv(c)
    ensures Readable(c)
  {
  }

  lemma IndexFacts(c: Cluster, i: nat)
    requires Inv(c) && i in c.replicas
    ensures ExactPrefix(c.log, c.replicas[i].index)
    ensures Settled(c, i) ==> c.replicas[i].index.sequence == c.replicas[i].reached
  {
    hide StoreOk, TaskOk, OneRefill;
    assert ReplicaOk(c, i);
  }

  /** In a reachable state, a sync no one disturbs is complete exactly if it is at the end or sees something. */
  lemma SyncReachesEndIff(c: Cluster, i: nat)
    requires Inv(c) && i in c.replicas
    ensures var at := c.replicas[i].index.sequence;
      SyncComplete(c, at) <==> at == |c.log| || exists q :: q in c.objects && q > at
  {
    var ix := c.replicas[i].index;
    assert ReplicaOk(c, i);
    SyncCompleteIff(c, ix);
    hide ExactPrefix, SyncComplete, SnapshotOfPrefix;
    var from := ListingIsStretch(c.log, c.objects, ix.sequence);
    if from < |c.log| {
      assert c.log[from..][0] == c.log[from];
    } else if ix.sequence < |c.log| {
      assert |c.log| !in c.objects;
    }
  }

  // ---- Appending ----

  /** Nodes starting afresh see the entry `e` as the next one after `before`. */
  ghost predicate Replayed(before: Index, e: LogEntry, now: Index) {
    now.sequence == before.sequence + 1 && SameView(now, Apply(before, e))
  }

  lemma CarefulAppendReplayed(c: Cluster, t: nat, e: LogEntry)
    requires Inv(c) && HasTask(c, t) && c.tasks[t].phase == Chosen(e)
    requires e.sequence > StoredAt(c.snapshot) && e.sequence !in c.objects
    ensures e.sequence == |c.log| + 1 && Replayed(FreshLoad(c), e, FreshLoad(Appended(c, t, e)))
  {
    hide Inv, StoreOk, FreshLoad;
    CreateInv(c, t, e);
    var d := Appended(c, t, e);
    StoreFacts(c);
    StoreFacts(d);
    FreshLoadExact(c);
    FreshLoadExact(d);
    DenseStore(c);
    DenseStore(d);
    LengthIsPosition(c.log);
    LengthIsPosition(d.log);
    ReplayConcat(EMPTY, c.log, [e]);
    ReplaySameView(FreshLoad(c), Replay(EMPTY, c.log), [e]);
    assert Replay(FreshLoad(c), [e]) == Apply(FreshLoad(c), e);
  }

  lemma DenseStore(c: Cluster)
    requires StoreOk(c)
    ensures Dense(c.log)
  {
  }

  lemma CarelessAppendLost(c: Cluster, t: nat, e: LogEntry)
    requires Inv(c) && HasTask(c, t) && c.tasks[t].phase == Chosen(e) && e.sequence <= StoredAt(c.snapshot)
    ensures FreshLoad(Do(c, Create(t))) == FreshLoad(c)
  {
    hide Inv, StoreOk, Loaded, Synced, ExactPrefix;
    StoreFacts(c);
    StartExact(c);
    AboveIgnores(c.objects, e.sequence, e, Loaded(c.snapshot).sequence, |c.log|);
  }

  /**
   An append that finds its object free is replayed by nodes starting afresh exactly when it is made
   above the snapshot; otherwise its deltas are visible to no one but the appender.
   */
  lemma AppendReplayedIff(c: Cluster, t: nat)
    requires Inv(c) && Enabled(c, Create(t)) && c.tasks[t].phase.entry.sequence !in c.objects
    ensures Replayed(FreshLoad(c), c.tasks[t].phase.entry, FreshLoad(Do(c, Create(t)))) <==> Careful(c, Create(t))
  {
    hide Inv, FreshLoad, Apply;
    var e := c.tasks[t].phase.entry;
    if Careful(c, Create(t)) {
      CarefulAppendReplayed(c, t, e);
    } else {
      CarelessAppendLost(c, t, e);
    }
  }

  // ---- Rolling up ----

  /** A stored rollup loses no entry to nodes starting afresh exactly if everything above it is in the log. */
  lemma PutSnapshotCompleteIff(c: Cluster, t: nat)
    requires Inv(c) && Enabled(c, PutSnapshot(t))
    ensures var d := Do(c, PutSnapshot(t));
      && (FreshComplete(d) <==> forall q :: c.tasks[t].phase.snapshot.sequence < q <= |c.log| ==> q in c.objects)
      && (FreshComplete(d) ==> SameView(FreshLoad(d), Replay(EMPTY, c.log)))
  {
    hide Inv, FreshComplete, SnapshotOfPrefix, FreshLoad, Replay, SameView;
    CapturedFacts(c, t);
    FreshCompleteIff(Do(c, PutSnapshot(t)));
  }

  lemma CapturedFacts(c: Cluster, t: nat)
    requires Inv(c) && HasTask(c, t) && c.tasks[t].phase.Captured?
    ensures Readable(c) && SnapshotOfPrefix(c.log, c.tasks[t].phase.snapshot)
  {
    hide OneRefill, ReplicaOk, SnapshotOfPrefix;
    assert TaskOk(c, t);
  }

  /** Storing an older rollup over one whose log is pruned takes the entries between from everyone. */
  lemma StaleRollupLoses(c: Cluster, t: nat)
    requires Inv(c) && Enabled(c, PutSnapshot(t)) && !Careful(c, PutSnapshot(t))
    ensures !FreshComplete(Do(c, PutSnapshot(t)))
    ensures |c.log| !in c.objects ==> FreshLoad(Do(c, PutSnapshot(t))).sequence < |c.log|
  {
    hide Inv, SnapshotOfPrefix, FreshComplete, ExactPrefix, Restore;
    CapturedFacts(c, t);
    StoreFacts(c);
    var s, d := c.tasks[t].phase.snapshot, Do(c, PutSnapshot(t));
    PutSnapshotCompleteIff(c, t);
    LoadedExact(c.log, s);
    if |c.log| !in c.objects {
      AboveNone(c.objects, s.sequence, |c.log|);
    }
  }

  // ---- Pruning ----

  /** After any prune, a sync of any index is complete exactly if none is missing above where it applies. */
  lemma PruneCompleteIff(c: Cluster, t: nat, doomed: set<nat>, i: nat)
    requires Inv(c) && Enabled(c, Prune(t, doomed)) && i in c.replicas
    ensures var d, at := Do(c, Prune(t, doomed)), c.replicas[i].index.sequence;
      SyncComplete(d, at) <==> forall q :: Base(d, at) < q <= |c.log| ==> q in c.objects && q !in doomed
  {
    hide Inv, SyncComplete, Base, SnapshotOfPrefix, ExactPrefix;
    ReadableStates(c);
    IndexFacts(c, i);
    var d := Do(c, Prune(t, doomed));
    assert forall q :: q in d.objects <==> q in c.objects && q !in doomed;
    SyncCompleteIff(d, c.replicas[i].index);
  }

  ghost predicate EntryAdds(e: LogEntry, k: TableKey, p: Path) {
    exists i :: 0 <= i < |e.deltas| && AddsPath(Event(e.deltas[i], e.sequence), k, p)
  }

  lemma {:induction false} DeltasNeverAdd(ix: Index, ds: seq<Delta>, at: nat, k: TableKey, p: Path)
    requires !HasPath(Files(ix, k), p)
    requires forall i :: 0 <= i < |ds| ==> !AddsPath(Event(ds[i], at), k, p)
    ensures !HasPath(Files(ApplyDeltas(ix, ds, at), k), p)
    decreases |ds|
  {
    if ds != [] {
      var d := ds[0];
      assert !AddsPath(Event(d, at), k, p);
      RetainHasPath(Files(ix, d.key), d.removed, p);
      AddAllHasPath(Retain(Files(ix, d.key), d.removed), d.added, at, p);
      forall i | 0 <= i < |ds[1..]| ensures !AddsPath(Event(ds[1..][i], at), k, p) {
        assert ds[1..][i] == ds[i + 1];
      }
      DeltasNeverAdd(ApplyDelta(ix, d, at), ds[1..], at, k, p);
    }
  }

  lemma {:induction false} ReplayNeverAdds(ix: Index, log: seq<LogEntry>, k: TableKey, p: Path)
    requires !HasPath(Files(ix, k), p)
    requires forall i :: 0 <= i < |log| ==> !EntryAdds(log[i], k, p)
    ensures !HasPath(Files(Replay(ix, log), k), p)
    decreases |log|
  {
    if log != [] {
      assert !EntryAdds(log[0], k, p);
      DeltasNeverAdd(ix, log[0].deltas, log[0].sequence, k, p);
      ReplayNeverAdds(Apply(ix, log[0]), log[1..], k, p);
    }
  }

  /**
   A hole left by pruning out of order goes unnoticed: a reader whose next entry survives applies
   past the missing one, and a live file only that entry added never reaches it.
   */
  lemma HoleLosesFile(c: Cluster, ix: Index, hole: nat, k: TableKey, p: Path)
    requires Readable(c) && ExactPrefix(c.log, ix)
    requires ix.sequence + 1 in c.objects && ix.sequence + 1 < hole <= |c.log| && hole !in c.objects
    requires Live(History(c.log), k, p)
    requires forall i :: 0 <= i < |c.log| && i != hole - 1 ==> !EntryAdds(c.log[i], k, p)
    ensures !SyncComplete(c, ix.sequence)
    ensures HasPath(Files(Replay(EMPTY, c.log), k), p)
    ensures !HasPath(Files(Synced(ix, Above(c.objects, ix.sequence, |c.log|), c.snapshot), k), p)
  {
    hide Replay, EntryAdds, Live, History, Above, HasPath, Synced, SyncComplete, SnapshotOfPrefix;
    assert Increasing(c.log);
    IndexReadsLog(c.log, k, p, IndexedFile(ParquetFile(0, p, 0, 0, 0, 0, 0), 0));
    SeenHasNone(c.log, ix, k, p);
    HoleHidden(c, ix, hole, k, p);
    SyncCompleteIff(c, ix);
  }

  lemma SeenHasNone(log: seq<LogEntry>, ix: Index, k: TableKey, p: Path)
    requires ExactPrefix(log, ix) && forall i :: 0 <= i < ix.sequence ==> !EntryAdds(log[i], k, p)
    ensures !HasPath(Files(ix, k), p)
  {
    hide Replay, EntryAdds;
    ReplayNeverAdds(EMPTY, log[..ix.sequence], k, p);
    assert Files(ix, k) == Files(Replay(EMPTY, log[..ix.sequence]), k);
  }

  lemma HoleHidden(c: Cluster, ix: Index, hole: nat, k: TableKey, p: Path)
    requires Dense(c.log) && FromLog(c.log, c.objects)
    requires ix.sequence + 1 in c.objects && hole !in c.objects && !HasPath(Files(ix, k), p)
    requires forall i :: 0 <= i < |c.log| && i != hole - 1 ==> !EntryAdds(c.log[i], k, p)
    ensures !Gap(ix.sequence, Above(c.objects, ix.sequence, |c.log|))
    ensures !HasPath(Files(Synced(ix, Above(c.objects, ix.sequence, |c.log|), c.snapshot), k), p)
  {
    hide Replay, EntryAdds, Above, HasPath;
    var listing := Above(c.objects, ix.sequence, |c.log|);
    AboveMembers(c.objects, ix.sequence, |c.log|);
    forall i | 0 <= i < |listing| ensures !EntryAdds(listing[i], k, p) {
      assert listing[i] in listing;
    }
    ReplayNeverAdds(ix, listing, k, p);
  }

  // ---- Applying, resetting and merging a shared index ----

  lemma {:induction false} ReachOfStretch(log: seq<LogEntry>, at: nat, from: nat, end: nat)
    requires Dense(log) && from <= end <= |log|
    ensures Reach(at, log[from..end]) == if end > at && end > from then end else at
    decreases end
  {
    if end > from {
      ReachOfStretch(log, at, from, end - 1);
      assert log[from..end] == log[from..end - 1] + [log[end - 1]];
      TakenSnoc(at, log[from..end - 1], log[end - 1]);
    }
  }

  lemma {:induction false} TakenOfStretch(log: seq<LogEntry>, at: nat, from: nat, end: nat, q: nat)
    requires Dense(log) && from <= end <= |log|
    ensures q in Taken(at, log[from..end]) <==> from < q <= end && at < q
    decreases end
  {
    if end == from {
      assert log[from..end] == [];
    } else {
      hide Taken, Reach;
      var before, e := log[from..end - 1], log[end - 1];
      TakenOfStretch(log, at, from, end - 1, q);
      ReachOfStretch(log, at, from, end - 1);
      assert log[from..end] == before + [e];
      TakenSnoc(at, before, e);
      assert e.sequence == end && (e.sequence > Reach(at, before) <==> end > at);
    }
  }

  /**
   Applying a stretch of the log, or one's own entry, skips no committed entry before its end exactly
   if it starts no later than where the index is.
   */
  lemma ApplyCompleteIff(log: seq<LogEntry>, ix: Index, from: nat, entries: seq<LogEntry>)
    requires Dense(log) && Stretch(log, from, entries) && entries != [] && ExactPrefix(log, ix)
    ensures TakesAll(log[..from + |entries|], ix.sequence, entries) <==> from <= ix.sequence
    ensures from <= ix.sequence ==> ExactPrefix(log, Replay(ix, entries))
  {
    hide Replay, ExactPrefix, Taken;
    forall q: nat ensures q in Taken(ix.sequence, entries) <==> from < q <= from + |entries| && ix.sequence < q {
      TakenOfStretch(log, ix.sequence, from, from + |entries|, q);
    }
    if from <= ix.sequence {
      ReplayStretch(log, ix, from, entries);
    } else {
      assert from !in Taken(ix.sequence, entries);
    }
  }

  ghost function AfterReset(c: Cluster, t: nat): Cluster
    requires HasTask(c, t) && c.tasks[t].phase.Fetched?
  {
    Do(Do(c, Clear(t)), Refill(t))
  }

  lemma ResetMoves(c: Cluster, t: nat)
    requires HasTask(c, t) && c.tasks[t].phase.Fetched? && Settled(c, c.tasks[t].on)
    ensures var i, s, d := c.tasks[t].on, c.tasks[t].phase.snapshot, AfterReset(c, t);
      && i in d.replicas && d.replicas[i].index.sequence == s.sequence
      && d.replicas[i].reached >= c.replicas[i].reached && Settled(d, i)
  {
    hide RestoreFiles, RaiseAll;
  }

  lemma ResetKeepsInv(c: Cluster, t: nat)
    requires Inv(c) && HasTask(c, t) && c.tasks[t].phase.Fetched? && Settled(c, c.tasks[t].on)
    requires c.replicas[c.tasks[t].on].index.sequence <= c.tasks[t].phase.snapshot.sequence
    ensures Inv(AfterReset(c, t))
  {
    hide Inv, Settled, Restore;
    var entries, s := c.tasks[t].phase.entries, c.tasks[t].phase.snapshot;
    ClearInv(c, t, entries, s);
    RefillInv(Move(c, t, EMPTY, Cleared(entries, s)), t, entries, s);
  }

  /**
   A reset keeps all that is proved of the cluster exactly if the index is not ahead of the snapshot
   that was fetched: the index then ends no less far than it was.
   */
  lemma ResetInvIff(c: Cluster, t: nat)
    requires Inv(c) && HasTask(c, t) && c.tasks[t].phase.Fetched? && Settled(c, c.tasks[t].on)
    ensures Inv(AfterReset(c, t)) <==>
      c.replicas[c.tasks[t].on].index.sequence <= c.tasks[t].phase.snapshot.sequence
  {
    hide Inv, Settled, AfterReset, ExactPrefix;
    var i := c.tasks[t].on;
    IndexFacts(c, i);
    if c.replicas[i].index.sequence <= c.tasks[t].phase.snapshot.sequence {
      ResetKeepsInv(c, t);
    } else if Inv(AfterReset(c, t)) {
      ResetMoves(c, t);
      IndexFacts(AfterReset(c, t), i);
    }
  }

  /** Whether the entry after a position can be had: it is in the log, or there is none yet. */
  predicate NextAtHand(c: Cluster, at: nat) { at + 1 in c.objects || at == |c.log| }

  /** A task new on the index gets hold of the entry after its position: it reads it, or creates it. */
  lemma NextEntryPlays(c: Cluster, u: nat, deltas: seq<Delta>) returns (actions: seq<Action>, d: Cluster, e: LogEntry)
    requires Readable(c) && HasTask(c, u) && c.tasks[u].phase.Idle? && deltas != []
    requires IndexOf(c, u).sequence <= |c.log|
    ensures Plays(NextAtHand(c, IndexOf(c, u).sequence), c, actions, d)
    ensures e.sequence == IndexOf(c, u).sequence + 1 && c.log <= d.log
    ensures d.tasks.Keys == c.tasks.Keys && d.replicas == c.replicas
    ensures d.tasks[u].on == c.tasks[u].on && forall t :: t in c.tasks && t != u ==> d.tasks[t] == c.tasks[t]
    ensures d.tasks[u].phase == Created(e) || (d.tasks[u].phase.Applying? && [e] <= d.tasks[u].phase.entries)
  {
    var at := IndexOf(c, u).sequence;
    StoredBelow(c);
    hide Plays, Above, SnapshotOfPrefix;
    if at + 1 in c.objects {
      e := c.objects[at + 1];
      AboveMembers(c.objects, at, |c.log|);
      ReadPlays(c, u);
      actions, d := Reading(u), WithPhase(c, u, Applying(Above(c.objects, at, |c.log|)));
    } else {
      var careful := at == |c.log|;
      e := LogEntry(at + 1, deltas);
      PlaysNothing(c);
      if !careful { PlaysUntil(c, [], c); }
      PlaysThen(careful, c, [], c, Choose(u, deltas));
      var chosen := WithPhase(c, u, Chosen(e));
      PlaysThen(careful, c, [] + [Choose(u, deltas)], chosen, Create(u));
      actions, d := [] + [Choose(u, deltas)] + [Create(u)], Do(chosen, Create(u));
    }
  }

  lemma StoredBelow(c: Cluster)
    requires Readable(c)
    ensures StoredAt(c.snapshot) <= |c.log|
  {
  }

  /**
   And a reset of an index that is ahead can always lose entries: some task on the same index may hold
   the entry after its old position, and applying that after the reset takes the index past entries
   the snapshot does not cover and that were never applied to it. If the entry can be had, every step
   but the reset is careful.
   */
  lemma ResetBackSkips(c: Cluster, t: nat, u: nat, deltas: seq<Delta>)
      returns (before: seq<Action>, mid: Cluster, last: Action, d: Cluster, e: LogEntry)
    requires Inv(c) && HasTask(c, t) && c.tasks[t].phase.Fetched? && Settled(c, c.tasks[t].on)
    requires c.replicas[c.tasks[t].on].index.sequence > c.tasks[t].phase.snapshot.sequence
    requires u !in c.tasks && deltas != []
    ensures Plays(NextAtHand(c, c.replicas[c.tasks[t].on].index.sequence), c, before, mid)
    ensures HasTask(mid, t) && mid.tasks[t] == c.tasks[t] && Plays(true, AfterReset(mid, t), [last], d)
    ensures Plays(false, c, before + Resetting(t) + [last], d) && c.tasks[t].on in d.replicas
    ensures var s := c.tasks[t].phase.snapshot;
      && d.replicas[c.tasks[t].on].index == Apply(Restore(EMPTY, s), e) && Restore(EMPTY, s).sequence == s.sequence
      && e.sequence == c.replicas[c.tasks[t].on].index.sequence + 1 && !TakesAll(d.log, s.sequence, [e])
  {
    hide Inv, Plays, Apply, Restore, ExactPrefix, SnapshotOfPrefix;
    var i, s := c.tasks[t].on, c.tasks[t].phase.snapshot;
    var careful := NextAtHand(c, c.replicas[i].index.sequence);
    IndexFacts(c, i);
    PrefixInLog(c.log, c.replicas[i].index);
    ReadableStates(c);
    PlaysNothing(c);
    if !careful { PlaysUntil(c, [], c); }
    PlaysThen(careful, c, [], c, Spawn(u, i));
    var c1 := c.(tasks := c.tasks[u := Task(i, Idle)]);
    var more, c2, next := NextEntryPlays(c1, u, deltas);
    PlaysOn(careful, c, [] + [Spawn(u, i)], c1, more, c2);
    before, mid, e := [] + [Spawn(u, i)] + more, c2, next;
    last, d := ResetThenApply(c, mid, t, u, e);
    if careful { PlaysUntil(c, before, mid); }
    PlaysOn(false, c, before, mid, Resetting(t), AfterReset(mid, t));
    PlaysUntil(AfterReset(mid, t), [last], d);
    PlaysOn(false, c, before + Resetting(t), AfterReset(mid, t), [last], d);
    SkipsOne(d.log, s, e);
  }

  lemma ResetThenApply(c: Cluster, mid: Cluster, t: nat, u: nat, e: LogEntry) returns (last: Action, d: Cluster)
    requires HasTask(mid, t) && mid.tasks[t].phase.Fetched? && u in mid.tasks && u != t
    requires mid.tasks[u].on == mid.tasks[t].on && Settled(mid, mid.tasks[t].on)
    requires mid.tasks[u].phase == Created(e) || (mid.tasks[u].phase.Applying? && [e] <= mid.tasks[u].phase.entries)
    ensures Plays(false, mid, Resetting(t), AfterReset(mid, t)) && Plays(true, AfterReset(mid, t), [last], d)
    ensures d.log == mid.log && mid.tasks[t].on in d.replicas
    ensures d.replicas[mid.tasks[t].on].index == Apply(Restore(EMPTY, mid.tasks[t].phase.snapshot), e)
  {
    hide Plays, Apply, Restore;
    var s := mid.tasks[t].phase.snapshot;
    ResetPlays(false, mid, t);
    var reset := Move(mid, t, Restore(EMPTY, s), Applying(mid.tasks[t].phase.entries));
    ResetIs(mid, t);
    last := if mid.tasks[u].phase.Created? then ApplyOwn(u) else ApplyNext(u);
    PlaysNothing(reset);
    PlaysThen(true, reset, [], reset, last);
    d := Do(reset, last);
    assert [] + [last] == [last];
  }

  lemma ResetIs(c: Cluster, t: nat)
    requires HasTask(c, t) && c.tasks[t].phase.Fetched?
    ensures AfterReset(c, t) ==
      Move(c, t, Restore(EMPTY, c.tasks[t].phase.snapshot), Applying(c.tasks[t].phase.entries))
  {
    hide Restore;
    var entries, s := c.tasks[t].phase.entries, c.tasks[t].phase.snapshot;
    var cleared := Move(c, t, EMPTY, Cleared(entries, s));
    assert Do(c, Clear(t)) == cleared;
    assert cleared.replicas[c.tasks[t].on].reached == c.replicas[c.tasks[t].on].reached;
  }

  /**
   Where the entry after an index's position is pruned it cannot be had carefully: the position is
   below the stored snapshot, so no append from there is careful, and a reader from there sees nothing
   or sees that entries are missing.
   */
  lemma PrunedNext(c: Cluster, i: nat)
    requires Inv(c) && i in c.replicas && !NextAtHand(c, c.replicas[i].index.sequence)
    ensures var at := c.replicas[i].index.sequence;
      && at < StoredAt(c.snapshot)
      && (Above(c.objects, at, |c.log|) == [] || Gap(at, Above(c.objects, at, |c.log|)))
  {
    var at := c.replicas[i].index.sequence;
    IndexFacts(c, i);
    StoreFacts(c);
    hide Inv, ExactPrefix, SnapshotOfPrefix;
    PrefixInLog(c.log, c.replicas[i].index);
    AboveMembers(c.objects, at, |c.log|);
    var listing := Above(c.objects, at, |c.log|);
    if listing != [] { assert listing[0] in listing; }
  }

  // ---- An entry applied between the two halves of a reset ----

  predicate Holds(c: Cluster, u: nat, e: LogEntry)
    requires u in c.tasks
  {
    var phase := c.tasks[u].phase;
    phase == Created(e) || (phase.Applying? && phase.entries != [] && phase.entries[0] == e)
  }

  /** The task applies the entry it holds to the emptied index, and then the reset is completed. */
  ghost function AfterInterruption(c: Cluster, t: nat, u: nat, e: LogEntry): Cluster
    requires HasTask(c, t) && c.tasks[t].phase.Cleared? && HasTask(c, u) && Holds(c, u, e)
  {
    Do(Do(c, if c.tasks[u].phase.Created? then ApplyOwn(u) else ApplyNext(u)), Refill(t))
  }

  lemma HeldFacts(c: Cluster, t: nat, u: nat, e: LogEntry)
    requires Inv(c) && HasTask(c, t) && HasTask(c, u) && c.tasks[t].on == c.tasks[u].on
    requires c.tasks[t].phase.Cleared? && Holds(c, u, e)
    ensures var s := c.tasks[t].phase.snapshot;
      && Dense(c.log) && SnapshotOfPrefix(c.log, s) && IndexOf(c, t) == EMPTY
      && 1 <= e.sequence <= |c.log| && c.log[e.sequence - 1] == e && e.sequence <= s.sequence + 1
  {
    hide OneRefill, ReplicaOk, SnapshotOfPrefix;
    assert TaskOk(c, t) && TaskOk(c, u);
    if c.tasks[u].phase.Applying? {
      var entries := c.tasks[u].phase.entries;
      var from: nat :| Stretch(c.log, from, entries) && from <= c.replicas[c.tasks[u].on].reached;
      assert entries[0] == c.log[from];
    }
  }

  lemma InterruptionMoves(c: Cluster, t: nat, u: nat, e: LogEntry)
    requires HasTask(c, t) && HasTask(c, u) && c.tasks[t].on == c.tasks[u].on
    requires c.tasks[t].phase.Cleared? && Holds(c, u, e) && IndexOf(c, t) == EMPTY
    ensures var d := AfterInterruption(c, t, u, e);
      && d.log == c.log && c.tasks[t].on in d.replicas
      && d.replicas[c.tasks[t].on].index == Restore(Alone(e), c.tasks[t].phase.snapshot)
  {
    hide Apply, Restore;
  }

  /**
   In every reachable state an entry applied between the two halves of a reset leaves the index exact
   exactly if it is undisturbed by the snapshot, and it is never later than the one after it.
   */
  lemma InterruptedResetIff(c: Cluster, t: nat, u: nat, e: LogEntry)
    requires Inv(c) && HasTask(c, t) && HasTask(c, u) && c.tasks[t].on == c.tasks[u].on
    requires c.tasks[t].phase.Cleared? && Holds(c, u, e)
    ensures var d := AfterInterruption(c, t, u, e);
      && c.tasks[t].on in d.replicas
      && (ExactPrefix(d.log, d.replicas[c.tasks[t].on].index) <==> Undisturbed(e, c.tasks[t].phase.snapshot))
    ensures e.sequence <= c.tasks[t].phase.snapshot.sequence + 1
  {
    hide Inv, ExactPrefix, Undisturbed, SnapshotOfPrefix, AfterInterruption, Holds;
    HeldFacts(c, t, u, e);
    InterruptionMoves(c, t, u, e);
    InterruptedExactIff(c.log, e, c.tasks[t].phase.snapshot);
  }

  // ---- Merging ----

  /** A merge keeps all that is proved of the cluster exactly if the two indexes are mergeable. */
  lemma MergeInvIff(c: Cluster, a: Action)
    requires Inv(c) && Enabled(c, a) && a.Merge? && Settled(c, a.into)
    ensures Inv(Do(c, a)) <==> Mergeable(c.replicas[a.into].index, c.replicas[a.i].index)
    ensures ExactPrefix(c.log, Do(c, a).replicas[a.into].index) <==>
      Mergeable(c.replicas[a.into].index, c.replicas[a.i].index)
  {
    hide Inv, Mergeable, IsSnapshotOf, Restore, ExactPrefix, Settled;
    IndexFacts(c, a.into);
    IndexFacts(c, a.i);
    MergeExactIff(c.log, c.replicas[a.into].index, c.replicas[a.i].index, a.snapshot);
    if Mergeable(c.replicas[a.into].index, c.replicas[a.i].index) {
      StepInv(c, a);
    } else if Inv(Do(c, a)) {
      IndexFacts(Do(c, a), a.into);
    }
  }
}
