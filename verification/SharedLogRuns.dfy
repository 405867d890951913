/** Over every careful run of the shared log each index is the exact replay of a prefix of it. */
module SharedLogRuns {
  import opened Wrappers
  import opened IndexModel
  import opened CommittedLog
  import opened IndexMerge
  import opened SharedLog

  // ---- The invariant ----

  /** Objects are committed entries, none is missing above the snapshot, and none between two others. */
  ghost predicate StoreOk(c: Cluster) {
    && Dense(c.log) && FromLog(c.log, c.objects)
    && (forall q, p :: q in c.objects && q <= p <= |c.log| ==> p in c.objects)
    && AllAbove(c.log, c.objects, StoredAt(c.snapshot))
    && (c.snapshot.Some? ==> SnapshotOfPrefix(c.log, c.snapshot.value))
  }

  /** Every index is exact, and no less far than it ever was unless it is being refilled. */
  ghost predicate ReplicaOk(c: Cluster, i: nat)
    requires i in c.replicas
  {
    var r := c.replicas[i];
    && ExactPrefix(c.log, r.index) && r.index.sequence <= r.reached <= |c.log|
    && (Settled(c, i) ==> r.index.sequence == r.reached)
  }

  /** Listed entries continue the log from no further than `reached`, or from where it was pruned. */
  ghost predicate EntriesOk(c: Cluster, entries: seq<LogEntry>, reached: nat) {
    entries == [] ||
    exists from: nat {:trigger Stretch(c.log, from, entries)} ::
      Stretch(c.log, from, entries) && (from <= reached || from !in c.objects)
  }

  ghost predicate ReachedOk(c: Cluster, entries: seq<LogEntry>, reached: nat) {
    entries == [] ||
    exists from: nat {:trigger Stretch(c.log, from, entries)} :: Stretch(c.log, from, entries) && from <= reached
  }

  function Max(a: nat, b: nat): nat { if a < b then b else a }

  ghost predicate PhaseOk(c: Cluster, phase: Phase, r: Replica) {
    match phase
    case Aimed(after) => after <= r.reached
    case Listed(entries) => EntriesOk(c, entries, r.reached)
    case Gapped(entries) => EntriesOk(c, entries, r.reached)
    case Fetched(entries, s) => SnapshotOfPrefix(c.log, s) && ReachedOk(c, entries, Max(r.reached, s.sequence))
    case Cleared(entries, s) =>
      && SnapshotOfPrefix(c.log, s) && r.reached <= s.sequence && r.index == EMPTY
      && ReachedOk(c, entries, s.sequence)
    case Applying(entries) => ReachedOk(c, entries, r.reached)
    case Chosen(e) => 1 <= e.sequence <= r.reached + 1
    case Created(e) => 1 <= e.sequence <= r.reached + 1 && e.sequence <= |c.log| && c.log[e.sequence - 1] == e
    case Captured(s) => SnapshotOfPrefix(c.log, s)
    case _ => true
  }

  ghost predicate TaskOk(c: Cluster, t: nat)
    requires t in c.tasks
  {
    c.tasks[t].on in c.replicas && PhaseOk(c, c.tasks[t].phase, c.replicas[c.tasks[t].on])
  }

  /** At most one task at a time is refilling an index. */
  ghost predicate OneRefill(c: Cluster) {
    forall t, u :: t in c.tasks && u in c.tasks && t != u && c.tasks[t].on == c.tasks[u].on ==>
      !(c.tasks[t].phase.Cleared? && c.tasks[u].phase.Cleared?)
  }

  ghost predicate Inv(c: Cluster) {
    && StoreOk(c) && OneRefill(c)
    && (forall i :: i in c.replicas ==> ReplicaOk(c, i))
    && (forall t :: t in c.tasks ==> TaskOk(c, t))
  }

  /** What the invariant says of one task, its index and the log. */
  lemma Facts(c: Cluster, t: nat)
    requires Inv(c) && t in c.tasks
    ensures Dense(c.log) && HasTask(c, t) && TaskOk(c, t) && ReplicaOk(c, c.tasks[t].on)
  {
  }

  // ---- Tasks other than the one that acts ----

  /** A replica that went further, or stayed, with the same store. */
  lemma PhaseKept(c: Cluster, d: Cluster, phase: Phase, r: Replica, s: Replica)
    requires PhaseOk(c, phase, r) && d.log == c.log && r.reached <= s.reached && (phase.Cleared? ==> s == r)
    requires forall q :: q in d.objects ==> q in c.objects
    ensures PhaseOk(d, phase, s)
  {
    if (phase.Listed? || phase.Gapped?) && phase.entries != [] {
      var from: nat :| Stretch(c.log, from, phase.entries) && (from <= r.reached || from !in c.objects);
      assert Stretch(d.log, from, phase.entries);
    }
    if (phase.Fetched? || phase.Applying?) && phase.entries != [] {
      var from: nat :| Stretch(c.log, from, phase.entries)
        && from <= if phase.Fetched? then Max(r.reached, phase.snapshot.sequence) else r.reached;
      assert Stretch(d.log, from, phase.entries);
    }
  }

  /** An append leaves every phase as good as it was. */
  lemma PhaseGrows(c: Cluster, d: Cluster, phase: Phase, r: Replica, e: LogEntry)
    requires StoreOk(c) && PhaseOk(c, phase, r) && d.log == c.log + [e] && d.objects == c.objects[|c.log| + 1 := e]
    ensures PhaseOk(d, phase, r)
  {
    if phase.Fetched? || phase.Cleared? || phase.Captured? { GrowthKeepsSnapshot(c.log, [e], phase.snapshot); }
    if (phase.Listed? || phase.Gapped?) && phase.entries != [] {
      var from: nat :| Stretch(c.log, from, phase.entries) && (from <= r.reached || from !in c.objects);
      GrowthKeepsStretch(c.log, [e], from, phase.entries);
    }
    if (phase.Fetched? || phase.Cleared? || phase.Applying?) && phase.entries != [] {
      var top := if phase.Fetched? then Max(r.reached, phase.snapshot.sequence)
                 else if phase.Cleared? then phase.snapshot.sequence else r.reached;
      var from: nat :| Stretch(c.log, from, phase.entries) && from <= top;
      GrowthKeepsStretch(c.log, [e], from, phase.entries);
    }
  }

  // ---- Actions that only change the acting task's phase ----

  lemma NewPhaseTasks(c: Cluster, t: nat, phase: Phase)
    requires Inv(c) && HasTask(c, t) && PhaseOk(c, phase, c.replicas[c.tasks[t].on])
    ensures forall u :: u in c.tasks ==> TaskOk(WithPhase(c, t, phase), u)
  {
    hide StoreOk, OneRefill, ReplicaOk, PhaseOk;
    var d := WithPhase(c, t, phase);
    forall u | u in c.tasks ensures TaskOk(d, u) {
      assert TaskOk(c, u);
      PhaseKept(c, d, d.tasks[u].phase, c.replicas[d.tasks[u].on], d.replicas[d.tasks[u].on]);
    }
  }

  lemma NewPhaseReplicas(c: Cluster, t: nat, phase: Phase)
    requires Inv(c) && HasTask(c, t) && !c.tasks[t].phase.Cleared? && !phase.Cleared?
    ensures forall i :: i in c.replicas ==> ReplicaOk(WithPhase(c, t, phase), i)
  {
    hide StoreOk, OneRefill, TaskOk, ExactPrefix;
    forall i | i in c.replicas ensures ReplicaOk(WithPhase(c, t, phase), i) {
      assert ReplicaOk(c, i);
      SettledSame(c, WithPhase(c, t, phase), t, i);
    }
  }

  lemma NewPhaseInv(c: Cluster, t: nat, phase: Phase)
    requires Inv(c) && HasTask(c, t) && !c.tasks[t].phase.Cleared? && !phase.Cleared?
    requires PhaseOk(c, phase, c.replicas[c.tasks[t].on])
    ensures Inv(WithPhase(c, t, phase))
  {
    hide StoreOk, TaskOk, ReplicaOk, PhaseOk;
    NewPhaseTasks(c, t, phase);
    NewPhaseReplicas(c, t, phase);
    StoreKept(c, WithPhase(c, t, phase));
  }

  lemma StoreKept(c: Cluster, d: Cluster)
    requires StoreOk(c) && d.log == c.log && d.objects == c.objects && d.snapshot == c.snapshot
    ensures StoreOk(d)
  {
  }

  lemma SettledSame(c: Cluster, d: Cluster, t: nat, i: nat)
    requires t in c.tasks && d.tasks.Keys == c.tasks.Keys && d.tasks[t].on == c.tasks[t].on
    requires forall u :: u in c.tasks && u != t ==> d.tasks[u] == c.tasks[u]
    requires c.tasks[t].phase.Cleared? <==> d.tasks[t].phase.Cleared?
    ensures Settled(d, i) <==> Settled(c, i)
  {
    if Settled(c, i) {
      forall u | u in d.tasks && d.tasks[u].on == i ensures !d.tasks[u].phase.Cleared? {
        if u != t { assert d.tasks[u] == c.tasks[u]; }
      }
    }
    if Settled(d, i) {
      forall u | u in c.tasks && c.tasks[u].on == i ensures !c.tasks[u].phase.Cleared? {
        if u != t { assert d.tasks[u] == c.tasks[u]; }
      }
    }
  }

  lemma ListOk(c: Cluster, after: nat, reached: nat)
    requires StoreOk(c) && after <= reached && after <= |c.log|
    ensures EntriesOk(c, Above(c.objects, after, |c.log|), reached)
  {
    var from := ListingIsStretch(c.log, c.objects, after);
    assert c.log[from..] == c.log[from..|c.log|];
    assert Stretch(c.log, from, c.log[from..]);
  }

  /** Where a check finds no gap, the index has reached the entries. */
  lemma CheckOk(c: Cluster, entries: seq<LogEntry>, r: Replica)
    requires Dense(c.log) && EntriesOk(c, entries, r.reached) && r.index.sequence <= r.reached
    requires !Gap(r.index.sequence, entries)
    ensures ReachedOk(c, entries, r.reached)
  {
    if entries != [] {
      var from: nat :| Stretch(c.log, from, entries) && (from <= r.reached || from !in c.objects);
      assert entries[0] == c.log[from];
    }
  }

  /** A snapshot fetched after the listing reaches the entries, because what is pruned is covered. */
  lemma FetchOk(c: Cluster, entries: seq<LogEntry>, reached: nat)
    requires StoreOk(c) && EntriesOk(c, entries, reached)
    ensures ReachedOk(c, entries, Max(reached, StoredAt(c.snapshot)))
  {
    if entries != [] {
      var from: nat :| Stretch(c.log, from, entries) && (from <= reached || from !in c.objects);
      assert from <= Max(reached, StoredAt(c.snapshot));
    }
  }

  /** A phase that follows from the phase before, the store and the index. */
  lemma NextPhaseOk(c: Cluster, a: Action)
    requires StoreOk(c) && Enabled(c, a)
    requires a.Stop? || a.Aim? || a.List? || a.Check? || a.Fetch? || a.Choose? || a.Capture?
    requires TaskOk(c, a.t) && ReplicaOk(c, c.tasks[a.t].on)
    ensures PhaseOk(c, Do(c, a).tasks[a.t].phase, c.replicas[c.tasks[a.t].on])
  {
    var phase, r := c.tasks[a.t].phase, c.replicas[c.tasks[a.t].on];
    if a.List? { ListOk(c, phase.after, r.reached); }
    if a.Check? && !Gap(r.index.sequence, phase.entries) { CheckOk(c, phase.entries, r); }
    if a.Fetch? { FetchOk(c, phase.entries, r.reached); }
    if a.Capture? { CapturedExact(c.log, r.index, a.snapshot); }
  }

  lemma PhaseStepInv(c: Cluster, a: Action)
    requires Inv(c) && Enabled(c, a)
    requires a.Stop? || a.Aim? || a.List? || a.Check? || a.Fetch? || a.Choose? || a.Capture?
    ensures Inv(Do(c, a))
  {
    Facts(c, a.t);
    StoreFacts(c);
    hide Inv, StoreOk, PhaseOk, ExactPrefix, IsSnapshotOf;
    NextPhaseOk(c, a);
    NewPhaseInv(c, a.t, Do(c, a).tasks[a.t].phase);
  }

  // ---- Actions on an index ----

  /** A settled index went further, by the task `t` or by a merge, and everything else is as it was. */
  lemma MovedInv(c: Cluster, i: nat, index: Index)
    requires Inv(c) && i in c.replicas && Settled(c, i) && ExactPrefix(c.log, index)
    requires index.sequence >= c.replicas[i].index.sequence
    ensures Inv(WithIndex(c, i, index))
  {
    var d := WithIndex(c, i, index);
    assert ReplicaOk(c, i);
    forall u | u in d.tasks ensures TaskOk(d, u) {
      assert TaskOk(c, u);
      PhaseKept(c, d, d.tasks[u].phase, c.replicas[d.tasks[u].on], d.replicas[d.tasks[u].on]);
    }
    forall j | j in d.replicas ensures ReplicaOk(d, j) {
      assert ReplicaOk(c, j);
      assert Settled(d, j) <==> Settled(c, j);
    }
  }

  /** Entries the index has reached: the first is the next one or seen already, and so are the rest after it. */
  lemma FirstReached(log: seq<LogEntry>, c: Cluster, entries: seq<LogEntry>, reached: nat)
    requires Dense(log) && log == c.log && ReachedOk(c, entries, reached) && entries != []
    ensures 1 <= entries[0].sequence <= reached + 1 && entries[0].sequence <= |log|
    ensures log[entries[0].sequence - 1] == entries[0] && ReachedOk(c, entries[1..], Max(reached, entries[0].sequence))
  {
    var from: nat :| Stretch(c.log, from, entries) && from <= reached;
    assert entries[0] == log[from];
    assert Stretch(c.log, from + 1, entries[1..]);
  }

  /** A task takes its settled index further and goes on. */
  lemma MoveInv(c: Cluster, t: nat, index: Index, phase: Phase)
    requires Inv(c) && HasTask(c, t) && Settled(c, c.tasks[t].on) && ExactPrefix(c.log, index) && !phase.Cleared?
    requires index.sequence >= IndexOf(c, t).sequence
    requires PhaseOk(c, phase, Moved(c.replicas[c.tasks[t].on], index))
    ensures Inv(Move(c, t, index, phase))
  {
    var i := c.tasks[t].on;
    var d := WithIndex(c, i, index);
    MovedInv(c, i, index);
    PhaseKept(c, d, phase, d.replicas[i], d.replicas[i]);
    hide ExactPrefix, StoreOk, ReplicaOk, PhaseOk, OneRefill;
    NewPhaseInv(d, t, phase);
  }

  lemma ApplyNextInv(c: Cluster, t: nat, entries: seq<LogEntry>)
    requires Inv(c) && HasTask(c, t) && c.tasks[t].phase == Applying(entries) && entries != []
    requires Settled(c, c.tasks[t].on)
    ensures Inv(Move(c, t, Apply(IndexOf(c, t), entries[0]), Applying(entries[1..])))
  {
    hide Inv, Settled, Apply, ExactPrefix;
    Facts(c, t);
    var r := c.replicas[c.tasks[t].on];
    FirstReached(c.log, c, entries, r.reached);
    ApplyExact(c.log, r.index, entries[0]);
    MoveInv(c, t, Apply(r.index, entries[0]), Applying(entries[1..]));
  }

  lemma ApplyOwnInv(c: Cluster, t: nat, e: LogEntry)
    requires Inv(c) && HasTask(c, t) && c.tasks[t].phase == Created(e) && Settled(c, c.tasks[t].on)
    ensures Inv(Move(c, t, Apply(IndexOf(c, t), e), Idle))
  {
    hide Inv, Settled, Apply, ExactPrefix;
    Facts(c, t);
    ApplyExact(c.log, IndexOf(c, t), e);
    MoveInv(c, t, Apply(IndexOf(c, t), e), Idle);
  }

  lemma ReachedSame(c: Cluster, d: Cluster, entries: seq<LogEntry>, reached: nat)
    requires ReachedOk(c, entries, reached) && d.log == c.log
    ensures ReachedOk(d, entries, reached)
  {
    if entries != [] {
      var from: nat :| Stretch(c.log, from, entries) && from <= reached;
      assert Stretch(d.log, from, entries);
    }
  }

  lemma MergeInv(c: Cluster, i: nat, into: nat, s: Snapshot)
    requires Inv(c) && i in c.replicas && into in c.replicas && IsSnapshotOf(s, c.replicas[i].index)
    requires Settled(c, into) && Mergeable(c.replicas[into].index, c.replicas[i].index)
    ensures Inv(WithIndex(c, into, Restore(c.replicas[into].index, s)))
  {
    assert ReplicaOk(c, into) && ReplicaOk(c, i);
    hide Inv, Mergeable, IsSnapshotOf, Restore;
    MergeExactIff(c.log, c.replicas[into].index, c.replicas[i].index, s);
    MovedInv(c, into, Restore(c.replicas[into].index, s));
  }

  /** One task refills, or is done refilling, an index no other task is refilling. */
  ghost predicate Refilling(c: Cluster, d: Cluster, t: nat) {
    && HasTask(c, t) && d.log == c.log && d.objects == c.objects && d.snapshot == c.snapshot
    && d.tasks.Keys == c.tasks.Keys && d.replicas.Keys == c.replicas.Keys && d.tasks[t].on == c.tasks[t].on
    && (forall u :: u in c.tasks && u != t ==> d.tasks[u] == c.tasks[u])
    && (forall u :: u in c.tasks && u != t && c.tasks[u].on == c.tasks[t].on ==> !c.tasks[u].phase.Cleared?)
    && (forall j :: j in c.replicas && j != c.tasks[t].on ==> d.replicas[j] == c.replicas[j])
    && c.replicas[c.tasks[t].on].reached <= d.replicas[c.tasks[t].on].reached
  }

  lemma OtherTasksKept(c: Cluster, d: Cluster, t: nat)
    requires Inv(c) && Refilling(c, d, t)
    ensures forall u :: u in d.tasks && u != t ==> TaskOk(d, u)
  {
    hide StoreOk, ReplicaOk, PhaseOk;
    forall u | u in d.tasks && u != t ensures TaskOk(d, u) {
      assert TaskOk(c, u);
      PhaseKept(c, d, d.tasks[u].phase, c.replicas[d.tasks[u].on], d.replicas[d.tasks[u].on]);
    }
  }

  lemma OtherReplicasKept(c: Cluster, d: Cluster, t: nat)
    requires Inv(c) && Refilling(c, d, t)
    ensures forall j :: j in d.replicas && j != c.tasks[t].on ==> ReplicaOk(d, j)
  {
    hide StoreOk, TaskOk, ExactPrefix;
    forall j | j in d.replicas && j != c.tasks[t].on ensures ReplicaOk(d, j) {
      assert ReplicaOk(c, j);
      OtherSettled(c, d, t, j);
    }
  }

  lemma RefillingInv(c: Cluster, d: Cluster, t: nat)
    requires Inv(c) && Refilling(c, d, t) && TaskOk(d, t) && ReplicaOk(d, c.tasks[t].on)
    ensures Inv(d)
  {
    OtherTasksKept(c, d, t);
    OtherReplicasKept(c, d, t);
    hide TaskOk, ReplicaOk, ExactPrefix;
  }

  lemma OtherSettled(c: Cluster, d: Cluster, t: nat, j: nat)
    requires t in c.tasks && d.tasks.Keys == c.tasks.Keys && d.tasks[t].on == c.tasks[t].on != j
    requires forall u :: u in c.tasks && u != t ==> d.tasks[u] == c.tasks[u]
    ensures Settled(d, j) <==> Settled(c, j)
  {
    if Settled(c, j) {
      forall u | u in d.tasks && d.tasks[u].on == j ensures !d.tasks[u].phase.Cleared? {
        assert d.tasks[u] == c.tasks[u];
      }
    }
    if Settled(d, j) {
      forall u | u in c.tasks && c.tasks[u].on == j ensures !c.tasks[u].phase.Cleared? {
        assert d.tasks[u] == c.tasks[u];
      }
    }
  }

  lemma ClearInv(c: Cluster, t: nat, entries: seq<LogEntry>, s: Snapshot)
    requires Inv(c) && HasTask(c, t) && c.tasks[t].phase == Fetched(entries, s)
    requires Settled(c, c.tasks[t].on) && IndexOf(c, t).sequence <= s.sequence
    ensures Inv(Move(c, t, EMPTY, Cleared(entries, s)))
  {
    hide Inv, ExactPrefix, SnapshotOfPrefix, ReachedOk;
    var d, i := Move(c, t, EMPTY, Cleared(entries, s)), c.tasks[t].on;
    Facts(c, t);
    EmptyExact(c.log);
    ReachedSame(c, d, entries, s.sequence);
    assert t in d.tasks && d.tasks[t].on == i && d.tasks[t].phase.Cleared?;
    RefillingInv(c, d, t);
  }

  lemma RefilledOk(c: Cluster, t: nat, entries: seq<LogEntry>, s: Snapshot)
    requires Dense(c.log) && HasTask(c, t) && c.tasks[t].phase == Cleared(entries, s)
    requires TaskOk(c, t)
    ensures var d := Move(c, t, Restore(IndexOf(c, t), s), Applying(entries));
      && c.replicas[c.tasks[t].on].reached <= s.sequence
      && d.replicas[c.tasks[t].on] == Replica(Restore(EMPTY, s), s.sequence)
      && TaskOk(d, t) && ReplicaOk(d, c.tasks[t].on)
  {
    var d := Move(c, t, Restore(IndexOf(c, t), s), Applying(entries));
    LoadedExact(c.log, s);
    ReachedSame(c, d, entries, s.sequence);
    hide Restore, ExactPrefix, SnapshotOfPrefix, ReachedOk, Settled;
  }

  lemma RefillInv(c: Cluster, t: nat, entries: seq<LogEntry>, s: Snapshot)
    requires Inv(c) && HasTask(c, t) && c.tasks[t].phase == Cleared(entries, s)
    ensures Inv(Move(c, t, Restore(IndexOf(c, t), s), Applying(entries)))
  {
    hide Inv, Restore, TaskOk, ReplicaOk;
    OnlyRefill(c, t);
    Facts(c, t);
    RefilledOk(c, t, entries, s);
    RefillingInv(c, Move(c, t, Restore(IndexOf(c, t), s), Applying(entries)), t);
  }

  lemma OnlyRefill(c: Cluster, t: nat)
    requires Inv(c) && t in c.tasks && c.tasks[t].phase.Cleared?
    ensures forall u :: u in c.tasks && u != t && c.tasks[u].on == c.tasks[t].on ==> !c.tasks[u].phase.Cleared?
  {
  }

  // ---- Actions on the store ----

  /** From a position not below the snapshot, the next object is free only at the end. */
  lemma FreeOnlyAtEnd(c: Cluster, e: LogEntry, reached: nat)
    requires StoreOk(c) && 1 <= e.sequence <= reached + 1 && reached <= |c.log|
    requires e.sequence > StoredAt(c.snapshot) && e.sequence !in c.objects
    ensures e.sequence == |c.log| + 1
  {
  }

  lemma AppendKeepsStore(c: Cluster, d: Cluster, e: LogEntry)
    requires StoreOk(c) && e.sequence == |c.log| + 1
    requires d.log == c.log + [e] && d.objects == c.objects[e.sequence := e] && d.snapshot == c.snapshot
    ensures StoreOk(d)
  {
    if c.snapshot.Some? { GrowthKeepsSnapshot(c.log, [e], c.snapshot.value); }
  }

  function Appended(c: Cluster, t: nat, e: LogEntry): Cluster
    requires t in c.tasks
  {
    WithPhase(c, t, Created(e)).(log := c.log + [e], objects := c.objects[e.sequence := e])
  }

  lemma AppendKeepsTasks(c: Cluster, t: nat, e: LogEntry)
    requires Inv(c) && HasTask(c, t) && c.tasks[t].phase == Chosen(e) && e.sequence == |c.log| + 1
    ensures forall u :: u in c.tasks ==> TaskOk(Appended(c, t, e), u)
  {
    var d := Appended(c, t, e);
    hide ReplicaOk, OneRefill, PhaseOk, StoreOk;
    forall u | u in c.tasks ensures TaskOk(d, u) {
      assert TaskOk(c, u);
      if u != t { PhaseGrows(c, d, d.tasks[u].phase, d.replicas[d.tasks[u].on], e); } else { AppendedOk(c, t, e); }
    }
  }

  lemma AppendedOk(c: Cluster, t: nat, e: LogEntry)
    requires HasTask(c, t) && TaskOk(c, t) && c.tasks[t].phase == Chosen(e) && e.sequence == |c.log| + 1
    ensures TaskOk(Appended(c, t, e), t)
  {
  }

  lemma AppendKeepsReplicas(c: Cluster, t: nat, e: LogEntry)
    requires Inv(c) && HasTask(c, t) && c.tasks[t].phase == Chosen(e) && e.sequence == |c.log| + 1
    ensures forall i :: i in c.replicas ==> ReplicaOk(Appended(c, t, e), i)
  {
    var d := Appended(c, t, e);
    hide TaskOk, OneRefill, StoreOk, ExactPrefix;
    forall i | i in c.replicas ensures ReplicaOk(d, i) {
      assert ReplicaOk(c, i);
      GrowthKeepsPrefix(c.log, [e], d.replicas[i].index);
      SettledSame(c, d, t, i);
    }
  }

  lemma CreateInv(c: Cluster, t: nat, e: LogEntry)
    requires Inv(c) && HasTask(c, t) && c.tasks[t].phase == Chosen(e) && e.sequence > StoredAt(c.snapshot)
    ensures e.sequence in c.objects ==> Inv(WithPhase(c, t, Idle))
    ensures e.sequence !in c.objects ==> e.sequence == |c.log| + 1 && Inv(Appended(c, t, e))
  {
    Facts(c, t);
    if e.sequence in c.objects {
      NewPhaseInv(c, t, Idle);
    } else {
      FreeOnlyAtEnd(c, e, c.replicas[c.tasks[t].on].reached);
      AppendKeepsStore(c, Appended(c, t, e), e);
      AppendKeepsTasks(c, t, e);
      AppendKeepsReplicas(c, t, e);
      RefillsSame(c, t, e);
      hide StoreOk, TaskOk, ReplicaOk, OneRefill;
    }
  }

  lemma RefillsSame(c: Cluster, t: nat, e: LogEntry)
    requires OneRefill(c) && t in c.tasks
    ensures OneRefill(Appended(c, t, e))
  {
  }

  lemma StoreChangedInv(c: Cluster, d: Cluster)
    requires Inv(c) && d.log == c.log && d.replicas == c.replicas && d.tasks == c.tasks && StoreOk(d)
    requires forall q :: q in d.objects ==> q in c.objects
    ensures Inv(d)
  {
    forall u | u in d.tasks ensures TaskOk(d, u) {
      assert TaskOk(c, u);
      PhaseKept(c, d, d.tasks[u].phase, d.replicas[d.tasks[u].on], d.replicas[d.tasks[u].on]);
    }
    forall i | i in d.replicas ensures ReplicaOk(d, i) {
      assert ReplicaOk(c, i) && (Settled(d, i) <==> Settled(c, i));
    }
  }

  lemma PutSnapshotInv(c: Cluster, t: nat, s: Snapshot)
    requires Inv(c) && HasTask(c, t) && c.tasks[t].phase == Captured(s) && AllAbove(c.log, c.objects, s.sequence)
    ensures Inv(WithPhase(c, t, Pruning(s.sequence)).(snapshot := Some(s)))
  {
    hide Inv, StoreOk, SnapshotOfPrefix, ReplicaOk;
    Facts(c, t);
    var d := WithPhase(c, t, Pruning(s.sequence));
    NewPhaseInv(c, t, Pruning(s.sequence));
    StoreFacts(d);
    NewSnapshotOk(d, s);
    StoreChangedInv(d, d.(snapshot := Some(s)));
  }

  lemma NewSnapshotOk(c: Cluster, s: Snapshot)
    requires StoreOk(c) && SnapshotOfPrefix(c.log, s) && AllAbove(c.log, c.objects, s.sequence)
    ensures StoreOk(c.(snapshot := Some(s)))
  {
  }

  lemma PruneInv(c: Cluster, doomed: set<nat>)
    requires Inv(c) && forall d :: d in doomed ==> d <= StoredAt(c.snapshot)
    requires forall q, d :: q in c.objects && d in doomed && q <= d ==> q in doomed
    ensures Inv(c.(objects := c.objects - doomed))
  {
    assert StoreOk(c.(objects := c.objects - doomed));
    hide StoreOk, TaskOk, ReplicaOk;
    StoreChangedInv(c, c.(objects := c.objects - doomed));
  }

  lemma NewIndexInv(c: Cluster, i: nat, index: Index)
    requires Inv(c) && i !in c.replicas && ExactPrefix(c.log, index)
    ensures Inv(c.(replicas := c.replicas[i := Replica(index, index.sequence)]))
  {
    var d := c.(replicas := c.replicas[i := Replica(index, index.sequence)]);
    forall u | u in d.tasks ensures TaskOk(d, u) {
      assert TaskOk(c, u);
      PhaseKept(c, d, d.tasks[u].phase, c.replicas[d.tasks[u].on], d.replicas[d.tasks[u].on]);
    }
    forall j | j in d.replicas ensures ReplicaOk(d, j) {
      if j != i { assert ReplicaOk(c, j) && (Settled(d, j) <==> Settled(c, j)); }
    }
  }

  lemma SpawnInv(c: Cluster, t: nat, i: nat)
    requires Inv(c) && Enabled(c, Spawn(t, i))
    ensures Inv(Do(c, Spawn(t, i)))
  {
    var d := Do(c, Spawn(t, i));
    forall u | u in d.tasks ensures TaskOk(d, u) {
      if u != t {
        assert TaskOk(c, u);
        PhaseKept(c, d, d.tasks[u].phase, d.replicas[d.tasks[u].on], d.replicas[d.tasks[u].on]);
      }
    }
    forall j | j in d.replicas ensures ReplicaOk(d, j) {
      assert ReplicaOk(c, j);
      if Settled(d, j) {
        forall u | u in c.tasks && c.tasks[u].on == j ensures !c.tasks[u].phase.Cleared? {
          assert d.tasks[u] == c.tasks[u];
        }
      }
    }
  }

  lemma StartExact(c: Cluster)
    requires StoreOk(c)
    ensures ExactPrefix(c.log, Loaded(c.snapshot)) && Loaded(c.snapshot).sequence == StoredAt(c.snapshot)
  {
    if c.snapshot.Some? { LoadedExact(c.log, c.snapshot.value); } else { EmptyExact(c.log); }
  }

  lemma IndexStepInv(c: Cluster, a: Action)
    requires Inv(c) && Enabled(c, a) && Careful(c, a)
    requires a.Merge? || a.Clear? || a.Refill? || a.ApplyNext? || a.ApplyOwn?
    ensures Inv(Do(c, a))
  {
    hide Inv, Mergeable, IsSnapshotOf, Settled, Restore, Apply;
    match a
    case Merge(i, into, s) => MergeInv(c, i, into, s);
    case Clear(t) => ClearInv(c, t, c.tasks[t].phase.entries, c.tasks[t].phase.snapshot);
    case Refill(t) => RefillInv(c, t, c.tasks[t].phase.entries, c.tasks[t].phase.snapshot);
    case ApplyNext(t) => ApplyNextInv(c, t, c.tasks[t].phase.entries);
    case ApplyOwn(t) => ApplyOwnInv(c, t, c.tasks[t].phase.entry);
  }

  lemma StoreStepInv(c: Cluster, a: Action)
    requires Inv(c) && Enabled(c, a) && Careful(c, a) && (a.Create? || a.PutSnapshot? || a.Prune?)
    ensures Inv(Do(c, a))
  {
    hide Inv, AllAbove;
    match a
    case Create(t) => CreateInv(c, t, c.tasks[t].phase.entry);
    case PutSnapshot(t) => PutSnapshotInv(c, t, c.tasks[t].phase.snapshot);
    case Prune(_, doomed) => PruneInv(c, doomed);
  }

  lemma NewStepInv(c: Cluster, a: Action)
    requires Inv(c) && Enabled(c, a) && (a.Open? || a.Load? || a.Spawn?)
    ensures Inv(Do(c, a))
  {
    hide Inv, StoreOk, Loaded;
    match a
    case Open(i) =>
      EmptyExact(c.log);
      NewIndexInv(c, i, EMPTY);
    case Load(i) =>
      StoreFacts(c);
      StartExact(c);
      NewIndexInv(c, i, Loaded(c.snapshot));
    case Spawn(t, i) => SpawnInv(c, t, i);
  }

  lemma StepInv(c: Cluster, a: Action)
    requires Inv(c) && Enabled(c, a) && Careful(c, a)
    ensures Inv(Do(c, a))
  {
    hide Inv, Enabled, Careful, Do;
    match a
    case Open(_) => NewStepInv(c, a);
    case Load(_) => NewStepInv(c, a);
    case Spawn(_, _) => NewStepInv(c, a);
    case Merge(_, _, _) => IndexStepInv(c, a);
    case Clear(_) => IndexStepInv(c, a);
    case Refill(_) => IndexStepInv(c, a);
    case ApplyNext(_) => IndexStepInv(c, a);
    case ApplyOwn(_) => IndexStepInv(c, a);
    case Create(_) => StoreStepInv(c, a);
    case PutSnapshot(_) => StoreStepInv(c, a);
    case Prune(_, _) => StoreStepInv(c, a);
    case _ => PhaseStepInv(c, a);
  }

  lemma StoreFacts(c: Cluster)
    requires Inv(c)
    ensures StoreOk(c)
  {
  }

  lemma {:induction false} RunInv(c: Cluster, actions: seq<Action>)
    requires Inv(c) && CarefulRun(c, actions)
    ensures Run(c, actions) && Inv(After(c, actions)) && c.log <= After(c, actions).log
    decreases |actions|
  {
    if actions != [] {
      hide Inv, Careful, Enabled;
      LogGrows(c, actions[0]);
      StepInv(c, actions[0]);
      RunInv(Do(c, actions[0]), actions[1..]);
    }
  }

  lemma LogGrows(c: Cluster, a: Action)
    requires Enabled(c, a)
    ensures c.log <= Do(c, a).log
  {
  }

  // ---- Main results ----

  lemma FreshLoadExact(c: Cluster)
    requires StoreOk(c)
    ensures SameView(FreshLoad(c), Replay(EMPTY, c.log))
  {
    var ix := Loaded(c.snapshot);
    StartExact(c);
    hide Loaded, Replay, Above, SnapshotOfPrefix;
    AboveExact(c.log, c.objects, ix, ix.sequence, |c.log|);
    NoGapAbove(c, ix.sequence);
    assert c.log[..|c.log|] == c.log;
  }

  lemma NoGapAbove(c: Cluster, at: nat)
    requires Dense(c.log) && FromLog(c.log, c.objects) && AllAbove(c.log, c.objects, at)
    ensures !Gap(at, Above(c.objects, at, |c.log|))
  {
    AboveMembers(c.objects, at, |c.log|);
  }

  /**
   Over every careful run, however loads, merges, syncs, appends, rollups and prunes of any number of
   tasks interleave, on shared indexes or their own: every index is the exact replay of the committed
   log up to its position, no index falls back except while it is being refilled, and no committed
   entry is ever lost to a node starting afresh.
   */
  lemma CarefulRunsAreExact(actions: seq<Action>)
    requires CarefulRun(START, actions)
    ensures Run(START, actions)
    ensures var c := After(START, actions);
      && (forall i :: i in c.replicas ==> ExactPrefix(c.log, c.replicas[i].index))
      && (forall i :: i in c.replicas && Settled(c, i) ==> c.replicas[i].index.sequence == c.replicas[i].reached)
      && SameView(FreshLoad(c), Replay(EMPTY, c.log))
  {
    RunInv(START, actions);
    var c := After(START, actions);
    FreshLoadExact(c);
    forall i | i in c.replicas ensures ReplicaOk(c, i) {}
  }
}
