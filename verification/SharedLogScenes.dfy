/**
 Runs of the shared log put together from what single tasks do undisturbed, for a cast of two indexes
 and three tasks: one node's poller and publisher share its index; the other index is an author's, or
 one a load fills aside.
 */
module SharedLogScenes {
  import opened Wrappers
  import opened IndexModel
  import opened CommittedLog
  import opened SharedLog

  // ---- Playing runs ----

  /** The actions lead from one state to the other, each careful if so asked. */
  ghost predicate Plays(careful: bool, c: Cluster, actions: seq<Action>, d: Cluster) {
    Run(c, actions) && After(c, actions) == d && (careful ==> CarefulRun(c, actions))
  }

  lemma {:induction false} PlaysOn(careful: bool, c: Cluster, a: seq<Action>, d: Cluster, b: seq<Action>, e: Cluster)
    requires Plays(careful, c, a, d) && Plays(careful, d, b, e)
    ensures Plays(careful, c, a + b, e)
    decreases |a|
  {
    hide Enabled, Do, Careful;
    if a == [] {
      assert a + b == b;
    } else {
      assert (a + b)[1..] == a[1..] + b && (a + b)[0] == a[0];
      PlaysOn(careful, Do(c, a[0]), a[1..], d, b, e);
    }
  }

  lemma PlaysThen(careful: bool, c: Cluster, actions: seq<Action>, d: Cluster, a: Action)
    requires Plays(careful, c, actions, d) && Enabled(d, a) && (careful ==> Careful(d, a))
    ensures Plays(careful, c, actions + [a], Do(d, a))
  {
    hide Enabled, Do, Careful;
    assert [a][0] == a && [a][1..] == [];
    assert Plays(careful, Do(d, a), [], Do(d, a));
    PlaysOn(careful, c, actions, d, [a], Do(d, a));
  }

  /** A run that stays careful until a last step that need not be. */
  lemma PlaysUntil(c: Cluster, actions: seq<Action>, d: Cluster)
    requires Plays(true, c, actions, d)
    ensures Plays(false, c, actions, d)
  {
  }

  lemma PlaysMeans(careful: bool, c: Cluster, actions: seq<Action>, d: Cluster)
    requires Plays(careful, c, actions, d)
    ensures Run(c, actions) && After(c, actions) == d && (careful ==> CarefulRun(c, actions))
  {
  }

  lemma PlaysNothing(c: Cluster)
    ensures Plays(true, c, [], c)
  {
  }

  // ---- What one task does undisturbed ----

  function Reading(t: nat): seq<Action> { [] + [Aim(t)] + [List(t)] + [Check(t)] }

  lemma ReadPlays(c: Cluster, t: nat)
    requires HasTask(c, t) && c.tasks[t].phase.Idle?
    ensures var entries := Above(c.objects, IndexOf(c, t).sequence, |c.log|);
      Plays(true, c, Reading(t),
        WithPhase(c, t, if Gap(IndexOf(c, t).sequence, entries) then Gapped(entries) else Applying(entries)))
  {
    hide Above, Plays, Gap;
    var at := IndexOf(c, t).sequence;
    var entries := Above(c.objects, at, |c.log|);
    PlaysNothing(c);
    PlaysThen(true, c, [], c, Aim(t));
    PlaysThen(true, c, [] + [Aim(t)], WithPhase(c, t, Aimed(at)), List(t));
    assert Do(WithPhase(c, t, Aimed(at)), List(t)) == WithPhase(c, t, Listed(entries));
    PlaysThen(true, c, [] + [Aim(t)] + [List(t)], WithPhase(c, t, Listed(entries)), Check(t));
    var d := WithPhase(c, t, if Gap(at, entries) then Gapped(entries) else Applying(entries));
    assert Do(WithPhase(c, t, Listed(entries)), Check(t)) == d;
  }

  lemma FetchPlays(c: Cluster, t: nat)
    requires HasTask(c, t) && c.tasks[t].phase.Idle? && c.snapshot.Some?
    requires Gap(IndexOf(c, t).sequence, Above(c.objects, IndexOf(c, t).sequence, |c.log|))
    ensures Plays(true, c, Reading(t) + [Fetch(t)],
      WithPhase(c, t, Fetched(Above(c.objects, IndexOf(c, t).sequence, |c.log|), c.snapshot.value)))
  {
    hide Plays, Above, Gap;
    ReadPlays(c, t);
    var entries := Above(c.objects, IndexOf(c, t).sequence, |c.log|);
    PlaysThen(true, c, Reading(t), WithPhase(c, t, Gapped(entries)), Fetch(t));
    assert Do(WithPhase(c, t, Gapped(entries)), Fetch(t)) == WithPhase(c, t, Fetched(entries, c.snapshot.value));
  }

  function RollingUp(t: nat, s: Snapshot, doomed: set<nat>): seq<Action> {
    [] + [Capture(t, s)] + [PutSnapshot(t)] + [Prune(t, doomed)] + [Stop(t)]
  }

  lemma RollUpPlays(careful: bool, c: Cluster, t: nat, s: Snapshot, doomed: set<nat>)
    requires HasTask(c, t) && c.tasks[t].phase.Idle? && IsSnapshotOf(s, IndexOf(c, t))
    requires forall d :: d in doomed ==> d <= s.sequence
    requires AllAbove(c.log, c.objects, s.sequence)
    requires careful ==> forall q, d :: q in c.objects && d in doomed && q <= d ==> q in doomed
    ensures Plays(careful, c, RollingUp(t, s, doomed),
      WithPhase(c, t, Idle).(snapshot := Some(s), objects := c.objects - doomed))
  {
    hide Plays, IsSnapshotOf;
    PlaysNothing(c);
    if !careful { PlaysUntil(c, [], c); }
    PlaysThen(careful, c, [], c, Capture(t, s));
    var captured := WithPhase(c, t, Captured(s));
    PlaysThen(careful, c, [] + [Capture(t, s)], captured, PutSnapshot(t));
    var stored := WithPhase(c, t, Pruning(s.sequence)).(snapshot := Some(s));
    assert Do(captured, PutSnapshot(t)) == stored;
    PlaysThen(careful, c, [] + [Capture(t, s)] + [PutSnapshot(t)], stored, Prune(t, doomed));
    var pruned := stored.(objects := c.objects - doomed);
    PlaysThen(careful, c, [] + [Capture(t, s)] + [PutSnapshot(t)] + [Prune(t, doomed)], pruned, Stop(t));
    assert Do(pruned, Stop(t)) == WithPhase(c, t, Idle).(snapshot := Some(s), objects := c.objects - doomed);
  }

  function Resetting(t: nat): seq<Action> { [] + [Clear(t)] + [Refill(t)] }

  lemma ResetPlays(careful: bool, c: Cluster, t: nat)
    requires HasTask(c, t) && c.tasks[t].phase.Fetched? && (careful ==> Careful(c, Clear(t)))
    ensures Plays(careful, c, Resetting(t),
      Move(c, t, Restore(EMPTY, c.tasks[t].phase.snapshot), Applying(c.tasks[t].phase.entries)))
  {
    hide Plays, Restore;
    var entries, s := c.tasks[t].phase.entries, c.tasks[t].phase.snapshot;
    PlaysNothing(c);
    if !careful { PlaysUntil(c, [], c); }
    PlaysThen(careful, c, [], c, Clear(t));
    var cleared := Move(c, t, EMPTY, Cleared(entries, s));
    PlaysThen(careful, c, [] + [Clear(t)], cleared, Refill(t));
    assert cleared.replicas[c.tasks[t].on].reached == c.replicas[c.tasks[t].on].reached;
    assert Do(cleared, Refill(t)) == Move(c, t, Restore(EMPTY, s), Applying(entries));
  }

  function Finishing(t: nat): seq<Action> { [] + [ApplyNext(t)] + [Stop(t)] }

  lemma FinishPlays(c: Cluster, t: nat, e: LogEntry)
    requires HasTask(c, t) && c.tasks[t].phase == Applying([e]) && Settled(c, c.tasks[t].on)
    ensures Plays(true, c, Finishing(t), Move(c, t, Apply(IndexOf(c, t), e), Idle))
  {
    hide Plays, Apply;
    PlaysNothing(c);
    PlaysThen(true, c, [], c, ApplyNext(t));
    assert [e][1..] == [];
    var applied := Move(c, t, Apply(IndexOf(c, t), e), Applying([]));
    PlaysThen(true, c, [] + [ApplyNext(t)], applied, Stop(t));
    assert Do(applied, Stop(t)) == Move(c, t, Apply(IndexOf(c, t), e), Idle);
  }

  lemma ApplyNeverBack(ix: Index, e: LogEntry)
    ensures Apply(ix, e).sequence >= ix.sequence
  {
  }

  function Recovering(t: nat): seq<Action> { Resetting(t) + Finishing(t) }

  lemma RecoverPlays(c: Cluster, t: nat, e: LogEntry)
    requires HasTask(c, t) && c.tasks[t].phase.Fetched? && Careful(c, Clear(t)) && c.tasks[t].phase.entries == [e]
    ensures Plays(true, c, Recovering(t), Move(c, t, Apply(Restore(EMPTY, c.tasks[t].phase.snapshot), e), Idle))
  {
    hide Plays, Restore, Apply;
    var start := Restore(EMPTY, c.tasks[t].phase.snapshot);
    ResetPlays(true, c, t);
    var reset := Move(c, t, start, Applying([e]));
    FinishPlays(reset, t, e);
    ApplyNeverBack(start, e);
    var d := Move(reset, t, Apply(start, e), Idle);
    PlaysOn(true, c, Resetting(t), reset, Finishing(t), d);
    assert d == Move(c, t, Apply(start, e), Idle);
  }

  function Creating(t: nat, deltas: seq<Delta>): seq<Action> { [] + [Choose(t, deltas)] + [Create(t)] }

  lemma CreatePlays(c: Cluster, t: nat, e: LogEntry)
    requires HasTask(c, t) && c.tasks[t].phase.Idle? && e.deltas != []
    requires e.sequence == IndexOf(c, t).sequence + 1 == |c.log| + 1
    requires e.sequence !in c.objects && e.sequence > StoredAt(c.snapshot)
    ensures Plays(true, c, Creating(t, e.deltas),
      WithPhase(c, t, Created(e)).(log := c.log + [e], objects := c.objects[e.sequence := e]))
  {
    hide Plays;
    PlaysNothing(c);
    PlaysThen(true, c, [], c, Choose(t, e.deltas));
    var chosen := WithPhase(c, t, Chosen(e));
    PlaysThen(true, c, [] + [Choose(t, e.deltas)], chosen, Create(t));
    var created := WithPhase(c, t, Created(e)).(log := c.log + [e], objects := c.objects[e.sequence := e]);
    assert Do(chosen, Create(t)) == created;
  }

  function Appending(t: nat, deltas: seq<Delta>): seq<Action> { Creating(t, deltas) + [ApplyOwn(t)] }

  lemma AppendPlays(c: Cluster, t: nat, e: LogEntry)
    requires HasTask(c, t) && c.tasks[t].phase.Idle? && e.deltas != [] && Settled(c, c.tasks[t].on)
    requires e.sequence == IndexOf(c, t).sequence + 1 == |c.log| + 1
    requires e.sequence !in c.objects && e.sequence > StoredAt(c.snapshot)
    ensures Plays(true, c, Appending(t, e.deltas),
      Move(c.(log := c.log + [e], objects := c.objects[e.sequence := e]), t, Apply(IndexOf(c, t), e), Idle))
  {
    hide Apply, Plays;
    CreatePlays(c, t, e);
    var created := WithPhase(c, t, Created(e)).(log := c.log + [e], objects := c.objects[e.sequence := e]);
    PlaysThen(true, c, Creating(t, e.deltas), created, ApplyOwn(t));
    var d := Move(c.(log := c.log + [e], objects := c.objects[e.sequence := e]), t, Apply(IndexOf(c, t), e), Idle);
    assert Do(created, ApplyOwn(t)) == d;
  }

  // ---- The cast ----

  const OWN: nat := 0
  const OTHER: nat := 1
  const POLLER: nat := 1
  const PUBLISHER: nat := 2
  const AUTHOR: nat := 3

  datatype Scene = Scene(
    log: seq<LogEntry>,
    objects: map<nat, LogEntry>,
    snapshot: Option<Snapshot>,
    own: Index,
    other: Index,
    poller: Phase,
    publisher: Phase,
    author: Phase)

  ghost predicate Shows(c: Cluster, s: Scene) {
    && c.log == s.log && c.objects == s.objects && c.snapshot == s.snapshot
    && c.replicas.Keys == {OWN, OTHER} && c.replicas[OWN].index == s.own && c.replicas[OTHER].index == s.other
    && c.tasks.Keys == {POLLER, PUBLISHER, AUTHOR}
    && c.tasks[POLLER] == Task(OWN, s.poller)
    && c.tasks[PUBLISHER] == Task(OWN, s.publisher)
    && c.tasks[AUTHOR] == Task(OTHER, s.author)
  }

  const NOTHING := Scene([], map[], None, EMPTY, EMPTY, Idle, Idle, Idle)

  /** Two indexes, one of them perhaps a load's, and three tasks. */
  function Opening(other: Action): seq<Action> {
    [] + [Open(OWN)] + [other] + [Spawn(POLLER, OWN)] + [Spawn(PUBLISHER, OWN)] + [Spawn(AUTHOR, OTHER)]
  }

  lemma OpeningPlays(other: Action) returns (c: Cluster)
    requires other == Open(OTHER) || other == Load(OTHER)
    ensures Plays(true, START, Opening(other), c) && Shows(c, NOTHING)
  {
    hide Plays;
    PlaysNothing(START);
    PlaysThen(true, START, [], START, Open(OWN));
    var c1 := Do(START, Open(OWN));
    PlaysThen(true, START, [] + [Open(OWN)], c1, other);
    var c2 := Do(c1, other);
    PlaysThen(true, START, [] + [Open(OWN)] + [other], c2, Spawn(POLLER, OWN));
    var c3 := Do(c2, Spawn(POLLER, OWN));
    PlaysThen(true, START, [] + [Open(OWN)] + [other] + [Spawn(POLLER, OWN)], c3, Spawn(PUBLISHER, OWN));
    var c4 := Do(c3, Spawn(PUBLISHER, OWN));
    PlaysThen(true, START, [] + [Open(OWN)] + [other] + [Spawn(POLLER, OWN)] + [Spawn(PUBLISHER, OWN)], c4,
      Spawn(AUTHOR, OTHER));
    c := Do(c4, Spawn(AUTHOR, OTHER));
  }
}
