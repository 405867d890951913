/**
 Runs of the shared log that lose data, each from an empty store. Every step up to the one that is
 not careful is careful.
 */
module SharedLogFailures {
  import opened Wrappers
  import opened ParquetFiles
  import opened IndexModel
  import opened IndexReading
  import opened CommittedLog
  import opened IndexMerge
  import opened InterruptedReset
  import opened SharedLog
  import opened SharedLogScenes

  // ---- The entries ----

  const KEY := TableKey("n", 0, 0)
  const FILE := ParquetFile(0, "p", 0, 0, 0, 0, 0)
  const E1 := LogEntry(1, [Delta(KEY, 1, [], [])])
  const E2 := LogEntry(2, [Delta(KEY, 2, [FILE], [])])
  const E3 := LogEntry(3, [Delta(KEY, 3, [], [])])
  const S1 := Snapshot(1, [], [("n", 1)], [])
  const S2 := Snapshot(2, [SnapshotEntry(KEY, FILE, 2)], [("n", 2)], [("n", 0)])
  const IX1 := Apply(EMPTY, E1)
  const IX2 := Apply(IX1, E2)

  lemma ApplyOne(ix: Index, e: LogEntry)
    requires |e.deltas| == 1 && e.sequence > ix.sequence
    ensures Apply(ix, e) == ApplyDelta(ix, e.deltas[0], e.sequence).(sequence := e.sequence)
  {
    var next := ApplyDelta(ix, e.deltas[0], e.sequence);
    assert ApplyDeltas(next, e.deltas[1..], e.sequence) == next;
  }

  lemma AddOne(files: seq<IndexedFile>, f: ParquetFile, at: nat)
    ensures AddAll(files, [f], at) == PushNew(files, IndexedFile(f, at)) && HighestTime([f]) == Some(f.maxTime)
  {
    assert [f][1..] == [];
  }

  lemma FirstIndex()
    ensures IX1.sequence == 1 && IsSnapshotOf(S1, IX1)
    ensures Restore(EMPTY, S1).sequence == 1
  {
    ApplyOne(EMPTY, E1);
    assert IX1.tables == map[KEY := []] && IX1.watermarks == map["n" := 1] && IX1.maxTimes == map[];
  }

  lemma SecondIndex()
    ensures IX2.sequence == 2 && IsSnapshotOf(S2, IX2) && HasPath(Files(IX2, KEY), "p")
    ensures Apply(IX2, E3).sequence == 3
  {
    ApplyOne(EMPTY, E1);
    ApplyOne(IX1, E2);
    assert Files(IX1, KEY) == [] && PushNew([], IndexedFile(FILE, 2)) == [IndexedFile(FILE, 2)];
    AddOne([], FILE, 2);
    assert IX2.tables == map[KEY := [IndexedFile(FILE, 2)]];
    assert IX2.watermarks == map["n" := 2] && IX2.maxTimes == map["n" := 0];
    assert Files(IX2, KEY)[0].file.path == "p";
  }

  // ---- An append below the snapshot ----

  function FirstRollUp(): seq<Action> {
    Opening(Open(OTHER)) + Appending(AUTHOR, E1.deltas) + RollingUp(AUTHOR, S1, {1})
  }

  const ROLLED_UP := NOTHING.(log := [E1], snapshot := Some(S1), other := IX1)

  lemma FirstEntryPlays() returns (c: Cluster)
    ensures Plays(true, START, Opening(Open(OTHER)) + Appending(AUTHOR, E1.deltas), c)
    ensures Shows(c, NOTHING.(log := [E1], objects := map[1 := E1], other := IX1))
  {
    hide Plays, Apply;
    var c1 := OpeningPlays(Open(OTHER));
    AppendPlays(c1, AUTHOR, E1);
    c := Move(c1.(log := [E1], objects := map[1 := E1]), AUTHOR, IX1, Idle);
    assert c1.log + [E1] == [E1] && c1.objects[1 := E1] == map[1 := E1];
    PlaysOn(true, START, Opening(Open(OTHER)), c1, Appending(AUTHOR, E1.deltas), c);
  }

  lemma FirstRollUpPlays() returns (c: Cluster)
    ensures Plays(true, START, FirstRollUp(), c) && Shows(c, ROLLED_UP)
  {
    hide Plays, Apply, IsSnapshotOf;
    FirstIndex();
    var c2 := FirstEntryPlays();
    RollUpPlays(true, c2, AUTHOR, S1, {1});
    c := WithPhase(c2, AUTHOR, Idle).(snapshot := Some(S1), objects := c2.objects - {1});
    PlaysOn(true, START, Opening(Open(OTHER)) + Appending(AUTHOR, E1.deltas), c2, RollingUp(AUTHOR, S1, {1}), c);
  }

  function StaleAppend(deltas: seq<Delta>): seq<Action> {
    FirstRollUp() + Reading(PUBLISHER) + [Stop(PUBLISHER)] + [Choose(PUBLISHER, deltas)]
  }

  /**
   Once another node has rolled up and pruned the whole log, a node that had not caught up sees
   nothing to sync, yet its next append finds its object free and lands below the snapshot, whatever
   it holds.
   */
  lemma StaleAppendReachable(deltas: seq<Delta>)
    requires deltas != []
    ensures CarefulRun(START, StaleAppend(deltas)) && Run(START, StaleAppend(deltas))
    ensures var c := After(START, StaleAppend(deltas));
      && Enabled(c, Create(PUBLISHER)) && !Careful(c, Create(PUBLISHER))
      && c.tasks[PUBLISHER].phase.entry == LogEntry(1, deltas) && 1 !in c.objects
  {
    hide Plays, Apply;
    var c1 := FirstRollUpPlays();
    AboveNone(c1.objects, 0, 1);
    ReadPlays(c1, PUBLISHER);
    var c2 := WithPhase(c1, PUBLISHER, Applying([]));
    PlaysOn(true, START, FirstRollUp(), c1, Reading(PUBLISHER), c2);
    PlaysThen(true, START, FirstRollUp() + Reading(PUBLISHER), c2, Stop(PUBLISHER));
    var c3 := WithPhase(c2, PUBLISHER, Idle);
    PlaysThen(true, START, FirstRollUp() + Reading(PUBLISHER) + [Stop(PUBLISHER)], c3, Choose(PUBLISHER, deltas));
    PlaysMeans(true, START, StaleAppend(deltas), Do(c3, Choose(PUBLISHER, deltas)));
  }

  // ---- A reset that goes back ----

  const RESET1 := Restore(EMPTY, S1)
  const RESET2 := Apply(RESET1, E2)
  const SKIPPED := Apply(RESET1, E3)

  lemma WholeLog()
    ensures Replay(EMPTY, [E1, E2, E3]) == Apply(IX2, E3) && HasPath(Files(Apply(IX2, E3), KEY), "p")
  {
    assert Replay(IX2, [E3]) == Replay(Apply(IX2, E3), []);
    assert [E1, E2, E3][1..] == [E2, E3] && [E2, E3][1..] == [E3];
    SecondIndex();
    ApplyOne(IX2, E3);
    RetainHasPath(Files(IX2, KEY), [], "p");
  }

  lemma SkippedIndex()
    ensures RESET2.sequence == 2 && SKIPPED.sequence == 3 && Apply(SKIPPED, E2) == SKIPPED
    ensures !HasPath(Files(SKIPPED, KEY), "p")
  {
    ApplyOne(RESET1, E2);
    ApplyOne(RESET1, E3);
  }

  lemma SecondListed()
    ensures Above(map[2 := E2], 0, 2) == [E2]
  {
    assert Above(map[2 := E2], 0, 1) == [];
  }

  function BothFetch(): seq<Action> {
    FirstRollUp() + Appending(AUTHOR, E2.deltas)
    + (Reading(POLLER) + [Fetch(POLLER)]) + (Reading(PUBLISHER) + [Fetch(PUBLISHER)])
  }

  const FETCHED := ROLLED_UP.(
    log := [E1, E2],
    objects := map[2 := E2],
    other := IX2,
    poller := Fetched([E2], S1),
    publisher := Fetched([E2], S1))

  lemma SecondAppendPlays(c: Cluster) returns (d: Cluster)
    requires Plays(true, START, FirstRollUp(), c) && Shows(c, ROLLED_UP)
    ensures Plays(true, START, FirstRollUp() + Appending(AUTHOR, E2.deltas), d)
    ensures Shows(d, ROLLED_UP.(log := [E1, E2], objects := map[2 := E2], other := IX2))
  {
    hide Plays, Apply;
    FirstIndex();
    AppendPlays(c, AUTHOR, E2);
    d := Move(c.(log := [E1, E2], objects := map[2 := E2]), AUTHOR, IX2, Idle);
    assert c.log + [E2] == [E1, E2] && c.objects[2 := E2] == map[2 := E2];
    PlaysOn(true, START, FirstRollUp(), c, Appending(AUTHOR, E2.deltas), d);
  }

  lemma BothFetchPlays() returns (c: Cluster)
    ensures Plays(true, START, BothFetch(), c) && Shows(c, FETCHED)
  {
    hide Plays, Apply, Above;
    SecondListed();
    var c1 := FirstRollUpPlays();
    var c2 := SecondAppendPlays(c1);
    FetchPlays(c2, POLLER);
    var c3 := WithPhase(c2, POLLER, Fetched([E2], S1));
    PlaysOn(true, START, FirstRollUp() + Appending(AUTHOR, E2.deltas), c2, Reading(POLLER) + [Fetch(POLLER)], c3);
    FetchPlays(c3, PUBLISHER);
    c := WithPhase(c3, PUBLISHER, Fetched([E2], S1));
    PlaysOn(true, START, FirstRollUp() + Appending(AUTHOR, E2.deltas) + (Reading(POLLER) + [Fetch(POLLER)]), c3,
      Reading(PUBLISHER) + [Fetch(PUBLISHER)], c);
  }

  /** The publisher recovers and creates an object while the poller waits with what it fetched. */
  function PublisherFirst(): seq<Action> {
    BothFetch() + Recovering(PUBLISHER) + Creating(PUBLISHER, E3.deltas)
  }

  const PUBLISHED := FETCHED.(
    log := [E1, E2, E3],
    objects := map[2 := E2, 3 := E3],
    own := RESET2,
    publisher := Created(E3))

  lemma PublisherFirstPlays() returns (c: Cluster)
    ensures Plays(true, START, PublisherFirst(), c) && Shows(c, PUBLISHED)
  {
    hide Plays, Apply, Restore;
    FirstIndex();
    SkippedIndex();
    var c1 := BothFetchPlays();
    RecoverPlays(c1, PUBLISHER, E2);
    var c2 := Move(c1, PUBLISHER, RESET2, Idle);
    assert Shows(c2, FETCHED.(own := RESET2, publisher := Idle));
    PlaysOn(true, START, BothFetch(), c1, Recovering(PUBLISHER), c2);
    CreatePlays(c2, PUBLISHER, E3);
    c := WithPhase(c2, PUBLISHER, Created(E3)).(log := [E1, E2, E3], objects := map[2 := E2, 3 := E3]);
    assert c2.log + [E3] == [E1, E2, E3] && c2.objects[3 := E3] == map[2 := E2, 3 := E3];
    PlaysOn(true, START, BothFetch() + Recovering(PUBLISHER), c2, Creating(PUBLISHER, E3.deltas), c);
  }

  /** The poller resets with what it fetched, then both tasks apply what they have. */
  function PollerResets(): seq<Action> {
    PublisherFirst() + Resetting(POLLER) + [ApplyOwn(PUBLISHER)] + [ApplyNext(POLLER)]
  }

  lemma PollerResetsPlays(c: Cluster) returns (d: Cluster)
    requires Plays(true, START, PublisherFirst(), c) && Shows(c, PUBLISHED)
    ensures Plays(false, START, PollerResets(), d)
    ensures Shows(d, PUBLISHED.(own := SKIPPED, poller := Applying([]), publisher := Idle))
  {
    hide Plays, Apply, Restore;
    SkippedIndex();
    var before := PublisherFirst();
    PlaysUntil(START, before, c);
    ResetPlays(false, c, POLLER);
    var c1 := Move(c, POLLER, RESET1, Applying([E2]));
    PlaysOn(false, START, before, c, Resetting(POLLER), c1);
    PlaysThen(false, START, before + Resetting(POLLER), c1, ApplyOwn(PUBLISHER));
    var c2 := Move(c1, PUBLISHER, SKIPPED, Idle);
    PlaysThen(false, START, before + Resetting(POLLER) + [ApplyOwn(PUBLISHER)], c2, ApplyNext(POLLER));
    d := Move(c2, POLLER, SKIPPED, Applying([]));
    assert [E2][1..] == [];
  }

  /** An index at the end of the log that differs from its replay in what a table lists. */
  lemma NotExact(log: seq<LogEntry>, ix: Index)
    requires ix.sequence == |log|
    requires HasPath(Files(ix, KEY), "p") != HasPath(Files(Replay(EMPTY, log), KEY), "p")
    ensures !ExactPrefix(log, ix)
  {
    hide HasPath, Replay;
    assert log[..|log|] == log;
  }

  lemma SkippedEnd(d: Cluster)
    requires Shows(d, PUBLISHED.(own := SKIPPED, poller := Applying([]), publisher := Idle))
    ensures d.replicas[OWN].index.sequence == |d.log| && Settled(d, OWN)
    ensures HasPath(Files(Replay(EMPTY, d.log), KEY), "p") && !HasPath(Files(d.replicas[OWN].index, KEY), "p")
    ensures !ExactPrefix(d.log, d.replicas[OWN].index)
  {
    hide Apply, Restore, Replay, HasPath;
    SkippedIndex();
    WholeLog();
    NotExact(d.log, d.replicas[OWN].index);
  }

  lemma ResetCareless(c: Cluster)
    requires Shows(c, PUBLISHED)
    ensures Enabled(c, Clear(POLLER)) && !Careful(c, Clear(POLLER))
  {
    hide Apply, Restore;
    SkippedIndex();
  }

  /**
   A reset with a snapshot the index is already past loses entries: the publisher's own entry then
   takes the index past an entry it no longer holds, and the poller's copy of that is ignored.
   */
  lemma ResetSkipsEntry()
    ensures CarefulRun(START, PublisherFirst()) && Run(START, PublisherFirst()) && Run(START, PollerResets())
    ensures var c := After(START, PublisherFirst()); Enabled(c, Clear(POLLER)) && !Careful(c, Clear(POLLER))
    ensures var c := After(START, PollerResets());
      && OWN in c.replicas && c.replicas[OWN].index.sequence == |c.log| && Settled(c, OWN)
      && HasPath(Files(Replay(EMPTY, c.log), KEY), "p") && !HasPath(Files(c.replicas[OWN].index, KEY), "p")
      && !ExactPrefix(c.log, c.replicas[OWN].index)
  {
    hide Plays, Enabled, Careful, Run, CarefulRun, After, Settled, HasPath, ExactPrefix;
    var c := PublisherFirstPlays();
    var d := PollerResetsPlays(c);
    PlaysMeans(true, START, PublisherFirst(), c);
    PlaysMeans(false, START, PollerResets(), d);
    ResetCareless(c);
    SkippedEnd(d);
  }

  // ---- An append applied to a half-reset index ----

  const E3R := LogEntry(3, [Delta(KEY, 3, [], ["p"])])
  const HALF := Restore(Apply(EMPTY, E3R), S2)

  lemma HalfIndex()
    ensures HALF.sequence == 3 && HasPath(Files(HALF, KEY), "p") && Apply(HALF, E2) == HALF
    ensures !HasPath(Files(Replay(EMPTY, [E1, E2, E3R]), KEY), "p")
  {
    ApplyOne(EMPTY, E3R);
    RestoredFiles(Apply(EMPTY, E3R), S2, KEY);
    assert Files(Apply(EMPTY, E3R), KEY) == [];
    assert IndexModel.Listed(S2.files, KEY) == [IndexedFile(FILE, 2)];
    assert Files(HALF, KEY)[0].file.path == "p";
    assert Replay(IX2, [E3R]) == Replay(Apply(IX2, E3R), []);
    assert [E1, E2, E3R][1..] == [E2, E3R] && [E2, E3R][1..] == [E3R];
    SecondIndex();
    ApplyOne(IX2, E3R);
    RetainHasPath(Files(IX2, KEY), ["p"], "p");
  }

  /** The poller finds entries missing and the publisher recovers first. */
  function CaughtUp(): seq<Action> {
    FirstRollUp() + Appending(AUTHOR, E2.deltas) + Reading(POLLER)
    + (Reading(PUBLISHER) + [Fetch(PUBLISHER)]) + Recovering(PUBLISHER)
  }

  const CAUGHT_UP := ROLLED_UP.(
    log := [E1, E2],
    objects := map[2 := E2],
    own := RESET2,
    other := IX2,
    poller := Gapped([E2]))

  lemma CaughtUpPlays() returns (c: Cluster)
    ensures Plays(true, START, CaughtUp(), c) && Shows(c, CAUGHT_UP)
  {
    hide Plays, Apply, Above, Restore;
    FirstIndex();
    SecondListed();
    SkippedIndex();
    var c1 := FirstRollUpPlays();
    var before := FirstRollUp() + Appending(AUTHOR, E2.deltas);
    var c2 := SecondAppendPlays(c1);
    ReadPlays(c2, POLLER);
    var c3 := WithPhase(c2, POLLER, Gapped([E2]));
    PlaysOn(true, START, before, c2, Reading(POLLER), c3);
    FetchPlays(c3, PUBLISHER);
    var c4 := WithPhase(c3, PUBLISHER, Fetched([E2], S1));
    PlaysOn(true, START, before + Reading(POLLER), c3, Reading(PUBLISHER) + [Fetch(PUBLISHER)], c4);
    RecoverPlays(c4, PUBLISHER, E2);
    c := Move(c4, PUBLISHER, RESET2, Idle);
    PlaysOn(true, START, before + Reading(POLLER) + (Reading(PUBLISHER) + [Fetch(PUBLISHER)]), c4,
      Recovering(PUBLISHER), c);
  }

  /** Another node rolls up, the publisher creates an object, and the poller empties the index. */
  function HalfReset(): seq<Action> {
    CaughtUp() + RollingUp(AUTHOR, S2, {}) + [Fetch(POLLER)] + Creating(PUBLISHER, E3R.deltas) + [Clear(POLLER)]
  }

  const HALF_RESET := Scene(
    [E1, E2, E3R], map[2 := E2, 3 := E3R], Some(S2), EMPTY, IX2, Cleared([E2], S2), Created(E3R), Idle)

  lemma SecondRollUpPlays() returns (c: Cluster)
    ensures Plays(true, START, CaughtUp() + RollingUp(AUTHOR, S2, {}) + [Fetch(POLLER)], c)
    ensures Shows(c, CAUGHT_UP.(snapshot := Some(S2), poller := Fetched([E2], S2)))
  {
    hide Plays, Apply, Restore, IsSnapshotOf;
    SecondIndex();
    var c1 := CaughtUpPlays();
    RollUpPlays(true, c1, AUTHOR, S2, {});
    var c2 := WithPhase(c1, AUTHOR, Idle).(snapshot := Some(S2), objects := map[2 := E2]);
    assert c1.objects - {} == map[2 := E2];
    PlaysOn(true, START, CaughtUp(), c1, RollingUp(AUTHOR, S2, {}), c2);
    PlaysThen(true, START, CaughtUp() + RollingUp(AUTHOR, S2, {}), c2, Fetch(POLLER));
    c := WithPhase(c2, POLLER, Fetched([E2], S2));
  }

  lemma HalfResetPlays() returns (c: Cluster)
    ensures Plays(true, START, HalfReset(), c) && Shows(c, HALF_RESET)
  {
    hide Plays, Apply, Restore;
    SkippedIndex();
    var before := CaughtUp() + RollingUp(AUTHOR, S2, {}) + [Fetch(POLLER)];
    var c1 := SecondRollUpPlays();
    CreatePlays(c1, PUBLISHER, E3R);
    var c2 := WithPhase(c1, PUBLISHER, Created(E3R)).(log := [E1, E2, E3R], objects := map[2 := E2, 3 := E3R]);
    assert c1.log + [E3R] == [E1, E2, E3R] && c1.objects[3 := E3R] == map[2 := E2, 3 := E3R];
    PlaysOn(true, START, before, c1, Creating(PUBLISHER, E3R.deltas), c2);
    PlaysThen(true, START, before + Creating(PUBLISHER, E3R.deltas), c2, Clear(POLLER));
    c := Move(c2, POLLER, EMPTY, Cleared([E2], S2));
  }

  function Interrupted(): seq<Action> {
    HalfReset() + [ApplyOwn(PUBLISHER)] + [Refill(POLLER)] + [ApplyNext(POLLER)]
  }

  lemma InterruptedPlays(c: Cluster) returns (d: Cluster)
    requires Plays(true, START, HalfReset(), c) && Shows(c, HALF_RESET)
    ensures Plays(false, START, Interrupted(), d)
    ensures Shows(d, HALF_RESET.(own := HALF, poller := Applying([]), publisher := Idle))
  {
    hide Plays, Apply, Restore;
    HalfIndex();
    PlaysUntil(START, HalfReset(), c);
    PlaysThen(false, START, HalfReset(), c, ApplyOwn(PUBLISHER));
    var c1 := Move(c, PUBLISHER, Apply(EMPTY, E3R), Idle);
    PlaysThen(false, START, HalfReset() + [ApplyOwn(PUBLISHER)], c1, Refill(POLLER));
    var c2 := Move(c1, POLLER, HALF, Applying([E2]));
    PlaysThen(false, START, HalfReset() + [ApplyOwn(PUBLISHER)] + [Refill(POLLER)], c2, ApplyNext(POLLER));
    d := Move(c2, POLLER, HALF, Applying([]));
    assert [E2][1..] == [];
  }

  /** Of three entries applied between the halves of a reset to the second snapshot, two do no harm. */
  lemma HarmlessInterruptions()
    ensures Undisturbed(E1, S2) && Undisturbed(E3, S2) && !Undisturbed(E3R, S2)
  {
    ApplyOne(EMPTY, E1);
    forall k ensures Files(Alone(E1), k) <= Files(Restore(EMPTY, S2), k) { assert Files(Alone(E1), k) == []; }
    forall k ensures Beside(Files(Restore(EMPTY, S2), k), Events(E3.deltas, 3), k) { OneEvent(E3, k); }
    RestoredFiles(EMPTY, S2, KEY);
    assert IndexModel.Listed(S2.files, KEY) == [IndexedFile(FILE, 2)];
    assert PushNew([], IndexedFile(FILE, 2)) == [IndexedFile(FILE, 2)];
    OneEvent(E3R, KEY);
    var x := IndexedFile(FILE, 2);
    assert x in Files(Restore(EMPTY, S2), KEY);
    assert RemovesPath(Events(E3R.deltas, 3)[0], KEY, "p");
    assert !HasPath(Fold([], Events(E3R.deltas, 3), KEY), "p");
  }

  lemma OneEvent(e: LogEntry, k: TableKey)
    requires |e.deltas| == 1 && e.deltas[0].added == []
    ensures Fold([], Events(e.deltas, e.sequence), k) == []
    ensures forall p :: RemovedIn(Events(e.deltas, e.sequence), k, p) <==>
      e.deltas[0].key == k && p in e.deltas[0].removed
  {
    var h := Events(e.deltas, e.sequence);
    assert h == [Event(e.deltas[0], e.sequence)] && h[..0] == [];
    assert Fold([], h[..0], k) == [];
    forall p | e.deltas[0].key == k && p in e.deltas[0].removed ensures RemovedIn(h, k, p) {
      assert RemovesPath(h[0], k, p);
    }
  }

  lemma HalfEnd(d: Cluster)
    requires Shows(d, HALF_RESET.(own := HALF, poller := Applying([]), publisher := Idle))
    ensures d.replicas[OWN].index.sequence == |d.log| && Settled(d, OWN)
    ensures HasPath(Files(d.replicas[OWN].index, KEY), "p") && !HasPath(Files(Replay(EMPTY, d.log), KEY), "p")
    ensures !ExactPrefix(d.log, d.replicas[OWN].index)
  {
    hide Apply, Restore, Replay, HasPath;
    HalfIndex();
    NotExact(d.log, d.replicas[OWN].index);
  }

  lemma InterruptionCareless(c: Cluster)
    requires Shows(c, HALF_RESET)
    ensures Enabled(c, ApplyOwn(PUBLISHER)) && !Careful(c, ApplyOwn(PUBLISHER))
  {
    assert c.tasks[POLLER].phase.Cleared?;
  }

  /** An entry applied between the two halves of a reset removes nothing, and what it removed comes back. */
  lemma InterruptedResetRevives()
    ensures CarefulRun(START, HalfReset()) && Run(START, HalfReset()) && Run(START, Interrupted())
    ensures var c := After(START, HalfReset()); Enabled(c, ApplyOwn(PUBLISHER)) && !Careful(c, ApplyOwn(PUBLISHER))
    ensures var c := After(START, Interrupted());
      && OWN in c.replicas && c.replicas[OWN].index.sequence == |c.log| && Settled(c, OWN)
      && HasPath(Files(c.replicas[OWN].index, KEY), "p") && !HasPath(Files(Replay(EMPTY, c.log), KEY), "p")
      && !ExactPrefix(c.log, c.replicas[OWN].index)
  {
    hide Plays, Enabled, Careful, Run, CarefulRun, After, Settled, HasPath, ExactPrefix;
    var c := HalfResetPlays();
    var d := InterruptedPlays(c);
    PlaysMeans(true, START, HalfReset(), c);
    PlaysMeans(false, START, Interrupted(), d);
    InterruptionCareless(c);
    HalfEnd(d);
  }

  // ---- Merging a load into an index that moved meanwhile ----

  const A1 := LogEntry(1, [Delta(KEY, 1, [FILE], [])])
  const A2 := LogEntry(2, [Delta(KEY, 2, [], ["p"])])
  const ADDED := Apply(EMPTY, A1)
  const REMOVED := Apply(ADDED, A2)
  const ADDED_SNAPSHOT := Snapshot(1, [SnapshotEntry(KEY, FILE, 1)], [("n", 1)], [("n", 0)])
  const REMOVED_SNAPSHOT := Snapshot(2, [], [("n", 2)], [("n", 0)])

  lemma AddedThenRemoved()
    ensures ADDED.sequence == 1 && HasPath(Files(ADDED, KEY), "p") && IsSnapshotOf(ADDED_SNAPSHOT, ADDED)
    ensures REMOVED.sequence == 2 && !HasPath(Files(REMOVED, KEY), "p") && IsSnapshotOf(REMOVED_SNAPSHOT, REMOVED)
    ensures Replay(EMPTY, [A1, A2]) == REMOVED
  {
    ApplyOne(EMPTY, A1);
    assert Files(EMPTY, KEY) == [] && PushNew([], IndexedFile(FILE, 1)) == [IndexedFile(FILE, 1)];
    AddOne([], FILE, 1);
    assert ADDED.tables == map[KEY := [IndexedFile(FILE, 1)]];
    assert ADDED.watermarks == map["n" := 1] && ADDED.maxTimes == map["n" := 0];
    assert Files(ADDED, KEY)[0].file.path == "p";
    ApplyOne(ADDED, A2);
    RetainHasPath(Files(ADDED, KEY), ["p"], "p");
    assert Retain([IndexedFile(FILE, 1)], ["p"]) == [];
    assert REMOVED.tables == map[KEY := []];
    assert REMOVED.watermarks == map["n" := 2] && REMOVED.maxTimes == map["n" := 0];
    assert [A1, A2][1..] == [A2] && Replay(ADDED, [A2]) == Replay(REMOVED, []);
  }

  lemma FirstListed()
    ensures Above(map[1 := A1], 0, 1) == [A1] && Above(map[1 := E1], 0, 1) == [E1]
    ensures Above(map[1 := A1, 2 := A2], 0, 2) == [A1, A2]
  {
    assert Above(map[1 := A1, 2 := A2], 0, 1) == [A1];
  }

  /** A load reads the first entry; the publisher, which appended it, then appends its removal. */
  function LoadBehind(): seq<Action> {
    Opening(Load(OTHER)) + Appending(PUBLISHER, A1.deltas) + Reading(AUTHOR) + Finishing(AUTHOR)
    + Appending(PUBLISHER, A2.deltas)
  }

  lemma AddedPlays() returns (c: Cluster)
    ensures Plays(true, START, Opening(Load(OTHER)) + Appending(PUBLISHER, A1.deltas), c)
    ensures Shows(c, NOTHING.(log := [A1], objects := map[1 := A1], own := ADDED))
  {
    hide Plays, Apply;
    AddedThenRemoved();
    var c1 := OpeningPlays(Load(OTHER));
    AppendPlays(c1, PUBLISHER, A1);
    c := Move(c1.(log := [A1], objects := map[1 := A1]), PUBLISHER, ADDED, Idle);
    assert c1.log + [A1] == [A1] && c1.objects[1 := A1] == map[1 := A1];
    PlaysOn(true, START, Opening(Load(OTHER)), c1, Appending(PUBLISHER, A1.deltas), c);
  }

  const LOADED_BEHIND := NOTHING.(log := [A1, A2], objects := map[1 := A1, 2 := A2], own := REMOVED, other := ADDED)

  lemma LoadBehindPlays() returns (c: Cluster)
    ensures Plays(true, START, LoadBehind(), c) && Shows(c, LOADED_BEHIND)
  {
    hide Plays, Apply, Above;
    AddedThenRemoved();
    FirstListed();
    var before := Opening(Load(OTHER)) + Appending(PUBLISHER, A1.deltas);
    var c1 := AddedPlays();
    ReadPlays(c1, AUTHOR);
    var c2 := WithPhase(c1, AUTHOR, Applying([A1]));
    PlaysOn(true, START, before, c1, Reading(AUTHOR), c2);
    FinishPlays(c2, AUTHOR, A1);
    var c3 := Move(c2, AUTHOR, ADDED, Idle);
    PlaysOn(true, START, before + Reading(AUTHOR), c2, Finishing(AUTHOR), c3);
    AppendPlays(c3, PUBLISHER, A2);
    c := Move(c3.(log := [A1, A2], objects := map[1 := A1, 2 := A2]), PUBLISHER, REMOVED, Idle);
    assert c3.log + [A2] == [A1, A2] && c3.objects[2 := A2] == map[1 := A1, 2 := A2];
    PlaysOn(true, START, before + Reading(AUTHOR) + Finishing(AUTHOR), c3, Appending(PUBLISHER, A2.deltas), c);
  }

  /** Merging a load into an index that has meanwhile applied a removal brings the removed file back. */
  lemma MergeRevives()
    ensures CarefulRun(START, LoadBehind()) && Run(START, LoadBehind())
    ensures var c, a := After(START, LoadBehind()), Merge(OTHER, OWN, ADDED_SNAPSHOT);
      && Enabled(c, a) && !Careful(c, a)
      && var d := Do(c, a);
        && d.replicas[OWN].index.sequence == |d.log| && HasPath(Files(d.replicas[OWN].index, KEY), "p")
        && !HasPath(Files(Replay(EMPTY, d.log), KEY), "p") && !ExactPrefix(d.log, d.replicas[OWN].index)
  {
    hide Plays, Apply, Replay, Run, CarefulRun, After, IsSnapshotOf;
    AddedThenRemoved();
    var c := LoadBehindPlays();
    PlaysMeans(true, START, LoadBehind(), c);
    RestoredFiles(REMOVED, ADDED_SNAPSHOT, KEY);
    var merged := Restore(REMOVED, ADDED_SNAPSHOT);
    PushNewHasPath(Files(REMOVED, KEY), IndexedFile(FILE, 1), "p");
    assert c.log[..2] == c.log;
  }

  /** The publisher has created the removal and not yet applied it; a load reads both entries. */
  function LoadAhead(): seq<Action> {
    Opening(Load(OTHER)) + Appending(PUBLISHER, A1.deltas) + Creating(PUBLISHER, A2.deltas)
    + Reading(AUTHOR) + [ApplyNext(AUTHOR)] + Finishing(AUTHOR)
  }

  const LOADED_AHEAD := NOTHING.(
    log := [A1, A2],
    objects := map[1 := A1, 2 := A2],
    own := ADDED,
    other := REMOVED,
    publisher := Created(A2))

  lemma RemovalListedPlays() returns (c: Cluster)
    ensures Plays(true, START,
      Opening(Load(OTHER)) + Appending(PUBLISHER, A1.deltas) + Creating(PUBLISHER, A2.deltas) + Reading(AUTHOR), c)
    ensures Shows(c, LOADED_AHEAD.(other := EMPTY, author := Applying([A1, A2])))
  {
    hide Plays, Apply, Above;
    AddedThenRemoved();
    FirstListed();
    var before := Opening(Load(OTHER)) + Appending(PUBLISHER, A1.deltas);
    var c1 := AddedPlays();
    CreatePlays(c1, PUBLISHER, A2);
    var c2 := WithPhase(c1, PUBLISHER, Created(A2)).(log := [A1, A2], objects := map[1 := A1, 2 := A2]);
    assert c1.log + [A2] == [A1, A2] && c1.objects[2 := A2] == map[1 := A1, 2 := A2];
    PlaysOn(true, START, before, c1, Creating(PUBLISHER, A2.deltas), c2);
    ReadPlays(c2, AUTHOR);
    c := WithPhase(c2, AUTHOR, Applying([A1, A2]));
    PlaysOn(true, START, before + Creating(PUBLISHER, A2.deltas), c2, Reading(AUTHOR), c);
  }

  lemma LoadAheadPlays() returns (c: Cluster)
    ensures Plays(true, START, LoadAhead(), c) && Shows(c, LOADED_AHEAD)
  {
    hide Plays, Apply;
    AddedThenRemoved();
    var before :=
      Opening(Load(OTHER)) + Appending(PUBLISHER, A1.deltas) + Creating(PUBLISHER, A2.deltas) + Reading(AUTHOR);
    var c1 := RemovalListedPlays();
    PlaysThen(true, START, before, c1, ApplyNext(AUTHOR));
    var c2 := Move(c1, AUTHOR, ADDED, Applying([A2]));
    assert [A1, A2][1..] == [A2];
    FinishPlays(c2, AUTHOR, A2);
    c := Move(c2, AUTHOR, REMOVED, Idle);
    PlaysOn(true, START, before + [ApplyNext(AUTHOR)], c2, Finishing(AUTHOR), c);
  }

  lemma KeepsPaths(a: seq<IndexedFile>, b: seq<IndexedFile>, p: Path)
    ensures a <= b && HasPath(a, p) ==> HasPath(b, p)
  {
    if a <= b && HasPath(a, p) {
      var i :| 0 <= i < |a| && a[i].file.path == p;
      assert b[i] == a[i];
    }
  }

  const KEPT := Restore(ADDED, REMOVED_SNAPSHOT)

  lemma KeptIndex()
    ensures KEPT.sequence == 2 && HasPath(Files(KEPT, KEY), "p") && Apply(KEPT, A2) == KEPT
    ensures !Mergeable(ADDED, REMOVED)
  {
    AddedThenRemoved();
    RestoredFiles(ADDED, REMOVED_SNAPSHOT, KEY);
    assert Files(KEPT, KEY) == Files(ADDED, KEY);
    KeepsPaths(Files(ADDED, KEY), Files(REMOVED, KEY), "p");
  }

  function MergedAhead(): seq<Action> {
    LoadAhead() + [Merge(OTHER, OWN, REMOVED_SNAPSHOT)] + [ApplyOwn(PUBLISHER)]
  }

  lemma MergedAheadPlays(c: Cluster) returns (d: Cluster)
    requires Plays(true, START, LoadAhead(), c) && Shows(c, LOADED_AHEAD)
    ensures Plays(false, START, MergedAhead(), d) && Shows(d, LOADED_AHEAD.(own := KEPT, publisher := Idle))
  {
    hide Plays, Apply, Restore, IsSnapshotOf, Mergeable;
    AddedThenRemoved();
    KeptIndex();
    PlaysUntil(START, LoadAhead(), c);
    PlaysThen(false, START, LoadAhead(), c, Merge(OTHER, OWN, REMOVED_SNAPSHOT));
    var c1 := WithIndex(c, OWN, KEPT);
    PlaysThen(false, START, LoadAhead() + [Merge(OTHER, OWN, REMOVED_SNAPSHOT)], c1, ApplyOwn(PUBLISHER));
    d := Move(c1, PUBLISHER, KEPT, Idle);
  }

  /**
   Merging a load into an index behind it leaves there what the load has seen removed, and the
   removal is then ignored when its own author comes to apply it.
   */
  lemma MergeKeepsRemoved()
    ensures CarefulRun(START, LoadAhead()) && Run(START, LoadAhead()) && Run(START, MergedAhead())
    ensures var c, a := After(START, LoadAhead()), Merge(OTHER, OWN, REMOVED_SNAPSHOT);
      Enabled(c, a) && !Careful(c, a)
    ensures var c := After(START, MergedAhead());
      && OWN in c.replicas && c.replicas[OWN].index.sequence == |c.log| && Settled(c, OWN)
      && HasPath(Files(c.replicas[OWN].index, KEY), "p") && !HasPath(Files(Replay(EMPTY, c.log), KEY), "p")
      && !ExactPrefix(c.log, c.replicas[OWN].index)
  {
    hide Plays, Replay, Run, CarefulRun, After, IsSnapshotOf, Apply, Restore, Mergeable, HasPath;
    AddedThenRemoved();
    KeptIndex();
    var c := LoadAheadPlays();
    var d := MergedAheadPlays(c);
    PlaysMeans(true, START, LoadAhead(), c);
    PlaysMeans(false, START, MergedAhead(), d);
    NotExact(d.log, d.replicas[OWN].index);
  }

  // ---- A stale rollup ----

  /** A publisher appends and captures a rollup; before it stores that, another node appends, rolls up and prunes. */
  function CapturedFirst(): seq<Action> {
    FirstCapture() + Reading(AUTHOR) + Finishing(AUTHOR) + Appending(AUTHOR, E2.deltas) + RollingUp(AUTHOR, S2, {1, 2})
  }

  function FirstCapture(): seq<Action> {
    Opening(Open(OTHER)) + Appending(PUBLISHER, E1.deltas) + [Capture(PUBLISHER, S1)]
  }

  const CAPTURED := NOTHING.(
    log := [E1, E2],
    snapshot := Some(S2),
    own := IX1,
    other := IX2,
    publisher := Captured(S1))

  lemma FirstCapturePlays() returns (c: Cluster)
    ensures Plays(true, START, FirstCapture(), c)
    ensures Shows(c, NOTHING.(log := [E1], objects := map[1 := E1], own := IX1, publisher := Captured(S1)))
  {
    hide Plays, Apply, IsSnapshotOf;
    FirstIndex();
    var c1 := OpeningPlays(Open(OTHER));
    AppendPlays(c1, PUBLISHER, E1);
    var c2 := Move(c1.(log := [E1], objects := map[1 := E1]), PUBLISHER, IX1, Idle);
    assert c1.log + [E1] == [E1] && c1.objects[1 := E1] == map[1 := E1];
    PlaysOn(true, START, Opening(Open(OTHER)), c1, Appending(PUBLISHER, E1.deltas), c2);
    PlaysThen(true, START, Opening(Open(OTHER)) + Appending(PUBLISHER, E1.deltas), c2, Capture(PUBLISHER, S1));
    c := WithPhase(c2, PUBLISHER, Captured(S1));
  }

  lemma OtherCatchesUp() returns (c: Cluster)
    ensures Plays(true, START, FirstCapture() + Reading(AUTHOR) + Finishing(AUTHOR), c)
    ensures Shows(c, CAPTURED.(log := [E1], objects := map[1 := E1], snapshot := None, other := IX1))
  {
    hide Plays, Apply, Above;
    FirstListed();
    var c1 := FirstCapturePlays();
    ReadPlays(c1, AUTHOR);
    var c2 := WithPhase(c1, AUTHOR, Applying([E1]));
    PlaysOn(true, START, FirstCapture(), c1, Reading(AUTHOR), c2);
    FinishPlays(c2, AUTHOR, E1);
    c := Move(c2, AUTHOR, IX1, Idle);
    PlaysOn(true, START, FirstCapture() + Reading(AUTHOR), c2, Finishing(AUTHOR), c);
  }

  lemma CapturedFirstPlays() returns (c: Cluster)
    ensures Plays(true, START, CapturedFirst(), c) && Shows(c, CAPTURED)
  {
    hide Plays, Apply, IsSnapshotOf;
    FirstIndex();
    SecondIndex();
    var before := FirstCapture() + Reading(AUTHOR) + Finishing(AUTHOR);
    var c1 := OtherCatchesUp();
    AppendPlays(c1, AUTHOR, E2);
    var c2 := Move(c1.(log := [E1, E2], objects := map[1 := E1, 2 := E2]), AUTHOR, IX2, Idle);
    assert c1.log + [E2] == [E1, E2] && c1.objects[2 := E2] == map[1 := E1, 2 := E2];
    PlaysOn(true, START, before, c1, Appending(AUTHOR, E2.deltas), c2);
    RollUpPlays(true, c2, AUTHOR, S2, {1, 2});
    c := WithPhase(c2, AUTHOR, Idle).(snapshot := Some(S2), objects := map[]);
    assert c2.objects - {1, 2} == map[];
    PlaysOn(true, START, before + Appending(AUTHOR, E2.deltas), c2, RollingUp(AUTHOR, S2, {1, 2}), c);
  }

  /** The older rollup then replaces the newer one, and an entry is gone for every node that starts afresh. */
  lemma StaleRollupReachable()
    ensures CarefulRun(START, CapturedFirst()) && Run(START, CapturedFirst())
    ensures var c, a := After(START, CapturedFirst()), PutSnapshot(PUBLISHER);
      && Enabled(c, a) && !Careful(c, a)
      && HasPath(Files(FreshLoad(c), KEY), "p")
      && FreshLoad(Do(c, a)).sequence < |c.log| && !HasPath(Files(FreshLoad(Do(c, a)), KEY), "p")
  {
    hide Plays, Run, CarefulRun, After, Apply;
    var c := CapturedFirstPlays();
    PlaysMeans(true, START, CapturedFirst(), c);
    var d := WithPhase(c, PUBLISHER, Pruning(1)).(snapshot := Some(S1));
    AboveNone(map[], 1, 2);
    AboveNone(map[], 2, 2);
    FirstIndex();
    RestoredFiles(EMPTY, S1, KEY);
    RestoredFiles(EMPTY, S2, KEY);
    assert Files(EMPTY, KEY) == [] && PushNew([], IndexedFile(FILE, 2)) == [IndexedFile(FILE, 2)];
    assert Files(Restore(EMPTY, S2), KEY)[0].file.path == "p";
    assert 2 !in c.objects;
  }

  // ---- A hole in the log ----

  /** Two entries are appended and rolled up. */
  function StoredSecond(): seq<Action> {
    Opening(Open(OTHER)) + Appending(AUTHOR, E1.deltas) + Appending(AUTHOR, E2.deltas)
    + [Capture(AUTHOR, S2)] + [PutSnapshot(AUTHOR)]
  }

  const STORED := NOTHING.(
    log := [E1, E2],
    objects := map[1 := E1, 2 := E2],
    snapshot := Some(S2),
    other := IX2,
    author := Pruning(2))

  lemma TwoEntriesPlays() returns (c: Cluster)
    ensures Plays(true, START,
      Opening(Open(OTHER)) + Appending(AUTHOR, E1.deltas) + Appending(AUTHOR, E2.deltas), c)
    ensures Shows(c, NOTHING.(log := [E1, E2], objects := map[1 := E1, 2 := E2], other := IX2))
  {
    hide Plays, Apply;
    FirstIndex();
    var before := Opening(Open(OTHER)) + Appending(AUTHOR, E1.deltas);
    var c1 := FirstEntryPlays();
    AppendPlays(c1, AUTHOR, E2);
    c := Move(c1.(log := [E1, E2], objects := map[1 := E1, 2 := E2]), AUTHOR, IX2, Idle);
    assert c1.log + [E2] == [E1, E2] && c1.objects[2 := E2] == map[1 := E1, 2 := E2];
    PlaysOn(true, START, before, c1, Appending(AUTHOR, E2.deltas), c);
  }

  lemma StoredSecondPlays() returns (c: Cluster)
    ensures Plays(true, START, StoredSecond(), c) && Shows(c, STORED)
  {
    hide Plays, Apply, IsSnapshotOf;
    SecondIndex();
    var before := Opening(Open(OTHER)) + Appending(AUTHOR, E1.deltas) + Appending(AUTHOR, E2.deltas);
    var c1 := TwoEntriesPlays();
    PlaysThen(true, START, before, c1, Capture(AUTHOR, S2));
    var c2 := WithPhase(c1, AUTHOR, Captured(S2));
    PlaysThen(true, START, before + [Capture(AUTHOR, S2)], c2, PutSnapshot(AUTHOR));
    c := WithPhase(c2, AUTHOR, Pruning(2)).(snapshot := Some(S2));
  }

  /** The prune deletes the second object and fails to delete the first; then another entry is appended. */
  function Holed(): seq<Action> {
    StoredSecond() + [Prune(AUTHOR, {2})] + [Stop(AUTHOR)] + Appending(AUTHOR, E3.deltas)
  }

  const HOLED := STORED.(log := [E1, E2, E3], objects := map[1 := E1, 3 := E3], other := Apply(IX2, E3), author := Idle)

  lemma HoledPlays(c: Cluster) returns (d: Cluster)
    requires Plays(true, START, StoredSecond(), c) && Shows(c, STORED)
    ensures Plays(false, START, Holed(), d) && Shows(d, HOLED)
  {
    hide Plays, Apply;
    SecondIndex();
    PlaysUntil(START, StoredSecond(), c);
    PlaysThen(false, START, StoredSecond(), c, Prune(AUTHOR, {2}));
    var c1 := c.(objects := map[1 := E1]);
    assert c.objects - {2} == map[1 := E1];
    PlaysThen(false, START, StoredSecond() + [Prune(AUTHOR, {2})], c1, Stop(AUTHOR));
    var c2 := WithPhase(c1, AUTHOR, Idle);
    AppendPlays(c2, AUTHOR, E3);
    d := Move(c2.(log := [E1, E2, E3], objects := map[1 := E1, 3 := E3]), AUTHOR, Apply(IX2, E3), Idle);
    assert c2.log + [E3] == [E1, E2, E3] && c2.objects[3 := E3] == map[1 := E1, 3 := E3];
    PlaysUntil(c2, Appending(AUTHOR, E3.deltas), d);
    PlaysOn(false, START, StoredSecond() + [Prune(AUTHOR, {2})] + [Stop(AUTHOR)], c2, Appending(AUTHOR, E3.deltas), d);
  }

  lemma HoleListed()
    ensures Above(map[1 := E1, 3 := E3], 0, 3) == [E1, E3]
    ensures Apply(IX1, E3).sequence == 3 && !HasPath(Files(Apply(IX1, E3), KEY), "p")
    ensures Synced(EMPTY, [E1, E3], Some(S2)) == Apply(IX1, E3)
  {
    assert Above(map[1 := E1, 3 := E3], 0, 2) == [E1] by { assert Above(map[1 := E1, 3 := E3], 0, 1) == [E1]; }
    ApplyOne(EMPTY, E1);
    ApplyOne(IX1, E3);
    assert [E1, E3][1..] == [E3] && Replay(IX1, [E3]) == Replay(Apply(IX1, E3), []);
  }

  /** A reader from before the hole sees no entry missing, ends at the end of the log and lacks a live file. */
  lemma HoleReachable()
    ensures CarefulRun(START, StoredSecond()) && Run(START, StoredSecond()) && Run(START, Holed())
    ensures var c := After(START, StoredSecond());
      Enabled(c, Prune(AUTHOR, {2})) && !Careful(c, Prune(AUTHOR, {2}))
    ensures var c := After(START, Holed());
      && OWN in c.replicas && ExactPrefix(c.log, c.replicas[OWN].index)
      && var ix := c.replicas[OWN].index;
        var end := Synced(ix, Above(c.objects, ix.sequence, |c.log|), c.snapshot);
        && end.sequence == |c.log| && HasPath(Files(Replay(EMPTY, c.log), KEY), "p")
        && !HasPath(Files(end, KEY), "p")
  {
    hide Plays, Run, CarefulRun, After, Apply, Replay, Synced, Above;
    WholeLog();
    HoleListed();
    EmptyExact([E1, E2, E3]);
    var c := StoredSecondPlays();
    var d := HoledPlays(c);
    PlaysMeans(true, START, StoredSecond(), c);
    PlaysMeans(false, START, Holed(), d);
    assert 1 in c.objects && 2 in {2} && 1 !in {2};
  }
}
