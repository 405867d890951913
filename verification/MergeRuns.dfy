/**
 Runs of one owner and the compactor: two merges, the second of the first one's output, and what
 becomes of their files.
 */
module MergeRuns {
  import opened Wrappers
  import opened PendingDeletions
  import opened DeletionSafety
  import opened RecordedMerges

  // ---- Playing runs ----

  /** The steps are careful, write every record and lead from one state to the other. */
  ghost predicate Leads(s: State, ts: seq<Step>, k: State) {
    && CarefulRun(s, ts) && Run(s, ts) && After(s, ts) == k
    && forall i :: 0 <= i < |ts| ==> Recorded(ts[i])
  }

  lemma LeadsNowhere(s: State)
    ensures Leads(s, [], s)
  {
  }

  lemma {:induction false} RunOn(s: State, a: seq<Step>, b: seq<Step>)
    requires Run(s, a) && Run(After(s, a), b)
    ensures Run(s, a + b) && After(s, a + b) == After(After(s, a), b)
    ensures CarefulRun(s, a) && CarefulRun(After(s, a), b) ==> CarefulRun(s, a + b)
    decreases |a|
  {
    hide Enabled, Careful, Do;
    if a == [] {
      assert a + b == b;
    } else {
      assert (a + b)[0] == a[0] && (a + b)[1..] == a[1..] + b;
      RunOn(Do(s, a[0]), a[1..], b);
    }
  }

  lemma LeadsOn(s: State, ts: seq<Step>, k: State, t: Step)
    requires Leads(s, ts, k) && Enabled(k, t) && Careful(k, t) && Recorded(t)
    ensures Leads(s, ts + [t], Do(k, t))
  {
    hide Enabled, Careful, Do;
    assert [t][0] == t && [t][1..] == [];
    assert Run(Do(k, t), []) && CarefulRun(Do(k, t), []);
    RunOn(s, ts, [t]);
  }

  lemma {:induction false} CarefulIsChecked(s: State, ts: seq<Step>)
    requires CarefulRun(s, ts)
    ensures CheckedRun(s, ts)
    decreases |ts|
  {
    if ts != [] {
      hide Enabled, Do, Clear, Met;
      CarefulIsChecked(Do(s, ts[0]), ts[1..]);
    }
  }

  lemma LeadsMeans(s: State, ts: seq<Step>, k: State)
    requires Leads(s, ts, k)
    ensures Run(s, ts) && After(s, ts) == k && CarefulRun(s, ts) && RepairedRun(s, ts, {}) && CheckedRun(s, ts)
  {
    CarefulIsChecked(s, ts);
    RecordedIsRepaired(s, ts);
  }

  // ---- Two merges ----

  const A := Gen1(7, 0)
  const B := Gen1(7, 1)
  const C := Gen1(7, 2)
  const FIRST := Merge(7, {A, B})
  const REST: seq<FilePath> := [FIRST, C]
  const SECOND := Merge(7, {FIRST, C})

  lemma PairElements()
    ensures Elements(PAIR) == {A, B} && Elements(REST) == {FIRST, C} && Ingested(7, {0, 1, 2}) == {A, B, C}
    ensures FIRST !in {A, B, C} && SECOND !in {A, B, C, FIRST}
  {
    assert PAIR[0] == A && PAIR[1] == B && REST[0] == FIRST && REST[1] == C;
    assert forall p :: p in PAIR <==> p == PAIR[0] || p == PAIR[1];
    assert forall p :: p in REST <==> p == REST[0] || p == REST[1];
    NotOwnInput(7, {A, B});
    NotOwnInput(7, {FIRST, C});
  }

  /** The owner's index, what the compactor has queued and stored, with nothing owed or deleted. */
  ghost predicate Shows(s: State, o: Owner, queue: seq<PendingDeletion>, sent: set<Notice>, grace: nat, clock: int) {
    && s.owners.Keys == {7} && s.owners[7] == o && s.owed.None? && s.deleted == map[] && s.sent == sent
    && s.pending == queue && (s.stored == Some(queue) || (queue == [] && s.stored.None?))
    && s.grace == grace && s.clock == clock
  }

  const INGESTED: seq<Step> := [] + [Join(7)] + [Ingest(7, {0, 1, 2})] + [ReadLog(7, 1)]

  lemma IngestLeads(grace: nat, clock: int) returns (s: State)
    ensures Leads(Start(grace, clock), INGESTED, s)
    ensures Shows(s, Owner({A, B, C}, [{}, {A, B, C}], 1), [], {}, grace, clock)
  {
    hide Leads;
    PairElements();
    var s0 := Start(grace, clock);
    LeadsNowhere(s0);
    LeadsOn(s0, [], s0, Join(7));
    var s1 := Do(s0, Join(7));
    LeadsOn(s0, [] + [Join(7)], s1, Ingest(7, {0, 1, 2}));
    var s2 := Do(s1, Ingest(7, {0, 1, 2}));
    LeadsOn(s0, [] + [Join(7)] + [Ingest(7, {0, 1, 2})], s2, ReadLog(7, 1));
    s := Do(s2, ReadLog(7, 1));
    var none: set<FilePath> := {};
    assert none + Ingested(7, {0, 1, 2}) == {A, B, C};
    assert s1.owners[7].memory == none && Durable(s1.owners[7]) == none;
    assert s2.owners[7].history == [none] + [{A, B, C}] == [{}, {A, B, C}];
  }

  function Merging(inputs: seq<FilePath>): seq<Step> { [Notify(7, inputs, true, true)] + [Schedule(true)] }

  /** A recorded merge that is acknowledged and queued. */
  lemma MergeLeads(s: State, o: Owner, queue: seq<PendingDeletion>, inputs: seq<FilePath>, grace: nat, clock: int)
      returns (k: State)
    requires Shows(s, o, queue, s.sent, grace, clock) && inputs != [] && Elements(inputs) !! Outstanding(s)
    requires o.history != [] && o.memory == Durable(o) && Elements(inputs) <= o.memory
    requires Merge(7, Elements(inputs)) !in PathsOf(queue)
    ensures Leads(s, Merging(inputs), k)
    ensures var next := o.memory + {Merge(7, Elements(inputs))} - Elements(inputs);
      Shows(k, Owner(next, o.history + [next], o.position), queue + Entries(inputs, clock + grace), s.sent,
        grace, clock)
  {
    hide Leads, Entries, PathsOf;
    var t, ins := Notify(7, inputs, true, true), Elements(inputs);
    NotOwnInput(7, ins);
    assert inputs[0] in ins;
    assert ins * o.memory == ins;
    LeadsNowhere(s);
    LeadsOn(s, [], s, t);
    var s1 := Do(s, t);
    LeadsOn(s, [] + [t], s1, Schedule(true));
    k := Do(s1, Schedule(true));
    assert [] + [t] + [Schedule(true)] == Merging(inputs);
  }

  lemma LeadsThrough(s: State, a: seq<Step>, k: State, b: seq<Step>, n: State)
    requires Leads(s, a, k) && Leads(k, b, n)
    ensures Leads(s, a + b, n)
  {
    RunOn(s, a, b);
  }

  function MergedOnce(): seq<Step> { INGESTED + Merging(PAIR) }

  lemma MergedOnceLeads(grace: nat, clock: int) returns (s: State)
    ensures Leads(Start(grace, clock), MergedOnce(), s)
    ensures Shows(s, Owner({FIRST, C}, [{}, {A, B, C}, {FIRST, C}], 1), Entries(PAIR, clock + grace), {}, grace, clock)
  {
    hide Leads;
    PairElements();
    var s1 := IngestLeads(grace, clock);
    s := MergeLeads(s1, Owner({A, B, C}, [{}, {A, B, C}], 1), [], PAIR, grace, clock);
    LeadsThrough(Start(grace, clock), INGESTED, s1, Merging(PAIR), s);
    assert {A, B, C} + {FIRST} - {A, B} == {FIRST, C};
    assert [{}, {A, B, C}] + [{FIRST, C}] == [{}, {A, B, C}, {FIRST, C}];
    assert [] + Entries(PAIR, clock + grace) == Entries(PAIR, clock + grace);
  }

  function MergedTwice(): seq<Step> { MergedOnce() + [ReadLog(7, 2)] + Merging(REST) }

  function BothQueued(due: int): seq<PendingDeletion> { Entries(PAIR, due) + Entries(REST, due) }

  const HISTORY: seq<set<FilePath>> := [{}, {A, B, C}, {FIRST, C}, {SECOND}]

  lemma MergedTwiceLeads(grace: nat, clock: int) returns (s: State)
    ensures Leads(Start(grace, clock), MergedTwice(), s)
    ensures Shows(s, Owner({SECOND}, HISTORY, 2), BothQueued(clock + grace), {}, grace, clock)
  {
    hide Leads, Entries;
    PairElements();
    var s1 := MergedOnceLeads(grace, clock);
    LeadsOn(Start(grace, clock), MergedOnce(), s1, ReadLog(7, 2));
    var s2 := Do(s1, ReadLog(7, 2));
    var o := Owner({FIRST, C}, [{}, {A, B, C}, {FIRST, C}], 2);
    QueuedPaths(PAIR, clock + grace);
    s := MergeLeads(s2, o, Entries(PAIR, clock + grace), REST, grace, clock);
    LeadsThrough(Start(grace, clock), MergedOnce() + [ReadLog(7, 2)], s2, Merging(REST), s);
    assert {FIRST, C} + {SECOND} - {FIRST, C} == {SECOND};
    assert o.history + [{SECOND}] == HISTORY;
  }

  lemma QueuedPaths(inputs: seq<FilePath>, due: int)
    ensures PathsOf(Entries(inputs, due)) == Elements(inputs)
  {
    forall p | p in inputs ensures p in PathsOf(Entries(inputs, due)) {
      var i :| 0 <= i < |inputs| && inputs[i] == p;
      assert Entries(inputs, due)[i] == PendingDeletion(due, p);
    }
  }

  // ---- Inputs are deleted ----

  /** The inputs of a recorded merge are deleted once the grace period is over, and nothing serves them. */
  lemma MergedInputIsDeleted(grace: nat, clock: int)
    ensures var ts := MergedOnce() + [Tick(grace)] + [Reclaim({}, true)];
      && RepairedRun(Start(grace, clock), ts, {}) && CheckedRun(Start(grace, clock), ts) && Run(Start(grace, clock), ts)
      && var s := After(Start(grace, clock), ts);
        A in s.deleted && B in s.deleted && Dead(s, A) && Dead(s, B)
  {
    hide Leads, Entries, RepairedRun, CheckedRun, Run, After, CarefulRun;
    PairElements();
    var s0 := Start(grace, clock);
    var s1 := MergedOnceLeads(grace, clock);
    LeadsOn(s0, MergedOnce(), s1, Tick(grace));
    var s2 := Do(s1, Tick(grace));
    LeadsOn(s0, MergedOnce() + [Tick(grace)], s2, Reclaim({}, true));
    var s3 := Do(s2, Reclaim({}, true));
    EntryOf(PAIR, 0, clock + grace);
    EntryOf(PAIR, 1, clock + grace);
    DueIsDeleted(s2, PendingDeletion(clock + grace, A));
    DueIsDeleted(s2, PendingDeletion(clock + grace, B));
    LeadsMeans(s0, MergedOnce() + [Tick(grace)] + [Reclaim({}, true)], s3);
  }

  lemma EntryOf(inputs: seq<FilePath>, i: nat, due: int)
    requires i < |inputs|
    ensures PendingDeletion(due, inputs[i]) in Entries(inputs, due)
  {
    assert Entries(inputs, due)[i] == PendingDeletion(due, inputs[i]);
  }

  // ---- A replica that goes back ----

  /** The compactor restarts with a replica older than the one its predecessor merged from. */
  function OldReplica(): seq<Step> { MergedTwice() + [RestartCompactor(true)] + [ReadLog(7, 1)] }

  lemma OldReplicaLeads(grace: nat, clock: int) returns (s: State)
    ensures Leads(Start(grace, clock), OldReplica(), s)
    ensures Shows(s, Owner({SECOND}, HISTORY, 1), BothQueued(clock + grace), {}, grace, clock)
  {
    hide Leads;
    var s1 := MergedTwiceLeads(grace, clock);
    assert BothQueued(clock + grace) != [] by { assert |Entries(PAIR, clock + grace)| == 2; }
    LeadsOn(Start(grace, clock), MergedTwice(), s1, RestartCompactor(true));
    var s2 := Do(s1, RestartCompactor(true));
    LeadsOn(Start(grace, clock), MergedTwice() + [RestartCompactor(true)], s2, ReadLog(7, 1));
    s := Do(s2, ReadLog(7, 1));
  }

  lemma PairKnown()
    ensures forall p :: p in Elements(PAIR) ==> Known(HISTORY, p)
    ensures Elements(PAIR) <= HISTORY[1]
  {
    PairElements();
    assert HISTORY[1] == {A, B, C};
  }

  const AGAIN := Notify(7, PAIR, true, true)

  /**
   Every record is written, and yet a live file is deleted: the compactor merges the first pair again,
   both still within their grace period, the owner records their output again, and the older queue
   still holds it as an input of the second merge.
   */
  lemma OldReplicaLoses(grace: nat, clock: int) returns (later: seq<Step>)
    ensures CheckedRun(Start(grace, clock), OldReplica()) && Run(Start(grace, clock), OldReplica())
    ensures var s := After(Start(grace, clock), OldReplica());
      && Enabled(s, AGAIN) && Output(AGAIN) in Queued(s)
      && s.owners[7].position < |s.owners[7].history|
      && Elements(PAIR) <= s.owners[7].history[s.owners[7].position]
    ensures var ts := OldReplica() + ([AGAIN] + later);
      && RepairedRun(Start(grace, clock), ts, {}) && Run(Start(grace, clock), ts)
      && (forall i :: 0 <= i < |ts| ==> Recorded(ts[i]))
      && var k := After(Start(grace, clock), ts);
        && FIRST in k.deleted && 7 in k.owners && FIRST in k.owners[7].memory && FIRST in Durable(k.owners[7])
        && !Safe(k)
  {
    hide Entries, RepairedRun, CheckedRun, Run, After, CarefulRun, Inv, Safe;
    PairElements();
    var s0 := Start(grace, clock);
    var s := OldReplicaLeads(grace, clock);
    LeadsMeans(s0, OldReplica(), s);
    InitialInv(grace, clock);
    RunInv(s0, OldReplica());
    PairKnown();
    EntryOf(REST, 0, clock + grace);
    assert PendingDeletion(clock + grace, FIRST) in s.pending;
    assert FIRST in PathsOf(s.pending) && Output(AGAIN) == FIRST;
    later := QueuedOutputLoses(s, AGAIN);
    RunOn(s0, OldReplica(), [AGAIN] + later);
    var ts := OldReplica() + ([AGAIN] + later);
    assert forall i :: |OldReplica()| < i < |ts| ==> ts[i] == later[i - |OldReplica()| - 1] && ts[i] in later;
    RecordedIsRepaired(s0, ts);
  }

  lemma InitialInv(grace: nat, clock: int)
    ensures Inv(Start(grace, clock))
  {
  }

  // ---- A file that is written again ----

  /** The first output and the last ingested file are deleted; deleting the first pair fails. */
  function FirstDeleted(grace: nat): seq<Step> {
    MergedTwice() + [Tick(grace)] + [Reclaim({A, B}, true)] + [ReadLog(7, 1)]
  }

  lemma FirstDeletedLeads(grace: nat, clock: int) returns (s: State)
    ensures Leads(Start(grace, clock), FirstDeleted(grace), s)
    ensures s.owners.Keys == {7} && s.owners[7] == Owner({SECOND}, HISTORY, 1)
    ensures FIRST in s.deleted && A !in s.deleted && B !in s.deleted && s.owed.None?
    ensures s.pending == [] && s.stored == Some([]) && s.sent == {}
  {
    hide Leads;
    PairElements();
    var s0, due := Start(grace, clock), clock + grace;
    var s1 := MergedTwiceLeads(grace, clock);
    LeadsOn(s0, MergedTwice(), s1, Tick(grace));
    var s2 := Do(s1, Tick(grace));
    LeadsOn(s0, MergedTwice() + [Tick(grace)], s2, Reclaim({A, B}, true));
    var s3 := Do(s2, Reclaim({A, B}, true));
    AllDue(BothQueued(due), due);
    EntryOf(REST, 0, due);
    assert PendingDeletion(due, FIRST) in DueBy(s2.pending, s2.clock);
    assert FIRST in PathsOf(DueBy(s2.pending, s2.clock));
    LeadsOn(s0, MergedTwice() + [Tick(grace)] + [Reclaim({A, B}, true)], s3, ReadLog(7, 1));
    s := Do(s3, ReadLog(7, 1));
  }

  lemma {:induction false} AllDue(q: seq<PendingDeletion>, now: int)
    requires forall e :: e in q ==> e.due <= now
    ensures WaitingAt(q, now) == [] && forall e :: e in q ==> e in DueBy(q, now)
  {
    if q != [] {
      assert q[0] in q && forall e :: e in q[1..] ==> e in q;
      AllDue(q[1..], now);
    }
  }

  /** A deleted file comes back, safely, when its inputs could not be deleted and are merged again. */
  lemma RewrittenReturns(grace: nat, clock: int)
    ensures var ts := FirstDeleted(grace) + [AGAIN];
      && RepairedRun(Start(grace, clock), ts, {}) && CheckedRun(Start(grace, clock), ts)
      && Run(Start(grace, clock), FirstDeleted(grace)) && Run(Start(grace, clock), ts)
      && FIRST in After(Start(grace, clock), FirstDeleted(grace)).deleted
      && var k := After(Start(grace, clock), ts);
        FIRST !in k.deleted && 7 in k.owners && FIRST in Durable(k.owners[7])
  {
    hide Leads, RepairedRun, CheckedRun, Run, After, CarefulRun;
    PairElements();
    PairKnown();
    var s := FirstDeletedLeads(grace, clock);
    LeadsOn(Start(grace, clock), FirstDeleted(grace), s, AGAIN);
    LeadsMeans(Start(grace, clock), FirstDeleted(grace), s);
    LeadsMeans(Start(grace, clock), FirstDeleted(grace) + [AGAIN], Do(s, AGAIN));
  }

  // ---- A notice handled late ----

  /** The compactor gives up on its first notice and sends it again, which is recorded and queued. */
  function SentTwice(): seq<Step> { INGESTED + [GiveUp(7, PAIR)] + Merging(PAIR) + [ReadLog(7, 2)] }

  lemma SentTwiceLeads(grace: nat, clock: int) returns (s: State)
    ensures Leads(Start(grace, clock), SentTwice(), s)
    ensures Shows(s, Owner({FIRST, C}, [{}, {A, B, C}, {FIRST, C}], 2), Entries(PAIR, clock + grace),
      {Notice(7, PAIR)}, grace, clock)
  {
    hide Leads;
    PairElements();
    var s0, o := Start(grace, clock), Owner({A, B, C}, [{}, {A, B, C}], 1);
    var s1 := IngestLeads(grace, clock);
    assert Known(o.history, A) && Known(o.history, B) by { assert o.history[1] == {A, B, C}; }
    LeadsOn(s0, INGESTED, s1, GiveUp(7, PAIR));
    var s2 := Do(s1, GiveUp(7, PAIR));
    assert Outstanding(s2) == {FIRST};
    var s3 := MergeLeads(s2, o, [], PAIR, grace, clock);
    LeadsThrough(s0, INGESTED + [GiveUp(7, PAIR)], s2, Merging(PAIR), s3);
    LeadsOn(s0, INGESTED + [GiveUp(7, PAIR)] + Merging(PAIR), s3, ReadLog(7, 2));
    s := Do(s3, ReadLog(7, 2));
    assert {A, B, C} + {FIRST} - {A, B} == {FIRST, C};
    assert [{}, {A, B, C}] + [{FIRST, C}] == [{}, {A, B, C}, {FIRST, C}];
    assert [] + Entries(PAIR, clock + grace) == Entries(PAIR, clock + grace);
  }

  const NEXT := Notify(7, REST, true, true)

  /**
   Every record is written, the replica never goes back, and yet a live file is deleted: the notice
   given up on is handled after its output has been merged away.
   */
  lemma LateNoticeLoses(grace: nat, clock: int) returns (later: seq<Step>)
    ensures CheckedRun(Start(grace, clock), SentTwice()) && Run(Start(grace, clock), SentTwice())
    ensures var s := After(Start(grace, clock), SentTwice()); Enabled(s, NEXT) && !Clear(s, NEXT)
    ensures var ts := SentTwice() + ([NEXT] + later);
      && RepairedRun(Start(grace, clock), ts, {}) && Run(Start(grace, clock), ts)
      && (forall i :: 0 <= i < |ts| ==> Recorded(ts[i]))
      && var k := After(Start(grace, clock), ts);
        FIRST in k.deleted && 7 in k.owners && FIRST in k.owners[7].memory && !Safe(k)
  {
    hide Entries, RepairedRun, CheckedRun, Run, After, CarefulRun, Inv, Safe;
    PairElements();
    var s0 := Start(grace, clock);
    var s := SentTwiceLeads(grace, clock);
    LeadsMeans(s0, SentTwice(), s);
    InitialInv(grace, clock);
    RunInv(s0, SentTwice());
    assert Known(s.owners[7].history, FIRST) && Known(s.owners[7].history, C) by {
      assert s.owners[7].history[2] == {FIRST, C};
    }
    assert FIRST in Outstanding(s);
    later := OutstandingLoses(s, NEXT, Notice(7, PAIR));
    RunOn(s0, SentTwice(), [NEXT] + later);
    var ts := SentTwice() + ([NEXT] + later);
    assert forall i :: |SentTwice()| < i < |ts| ==> ts[i] == later[i - |SentTwice()| - 1] && ts[i] in later;
    RecordedIsRepaired(s0, ts);
  }

  // ---- A record that is not written ----

  const FAILING := Notify(7, PAIR, false, true)

  function FailedRecord(): seq<Step> { INGESTED + [FAILING] }

  /**
   One failed write of an owner's record is enough: the swap stays in memory, so the retried notice
   is taken for a redelivery and acknowledged with nothing durable behind it.
   */
  lemma FailedRecordLoses(grace: nat, clock: int)
    ensures CarefulRun(Start(grace, clock), FailedRecord()) && Run(Start(grace, clock), FailedRecord())
    ensures var s := After(Start(grace, clock), FailedRecord());
      && Enabled(s, FAILING) && !Careful(s, FAILING)
      && Run(s, Aftermath(7, PAIR, false, grace))
      && var k := After(s, Aftermath(7, PAIR, false, grace));
        A in k.deleted && 7 in k.owners && A in Durable(k.owners[7])
  {
    hide Leads, Aftermath, Run, After, CarefulRun;
    PairElements();
    var s0 := Start(grace, clock);
    var s1 := IngestLeads(grace, clock);
    LeadsMeans(s0, INGESTED, s1);
    var s2 := FailingNotice(s1, grace, clock);
    OneStep(s1, FAILING);
    RunOn(s0, INGESTED, [FAILING]);
    assert A in PAIR by { assert PAIR[0] == A; }
    OutOfStepLoses(s2, 7, PAIR, false, A);
  }

  lemma OneStep(s: State, t: Step)
    requires Enabled(s, t)
    ensures Run(s, [t]) && After(s, [t]) == Do(s, t) && (Careful(s, t) ==> CarefulRun(s, [t]))
  {
    hide Enabled, Careful, Do;
    assert [t][0] == t && [t][1..] == [];
    assert Run(Do(s, t), []) && CarefulRun(Do(s, t), []);
  }

  /** The swap without its record, and the same notice again. */
  lemma FailingNotice(s: State, grace: nat, clock: int) returns (k: State)
    requires Shows(s, Owner({A, B, C}, [{}, {A, B, C}], 1), [], {}, grace, clock)
    ensures Enabled(s, FAILING) && Careful(s, FAILING) && k == Do(s, FAILING) && k.grace == grace
    ensures Enabled(k, FAILING) && !Careful(k, FAILING)
    ensures SaysRecorded(k.owners[7], FIRST, {A, B}, false)
    ensures A in Durable(k.owners[7]) && A !in k.owners[7].memory
  {
    PairElements();
    var o := Owner({A, B, C}, [{}, {A, B, C}], 1);
    assert Known(o.history, A) && Known(o.history, B) by { assert o.history[1] == {A, B, C}; }
    assert Queued(s) == {} && Outstanding(s) == {};
    k := Do(s, FAILING);
    assert k.owners[7] == o.(memory := {A, B, C} + {FIRST} - {A, B});
  }
}
