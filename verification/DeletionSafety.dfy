/**
 Merging files other nodes own and deleting the inputs later, as steps of one compactor and any
 number of owners, each of which may restart between any two steps while reads, writes, deletes and
 replies fail. An owner swaps files in memory first and then records the swap durably; the compactor
 reads a replica of the durable indexes, which may lag behind, go back, or show a mixture of records.
 */
module DeletionSafety {
  import opened Wrappers
  import opened PendingDeletions

  datatype Owner = Owner(
    memory: set<FilePath>,                // its index, in memory
    history: seq<set<FilePath>>,          // its durable index after each record, oldest first
    position: nat)                        // where the compactor's replica of it is

  datatype Notice = Notice(n: nat, inputs: seq<FilePath>)

  datatype State = State(
    grace: nat,
    clock: int,
    owners: map<nat, Owner>,
    pending: seq<PendingDeletion>,
    stored: Option<seq<PendingDeletion>>,
    owed: Option<seq<FilePath>>,          // acknowledged inputs not yet queued for deletion
    acked: map<FilePath, int>,            // replaced paths, with when that was first acknowledged
    deleted: map<FilePath, int>,          // deleted objects not written since, with when
    sent: set<Notice>)                    // notices the compactor gave up on and an owner may yet handle

  datatype Step =
    | Join(n: nat)
    | Tick(elapsed: nat)
    | Ingest(n: nat, ids: set<nat>)
    | RestartOwner(n: nat)
    | ReadLog(n: nat, to: nat)
    | Notify(n: nat, inputs: seq<FilePath>, persisted: bool, replied: bool)
    | GiveUp(n: nat, inputs: seq<FilePath>)
    | HandleLate(n: nat, inputs: seq<FilePath>, persisted: bool)
    | Schedule(written: bool)
    | Reclaim(undeletable: set<FilePath>, written: bool)
    | RestartCompactor(readable: bool)

  const NEW_OWNER := Owner({}, [{}], 0)

  function Start(grace: nat, clock: int): State { State(grace, clock, map[], [], None, None, map[], map[], {}) }

  function Durable(o: Owner): set<FilePath> {
    if o.history == [] then {} else o.history[|o.history| - 1]
  }

  function Elements(q: seq<FilePath>): set<FilePath> { set p | p in q }

  function Ingested(n: nat, ids: set<nat>): set<FilePath> { set id | id in ids :: Gen1(n, id) }

  /** The path was in the durable index at some time. */
  ghost predicate Known(h: seq<set<FilePath>>, p: FilePath) {
    exists i :: 0 <= i < |h| && p in h[i]
  }

  // ---- The owner's handler ----

  /** The owner's memory has the output and none of the inputs: a redelivery, it concludes. */
  predicate LooksApplied(o: Owner, out: FilePath, inputs: set<FilePath>) {
    out in o.memory && inputs !! o.memory
  }

  /** Whether the owner answers that the merge is recorded. */
  predicate SaysRecorded(o: Owner, out: FilePath, inputs: set<FilePath>, persisted: bool) {
    LooksApplied(o, out, inputs) || persisted
  }

  /** The owner adds the output, drops the inputs it has and then writes the record, if it can. */
  function Applied(o: Owner, out: FilePath, inputs: set<FilePath>, persisted: bool): Owner {
    if LooksApplied(o, out, inputs) then o
    else
      var swapped := o.(memory := o.memory + {out} - inputs);
      if persisted then swapped.(history := o.history + [Durable(o) + {out} - inputs * o.memory]) else swapped
  }

  /** The replacement is durable: a restarted owner would serve it and not the inputs. */
  predicate Replaced(o: Owner, out: FilePath, inputs: set<FilePath>) {
    out in Durable(o) && inputs !! Durable(o)
  }

  /**
   What an owner's memory must have in common with its durable index for its answer to be right: it
   knows every durable input, and an output it takes for recorded is recorded.
   */
  predicate InStep(o: Owner, out: FilePath, inputs: set<FilePath>) {
    inputs * Durable(o) <= o.memory && (LooksApplied(o, out, inputs) ==> out in Durable(o))
  }

  // ---- Steps ----

  /** The compactor may merge these: they were durable at the owner at some time, and can be read. */
  ghost predicate Mergeable(s: State, n: nat, inputs: seq<FilePath>) {
    && s.owed.None? && inputs != [] && n in s.owners && Elements(inputs) !! s.deleted.Keys
    && forall p :: p in Elements(inputs) ==> Known(s.owners[n].history, p)
  }

  ghost predicate Enabled(s: State, t: Step) {
    match t
    case Join(n) => n !in s.owners
    case Ingest(n, ids) => n in s.owners && forall id :: id in ids ==> !Known(s.owners[n].history, Gen1(n, id))
    case RestartOwner(n) => n in s.owners
    case ReadLog(n, to) => n in s.owners && to < |s.owners[n].history|
    case Notify(n, inputs, _, _) => Mergeable(s, n, inputs)
    case GiveUp(n, inputs) => Mergeable(s, n, inputs)
    case HandleLate(n, inputs, _) => n in s.owners && Notice(n, inputs) in s.sent
    case Schedule(_) => s.owed.Some?
    case _ => true
  }

  function FirstTimes(m: map<FilePath, int>, paths: set<FilePath>, now: int): map<FilePath, int> {
    map p | p in m.Keys + paths :: if p in m then m[p] else now
  }

  /** The compactor writes the object of a merge. */
  function Written(s: State, n: nat, inputs: seq<FilePath>): State {
    var out := Merge(n, Elements(inputs));
    s.(acked := s.acked - {out}, deleted := s.deleted - {out})
  }

  function Handled(s: State, n: nat, inputs: seq<FilePath>, persisted: bool): State
    requires n in s.owners
  {
    s.(owners := s.owners[n := Applied(s.owners[n], Merge(n, Elements(inputs)), Elements(inputs), persisted)])
  }

  /** The compactor gets the owner's answer that the merge is recorded. */
  predicate Acknowledges(s: State, t: Step) {
    && t.Notify? && t.n in s.owners && t.replied
    && SaysRecorded(s.owners[t.n], Merge(t.n, Elements(t.inputs)), Elements(t.inputs), t.persisted)
  }

  ghost function Do(s: State, t: Step): State
    requires Enabled(s, t)
  {
    match t
    case Join(n) => s.(owners := s.owners[n := NEW_OWNER])
    case Tick(elapsed) => s.(clock := s.clock + elapsed)
    case Ingest(n, ids) =>
      var o := s.owners[n];
      s.(owners := s.owners[n := o.(memory := o.memory + Ingested(n, ids),
                                    history := o.history + [Durable(o) + Ingested(n, ids)])])
    case RestartOwner(n) => s.(owners := s.owners[n := s.owners[n].(memory := Durable(s.owners[n]))])
    case ReadLog(n, to) => s.(owners := s.owners[n := s.owners[n].(position := to)])
    case Notify(n, inputs, persisted, replied) =>
      var next := Handled(Written(s, n, inputs), n, inputs, persisted);
      if Acknowledges(s, t) then
        next.(owed := Some(inputs), acked := FirstTimes(next.acked, Elements(inputs), s.clock))
      else next
    case GiveUp(n, inputs) => Written(s, n, inputs).(sent := s.sent + {Notice(n, inputs)})
    case HandleLate(n, inputs, persisted) => Handled(s, n, inputs, persisted).(sent := s.sent - {Notice(n, inputs)})
    case Schedule(written) =>
      var q := s.pending + Entries(s.owed.value, s.clock + s.grace);
      s.(pending := q, stored := Stored(s.stored, q, written), owed := None)
    case Reclaim(undeletable, written) =>
      var due, q := DueBy(s.pending, s.clock), WaitingAt(s.pending, s.clock);
      s.(pending := q,
         stored := Stored(s.stored, q, written && due != []),
         deleted := FirstTimes(s.deleted, PathsOf(due) - undeletable, s.clock))
    case RestartCompactor(readable) =>
      s.(pending := Loaded(s.stored, readable), owed := None,
         owners := map n | n in s.owners :: s.owners[n].(position := 0))
  }

  /** What the compactor will delete, or would after a restart. */
  function Queued(s: State): set<FilePath> {
    PathsOf(s.pending)
    + (if s.stored.Some? then PathsOf(s.stored.value) else {})
    + (if s.owed.Some? then Elements(s.owed.value) else {})
  }

  /** The step is a merge being written, or a notice of one being handled. */
  predicate OfMerge(t: Step) { t.Notify? || t.GiveUp? || t.HandleLate? }

  function Output(t: Step): FilePath
    requires OfMerge(t)
  {
    Merge(t.n, Elements(t.inputs))
  }

  /** The outputs of notices an owner may yet handle. */
  function Outstanding(s: State): set<FilePath> { set m | m in s.sent :: Merge(m.n, Elements(m.inputs)) }

  /**
   What the compactor can see before it merges: the output is not queued for deletion, and no input is
   the output of a notice it gave up on.
   */
  predicate Clear(s: State, t: Step)
    requires OfMerge(t)
  {
    !t.HandleLate? ==> Output(t) !in Queued(s) && (t.Notify? ==> Elements(t.inputs) !! Outstanding(s))
  }

  /** A notice is handled while the owner's memory is in step with its durable index about it. */
  predicate Met(s: State, t: Step)
    requires OfMerge(t) && t.n in s.owners
  {
    !t.GiveUp? ==> InStep(s.owners[t.n], Output(t), Elements(t.inputs))
  }

  ghost predicate Careful(s: State, t: Step)
    requires Enabled(s, t)
  {
    OfMerge(t) ==> Met(s, t) && Clear(s, t)
  }

  ghost predicate Run(s: State, ts: seq<Step>)
    decreases |ts|
  {
    ts == [] || (Enabled(s, ts[0]) && Run(Do(s, ts[0]), ts[1..]))
  }

  ghost predicate CarefulRun(s: State, ts: seq<Step>)
    decreases |ts|
  {
    ts == [] || (Enabled(s, ts[0]) && Careful(s, ts[0]) && CarefulRun(Do(s, ts[0]), ts[1..]))
  }

  ghost function After(s: State, ts: seq<Step>): State
    requires Run(s, ts)
    decreases |ts|
  {
    if ts == [] then s else After(Do(s, ts[0]), ts[1..])
  }

  lemma {:induction false} CarefulIsRun(s: State, ts: seq<Step>)
    requires CarefulRun(s, ts)
    ensures Run(s, ts)
    decreases |ts|
  {
    if ts != [] { CarefulIsRun(Do(s, ts[0]), ts[1..]); }
  }

  // ---- The invariant: what was replaced is in no index ----

  /** An index holds files of its own node only. */
  ghost predicate OwnFiles(n: nat, o: Owner) {
    && (forall p :: p in o.memory ==> p.node == n)
    && (forall i, p :: 0 <= i < |o.history| && p in o.history[i] ==> p.node == n)
  }

  ghost predicate OwnerOk(n: nat, o: Owner) { o.history != [] && OwnFiles(n, o) }

  /** The path was durable at the owner and is in its index no more. */
  ghost predicate Gone(o: Owner, p: FilePath) { Known(o.history, p) && p !in Durable(o) && p !in o.memory }

  /** Acknowledged inputs have left their owner's index. */
  ghost predicate AckedOk(s: State) {
    forall p :: p in s.acked ==> p.node in s.owners && Gone(s.owners[p.node], p) && s.acked[p] <= s.clock
  }

  /** An entry's path was acknowledged at least the grace period before its due time. */
  ghost predicate QueueOk(s: State, q: seq<PendingDeletion>) {
    forall e :: e in q ==> e.path in s.acked && s.acked[e.path] + s.grace <= e.due
  }

  ghost predicate DeletedOk(s: State) {
    forall p :: p in s.deleted ==> p in s.acked && s.acked[p] + s.grace <= s.deleted[p]
  }

  ghost predicate QueuesOk(s: State) {
    && QueueOk(s, s.pending)
    && (s.stored.Some? ==> QueueOk(s, s.stored.value))
    && (s.owed.Some? ==> forall p :: p in s.owed.value ==> p in s.acked)
    && DeletedOk(s)
  }

  ghost predicate Inv(s: State) {
    && (forall n :: n in s.owners ==> OwnerOk(n, s.owners[n])) && AckedOk(s) && QueuesOk(s)
    && s.acked.Keys !! Outstanding(s)
  }

  lemma QueuedIsAcked(s: State, p: FilePath)
    requires QueuesOk(s) && p in Queued(s)
    ensures p in s.acked
  {
    if p in PathsOf(s.pending) {
      var e :| e in s.pending && e.path == p;
    } else if s.stored.Some? && p in PathsOf(s.stored.value) {
      var e :| e in s.stored.value && e.path == p;
    }
  }

  // ---- Owners ----

  lemma KnownGrows(h: seq<set<FilePath>>, next: set<FilePath>, p: FilePath)
    ensures Known(h + [next], p) <==> Known(h, p) || p in next
  {
    if Known(h, p) {
      var i :| 0 <= i < |h| && p in h[i];
      assert (h + [next])[i] == h[i];
    }
    if p in next { assert (h + [next])[|h|] == next; }
  }

  /** A merge is not its own input. */
  lemma NotOwnInput(n: nat, inputs: set<FilePath>)
    ensures Merge(n, inputs) !in inputs
  {
  }

  lemma IngestOk(n: nat, o: Owner, ids: set<nat>)
    requires OwnerOk(n, o) && forall id :: id in ids ==> !Known(o.history, Gen1(n, id))
    ensures var k := o.(memory := o.memory + Ingested(n, ids), history := o.history + [Durable(o) + Ingested(n, ids)]);
      OwnerOk(n, k) && forall p :: Gone(o, p) ==> Gone(k, p)
  {
    var next := Durable(o) + Ingested(n, ids);
    forall p | Gone(o, p) ensures Known(o.history + [next], p) { KnownGrows(o.history, next, p); }
  }

  /** Handling a notice brings nothing back but its output, whether or not the record is written. */
  lemma AppliedOk(n: nat, o: Owner, inputs: set<FilePath>, persisted: bool)
    requires OwnerOk(n, o)
    ensures var k := Applied(o, Merge(n, inputs), inputs, persisted);
      OwnerOk(n, k) && forall p :: Gone(o, p) && p != Merge(n, inputs) ==> Gone(k, p)
  {
    var next := Durable(o) + {Merge(n, inputs)} - inputs * o.memory;
    forall p | Gone(o, p) ensures Known(o.history + [next], p) { KnownGrows(o.history, next, p); }
  }

  /**
   When the owner says a merge is recorded, the replacement is durable exactly if its memory was in
   step with its durable index about the notice.
   */
  lemma AckDurableIff(n: nat, o: Owner, inputs: set<FilePath>, persisted: bool)
    requires o.history != [] && SaysRecorded(o, Merge(n, inputs), inputs, persisted)
    ensures var out := Merge(n, inputs);
      Replaced(Applied(o, out, inputs, persisted), out, inputs) <==> InStep(o, out, inputs)
  {
  }

  /** Inputs the replica held are gone once their replacement is durable. */
  lemma ReplacedAreGone(n: nat, o: Owner, inputs: set<FilePath>, persisted: bool)
    requires o.history != [] && forall p :: p in inputs ==> Known(o.history, p)
    requires SaysRecorded(o, Merge(n, inputs), inputs, persisted) && InStep(o, Merge(n, inputs), inputs)
    ensures forall p :: p in inputs ==> Gone(Applied(o, Merge(n, inputs), inputs, persisted), p)
  {
    var k := Applied(o, Merge(n, inputs), inputs, persisted);
    var next := Durable(o) + {Merge(n, inputs)} - inputs * o.memory;
    AckDurableIff(n, o, inputs, persisted);
    forall p | p in inputs ensures Known(k.history, p) { KnownGrows(o.history, next, p); }
  }

  // ---- Steps keep the invariant ----

  /** An owner changed so that what was gone still is. */
  lemma OwnerChanged(s: State, n: nat, k: Owner)
    requires Inv(s) && n in s.owners && OwnerOk(n, k) && forall p :: Gone(s.owners[n], p) ==> Gone(k, p)
    ensures Inv(s.(owners := s.owners[n := k]))
  {
  }

  lemma JoinInv(s: State, n: nat)
    requires Inv(s) && n !in s.owners
    ensures Inv(Do(s, Join(n)))
  {
  }

  lemma TickInv(s: State, elapsed: nat)
    requires Inv(s)
    ensures Inv(Do(s, Tick(elapsed)))
  {
  }

  lemma RestartInv(s: State, readable: bool)
    requires Inv(s)
    ensures Inv(Do(s, RestartCompactor(readable)))
  {
  }

  lemma OwnerInv(s: State, t: Step)
    requires Inv(s) && Enabled(s, t) && (t.Ingest? || t.RestartOwner? || t.ReadLog?)
    ensures Inv(Do(s, t))
  {
    if t.Ingest? { IngestOk(t.n, s.owners[t.n], t.ids); }
    var k := Do(s, t).owners[t.n];
    assert OwnerOk(t.n, k) && forall p :: Gone(s.owners[t.n], p) ==> Gone(k, p);
    hide OwnerOk, Gone, AckedOk, QueuesOk;
    OwnerChanged(s, t.n, k);
  }

  /** Writing an output that is not queued. */
  lemma WrittenInv(s: State, n: nat, inputs: seq<FilePath>)
    requires Inv(s) && s.owed.None? && Merge(n, Elements(inputs)) !in Queued(s)
    ensures Inv(Written(s, n, inputs)) && Queued(Written(s, n, inputs)) == Queued(s)
  {
    var out := Merge(n, Elements(inputs));
    forall e | e in s.pending ensures e.path != out { assert e.path in PathsOf(s.pending); }
    if s.stored.Some? {
      forall e | e in s.stored.value ensures e.path != out { assert e.path in PathsOf(s.stored.value); }
    }
  }

  lemma GiveUpInv(s: State, t: Step)
    requires Inv(s) && t.GiveUp? && Enabled(s, t) && Careful(s, t)
    ensures Inv(Do(s, t))
  {
    hide Inv, Queued;
    WrittenInv(s, t.n, t.inputs);
    SentInv(Written(s, t.n, t.inputs), Notice(t.n, t.inputs));
  }

  lemma SentInv(s: State, m: Notice)
    requires Inv(s) && Merge(m.n, Elements(m.inputs)) !in s.acked
    ensures Inv(s.(sent := s.sent + {m}))
  {
    assert Outstanding(s.(sent := s.sent + {m})) == Outstanding(s) + {Merge(m.n, Elements(m.inputs))};
  }

  /** An owner handles a notice whose output is not among the acknowledged inputs. */
  lemma HandledInv(s: State, n: nat, inputs: seq<FilePath>, persisted: bool)
    requires Inv(s) && n in s.owners && Merge(n, Elements(inputs)) !in s.acked
    ensures Inv(Handled(s, n, inputs, persisted))
  {
    var o, ins := s.owners[n], Elements(inputs);
    AppliedOk(n, o, ins, persisted);
    hide Applied, Gone, QueuesOk, Elements, OwnerOk, LooksApplied, Outstanding;
  }

  lemma LateInv(s: State, t: Step)
    requires Inv(s) && t.HandleLate? && Enabled(s, t)
    ensures Inv(Do(s, t))
  {
    hide AckedOk, QueuesOk, OwnerOk;
    assert Output(t) in Outstanding(s);
    HandledInv(s, t.n, t.inputs, t.persisted);
    var k := Handled(s, t.n, t.inputs, t.persisted);
    assert Outstanding(Do(s, t)) <= Outstanding(k);
    QueuesSame(k, Do(s, t));
  }

  lemma QueuesSame(s: State, k: State)
    requires Inv(s) && k.(sent := s.sent) == s && Outstanding(k) <= Outstanding(s)
    ensures Inv(k)
  {
  }

  lemma AckInv(s: State, n: nat, inputs: seq<FilePath>)
    requires Inv(s) && n in s.owners && s.owed.None? && Elements(inputs) !! Outstanding(s)
    requires forall p :: p in inputs ==> p.node == n && Gone(s.owners[n], p)
    ensures Inv(s.(owed := Some(inputs), acked := FirstTimes(s.acked, Elements(inputs), s.clock)))
  {
  }

  lemma NotifyInv(s: State, t: Step)
    requires Inv(s) && t.Notify? && Enabled(s, t) && Careful(s, t)
    ensures Inv(Do(s, t))
  {
    hide Inv, Applied, InStep, Queued, Elements, LooksApplied, Outstanding, Gone, SaysRecorded;
    var n, o, ins := t.n, s.owners[t.n], Elements(t.inputs);
    WrittenInv(s, n, t.inputs);
    var written := Written(s, n, t.inputs);
    HandledInv(written, n, t.inputs, t.persisted);
    if Acknowledges(s, t) {
      OwnerFacts(s, n);
      OwnInputs(n, o, t.inputs);
      ReplacedAreGone(n, o, ins, t.persisted);
      SentSame(s, Handled(written, n, t.inputs, t.persisted));
      AckInv(Handled(written, n, t.inputs, t.persisted), n, t.inputs);
    }
  }

  lemma SentSame(s: State, k: State)
    requires k.sent == s.sent
    ensures Outstanding(k) == Outstanding(s)
  {
  }

  lemma OwnerFacts(s: State, n: nat)
    requires Inv(s) && n in s.owners
    ensures OwnerOk(n, s.owners[n])
  {
  }

  lemma OwnInputs(n: nat, o: Owner, inputs: seq<FilePath>)
    requires OwnerOk(n, o) && forall p :: p in Elements(inputs) ==> Known(o.history, p)
    ensures o.history != []
    ensures forall p :: p in inputs ==> p in Elements(inputs) && p.node == n
  {
  }

  lemma ScheduleInv(s: State, written: bool)
    requires Inv(s) && Enabled(s, Schedule(written))
    ensures Inv(Do(s, Schedule(written)))
  {
  }

  lemma ReclaimInv(s: State, undeletable: set<FilePath>, written: bool)
    requires Inv(s)
    ensures Inv(Do(s, Reclaim(undeletable, written)))
  {
    DueOrWaiting(s.pending, s.clock);
    var n := Do(s, Reclaim(undeletable, written));
    forall p | p in n.deleted ensures p in n.acked && n.acked[p] + n.grace <= n.deleted[p] {
      if p !in s.deleted {
        var e :| e in DueBy(s.pending, s.clock) && e.path == p;
      }
    }
  }

  lemma StepInv(s: State, t: Step)
    requires Inv(s) && Enabled(s, t) && Careful(s, t)
    ensures Inv(Do(s, t))
  {
    match t
    case Join(n) => JoinInv(s, n);
    case Tick(elapsed) => TickInv(s, elapsed);
    case Ingest(_, _) => OwnerInv(s, t);
    case RestartOwner(_) => OwnerInv(s, t);
    case ReadLog(_, _) => OwnerInv(s, t);
    case Notify(_, _, _, _) => NotifyInv(s, t);
    case GiveUp(_, _) => GiveUpInv(s, t);
    case HandleLate(_, _, _) => LateInv(s, t);
    case Schedule(written) => ScheduleInv(s, written);
    case Reclaim(undeletable, written) => ReclaimInv(s, undeletable, written);
    case RestartCompactor(readable) => RestartInv(s, readable);
  }

  lemma {:induction false} RunInv(s: State, ts: seq<Step>)
    requires Inv(s) && CarefulRun(s, ts)
    ensures Run(s, ts) && Inv(After(s, ts))
    decreases |ts|
  {
    if ts != [] {
      StepInv(s, ts[0]);
      RunInv(Do(s, ts[0]), ts[1..]);
    }
  }

  // ---- Safety ----

  /** In no owner's index, in memory or durable. */
  ghost predicate Dead(s: State, p: FilePath) {
    forall n :: n in s.owners ==> p !in s.owners[n].memory && p !in Durable(s.owners[n])
  }

  /**
   Every queued or stored deletion is of a path whose replacement was acknowledged at least the
   grace period before it is due; nothing is deleted earlier than that; and no path whose object is
   deleted is in any owner's index, in memory or durable.
   */
  ghost predicate Safe(s: State) {
    && (forall e :: e in s.pending ==> e.path in s.acked && s.acked[e.path] + s.grace <= e.due)
    && (s.stored.Some? ==>
          forall e :: e in s.stored.value ==> e.path in s.acked && s.acked[e.path] + s.grace <= e.due)
    && (forall p :: p in s.deleted ==> p in s.acked && s.acked[p] + s.grace <= s.deleted[p] && Dead(s, p))
  }

  lemma AckedIsDead(s: State, p: FilePath)
    requires Inv(s) && p in s.acked
    ensures Dead(s, p)
  {
    forall n | n in s.owners ensures p !in s.owners[n].memory && p !in Durable(s.owners[n]) {
      assert OwnerOk(n, s.owners[n]) && Gone(s.owners[p.node], p);
    }
  }

  lemma CarefulRunsAreSafe(grace: nat, clock: int, ts: seq<Step>)
    requires CarefulRun(Start(grace, clock), ts)
    ensures Run(Start(grace, clock), ts) && Safe(After(Start(grace, clock), ts))
  {
    RunInv(Start(grace, clock), ts);
    var s := After(Start(grace, clock), ts);
    forall p | p in s.deleted ensures Dead(s, p) { AckedIsDead(s, p); }
  }

  // ---- Out of step ----

  lemma RunStep(s: State, t: Step, ts: seq<Step>)
    requires Enabled(s, t) && Run(Do(s, t), ts)
    ensures Run(s, [t] + ts) && After(s, [t] + ts) == After(Do(s, t), ts)
    ensures Careful(s, t) && CarefulRun(Do(s, t), ts) ==> CarefulRun(s, [t] + ts)
  {
  }

  function Reclaiming(grace: nat): seq<Step> { [Schedule(true)] + ([Tick(grace)] + ([Reclaim({}, true)] + [])) }

  lemma DueIsDeleted(s: State, e: PendingDeletion)
    requires e in s.pending && e.due <= s.clock
    ensures e.path in Do(s, Reclaim({}, true)).deleted && Do(s, Reclaim({}, true)).owners == s.owners
  {
    DueOrWaiting(s.pending, s.clock);
    assert e in DueBy(s.pending, s.clock) && e.path in PathsOf(DueBy(s.pending, s.clock));
  }

  lemma OwedIsQueued(s: State, x: FilePath)
    requires s.owed.Some? && x in s.owed.value
    ensures PendingDeletion(s.clock + s.grace, x) in Do(s, Schedule(true)).pending
  {
    var i :| 0 <= i < |s.owed.value| && s.owed.value[i] == x;
    assert Entries(s.owed.value, s.clock + s.grace)[i] == PendingDeletion(s.clock + s.grace, x);
  }

  /** Whatever was acknowledged is deleted when the grace period is over. */
  lemma AckedIsReclaimed(s: State, x: FilePath)
    requires s.owed.Some? && x in s.owed.value
    ensures Run(s, Reclaiming(s.grace))
    ensures var n := After(s, Reclaiming(s.grace)); x in n.deleted && n.owners == s.owners
  {
    var s1 := Do(s, Schedule(true));
    var s2 := Do(s1, Tick(s.grace));
    var s3 := Do(s2, Reclaim({}, true));
    OwedIsQueued(s, x);
    DueIsDeleted(s2, PendingDeletion(s.clock + s.grace, x));
    assert Run(s3, []) && After(s3, []) == s3;
    hide DueBy, WaitingAt, PathsOf, Entries, Run, CarefulRun, After, Stored;
    RunStep(s2, Reclaim({}, true), []);
    RunStep(s1, Tick(s.grace), [Reclaim({}, true)] + []);
    RunStep(s, Schedule(true), [Tick(s.grace)] + ([Reclaim({}, true)] + []));
  }

  lemma AppliedKeeps(o: Owner, out: FilePath, inputs: set<FilePath>, persisted: bool, x: FilePath)
    requires o.history != [] && x in Durable(o) && x !in o.memory
    ensures x in Durable(Applied(o, out, inputs, persisted))
  {
  }

  function Aftermath(n: nat, inputs: seq<FilePath>, persisted: bool, grace: nat): seq<Step> {
    [Notify(n, inputs, persisted, true)] + Reclaiming(grace)
  }

  /**
   An owner that no longer has a durable input in memory acknowledges a merge that leaves the input
   in the durable index, and once the grace period is over the compactor deletes it.
   */
  lemma OutOfStepLoses(s: State, n: nat, inputs: seq<FilePath>, persisted: bool, x: FilePath)
    requires Enabled(s, Notify(n, inputs, persisted, true))
    requires SaysRecorded(s.owners[n], Merge(n, Elements(inputs)), Elements(inputs), persisted)
    requires x in inputs && x in Durable(s.owners[n]) && x !in s.owners[n].memory
    ensures Run(s, Aftermath(n, inputs, persisted, s.grace))
    ensures var k := After(s, Aftermath(n, inputs, persisted, s.grace));
      x in k.deleted && n in k.owners && x in Durable(k.owners[n])
  {
    assert x in Elements(inputs) && Known(s.owners[n].history, x);
    hide Run, CarefulRun, After, Reclaiming, Applied, Durable;
    AppliedKeeps(s.owners[n], Merge(n, Elements(inputs)), Elements(inputs), persisted, x);
    AckedIsReclaimed(Do(s, Notify(n, inputs, persisted, true)), x);
    RunStep(s, Notify(n, inputs, persisted, true), Reclaiming(s.grace));
  }

  const PAIR: seq<FilePath> := [Gen1(7, 0), Gen1(7, 1)]

  // ---- What the two checks are for ----

  /**
   In any state careful runs reach, sending a notice keeps everything deletion safety rests on exactly
   if its output is not queued and, when it is acknowledged, none of its inputs is outstanding.
   */
  lemma NoticeSafeIff(s: State, t: Step)
    requires Inv(s) && Enabled(s, t) && (t.Notify? || t.GiveUp?) && Met(s, t)
    ensures Inv(Do(s, t)) <==>
      Output(t) !in Queued(s) && (Acknowledges(s, t) ==> Elements(t.inputs) !! Outstanding(s))
  {
    hide Inv, Met, Queued, Outstanding, Acknowledges;
    if Output(t) in Queued(s) {
      QueuedBreaks(s, t);
    } else if Acknowledges(s, t) && !(Elements(t.inputs) !! Outstanding(s)) {
      OutstandingBreaks(s, t);
    } else if t.GiveUp? {
      GiveUpInv(s, t);
    } else {
      UnansweredInv(s, t);
    }
  }

  lemma UnansweredInv(s: State, t: Step)
    requires Inv(s) && t.Notify? && Enabled(s, t) && Met(s, t) && Output(t) !in Queued(s)
    requires Acknowledges(s, t) ==> Elements(t.inputs) !! Outstanding(s)
    ensures Inv(Do(s, t))
  {
    hide Inv, Queued, Outstanding, InStep;
    if Acknowledges(s, t) {
      NotifyInv(s, t);
    } else {
      WrittenInv(s, t.n, t.inputs);
      HandledInv(Written(s, t.n, t.inputs), t.n, t.inputs, t.persisted);
    }
  }

  lemma QueuedBreaks(s: State, t: Step)
    requires Inv(s) && Enabled(s, t) && (t.Notify? || t.GiveUp?) && Output(t) in Queued(s)
    ensures !Inv(Do(s, t))
  {
    if t.GiveUp? {
      assert Output(t) !in Do(s, t).acked && Queued(Do(s, t)) == Queued(s);
      if Inv(Do(s, t)) { QueuedIsAcked(Do(s, t), Output(t)); }
    } else {
      QueuedComesBack(s, t);
      if Inv(Do(s, t)) {
        QueuedIsAcked(Do(s, t), Output(t));
        AckedIsDead(Do(s, t), Output(t));
      }
    }
  }

  lemma OutstandingBreaks(s: State, t: Step)
    requires Enabled(s, t) && Acknowledges(s, t) && !(Elements(t.inputs) !! Outstanding(s))
    ensures !Inv(Do(s, t))
  {
    var p :| p in Elements(t.inputs) && p in Outstanding(s);
    assert p in Do(s, t).acked && p in Outstanding(Do(s, t));
  }

  lemma QueuedComesBack(s: State, t: Step)
    requires Inv(s) && t.Notify? && Enabled(s, t) && Output(t) in Queued(s)
    ensures var k := Do(s, t);
      && t.n in k.owners && Output(t) in k.owners[t.n].memory && Output(t) in Queued(k)
      && (t.persisted ==> Output(t) in Durable(k.owners[t.n]))
      && k.pending == s.pending && k.stored == s.stored && k.clock == s.clock
  {
    QueuedIsAcked(s, Output(t));
    AckedIsDead(s, Output(t));
    NotOwnInput(t.n, Elements(t.inputs));
  }

  /** Nothing but time and a pass of the compactor is needed for an entry to be deleted. */
  lemma PendingIsDeleted(s: State, p: FilePath) returns (later: seq<Step>)
    requires p in PathsOf(s.pending)
    ensures Run(s, later) && forall t :: t in later ==> !OfMerge(t)
    ensures p in After(s, later).deleted && After(s, later).owners == s.owners
  {
    var e :| e in s.pending && e.path == p;
    var wait := if e.due > s.clock then e.due - s.clock else 0;
    later := [Tick(wait)] + ([Reclaim({}, true)] + []);
    var s1 := Do(s, Tick(wait));
    var s2 := Do(s1, Reclaim({}, true));
    DueIsDeleted(s1, e);
    assert Run(s2, []) && After(s2, []) == s2;
    hide DueBy, WaitingAt, PathsOf, Run, CarefulRun, After, Stored;
    RunStep(s1, Reclaim({}, true), []);
    RunStep(s, Tick(wait), [Reclaim({}, true)] + []);
  }

  lemma QueuedIsDeleted(s: State, p: FilePath) returns (later: seq<Step>)
    requires p in PathsOf(s.pending) || (s.stored.Some? && p in PathsOf(s.stored.value))
    ensures Run(s, later) && forall t :: t in later ==> !OfMerge(t)
    ensures p in After(s, later).deleted
    ensures forall n :: n in s.owners ==>
      && n in After(s, later).owners
      && After(s, later).owners[n].memory == s.owners[n].memory
      && After(s, later).owners[n].history == s.owners[n].history
  {
    if p in PathsOf(s.pending) {
      later := PendingIsDeleted(s, p);
    } else {
      var s1 := Do(s, RestartCompactor(true));
      var rest := PendingIsDeleted(s1, p);
      later := [RestartCompactor(true)] + rest;
      hide Run, CarefulRun, After;
      RunStep(s, RestartCompactor(true), rest);
    }
  }

  /**
   A notice whose output is queued for deletion always can lose it: without any further notice or
   failure the output is deleted while its owner serves it.
   */
  lemma QueuedOutputLoses(s: State, t: Step) returns (later: seq<Step>)
    requires Inv(s) && t.Notify? && Enabled(s, t) && Output(t) in Queued(s)
    ensures Run(s, [t] + later) && forall u :: u in later ==> !OfMerge(u)
    ensures var k := After(s, [t] + later);
      && Output(t) in k.deleted && t.n in k.owners && Output(t) in k.owners[t.n].memory && !Safe(k)
      && (t.persisted ==> Output(t) in Durable(k.owners[t.n]))
  {
    QueuedComesBack(s, t);
    hide Run, CarefulRun, After, PathsOf, Queued;
    assert Output(t) in PathsOf(s.pending) || (s.stored.Some? && Output(t) in PathsOf(s.stored.value)) by {
      QueuedWhere(s, Output(t));
    }
    later := QueuedIsDeleted(Do(s, t), Output(t));
    RunStep(s, t, later);
  }

  lemma QueuedWhere(s: State, p: FilePath)
    requires s.owed.None? && p in Queued(s)
    ensures p in PathsOf(s.pending) || (s.stored.Some? && p in PathsOf(s.stored.value))
  {
  }

  /**
   And a merge of the output of a notice that was given up on, once acknowledged, always can lose it:
   the owner handles that notice late, and the output is deleted while the owner serves it.
   */
  lemma OutstandingLoses(s: State, t: Step, m: Notice) returns (later: seq<Step>)
    requires Inv(s) && Enabled(s, t) && Acknowledges(s, t)
    requires m in s.sent && Merge(m.n, Elements(m.inputs)) in Elements(t.inputs)
    ensures Run(s, [t] + later) && forall u :: u in later ==> !u.Notify? && !u.GiveUp?
    ensures forall u :: u in later && u.HandleLate? ==> u.persisted
    ensures var k, p := After(s, [t] + later), Merge(m.n, Elements(m.inputs));
      p in k.deleted && m.n in k.owners && p in k.owners[m.n].memory && !Safe(k)
  {
    hide Run, CarefulRun, After, Inv, Safe, PathsOf, Elements, Applied, Entries, SaysRecorded;
    var p, late := Merge(m.n, Elements(m.inputs)), HandleLate(m.n, m.inputs, true);
    LateNode(s, t, m);
    var s1 := Do(s, t);
    OwedIsQueued(s1, p);
    var s2 := Do(s1, Schedule(true));
    LateServes(s2, m, PendingDeletion(s1.clock + s1.grace, p));
    var s3 := Do(s2, late);
    var rest := PendingIsDeleted(s3, p);
    later := [Schedule(true)] + ([late] + rest);
    RunStep(s2, late, rest);
    RunStep(s1, Schedule(true), [late] + rest);
    RunStep(s, t, later);
    NotSafe(After(s, [t] + later), m.n, p);
  }

  lemma LateNode(s: State, t: Step, m: Notice)
    requires Inv(s) && Enabled(s, t) && t.Notify? && Merge(m.n, Elements(m.inputs)) in Elements(t.inputs)
    ensures m.n == t.n && m.n in s.owners && Merge(m.n, Elements(m.inputs)) in t.inputs
  {
    OwnInputs(t.n, s.owners[t.n], t.inputs);
  }

  lemma LateServes(s: State, m: Notice, e: PendingDeletion)
    requires m.n in s.owners && e in s.pending && e.path == Merge(m.n, Elements(m.inputs))
    ensures var k := Handled(s, m.n, m.inputs, true);
      e.path in k.owners[m.n].memory && e.path in PathsOf(k.pending)
  {
    NotOwnInput(m.n, Elements(m.inputs));
  }

  lemma NotSafe(s: State, n: nat, p: FilePath)
    requires p in s.deleted && n in s.owners && p in s.owners[n].memory
    ensures !Safe(s)
  {
    assert !Dead(s, p);
  }
}
