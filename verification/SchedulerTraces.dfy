/**
 Each primitive action of the event loop as a step of the trace, and what the invariant of every
 run says of the loop's own data.
 */
module SchedulerTraces {
  import opened SchedulerModel
  import opened SchedulerPlaces
  import opened SchedulerSlots
  import opened SchedulerOrder
  import opened SchedulerRuns
  import opened SchedulerLoop

  // ---- A step taken, in the trace and in the loop ----

  lemma InvNow(trace: seq<Step>, l: Loop)
    requires Traced(trace, l)
    ensures Inv(After(INITIAL, trace))
  {
    Reachable(trace);
  }

  /** What the invariant says of the loop's own data. */
  lemma LoopFacts(trace: seq<Step>, l: Loop)
    requires Traced(trace, l)
    ensures l.permits.Keys == l.submitted.Keys == l.runtimes.Keys && l.states.Keys <= l.runtimes.Keys
    ensures l.cancelled <= l.runtimes.Keys
    ensures forall rid :: rid in l.states && l.states[rid].shuttingDown ==>
      rid in l.cancelled && l.states[rid].queue == []
    ensures forall w :: w in l.running ==> l.running[w].rid in l.states
    ensures forall d :: d in l.delayed ==> l.delayed[d].rid in l.states
    ensures forall k :: k in l.disabling ==> l.disabling[k].rid in l.states
    ensures forall i :: 0 <= i < |l.ready| ==> l.ready[i].rid in l.states
    ensures forall rid, i :: rid in l.states && 0 <= i < |l.states[rid].queue| ==> l.states[rid].queue[i].rid == rid
  {
    var s := After(INITIAL, trace);
    InvNow(trace, l);
    hide SlotOk, PermitOk, OrderOk, AllSerial, QueueOk, RecordsOk, ShelfOk;
    ShelfLive(OnWorker, s, l.running, l.nextId);
    ShelfLive(OnTimer, s, l.delayed, l.nextId);
    ShelfLive(OnDisable, s, l.disabling, l.nextId);
    ReadyLive(s, l);
    forall rid, i | rid in l.states && 0 <= i < |l.states[rid].queue| ensures l.states[rid].queue[i].rid == rid {
      QueuedFacts(s, l, rid, i);
    }
  }

  /** What is on a shelf or taken for submission holds a slot, so its runtime has a state. */
  lemma ShelfLive(h: Shelf, s: Sched, m: map<nat, Job>, nextId: nat)
    requires SlotsOk(s) && ShelfOk(h, s.book, m, nextId)
    ensures forall k :: k in m ==> m[k].rid in s.states
  {
    hide SlotsOk;
    forall k | k in m ensures m[k].rid in s.states {
      NeverSaturates(s, m[k].inv);
    }
  }

  lemma ReadyLive(s: Sched, l: Loop)
    requires SlotsOk(s) && ReadyOk(s.book, s.ready) && QueuesOk(s, l)
    ensures forall i :: 0 <= i < |l.ready| ==> l.ready[i].rid in s.states
  {
    hide SlotsOk;
    forall i | 0 <= i < |l.ready| ensures l.ready[i].rid in s.states {
      assert s.ready[i] == l.ready[i].inv && s.ready[i] in s.ready;
      NeverSaturates(s, l.ready[i].inv);
    }
  }

  lemma QueuedFacts(s: Sched, l: Loop, rid: nat, i: nat)
    requires PlacesOk(s) && Coupled(s, l) && rid in l.states && i < |l.states[rid].queue|
    ensures l.states[rid].queue[i].rid == rid
  {
    assert QueueOk(s.book, rid, QueueOf(s, rid));
    assert QueueOf(s, rid)[i] == l.states[rid].queue[i].inv;
    assert l.states[rid].queue[i].inv in QueueOf(s, rid);
  }

  /** What the book says of a job on a worker. */
  lemma RunningFacts(trace: seq<Step>, l: Loop, w: nat)
    requires Traced(trace, l) && w in l.running
    ensures var j, book := l.running[w], BookAfter(trace);
      && j.inv in book && book[j.inv].rid == j.rid && book[j.inv].attempt == j.attempt && book[j.inv].kind == j.kind
      && book[j.inv].place.Running?
  {
  }

  lemma CancelledKnown(trace: seq<Step>, l: Loop)
    requires Traced(trace, l)
    ensures l.cancelled <= l.runtimes.Keys
  {
    LoopFacts(trace, l);
  }

  lemma DownIsCancelled(trace: seq<Step>, l: Loop)
    requires Traced(trace, l)
    ensures forall rid :: rid in l.states && l.states[rid].shuttingDown ==> rid in l.cancelled
  {
    LoopFacts(trace, l);
  }

  lemma RuntimeKnown(trace: seq<Step>, l: Loop, j: Job)
    requires Traced(trace, l) && Received(After(INITIAL, trace), j)
    ensures j.rid in l.runtimes
  {
    InvNow(trace, l);
  }

  lemma TracedDropHead(trace: seq<Step>, l: Loop, rid: nat)
    requires Traced(trace, l) && rid in l.states && l.states[rid].queue != [] && rid in l.cancelled
    ensures Traced(trace + [DropHead(rid)], DoDropHead(l, rid))
  {
    var s := After(INITIAL, trace);
    InvNow(trace, l);
    HeadMatches(s, l, rid);
    SimDropHead(s, l, rid, l.states[rid].queue[0]);
    TracedSnoc(trace, l, DropHead(rid), DoDropHead(l, rid));
  }

  lemma TracedMarkDown(trace: seq<Step>, l: Loop, rid: nat)
    requires Traced(trace, l) && rid in l.states && l.states[rid].queue == [] && rid in l.cancelled
    ensures Traced(trace + [MarkDown(rid)], DoMarkDown(l, rid))
  {
    SimMarkDown(After(INITIAL, trace), l, rid);
    TracedSnoc(trace, l, MarkDown(rid), DoMarkDown(l, rid));
  }

  lemma TracedTake(trace: seq<Step>, l: Loop, rid: nat)
    requires Traced(trace, l) && rid in l.states && l.states[rid].queue != [] && rid in l.runtimes
    requires !l.states[rid].shuttingDown && rid !in l.cancelled
    requires l.states[rid].inFlight < l.runtimes[rid].maxConcurrency
    ensures Traced(trace + [TakeOne(rid)], DoTake(l, rid))
  {
    var s := After(INITIAL, trace);
    InvNow(trace, l);
    HeadMatches(s, l, rid);
    SimTake(s, l, rid, l.states[rid].queue[0]);
    TracedSnoc(trace, l, TakeOne(rid), DoTake(l, rid));
  }

  lemma TracedSubmitReady(trace: seq<Step>, l: Loop, worker: nat)
    requires Traced(trace, l) && l.ready != [] && l.ready[0].rid in l.submitted
    ensures Traced(trace + [SubmitReady(l.nextId)], DoSubmit(l, l.ready[0], worker).(ready := l.ready[1..]))
  {
    var s := After(INITIAL, trace);
    InvNow(trace, l);
    ReadyMatches(s, l);
    SimSubmitReady(s, l, l.ready[0], worker);
    TracedSnoc(trace, l, SubmitReady(l.nextId), DoSubmit(l, l.ready[0], worker).(ready := l.ready[1..]));
  }

  lemma TracedResubmit(trace: seq<Step>, l: Loop, d: nat, worker: nat)
    requires Traced(trace, l) && d in l.delayed && l.delayed[d].rid in l.submitted
    requires l.delayed[d].rid in l.states && !l.states[l.delayed[d].rid].shuttingDown
    requires l.delayed[d].rid !in l.cancelled
    ensures Traced(trace + [Resubmit(l.delayed[d].inv, l.nextId)], DoResubmit(l, d, worker))
  {
    SimResubmit(After(INITIAL, trace), l, d, worker);
    TracedSnoc(trace, l, Resubmit(l.delayed[d].inv, l.nextId), DoResubmit(l, d, worker));
  }

  /** The trace with one more step. */
  ghost predicate Taken(trace: seq<Step>, t: Step) {
    && Run(INITIAL, trace) && Enabled(After(INITIAL, trace), t)
    && Run(INITIAL, trace + [t]) && After(INITIAL, trace + [t]) == Do(After(INITIAL, trace), t)
  }

  ghost function BookAfter(trace: seq<Step>): map<nat, Record> {
    if Run(INITIAL, trace) then After(INITIAL, trace).book else map[]
  }

  lemma LeftBook(trace: seq<Step>, inv: nat, why: Reason)
    requires Taken(trace, Leave(inv, why)) && inv in BookAfter(trace) && BookAfter(trace)[inv].place.Running?
    ensures var r, book := BookAfter(trace)[inv], BookAfter(trace + [Leave(inv, why)]);
      book == BookAfter(trace)[inv := r.(place := Done, answers := r.answers + if r.kind.Request? then 1 else 0)]
  {
  }

  lemma DisablingBook(trace: seq<Step>, inv: nat, ticket: nat)
    requires Taken(trace, ToDisable(inv, ticket)) && inv in BookAfter(trace)
    ensures var r, book := BookAfter(trace)[inv], BookAfter(trace + [ToDisable(inv, ticket)]);
      book == BookAfter(trace)[inv :=
        r.(place := Disabling(ticket), answers := r.answers + if r.kind.Request? then 1 else 0)]
  {
  }

  lemma DelayedBook(trace: seq<Step>, inv: nat, delay: nat)
    requires Taken(trace, ToDelay(inv, delay)) && inv in BookAfter(trace)
    ensures var r, book := BookAfter(trace)[inv], BookAfter(trace + [ToDelay(inv, delay)]);
      book == BookAfter(trace)[inv := r.(place := Delayed(delay), attempt := r.attempt + 1)]
  {
  }

  lemma TracedFinish(trace: seq<Step>, l: Loop, w: nat, why: Reason)
    requires Traced(trace, l) && w in l.running && l.running[w].rid in l.runtimes && Ends(l, w, why)
    ensures var t := Leave(l.running[w].inv, why); Traced(trace + [t], DoFinish(l, w)) && Taken(trace, t)
  {
    SimFinish(After(INITIAL, trace), l, w, why);
    TracedSnoc(trace, l, Leave(l.running[w].inv, why), DoFinish(l, w));
  }

  lemma TracedToDisable(trace: seq<Step>, l: Loop, w: nat)
    requires Traced(trace, l) && w in l.running && l.running[w].rid in l.runtimes && l.running[w].rid !in l.cancelled
    requires l.runtimes[l.running[w].rid].behavior.Disable?
    ensures var t := ToDisable(l.running[w].inv, l.nextId); Traced(trace + [t], DoToDisable(l, w)) && Taken(trace, t)
  {
    SimToDisable(After(INITIAL, trace), l, w);
    TracedSnoc(trace, l, ToDisable(l.running[w].inv, l.nextId), DoToDisable(l, w));
  }

  lemma TracedToDelay(trace: seq<Step>, l: Loop, w: nat)
    requires Traced(trace, l) && w in l.running && l.running[w].rid in l.runtimes
    requires l.running[w].attempt < l.runtimes[l.running[w].rid].maxAttempts
    requires l.running[w].rid !in l.cancelled && l.runtimes[l.running[w].rid].behavior.Retry?
    ensures var t := ToDelay(l.running[w].inv, l.nextId); Traced(trace + [t], DoToDelay(l, w)) && Taken(trace, t)
  {
    var s := After(INITIAL, trace);
    InvNow(trace, l);
    RunningInNoQueue(s, l.running[w].inv);
    SimToDelay(s, l, w);
    TracedSnoc(trace, l, ToDelay(l.running[w].inv, l.nextId), DoToDelay(l, w));
  }

  lemma TracedDisabled(trace: seq<Step>, l: Loop, ticket: nat)
    requires Traced(trace, l) && ticket in l.disabling
    ensures Traced(trace + [Leave(l.disabling[ticket].inv, Finished)], DoDisabled(l, ticket))
  {
    SimDisabled(After(INITIAL, trace), l, ticket);
    TracedSnoc(trace, l, Leave(l.disabling[ticket].inv, Finished), DoDisabled(l, ticket));
  }

  lemma TracedRetryCancelled(trace: seq<Step>, l: Loop, d: nat)
    requires Traced(trace, l) && d in l.delayed && l.delayed[d].rid in l.cancelled
    ensures Traced(trace + [Leave(l.delayed[d].inv, TurnedOff)], DoRetryCancelled(l, d))
  {
    SimRetryCancelled(After(INITIAL, trace), l, d);
    TracedSnoc(trace, l, Leave(l.delayed[d].inv, TurnedOff), DoRetryCancelled(l, d));
  }

  lemma TracedRefuse(trace: seq<Step>, l: Loop, j: Job)
    requires Traced(trace, l) && Received(After(INITIAL, trace), j) && j.inv !in l.inbox && j.rid in l.cancelled
    ensures Traced(trace + [Refuse(j.inv)], DoRefuse(l, j))
  {
    SimRefuse(After(INITIAL, trace), l, j);
    TracedSnoc(trace, l, Refuse(j.inv), DoRefuse(l, j));
  }

  lemma TracedOpen(trace: seq<Step>, l: Loop, j: Job)
    requires Traced(trace, l) && Received(After(INITIAL, trace), j) && j.rid !in l.states && j.rid !in l.cancelled
    ensures Traced(trace + [OpenState(j.rid)], DoOpen(l, j.rid))
    ensures Received(After(INITIAL, trace + [OpenState(j.rid)]), j)
  {
    InvNow(trace, l);
    SimOpen(After(INITIAL, trace), l, j.rid);
    TracedSnoc(trace, l, OpenState(j.rid), DoOpen(l, j.rid));
  }

  lemma TracedAdmit(trace: seq<Step>, l: Loop, j: Job)
    requires Traced(trace, l) && Received(After(INITIAL, trace), j) && j.inv !in l.inbox
    requires j.rid in l.states && !l.states[j.rid].shuttingDown && j.rid !in l.cancelled
    ensures Traced(trace + [Admit(j.inv)], DoAdmit(l, j))
  {
    InvNow(trace, l);
    SimAdmit(After(INITIAL, trace), l, j);
    TracedSnoc(trace, l, Admit(j.inv), DoAdmit(l, j));
  }

  lemma TracedCancel(trace: seq<Step>, l: Loop, rid: nat)
    requires Traced(trace, l) && rid in l.runtimes
    ensures Traced(trace + [Cancel(rid)], l.(cancelled := l.cancelled + {rid}))
    ensures After(INITIAL, trace + [Cancel(rid)]).book == After(INITIAL, trace).book
  {
    SimCancel(After(INITIAL, trace), l, rid);
    TracedSnoc(trace, l, Cancel(rid), l.(cancelled := l.cancelled + {rid}));
  }

  lemma TracedAddWaiter(trace: seq<Step>, l: Loop, rid: nat, waiter: nat)
    requires Traced(trace, l) && rid in l.states && rid in l.cancelled
    ensures Traced(trace + [AddWaiter(rid, waiter)], DoAddWaiter(l, rid, waiter))
  {
    SimAddWaiter(After(INITIAL, trace), l, rid, waiter);
    TracedSnoc(trace, l, AddWaiter(rid, waiter), DoAddWaiter(l, rid, waiter));
  }

  lemma TracedAckAbsent(trace: seq<Step>, l: Loop, rid: nat, waiter: nat)
    requires Traced(trace, l) && rid !in l.states && rid in l.cancelled
    ensures Traced(trace + [AckAbsent(rid, waiter)], l.(acked := l.acked + {waiter}))
  {
    SimAckAbsent(After(INITIAL, trace), l, rid, waiter);
    TracedSnoc(trace, l, AckAbsent(rid, waiter), l.(acked := l.acked + {waiter}));
  }

  lemma TracedRemoveState(trace: seq<Step>, l: Loop, rid: nat)
    requires Traced(trace, l) && rid in l.states && l.states[rid].shuttingDown && l.states[rid].inFlight == 0
    ensures Traced(trace + [RemoveState(rid)], DoRemoveState(l, rid))
  {
    SimRemoveState(After(INITIAL, trace), l, rid);
    TracedSnoc(trace, l, RemoveState(rid), DoRemoveState(l, rid));
  }

  lemma TracedRegister(trace: seq<Step>, l: Loop, rid: nat, rt: Runtime)
    requires Traced(trace, l) && rid !in l.runtimes && rt.maxConcurrency >= 1
    ensures Traced(trace + [Register(rid, rt)], DoRegister(l, rid, rt))
  {
    SimRegister(After(INITIAL, trace), l, rid, rt);
    TracedSnoc(trace, l, Register(rid, rt), DoRegister(l, rid, rt));
  }

  lemma TracedAcquire(trace: seq<Step>, l: Loop, inv: nat, rid: nat, kind: Kind)
    requires Traced(trace, l) && inv !in After(INITIAL, trace).book
    requires rid in l.runtimes && rid in l.permits && l.permits[rid] > 0
    ensures Traced(trace + [Acquire(inv, rid, kind)], DoAcquire(l, inv, rid, kind))
  {
    SimAcquire(After(INITIAL, trace), l, inv, rid, kind);
    TracedSnoc(trace, l, Acquire(inv, rid, kind), DoAcquire(l, inv, rid, kind));
  }

  lemma TracedAbandon(trace: seq<Step>, l: Loop, inv: nat)
    requires Traced(trace, l) && inv in l.inbox
    ensures Traced(trace + [Abandon(inv)], DoAbandon(l, inv))
  {
    SimAbandon(After(INITIAL, trace), l, inv);
    TracedSnoc(trace, l, Abandon(inv), DoAbandon(l, inv));
  }

  lemma TakenFromInbox(trace: seq<Step>, l: Loop, inv: nat)
    requires Traced(trace, l) && inv in l.inbox
    ensures Traced(trace, l.(inbox := l.inbox - {inv})) && Received(After(INITIAL, trace), l.inbox[inv])
    ensures l.inbox[inv].inv == inv
  {
  }

  lemma GivenBack(permits: map<nat, nat>, rid: nat)
    requires rid in permits && permits[rid] > 0
    ensures Return(permits[rid := permits[rid] - 1], rid) == permits
  {
  }

  lemma PutAndTaken(m: map<nat, Job>, k: nat, j: Job)
    requires k !in m
    ensures m[k := j] - {k} == m
  {
  }

  lemma PermitsKnown(trace: seq<Step>, l: Loop)
    requires Traced(trace, l)
    ensures l.permits.Keys == l.runtimes.Keys
  {
    LoopFacts(trace, l);
  }

  /** Removing the work of the runtimes found leaves none of a cancelled one, if live work has a state. */
  lemma Cleared(before: map<nat, Job>, states: set<nat>, found: set<nat>, cancelled: set<nat>)
    requires cancelled * states <= found && forall w :: w in before ==> before[w].rid in states
    ensures forall rid :: rid in cancelled ==> NoneOf(WithoutAll(before, found), rid)
  {
  }

  /** An invocation in flight is on the shelf its place names. */
  lemma OnItsShelf(s: Sched, l: Loop, inv: nat)
    requires ShelvesOk(s.book, l) && ReadyOk(s.book, s.ready) && s.ready == []
    requires inv in s.book && s.book[inv].place.InFlight()
    ensures var rid := s.book[inv].rid;
      !(NoneOf(l.running, rid) && NoneOf(l.delayed, rid) && NoneOf(l.disabling, rid))
  {
  }

  lemma SlotHasHolder(s: Sched, rid: nat) returns (inv: nat)
    requires SlotsOk(s) && rid in s.runtimes && rid in s.states && s.states[rid].inFlight > 0
    ensures inv in s.book && s.book[inv].rid == rid && s.book[inv].place.InFlight()
  {
    assert SlotOk(s, rid);
    inv :| inv in InFlightOf(s.book, rid);
  }

  lemma StillBusy(trace: seq<Step>, l: Loop, rid: nat)
    requires Traced(trace, l) && l.ready == [] && rid in l.states && l.states[rid].inFlight > 0
    ensures !(NoneOf(l.running, rid) && NoneOf(l.delayed, rid) && NoneOf(l.disabling, rid))
  {
    hide NoneOf;
    InvNow(trace, l);
    StatesKnown(trace, l);
    var inv := SlotHasHolder(After(INITIAL, trace), rid);
    OnItsShelf(After(INITIAL, trace), l, inv);
  }

  /** A runtime with slots in use has work running, delayed or auto-disabling. */
  lemma NotYetStopped(trace: seq<Step>, l: Loop)
    requires Traced(trace, l) && l.ready == []
    ensures forall rid :: rid in l.states && l.states[rid].inFlight > 0 ==>
      !(NoneOf(l.running, rid) && NoneOf(l.delayed, rid) && NoneOf(l.disabling, rid))
  {
    hide Traced, NoneOf;
    forall rid | rid in l.states && l.states[rid].inFlight > 0
      ensures !(NoneOf(l.running, rid) && NoneOf(l.delayed, rid) && NoneOf(l.disabling, rid))
    {
      StillBusy(trace, l, rid);
    }
  }

  /** Every accepted request has its one answer, and nothing else has any. */
  ghost predicate AnsweredOnce(s: Sched, answered: map<nat, nat>) {
    forall inv :: inv in s.book && !s.book[inv].place.Admitting? ==>
      AnswersTo(answered, inv) == if s.book[inv].kind.Request? && !s.book[inv].place.Rejected? then 1 else 0
  }

  ghost predicate SameButSlots(a: map<nat, LoopState>, b: map<nat, LoopState>) {
    a.Keys == b.Keys && forall r :: r in a ==> b[r] == a[r].(inFlight := b[r].inFlight)
  }

  lemma ReleaseKeeps(states: map<nat, LoopState>, rid: nat)
    ensures SameButSlots(states, ReleaseSlot(states, rid))
  {
  }

  /** Everything accepted is done or auto-disabling. */
  ghost predicate Settled(s: Sched) {
    forall inv :: inv in s.book ==>
      var p := s.book[inv].place; p.Admitting? || p.Rejected? || p.Done? || p.Disabling?
  }

  lemma SettledAtEnd(s: Sched, l: Loop)
    requires ReadyOk(s.book, s.ready) && (forall rid :: QueueOk(s.book, rid, QueueOf(s, rid)))
    requires ShelvesOk(s.book, l) && l.running == map[] && l.delayed == map[]
    requires s.ready == [] && (forall rid :: QueueOf(s, rid) == [])
    ensures Settled(s)
  {
    forall inv | inv in s.book
      ensures var p := s.book[inv].place; p.Admitting? || p.Rejected? || p.Done? || p.Disabling?
    {
      assert QueueOk(s.book, s.book[inv].rid, QueueOf(s, s.book[inv].rid));
      assert inv !in s.ready && inv !in QueueOf(s, s.book[inv].rid);
    }
  }

  lemma SettledAnswered(s: Sched, answered: map<nat, nat>)
    requires Settled(s) && RecordsOk(s) && AnswersOk(s.book, answered)
    ensures AnsweredOnce(s, answered)
  {
  }

  lemma SettledQuiet(s: Sched, l: Loop, rid: nat)
    requires Settled(s) && ShelfOk(OnDisable, s.book, l.disabling, l.nextId)
    ensures Quiet(s, rid) <==> NoneOf(l.disabling, rid)
  {
  }

  lemma EmptyQueues(s: Sched, l: Loop)
    requires QueuesOk(s, l) && forall rid :: rid in l.states ==> l.states[rid].queue == []
    ensures forall rid :: QueueOf(s, rid) == []
  {
  }

  /** With nothing queued, running or delayed, everything accepted is done or auto-disabling. */
  lemma EndOfLoop(trace: seq<Step>, l: Loop)
    requires Traced(trace, l) && l.ready == [] && l.running == map[] && l.delayed == map[]
    requires forall rid :: rid in l.states ==> l.states[rid].queue == []
    ensures Run(INITIAL, trace) && AnsweredOnce(After(INITIAL, trace), l.answered)
    ensures forall rid :: Quiet(After(INITIAL, trace), rid) <==> NoneOf(l.disabling, rid)
  {
    hide Settled, Quiet, NoneOf, AnsweredOnce, QueueOk, SlotsOk, OrderOk, AllSerial, RecordsOk, ShelfOk;
    var s := After(INITIAL, trace);
    InvNow(trace, l);
    EmptyQueues(s, l);
    SettledAtEnd(s, l);
    SettledAnswered(s, l.answered);
    forall rid ensures Quiet(s, rid) <==> NoneOf(l.disabling, rid) {
      SettledQuiet(s, l, rid);
    }
  }

  lemma TimersMatch(trace: seq<Step>, l: Loop)
    requires Traced(trace, l)
    ensures l.timers == l.delayed.Keys
    ensures forall d :: d in l.delayed ==> l.delayed[d].rid in l.states && l.delayed[d].rid in l.submitted
    ensures forall rid :: rid in l.states && l.states[rid].shuttingDown ==> rid in l.cancelled
  {
    LoopFacts(trace, l);
  }

  lemma DisablingKnown(trace: seq<Step>, l: Loop)
    requires Traced(trace, l)
    ensures forall k :: k in l.disabling ==> l.disabling[k].rid in l.runtimes
  {
    LoopFacts(trace, l);
  }

  predicate Stopped(st: LoopState) { st.shuttingDown && st.inFlight == 0 }

  /** No free slot, or nothing queued. */
  predicate Filled(st: LoopState, rt: Runtime) { st.queue == [] || st.inFlight >= rt.maxConcurrency }

  predicate DispatchedOne(st: LoopState, rt: Runtime, stopped: bool) {
    Filled(st, rt) && (stopped ==> st.shuttingDown && st.queue == [])
  }

  /** No runtime has both work queued and a free slot, and those cancelled before take no work. */
  ghost predicate Dispatched(states: map<nat, LoopState>, runtimes: map<nat, Runtime>, cancelled: set<nat>) {
    forall r :: r in states ==> r in runtimes && DispatchedOne(states[r], runtimes[r], r in cancelled)
  }

  ghost predicate AllOf(q: seq<Job>, rid: nat) { forall i :: 0 <= i < |q| ==> q[i].rid == rid }

  ghost predicate Uncancelled(q: seq<Job>, cancelled: set<nat>) { forall i :: 0 <= i < |q| ==> q[i].rid !in cancelled }

  /** Cancelled runtimes that had nothing running still have nothing running. */
  ghost predicate StaysClear(before: map<nat, Job>, now: map<nat, Job>, cancelled: set<nat>) {
    forall rid :: rid in cancelled && NoneOf(before, rid) ==> NoneOf(now, rid)
  }

  ghost predicate NoneOf(m: map<nat, Job>, rid: nat) { forall w :: w in m ==> m[w].rid != rid }

  lemma StatesKnown(trace: seq<Step>, l: Loop)
    requires Traced(trace, l)
    ensures l.states.Keys <= l.runtimes.Keys
    ensures forall rid :: rid in l.states ==> AllOf(l.states[rid].queue, rid)
  {
    LoopFacts(trace, l);
  }

  lemma ReadyKnown(trace: seq<Step>, l: Loop)
    requires Traced(trace, l)
    ensures forall k :: 0 <= k < |l.ready| ==> l.ready[k].rid in l.submitted
  {
    LoopFacts(trace, l);
  }

  ghost predicate OnlySlotsOfAll(a: map<nat, LoopState>, b: map<nat, LoopState>, rids: set<nat>) {
    && a.Keys == b.Keys
    && (forall r :: r in a ==> b[r] == if r in rids then a[r].(inFlight := b[r].inFlight) else a[r])
  }

  /** Every cancelled runtime has dropped its queue and stopped taking work. */
  ghost predicate DownAll(states: map<nat, LoopState>, cancelled: set<nat>) {
    forall r :: r in states && r in cancelled ==> states[r].shuttingDown && states[r].queue == []
  }

  /** States are as before, except those of cancelled runtimes. */
  ghost predicate KeptBut(before: map<nat, LoopState>, now: map<nat, LoopState>, cancelled: set<nat>)
    requires before.Keys == now.Keys
  {
    forall r :: r in now && r !in cancelled ==> now[r] == before[r]
  }

  /** Two state maps that differ at most in the slots of one runtime. */
  ghost predicate OnlySlotsOf(a: map<nat, LoopState>, b: map<nat, LoopState>, rid: nat) {
    && a.Keys == b.Keys
    && (forall r :: r in a && r != rid ==> b[r] == a[r])
    && (rid in a ==> b[rid] == a[rid].(inFlight := b[rid].inFlight))
  }

  function WithoutRuntime(m: map<nat, Job>, rid: nat): map<nat, Job> {
    map w | w in m && m[w].rid != rid :: m[w]
  }

  function WithoutAll(m: map<nat, Job>, rids: set<nat>): map<nat, Job> {
    map w | w in m && m[w].rid !in rids :: m[w]
  }

  function WorksOf(m: map<nat, Job>, rid: nat): set<nat> { set w | w in m && m[w].rid == rid }

  lemma WithoutOne(m: map<nat, Job>, rid: nat, w: nat)
    requires w in m && m[w].rid == rid
    ensures WithoutRuntime(m - {w}, rid) == WithoutRuntime(m, rid)
    ensures WorksOf(m - {w}, rid) == WorksOf(m, rid) - {w}
  {
  }

  lemma WithoutNone(m: map<nat, Job>, rid: nat)
    requires WorksOf(m, rid) == {}
    ensures WithoutRuntime(m, rid) == m
  {
    assert forall w :: w in m && m[w].rid == rid ==> w in WorksOf(m, rid);
  }

  lemma WithoutAllNone(m: map<nat, Job>)
    ensures WithoutAll(m, {}) == m
  {
  }

  lemma WithoutAllMore(m: map<nat, Job>, rids: set<nat>, rid: nat)
    ensures WithoutRuntime(WithoutAll(m, rids), rid) == WithoutAll(m, rids + {rid})
  {
  }

  lemma WorkIsLive(trace: seq<Step>, l: Loop)
    requires Traced(trace, l)
    ensures forall w :: w in l.running ==> l.running[w].rid in l.states
  {
    LoopFacts(trace, l);
  }

  /** Every state outside `rest` is cancelled and has an empty queue; waiters are as before. */
  ghost predicate StoppedBut(before: map<nat, LoopState>, now: map<nat, LoopState>,
      rest: set<nat>, cancelled: set<nat>)
  {
    && now.Keys == before.Keys && now.Keys - rest <= cancelled
    && (forall r :: r in now ==> now[r].waiters == before[r].waiters && (r !in rest ==> now[r].queue == []))
  }

  lemma StoppedNone(states: map<nat, LoopState>, cancelled: set<nat>)
    ensures StoppedBut(states, states, states.Keys, cancelled)
  {
  }

  lemma StoppedMore(before: map<nat, LoopState>, now: map<nat, LoopState>,
      rest: set<nat>, cancelled: set<nat>, rid: nat)
    requires StoppedBut(before, now, rest, cancelled) && rid in now
    ensures var next := now[rid := now[rid].(queue := [], shuttingDown := true)];
      StoppedBut(before, next, rest - {rid}, cancelled + {rid})
  {
  }

  lemma StoppedAll(before: map<nat, LoopState>, now: map<nat, LoopState>, cancelled: set<nat>)
    requires StoppedBut(before, now, {}, cancelled)
    ensures now.Keys == before.Keys && now.Keys <= cancelled
    ensures forall r :: r in now ==> now[r].queue == [] && now[r].waiters == before[r].waiters
  {
  }

  /** The states of `down` lost their queue and stopped taking work; the others are as before. */
  ghost predicate DownExactly(before: map<nat, LoopState>, now: map<nat, LoopState>, down: set<nat>) {
    && now.Keys == before.Keys
    && (forall r :: r in now ==>
          now[r] == if r in down then before[r].(queue := [], shuttingDown := true) else before[r])
  }

  lemma DownNone(states: map<nat, LoopState>)
    ensures DownExactly(states, states, {})
  {
  }

  lemma DownMore(before: map<nat, LoopState>, now: map<nat, LoopState>, down: set<nat>, rid: nat)
    requires DownExactly(before, now, down) && rid in now
    ensures DownExactly(before, now[rid := now[rid].(queue := [], shuttingDown := true)], down + {rid})
  {
  }
}
