/**
 The event loop's own data as a value, what each of its primitive actions does to it, and that each
 of them is a step of `SchedulerModel`.
 */
module SchedulerLoop {
  import opened Wrappers
  import opened SchedulerModel
  import opened SchedulerPlaces

  /** A queued, running or delayed invocation; the worker is the one it runs on, if any. */
  datatype Job = Job(inv: nat, rid: nat, kind: Kind, attempt: nat, worker: Option<nat>)

  datatype LoopState = LoopState(queue: seq<Job>, inFlight: nat, shuttingDown: bool, waiters: seq<nat>)

  const NEW_STATE := LoopState([], 0, false, [])

  /** Everything the loop holds, and what it has told the outside. */
  datatype Loop = Loop(
    runtimes: map<nat, Runtime>,
    cancelled: set<nat>,
    permits: map<nat, nat>,
    inbox: map<nat, Job>,
    states: map<nat, LoopState>,
    running: map<nat, Job>,
    delayed: map<nat, Job>,
    timers: set<nat>,
    disabling: map<nat, Job>,
    ready: seq<Job>,
    nextId: nat,
    answered: map<nat, nat>,
    submitted: map<nat, seq<Submission>>,
    acked: set<nat>)

  const EMPTY_LOOP := Loop(map[], {}, map[], map[], map[], map[], map[], {}, map[], [], 1, map[], map[], {})

  // ---- The loop against the book ----

  function Invs(q: seq<Job>): seq<nat> {
    seq(|q|, i requires 0 <= i < |q| => q[i].inv)
  }

  function AbsState(st: LoopState): TriggerState {
    TriggerState(Invs(st.queue), st.inFlight, st.shuttingDown, st.waiters)
  }

  predicate Matches(j: Job, r: Record) { j.rid == r.rid && j.kind == r.kind && j.attempt == r.attempt }

  ghost predicate JobsOk(book: map<nat, Record>, q: seq<Job>) {
    forall i :: 0 <= i < |q| ==> q[i].inv in book && Matches(q[i], book[q[i].inv])
  }

  /** The three collections keyed by an id. */
  datatype Shelf = OnWorker | OnTimer | OnDisable {
    predicate Holds(p: Place) {
      match this
      case OnWorker => p.Running?
      case OnTimer => p.Delayed?
      case OnDisable => p.Disabling?
    }

    function Id(p: Place): nat
      requires Holds(p)
    {
      match this
      case OnWorker => p.work
      case OnTimer => p.delay
      case OnDisable => p.ticket
    }
  }

  /** A shelf holds exactly the invocations the book puts on it, each under its own id. */
  ghost predicate ShelfOk(h: Shelf, book: map<nat, Record>, m: map<nat, Job>, nextId: nat) {
    && (forall k :: k in m ==>
          && k < nextId && m[k].inv in book && Matches(m[k], book[m[k].inv])
          && h.Holds(book[m[k].inv].place) && h.Id(book[m[k].inv].place) == k)
    && (forall inv :: inv in book && h.Holds(book[inv].place) ==>
          h.Id(book[inv].place) in m && m[h.Id(book[inv].place)].inv == inv)
  }

  ghost predicate ShelvesOk(book: map<nat, Record>, l: Loop) {
    && ShelfOk(OnWorker, book, l.running, l.nextId)
    && ShelfOk(OnTimer, book, l.delayed, l.nextId)
    && ShelfOk(OnDisable, book, l.disabling, l.nextId)
    && l.timers == l.delayed.Keys
  }

  ghost predicate QueuesOk(s: Sched, l: Loop) {
    && s.states.Keys == l.states.Keys
    && (forall rid :: rid in l.states ==>
          s.states[rid] == AbsState(l.states[rid]) && JobsOk(s.book, l.states[rid].queue))
    && s.ready == Invs(l.ready) && JobsOk(s.book, l.ready)
  }

  function AnswersTo(answered: map<nat, nat>, inv: nat): nat { if inv in answered then answered[inv] else 0 }

  ghost predicate AnswersOk(book: map<nat, Record>, answered: map<nat, nat>) {
    && answered.Keys <= book.Keys
    && (forall inv :: inv in book ==> AnswersTo(answered, inv) == book[inv].answers)
  }

  /** Everything waiting to be received holds a permit. */
  ghost predicate InboxOk(book: map<nat, Record>, inbox: map<nat, Job>) {
    forall inv :: inv in inbox ==>
      inbox[inv].inv == inv && inv in book && book[inv].place.Admitting? && Matches(inbox[inv], book[inv])
  }

  ghost predicate Coupled(s: Sched, l: Loop) {
    && s.runtimes == l.runtimes && s.cancelled == l.cancelled && s.permits == l.permits
    && s.submitted == l.submitted && s.acked == l.acked && InboxOk(s.book, l.inbox)
    && QueuesOk(s, l) && ShelvesOk(s.book, l) && AnswersOk(s.book, l.answered)
  }

  // ---- Primitive actions ----

  /** Send a response for a request; other payloads have no one to answer. */
  function Answer(answered: map<nat, nat>, j: Job): map<nat, nat> {
    if j.kind.Request? then answered[j.inv := AnswersTo(answered, j.inv) + 1] else answered
  }

  function ReleaseSlot(states: map<nat, LoopState>, rid: nat): map<nat, LoopState> {
    if rid in states then
      var n := states[rid].inFlight;
      states[rid := states[rid].(inFlight := if n == 0 then 0 else n - 1)]
    else states
  }

  function DoRefuse(l: Loop, j: Job): Loop {
    l.(answered := Answer(l.answered, j), permits := Return(l.permits, j.rid))
  }

  function DoOpen(l: Loop, rid: nat): Loop { l.(states := l.states[rid := NEW_STATE]) }

  function DoAdmit(l: Loop, j: Job): Loop
    requires j.rid in l.states
  {
    l.(states := l.states[j.rid := l.states[j.rid].(queue := l.states[j.rid].queue + [j])])
  }

  function DoDropHead(l: Loop, rid: nat): Loop
    requires rid in l.states && l.states[rid].queue != []
  {
    var j := l.states[rid].queue[0];
    l.(states := l.states[rid := l.states[rid].(queue := l.states[rid].queue[1..])],
       answered := Answer(l.answered, j),
       permits := Return(l.permits, j.rid))
  }

  function DoMarkDown(l: Loop, rid: nat): Loop
    requires rid in l.states
  {
    l.(states := l.states[rid := l.states[rid].(shuttingDown := true)])
  }

  function DoAddWaiter(l: Loop, rid: nat, waiter: nat): Loop
    requires rid in l.states
  {
    l.(states := l.states[rid := l.states[rid].(waiters := l.states[rid].waiters + [waiter])])
  }

  function DoRemoveState(l: Loop, rid: nat): Loop
    requires rid in l.states
  {
    l.(states := l.states - {rid}, acked := l.acked + Members(l.states[rid].waiters))
  }

  function DoTake(l: Loop, rid: nat): Loop
    requires rid in l.states && l.states[rid].queue != []
  {
    var st := l.states[rid];
    l.(states := l.states[rid := st.(queue := st.queue[1..], inFlight := st.inFlight + 1)],
       ready := l.ready + [st.queue[0]])
  }

  /** Hand a job to a worker under a fresh work id. */
  function DoSubmit(l: Loop, j: Job, worker: nat): Loop
    requires j.rid in l.submitted
  {
    l.(running := l.running[l.nextId := j.(worker := Some(worker))],
       nextId := l.nextId + 1,
       submitted := l.submitted[j.rid := l.submitted[j.rid] + [Submission(j.inv, j.attempt)]])
  }

  /** A delayed job goes back to a worker. */
  function DoResubmit(l: Loop, delay: nat, worker: nat): Loop
    requires delay in l.delayed && l.delayed[delay].rid in l.submitted
  {
    DoSubmit(l, l.delayed[delay], worker).(delayed := l.delayed - {delay}, timers := l.timers - {delay})
  }

  /** An answered invocation leaves its worker: permit and slot are given back. */
  function DoFinish(l: Loop, work: nat): Loop
    requires work in l.running
  {
    var j := l.running[work];
    l.(running := l.running - {work},
       answered := Answer(l.answered, j),
       permits := Return(l.permits, j.rid),
       states := ReleaseSlot(l.states, j.rid))
  }

  function DoToDisable(l: Loop, work: nat): Loop
    requires work in l.running
  {
    var j := l.running[work];
    l.(running := l.running - {work},
       answered := Answer(l.answered, j),
       disabling := l.disabling[l.nextId := j],
       nextId := l.nextId + 1)
  }

  function DoToDelay(l: Loop, work: nat): Loop
    requires work in l.running
  {
    var j := l.running[work];
    l.(running := l.running - {work},
       delayed := l.delayed[l.nextId := j.(attempt := j.attempt + 1, worker := None)],
       timers := l.timers + {l.nextId},
       nextId := l.nextId + 1)
  }

  function DoDisabled(l: Loop, ticket: nat): Loop
    requires ticket in l.disabling
  {
    var j := l.disabling[ticket];
    l.(disabling := l.disabling - {ticket},
       permits := Return(l.permits, j.rid),
       states := ReleaseSlot(l.states, j.rid))
  }

  function DoRetryCancelled(l: Loop, delay: nat): Loop
    requires delay in l.delayed
  {
    var j := l.delayed[delay];
    l.(delayed := l.delayed - {delay},
       timers := l.timers - {delay},
       answered := Answer(l.answered, j),
       permits := Return(l.permits, j.rid),
       states := ReleaseSlot(l.states, j.rid))
  }

  // ---- How one record change moves the shelves ----

  lemma ShelfSame(h: Shelf, book: map<nat, Record>, m: map<nat, Job>, nextId: nat, to: nat, inv: nat, r: Record)
    requires ShelfOk(h, book, m, nextId) && nextId <= to
    requires inv in book ==> !h.Holds(book[inv].place)
    requires !h.Holds(r.place)
    ensures ShelfOk(h, book[inv := r], m, to)
  {
  }

  lemma ShelfDrop(h: Shelf, book: map<nat, Record>, m: map<nat, Job>, nextId: nat, to: nat, k: nat, r: Record)
    requires ShelfOk(h, book, m, nextId) && nextId <= to && k in m && !h.Holds(r.place)
    ensures ShelfOk(h, book[m[k].inv := r], m - {k}, to)
  {
  }

  lemma ShelfAdd(h: Shelf, book: map<nat, Record>, m: map<nat, Job>, nextId: nat, r: Record, j: Job)
    requires ShelfOk(h, book, m, nextId)
    requires j.inv in book ==> !h.Holds(book[j.inv].place)
    requires h.Holds(r.place) && h.Id(r.place) == nextId && Matches(j, r)
    ensures ShelfOk(h, book[j.inv := r], m[nextId := j], nextId + 1)
  {
  }

  lemma JobsSame(book: map<nat, Record>, q: seq<Job>, inv: nat, r: Record)
    requires JobsOk(book, q)
    requires inv in book
    requires (r.rid == book[inv].rid && r.kind == book[inv].kind && r.attempt == book[inv].attempt) || inv !in Invs(q)
    ensures JobsOk(book[inv := r], q)
  {
    forall i | 0 <= i < |q| ensures q[i].inv in book[inv := r] && Matches(q[i], book[inv := r][q[i].inv]) {
      assert Invs(q)[i] == q[i].inv;
    }
  }

  lemma InvsTail(q: seq<Job>)
    requires q != []
    ensures Invs(q[1..]) == Invs(q)[1..] && Invs(q)[0] == q[0].inv
  {
  }

  lemma InvsSnoc(q: seq<Job>, j: Job)
    ensures Invs(q + [j]) == Invs(q) + [j.inv]
  {
  }

  // ---- Every primitive action is a step ----

  predicate SameJob(a: Record, b: Record) { a.rid == b.rid && a.kind == b.kind && a.attempt == b.attempt }

  /** Queues are untouched by a record change that keeps the job, or of an invocation in no queue. */
  lemma QueuesKept(s: Sched, l: Loop, n: Sched, k: Loop, inv: nat)
    requires QueuesOk(s, l) && n.states == s.states && n.ready == s.ready && k.states == l.states && k.ready == l.ready
    requires inv in s.book && inv in n.book && n.book == s.book[inv := n.book[inv]]
    requires SameJob(s.book[inv], n.book[inv]) || InNoQueue(s, inv)
    ensures QueuesOk(n, k)
  {
    JobsSame(s.book, l.ready, inv, n.book[inv]);
    forall rid | rid in k.states ensures JobsOk(n.book, k.states[rid].queue) {
      assert s.states[rid].queue == Invs(l.states[rid].queue);
      JobsSame(s.book, l.states[rid].queue, inv, n.book[inv]);
    }
  }

  ghost predicate InNoQueue(s: Sched, inv: nat) {
    inv !in s.ready && forall rid :: rid in s.states ==> inv !in s.states[rid].queue
  }

  /** Changing one state and one record that keeps its job. */
  lemma QueuesChanged(s: Sched, l: Loop, n: Sched, k: Loop, inv: nat, rid: nat)
    requires QueuesOk(s, l) && rid in l.states && rid in k.states && rid in n.states
    requires n.states == s.states[rid := n.states[rid]] && k.states == l.states[rid := k.states[rid]]
    requires inv in s.book && inv in n.book && n.book == s.book[inv := n.book[inv]] && SameJob(s.book[inv], n.book[inv])
    requires n.states[rid] == AbsState(k.states[rid]) && JobsOk(s.book, k.states[rid].queue)
    requires n.ready == Invs(k.ready) && JobsOk(s.book, k.ready)
    ensures QueuesOk(n, k)
  {
  }

  lemma AnswerOnce(book: map<nat, Record>, answered: map<nat, nat>, j: Job, r: Record)
    requires AnswersOk(book, answered) && j.inv in book && j.kind == book[j.inv].kind
    requires r.answers == book[j.inv].answers + if j.kind.Request? then 1 else 0
    ensures AnswersOk(book[j.inv := r], Answer(answered, j))
  {
  }

  lemma AnswersKept(book: map<nat, Record>, answered: map<nat, nat>, inv: nat, r: Record)
    requires AnswersOk(book, answered) && inv in book && r.answers == book[inv].answers
    ensures AnswersOk(book[inv := r], answered)
  {
  }

  /** The parts of the coupling put together after one record changed. */
  lemma Recouple(s: Sched, l: Loop, n: Sched, k: Loop, inv: nat)
    requires InboxOk(s.book, l.inbox) && k.inbox == l.inbox && inv !in l.inbox
    requires inv in n.book && n.book == s.book[inv := n.book[inv]]
    requires n.runtimes == k.runtimes && n.cancelled == k.cancelled && n.permits == k.permits
    requires n.submitted == k.submitted && n.acked == k.acked
    requires QueuesOk(n, k) && ShelvesOk(n.book, k) && AnswersOk(n.book, k.answered)
    ensures Coupled(n, k)
  {
  }

  lemma NotInInbox(s: Sched, l: Loop, inv: nat)
    requires InboxOk(s.book, l.inbox) && inv in s.book && !s.book[inv].place.Admitting?
    ensures inv !in l.inbox
  {
  }

  /** No shelf holds the invocation before or after. */
  lemma ShelvesSame(book: map<nat, Record>, l: Loop, k: Loop, inv: nat, r: Record)
    requires ShelvesOk(book, l) && inv in book
    requires k.running == l.running && k.delayed == l.delayed && k.disabling == l.disabling
    requires k.timers == l.timers && k.nextId == l.nextId
    requires !OnShelf(book[inv].place) && !OnShelf(r.place)
    ensures ShelvesOk(book[inv := r], k)
  {
  }

  predicate OnShelf(p: Place) { p.Running? || p.Delayed? || p.Disabling? }

  /** The invocation of a received or queued job, as the book has it. */
  predicate Received(s: Sched, j: Job) {
    j.inv in s.book && s.book[j.inv].place.Admitting? && Matches(j, s.book[j.inv])
  }

  lemma SimRefuse(s: Sched, l: Loop, j: Job)
    requires Coupled(s, l) && Received(s, j) && j.inv !in l.inbox && j.rid in s.cancelled
    ensures Enabled(s, Refuse(j.inv)) && Coupled(Do(s, Refuse(j.inv)), DoRefuse(l, j))
  {
    var n, k := Do(s, Refuse(j.inv)), DoRefuse(l, j);
    QueuesKept(s, l, n, k, j.inv);
    ShelvesSame(s.book, l, k, j.inv, n.book[j.inv]);
    AnswerOnce(s.book, l.answered, j, n.book[j.inv]);
    Recouple(s, l, n, k, j.inv);
  }

  lemma SimOpen(s: Sched, l: Loop, rid: nat)
    requires Coupled(s, l) && rid in s.runtimes && rid !in l.states && rid !in s.cancelled
    ensures Enabled(s, OpenState(rid)) && Coupled(Do(s, OpenState(rid)), DoOpen(l, rid))
  {
    assert AbsState(NEW_STATE) == FRESH_STATE;
  }

  lemma SimAdmit(s: Sched, l: Loop, j: Job)
    requires Coupled(s, l) && Received(s, j) && j.inv !in l.inbox && Active(s, j.rid) && j.rid in s.admitted
    ensures Enabled(s, Admit(j.inv)) && Coupled(Do(s, Admit(j.inv)), DoAdmit(l, j))
  {
    var n, k := Do(s, Admit(j.inv)), DoAdmit(l, j);
    InvsSnoc(l.states[j.rid].queue, j);
    QueuesChanged(s, l, n, k, j.inv, j.rid);
    ShelvesSame(s.book, l, k, j.inv, n.book[j.inv]);
    AnswersKept(s.book, l.answered, j.inv, n.book[j.inv]);
    Recouple(s, l, n, k, j.inv);
  }

  /** `j` is the head of a queue, in the loop and in the book. */
  ghost predicate HeadIs(s: Sched, l: Loop, rid: nat, j: Job) {
    && rid in l.states && rid in s.states && l.states[rid].queue != [] && l.states[rid].queue[0] == j
    && s.states[rid].queue != [] && s.states[rid].queue[0] == j.inv
    && j.inv in s.book && Matches(j, s.book[j.inv]) && j.rid == rid && s.book[j.inv].place.Queued?
  }

  lemma HeadMatches(s: Sched, l: Loop, rid: nat)
    requires PlacesOk(s) && QueuesOk(s, l) && rid in l.states && l.states[rid].queue != []
    ensures HeadIs(s, l, rid, l.states[rid].queue[0])
  {
    InvsTail(l.states[rid].queue);
    HeadQueued(s, rid);
  }

  lemma QueuesPopped(s: Sched, l: Loop, n: Sched, k: Loop, rid: nat, j: Job)
    requires QueuesOk(s, l) && HeadIs(s, l, rid, j) && rid in n.states && rid in k.states
    requires n.states == s.states[rid := n.states[rid]] && k.states == l.states[rid := k.states[rid]]
    requires k.states[rid].queue == l.states[rid].queue[1..] && n.states[rid] == AbsState(k.states[rid])
    requires j.inv in n.book && n.book == s.book[j.inv := n.book[j.inv]] && SameJob(s.book[j.inv], n.book[j.inv])
    requires n.ready == Invs(k.ready) && (k.ready == l.ready || k.ready == l.ready + [j])
    ensures QueuesOk(n, k)
  {
    QueuesChanged(s, l, n, k, j.inv, rid);
  }

  lemma SimDropHead(s: Sched, l: Loop, rid: nat, j: Job)
    requires Coupled(s, l) && HeadIs(s, l, rid, j) && rid in s.cancelled
    ensures Enabled(s, DropHead(rid)) && Coupled(Do(s, DropHead(rid)), DoDropHead(l, rid))
  {
    var n, k := Do(s, DropHead(rid)), DoDropHead(l, rid);
    InvsTail(l.states[rid].queue);
    QueuesPopped(s, l, n, k, rid, j);
    ShelvesSame(s.book, l, k, j.inv, n.book[j.inv]);
    AnswerOnce(s.book, l.answered, j, n.book[j.inv]);
    NotInInbox(s, l, j.inv);
    Recouple(s, l, n, k, j.inv);
  }

  lemma SimMarkDown(s: Sched, l: Loop, rid: nat)
    requires Coupled(s, l) && rid in l.states && l.states[rid].queue == [] && rid in s.cancelled
    ensures Enabled(s, MarkDown(rid)) && Coupled(Do(s, MarkDown(rid)), DoMarkDown(l, rid))
  {
  }

  lemma SimAddWaiter(s: Sched, l: Loop, rid: nat, waiter: nat)
    requires Coupled(s, l) && rid in l.states && rid in s.cancelled
    ensures Enabled(s, AddWaiter(rid, waiter)) && Coupled(Do(s, AddWaiter(rid, waiter)), DoAddWaiter(l, rid, waiter))
  {
  }

  lemma SimRemoveState(s: Sched, l: Loop, rid: nat)
    requires Coupled(s, l) && rid in l.states && l.states[rid].shuttingDown && l.states[rid].inFlight == 0
    ensures Enabled(s, RemoveState(rid)) && Coupled(Do(s, RemoveState(rid)), DoRemoveState(l, rid))
  {
  }

  lemma SimTake(s: Sched, l: Loop, rid: nat, j: Job)
    requires Coupled(s, l) && HeadIs(s, l, rid, j) && Active(s, rid) && rid in s.runtimes
    requires l.states[rid].inFlight < s.runtimes[rid].maxConcurrency
    ensures Enabled(s, TakeOne(rid)) && Coupled(Do(s, TakeOne(rid)), DoTake(l, rid))
  {
    var n, k := Do(s, TakeOne(rid)), DoTake(l, rid);
    InvsTail(l.states[rid].queue);
    InvsSnoc(l.ready, j);
    QueuesPopped(s, l, n, k, rid, j);
    ShelvesSame(s.book, l, k, j.inv, n.book[j.inv]);
    AnswersKept(s.book, l.answered, j.inv, n.book[j.inv]);
    NotInInbox(s, l, j.inv);
    Recouple(s, l, n, k, j.inv);
  }

  /** A job moves from no shelf to a worker. */
  lemma ShelvesSubmit(book: map<nat, Record>, l: Loop, k: Loop, j: Job, r: Record)
    requires ShelvesOk(book, l) && j.inv in book && !OnShelf(book[j.inv].place)
    requires r.place == Running(l.nextId) && Matches(j, r)
    requires k.running == l.running[l.nextId := j] && k.nextId == l.nextId + 1
    requires k.delayed == l.delayed && k.disabling == l.disabling && k.timers == l.timers
    ensures ShelvesOk(book[j.inv := r], k)
  {
    ShelfAdd(OnWorker, book, l.running, l.nextId, r, j);
    ShelfSame(OnTimer, book, l.delayed, l.nextId, k.nextId, j.inv, r);
    ShelfSame(OnDisable, book, l.disabling, l.nextId, k.nextId, j.inv, r);
  }

  /** A job moves from its timer back to a worker. */
  lemma ShelvesResubmit(book: map<nat, Record>, l: Loop, k: Loop, d: nat, j: Job, r: Record)
    requires ShelvesOk(book, l) && d in l.delayed && j.inv == l.delayed[d].inv
    requires r.place == Running(l.nextId) && Matches(j, r)
    requires k.running == l.running[l.nextId := j] && k.nextId == l.nextId + 1
    requires k.delayed == l.delayed - {d} && k.disabling == l.disabling && k.timers == l.timers - {d}
    ensures ShelvesOk(book[j.inv := r], k)
  {
    ShelfAdd(OnWorker, book, l.running, l.nextId, r, j);
    ShelfDrop(OnTimer, book, l.delayed, l.nextId, k.nextId, d, r);
    ShelfSame(OnDisable, book, l.disabling, l.nextId, k.nextId, j.inv, r);
  }

  /** A job leaves its worker for nowhere, a timer or an auto-disable, where it is kept as `j`. */
  lemma ShelvesFinish(book: map<nat, Record>, l: Loop, k: Loop, w: nat, j: Job, r: Record)
    requires ShelvesOk(book, l) && w in l.running && j.inv == l.running[w].inv && Matches(j, r)
    requires !r.place.Running? && k.running == l.running - {w}
    requires OnShelf(r.place) ==> (r.place == Delayed(l.nextId) || r.place == Disabling(l.nextId))
    requires k.nextId == if OnShelf(r.place) then l.nextId + 1 else l.nextId
    requires k.delayed == if r.place.Delayed? then l.delayed[l.nextId := j] else l.delayed
    requires k.timers == if r.place.Delayed? then l.timers + {l.nextId} else l.timers
    requires k.disabling == if r.place.Disabling? then l.disabling[l.nextId := j] else l.disabling
    ensures ShelvesOk(book[j.inv := r], k)
  {
    ShelfDrop(OnWorker, book, l.running, l.nextId, k.nextId, w, r);
    if r.place.Delayed? {
      ShelfAdd(OnTimer, book, l.delayed, l.nextId, r, j);
    } else {
      ShelfSame(OnTimer, book, l.delayed, l.nextId, k.nextId, j.inv, r);
    }
    if r.place.Disabling? {
      ShelfAdd(OnDisable, book, l.disabling, l.nextId, r, j);
    } else {
      ShelfSame(OnDisable, book, l.disabling, l.nextId, k.nextId, j.inv, r);
    }
  }

  lemma QueuesReleased(s: Sched, l: Loop, n: Sched, k: Loop, inv: nat, rid: nat)
    requires QueuesOk(s, l) && n.ready == s.ready && k.ready == l.ready
    requires n.states == Release(s.states, rid) && k.states == ReleaseSlot(l.states, rid)
    requires inv in s.book && inv in n.book && n.book == s.book[inv := n.book[inv]] && SameJob(s.book[inv], n.book[inv])
    ensures QueuesOk(n, k)
  {
    if rid in l.states {
      QueuesChanged(s, l, n, k, inv, rid);
    } else {
      QueuesKept(s, l, n, k, inv);
    }
  }

  lemma QueuesSubmitted(s: Sched, l: Loop, n: Sched, k: Loop, inv: nat)
    requires QueuesOk(s, l) && l.ready != [] && n.states == s.states && k.states == l.states
    requires n.ready == s.ready[1..] && k.ready == l.ready[1..]
    requires inv in s.book && inv in n.book && n.book == s.book[inv := n.book[inv]] && SameJob(s.book[inv], n.book[inv])
    ensures QueuesOk(n, k)
  {
  }

  /** `j` is the next job to submit, in the loop and in the book. */
  ghost predicate ReadyIs(s: Sched, l: Loop, j: Job) {
    && l.ready != [] && l.ready[0] == j && s.ready != [] && s.ready[0] == j.inv
    && j.inv in s.book && Matches(j, s.book[j.inv]) && s.book[j.inv].place.Ready?
  }

  lemma ReadyMatches(s: Sched, l: Loop)
    requires PlacesOk(s) && QueuesOk(s, l) && l.ready != []
    ensures ReadyIs(s, l, l.ready[0])
  {
  }

  lemma SimSubmitReady(s: Sched, l: Loop, j: Job, worker: nat)
    requires Coupled(s, l) && ReadyIs(s, l, j) && j.rid in s.submitted
    ensures Enabled(s, SubmitReady(l.nextId))
    ensures Coupled(Do(s, SubmitReady(l.nextId)), DoSubmit(l, j, worker).(ready := l.ready[1..]))
  {
    var n, k := Do(s, SubmitReady(l.nextId)), DoSubmit(l, j, worker).(ready := l.ready[1..]);
    var w := j.(worker := Some(worker));
    QueuesSubmitted(s, l, n, k, j.inv);
    ShelvesSubmit(s.book, l, k, w, n.book[j.inv]);
    AnswersKept(s.book, l.answered, j.inv, n.book[j.inv]);
    NotInInbox(s, l, j.inv);
    Recouple(s, l, n, k, j.inv);
  }

  lemma SimResubmit(s: Sched, l: Loop, d: nat, worker: nat)
    requires Coupled(s, l) && d in l.delayed && Active(s, l.delayed[d].rid) && l.delayed[d].rid in s.submitted
    ensures Enabled(s, Resubmit(l.delayed[d].inv, l.nextId))
    ensures Coupled(Do(s, Resubmit(l.delayed[d].inv, l.nextId)), DoResubmit(l, d, worker))
  {
    hide QueuesOk, AnswersOk, InboxOk;
    var j := l.delayed[d];
    var n := Do(s, Resubmit(j.inv, l.nextId));
    var k := DoResubmit(l, d, worker);
    QueuesKept(s, l, n, k, j.inv);
    ShelvesResubmit(s.book, l, k, d, j.(worker := Some(worker)), n.book[j.inv]);
    AnswersKept(s.book, l.answered, j.inv, n.book[j.inv]);
    NotInInbox(s, l, j.inv);
    Recouple(s, l, n, k, j.inv);
  }

  /** What the loop goes by when it ends running work for a reason. */
  predicate Ends(l: Loop, w: nat, why: Reason)
    requires w in l.running && l.running[w].rid in l.runtimes
  {
    var j := l.running[w];
    var rt := l.runtimes[j.rid];
    match why
    case Finished => true
    case Errored => j.rid !in l.cancelled && (rt.behavior.Log? || (rt.behavior.Retry? && j.attempt >= rt.maxAttempts))
    case TurnedOff => j.rid in l.cancelled
  }

  lemma SimFinish(s: Sched, l: Loop, w: nat, why: Reason)
    requires Coupled(s, l) && w in l.running && l.running[w].rid in l.runtimes && Ends(l, w, why)
    ensures var t := Leave(l.running[w].inv, why); Enabled(s, t) && Coupled(Do(s, t), DoFinish(l, w))
  {
    hide QueuesOk, AnswersOk, InboxOk;
    var j := l.running[w];
    var n, k := Do(s, Leave(j.inv, why)), DoFinish(l, w);
    QueuesReleased(s, l, n, k, j.inv, j.rid);
    ShelvesFinish(s.book, l, k, w, j, n.book[j.inv]);
    AnswerOnce(s.book, l.answered, j, n.book[j.inv]);
    NotInInbox(s, l, j.inv);
    Recouple(s, l, n, k, j.inv);
  }

  lemma SimToDisable(s: Sched, l: Loop, w: nat)
    requires Coupled(s, l) && w in l.running && l.running[w].rid in l.runtimes && l.running[w].rid !in l.cancelled
    requires l.runtimes[l.running[w].rid].behavior.Disable?
    ensures Enabled(s, ToDisable(l.running[w].inv, l.nextId))
    ensures Coupled(Do(s, ToDisable(l.running[w].inv, l.nextId)), DoToDisable(l, w))
  {
    hide QueuesOk, AnswersOk, InboxOk;
    var j := l.running[w];
    var n, k := Do(s, ToDisable(j.inv, l.nextId)), DoToDisable(l, w);
    QueuesKept(s, l, n, k, j.inv);
    ShelvesFinish(s.book, l, k, w, j, n.book[j.inv]);
    AnswerOnce(s.book, l.answered, j, n.book[j.inv]);
    NotInInbox(s, l, j.inv);
    Recouple(s, l, n, k, j.inv);
  }

  lemma SimToDelay(s: Sched, l: Loop, w: nat)
    requires Coupled(s, l) && w in l.running && l.running[w].rid in s.runtimes && InNoQueue(s, l.running[w].inv)
    requires l.running[w].attempt < s.runtimes[l.running[w].rid].maxAttempts
    requires l.running[w].rid !in l.cancelled && l.runtimes[l.running[w].rid].behavior.Retry?
    ensures Enabled(s, ToDelay(l.running[w].inv, l.nextId))
    ensures Coupled(Do(s, ToDelay(l.running[w].inv, l.nextId)), DoToDelay(l, w))
  {
    hide QueuesOk, AnswersOk, InboxOk;
    var j := l.running[w];
    var n, k := Do(s, ToDelay(j.inv, l.nextId)), DoToDelay(l, w);
    QueuesKept(s, l, n, k, j.inv);
    var d := j.(attempt := j.attempt + 1, worker := None);
    ShelvesFinish(s.book, l, k, w, d, n.book[j.inv]);
    AnswersKept(s.book, l.answered, j.inv, n.book[j.inv]);
    NotInInbox(s, l, j.inv);
    Recouple(s, l, n, k, j.inv);
  }

  lemma RunningInNoQueue(s: Sched, inv: nat)
    requires PlacesOk(s) && inv in s.book && s.book[inv].place.Running?
    ensures InNoQueue(s, inv)
  {
    forall rid | rid in s.states ensures inv !in s.states[rid].queue {
      assert QueueOk(s.book, rid, QueueOf(s, rid));
    }
  }

  lemma SimDisabled(s: Sched, l: Loop, ticket: nat)
    requires Coupled(s, l) && ticket in l.disabling
    ensures var t := Leave(l.disabling[ticket].inv, Finished); Enabled(s, t) && Coupled(Do(s, t), DoDisabled(l, ticket))
  {
    hide QueuesOk, AnswersOk, InboxOk;
    var j := l.disabling[ticket];
    var n, k := Do(s, Leave(j.inv, Finished)), DoDisabled(l, ticket);
    QueuesReleased(s, l, n, k, j.inv, j.rid);
    ShelfSame(OnWorker, s.book, l.running, l.nextId, l.nextId, j.inv, n.book[j.inv]);
    ShelfSame(OnTimer, s.book, l.delayed, l.nextId, l.nextId, j.inv, n.book[j.inv]);
    ShelfDrop(OnDisable, s.book, l.disabling, l.nextId, l.nextId, ticket, n.book[j.inv]);
    AnswersKept(s.book, l.answered, j.inv, n.book[j.inv]);
    NotInInbox(s, l, j.inv);
    Recouple(s, l, n, k, j.inv);
  }

  lemma SimRetryCancelled(s: Sched, l: Loop, d: nat)
    requires Coupled(s, l) && d in l.delayed && l.delayed[d].rid in s.cancelled
    ensures var t := Leave(l.delayed[d].inv, TurnedOff); Enabled(s, t) && Coupled(Do(s, t), DoRetryCancelled(l, d))
  {
    hide QueuesOk, AnswersOk, InboxOk;
    var j := l.delayed[d];
    var n, k := Do(s, Leave(j.inv, TurnedOff)), DoRetryCancelled(l, d);
    QueuesReleased(s, l, n, k, j.inv, j.rid);
    ShelfSame(OnWorker, s.book, l.running, l.nextId, l.nextId, j.inv, n.book[j.inv]);
    ShelfDrop(OnTimer, s.book, l.delayed, l.nextId, l.nextId, d, n.book[j.inv]);
    ShelfSame(OnDisable, s.book, l.disabling, l.nextId, l.nextId, j.inv, n.book[j.inv]);
    AnswerOnce(s.book, l.answered, j, n.book[j.inv]);
    NotInInbox(s, l, j.inv);
    Recouple(s, l, n, k, j.inv);
  }

  // ---- Clients and cancel tokens ----

  function DoRegister(l: Loop, rid: nat, rt: Runtime): Loop {
    l.(runtimes := l.runtimes[rid := rt],
       permits := l.permits[rid := rt.queueSize],
       submitted := l.submitted[rid := []])
  }

  function DoAcquire(l: Loop, inv: nat, rid: nat, kind: Kind): Loop
    requires rid in l.permits && l.permits[rid] > 0
  {
    l.(permits := l.permits[rid := l.permits[rid] - 1],
       inbox := l.inbox[inv := Job(inv, rid, kind, 1, None)])
  }

  function DoAbandon(l: Loop, inv: nat): Loop
    requires inv in l.inbox
  {
    l.(permits := Return(l.permits, l.inbox[inv].rid), inbox := l.inbox - {inv})
  }

  lemma SimRegister(s: Sched, l: Loop, rid: nat, rt: Runtime)
    requires Coupled(s, l) && rid !in l.runtimes && rt.maxConcurrency >= 1
    ensures Enabled(s, Register(rid, rt)) && Coupled(Do(s, Register(rid, rt)), DoRegister(l, rid, rt))
  {
  }

  lemma SimCancel(s: Sched, l: Loop, rid: nat)
    requires Coupled(s, l) && rid in l.runtimes
    ensures Enabled(s, Cancel(rid)) && Coupled(Do(s, Cancel(rid)), l.(cancelled := l.cancelled + {rid}))
  {
  }

  lemma SimAcquire(s: Sched, l: Loop, inv: nat, rid: nat, kind: Kind)
    requires Coupled(s, l) && inv !in s.book && rid in l.runtimes && rid in l.permits && l.permits[rid] > 0
    ensures Enabled(s, Acquire(inv, rid, kind)) && Coupled(Do(s, Acquire(inv, rid, kind)), DoAcquire(l, inv, rid, kind))
  {
    var n := Do(s, Acquire(inv, rid, kind));
    var r := n.book[inv];
    ShelfSame(OnWorker, s.book, l.running, l.nextId, l.nextId, inv, r);
    ShelfSame(OnTimer, s.book, l.delayed, l.nextId, l.nextId, inv, r);
    ShelfSame(OnDisable, s.book, l.disabling, l.nextId, l.nextId, inv, r);
  }

  lemma SimAbandon(s: Sched, l: Loop, inv: nat)
    requires Coupled(s, l) && inv in l.inbox
    ensures Enabled(s, Abandon(inv)) && Coupled(Do(s, Abandon(inv)), DoAbandon(l, inv))
  {
    var n, k := Do(s, Abandon(inv)), DoAbandon(l, inv);
    QueuesKept(s, l, n, k, inv);
    ShelvesSame(s.book, l, k, inv, n.book[inv]);
    AnswersKept(s.book, l.answered, inv, n.book[inv]);
  }

  lemma SimAckAbsent(s: Sched, l: Loop, rid: nat, waiter: nat)
    requires Coupled(s, l) && rid !in l.states && rid in s.cancelled
    ensures var t := AckAbsent(rid, waiter); Enabled(s, t) && Coupled(Do(s, t), l.(acked := l.acked + {waiter}))
  {
  }

  // ---- Runs ----

  /** The loop's data is what some run of the scheduler's steps leads to. */
  ghost predicate Traced(trace: seq<Step>, l: Loop) {
    Run(INITIAL, trace) && Coupled(After(INITIAL, trace), l)
  }

  lemma TracedSnoc(trace: seq<Step>, l: Loop, t: Step, k: Loop)
    requires Traced(trace, l) && Enabled(After(INITIAL, trace), t) && Coupled(Do(After(INITIAL, trace), t), k)
    ensures Traced(trace + [t], k) && After(INITIAL, trace + [t]) == Do(After(INITIAL, trace), t)
  {
    var s := After(INITIAL, trace);
    assert Run(s, [t]) && After(s, [t]) == Do(s, t);
    RunConcat(INITIAL, trace, [t]);
  }

  lemma TracedEmpty()
    ensures Traced([], EMPTY_LOOP)
  {
  }
}
