/**
 The trigger scheduler as a transition system. A step is the smallest change the event loop, its
 clients or a cancel token make; `SchedulerRuntime` in `EventLoop.dfy` shows that every method of
 the loop is a run of these steps. The book has one record per invocation, so an invocation is in
 one place at a time; that the loop's own queues and maps agree with the book is proved there.
 */
module SchedulerModel {
  datatype Kind = Wal | Schedule | Request

  datatype ErrorBehavior = Log | Disable | Retry

  /** What registration fixes about a trigger runtime. */
  datatype Runtime = Runtime(
    queueSize: nat,
    maxConcurrency: nat,
    maxAttempts: nat,
    behavior: ErrorBehavior)

  /** Where an invocation is. */
  datatype Place =
    | Admitting          // holds a permit, not yet received by the event loop
    | Rejected           // gave its permit back before being received
    | Queued
    | Ready              // taken from the queue, about to be submitted
    | Running(work: nat)
    | Delayed(delay: nat)
    | Disabling(ticket: nat)
    | Done
  {
    predicate InFlight() { Ready? || Running? || Delayed? || Disabling? }

    predicate HoldsPermit() { !Rejected? && !Done? }
  }

  /**
   One invocation: its runtime and kind, where it is, the attempt it is on, how often it has been
   submitted to a worker and how often it has been answered.
   */
  datatype Record = Record(
    rid: nat,
    kind: Kind,
    place: Place,
    attempt: nat,
    made: nat,
    answers: nat)

  /** A runtime's queue of invocations, its slots in use and the callers waiting for it to stop. */
  datatype TriggerState = TriggerState(
    queue: seq<nat>,
    inFlight: nat,
    shuttingDown: bool,
    waiters: seq<nat>)

  const FRESH_STATE := TriggerState([], 0, false, [])

  datatype Submission = Submission(inv: nat, attempt: nat)

  datatype Sched = Sched(
    runtimes: map<nat, Runtime>,
    cancelled: set<nat>,
    permits: map<nat, nat>,
    states: map<nat, TriggerState>,
    ready: seq<nat>,
    book: map<nat, Record>,
    admitted: map<nat, seq<nat>>,
    submitted: map<nat, seq<Submission>>,
    acked: set<nat>)

  const INITIAL := Sched(map[], {}, map[], map[], [], map[], map[], map[], {})

  /** Why an invocation leaves: its work or auto-disable ended, an error ended it, or its runtime stopped. */
  datatype Reason = Finished | Errored | TurnedOff

  datatype Step =
    // Clients and cancel tokens.
    | Register(rid: nat, runtime: Runtime)
    | Cancel(rid: nat)
    | Acquire(inv: nat, rid: nat, kind: Kind)
    | Abandon(inv: nat)
    // Receiving an invocation.
    | Refuse(inv: nat)
    | OpenState(rid: nat)
    | Admit(inv: nat)
    // Shutting down.
    | DropHead(rid: nat)
    | MarkDown(rid: nat)
    | AddWaiter(rid: nat, waiter: nat)
    | AckAbsent(rid: nat, waiter: nat)
    | RemoveState(rid: nat)
    // Dispatching, retrying, finishing.
    | TakeOne(rid: nat)
    | SubmitReady(work: nat)
    | ToDisable(inv: nat, ticket: nat)
    | ToDelay(inv: nat, delay: nat)
    | Resubmit(inv: nat, work: nat)
    | Leave(inv: nat, why: Reason)

  /** The runtime has a state that accepts and dispatches work. */
  predicate Active(s: Sched, rid: nat) {
    rid in s.states && !s.states[rid].shuttingDown && rid !in s.cancelled
  }

  predicate Off(s: Sched, inv: nat)
    requires inv in s.book
  {
    s.book[inv].rid in s.cancelled
  }

  /** An error of the invocation is acted on: its runtime is still on. */
  predicate Fails(s: Sched, inv: nat)
    requires inv in s.book
  {
    s.book[inv].rid in s.runtimes && !Off(s, inv)
  }

  function BehaviorOf(s: Sched, inv: nat): ErrorBehavior
    requires inv in s.book && Fails(s, inv)
  {
    s.runtimes[s.book[inv].rid].behavior
  }

  /** An error that is only logged, or comes on the last attempt there is. */
  predicate LastError(s: Sched, inv: nat)
    requires inv in s.book && Fails(s, inv)
  {
    match BehaviorOf(s, inv)
    case Log => true
    case Disable => false
    case Retry => s.book[inv].attempt >= s.runtimes[s.book[inv].rid].maxAttempts
  }

  predicate Enabled(s: Sched, t: Step) {
    match t
    case Register(rid, runtime) => rid !in s.runtimes && runtime.maxConcurrency >= 1
    case Cancel(rid) => rid in s.runtimes
    case Acquire(inv, rid, _) => inv !in s.book && rid in s.runtimes && rid in s.permits && s.permits[rid] > 0
    case Abandon(inv) => inv in s.book && s.book[inv].place.Admitting?
    case Refuse(inv) => inv in s.book && s.book[inv].place.Admitting? && s.book[inv].rid in s.cancelled
    case OpenState(rid) => rid in s.runtimes && rid !in s.states && rid !in s.cancelled
    case Admit(inv) =>
      && inv in s.book && s.book[inv].place.Admitting?
      && Active(s, s.book[inv].rid) && s.book[inv].rid in s.admitted
    case DropHead(rid) =>
      rid in s.states && rid in s.cancelled && s.states[rid].queue != [] && s.states[rid].queue[0] in s.book
    case MarkDown(rid) => rid in s.states && rid in s.cancelled && s.states[rid].queue == []
    case AddWaiter(rid, _) => rid in s.states && rid in s.cancelled
    case AckAbsent(rid, _) => rid !in s.states && rid in s.cancelled
    case RemoveState(rid) => rid in s.states && s.states[rid].shuttingDown && s.states[rid].inFlight == 0
    case TakeOne(rid) =>
      && Active(s, rid) && rid in s.runtimes
      && s.states[rid].inFlight < s.runtimes[rid].maxConcurrency
      && s.states[rid].queue != [] && s.states[rid].queue[0] in s.book
    case SubmitReady(_) =>
      s.ready != [] && s.ready[0] in s.book && s.book[s.ready[0]].rid in s.submitted
    case ToDisable(inv, _) =>
      inv in s.book && s.book[inv].place.Running? && Fails(s, inv) && BehaviorOf(s, inv).Disable?
    case ToDelay(inv, _) =>
      && inv in s.book && s.book[inv].place.Running? && Fails(s, inv) && BehaviorOf(s, inv).Retry?
      && s.book[inv].attempt < s.runtimes[s.book[inv].rid].maxAttempts
    case Resubmit(inv, _) =>
      && inv in s.book && s.book[inv].place.Delayed?
      && Active(s, s.book[inv].rid) && s.book[inv].rid in s.submitted
    case Leave(inv, why) =>
      && inv in s.book
      && match s.book[inv].place
         case Running(_) => (why.Errored? ==> Fails(s, inv) && LastError(s, inv)) && (why.TurnedOff? ==> Off(s, inv))
         case Disabling(_) => why.Finished?
         case Delayed(_) => why.TurnedOff? && Off(s, inv)
         case _ => false
  }

  /** The record once the invocation has been answered, if it is a request, and moved. */
  function Answered(r: Record, place: Place): Record {
    r.(place := place, answers := r.answers + if r.kind.Request? then 1 else 0)
  }

  /** The record of an invocation leaving the scheduler: a disabling one was answered before. */
  function Left(r: Record): Record {
    if r.place.Disabling? then r.(place := Done) else Answered(r, Done)
  }

  function Return(permits: map<nat, nat>, rid: nat): map<nat, nat> {
    if rid in permits then permits[rid := permits[rid] + 1] else permits
  }

  /** Free one in-flight slot, saturating at zero; nothing if the runtime has no state. */
  function Release(states: map<nat, TriggerState>, rid: nat): map<nat, TriggerState> {
    if rid in states then
      var n := states[rid].inFlight;
      states[rid := states[rid].(inFlight := if n == 0 then 0 else n - 1)]
    else states
  }

  function Members(q: seq<nat>): set<nat> { set x | x in q }

  /** Hand an invocation to a worker. */
  function Submit(s: Sched, inv: nat, work: nat): Sched
    requires inv in s.book && s.book[inv].rid in s.submitted
  {
    var r := s.book[inv];
    s.(book := s.book[inv := r.(place := Running(work), made := r.made + 1)],
       submitted := s.submitted[r.rid := s.submitted[r.rid] + [Submission(inv, r.attempt)]])
  }

  function Do(s: Sched, t: Step): Sched
    requires Enabled(s, t)
  {
    match t
    case Register(rid, runtime) =>
      s.(runtimes := s.runtimes[rid := runtime],
         permits := s.permits[rid := runtime.queueSize],
         admitted := s.admitted[rid := []],
         submitted := s.submitted[rid := []])
    case Cancel(rid) => s.(cancelled := s.cancelled + {rid})
    case Acquire(inv, rid, kind) =>
      s.(permits := s.permits[rid := s.permits[rid] - 1],
         book := s.book[inv := Record(rid, kind, Admitting, 1, 0, 0)])
    case Abandon(inv) =>
      s.(book := s.book[inv := s.book[inv].(place := Rejected)],
         permits := Return(s.permits, s.book[inv].rid))
    case Refuse(inv) =>
      s.(book := s.book[inv := Answered(s.book[inv], Done)],
         permits := Return(s.permits, s.book[inv].rid))
    case OpenState(rid) => s.(states := s.states[rid := FRESH_STATE])
    case Admit(inv) =>
      var rid := s.book[inv].rid;
      s.(states := s.states[rid := s.states[rid].(queue := s.states[rid].queue + [inv])],
         book := s.book[inv := s.book[inv].(place := Queued)],
         admitted := s.admitted[rid := s.admitted[rid] + [inv]])
    case DropHead(rid) =>
      var inv := s.states[rid].queue[0];
      s.(states := s.states[rid := s.states[rid].(queue := s.states[rid].queue[1..])],
         book := s.book[inv := Answered(s.book[inv], Done)],
         permits := Return(s.permits, s.book[inv].rid))
    case MarkDown(rid) => s.(states := s.states[rid := s.states[rid].(shuttingDown := true)])
    case AddWaiter(rid, waiter) =>
      s.(states := s.states[rid := s.states[rid].(waiters := s.states[rid].waiters + [waiter])])
    case AckAbsent(_, waiter) => s.(acked := s.acked + {waiter})
    case RemoveState(rid) =>
      s.(states := s.states - {rid}, acked := s.acked + Members(s.states[rid].waiters))
    case TakeOne(rid) =>
      var st := s.states[rid];
      s.(states := s.states[rid := st.(queue := st.queue[1..], inFlight := st.inFlight + 1)],
         ready := s.ready + [st.queue[0]],
         book := s.book[st.queue[0] := s.book[st.queue[0]].(place := Ready)])
    case SubmitReady(work) => Submit(s, s.ready[0], work).(ready := s.ready[1..])
    case ToDisable(inv, ticket) => s.(book := s.book[inv := Answered(s.book[inv], Disabling(ticket))])
    case ToDelay(inv, delay) =>
      s.(book := s.book[inv := s.book[inv].(place := Delayed(delay), attempt := s.book[inv].attempt + 1)])
    case Resubmit(inv, work) => Submit(s, inv, work)
    case Leave(inv, _) =>
      s.(book := s.book[inv := Left(s.book[inv])],
         permits := Return(s.permits, s.book[inv].rid),
         states := Release(s.states, s.book[inv].rid))
  }

  /** The record a step writes, if it writes one. */
  function Writes(s: Sched, t: Step): (w: seq<(nat, Record)>)
    requires Enabled(s, t)
    ensures |w| <= 1
    ensures w == [] ==> Do(s, t).book == s.book
    ensures w != [] ==> Do(s, t).book == s.book[w[0].0 := w[0].1]
    ensures w != [] && w[0].0 in s.book ==> s.book[w[0].0].rid == w[0].1.rid
  {
    var inv := match t
      case Acquire(inv, _, _) => [inv]
      case Abandon(inv) => [inv]
      case Refuse(inv) => [inv]
      case Admit(inv) => [inv]
      case DropHead(rid) => [s.states[rid].queue[0]]
      case TakeOne(rid) => [s.states[rid].queue[0]]
      case SubmitReady(_) => [s.ready[0]]
      case ToDisable(inv, _) => [inv]
      case ToDelay(inv, _) => [inv]
      case Resubmit(inv, _) => [inv]
      case Leave(inv, _) => [inv]
      case _ => [];
    if inv == [] then [] else [(inv[0], Do(s, t).book[inv[0]])]
  }

  // ---- Runs ----

  predicate Run(s: Sched, ts: seq<Step>)
    decreases |ts|
  {
    ts == [] || (Enabled(s, ts[0]) && Run(Do(s, ts[0]), ts[1..]))
  }

  function After(s: Sched, ts: seq<Step>): Sched
    requires Run(s, ts)
    decreases |ts|
  {
    if ts == [] then s else After(Do(s, ts[0]), ts[1..])
  }

  lemma {:induction false} RunConcat(s: Sched, a: seq<Step>, b: seq<Step>)
    requires Run(s, a) && Run(After(s, a), b)
    ensures Run(s, a + b) && After(s, a + b) == After(After(s, a), b)
    decreases |a|
  {
    if a == [] {
      assert a + b == b;
    } else {
      assert (a + b)[0] == a[0] && (a + b)[1..] == a[1..] + b;
      RunConcat(Do(s, a[0]), a[1..], b);
    }
  }
}
