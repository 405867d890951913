/**
 The scheduler's event loop, updated in place. Every method is a run of the steps of
 `SchedulerModel`, recorded in the ghost `trace`, so what `SchedulerRuns` proves of every run holds
 of every execution of the loop.
 */
module EventLoop {
  import opened Wrappers
  import opened SchedulerModel
  import opened SchedulerRuns
  import opened SchedulerLoop
  import opened SchedulerTraces

  /** What a worker reports for a piece of work. */
  datatype WorkResult = Completed | Response | Error | CancelledError

  /** What wakes the loop up. */
  datatype Wake =
    | Enqueued(inv: nat)
    | WorkerFinished(worker: nat, work: nat, result: WorkResult)
    | WorkerProgressed(worker: nat, work: nat)
    | Shutdown(rid: nat, waiter: nat)
    | RetryDelayDone(delay: nat, sawCancel: bool)
    | AutoDisableDone(ticket: nat, disabled: Option<bool>)

  /**
   What a report makes of a piece of work: an error of a runtime still active is retried while
   attempts are left or starts an auto-disable, as the runtime asks; everything else ends the work.
   */
  function Resolved(l: Loop, work: nat, result: WorkResult): Loop
    requires work in l.running && l.running[work].rid in l.runtimes
  {
    var j := l.running[work];
    var rt := l.runtimes[j.rid];
    if j.rid in l.cancelled || !result.Error? then DoFinish(l, work)
    else if rt.behavior.Disable? then DoToDisable(l, work)
    else if rt.behavior.Retry? && j.attempt < rt.maxAttempts then DoToDelay(l, work)
    else DoFinish(l, work)
  }

  /** What dropping a whole queue answers and gives back. */
  function AnswerAll(answered: map<nat, nat>, q: seq<Job>): map<nat, nat>
    decreases |q|
  {
    if q == [] then answered else AnswerAll(Answer(answered, q[0]), q[1..])
  }

  function ReturnAll(permits: map<nat, nat>, q: seq<Job>): map<nat, nat>
    decreases |q|
  {
    if q == [] then permits else ReturnAll(Return(permits, q[0].rid), q[1..])
  }

  function QueueAt(states: map<nat, LoopState>, rid: nat): seq<Job> {
    if rid in states then states[rid].queue else []
  }

  /** The runtime's state, if it has one, drained and taking no more work. */
  function TakenDown(states: map<nat, LoopState>, rid: nat): map<nat, LoopState> {
    if rid in states then states[rid := states[rid].(queue := [], shuttingDown := true)] else states
  }

  /** The states with one for the runtime, new if it had none. */
  function Opened(states: map<nat, LoopState>, rid: nat): map<nat, LoopState> {
    if rid in states then states else states[rid := NEW_STATE]
  }

  /** The job is answered once more if it is a request, and nobody else is. */
  ghost predicate OneAnswer(before: map<nat, nat>, now: map<nat, nat>, j: Job) {
    && AnswersTo(now, j.inv) == AnswersTo(before, j.inv) + (if j.kind.Request? then 1 else 0)
    && forall i :: i != j.inv ==> AnswersTo(now, i) == AnswersTo(before, i)
  }

  /** The runtime has one more permit free, if it is known. */
  ghost predicate OnePermit(before: map<nat, nat>, now: map<nat, nat>, rid: nat) {
    && now.Keys == before.Keys
    && forall r :: r in now ==> now[r] == before[r] + (if r == rid then 1 else 0)
  }

  /** The runtime has one slot less in use; nothing else about the states changes. */
  ghost predicate OneSlot(before: map<nat, LoopState>, now: map<nat, LoopState>, rid: nat) {
    && now.Keys == before.Keys
    && (forall r :: r in now && r != rid ==> now[r] == before[r])
    && (rid in now ==>
          now[rid] == before[rid].(inFlight := if before[rid].inFlight > 0 then before[rid].inFlight - 1 else 0))
  }

  ghost predicate Down(states: map<nat, LoopState>, rid: nat) {
    rid in states ==> states[rid].queue == [] && states[rid].shuttingDown
  }

  /** What the loop's data are once it has dealt with what woke it up. */
  ghost predicate Handled(w: Wake, l: Loop, n: Loop) {
    match w
    case Enqueued(inv) => EnqueueHandled(l, n, inv)
    case WorkerFinished(worker, work, result) =>
      if work in l.running && l.running[work].worker == Some(worker) then ResultHandled(l, n, work, result) else n == l
    case WorkerProgressed(_, _) => n == l
    case Shutdown(rid, waiter) =>
      Down(n.states, rid) && if rid in n.states then waiter in n.states[rid].waiters else waiter in n.acked
    case RetryDelayDone(d, _) => DelayHandled(l, n, d)
    case AutoDisableDone(ticket, disabled) =>
      && ticket in l.disabling && n.disabling == l.disabling - {ticket}
      && n.cancelled == l.cancelled + (if disabled == Some(true) then {l.disabling[ticket].rid} else {})
      && (disabled == Some(true) ==> Down(n.states, l.disabling[ticket].rid))
      && (disabled != Some(true) ==> OneSlot(l.states, n.states, l.disabling[ticket].rid))
      && (disabled != Some(true) ==> OnePermit(l.permits, n.permits, l.disabling[ticket].rid))
  }

  /** The invocation is last in its runtime's queue, or answered and its permit free if the runtime is cancelled. */
  ghost predicate EnqueueHandled(l: Loop, n: Loop, inv: nat) {
    && inv in l.inbox && n.inbox == l.inbox - {inv}
    && var j := l.inbox[inv];
      if j.rid in n.cancelled then OneAnswer(l.answered, n.answered, j) && OnePermit(l.permits, n.permits, j.rid)
      else
        && n.answered == l.answered && n.permits == l.permits
        && j.rid in n.states && n.states[j.rid].queue == QueueAt(l.states, j.rid) + [j]
  }

  /**
   An error on a runtime that is not cancelled waits for its next attempt if the runtime retries and
   attempts are left, keeping its permit and slot, or for the trigger to be disabled if the runtime
   asks for that; every other result ends the invocation. Whatever does not wait for an attempt is
   answered.
   */
  ghost predicate ResultHandled(l: Loop, n: Loop, work: nat, result: WorkResult)
    requires work in l.running
  {
    var j := l.running[work];
    && j.rid in l.runtimes && n.running == l.running - {work}
    && var rt := l.runtimes[j.rid];
      var acted := result.Error? && j.rid !in l.cancelled;
      var retried := acted && rt.behavior.Retry? && j.attempt < rt.maxAttempts;
      var disabled := acted && rt.behavior.Disable?;
      && n.delayed ==
        (if retried then l.delayed[l.nextId := j.(attempt := j.attempt + 1, worker := None)] else l.delayed)
      && n.disabling == (if disabled then l.disabling[l.nextId := j] else l.disabling)
      && (retried ==> n.answered == l.answered)
      && (!retried ==> OneAnswer(l.answered, n.answered, j))
      && (retried || disabled ==> n.permits == l.permits && n.states == l.states)
      && (!retried && !disabled ==> OnePermit(l.permits, n.permits, j.rid) && OneSlot(l.states, n.states, j.rid))
  }

  /** The delayed invocation runs again, on the same attempt, or has ended if its runtime is cancelled. */
  ghost predicate DelayHandled(l: Loop, n: Loop, d: nat) {
    && d in l.delayed && n.delayed == l.delayed - {d}
    && var j := l.delayed[d];
      if j.rid in l.cancelled then
        && n.running == l.running && OneAnswer(l.answered, n.answered, j)
        && OnePermit(l.permits, n.permits, j.rid) && OneSlot(l.states, n.states, j.rid)
      else
        && l.nextId in n.running && n.running == l.running[l.nextId := j.(worker := n.running[l.nextId].worker)]
        && n.answered == l.answered && n.permits == l.permits && n.states == l.states
  }

  lemma EndsInOne(l: Loop, j: Job)
    ensures OneAnswer(l.answered, Answer(l.answered, j), j) && OnePermit(l.permits, Return(l.permits, j.rid), j.rid)
    ensures OneSlot(l.states, ReleaseSlot(l.states, j.rid), j.rid)
  {
  }

  lemma ResolvedHandles(l: Loop, work: nat, result: WorkResult)
    requires work in l.running && l.running[work].rid in l.runtimes
    ensures ResultHandled(l, Resolved(l, work, result), work, result)
  {
    hide ResultHandled, DoFinish, DoToDisable, DoToDelay;
    var j := l.running[work];
    var rt := l.runtimes[j.rid];
    if j.rid in l.cancelled || !result.Error? {
      FinishHandles(l, work, result);
    } else if rt.behavior.Disable? {
      DisableHandles(l, work);
    } else if rt.behavior.Retry? && j.attempt < rt.maxAttempts {
      RetryHandles(l, work);
    } else {
      FinishHandles(l, work, result);
    }
  }

  lemma FinishHandles(l: Loop, work: nat, result: WorkResult)
    requires work in l.running && l.running[work].rid in l.runtimes
    requires var j := l.running[work];
      var rt := l.runtimes[j.rid];
      || j.rid in l.cancelled || !result.Error?
      || rt.behavior.Log? || (rt.behavior.Retry? && j.attempt >= rt.maxAttempts)
    ensures ResultHandled(l, DoFinish(l, work), work, result)
  {
    EndsInOne(l, l.running[work]);
    hide Answer, Return, ReleaseSlot, OneAnswer, OnePermit, OneSlot;
  }

  lemma DisableHandles(l: Loop, work: nat)
    requires work in l.running && l.running[work].rid in l.runtimes && l.running[work].rid !in l.cancelled
    requires l.runtimes[l.running[work].rid].behavior.Disable?
    ensures ResultHandled(l, DoToDisable(l, work), work, Error)
  {
    EndsInOne(l, l.running[work]);
    hide Answer, OneAnswer, OnePermit, OneSlot;
  }

  lemma RetryHandles(l: Loop, work: nat)
    requires work in l.running && l.running[work].rid in l.runtimes && l.running[work].rid !in l.cancelled
    requires l.runtimes[l.running[work].rid].behavior.Retry?
    requires l.running[work].attempt < l.runtimes[l.running[work].rid].maxAttempts
    ensures ResultHandled(l, DoToDelay(l, work), work, Error)
  {
    hide OneAnswer, OnePermit, OneSlot;
  }

  lemma DelayHandles(l: Loop, d: nat, worker: nat)
    requires d in l.delayed
    ensures l.delayed[d].rid in l.cancelled ==> DelayHandled(l, DoRetryCancelled(l, d), d)
    ensures l.delayed[d].rid !in l.cancelled && l.delayed[d].rid in l.submitted ==>
      DelayHandled(l, DoResubmit(l, d, worker), d)
  {
    EndsInOne(l, l.delayed[d]);
    hide Answer, Return, ReleaseSlot, OneAnswer, OnePermit, OneSlot;
  }

  /** Whose turn it is after `count` submissions that began with worker `first` of `n`. */
  function TurnAfter(first: nat, n: nat, count: nat): (w: nat)
    requires first < n
    ensures w < n
  {
    if count == 0 then first else (TurnAfter(first, n, count - 1) + 1) % n
  }

  lemma ClearStart(running: map<nat, Job>, cancelled: set<nat>)
    ensures StaysClear(running, running, cancelled)
  {
  }

  lemma ClearMore(before: map<nat, Job>, running: map<nat, Job>, id: nat, j: Job, cancelled: set<nat>)
    requires StaysClear(before, running, cancelled) && j.rid !in cancelled
    ensures StaysClear(before, running[id := j], cancelled)
  {
  }

  class SchedulerRuntime {
    const workers: seq<nat>
    var nextWorker: nat
    var runtimes: map<nat, Runtime>
    var cancelled: set<nat>
    var permits: map<nat, nat>
    var inbox: map<nat, Job>
    var states: map<nat, LoopState>
    var running: map<nat, Job>
    var delayed: map<nat, Job>
    var retryDelays: set<nat>
    var autoDisables: map<nat, Job>
    var nextId: nat
    var answered: map<nat, nat>
    var submitted: map<nat, seq<Submission>>
    var acked: set<nat>
    ghost var trace: seq<Step>

    /** The loop's data, with the jobs a dispatch has taken but not yet submitted. */
    ghost function ViewWith(ready: seq<Job>): Loop
      reads this
    {
      Loop(runtimes, cancelled, permits, inbox, states, running, delayed, retryDelays, autoDisables,
           ready, nextId, answered, submitted, acked)
    }

    ghost function View(): Loop
      reads this
    {
      ViewWith([])
    }

    /** The record of every invocation, as the steps taken so far leave it. */
    ghost function Book(): map<nat, Record>
      reads this
    {
      BookAfter(trace)
    }

    ghost predicate Valid()
      reads this
    {
      nextWorker < |workers| && Traced(trace, View())
    }

    constructor (workers: seq<nat>)
      requires workers != []
      ensures Valid() && View() == EMPTY_LOOP && trace == [] && this.workers == workers
    {
      this.workers := workers;
      nextWorker := 0;
      runtimes, cancelled, permits, inbox := map[], {}, map[], map[];
      states, running, delayed, retryDelays, autoDisables := map[], map[], map[], {}, map[];
      nextId, answered, submitted, acked := 1, map[], map[], {};
      trace := [];
      new;
      TracedEmpty();
    }

    // -- Primitives --

    /** Send the response of a request; other payloads have no one to answer. */
    method SendAnswer(j: Job)
      modifies this`answered
      ensures answered == Answer(old(answered), j)
    {
      if j.kind.Request? {
        answered := answered[j.inv := AnswersTo(answered, j.inv) + 1];
      }
    }

    /** Dropping a job gives its permit back. */
    method DropPermit(rid: nat)
      modifies this`permits
      ensures permits == Return(old(permits), rid)
    {
      if rid in permits {
        permits := permits[rid := permits[rid] + 1];
      }
    }

    method ReleaseInFlight(rid: nat)
      modifies this`states
      ensures states == ReleaseSlot(old(states), rid)
    {
      if rid in states {
        var n := states[rid].inFlight;
        states := states[rid := states[rid].(inFlight := if n == 0 then 0 else n - 1)];
      }
    }

    /** A job ends: answered, permit and slot given back. */
    method AnswerAndRelease(j: Job)
      modifies this`answered, this`permits, this`states
      ensures answered == Answer(old(answered), j) && permits == Return(old(permits), j.rid)
      ensures states == ReleaseSlot(old(states), j.rid)
    {
      SendAnswer(j);
      DropPermit(j.rid);
      ReleaseInFlight(j.rid);
    }

    /** Workers take turns. */
    method NextWorker() returns (w: nat)
      requires nextWorker < |workers|
      modifies this`nextWorker
      ensures nextWorker < |workers|
      ensures w == workers[old(nextWorker)] && nextWorker == (old(nextWorker) + 1) % |workers|
    {
      w := workers[nextWorker];
      nextWorker := (nextWorker + 1) % |workers|;
    }

    method SubmitWorker(j: Job) returns (w: nat)
      requires nextWorker < |workers| && j.rid in submitted
      modifies this`nextWorker, this`running, this`nextId, this`submitted
      ensures nextWorker < |workers| && w == workers[old(nextWorker)]
      ensures nextWorker == (old(nextWorker) + 1) % |workers|
      ensures running == old(running)[old(nextId) := j.(worker := Some(w))] && nextId == old(nextId) + 1
      ensures submitted == old(submitted)[j.rid := old(submitted)[j.rid] + [Submission(j.inv, j.attempt)]]
    {
      w := NextWorker();
      running := running[nextId := j.(worker := Some(w))];
      nextId := nextId + 1;
      submitted := submitted[j.rid := submitted[j.rid] + [Submission(j.inv, j.attempt)]];
    }

    /** Answer and drop the head of a cancelled runtime's queue. */
    method DropHeadJob(rid: nat, ghost ready: seq<Job>)
      requires Traced(trace, ViewWith(ready)) && rid in states && states[rid].queue != [] && rid in cancelled
      modifies this`states, this`answered, this`permits, this`trace
      ensures Traced(trace, ViewWith(ready)) && trace == old(trace) + [DropHead(rid)]
      ensures ViewWith(ready) == DoDropHead(old(ViewWith(ready)), rid)
    {
      hide Traced, Answer, Return, ReleaseSlot;
      TracedDropHead(trace, ViewWith(ready), rid);
      trace := trace + [DropHead(rid)];
      var j := states[rid].queue[0];
      states := states[rid := states[rid].(queue := states[rid].queue[1..])];
      SendAnswer(j);
      DropPermit(j.rid);
    }

    /** Answer and drop everything queued for a cancelled runtime. */
    method DrainCancelled(rid: nat, ghost ready: seq<Job>)
      requires Traced(trace, ViewWith(ready)) && rid in states && rid in cancelled
      modifies this`states, this`answered, this`permits, this`trace
      ensures Traced(trace, ViewWith(ready)) && old(trace) <= trace
      ensures states == old(states)[rid := old(states)[rid].(queue := [])]
      ensures answered == AnswerAll(old(answered), old(states)[rid].queue)
      ensures permits == ReturnAll(old(permits), old(states)[rid].queue)
    {
      hide Traced, Answer, Return;
      while states[rid].queue != []
        invariant Traced(trace, ViewWith(ready)) && old(trace) <= trace
        invariant rid in states
        invariant AnswerAll(answered, states[rid].queue) == AnswerAll(old(answered), old(states)[rid].queue)
        invariant ReturnAll(permits, states[rid].queue) == ReturnAll(old(permits), old(states)[rid].queue)
        invariant states == old(states)[rid := old(states)[rid].(queue := states[rid].queue)]
        decreases |states[rid].queue|
      {
        DropHeadJob(rid, ready);
      }
    }

    /** A drained, cancelled runtime stops taking work. */
    method MarkShuttingDown(rid: nat, ghost ready: seq<Job>)
      requires Traced(trace, ViewWith(ready)) && rid in states && rid in cancelled && states[rid].queue == []
      modifies this`states, this`trace
      ensures Traced(trace, ViewWith(ready)) && old(trace) <= trace
      ensures states == old(states)[rid := old(states)[rid].(shuttingDown := true)]
    {
      hide Traced;
      TracedMarkDown(trace, ViewWith(ready), rid);
      trace := trace + [MarkDown(rid)];
      states := states[rid := states[rid].(shuttingDown := true)];
    }

    /** Drain a cancelled runtime and stop it taking work. */
    method StopTaking(rid: nat, ghost ready: seq<Job>)
      requires Traced(trace, ViewWith(ready)) && rid in states && rid in cancelled
      modifies this`states, this`answered, this`permits, this`trace
      ensures Traced(trace, ViewWith(ready)) && old(trace) <= trace
      ensures states == TakenDown(old(states), rid)
      ensures answered == AnswerAll(old(answered), old(states)[rid].queue)
      ensures permits == ReturnAll(old(permits), old(states)[rid].queue)
    {
      hide Traced, AnswerAll, ReturnAll;
      DrainCancelled(rid, ready);
      MarkShuttingDown(rid, ready);
    }

    /** A token fires. */
    method CancelToken(rid: nat, ghost ready: seq<Job>)
      requires Traced(trace, ViewWith(ready)) && rid in runtimes
      modifies this`cancelled, this`trace
      ensures Traced(trace, ViewWith(ready)) && old(trace) <= trace && cancelled == old(cancelled) + {rid}
      ensures After(INITIAL, trace).book == old(After(INITIAL, trace).book)
    {
      hide Traced;
      TracedCancel(trace, ViewWith(ready), rid);
      trace := trace + [Cancel(rid)];
      cancelled := cancelled + {rid};
    }

    /** A token may fire before each time it is read. */
    method MayCancel(rid: nat, ghost ready: seq<Job>)
      requires Traced(trace, ViewWith(ready)) && rid in runtimes
      modifies this`cancelled, this`trace
      ensures Traced(trace, ViewWith(ready)) && old(trace) <= trace
      ensures cancelled == old(cancelled) || cancelled == old(cancelled) + {rid}
      ensures After(INITIAL, trace).book == old(After(INITIAL, trace).book)
    {
      hide Traced;
      var fires: bool := *;
      if fires {
        CancelToken(rid, ready);
      }
    }

    // -- Receiving --

    /** Accept an invocation into its runtime's queue, unless the runtime was cancelled. */
    method Enqueue(j: Job)
      requires Valid() && Received(After(INITIAL, trace), j) && j.inv !in inbox
      modifies this`states, this`answered, this`permits, this`trace, this`cancelled
      ensures Valid() && old(trace) <= trace && old(cancelled) <= cancelled
      ensures j.rid in old(cancelled) ==> states == old(states)
      ensures j.rid in cancelled && j.rid !in old(cancelled) ==> states == Opened(old(states), j.rid)
      ensures j.rid in cancelled ==> answered == Answer(old(answered), j) && permits == Return(old(permits), j.rid)
      ensures j.rid !in cancelled ==>
        && answered == old(answered) && permits == old(permits)
        && var was := Opened(old(states), j.rid);
          states == was[j.rid := was[j.rid].(queue := was[j.rid].queue + [j])]
    {
      hide Traced, After, Answer, Return;
      if j.rid in cancelled {
        Refused(j);
        return;
      }
      EnsureState(j);
      MayCancel(j.rid, []);
      DownIsCancelled(trace, View());
      if states[j.rid].shuttingDown || j.rid in cancelled {
        Refused(j);
        return;
      }
      PushBack(j);
    }

    method PushBack(j: Job)
      requires Valid() && Received(After(INITIAL, trace), j) && j.inv !in inbox
      requires j.rid in states && !states[j.rid].shuttingDown && j.rid !in cancelled
      modifies this`states, this`trace
      ensures Valid() && old(trace) <= trace
      ensures states == old(states)[j.rid := old(states)[j.rid].(queue := old(states)[j.rid].queue + [j])]
    {
      hide Traced;
      TracedAdmit(trace, View(), j);
      trace := trace + [Admit(j.inv)];
      states := states[j.rid := states[j.rid].(queue := states[j.rid].queue + [j])];
    }

    method EnsureState(j: Job)
      requires Valid() && Received(After(INITIAL, trace), j) && j.rid !in cancelled
      modifies this`states, this`trace
      ensures Valid() && old(trace) <= trace && Received(After(INITIAL, trace), j) && j.rid in runtimes
      ensures states == Opened(old(states), j.rid)
    {
      hide Traced;
      RuntimeKnown(trace, View(), j);
      if j.rid !in states {
        TracedOpen(trace, View(), j);
        trace := trace + [OpenState(j.rid)];
        states := states[j.rid := NEW_STATE];
      }
    }

    method Refused(j: Job)
      requires Valid() && Received(After(INITIAL, trace), j) && j.inv !in inbox && j.rid in cancelled
      modifies this`answered, this`permits, this`trace
      ensures Valid() && old(trace) <= trace
      ensures answered == Answer(old(answered), j) && permits == Return(old(permits), j.rid)
    {
      hide Traced, Answer, Return, ReleaseSlot;
      TracedRefuse(trace, View(), j);
      trace := trace + [Refuse(j.inv)];
      SendAnswer(j);
      DropPermit(j.rid);
    }

    // -- Shutting down --

    /** The caller has cancelled the runtime; acknowledge now if it has no state, later otherwise. */
    method ShutdownTrigger(rid: nat, waiter: nat)
      requires Valid() && rid in cancelled
      modifies this`states, this`answered, this`permits, this`trace, this`acked
      ensures Valid() && old(trace) <= trace && states.Keys == old(states).Keys
      ensures rid !in states ==> states == old(states) && acked == old(acked) + {waiter}
      ensures rid in states ==>
        && acked == old(acked)
        && states == old(states)[rid := old(states)[rid].(
             queue := [], shuttingDown := true, waiters := old(states)[rid].waiters + [waiter])]
      ensures answered == AnswerAll(old(answered), QueueAt(old(states), rid))
      ensures permits == ReturnAll(old(permits), QueueAt(old(states), rid))
    {
      hide Traced;
      if rid !in states {
        TracedAckAbsent(trace, View(), rid, waiter);
        trace := trace + [AckAbsent(rid, waiter)];
        acked := acked + {waiter};
        return;
      }
      StopTaking(rid, []);
      TracedAddWaiter(trace, View(), rid, waiter);
      trace := trace + [AddWaiter(rid, waiter)];
      states := states[rid := states[rid].(waiters := states[rid].waiters + [waiter])];
    }

    // -- Finishing work --

    /** A job leaves its worker for good: answered, permit and slot given back. */
    method FinishWork(w: nat, ghost why: Reason)
      requires Valid() && w in running && running[w].rid in runtimes && Ends(View(), w, why)
      modifies this`running, this`answered, this`permits, this`states, this`trace
      ensures Valid() && View() == DoFinish(old(View()), w)
      ensures trace == old(trace) + [Leave(old(running)[w].inv, why)]
      ensures Taken(old(trace), Leave(old(running)[w].inv, why))
    {
      hide Traced, Taken, Answer, Return, ReleaseSlot;
      TracedFinish(trace, View(), w, why);
      var j := running[w];
      trace := trace + [Leave(j.inv, why)];
      running := running - {w};
      AnswerAndRelease(j);
    }

    method ScheduleAutoDisable(w: nat)
      requires Valid() && w in running && running[w].rid in runtimes && running[w].rid !in cancelled
      requires runtimes[running[w].rid].behavior.Disable?
      modifies this`running, this`answered, this`autoDisables, this`nextId, this`trace
      ensures Valid() && View() == DoToDisable(old(View()), w)
      ensures trace == old(trace) + [ToDisable(old(running)[w].inv, old(nextId))]
      ensures Taken(old(trace), ToDisable(old(running)[w].inv, old(nextId)))
    {
      hide Traced, Taken;
      TracedToDisable(trace, View(), w);
      var j := running[w];
      trace := trace + [ToDisable(j.inv, nextId)];
      running := running - {w};
      SendAnswer(j);
      autoDisables := autoDisables[nextId := j];
      nextId := nextId + 1;
    }

    method ScheduleRetry(w: nat)
      requires Valid() && w in running && running[w].rid in runtimes
      requires running[w].attempt < runtimes[running[w].rid].maxAttempts
      requires running[w].rid !in cancelled && runtimes[running[w].rid].behavior.Retry?
      modifies this`running, this`delayed, this`retryDelays, this`nextId, this`trace
      ensures Valid() && View() == DoToDelay(old(View()), w)
      ensures trace == old(trace) + [ToDelay(old(running)[w].inv, old(nextId))]
      ensures Taken(old(trace), ToDelay(old(running)[w].inv, old(nextId)))
    {
      hide Traced, Taken;
      TracedToDelay(trace, View(), w);
      var j := running[w];
      trace := trace + [ToDelay(j.inv, nextId)];
      running := running - {w};
      delayed := delayed[nextId := j.(attempt := j.attempt + 1, worker := None)];
      retryDelays := retryDelays + {nextId};
      nextId := nextId + 1;
    }

    /** A worker reports; stale reports and reports from the wrong worker change nothing. */
    method HandleWorkerResult(worker: nat, work: nat, result: WorkResult)
      requires Valid()
      modifies this`running, this`answered, this`permits, this`states, this`trace
      modifies this`autoDisables, this`nextId, this`delayed, this`retryDelays
      ensures Valid() && old(trace) <= trace
      ensures work !in old(running) || old(running)[work].worker != Some(worker) ==>
        View() == old(View()) && trace == old(trace)
      ensures work in old(running) && old(running)[work].worker == Some(worker) ==>
        old(running)[work].rid in runtimes && View() == Resolved(old(View()), work, result)
      ensures work in old(running) && old(running)[work].worker == Some(worker) ==>
        var inv, rid := old(running)[work].inv, old(running)[work].rid;
        && rid in runtimes && inv in old(Book()) && inv in Book()
        && var was, now, rt := old(Book())[inv], Book()[inv], runtimes[rid];
          && was.rid == rid && was.attempt == old(running)[work].attempt
          && (now.place.Disabling? <==> result.Error? && rid !in cancelled && rt.behavior.Disable?)
          && (now.place.Delayed? <==>
                result.Error? && rid !in cancelled && rt.behavior.Retry? && was.attempt < rt.maxAttempts)
          && (now.place.Disabling? || now.place.Delayed? || now.place.Done?)
          && now.attempt == was.attempt + (if now.place.Delayed? then 1 else 0)
          && now.answers == was.answers + (if was.kind.Request? && !now.place.Delayed? then 1 else 0)
          && Book() == old(Book())[inv := now]
      ensures work in old(running) && result.Error? ==>
        Leave(old(running)[work].inv, Finished) !in trace[|old(trace)|..]
    {
      hide Traced;
      if work !in running || running[work].worker != Some(worker) {
        return;
      }
      LoopFacts(trace, View());
      HandleAttemptResult(work, result);
    }

    method HandleAttemptResult(work: nat, result: WorkResult)
      requires Valid() && work in running && running[work].rid in runtimes
      modifies this`running, this`answered, this`permits, this`states, this`trace
      modifies this`autoDisables, this`nextId, this`delayed, this`retryDelays
      ensures Valid() && old(trace) <= trace && View() == Resolved(old(View()), work, result)
      ensures var inv, rid := old(running)[work].inv, old(running)[work].rid;
        && rid in runtimes && inv in old(Book()) && inv in Book()
        && var was, now, rt := old(Book())[inv], Book()[inv], runtimes[rid];
          && was.rid == rid && was.attempt == old(running)[work].attempt
          && (now.place.Disabling? <==> result.Error? && rid !in cancelled && rt.behavior.Disable?)
          && (now.place.Delayed? <==>
                result.Error? && rid !in cancelled && rt.behavior.Retry? && was.attempt < rt.maxAttempts)
          && (now.place.Disabling? || now.place.Delayed? || now.place.Done?)
          && now.attempt == was.attempt + (if now.place.Delayed? then 1 else 0)
          && now.answers == was.answers + (if was.kind.Request? && !now.place.Delayed? then 1 else 0)
          && Book() == old(Book())[inv := now]
      ensures result.Error? ==> Leave(old(running)[work].inv, Finished) !in trace[|old(trace)|..]
    {
      hide Traced, Taken, BookAfter, DoFinish, DoToDisable, DoToDelay;
      RunningFacts(trace, View(), work);
      ghost var before, inv := trace, running[work].inv;
      if running[work].rid in cancelled {
        FinishWork(work, TurnedOff);
        LeftBook(before, inv, TurnedOff);
        return;
      }
      match result
      case Completed | Response | CancelledError =>
        FinishWork(work, Finished);
        LeftBook(before, inv, Finished);
      case Error => HandleAttemptError(work);
    }

    /** An error of a runtime that is on: logged, disabling the trigger, or retried while attempts are left. */
    method HandleAttemptError(work: nat)
      requires Valid() && work in running && running[work].rid in runtimes && running[work].rid !in cancelled
      modifies this`running, this`answered, this`permits, this`states, this`trace
      modifies this`autoDisables, this`nextId, this`delayed, this`retryDelays
      ensures Valid() && old(trace) <= trace && View() == Resolved(old(View()), work, Error)
      ensures var inv, rid := old(running)[work].inv, old(running)[work].rid;
        && rid in runtimes && inv in old(Book()) && inv in Book()
        && var was, now, rt := old(Book())[inv], Book()[inv], runtimes[rid];
          && was.rid == rid && was.attempt == old(running)[work].attempt
          && (now.place.Disabling? <==> rt.behavior.Disable?)
          && (now.place.Delayed? <==>
                rt.behavior.Retry? && was.attempt < rt.maxAttempts)
          && (now.place.Disabling? || now.place.Delayed? || now.place.Done?)
          && now.attempt == was.attempt + (if now.place.Delayed? then 1 else 0)
          && now.answers == was.answers + (if was.kind.Request? && !now.place.Delayed? then 1 else 0)
          && Book() == old(Book())[inv := now]
      ensures Leave(old(running)[work].inv, Finished) !in trace[|old(trace)|..]
    {
      hide Traced, Taken, BookAfter, DoFinish, DoToDisable, DoToDelay;
      RunningFacts(trace, View(), work);
      ghost var before, inv, next := trace, running[work].inv, nextId;
      var rid := running[work].rid;
      match runtimes[rid].behavior
      case Log =>
        FinishWork(work, Errored);
        LeftBook(before, inv, Errored);
      case Disable =>
        ScheduleAutoDisable(work);
        DisablingBook(before, inv, next);
      case Retry =>
        if running[work].attempt >= runtimes[rid].maxAttempts {
          FinishWork(work, Errored);
          LeftBook(before, inv, Errored);
        } else {
          ScheduleRetry(work);
          DelayedBook(before, inv, next);
        }
    }

    /** Cancel and answer everything a runtime has running. */
    method DetachRunningForRuntime(rid: nat)
      requires Valid() && rid in cancelled && rid in runtimes
      modifies this`running, this`answered, this`permits, this`states, this`trace
      ensures Valid() && old(trace) <= trace && OnlySlotsOf(old(states), states, rid)
      ensures running == WithoutRuntime(old(running), rid)
    {
      hide Traced, Taken, Answer, Return;
      hide WithoutRuntime;
      var works := WorksOf(running, rid);
      while works != {}
        invariant Valid() && old(trace) <= trace && OnlySlotsOf(old(states), states, rid)
        invariant works == WorksOf(running, rid)
        invariant WithoutRuntime(running, rid) == WithoutRuntime(old(running), rid)
      {
        var w :| w in works;
        WithoutOne(running, rid, w);
        FinishWork(w, TurnedOff);
        works := works - {w};
      }
      WithoutNone(running, rid);
    }

    method StopIfCancelled(rid: nat) returns (stopped: bool)
      requires Valid() && rid in states && rid in runtimes
      modifies this`answered, this`permits, this`states, this`trace, this`cancelled
      ensures Valid() && old(trace) <= trace && old(cancelled) <= cancelled
      ensures stopped ==>
        rid in cancelled && states == old(states)[rid := old(states)[rid].(queue := [], shuttingDown := true)]
      ensures !stopped ==> rid !in cancelled && states == old(states)
    {
      hide Traced;
      MayCancel(rid, []);
      DownIsCancelled(trace, View());
      stopped := states[rid].shuttingDown || rid in cancelled;
      if stopped {
        StopTaking(rid, []);
      }
    }

    /** Runtimes found cancelled drop their queue and stop taking work. */
    method StopCancelled() returns (found: set<nat>)
      requires Valid()
      modifies this`answered, this`permits, this`states, this`trace, this`cancelled
      ensures Valid() && old(trace) <= trace && old(cancelled) <= cancelled && states.Keys == old(states).Keys
      ensures old(cancelled) * states.Keys <= found <= cancelled
      ensures DownExactly(old(states), states, found)
    {
      hide Traced, DownExactly;
      StatesKnown(trace, View());
      found := {};
      var rest := states.Keys;
      DownNone(states);
      while rest != {}
        invariant Valid() && old(trace) <= trace && states.Keys == old(states).Keys
        invariant old(cancelled) <= cancelled && rest <= states.Keys <= runtimes.Keys
        invariant old(cancelled) * (states.Keys - rest) <= found <= cancelled
        invariant DownExactly(old(states), states, found)
      {
        var rid :| rid in rest;
        DownMore(old(states), states, found, rid);
        var stopped := StopIfCancelled(rid);
        if stopped {
          found := found + {rid};
        }
        rest := rest - {rid};
      }
    }

    method DetachAll(found: set<nat>)
      requires Valid() && found <= cancelled && cancelled <= runtimes.Keys
      modifies this`running, this`answered, this`permits, this`states, this`trace
      ensures Valid() && old(trace) <= trace && OnlySlotsOfAll(old(states), states, found)
      ensures running == WithoutAll(old(running), found)
    {
      hide Traced;
      hide WithoutAll;
      hide WithoutRuntime;
      ghost var done: set<nat> := {};
      var rest := found;
      WithoutAllNone(running);
      while rest != {}
        invariant Valid() && old(trace) <= trace && rest <= found && done == found - rest
        invariant OnlySlotsOfAll(old(states), states, found)
        invariant running == WithoutAll(old(running), done)
      {
        var rid :| rid in rest;
        WithoutAllMore(old(running), done, rid);
        DetachRunningForRuntime(rid);
        done := done + {rid};
        rest := rest - {rid};
      }
      assert done == found;
    }

    /** Runtimes found cancelled drop their queue, stop taking work and lose what they run. */
    method DetachCancelledRuntimes() returns (ghost found: set<nat>)
      requires Valid()
      modifies this`running, this`answered, this`permits, this`states, this`trace, this`cancelled
      ensures Valid() && old(trace) <= trace && old(cancelled) <= cancelled && states.Keys == old(states).Keys
      ensures old(cancelled) * states.Keys <= found <= cancelled
      ensures DownAll(states, found) && KeptBut(old(states), states, found)
      ensures running == WithoutAll(old(running), found)
      ensures forall rid :: rid in old(cancelled) ==> NoneOf(running, rid)
    {
      hide Traced, WithoutAll, NoneOf;
      WorkIsLive(trace, View());
      var stopped := StopCancelled();
      CancelledKnown(trace, View());
      DetachAll(stopped);
      found := stopped;
      Cleared(old(running), old(states).Keys, found, old(cancelled));
    }

    // -- Dispatching --

    method TakeJob(rid: nat, ready: seq<Job>) returns (more: seq<Job>)
      requires Traced(trace, ViewWith(ready)) && rid in states && rid in runtimes && states[rid].queue != []
      requires !states[rid].shuttingDown && rid !in cancelled && states[rid].inFlight < runtimes[rid].maxConcurrency
      modifies this`states, this`trace
      ensures Traced(trace, ViewWith(more)) && old(trace) <= trace
      ensures more == ready + [old(states)[rid].queue[0]]
      ensures states == old(states)[rid := old(states)[rid].(
                          queue := old(states)[rid].queue[1..], inFlight := old(states)[rid].inFlight + 1)]
    {
      hide Traced;
      TracedTake(trace, ViewWith(ready), rid);
      trace := trace + [TakeOne(rid)];
      var st := states[rid];
      states := states[rid := st.(queue := st.queue[1..], inFlight := st.inFlight + 1)];
      more := ready + [st.queue[0]];
    }

    /** Take jobs from the front of an active runtime's queue until it is full or the queue empty. */
    method FillSlots(rid: nat, ready: seq<Job>, ghost before: set<nat>) returns (more: seq<Job>)
      requires Traced(trace, ViewWith(ready)) && rid in states && rid in runtimes
      requires !states[rid].shuttingDown && rid !in cancelled && before <= cancelled
      requires Uncancelled(ready, before) && AllOf(states[rid].queue, rid)
      modifies this`states, this`trace
      ensures Traced(trace, ViewWith(more)) && old(trace) <= trace && Uncancelled(more, before)
      ensures rid in states && Filled(states[rid], runtimes[rid]) && !states[rid].shuttingDown
      ensures states == old(states)[rid := states[rid]]
      ensures more + states[rid].queue == ready + old(states)[rid].queue
    {
      hide Traced;
      more := ready;
      while states[rid].inFlight < runtimes[rid].maxConcurrency && states[rid].queue != []
        invariant Traced(trace, ViewWith(more)) && old(trace) <= trace
        invariant rid in states && states == old(states)[rid := states[rid]] && !states[rid].shuttingDown
        invariant more + states[rid].queue == ready + old(states)[rid].queue
        invariant Uncancelled(more, before) && AllOf(states[rid].queue, rid)
        decreases |states[rid].queue|
      {
        ghost var q := states[rid].queue;
        assert more + q == (more + [q[0]]) + q[1..];
        more := TakeJob(rid, more);
      }
    }

    /** `before` were cancelled when the dispatch began; other tokens may fire until they are read. */
    method TakeFrom(rid: nat, ready: seq<Job>, ghost before: set<nat>) returns (more: seq<Job>)
      requires Traced(trace, ViewWith(ready)) && rid in states && rid in runtimes && before <= cancelled
      requires states[rid].shuttingDown ==> rid in cancelled
      requires Uncancelled(ready, before) && AllOf(states[rid].queue, rid)
      modifies this`states, this`answered, this`permits, this`trace, this`cancelled
      ensures Traced(trace, ViewWith(more)) && old(trace) <= trace && old(cancelled) <= cancelled
      ensures rid in states && states == old(states)[rid := states[rid]]
      ensures DispatchedOne(states[rid], runtimes[rid], rid in before) && Uncancelled(more, before)
    {
      hide Traced;
      more := ready;
      MayCancel(rid, ready);
      if states[rid].shuttingDown || rid in cancelled {
        StopTaking(rid, ready);
      } else {
        more := FillSlots(rid, ready, before);
      }
    }

    /** The dispatch's first pass: stop cancelled runtimes, take jobs for the others. */
    method TakeAllReady() returns (ready: seq<Job>)
      requires Valid()
      modifies this`states, this`answered, this`permits, this`trace, this`cancelled
      ensures Traced(trace, ViewWith(ready)) && old(trace) <= trace && states.Keys == old(states).Keys
      ensures old(cancelled) <= cancelled
      ensures Dispatched(states, runtimes, old(cancelled)) && Uncancelled(ready, old(cancelled))
    {
      hide Traced, DispatchedOne, AllOf;
      DownIsCancelled(trace, View());
      StatesKnown(trace, View());
      ready := [];
      var rest := states.Keys;
      while rest != {}
        invariant Traced(trace, ViewWith(ready)) && old(trace) <= trace && Uncancelled(ready, old(cancelled))
        invariant states.Keys == old(states).Keys && rest <= states.Keys <= runtimes.Keys
        invariant old(cancelled) <= cancelled
        invariant forall r :: r in rest ==> states[r] == old(states)[r] && AllOf(states[r].queue, r)
        invariant forall r :: r in states && r !in rest ==> DispatchedOne(states[r], runtimes[r], r in old(cancelled))
      {
        var rid :| rid in rest;
        ready := TakeFrom(rid, ready, old(cancelled));
        rest := rest - {rid};
      }
    }

    method SubmitNext(ready: seq<Job>)
      requires nextWorker < |workers| && Traced(trace, ViewWith(ready)) && ready != [] && ready[0].rid in submitted
      modifies this`nextWorker, this`running, this`nextId, this`submitted, this`trace
      ensures nextWorker < |workers| && Traced(trace, ViewWith(ready[1..])) && old(trace) <= trace
      ensures submitted.Keys == old(submitted).Keys && nextId == old(nextId) + 1
      ensures running == old(running)[old(nextId) := ready[0].(worker := Some(workers[old(nextWorker)]))]
      ensures nextWorker == (old(nextWorker) + 1) % |workers|
    {
      hide Traced;
      ghost var l := ViewWith(ready);
      var w := SubmitWorker(ready[0]);
      TracedSubmitReady(trace, l, w);
      trace := trace + [SubmitReady(l.nextId)];
    }

    method SubmitAll(ready: seq<Job>, ghost before: set<nat>)
      requires nextWorker < |workers| && Traced(trace, ViewWith(ready)) && Uncancelled(ready, before)
      modifies this`nextWorker, this`running, this`nextId, this`submitted, this`trace
      ensures Valid() && old(trace) <= trace && StaysClear(old(running), running, before)
      ensures nextId == old(nextId) + |ready| && nextWorker == TurnAfter(old(nextWorker), |workers|, |ready|)
    {
      hide Traced, StaysClear;
      ReadyKnown(trace, ViewWith(ready));
      ClearStart(running, before);
      for i := 0 to |ready|
        invariant nextWorker < |workers| && Traced(trace, ViewWith(ready[i..])) && old(trace) <= trace
        invariant forall k :: i <= k < |ready| ==> ready[k].rid in submitted
        invariant StaysClear(old(running), running, before)
        invariant nextId == old(nextId) + i && nextWorker == TurnAfter(old(nextWorker), |workers|, i)
      {
        ClearMore(old(running), running, nextId, ready[i].(worker := Some(workers[nextWorker])), before);
        SubmitNext(ready[i..]);
        assert ready[i..][1..] == ready[i + 1..];
      }
    }

    /** Start what free slots allow, in queue order, at most the limit at a time. */
    method DispatchReady()
      requires Valid()
      modifies this`states, this`answered, this`permits, this`trace, this`cancelled
      modifies this`nextWorker, this`running, this`nextId, this`submitted
      ensures Valid() && old(trace) <= trace && old(cancelled) <= cancelled && states.Keys == old(states).Keys
      ensures Dispatched(states, runtimes, old(cancelled)) && StaysClear(old(running), running, old(cancelled))
      ensures forall rid :: rid in states ==>
        && rid in runtimes && (states[rid].queue == [] || states[rid].inFlight >= runtimes[rid].maxConcurrency)
        && (rid in old(cancelled) ==> states[rid].queue == [] && states[rid].shuttingDown)
      ensures nextId >= old(nextId) && nextWorker == TurnAfter(old(nextWorker), |workers|, nextId - old(nextId))
    {
      hide Traced;
      var ready := TakeAllReady();
      SubmitAll(ready, old(cancelled));
    }

    /** Acknowledge and forget runtimes that are shutting down and have nothing in flight. */
    method RemoveStoppedStates()
      requires Valid()
      modifies this`states, this`acked, this`trace
      ensures Valid() && old(trace) <= trace
      ensures states == map r | r in old(states) && !Stopped(old(states)[r]) :: old(states)[r]
      ensures forall r, w :: r in old(states) && Stopped(old(states)[r]) && w in old(states)[r].waiters ==> w in acked
    {
      hide Traced;
      var rest := states.Keys;
      while rest != {}
        invariant Valid() && old(trace) <= trace && old(acked) <= acked
        invariant rest <= old(states).Keys
        invariant states == map r | r in old(states) && (r in rest || !Stopped(old(states)[r])) :: old(states)[r]
        invariant forall r, w ::
          r in old(states) && r !in rest && Stopped(old(states)[r]) && w in old(states)[r].waiters ==> w in acked
      {
        var rid :| rid in rest;
        if Stopped(states[rid]) {
          RemoveOne(rid);
        }
        rest := rest - {rid};
      }
    }

    method RemoveOne(rid: nat)
      requires Valid() && rid in states && Stopped(states[rid])
      modifies this`states, this`acked, this`trace
      ensures Valid() && old(trace) <= trace && states == old(states) - {rid}
      ensures acked == old(acked) + Members(old(states)[rid].waiters)
    {
      hide Traced;
      TracedRemoveState(trace, View(), rid);
      trace := trace + [RemoveState(rid)];
      acked := acked + Members(states[rid].waiters);
      states := states - {rid};
    }

    // -- Retries and auto-disables --

    method DropDelayed(d: nat)
      requires Valid() && d in delayed && delayed[d].rid in cancelled
      modifies this`delayed, this`retryDelays, this`answered, this`permits, this`states, this`trace
      ensures Valid() && old(trace) <= trace && View() == DoRetryCancelled(old(View()), d)
    {
      hide Traced, Answer, Return, ReleaseSlot;
      TracedRetryCancelled(trace, View(), d);
      var j := delayed[d];
      trace := trace + [Leave(j.inv, TurnedOff)];
      delayed := delayed - {d};
      retryDelays := retryDelays - {d};
      AnswerAndRelease(j);
    }

    method Resubmitted(d: nat)
      requires Valid() && d in delayed && delayed[d].rid in submitted && delayed[d].rid in states
      requires !states[delayed[d].rid].shuttingDown && delayed[d].rid !in cancelled
      modifies this`delayed, this`retryDelays, this`nextWorker, this`running, this`nextId, this`submitted, this`trace
      ensures Valid() && old(trace) <= trace && View() == DoResubmit(old(View()), d, workers[old(nextWorker)])
    {
      hide Traced;
      ghost var l := View();
      var j := delayed[d];
      delayed := delayed - {d};
      retryDelays := retryDelays - {d};
      var w := SubmitWorker(j);
      TracedResubmit(trace, l, d, w);
      trace := trace + [Resubmit(j.inv, l.nextId)];
    }

    /** A delay is over: resubmit in the slot kept all along, unless the runtime was cancelled. */
    method HandleRetryDelay(d: nat, sawCancel: bool)
      requires Valid() && d in retryDelays
      requires d in delayed && sawCancel ==> delayed[d].rid in cancelled
      modifies this`delayed, this`retryDelays, this`answered, this`permits, this`states, this`trace
      modifies this`nextWorker, this`running, this`nextId, this`submitted
      ensures Valid() && old(trace) <= trace && d in old(delayed)
      ensures old(delayed)[d].rid in cancelled ==> View() == DoRetryCancelled(old(View()), d)
      ensures old(delayed)[d].rid !in cancelled ==>
        old(delayed)[d].rid in old(submitted) && View() == DoResubmit(old(View()), d, workers[old(nextWorker)])
    {
      hide Traced;
      TimersMatch(trace, View());
      var rid := delayed[d].rid;
      if sawCancel || rid in cancelled || rid !in states || states[rid].shuttingDown {
        DropDelayed(d);
      } else {
        Resubmitted(d);
      }
    }

    method DropDisabled(ticket: nat)
      requires Valid() && ticket in autoDisables
      modifies this`autoDisables, this`permits, this`states, this`trace
      ensures Valid() && old(trace) <= trace && View() == DoDisabled(old(View()), ticket)
    {
      hide Traced, Answer, Return, ReleaseSlot;
      TracedDisabled(trace, View(), ticket);
      var j := autoDisables[ticket];
      trace := trace + [Leave(j.inv, Finished)];
      autoDisables := autoDisables - {ticket};
      DropPermit(j.rid);
      ReleaseInFlight(j.rid);
    }

    method CancelAndStop(rid: nat)
      requires Valid() && rid in runtimes
      modifies this`states, this`answered, this`permits, this`trace, this`cancelled
      ensures Valid() && old(trace) <= trace && cancelled == old(cancelled) + {rid}
      ensures states == TakenDown(old(states), rid)
      ensures answered == AnswerAll(old(answered), QueueAt(old(states), rid))
      ensures permits == ReturnAll(old(permits), QueueAt(old(states), rid))
    {
      hide Traced;
      CancelToken(rid, []);
      if rid in states {
        StopTaking(rid, []);
      }
    }

    /** An auto-disable ended; if it succeeded the runtime is cancelled and its queue dropped. */
    method HandleAutoDisableResult(ticket: nat, disabled: Option<bool>)
      requires Valid() && ticket in autoDisables
      modifies this`autoDisables, this`permits, this`states, this`trace, this`answered, this`cancelled
      ensures Valid() && old(trace) <= trace && autoDisables == old(autoDisables) - {ticket}
      ensures old(cancelled) <= cancelled
      ensures disabled == Some(true) ==>
        var rid := old(autoDisables)[ticket].rid;
        && cancelled == old(cancelled) + {rid}
        && states == ReleaseSlot(TakenDown(old(states), rid), rid)
        && answered == AnswerAll(old(answered), QueueAt(old(states), rid))
        && permits == Return(ReturnAll(old(permits), QueueAt(old(states), rid)), rid)
      ensures disabled != Some(true) ==> View() == DoDisabled(old(View()), ticket)
    {
      hide Traced, AnswerAll, ReturnAll, QueueAt, TakenDown;
      DisablingKnown(trace, View());
      var rid := autoDisables[ticket].rid;
      if disabled == Some(true) {
        CancelAndStop(rid);
      }
      DropDisabled(ticket);
    }

    // -- Clients and cancel tokens --

    /** A trigger is registered: nothing queued, every permit free. */
    method Register(rid: nat, rt: Runtime)
      requires Valid() && rid !in runtimes && rt.maxConcurrency >= 1
      modifies this`runtimes, this`permits, this`submitted, this`trace
      ensures Valid() && old(trace) <= trace && View() == DoRegister(old(View()), rid, rt)
    {
      hide Traced;
      TracedRegister(trace, View(), rid, rt);
      trace := trace + [SchedulerModel.Register(rid, rt)];
      runtimes := runtimes[rid := rt];
      permits := permits[rid := rt.queueSize];
      submitted := submitted[rid := []];
    }

    method AcquirePermit(inv: nat, rid: nat, kind: Kind)
      requires Valid() && rid in runtimes && rid in permits && permits[rid] > 0 && inv !in After(INITIAL, trace).book
      modifies this`permits, this`inbox, this`trace
      ensures Valid() && old(trace) <= trace
      ensures permits == old(permits)[rid := old(permits)[rid] - 1]
      ensures inbox == old(inbox)[inv := Job(inv, rid, kind, 1, None)]
    {
      hide Traced;
      TracedAcquire(trace, View(), inv, rid, kind);
      trace := trace + [Acquire(inv, rid, kind)];
      permits := permits[rid := permits[rid] - 1];
      inbox := inbox[inv := Job(inv, rid, kind, 1, None)];
    }

    method AbandonPermit(inv: nat)
      requires Valid() && inv in inbox
      modifies this`permits, this`inbox, this`trace
      ensures Valid() && old(trace) <= trace
      ensures permits == Return(old(permits), old(inbox)[inv].rid) && inbox == old(inbox) - {inv}
    {
      hide Traced, Return;
      TracedAbandon(trace, View(), inv);
      trace := trace + [Abandon(inv)];
      DropPermit(inbox[inv].rid);
      inbox := inbox - {inv};
    }

    /**
     A client hands over an invocation. Without a free permit it stays where it is and asks again;
     the token is read before and after the permit is taken.
     */
    method Send(inv: nat, rid: nat, kind: Kind) returns (sent: bool)
      requires Valid() && rid in runtimes && inv !in After(INITIAL, trace).book && inv !in inbox
      modifies this`permits, this`inbox, this`cancelled, this`trace
      ensures Valid() && old(trace) <= trace && old(cancelled) <= cancelled
      ensures !sent ==> permits == old(permits) && inbox == old(inbox)
      ensures sent ==> rid !in cancelled && inbox == old(inbox)[inv := Job(inv, rid, kind, 1, None)]
      ensures sent ==>
        rid in old(permits) && old(permits)[rid] > 0 && permits == old(permits)[rid := old(permits)[rid] - 1]
      ensures !sent && rid !in cancelled ==> rid in permits && permits[rid] == 0
    {
      hide Traced, Return, After;
      PermitsKnown(trace, View());
      if rid in cancelled || permits[rid] == 0 {
        return false;
      }
      AcquirePermit(inv, rid, kind);
      MayCancel(rid, []);
      sent := rid !in cancelled;
      if !sent {
        AbandonPermit(inv);
        GivenBack(old(permits), rid);
        PutAndTaken(old(inbox), inv, Job(inv, rid, kind, 1, None));
      }
    }

    /** Any tokens may fire. */
    method TokensMayFire()
      requires Valid()
      modifies this`cancelled, this`trace
      ensures Valid() && old(trace) <= trace && old(cancelled) <= cancelled
    {
      hide Traced;
      var firing: set<nat> := *;
      var rest := firing * runtimes.Keys;
      while rest != {}
        invariant Valid() && old(trace) <= trace && old(cancelled) <= cancelled && rest <= runtimes.Keys
      {
        var rid :| rid in rest;
        CancelToken(rid, []);
        rest := rest - {rid};
      }
    }

    // -- One turn of the loop --

    /** What can wake the loop up: futures it holds, messages sent to it. */
    predicate Awaited(w: Wake)
      reads this
    {
      match w
      case Enqueued(inv) => inv in inbox
      case Shutdown(rid, _) => rid in cancelled
      case RetryDelayDone(d, sawCancel) =>
        d in retryDelays && (d in delayed && sawCancel ==> delayed[d].rid in cancelled)
      case AutoDisableDone(ticket, disabled) => ticket in autoDisables
      case _ => true
    }

    method Receive(inv: nat)
      requires Valid() && inv in inbox
      modifies this`inbox, this`states, this`answered, this`permits, this`trace, this`cancelled
      ensures Valid() && old(trace) <= trace && inbox == old(inbox) - {inv} && old(cancelled) <= cancelled
      ensures EnqueueHandled(old(View()), View(), inv)
    {
      hide Traced;
      TakenFromInbox(trace, View(), inv);
      var j := inbox[inv];
      inbox := inbox - {inv};
      Enqueue(j);
    }

    method HandleFinished(worker: nat, work: nat, result: WorkResult)
      requires Valid()
      modifies this`running, this`answered, this`permits, this`states, this`trace
      modifies this`autoDisables, this`nextId, this`delayed, this`retryDelays
      ensures Valid() && old(trace) <= trace && Handled(WorkerFinished(worker, work, result), old(View()), View())
    {
      hide Traced, BookAfter, Resolved, ResultHandled;
      ghost var l := View();
      HandleWorkerResult(worker, work, result);
      if work in l.running && l.running[work].worker == Some(worker) {
        ResolvedHandles(l, work, result);
      }
    }

    method HandleDelayDone(d: nat, sawCancel: bool)
      requires Valid() && d in retryDelays
      requires d in delayed && sawCancel ==> delayed[d].rid in cancelled
      modifies this`delayed, this`retryDelays, this`answered, this`permits, this`states, this`trace
      modifies this`nextWorker, this`running, this`nextId, this`submitted
      ensures Valid() && old(trace) <= trace && DelayHandled(old(View()), View(), d)
    {
      hide Traced, DelayHandled, DoRetryCancelled, DoResubmit;
      ghost var l, worker := View(), workers[nextWorker];
      HandleRetryDelay(d, sawCancel);
      DelayHandles(l, d, worker);
    }

    method Handle(w: Wake)
      requires Valid() && Awaited(w)
      modifies this
      ensures Valid() && old(trace) <= trace && old(cancelled) <= cancelled
      ensures Handled(w, old(View()), View())
    {
      hide Traced;
      match w
      case Enqueued(inv) => Receive(inv);
      case WorkerFinished(worker, work, result) => HandleFinished(worker, work, result);
      case WorkerProgressed(_, _) =>
      case Shutdown(rid, waiter) => ShutdownTrigger(rid, waiter);
      case RetryDelayDone(d, sawCancel) => HandleDelayDone(d, sawCancel);
      case AutoDisableDone(ticket, disabled) => HandleAutoDisableResult(ticket, disabled);
    }

    /**
     A turn: handle what woke the loop up, then drive the states; `handled` are the steps taken once
     it is handled and `mid` the loop then. Whatever was cancelled before the turn has nothing queued
     or running after it, and its state is gone unless a retry delay or an auto-disable of it is still
     pending. No runtime is left with work queued and a slot free, nor with a state to forget.
     */
    method Turn(w: Wake) returns (ghost mid: Loop, ghost handled: seq<Step>)
      requires Valid() && Awaited(w)
      modifies this
      ensures Valid() && old(trace) <= handled <= trace && old(cancelled) <= cancelled
      ensures Traced(handled, mid) && Handled(w, old(View()), mid)
      ensures forall rid :: rid in states ==>
        && rid in runtimes && (states[rid].queue == [] || states[rid].inFlight >= runtimes[rid].maxConcurrency)
        && !(states[rid].shuttingDown && states[rid].inFlight == 0)
      ensures forall rid :: rid in old(cancelled) ==> NoneOf(running, rid)
      ensures forall rid :: rid in old(cancelled) && rid in states ==>
        states[rid].queue == [] && !(NoneOf(delayed, rid) && NoneOf(autoDisables, rid))
    {
      hide Traced, WithoutAll, NoneOf, Handled;
      Handle(w);
      mid, handled := View(), trace;
      TokensMayFire();
      ghost var found := DetachCancelledRuntimes();
      TokensMayFire();
      DispatchReady();
      TokensMayFire();
      RemoveStoppedStates();
      NotYetStopped(trace, View());
    }

    // -- Stopping --

    /** Every runtime with a state is cancelled and drained. */
    method CancelAll()
      requires Valid()
      modifies this`states, this`answered, this`permits, this`trace, this`cancelled
      ensures Valid() && old(trace) <= trace && states.Keys <= cancelled
      ensures forall r :: r in states ==> states[r].queue == []
      ensures states.Keys == old(states).Keys && forall r :: r in states ==> states[r].waiters == old(states)[r].waiters
    {
      hide Traced, StoppedBut;
      StatesKnown(trace, View());
      var rest := states.Keys;
      StoppedNone(states, cancelled);
      while rest != {}
        invariant Valid() && old(trace) <= trace
        invariant rest <= states.Keys <= runtimes.Keys && StoppedBut(old(states), states, rest, cancelled)
      {
        var rid :| rid in rest;
        StoppedMore(old(states), states, rest, cancelled, rid);
        CancelAndStop(rid);
        rest := rest - {rid};
      }
      StoppedAll(old(states), states, cancelled);
    }

    /** All running work is cancelled and answered. */
    method DetachEverything()
      requires Valid() && states.Keys <= cancelled
      modifies this`running, this`answered, this`permits, this`states, this`trace
      ensures Valid() && old(trace) <= trace && running == map[] && SameButSlots(old(states), states)
    {
      hide Traced, Answer, ReleaseSlot;
      var works := running.Keys;
      while works != {}
        invariant Valid() && old(trace) <= trace && works == running.Keys && SameButSlots(old(states), states)
      {
        var w :| w in works;
        ReleaseKeeps(states, running[w].rid);
        LoopFacts(trace, View());
        FinishWork(w, TurnedOff);
        works := works - {w};
      }
    }

    method DropOneDelayed(d: nat)
      requires Valid() && states.Keys <= cancelled && d in delayed
      modifies this`delayed, this`retryDelays, this`answered, this`permits, this`states, this`trace
      ensures Valid() && old(trace) <= trace && delayed == old(delayed) - {d} && SameButSlots(old(states), states)
    {
      hide Traced, Answer, ReleaseSlot;
      TimersMatch(trace, View());
      ReleaseKeeps(states, delayed[d].rid);
      DropDelayed(d);
    }

    /** All delayed retries are dropped and answered. */
    method DropAllDelayed()
      requires Valid() && states.Keys <= cancelled
      modifies this`delayed, this`retryDelays, this`answered, this`permits, this`states, this`trace
      ensures Valid() && old(trace) <= trace && delayed == map[] && SameButSlots(old(states), states)
    {
      hide Traced;
      var rest := delayed.Keys;
      while rest != {}
        invariant Valid() && old(trace) <= trace && rest == delayed.Keys && SameButSlots(old(states), states)
      {
        var d :| d in rest;
        DropOneDelayed(d);
        rest := rest - {d};
      }
    }

    /**
     The loop ends. Every invocation it accepted has been answered exactly once if it is a request,
     and every waiter is acknowledged. What is left in flight is exactly the pending auto-disables,
     so an acknowledged runtime is quiet exactly when it has none.
     */
    method StopAll()
      requires Valid()
      modifies this
      ensures old(trace) <= trace && Run(INITIAL, trace)
      ensures states == map[] && running == map[] && delayed == map[] && autoDisables == old(autoDisables)
      ensures AnsweredOnce(After(INITIAL, trace), answered)
      ensures forall rid, w :: rid in old(states) && w in old(states)[rid].waiters ==> w in acked
      ensures forall rid :: Quiet(After(INITIAL, trace), rid) <==> NoneOf(autoDisables, rid)
    {
      hide Traced;
      CancelAll();
      DetachEverything();
      DropAllDelayed();
      EndOfLoop(trace, View());
      AckAll();
    }

    method AckAll()
      modifies this`states, this`acked
      ensures states == map[] && old(acked) <= acked
      ensures forall rid, w :: rid in old(states) && w in old(states)[rid].waiters ==> w in acked
    {
      while states.Keys != {}
        invariant old(acked) <= acked && states.Keys <= old(states).Keys
        invariant forall r :: r in states ==> states[r] == old(states)[r]
        invariant forall r, w :: r in old(states) && r !in states && w in old(states)[r].waiters ==> w in acked
      {
        var rid :| rid in states;
        acked := acked + Members(states[rid].waiters);
        states := states - {rid};
      }
    }
  }
}
