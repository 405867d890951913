/**
 Conservation: the queues and the book agree, so no invocation is lost, held twice, answered twice
 or submitted too often.
 */
module SchedulerPlaces {
  import opened SchedulerModel

  ghost predicate Distinct(q: seq<nat>) {
    forall i, j :: 0 <= i < j < |q| ==> q[i] != q[j]
  }

  /** The most often an invocation of a runtime may be submitted. */
  function AttemptLimit(rt: Runtime): nat { if rt.maxAttempts == 0 then 1 else rt.maxAttempts }

  /** What a record may say, by where the invocation is. */
  predicate RecordOk(r: Record, rt: Runtime) {
    var asked := if r.kind.Request? then 1 else 0;
    && 1 <= r.attempt <= AttemptLimit(rt)
    && r.made <= AttemptLimit(rt)
    && match r.place
       case Admitting | Rejected | Queued | Ready => r.attempt == 1 && r.made == 0 && r.answers == 0
       case Running(_) => r.made == r.attempt && r.answers == 0
       case Delayed(_) => r.made == r.attempt - 1 && r.made >= 1 && r.answers == 0
       case Disabling(_) => r.answers == asked
       case Done => r.answers == asked
  }

  ghost predicate RecordsOk(s: Sched) {
    forall inv :: inv in s.book ==> s.book[inv].rid in s.runtimes && RecordOk(s.book[inv], s.runtimes[s.book[inv].rid])
  }

  /** A queue holds exactly the invocations the book calls queued for that runtime, once each. */
  ghost predicate QueueOk(book: map<nat, Record>, rid: nat, q: seq<nat>) {
    && Distinct(q)
    && (forall inv :: inv in q <==> inv in book && book[inv].rid == rid && book[inv].place.Queued?)
  }

  ghost predicate ReadyOk(book: map<nat, Record>, q: seq<nat>) {
    && Distinct(q)
    && (forall inv :: inv in q <==> inv in book && book[inv].place.Ready?)
  }

  function QueueOf(s: Sched, rid: nat): seq<nat> {
    if rid in s.states then s.states[rid].queue else []
  }

  ghost predicate PlacesOk(s: Sched) {
    && RecordsOk(s)
    && (forall rid :: rid in s.states && s.states[rid].shuttingDown ==> rid in s.cancelled && s.states[rid].queue == [])
    && ReadyOk(s.book, s.ready)
    && (forall rid :: QueueOk(s.book, rid, QueueOf(s, rid)))
  }

  lemma WrittenOk(s: Sched, t: Step)
    requires PlacesOk(s) && Enabled(s, t) && Writes(s, t) != []
    ensures var r := Writes(s, t)[0].1; r.rid in s.runtimes && RecordOk(r, s.runtimes[r.rid])
  {
    var inv := Writes(s, t)[0].0;
    if inv in s.book { assert RecordOk(s.book[inv], s.runtimes[s.book[inv].rid]); }
    if t.DropHead? || t.TakeOne? {
      HeadQueued(s, t.rid);
    } else if t.SubmitReady? {
      assert inv in s.ready;
    }
  }

  lemma StepRecords(s: Sched, t: Step)
    requires PlacesOk(s) && Enabled(s, t)
    ensures RecordsOk(Do(s, t))
  {
    var w, n := Writes(s, t), Do(s, t);
    if w != [] { WrittenOk(s, t); }
    assert forall rid :: rid in s.runtimes ==> rid in n.runtimes && n.runtimes[rid] == s.runtimes[rid];
  }

  lemma DistinctTail(q: seq<nat>)
    requires q != [] && Distinct(q)
    ensures Distinct(q[1..]) && forall x :: x in q[1..] <==> x in q && x != q[0]
  {
  }

  lemma DistinctSnoc(q: seq<nat>, x: nat)
    requires Distinct(q) && x !in q
    ensures Distinct(q + [x])
  {
  }

  /** The invocation at the head of a queue, as the book has it. */
  lemma HeadQueued(s: Sched, rid: nat)
    requires PlacesOk(s) && rid in s.states && s.states[rid].queue != []
    ensures var inv := s.states[rid].queue[0];
      inv in s.book && s.book[inv].rid == rid && s.book[inv].place.Queued?
  {
    assert QueueOk(s.book, rid, QueueOf(s, rid));
    assert s.states[rid].queue[0] in QueueOf(s, rid);
  }

  lemma StepQueueMoves(s: Sched, t: Step, rid: nat)
    requires PlacesOk(s) && Enabled(s, t) && (t.DropHead? || t.TakeOne? || t.Admit?)
    ensures QueueOk(Do(s, t).book, rid, QueueOf(Do(s, t), rid))
  {
    assert QueueOk(s.book, rid, QueueOf(s, rid));
    if t.Admit? {
      if s.book[t.inv].rid == rid { DistinctSnoc(QueueOf(s, rid), t.inv); }
    } else {
      HeadQueued(s, t.rid);
      assert QueueOk(s.book, t.rid, QueueOf(s, t.rid));
      DistinctTail(QueueOf(s, t.rid));
    }
  }

  /** Other steps neither take an invocation out of a queue nor put one in. */
  lemma StepQueueKept(s: Sched, t: Step, rid: nat)
    requires PlacesOk(s) && Enabled(s, t) && !t.DropHead? && !t.TakeOne? && !t.Admit?
    ensures QueueOf(Do(s, t), rid) == QueueOf(s, rid)
    ensures Writes(s, t) != [] ==> !Writes(s, t)[0].1.place.Queued?
    ensures Writes(s, t) != [] && Writes(s, t)[0].0 in s.book ==> !s.book[Writes(s, t)[0].0].place.Queued?
  {
    StepQueueSame(s, t, rid);
    if t.SubmitReady? { assert s.ready[0] in s.ready; }
    hide QueueOf, RecordsOk, QueueOk;
  }

  lemma StepQueueSame(s: Sched, t: Step, rid: nat)
    requires Enabled(s, t) && !t.DropHead? && !t.TakeOne? && !t.Admit?
    requires forall r :: r in s.states && s.states[r].shuttingDown ==> s.states[r].queue == []
    ensures QueueOf(Do(s, t), rid) == QueueOf(s, rid)
  {
  }

  lemma StepQueue(s: Sched, t: Step, rid: nat)
    requires PlacesOk(s) && Enabled(s, t)
    ensures QueueOk(Do(s, t).book, rid, QueueOf(Do(s, t), rid))
  {
    if t.DropHead? || t.TakeOne? || t.Admit? {
      StepQueueMoves(s, t, rid);
    } else {
      assert QueueOk(s.book, rid, QueueOf(s, rid));
      StepQueueKept(s, t, rid);
    }
  }

  lemma StepReady(s: Sched, t: Step)
    requires PlacesOk(s) && Enabled(s, t)
    ensures ReadyOk(Do(s, t).book, Do(s, t).ready)
  {
    if t.TakeOne? {
      HeadQueued(s, t.rid);
      DistinctSnoc(s.ready, s.states[t.rid].queue[0]);
    } else if t.SubmitReady? {
      DistinctTail(s.ready);
    } else {
      StepReadyKept(s, t);
      hide Do, Enabled;
    }
  }

  /** Other steps neither take an invocation for submission nor submit one. */
  lemma StepReadyKept(s: Sched, t: Step)
    requires PlacesOk(s) && Enabled(s, t) && !t.TakeOne? && !t.SubmitReady?
    ensures Do(s, t).ready == s.ready
    ensures Writes(s, t) != [] ==> !Writes(s, t)[0].1.place.Ready?
    ensures Writes(s, t) != [] && Writes(s, t)[0].0 in s.book ==> !s.book[Writes(s, t)[0].0].place.Ready?
  {
    if t.DropHead? { HeadQueued(s, t.rid); }
  }

  lemma StepPlaces(s: Sched, t: Step)
    requires PlacesOk(s) && Enabled(s, t)
    ensures PlacesOk(Do(s, t))
  {
    StepRecords(s, t);
    StepReady(s, t);
    forall rid ensures QueueOk(Do(s, t).book, rid, QueueOf(Do(s, t), rid)) {
      StepQueue(s, t, rid);
    }
  }
}
