/** The scheduler's guarantees over every run of its steps. */
module SchedulerRuns {
  import opened SchedulerModel
  import opened SchedulerPlaces
  import opened SchedulerSlots
  import opened SchedulerOrder

  // ---- One slot means one invocation at a time ----

  /** Each submission starts an invocation or continues the one submitted just before it. */
  ghost predicate Chained(sub: seq<Submission>) {
    forall i {:trigger sub[i]} :: 0 < i < |sub| ==>
      sub[i].attempt == 1 || (sub[i].inv == sub[i - 1].inv && sub[i].attempt == sub[i - 1].attempt + 1)
  }

  /** An invocation in flight on a one-slot runtime is the one submitted last. */
  ghost predicate LastIs(sub: seq<Submission>, inv: nat, r: Record) {
    match r.place
    case Running(_) | Disabling(_) => sub != [] && sub[|sub| - 1] == Submission(inv, r.attempt)
    case Delayed(_) => sub != [] && sub[|sub| - 1].inv == inv && sub[|sub| - 1].attempt == r.attempt - 1
    case _ => true
  }

  ghost predicate SerialOk(s: Sched, rid: nat)
    requires rid in s.submitted
  {
    && Chained(s.submitted[rid])
    && (forall inv :: inv in s.book && s.book[inv].rid == rid ==> LastIs(s.submitted[rid], inv, s.book[inv]))
  }

  ghost predicate AllSerial(s: Sched) {
    forall rid :: rid in s.runtimes && s.runtimes[rid].maxConcurrency == 1 ==> rid in s.submitted && SerialOk(s, rid)
  }

  lemma OnlyOne(s: Sched, inv: nat, other: nat)
    requires SlotsOk(s) && inv in s.book && other in s.book && s.book[inv].rid == s.book[other].rid
    requires s.book[inv].place.InFlight() && s.book[other].place.InFlight()
    requires s.runtimes[s.book[inv].rid].maxConcurrency == 1
    ensures inv == other
  {
    var rid := s.book[inv].rid;
    assert SlotOk(s, rid);
    var f := InFlightOf(s.book, rid);
    assert inv in f && other in f;
    if inv != other {
      assert {inv, other} <= f;
      SubsetSize({inv, other}, f);
    }
  }

  lemma SubsetSize(a: set<nat>, b: set<nat>)
    requires a <= b
    ensures |a| <= |b|
  {
    assert b == a + (b - a);
  }

  /** Appending the next attempt of the only invocation in flight keeps a runtime serial. */
  lemma SerialSnoc(s: Sched, n: Sched, rid: nat, e: Submission, r: Record)
    requires rid in s.submitted && rid in n.submitted && SerialOk(s, rid)
    requires n.submitted[rid] == s.submitted[rid] + [e] && n.book == s.book[e.inv := r]
    requires r.place.Running? && r.rid == rid && r.attempt == e.attempt
    requires e.inv in s.book && s.book[e.inv].rid == rid && s.book[e.inv].attempt == e.attempt
    requires s.book[e.inv].place.Delayed? || e.attempt == 1
    requires forall x :: x in s.book && s.book[x].rid == rid && s.book[x].place.InFlight() ==> x == e.inv
    ensures SerialOk(n, rid)
  {
  }

  lemma SubmitFacts(s: Sched, t: Step)
    requires PlacesOk(s) && Enabled(s, t) && Submits(s, t) != []
    ensures var e, w := Submits(s, t)[0].1, Writes(s, t);
      && w != [] && w[0].0 == e.inv && w[0].1.place.Running? && w[0].1.attempt == e.attempt
      && s.book[e.inv].attempt == e.attempt && s.book[e.inv].place.InFlight()
      && (s.book[e.inv].place.Delayed? || e.attempt == 1)
  {
  }

  /** A submission on a one-slot runtime. */
  lemma SerialSubmit(s: Sched, t: Step, rid: nat)
    requires PlacesOk(s) && SlotsOk(s) && Enabled(s, t) && Submits(s, t) != [] && Submits(s, t)[0].0 == rid
    requires rid in s.runtimes && s.runtimes[rid].maxConcurrency == 1 && SerialOk(s, rid)
    ensures rid in Do(s, t).submitted && SerialOk(Do(s, t), rid)
  {
    var e := Submits(s, t)[0].1;
    SubmitFacts(s, t);
    forall x | x in s.book && s.book[x].rid == rid && s.book[x].place.InFlight() ensures x == e.inv {
      OnlyOne(s, e.inv, x);
    }
    SerialSnoc(s, Do(s, t), rid, e, Writes(s, t)[0].1);
  }

  /** A step that submits nothing keeps the last submission right for every record. */
  lemma SerialRecord(s: Sched, t: Step, inv: nat, sub: seq<Submission>)
    requires Enabled(s, t) && Submits(s, t) == [] && inv in Do(s, t).book
    requires inv in s.book ==> LastIs(sub, inv, s.book[inv])
    requires t.DropHead? || t.TakeOne? ==> s.book[s.states[t.rid].queue[0]].place.Queued?
    ensures LastIs(sub, inv, Do(s, t).book[inv])
  {
  }

  lemma OtherRecord(s: Sched, t: Step, rid: nat, inv: nat)
    requires Enabled(s, t) && Submits(s, t) != [] && Submits(s, t)[0].0 != rid
    requires inv in Do(s, t).book && Do(s, t).book[inv].rid == rid
    ensures inv in s.book && Do(s, t).book[inv] == s.book[inv]
  {
  }

  lemma SerialKept(s: Sched, t: Step, rid: nat)
    requires Enabled(s, t) && rid in s.submitted && SerialOk(s, rid)
    requires rid in Do(s, t).submitted && Do(s, t).submitted[rid] == s.submitted[rid]
    requires Submits(s, t) != [] ==> Submits(s, t)[0].0 != rid
    requires t.DropHead? || t.TakeOne? ==> s.book[s.states[t.rid].queue[0]].place.Queued?
    ensures SerialOk(Do(s, t), rid)
  {
    var n := Do(s, t);
    BookGrows(s, t);
    forall inv | inv in n.book && n.book[inv].rid == rid ensures LastIs(s.submitted[rid], inv, n.book[inv]) {
      if Submits(s, t) == [] {
        SerialRecord(s, t, inv, s.submitted[rid]);
      } else {
        OtherRecord(s, t, rid, inv);
      }
    }
  }

  lemma SubmittedSame(s: Sched, t: Step, rid: nat)
    requires Enabled(s, t) && rid in s.runtimes && rid in s.submitted
    requires Submits(s, t) != [] ==> Submits(s, t)[0].0 != rid
    ensures rid in Do(s, t).submitted && Do(s, t).submitted[rid] == s.submitted[rid]
  {
  }

  lemma HeadIsQueued(s: Sched, t: Step)
    requires PlacesOk(s) && Enabled(s, t)
    ensures t.DropHead? || t.TakeOne? ==> s.book[s.states[t.rid].queue[0]].place.Queued?
  {
    if t.DropHead? || t.TakeOne? { HeadQueued(s, t.rid); }
  }

  lemma StepSerialOf(s: Sched, t: Step, rid: nat)
    requires PlacesOk(s) && SlotsOk(s) && Enabled(s, t)
    requires rid in s.runtimes && s.runtimes[rid].maxConcurrency == 1 && rid in s.submitted && SerialOk(s, rid)
    ensures rid in Do(s, t).submitted && SerialOk(Do(s, t), rid)
  {
    if Submits(s, t) != [] && Submits(s, t)[0].0 == rid {
      SerialSubmit(s, t, rid);
    } else {
      HeadIsQueued(s, t);
      SubmittedSame(s, t, rid);
      SerialKept(s, t, rid);
    }
  }

  // ---- The invariant ----

  ghost predicate Inv(s: Sched) {
    PlacesOk(s) && SlotsOk(s) && OrderOk(s) && AllSerial(s)
  }

  lemma StepSerial(s: Sched, t: Step)
    requires PlacesOk(s) && SlotsOk(s) && AllSerial(s) && Enabled(s, t)
    ensures AllSerial(Do(s, t))
  {
    var n := Do(s, t);
    forall rid | rid in n.runtimes && n.runtimes[rid].maxConcurrency == 1
      ensures rid in n.submitted && SerialOk(n, rid)
    {
      if rid in s.runtimes {
        assert n.runtimes[rid] == s.runtimes[rid];
        StepSerialOf(s, t, rid);
      } else {
        assert t.Register? && forall inv :: inv in n.book ==> n.book[inv].rid != rid;
      }
    }
  }

  lemma StepInv(s: Sched, t: Step)
    requires Inv(s) && Enabled(s, t)
    ensures Inv(Do(s, t))
  {
    StepPlaces(s, t);
    StepSlots(s, t);
    StepOrder(s, t);
    StepSerial(s, t);
  }

  lemma {:induction false} RunInv(s: Sched, ts: seq<Step>)
    requires Inv(s) && Run(s, ts)
    ensures Inv(After(s, ts))
    decreases |ts|
  {
    if ts != [] {
      StepInv(s, ts[0]);
      RunInv(Do(s, ts[0]), ts[1..]);
    }
  }

  lemma InitialInv()
    ensures Inv(INITIAL)
  {
  }

  /** Every reachable state satisfies the invariant. */
  lemma Reachable(ts: seq<Step>)
    requires Run(INITIAL, ts)
    ensures Inv(After(INITIAL, ts))
  {
    InitialInv();
    RunInv(INITIAL, ts);
  }

  // ---- Slots ----

  ghost function RunningOf(book: map<nat, Record>, rid: nat): set<nat> {
    set inv | inv in book && book[inv].rid == rid && book[inv].place.Running?
  }

  ghost function DelayedOf(book: map<nat, Record>, rid: nat): set<nat> {
    set inv | inv in book && book[inv].rid == rid && book[inv].place.Delayed?
  }

  ghost function DisablingOf(book: map<nat, Record>, rid: nat): set<nat> {
    set inv | inv in book && book[inv].rid == rid && book[inv].place.Disabling?
  }

  /**
   Between the loop's phases a runtime's counter is its running work plus its delayed retries plus
   its pending auto-disables, within its limit, and a runtime with any such work has its state.
   */
  lemma SlotAccounting(ts: seq<Step>, rid: nat)
    requires Run(INITIAL, ts) && After(INITIAL, ts).ready == [] && rid in After(INITIAL, ts).runtimes
    ensures var s := After(INITIAL, ts);
      && Counter(s, rid) == |RunningOf(s.book, rid)| + |DelayedOf(s.book, rid)| + |DisablingOf(s.book, rid)|
      && Counter(s, rid) <= s.runtimes[rid].maxConcurrency
      && (rid !in s.states ==> RunningOf(s.book, rid) + DelayedOf(s.book, rid) + DisablingOf(s.book, rid) == {})
  {
    var s := After(INITIAL, ts);
    Reachable(ts);
    assert SlotOk(s, rid);
    FlightSplits(s.book, rid);
  }

  lemma FlightSplits(book: map<nat, Record>, rid: nat)
    requires forall inv :: inv in book ==> !book[inv].place.Ready?
    ensures |InFlightOf(book, rid)| == |RunningOf(book, rid)| + |DelayedOf(book, rid)| + |DisablingOf(book, rid)|
    ensures InFlightOf(book, rid) == RunningOf(book, rid) + DelayedOf(book, rid) + DisablingOf(book, rid)
  {
  }

  // ---- Conservation ----

  /** What every reachable state says about one invocation. */
  ghost predicate Conserved(s: Sched, inv: nat)
    requires inv in s.book
  {
    var r := s.book[inv];
    && (r.place.Queued? <==> inv in QueueOf(s, r.rid))
    && (r.place.Ready? <==> inv in s.ready)
    && (forall rid :: inv in QueueOf(s, rid) ==> rid == r.rid)
    && r.answers == (if r.kind.Request? && (r.place.Done? || r.place.Disabling?) then 1 else 0)
    && r.rid in s.submitted && Tries(s.submitted[r.rid], inv) == r.made
    && r.rid in s.runtimes && r.made <= AttemptLimit(s.runtimes[r.rid])
  }

  /**
   Each invocation is in exactly one place, queues hold it at most once, a request is answered
   exactly once and not before it leaves or starts an auto-disable, and no invocation is submitted
   more often than the retry policy allows.
   */
  lemma Conservation(ts: seq<Step>, inv: nat)
    requires Run(INITIAL, ts) && inv in After(INITIAL, ts).book
    ensures Conserved(After(INITIAL, ts), inv)
    ensures Distinct(QueueOf(After(INITIAL, ts), After(INITIAL, ts).book[inv].rid))
  {
    var s := After(INITIAL, ts);
    Reachable(ts);
    var r := s.book[inv];
    assert QueueOk(s.book, r.rid, QueueOf(s, r.rid));
    forall rid | inv in QueueOf(s, rid) ensures rid == r.rid {
      assert QueueOk(s.book, rid, QueueOf(s, rid));
    }
  }

  /** Outstanding invocations never exceed the queue size; the rest of it is the free permits. */
  lemma OutstandingBounded(ts: seq<Step>, rid: nat)
    requires Run(INITIAL, ts) && rid in After(INITIAL, ts).runtimes
    ensures var s := After(INITIAL, ts);
      && rid in s.permits
      && |HoldersOf(s.book, rid)| == s.runtimes[rid].queueSize - s.permits[rid]
      && |HoldersOf(s.book, rid)| <= s.runtimes[rid].queueSize
  {
    Reachable(ts);
    assert PermitOk(After(INITIAL, ts), rid);
  }

  // ---- Order ----

  /** First attempts are submitted in admission order, skipping no one admitted earlier. */
  lemma AdmissionOrder(ts: seq<Step>, rid: nat)
    requires Run(INITIAL, ts) && rid in After(INITIAL, ts).runtimes
    ensures var s := After(INITIAL, ts);
      && rid in s.submitted && rid in s.admitted && Distinct(s.admitted[rid])
      && Firsts(s.submitted[rid]) <= s.admitted[rid]
  {
    Reachable(ts);
    var s := After(INITIAL, ts);
    assert RuntimeOrder(s, rid);
    assert Firsts(s.submitted[rid]) <= Line(s, rid);
  }

  lemma {:induction false} EarlierTry(sub: seq<Submission>, i: nat)
    requires i < |sub|
    ensures Tries(sub, sub[i].inv) >= 1
  {
    if i < |sub| - 1 {
      assert sub[..|sub| - 1][i] == sub[i];
      EarlierTry(sub[..|sub| - 1], i);
    }
  }

  lemma {:induction false} GroupedFrom(sub: seq<Submission>, i: nat, j: nat, k: nat)
    requires Chained(sub) && Numbered(sub) && i < j <= k < |sub| && sub[i].inv == sub[k].inv
    ensures sub[j].inv == sub[k].inv
    decreases k - j
  {
    if j < k {
      assert sub[..k][i] == sub[i];
      EarlierTry(sub[..k], i);
      assert sub[k].attempt == Tries(sub[..k], sub[k].inv) + 1;
      assert sub[k - 1].inv == sub[k].inv;
      GroupedFrom(sub, i, j, k - 1);
    }
  }

  /**
   With one slot, all attempts of an invocation are submitted in a row: once another invocation
   has been submitted, the first one never is again.
   */
  lemma SerialRuntime(ts: seq<Step>, rid: nat, i: nat, j: nat, k: nat)
    requires Run(INITIAL, ts) && rid in After(INITIAL, ts).runtimes && rid in After(INITIAL, ts).submitted
    requires After(INITIAL, ts).runtimes[rid].maxConcurrency == 1
    requires i < j < k < |After(INITIAL, ts).submitted[rid]|
    requires After(INITIAL, ts).submitted[rid][i].inv == After(INITIAL, ts).submitted[rid][k].inv
    ensures After(INITIAL, ts).submitted[rid][j].inv == After(INITIAL, ts).submitted[rid][i].inv
  {
    var s := After(INITIAL, ts);
    Reachable(ts);
    assert RuntimeOrder(s, rid) && SerialOk(s, rid);
    GroupedFrom(s.submitted[rid], i, j, k);
  }

  // ---- Shutdown ----

  /** Nothing of the runtime is queued, about to run, running, delayed or auto-disabling. */
  ghost predicate Quiet(s: Sched, rid: nat) {
    forall inv :: inv in s.book && s.book[inv].rid == rid ==>
      !s.book[inv].place.Queued? && !s.book[inv].place.InFlight()
  }

  predicate Acks(t: Step, rid: nat) { t == RemoveState(rid) || (t.AckAbsent? && t.rid == rid) }

  lemma GoneIsQuiet(s: Sched, rid: nat)
    requires Inv(s) && rid !in s.states
    ensures Quiet(s, rid)
  {
    assert QueueOk(s.book, rid, QueueOf(s, rid));
    forall inv | inv in s.book && s.book[inv].rid == rid ensures !s.book[inv].place.InFlight() {
      if s.book[inv].place.InFlight() {
        NeverSaturates(s, inv);
      }
    }
  }

  /** A cancelled runtime without a state takes no part in any later step. */
  lemma {:induction false} GoneForever(s: Sched, ts: seq<Step>, rid: nat)
    requires Inv(s) && Run(s, ts) && rid in s.runtimes && rid in s.cancelled && rid !in s.states && rid in s.submitted
    ensures var n := After(s, ts);
      && rid !in n.states && rid in n.submitted && n.submitted[rid] == s.submitted[rid] && Quiet(n, rid)
    decreases |ts|
  {
    GoneIsQuiet(s, rid);
    if ts != [] {
      StepInv(s, ts[0]);
      if ts[0].SubmitReady? { assert s.ready[0] in s.ready; }
      GoneStep(s, ts[0], rid);
      GoneForever(Do(s, ts[0]), ts[1..], rid);
    }
  }

  lemma GoneStep(s: Sched, t: Step, rid: nat)
    requires Enabled(s, t) && rid in s.runtimes && rid in s.cancelled && rid !in s.states && rid in s.submitted
    requires t.SubmitReady? ==> s.book[s.ready[0]].rid != rid
    ensures var n := Do(s, t);
      && rid in n.runtimes && rid in n.cancelled && rid !in n.states
      && rid in n.submitted && n.submitted[rid] == s.submitted[rid]
  {
  }

  /**
   A shutdown is acknowledged only when the runtime has nothing left to do, and from then on, in
   every continuation, no work of it is submitted and its state never comes back.
   */
  lemma ShutdownFinal(ts: seq<Step>, t: Step, rid: nat, later: seq<Step>)
    requires Run(INITIAL, ts) && Enabled(After(INITIAL, ts), t) && Acks(t, rid)
    requires Run(Do(After(INITIAL, ts), t), later)
    ensures var s := After(INITIAL, ts); var n := After(Do(s, t), later);
      && Quiet(s, rid)
      && rid !in n.states && Quiet(n, rid)
      && rid in s.submitted && rid in n.submitted && n.submitted[rid] == s.submitted[rid]
  {
    var s := After(INITIAL, ts);
    Reachable(ts);
    StepInv(s, t);
    if rid in s.states { RemovedIsQuiet(s, rid); } else { GoneIsQuiet(s, rid); }
    GoneForever(Do(s, t), later, rid);
  }

  lemma RemovedIsQuiet(s: Sched, rid: nat)
    requires Inv(s) && Enabled(s, RemoveState(rid))
    ensures Quiet(s, rid)
  {
    assert QueueOk(s.book, rid, QueueOf(s, rid));
    assert SlotOk(s, rid);
    forall inv | inv in s.book && s.book[inv].rid == rid ensures !s.book[inv].place.InFlight() {
      if s.book[inv].place.InFlight() {
        NeverSaturates(s, inv);
      }
    }
  }
}
