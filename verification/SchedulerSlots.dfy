/**
 Slots and permits: every runtime's in-flight counter is exactly the work it has in flight, and its
 free permits are exactly what its outstanding invocations leave of the queue size.
 */
module SchedulerSlots {
  import opened SchedulerModel
  import opened SchedulerPlaces

  ghost function InFlightOf(book: map<nat, Record>, rid: nat): set<nat> {
    set inv | inv in book && book[inv].rid == rid && book[inv].place.InFlight()
  }

  ghost function HoldersOf(book: map<nat, Record>, rid: nat): set<nat> {
    set inv | inv in book && book[inv].rid == rid && book[inv].place.HoldsPermit()
  }

  ghost predicate KeysOk(s: Sched) {
    && s.permits.Keys == s.runtimes.Keys
    && s.admitted.Keys == s.runtimes.Keys
    && s.submitted.Keys == s.runtimes.Keys
    && s.states.Keys <= s.runtimes.Keys
    && s.cancelled <= s.runtimes.Keys
    && (forall inv :: inv in s.book ==> s.book[inv].rid in s.runtimes)
  }

  /** The in-flight counter is the number of invocations in flight, within the limit. */
  ghost predicate SlotOk(s: Sched, rid: nat)
    requires rid in s.runtimes
  {
    Counter(s, rid) == |InFlightOf(s.book, rid)| <= s.runtimes[rid].maxConcurrency
  }

  ghost predicate PermitOk(s: Sched, rid: nat)
    requires rid in s.runtimes && rid in s.permits
  {
    s.permits[rid] + |HoldersOf(s.book, rid)| == s.runtimes[rid].queueSize
  }

  ghost predicate SlotsOk(s: Sched) {
    KeysOk(s) && forall rid :: rid in s.runtimes ==> SlotOk(s, rid) && PermitOk(s, rid)
  }

  lemma ReplaceSize(a: set<nat>, b: set<nat>, x: nat)
    requires forall y :: y != x ==> (y in a <==> y in b)
    ensures |b| == |a| - (if x in a then 1 else 0) + (if x in b then 1 else 0)
  {
    assert a - {x} == b - {x};
    assert |a - {x}| == |a| - if x in a then 1 else 0;
    assert |b - {x}| == |b| - if x in b then 1 else 0;
  }

  /** How replacing one record changes the two sets. */
  lemma BookChange(book: map<nat, Record>, inv: nat, r: Record, rid: nat)
    ensures |InFlightOf(book[inv := r], rid)| ==
      |InFlightOf(book, rid)| - (if inv in InFlightOf(book, rid) then 1 else 0)
      + (if r.rid == rid && r.place.InFlight() then 1 else 0)
    ensures |HoldersOf(book[inv := r], rid)| ==
      |HoldersOf(book, rid)| - (if inv in HoldersOf(book, rid) then 1 else 0)
      + (if r.rid == rid && r.place.HoldsPermit() then 1 else 0)
  {
    ReplaceSize(InFlightOf(book, rid), InFlightOf(book[inv := r], rid), inv);
    ReplaceSize(HoldersOf(book, rid), HoldersOf(book[inv := r], rid), inv);
  }

  function Registered(t: Step): set<nat> { if t.Register? then {t.rid} else {} }

  lemma RuntimeKeys(s: Sched, t: Step)
    requires Enabled(s, t)
    ensures Do(s, t).runtimes.Keys == s.runtimes.Keys + Registered(t)
  {
  }

  lemma PermitKeys(s: Sched, t: Step)
    requires Enabled(s, t)
    ensures Do(s, t).permits.Keys == s.permits.Keys + Registered(t)
  {
  }

  lemma OrderKeys(s: Sched, t: Step)
    requires Enabled(s, t)
    ensures Do(s, t).admitted.Keys == s.admitted.Keys + Registered(t)
    ensures Do(s, t).submitted.Keys == s.submitted.Keys + Registered(t)
  {
  }

  lemma StateKeys(s: Sched, t: Step)
    requires Enabled(s, t) && s.states.Keys <= s.runtimes.Keys && s.cancelled <= s.runtimes.Keys
    ensures Do(s, t).states.Keys <= s.runtimes.Keys && Do(s, t).cancelled <= s.runtimes.Keys
  {
  }

  lemma StepBookRids(s: Sched, t: Step)
    requires Enabled(s, t) && forall inv :: inv in s.book ==> s.book[inv].rid in s.runtimes
    ensures forall inv :: inv in Do(s, t).book ==> Do(s, t).book[inv].rid in s.runtimes
  {
    var w := Writes(s, t);
    if w != [] && w[0].0 !in s.book { assert t.Acquire?; }
    hide Do, Writes;
  }

  lemma StepKeys(s: Sched, t: Step)
    requires KeysOk(s) && Enabled(s, t)
    ensures KeysOk(Do(s, t))
  {
    hide Do;
    RuntimeKeys(s, t);
    PermitKeys(s, t);
    OrderKeys(s, t);
    StateKeys(s, t);
    StepBookRids(s, t);
  }

  /** The slots of `rid` a step takes or frees. */
  function SlotDelta(s: Sched, t: Step, rid: nat): int
    requires Enabled(s, t)
  {
    match t
    case TakeOne(r) => if r == rid then 1 else 0
    case Leave(inv, _) => if s.book[inv].rid == rid then -1 else 0
    case _ => 0
  }

  /** The heads a step takes are queued, or about to run. */
  lemma HeadPlaces(s: Sched, t: Step)
    requires PlacesOk(s) && Enabled(s, t)
    ensures t.DropHead? || t.TakeOne? ==>
      s.book[s.states[t.rid].queue[0]].rid == t.rid && s.book[s.states[t.rid].queue[0]].place.Queued?
    ensures t.SubmitReady? ==> s.book[s.ready[0]].place.Ready?
  {
    if t.DropHead? || t.TakeOne? { HeadQueued(s, t.rid); }
    if t.SubmitReady? { assert s.ready[0] in s.ready; }
  }

  /** Dispatching takes a slot, leaving frees it; nothing else changes the work in flight. */
  lemma InFlightChange(s: Sched, t: Step, rid: nat)
    requires PlacesOk(s) && Enabled(s, t)
    ensures |InFlightOf(Do(s, t).book, rid)| == |InFlightOf(s.book, rid)| + SlotDelta(s, t, rid)
  {
    hide PlacesOk;
    var w := Writes(s, t);
    HeadPlaces(s, t);
    if w != [] {
      BookChange(s.book, w[0].0, w[0].1, rid);
    }
  }

  /** The permits of `rid` a step takes or gives back. */
  function HolderDelta(s: Sched, t: Step, rid: nat): int
    requires Enabled(s, t)
  {
    match t
    case Acquire(_, r, _) => if r == rid then 1 else 0
    case DropHead(r) => if r == rid then -1 else 0
    case Abandon(inv) => if s.book[inv].rid == rid then -1 else 0
    case Refuse(inv) => if s.book[inv].rid == rid then -1 else 0
    case Leave(inv, _) => if s.book[inv].rid == rid then -1 else 0
    case _ => 0
  }

  /** A permit is held from acquisition until the invocation is gone. */
  lemma HoldersChange(s: Sched, t: Step, rid: nat)
    requires PlacesOk(s) && Enabled(s, t)
    ensures |HoldersOf(Do(s, t).book, rid)| == |HoldersOf(s.book, rid)| + HolderDelta(s, t, rid)
  {
    hide PlacesOk;
    var w := Writes(s, t);
    HeadPlaces(s, t);
    if w != [] {
      BookChange(s.book, w[0].0, w[0].1, rid);
    }
  }

  lemma PermitsChange(s: Sched, t: Step, rid: nat)
    requires Enabled(s, t) && rid in s.permits && rid in s.runtimes
    requires t.DropHead? ==> s.book[s.states[t.rid].queue[0]].rid == t.rid
    ensures rid in Do(s, t).permits && Do(s, t).permits[rid] == s.permits[rid] - HolderDelta(s, t, rid)
    ensures rid in Do(s, t).runtimes && Do(s, t).runtimes[rid] == s.runtimes[rid]
  {
  }

  /** Releasing a slot never finds the counter at zero or the state gone. */
  lemma NeverSaturates(s: Sched, inv: nat)
    requires SlotsOk(s) && inv in s.book && s.book[inv].place.InFlight()
    ensures s.book[inv].rid in s.states && s.states[s.book[inv].rid].inFlight >= 1
  {
    var rid := s.book[inv].rid;
    assert inv in InFlightOf(s.book, rid);
    assert SlotOk(s, rid);
  }

  /** The counter a runtime's state shows; a runtime without a state has no slot in use. */
  function Counter(s: Sched, rid: nat): nat {
    if rid in s.states then s.states[rid].inFlight else 0
  }

  /** The counter follows the slots taken and freed. */
  lemma CounterChange(s: Sched, t: Step, rid: nat)
    requires Enabled(s, t) && (t.Leave? ==> Counter(s, s.book[t.inv].rid) >= 1)
    ensures Counter(Do(s, t), rid) == Counter(s, rid) + SlotDelta(s, t, rid)
  {
  }

  /** A slot is taken only below the limit. */
  lemma LimitKept(s: Sched, t: Step, rid: nat)
    requires Enabled(s, t) && rid in s.runtimes && Counter(s, rid) <= s.runtimes[rid].maxConcurrency
    ensures rid in Do(s, t).runtimes && Counter(s, rid) + SlotDelta(s, t, rid) <= Do(s, t).runtimes[rid].maxConcurrency
  {
  }

  lemma OnlyRegistered(s: Sched, t: Step, rid: nat)
    requires Enabled(s, t) && rid in Do(s, t).runtimes && rid !in s.runtimes
    ensures t == Register(rid, Do(s, t).runtimes[rid])
    ensures rid in Do(s, t).permits && Do(s, t).permits[rid] == Do(s, t).runtimes[rid].queueSize
  {
  }

  /** A runtime just registered has no work and every permit. */
  lemma NewRuntime(s: Sched, t: Step, rid: nat)
    requires KeysOk(s) && Enabled(s, t) && rid in Do(s, t).runtimes && rid !in s.runtimes
    ensures t == Register(rid, Do(s, t).runtimes[rid]) && Counter(s, rid) == 0
    ensures InFlightOf(s.book, rid) == {} && HoldersOf(s.book, rid) == {}
    ensures rid in Do(s, t).permits && Do(s, t).permits[rid] == Do(s, t).runtimes[rid].queueSize
  {
    OnlyRegistered(s, t, rid);
    hide Do, Enabled;
  }

  lemma StepSlot(s: Sched, t: Step, rid: nat)
    requires SlotsOk(s) && PlacesOk(s) && Enabled(s, t) && rid in Do(s, t).runtimes
    ensures SlotOk(Do(s, t), rid)
  {
    hide PlacesOk, Counter, InFlightOf, Do;
    InFlightChange(s, t, rid);
    CounterMoves(s, t, rid);
    if rid in s.runtimes {
      assert SlotOk(s, rid);
      LimitKept(s, t, rid);
    } else {
      NewRuntime(s, t, rid);
    }
  }

  lemma CounterMoves(s: Sched, t: Step, rid: nat)
    requires SlotsOk(s) && Enabled(s, t)
    ensures Counter(Do(s, t), rid) == Counter(s, rid) + SlotDelta(s, t, rid)
  {
    hide Do;
    if t.Leave? { NeverSaturates(s, t.inv); }
    CounterChange(s, t, rid);
  }

  lemma StepPermit(s: Sched, t: Step, rid: nat)
    requires SlotsOk(s) && PlacesOk(s) && Enabled(s, t) && rid in Do(s, t).runtimes && rid in Do(s, t).permits
    ensures PermitOk(Do(s, t), rid)
  {
    hide PlacesOk, HoldersOf, Do;
    HoldersChange(s, t, rid);
    HeadPlaces(s, t);
    if rid in s.runtimes {
      assert PermitOk(s, rid);
      PermitsChange(s, t, rid);
    } else {
      NewRuntime(s, t, rid);
    }
  }

  lemma StepSlots(s: Sched, t: Step)
    requires SlotsOk(s) && PlacesOk(s) && Enabled(s, t)
    ensures SlotsOk(Do(s, t))
  {
    StepKeys(s, t);
    forall rid | rid in Do(s, t).runtimes ensures SlotOk(Do(s, t), rid) && PermitOk(Do(s, t), rid) {
      StepSlot(s, t, rid);
      StepPermit(s, t, rid);
    }
  }
}
