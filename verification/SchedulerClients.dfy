/**
 The callers who wait for a runtime to stop. A caller borrows the scheduler handle it calls through,
 and the loop ends only once every handle is dropped, so the acknowledgements sent as it ends reach
 no one.
 */
module SchedulerClients {
  import opened SchedulerModel
  import opened SchedulerRuns

  /** A caller of `shutdown` that still waits: the handle it borrows and the runtime it stops. */
  datatype Call = Call(handle: nat, rid: nat)

  datatype World = World(
    sched: Sched,
    handles: set<nat>,
    calls: map<nat, Call>,         // by waiter
    sent: map<nat, nat>,           // shutdown commands on their way: the runtime, by waiter
    used: set<nat>)

  const OPENING := World(INITIAL, {0}, map[], map[], {})

  datatype Move =
    | Clone(handle: nat, copy: nat)
    | Drop(handle: nat)
    | Shutdown(waiter: nat, handle: nat, rid: nat)
    | GiveUp(waiter: nat)          // the caller's future is dropped
    | Loop(step: Step)
    | AckRest                      // the last thing the loop does

  predicate May(w: World, m: Move) {
    match m
    case Clone(h, copy) => h in w.handles
    case Drop(h) => h in w.handles && forall c :: c in w.calls ==> w.calls[c].handle != h
    case Shutdown(c, h, rid) => h in w.handles && c !in w.used && rid in w.sched.runtimes
    case GiveUp(c) => c in w.calls
    case Loop(t) =>
      && Enabled(w.sched, t)
      && (t.AddWaiter? || t.AckAbsent? ==> t.waiter in w.sent && w.sent[t.waiter] == t.rid)
    case AckRest => w.handles == {}
  }

  /** The waiters a move acknowledges. */
  function Acknowledged(w: World, m: Move): set<nat>
    requires May(w, m)
  {
    match m
    case Loop(AckAbsent(_, c)) => {c}
    case Loop(RemoveState(rid)) => Members(w.sched.states[rid].waiters)
    case AckRest => set rid, c | rid in w.sched.states && c in w.sched.states[rid].waiters :: c
    case _ => {}
  }

  function Made(w: World, m: Move): World
    requires May(w, m)
  {
    match m
    case Clone(_, copy) => w.(handles := w.handles + {copy})
    case Drop(h) => w.(handles := w.handles - {h})
    case Shutdown(c, h, rid) =>
      w.(sched := Do(w.sched, Cancel(rid)),
         calls := w.calls[c := Call(h, rid)],
         sent := w.sent[c := rid],
         used := w.used + {c})
    case GiveUp(c) => w.(calls := w.calls - {c})
    case Loop(t) =>
      w.(sched := Do(w.sched, t),
         calls := w.calls - Acknowledged(w, m),
         sent := if t.AddWaiter? || t.AckAbsent? then w.sent - {t.waiter} else w.sent)
    case AckRest => w.(calls := w.calls - Acknowledged(w, m))
  }

  predicate Lawful(w: World, ms: seq<Move>)
    decreases |ms|
  {
    ms == [] || (May(w, ms[0]) && Lawful(Made(w, ms[0]), ms[1..]))
  }

  function Reached(w: World, ms: seq<Move>): World
    requires Lawful(w, ms)
    decreases |ms|
  {
    if ms == [] then w else Reached(Made(w, ms[0]), ms[1..])
  }

  // ---- What the scheduler itself goes through ----

  function StepsOf(ms: seq<Move>): seq<Step> {
    if ms == [] then []
    else
      match ms[0]
      case Shutdown(_, _, rid) => [Cancel(rid)] + StepsOf(ms[1..])
      case Loop(t) => [t] + StepsOf(ms[1..])
      case _ => StepsOf(ms[1..])
  }

  lemma {:induction false} SchedulerRun(w: World, ms: seq<Move>)
    requires Lawful(w, ms)
    ensures Run(w.sched, StepsOf(ms)) && After(w.sched, StepsOf(ms)) == Reached(w, ms).sched
    decreases |ms|
  {
    if ms != [] {
      hide Enabled, Do;
      SchedulerRun(Made(w, ms[0]), ms[1..]);
    }
  }

  // ---- The invariant ----

  /** Each waiting caller borrows a live handle. */
  ghost predicate Borrowed(w: World) {
    forall c :: c in w.calls ==> c in w.used && w.calls[c].handle in w.handles
  }

  /** A command on its way, and a waiter in a state, are for the runtime their caller named. */
  ghost predicate Addressed(w: World) {
    && (forall c :: c in w.sent ==> c in w.used && (c in w.calls ==> w.calls[c].rid == w.sent[c]))
    && (forall rid, c :: rid in w.sched.states && c in w.sched.states[rid].waiters ==>
          c in w.used && (c in w.calls ==> w.calls[c].rid == rid))
  }

  lemma WaitersKept(s: Sched, t: Step, rid: nat)
    requires Enabled(s, t) && rid in Do(s, t).states
    ensures Do(s, t).states[rid].waiters ==
      (if rid in s.states then s.states[rid].waiters else []) +
      (if t.AddWaiter? && t.rid == rid then [t.waiter] else [])
  {
  }

  lemma MoveAddressed(w: World, m: Move)
    requires Borrowed(w) && Addressed(w) && May(w, m)
    ensures Borrowed(Made(w, m)) && Addressed(Made(w, m))
  {
    hide Do, Enabled;
    if m.Loop? {
      StepAddressed(w, m.step);
    } else if m.Shutdown? {
      assert Made(w, m).sched.states == w.sched.states by { CancelKeepsStates(w.sched, m.rid); }
    }
  }

  lemma CancelKeepsStates(s: Sched, rid: nat)
    requires rid in s.runtimes
    ensures Enabled(s, Cancel(rid)) && Do(s, Cancel(rid)).states == s.states
  {
  }

  lemma StepAddressed(w: World, t: Step)
    requires Borrowed(w) && Addressed(w) && May(w, Loop(t))
    ensures Borrowed(Made(w, Loop(t))) && Addressed(Made(w, Loop(t)))
  {
    hide Do, Enabled;
    forall rid | rid in Do(w.sched, t).states { WaitersKept(w.sched, t, rid); }
  }

  lemma {:induction false} HistoryAddressed(w: World, ms: seq<Move>)
    requires Borrowed(w) && Addressed(w) && Lawful(w, ms)
    ensures Borrowed(Reached(w, ms)) && Addressed(Reached(w, ms))
    decreases |ms|
  {
    if ms != [] {
      hide May, Made, Borrowed, Addressed;
      MoveAddressed(w, ms[0]);
      HistoryAddressed(Made(w, ms[0]), ms[1..]);
    }
  }

  // ---- Main results ----

  /** Whenever the loop may end, no caller waits. */
  lemma NobodyWaitsAtEnd(ms: seq<Move>)
    requires Lawful(OPENING, ms) && May(Reached(OPENING, ms), AckRest)
    ensures Reached(OPENING, ms).calls == map[]
  {
    HistoryAddressed(OPENING, ms);
  }

  /**
   Over every history of handles, calls and loop steps, however it goes on: a caller that is told its
   runtime has stopped is told so when nothing of it is left, and nothing of it is submitted after.
   */
  lemma ToldOnlyWhenQuiet(ms: seq<Move>, m: Move, c: nat, later: seq<Move>)
    requires Lawful(OPENING, ms) && May(Reached(OPENING, ms), m)
    requires c in Reached(OPENING, ms).calls && c in Acknowledged(Reached(OPENING, ms), m)
    requires Lawful(Made(Reached(OPENING, ms), m), later)
    ensures var w := Reached(OPENING, ms);
      var s, n, rid := w.sched, Reached(Made(w, m), later).sched, w.calls[c].rid;
      && Quiet(s, rid) && Quiet(n, rid) && rid !in n.states
      && rid in s.submitted && rid in n.submitted && n.submitted[rid] == s.submitted[rid]
  {
    var w := Reached(OPENING, ms);
    HistoryAddressed(OPENING, ms);
    if m.AckRest? {
      NobodyWaitsAtEnd(ms);
      assert false;
    } else {
      hide Lawful, Reached, Enabled, Do, Quiet, Run, After;
      assert m.Loop? && Acks(m.step, w.calls[c].rid);
      SchedulerRun(OPENING, ms);
      SchedulerRun(Made(w, m), later);
      ShutdownFinal(StepsOf(ms), m.step, w.calls[c].rid, StepsOf(later));
    }
  }

  // ---- What the end of the loop acknowledges ----

  const DISABLING := Runtime(1, 1, 1, ErrorBehavior.Disable)

  const DISPATCHING: seq<Step> :=
    [Register(0, DISABLING), Acquire(5, 0, Wal), OpenState(0), Admit(5), TakeOne(0), SubmitReady(1), ToDisable(5, 2)]

  function Loops(ts: seq<Step>): seq<Move> { seq(|ts|, i requires 0 <= i < |ts| => Loop(ts[i])) }

  lemma {:induction false} LoopsRun(w: World, ts: seq<Step>)
    requires Run(w.sched, ts) && forall t :: t in ts ==> !t.AddWaiter? && !t.AckAbsent? && !t.RemoveState?
    ensures Lawful(w, Loops(ts)) && Reached(w, Loops(ts)) == w.(sched := After(w.sched, ts))
    decreases |ts|
  {
    if ts != [] {
      hide Enabled, Do;
      var m := Loop(ts[0]);
      assert Made(w, m) == w.(sched := Do(w.sched, ts[0]));
      assert Loops(ts) == [m] + Loops(ts[1..]);
      LoopsRun(Made(w, m), ts[1..]);
    }
  }

  /** Runtime 0 has invocation 5 in an auto-disable. */
  predicate Disabling5(s: Sched) {
    && 0 in s.runtimes && 0 in s.states && s.states[0].queue == [] && s.states[0].waiters == []
    && 5 in s.book && s.book[5].rid == 0 && s.book[5].place == Disabling(2)
  }

  lemma RunStep(s: Sched, ts: seq<Step>)
    requires ts != [] && Enabled(s, ts[0]) && Run(Do(s, ts[0]), ts[1..])
    ensures Run(s, ts) && After(s, ts) == After(Do(s, ts[0]), ts[1..])
  {
  }

  lemma DispatchingRuns()
    ensures Run(INITIAL, DISPATCHING) && Disabling5(After(INITIAL, DISPATCHING))
  {
    var s1 := Do(INITIAL, DISPATCHING[0]);
    var s2 := Do(s1, DISPATCHING[1]);
    var s3 := Do(s2, DISPATCHING[2]);
    var s4 := Do(s3, DISPATCHING[3]);
    var s5 := Do(s4, DISPATCHING[4]);
    var s6 := Do(s5, DISPATCHING[5]);
    var s7 := Do(s6, DISPATCHING[6]);
    assert Disabling5(s7);
    assert Run(s7, DISPATCHING[7..]) && After(s7, DISPATCHING[7..]) == s7;
    hide Run, After;
    RunStep(s6, DISPATCHING[6..]);
    RunStep(s5, DISPATCHING[5..]);
    RunStep(s4, DISPATCHING[4..]);
    RunStep(s3, DISPATCHING[3..]);
    RunStep(s2, DISPATCHING[2..]);
    RunStep(s1, DISPATCHING[1..]);
    RunStep(INITIAL, DISPATCHING);
  }

  /** A caller asks for a stop, is put on the waiters, gives up and lets go of the last handle. */
  const GIVING_UP: seq<Move> :=
    [Shutdown(7, 0, 0)] + ([Loop(MarkDown(0))] + ([Loop(AddWaiter(0, 7))] + ([GiveUp(7)] + ([Drop(0)] + []))))

  lemma LawfulStep(w: World, m: Move, ms: seq<Move>)
    requires May(w, m) && Lawful(Made(w, m), ms)
    ensures Lawful(w, [m] + ms) && Reached(w, [m] + ms) == Reached(Made(w, m), ms)
  {
  }

  lemma GivingUpRuns(w: World)
    requires Disabling5(w.sched) && w.handles == {0} && w.calls == map[] && 7 !in w.used
    ensures Lawful(w, GIVING_UP)
    ensures var n := Reached(w, GIVING_UP);
      n.handles == {} && 0 in n.sched.states && 7 in n.sched.states[0].waiters && !Quiet(n.sched, 0)
  {
    var w1 := Made(w, Shutdown(7, 0, 0));
    var w2 := Made(w1, Loop(MarkDown(0)));
    var w3 := Made(w2, Loop(AddWaiter(0, 7)));
    var w4 := Made(w3, GiveUp(7));
    var w5 := Made(w4, Drop(0));
    assert w5.sched.book[5].place.InFlight();
    assert Lawful(w5, []) && Reached(w5, []) == w5;
    hide Lawful, Reached;
    LawfulStep(w4, Drop(0), []);
    LawfulStep(w3, GiveUp(7), [Drop(0)] + []);
    LawfulStep(w2, Loop(AddWaiter(0, 7)), [GiveUp(7)] + ([Drop(0)] + []));
    LawfulStep(w1, Loop(MarkDown(0)), [Loop(AddWaiter(0, 7))] + ([GiveUp(7)] + ([Drop(0)] + [])));
    LawfulStep(w, Shutdown(7, 0, 0),
      [Loop(MarkDown(0))] + ([Loop(AddWaiter(0, 7))] + ([GiveUp(7)] + ([Drop(0)] + []))));
  }

  lemma {:induction false} LawfulConcat(w: World, a: seq<Move>, b: seq<Move>)
    requires Lawful(w, a) && Lawful(Reached(w, a), b)
    ensures Lawful(w, a + b) && Reached(w, a + b) == Reached(Reached(w, a), b)
    decreases |a|
  {
    hide May, Made;
    if a == [] {
      assert a + b == b;
    } else {
      assert (a + b)[0] == a[0] && (a + b)[1..] == a[1..] + b;
      LawfulConcat(Made(w, a[0]), a[1..], b);
    }
  }

  /**
   The end of the loop acknowledges even a waiter whose runtime has an auto-disable pending; it is
   one whose caller has given up.
   */
  lemma EndAcksAbandoned()
    ensures Lawful(OPENING, Loops(DISPATCHING) + GIVING_UP)
    ensures var w := Reached(OPENING, Loops(DISPATCHING) + GIVING_UP);
      May(w, AckRest) && 7 in Acknowledged(w, AckRest) && 7 !in w.calls && !Quiet(w.sched, 0)
  {
    DispatchingRuns();
    LoopsRun(OPENING, DISPATCHING);
    var w := Reached(OPENING, Loops(DISPATCHING));
    GivingUpRuns(w);
    LawfulConcat(OPENING, Loops(DISPATCHING), GIVING_UP);
    hide Lawful, Reached, Quiet;
    NobodyWaitsAtEnd(Loops(DISPATCHING) + GIVING_UP);
  }
}
