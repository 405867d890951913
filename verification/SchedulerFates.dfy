/**
 What becomes of an invocation whose attempts fail, over every run: how often it is submitted, and why
 it leaves while its runtime is on.
 */
module SchedulerFates {
  import opened SchedulerModel
  import opened SchedulerPlaces
  import opened SchedulerOrder
  import opened SchedulerRuns

  /** The attempts a policy allows; the first is made whatever it says. */
  function Allowed(rt: Runtime): nat {
    if rt.behavior.Retry? && rt.maxAttempts > 1 then rt.maxAttempts else 1
  }

  /** The invocation has left otherwise than by an error or with its runtime. */
  ghost predicate Ended(ts: seq<Step>, inv: nat) { Leave(inv, Finished) in ts }

  /** No more attempts than the policy allows, and all of them if errors alone ended it. */
  ghost predicate FateOk(s: Sched, ts: seq<Step>, inv: nat)
    requires inv in s.book
  {
    var r := s.book[inv];
    && r.rid in s.runtimes
    && (r.place.Done? && r.rid !in s.cancelled && !Ended(ts, inv) ==>
          r.made == Allowed(s.runtimes[r.rid]) && !s.runtimes[r.rid].behavior.Disable?)
    && (r.place.Disabling? ==> s.runtimes[r.rid].behavior.Disable?)
    && (r.place.Delayed? ==> s.runtimes[r.rid].behavior.Retry?)
    && (!s.runtimes[r.rid].behavior.Retry? ==> r.attempt == 1)
    && r.attempt <= Allowed(s.runtimes[r.rid]) && r.made <= r.attempt
  }

  ghost predicate FatesOk(s: Sched, ts: seq<Step>) {
    forall inv :: inv in s.book ==> FateOk(s, ts, inv)
  }

  lemma FateKept(s: Sched, n: Sched, ts: seq<Step>, t: Step, inv: nat)
    requires inv in s.book && FateOk(s, ts, inv) && inv in n.book && n.book[inv] == s.book[inv]
    requires s.cancelled <= n.cancelled
    requires forall rid :: rid in s.runtimes ==> rid in n.runtimes && n.runtimes[rid] == s.runtimes[rid]
    ensures FateOk(n, ts + [t], inv)
  {
    assert forall u :: u in ts ==> u in ts + [t];
  }

  lemma Onward(s: Sched, t: Step)
    requires Enabled(s, t)
    ensures s.cancelled <= Do(s, t).cancelled
    ensures forall rid :: rid in s.runtimes ==> rid in Do(s, t).runtimes && Do(s, t).runtimes[rid] == s.runtimes[rid]
  {
  }

  lemma HeadIsOwn(s: Sched, rid: nat)
    requires PlacesOk(s) && rid in s.states && s.states[rid].queue != []
    ensures s.states[rid].queue[0] in s.book && s.book[s.states[rid].queue[0]].rid == rid
  {
    assert QueueOk(s.book, rid, QueueOf(s, rid));
    assert s.states[rid].queue[0] in QueueOf(s, rid);
  }

  lemma RecordFacts(s: Sched, inv: nat)
    requires PlacesOk(s) && inv in s.book
    ensures s.book[inv].rid in s.runtimes && RecordOk(s.book[inv], s.runtimes[s.book[inv].rid])
  {
  }

  /** The invocation whose record the step writes. */
  lemma WrittenFate(s: Sched, ts: seq<Step>, t: Step, inv: nat)
    requires PlacesOk(s) && Enabled(s, t) && Writes(s, t) != [] && Writes(s, t)[0].0 == inv
    requires inv in s.book ==> FateOk(s, ts, inv)
    ensures inv in Do(s, t).book && FateOk(Do(s, t), ts + [t], inv)
  {
    if inv in s.book { RecordFacts(s, inv); }
    if t.DropHead? { HeadIsOwn(s, t.rid); }
    hide PlacesOk;
    assert t in ts + [t];
    assert forall u :: u in ts ==> u in ts + [t];
  }

  lemma StepFate(s: Sched, ts: seq<Step>, t: Step, inv: nat)
    requires PlacesOk(s) && FatesOk(s, ts) && Enabled(s, t) && inv in Do(s, t).book
    ensures FateOk(Do(s, t), ts + [t], inv)
  {
    hide PlacesOk, FateOk, Do, Enabled;
    var w := Writes(s, t);
    if w != [] && w[0].0 == inv {
      WrittenFate(s, ts, t, inv);
    } else {
      Onward(s, t);
      FateKept(s, Do(s, t), ts, t, inv);
    }
  }

  lemma {:induction false} RunFates(ts: seq<Step>)
    requires Run(INITIAL, ts)
    ensures FatesOk(After(INITIAL, ts), ts)
    decreases |ts|
  {
    if ts != [] {
      var n := |ts| - 1;
      var init, t := ts[..n], ts[n];
      assert ts == init + [t];
      SplitLast(INITIAL, init, t);
      RunFates(init);
      Reachable(init);
      var s := After(INITIAL, init);
      hide Enabled, Do, FateOk;
      forall inv | inv in Do(s, t).book ensures FateOk(Do(s, t), ts, inv) { StepFate(s, init, t, inv); }
    }
  }

  lemma {:induction false} SplitLast(s: Sched, ts: seq<Step>, t: Step)
    requires Run(s, ts + [t])
    ensures Run(s, ts) && Enabled(After(s, ts), t) && After(s, ts + [t]) == Do(After(s, ts), t)
    decreases |ts|
  {
    hide Enabled, Do;
    if ts == [] {
      assert ts + [t] == [t] && [t][1..] == [];
    } else {
      assert (ts + [t])[0] == ts[0] && (ts + [t])[1..] == ts[1..] + [t];
      SplitLast(Do(s, ts[0]), ts[1..], t);
    }
  }

  /**
   Over every run: an invocation that left while its runtime is on, and never by ending well, was
   submitted as often as the policy allows, no more and no less, and its runtime is not one that
   disables on errors.
   */
  lemma RetriesExhausted(ts: seq<Step>, inv: nat)
    requires Run(INITIAL, ts)
    ensures var s := After(INITIAL, ts);
      inv in s.book && s.book[inv].place.Done? && s.book[inv].rid !in s.cancelled && Leave(inv, Finished) !in ts ==>
        && s.book[inv].rid in s.runtimes && s.book[inv].rid in s.submitted
        && var rt, tries := s.runtimes[s.book[inv].rid], Tries(s.submitted[s.book[inv].rid], inv);
          && (rt.behavior.Log? || rt.behavior.Retry?)
          && tries == if rt.behavior.Retry? && rt.maxAttempts > 1 then rt.maxAttempts else 1
  {
    RunFates(ts);
    Reachable(ts);
    var s := After(INITIAL, ts);
    if inv in s.book { assert FateOk(s, ts, inv); }
  }

  /** Only runtimes that retry are submitted to a worker twice, and only those that disable are disabled. */
  lemma FirstAttemptOnly(ts: seq<Step>, inv: nat)
    requires Run(INITIAL, ts)
    ensures var s := After(INITIAL, ts);
      inv in s.book ==>
        && s.book[inv].rid in s.runtimes && s.book[inv].rid in s.submitted
        && var rt, tries := s.runtimes[s.book[inv].rid], Tries(s.submitted[s.book[inv].rid], inv);
          && (tries > 1 ==> rt.behavior.Retry? && tries <= rt.maxAttempts)
          && (s.book[inv].place.Delayed? ==> rt.behavior.Retry?)
          && (s.book[inv].place.Disabling? ==> rt.behavior.Disable?)
  {
    RunFates(ts);
    Reachable(ts);
    var s := After(INITIAL, ts);
    if inv in s.book { assert FateOk(s, ts, inv); }
  }
}
