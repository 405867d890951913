/**
 When deleting merge inputs is safe, in terms of what owners and compactor do: each notice whose
 record an owner failed to write is followed by a restart of that owner before its next notice, and
 the compactor merges neither into a file it has queued for deletion nor from one whose own notice it
 gave up on.
 */
module RecordedMerges {
  import opened PendingDeletions
  import opened DeletionSafety

  /** The owners whose last notice changed their memory and left no record, and who have run on since. */
  ghost function Unrecorded(s: State, t: Step, failed: set<nat>): set<nat>
    requires Enabled(s, t)
  {
    match t
    case Notify(n, inputs, persisted, _) =>
      if SaysRecorded(s.owners[n], Merge(n, Elements(inputs)), Elements(inputs), persisted) then failed
      else failed + {n}
    case HandleLate(n, inputs, persisted) =>
      if SaysRecorded(s.owners[n], Merge(n, Elements(inputs)), Elements(inputs), persisted) then failed
      else failed + {n}
    case RestartOwner(n) => failed - {n}
    case _ => failed
  }

  /** A run in which no owner of `failed`, or that fails to write a record later, is notified before it restarts. */
  ghost predicate RepairedRun(s: State, ts: seq<Step>, failed: set<nat>)
    decreases |ts|
  {
    ts == [] || (
      && Enabled(s, ts[0]) && (ts[0].Notify? || ts[0].HandleLate? ==> ts[0].n !in failed)
      && RepairedRun(Do(s, ts[0]), ts[1..], Unrecorded(s, ts[0], failed)))
  }

  /** A run in which every merge passes both checks the compactor can make before it. */
  ghost predicate CheckedRun(s: State, ts: seq<Step>)
    decreases |ts|
  {
    ts == [] || (
      && Enabled(s, ts[0]) && (OfMerge(ts[0]) ==> Clear(s, ts[0]))
      && CheckedRun(Do(s, ts[0]), ts[1..]))
  }

  /** All other owners have in memory exactly what is durable. */
  ghost predicate Mirrored(s: State, failed: set<nat>) {
    forall n :: n in s.owners ==>
      s.owners[n].history != [] && (n !in failed ==> s.owners[n].memory == Durable(s.owners[n]))
  }

  lemma AppliedMirrors(n: nat, o: Owner, inputs: set<FilePath>, persisted: bool)
    requires o.history != [] && o.memory == Durable(o)
    ensures InStep(o, Merge(n, inputs), inputs)
    ensures var k := Applied(o, Merge(n, inputs), inputs, persisted);
      k.history != [] && (SaysRecorded(o, Merge(n, inputs), inputs, persisted) ==> k.memory == Durable(k))
  {
    NotOwnInput(n, inputs);
  }

  lemma StepMirrors(s: State, t: Step, failed: set<nat>)
    requires Mirrored(s, failed) && Enabled(s, t) && (t.Notify? || t.HandleLate? ==> t.n !in failed)
    ensures OfMerge(t) ==> Met(s, t)
    ensures Mirrored(Do(s, t), Unrecorded(s, t, failed))
  {
    if t.Notify? || t.HandleLate? {
      AppliedMirrors(t.n, s.owners[t.n], Elements(t.inputs), t.persisted);
      hide Applied, InStep;
    }
  }

  lemma {:induction false} RepairedIsCareful(s: State, ts: seq<Step>, failed: set<nat>)
    requires Mirrored(s, failed) && RepairedRun(s, ts, failed) && CheckedRun(s, ts)
    ensures CarefulRun(s, ts) && Run(s, ts)
    decreases |ts|
  {
    if ts != [] {
      hide Mirrored, Enabled, Do, Clear, Met;
      StepMirrors(s, ts[0], failed);
      RepairedIsCareful(Do(s, ts[0]), ts[1..], Unrecorded(s, ts[0], failed));
    }
  }

  /**
   Over every run from the start, whatever past records the compactor's replicas show at each merge
   and however late notices are handled, in which an owner that failed to write a record restarts
   before its next notice and every merge passes the compactor's two checks, whatever else fails:
   inputs are deleted no sooner than the grace period after their replacement was acknowledged, and
   no deleted file is in any owner's index, in memory or durable.
   */
  lemma RepairedRunsAreSafe(grace: nat, clock: int, ts: seq<Step>)
    requires RepairedRun(Start(grace, clock), ts, {}) && CheckedRun(Start(grace, clock), ts)
    ensures Run(Start(grace, clock), ts) && Safe(After(Start(grace, clock), ts))
  {
    RepairedIsCareful(Start(grace, clock), ts, {});
    CarefulRunsAreSafe(grace, clock, ts);
  }

  /** If the step handles a notice, its record is written. */
  predicate Recorded(t: Step) { t.Notify? || t.HandleLate? ==> t.persisted }

  /** So does every such run in which every record is written. */
  lemma RecordedRunsAreSafe(grace: nat, clock: int, ts: seq<Step>)
    requires CheckedRun(Start(grace, clock), ts)
    requires forall i :: 0 <= i < |ts| ==> Recorded(ts[i])
    ensures Run(Start(grace, clock), ts) && Safe(After(Start(grace, clock), ts))
  {
    CheckedIsRun(Start(grace, clock), ts);
    RecordedIsRepaired(Start(grace, clock), ts);
    RepairedRunsAreSafe(grace, clock, ts);
  }

  lemma {:induction false} CheckedIsRun(s: State, ts: seq<Step>)
    requires CheckedRun(s, ts)
    ensures Run(s, ts)
    decreases |ts|
  {
    if ts != [] {
      hide Enabled, Do, Clear;
      CheckedIsRun(Do(s, ts[0]), ts[1..]);
    }
  }

  lemma {:induction false} RecordedIsRepaired(s: State, ts: seq<Step>)
    requires Run(s, ts) && forall i :: 0 <= i < |ts| ==> Recorded(ts[i])
    ensures RepairedRun(s, ts, {})
    decreases |ts|
  {
    if ts != [] {
      hide Enabled, Do;
      forall i | 0 <= i < |ts[1..]| ensures Recorded(ts[1..][i]) { assert ts[1..][i] == ts[i + 1]; }
      RecordedIsRepaired(Do(s, ts[0]), ts[1..]);
      assert Unrecorded(s, ts[0], {}) == {};
    }
  }

  /** A deleted file stays deleted, and in no index, until it is the output of a merge again. */
  lemma DeletedStaysDead(grace: nat, clock: int, ts: seq<Step>, later: seq<Step>, p: FilePath)
    requires RepairedRun(Start(grace, clock), ts + later, {}) && CheckedRun(Start(grace, clock), ts + later)
    requires forall t :: t in later && OfMerge(t) ==> Output(t) != p
    ensures Run(Start(grace, clock), ts) && Run(Start(grace, clock), ts + later)
    ensures p in After(Start(grace, clock), ts).deleted ==>
      var k := After(Start(grace, clock), ts + later); p in k.deleted && Dead(k, p)
  {
    CheckedIsRun(Start(grace, clock), ts + later);
    SplitRun(Start(grace, clock), ts, later);
    if p in After(Start(grace, clock), ts).deleted {
      DeletedKept(After(Start(grace, clock), ts), later, p);
      RepairedRunsAreSafe(grace, clock, ts + later);
    }
  }

  lemma {:induction false} DeletedKept(s: State, ts: seq<Step>, p: FilePath)
    requires Run(s, ts) && p in s.deleted && forall t :: t in ts && OfMerge(t) ==> Output(t) != p
    ensures p in After(s, ts).deleted
    decreases |ts|
  {
    if ts != [] {
      assert ts[0] in ts;
      forall t | t in ts[1..] ensures t in ts {}
      DeletedKept(Do(s, ts[0]), ts[1..], p);
    }
  }

  lemma {:induction false} SplitRun(s: State, a: seq<Step>, b: seq<Step>)
    requires Run(s, a + b)
    ensures Run(s, a) && Run(After(s, a), b) && After(s, a + b) == After(After(s, a), b)
    decreases |a|
  {
    hide Enabled, Do;
    if a == [] {
      assert a + b == b;
    } else {
      assert (a + b)[0] == a[0] && (a + b)[1..] == a[1..] + b;
      SplitRun(Do(s, a[0]), a[1..], b);
    }
  }

  // ---- The restart is needed ----

  /**
   Wherever an owner in step with its durable index fails to record a merge of an input it still has,
   a second notice before it restarts is acknowledged, and the input is deleted while it is durable.
   */
  lemma ResentLoses(s: State, n: nat, inputs: seq<FilePath>, x: FilePath)
    requires Enabled(s, Notify(n, inputs, false, true)) && s.owners[n].memory == Durable(s.owners[n])
    requires x in inputs && x in Durable(s.owners[n])
    ensures var ts := [Notify(n, inputs, false, true)] + Aftermath(n, inputs, false, s.grace);
      && Run(s, ts)
      && var k := After(s, ts); x in k.deleted && n in k.owners && x in Durable(k.owners[n])
  {
    var t := Notify(n, inputs, false, true);
    var ins := Elements(inputs);
    NotOwnInput(n, ins);
    assert x in ins;
    var next := Do(s, t);
    assert LooksApplied(next.owners[n], Merge(n, ins), ins) && x !in next.owners[n].memory;
    hide Run, CarefulRun, After, Aftermath;
    OutOfStepLoses(next, n, inputs, false, x);
    RunStep(s, t, Aftermath(n, inputs, false, s.grace));
  }
}
