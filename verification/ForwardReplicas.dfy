/**
 Replicas that do not go back. If each notice is about files of one record of the owner, no older than
 the one the last notice to it was about, and none is handled after the compactor gave up on it, what
 left a durable index never comes back, and no merge needs to be checked.
 */
module ForwardReplicas {
  import opened PendingDeletions
  import opened DeletionSafety
  import opened RecordedMerges

  // ---- Histories of a durable index ----

  /** A path is durable over one stretch of the history only. */
  ghost predicate OneStretch(h: seq<set<FilePath>>) {
    forall p, i, j, k {:trigger p in h[i], h[j], p in h[k]} ::
      0 <= i < j < k < |h| && p in h[i] && p !in h[j] ==> p !in h[k]
  }

  /** The replica has seen everything that is no longer durable. */
  ghost predicate GoneWasSeen(h: seq<set<FilePath>>, position: nat) {
    forall p, i {:trigger p in h[i]} ::
      0 <= i < |h| && p in h[i] && p !in h[|h| - 1] ==> exists k :: 0 <= k <= position && k < |h| && p in h[k]
  }

  /** Once an output is durable its inputs are not, then or later. */
  ghost predicate InputsGone(h: seq<set<FilePath>>) {
    forall o, i, j, x {:trigger o in h[i], x in h[j], x in o.inputs} ::
      0 <= i <= j < |h| && o in h[i] && o.Merge? && x in o.inputs ==> x !in h[j]
  }

  /** The inputs of a durable output were durable before. */
  ghost predicate InputsKnown(h: seq<set<FilePath>>) {
    forall o, i, x {:trigger o in h[i], x in o.inputs} ::
      0 <= i < |h| && o in h[i] && o.Merge? && x in o.inputs ==> Known(h, x)
  }

  ghost predicate HistoryOk(h: seq<set<FilePath>>, position: nat) {
    && 0 <= position < |h|
    && OneStretch(h) && GoneWasSeen(h, position) && InputsGone(h) && InputsKnown(h)
  }

  // ---- Growing a history ----

  /** The output of a merge of files the replica holds is durable or was never durable. */
  lemma OutputNotGone(h: seq<set<FilePath>>, position: nat, n: nat, inputs: set<FilePath>)
    requires HistoryOk(h, position) && inputs != {} && inputs <= h[position] && Known(h, Merge(n, inputs))
    ensures Merge(n, inputs) in h[|h| - 1]
  {
  }

  /** What the index may become in one record. */
  ghost predicate NextOk(h: seq<set<FilePath>>, position: nat, next: set<FilePath>)
    requires position < |h|
  {
    && (forall p :: p in next ==> p in h[|h| - 1] || !Known(h, p))
    && (forall p :: p in h[|h| - 1] && p !in next ==> p in h[position])
    && (forall o: FilePath, x :: o in next && o.Merge? && x in o.inputs ==> x !in next && Known(h, x))
  }

  lemma StretchGrows(h: seq<set<FilePath>>, next: set<FilePath>)
    requires h != [] && OneStretch(h) && forall p :: p in next ==> p in h[|h| - 1] || !Known(h, p)
    ensures OneStretch(h + [next])
  {
  }

  lemma SeenGrows(h: seq<set<FilePath>>, position: nat, next: set<FilePath>)
    requires position < |h| && OneStretch(h) && GoneWasSeen(h, position)
    requires forall p :: p in h[|h| - 1] && p !in next ==> p in h[position]
    requires forall p :: p in next ==> p in h[|h| - 1] || !Known(h, p)
    ensures GoneWasSeen(h + [next], position)
  {
    var n := h + [next];
    forall p, i | 0 <= i < |n| && p in n[i] && p !in n[|n| - 1]
      ensures exists k :: 0 <= k <= position && k < |n| && p in n[k]
    {
      assert i < |h| && p in h[i];
      if p in h[|h| - 1] {
        assert p in n[position];
      } else {
        var k :| 0 <= k <= position && k < |h| && p in h[k];
        assert p in n[k];
      }
    }
  }

  lemma GoneGrows(h: seq<set<FilePath>>, next: set<FilePath>)
    requires h != [] && InputsGone(h) && InputsKnown(h)
    requires forall p :: p in next ==> p in h[|h| - 1] || !Known(h, p)
    requires forall o, x :: o in next && o.Merge? && x in o.inputs ==> x !in next
    ensures InputsGone(h + [next])
  {
  }

  lemma InputsKnownGrows(h: seq<set<FilePath>>, next: set<FilePath>)
    requires h != [] && InputsKnown(h)
    requires forall o, x :: o in next && o.Merge? && x in o.inputs ==> Known(h, x)
    ensures InputsKnown(h + [next])
  {
    var n := h + [next];
    forall o: FilePath, i, x | 0 <= i < |n| && o in n[i] && o.Merge? && x in o.inputs ensures Known(n, x) {
      KnownGrows(h, next, x);
      if i < |h| { assert o in h[i]; }
    }
  }

  lemma HistoryGrows(h: seq<set<FilePath>>, position: nat, next: set<FilePath>)
    requires HistoryOk(h, position) && NextOk(h, position, next)
    ensures HistoryOk(h + [next], position)
  {
    StretchGrows(h, next);
    SeenGrows(h, position, next);
    GoneGrows(h, next);
    InputsKnownGrows(h, next);
  }

  /** A replica further on has seen no less. */
  lemma HistorySeen(h: seq<set<FilePath>>, mark: nat, position: nat)
    requires HistoryOk(h, mark) && mark <= position < |h|
    ensures HistoryOk(h, position)
  {
    forall p, i | 0 <= i < |h| && p in h[i] && p !in h[|h| - 1]
      ensures exists k :: 0 <= k <= position && k < |h| && p in h[k]
    {
      var k :| 0 <= k <= mark && k < |h| && p in h[k];
      assert k <= position;
    }
  }

  // ---- Steps ----

  lemma IngestHistory(n: nat, o: Owner, ids: set<nat>, mark: nat)
    requires HistoryOk(o.history, mark) && forall id :: id in ids ==> !Known(o.history, Gen1(n, id))
    ensures HistoryOk(o.history + [Durable(o) + Ingested(n, ids)], mark)
  {
    var h, next := o.history, Durable(o) + Ingested(n, ids);
    forall m: FilePath, x | m in next && m.Merge? && x in m.inputs ensures x !in next && Known(h, x) {
      assert m in h[|h| - 1];
      assert Known(h, x) && x !in h[|h| - 1];
    }
    HistoryGrows(h, mark, next);
  }

  lemma NotifyNextOk(n: nat, o: Owner, inputs: set<FilePath>)
    requires HistoryOk(o.history, o.position) && inputs != {} && inputs <= o.history[o.position]
    requires InStep(o, Merge(n, inputs), inputs)
    ensures NextOk(o.history, o.position, Durable(o) + {Merge(n, inputs)} - inputs * o.memory)
  {
  }

  lemma AppliedHistory(n: nat, o: Owner, inputs: set<FilePath>, persisted: bool)
    requires HistoryOk(o.history, o.position) && inputs != {} && inputs <= o.history[o.position]
    requires InStep(o, Merge(n, inputs), inputs)
    ensures HistoryOk(Applied(o, Merge(n, inputs), inputs, persisted).history, o.position)
  {
    NotifyNextOk(n, o, inputs);
    HistoryGrows(o.history, o.position, Durable(o) + {Merge(n, inputs)} - inputs * o.memory);
  }

  /** Where the replica of each owner was when it was last notified. */
  function Mark(marks: map<nat, nat>, n: nat): nat { if n in marks then marks[n] else 0 }

  function Marked(s: State, t: Step, marks: map<nat, nat>): map<nat, nat> {
    if t.Notify? && t.n in s.owners then marks[t.n := s.owners[t.n].position] else marks
  }

  /** The notice is about files the replica shows, and the replica is no older than at the last one. */
  predicate Forward(s: State, t: Step, marks: map<nat, nat>)
    requires t.Notify? && t.n in s.owners
  {
    var o := s.owners[t.n];
    Mark(marks, t.n) <= o.position < |o.history| && Elements(t.inputs) <= o.history[o.position]
  }

  /** A run in which every notice is such a one and handled at once. */
  ghost predicate ForwardRun(s: State, ts: seq<Step>, marks: map<nat, nat>)
    decreases |ts|
  {
    ts == [] || (
      && Enabled(s, ts[0]) && !ts[0].GiveUp? && (ts[0].Notify? ==> Forward(s, ts[0], marks))
      && ForwardRun(Do(s, ts[0]), ts[1..], Marked(s, ts[0], marks)))
  }

  ghost predicate Seen(s: State, marks: map<nat, nat>) {
    && (forall n :: n in s.owners ==> HistoryOk(s.owners[n].history, Mark(marks, n)))
    && (forall n :: n in marks ==> n in s.owners)
  }

  lemma AckedFacts(s: State, p: FilePath)
    requires Inv(s) && p in s.acked
    ensures p.node in s.owners && Known(s.owners[p.node].history, p) && p !in Durable(s.owners[p.node])
  {
    hide OwnerOk, QueuesOk;
    assert Gone(s.owners[p.node], p);
  }

  /** The output of a notice from no older a replica was never acknowledged as an input. */
  lemma OutputNotAcked(s: State, t: Step, marks: map<nat, nat>)
    requires Inv(s) && Seen(s, marks) && t.Notify? && Enabled(s, t) && Forward(s, t, marks)
    ensures Output(t) !in s.acked && Output(t) !in Queued(s)
  {
    hide Inv, Seen, HistoryOk, Known, Queued, Elements, Mark;
    var h, position := s.owners[t.n].history, s.owners[t.n].position;
    SeenFacts(s, marks, t.n);
    HistorySeen(h, Mark(marks, t.n), position);
    if Output(t) in s.acked {
      AckedFacts(s, Output(t));
      SomeInput(t.inputs);
      OutputNotGone(h, position, t.n, Elements(t.inputs));
    }
    if Output(t) in Queued(s) { QueuesFacts(s, Output(t)); }
  }

  lemma SeenFacts(s: State, marks: map<nat, nat>, n: nat)
    requires Seen(s, marks) && n in s.owners
    ensures HistoryOk(s.owners[n].history, Mark(marks, n))
  {
  }

  lemma SomeInput(inputs: seq<FilePath>)
    requires inputs != []
    ensures Elements(inputs) != {}
  {
    assert inputs[0] in Elements(inputs);
  }

  lemma QueuesFacts(s: State, p: FilePath)
    requires Inv(s) && p in Queued(s)
    ensures p in s.acked
  {
    QueuedIsAcked(s, p);
  }

  lemma OwnerSeen(s: State, marks: map<nat, nat>, n: nat, k: Owner, mark: nat)
    requires Seen(s, marks) && n in s.owners && HistoryOk(k.history, mark)
    ensures forall d: State :: d.owners == s.owners[n := k] ==> Seen(d, marks[n := mark])
  {
  }

  lemma NotifySeen(s: State, t: Step, marks: map<nat, nat>)
    requires Seen(s, marks) && t.Notify? && Enabled(s, t) && Forward(s, t, marks) && Met(s, t)
    ensures Seen(Do(s, t), Marked(s, t, marks))
  {
    hide HistoryOk, Applied, InStep, Seen, Elements, Mark;
    var o := s.owners[t.n];
    SeenFacts(s, marks, t.n);
    HistorySeen(o.history, Mark(marks, t.n), o.position);
    SomeInput(t.inputs);
    AppliedHistory(t.n, o, Elements(t.inputs), t.persisted);
    OwnerSeen(s, marks, t.n, Do(s, t).owners[t.n], o.position);
  }

  lemma StepSeen(s: State, t: Step, marks: map<nat, nat>)
    requires Seen(s, marks) && Enabled(s, t) && s.sent == {} && !t.GiveUp?
    requires t.Notify? ==> Forward(s, t, marks) && Met(s, t)
    ensures Seen(Do(s, t), Marked(s, t, marks)) && Do(s, t).sent == {}
  {
    if t.Notify? {
      hide Seen, Forward, Met, Applied;
      NotifySeen(s, t, marks);
    } else {
      if t.Ingest? { IngestHistory(t.n, s.owners[t.n], t.ids, Mark(marks, t.n)); }
      hide HistoryOk, Applied;
    }
  }

  // ---- Runs ----

  /** In such runs no notice's output is queued, and what is acknowledged stays so. */
  lemma {:induction false} ForwardIsChecked(s: State, ts: seq<Step>, failed: set<nat>, marks: map<nat, nat>)
    requires Inv(s) && Mirrored(s, failed) && Seen(s, marks) && s.sent == {}
    requires RepairedRun(s, ts, failed) && ForwardRun(s, ts, marks)
    ensures CheckedRun(s, ts) && Run(s, ts) && Inv(After(s, ts)) && s.acked.Keys <= After(s, ts).acked.Keys
    decreases |ts|
  {
    if ts != [] {
      var t := ts[0];
      hide Inv, Mirrored, Seen, InStep, Queued;
      if t.Notify? { OutputNotAcked(s, t, marks); }
      AckedGrows(s, t);
      StepMirrors(s, t, failed);
      StepSeen(s, t, marks);
      StepInv(s, t);
      hide Enabled, Do;
      ForwardIsChecked(Do(s, t), ts[1..], Unrecorded(s, t, failed), Marked(s, t, marks));
    }
  }

  lemma AckedGrows(s: State, t: Step)
    requires Enabled(s, t) && !t.GiveUp? && (t.Notify? ==> Output(t) !in s.acked)
    ensures s.acked.Keys <= Do(s, t).acked.Keys
  {
  }

  lemma StartSeen(grace: nat, clock: int)
    ensures Inv(Start(grace, clock)) && Mirrored(Start(grace, clock), {}) && Seen(Start(grace, clock), map[])
  {
  }

  /** Replicas that do not go back need no check of the queue. */
  lemma ForwardRunsAreSafe(grace: nat, clock: int, ts: seq<Step>)
    requires RepairedRun(Start(grace, clock), ts, {}) && ForwardRun(Start(grace, clock), ts, map[])
    ensures Run(Start(grace, clock), ts) && Safe(After(Start(grace, clock), ts))
  {
    StartSeen(grace, clock);
    ForwardIsChecked(Start(grace, clock), ts, {}, map[]);
    RepairedRunsAreSafe(grace, clock, ts);
  }

  lemma {:induction false} AckedStays(s: State, a: seq<Step>, b: seq<Step>, failed: set<nat>, marks: map<nat, nat>)
    requires Inv(s) && Mirrored(s, failed) && Seen(s, marks) && s.sent == {}
    requires RepairedRun(s, a + b, failed) && ForwardRun(s, a + b, marks)
    ensures Run(s, a) && Run(s, a + b) && Inv(After(s, a)) && Inv(After(s, a + b))
    ensures After(s, a).acked.Keys <= After(s, a + b).acked.Keys
    decreases |a|
  {
    if a == [] {
      assert a + b == b;
      ForwardIsChecked(s, b, failed, marks);
    } else {
      var t := a[0];
      assert (a + b)[0] == t && (a + b)[1..] == a[1..] + b;
      hide Inv, Mirrored, Seen, InStep, Queued;
      if t.Notify? { OutputNotAcked(s, t, marks); }
      StepMirrors(s, t, failed);
      StepSeen(s, t, marks);
      StepInv(s, t);
      hide Enabled, Do;
      AckedStays(Do(s, t), a[1..], b, Unrecorded(s, t, failed), Marked(s, t, marks));
    }
  }

  /** And in such runs a deleted file never comes back into any index. */
  lemma DeletedNeverReturns(grace: nat, clock: int, ts: seq<Step>, later: seq<Step>, p: FilePath)
    requires RepairedRun(Start(grace, clock), ts + later, {}) && ForwardRun(Start(grace, clock), ts + later, map[])
    ensures Run(Start(grace, clock), ts) && Run(Start(grace, clock), ts + later)
    ensures p in After(Start(grace, clock), ts).deleted ==> Dead(After(Start(grace, clock), ts + later), p)
  {
    StartSeen(grace, clock);
    AckedStays(Start(grace, clock), ts, later, {}, map[]);
    if p in After(Start(grace, clock), ts).deleted {
      AckedIsDead(After(Start(grace, clock), ts + later), p);
    }
  }
}
