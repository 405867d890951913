/**
 Facts about one committed log, whose entries are numbered from 1 without a hole: prefixes of it,
 snapshots of prefixes, what survives of it in the store and what a replay of survivors takes in.
 */
module CommittedLog {
  import opened IndexModel
  import opened IndexReplay
  import opened IndexReading

  ghost predicate Dense(log: seq<LogEntry>) {
    forall i {:trigger log[i]} :: 0 <= i < |log| ==> log[i].sequence == i + 1
  }

  /** `ix` is the exact replay of the committed log up to its own position. */
  ghost predicate ExactPrefix(log: seq<LogEntry>, ix: Index) {
    ix.sequence <= |log| && SameView(ix, Replay(EMPTY, log[..ix.sequence]))
  }

  ghost predicate SnapshotOfPrefix(log: seq<LogEntry>, s: Snapshot) {
    s.sequence <= |log| && IsSnapshotOf(s, Replay(EMPTY, log[..s.sequence]))
  }

  /** `entries` is what the log has from position `from` on, as far as it goes. */
  ghost predicate Stretch(log: seq<LogEntry>, from: nat, entries: seq<LogEntry>) {
    from + |entries| <= |log| && entries == log[from..from + |entries|]
  }

  lemma {:induction false} DenseReplay(log: seq<LogEntry>, n: nat)
    requires Dense(log) && n <= |log|
    ensures Replay(EMPTY, log[..n]).sequence == n && WellFormed(Replay(EMPTY, log[..n]))
  {
    assert Increasing(log[..n]);
    ReplayFolds(log[..n], TableKey("", 0, 0));
    ReplayWellFormed(EMPTY, log[..n]);
  }

  lemma LengthIsPosition(log: seq<LogEntry>)
    requires Dense(log)
    ensures Replay(EMPTY, log).sequence == |log|
  {
    assert log[..|log|] == log;
    DenseReplay(log, |log|);
  }

  lemma EmptyExact(log: seq<LogEntry>)
    ensures ExactPrefix(log, EMPTY)
  {
    assert log[..0] == [];
  }

  /** A longer log has the same prefixes. */
  lemma GrowthKeepsPrefix(log: seq<LogEntry>, more: seq<LogEntry>, ix: Index)
    requires ExactPrefix(log, ix)
    ensures ExactPrefix(log + more, ix)
  {
    assert (log + more)[..ix.sequence] == log[..ix.sequence];
  }

  lemma GrowthKeepsSnapshot(log: seq<LogEntry>, more: seq<LogEntry>, s: Snapshot)
    requires SnapshotOfPrefix(log, s)
    ensures SnapshotOfPrefix(log + more, s)
  {
    assert (log + more)[..s.sequence] == log[..s.sequence];
  }

  lemma GrowthKeepsStretch(log: seq<LogEntry>, more: seq<LogEntry>, from: nat, entries: seq<LogEntry>)
    requires Stretch(log, from, entries)
    ensures Stretch(log + more, from, entries)
  {
    assert (log + more)[from..from + |entries|] == log[from..from + |entries|];
  }

  /** Continuing an exact prefix with the next stretch of entries, or with any it has seen, is exact. */
  lemma ReplayStretch(log: seq<LogEntry>, ix: Index, from: nat, entries: seq<LogEntry>)
    requires Dense(log) && ExactPrefix(log, ix) && Stretch(log, from, entries) && from <= ix.sequence
    ensures ExactPrefix(log, Replay(ix, entries))
    ensures var to := from + |entries|; Replay(ix, entries).sequence == if to > ix.sequence then to else ix.sequence
  {
    hide Replay, ExactPrefix;
    var p, to := ix.sequence, from + |entries|;
    if to <= p {
      RereadNoOp(ix, entries);
    } else {
      PrefixInLog(log, ix);
      assert entries == log[from..p] + log[p..to];
      ReplayConcat(ix, log[from..p], log[p..to]);
      RereadNoOp(ix, log[from..p]);
      ReplayNext(log, ix, to);
    }
  }

  lemma PrefixInLog(log: seq<LogEntry>, ix: Index)
    requires ExactPrefix(log, ix)
    ensures ix.sequence <= |log|
  {
  }

  /** The entries after its position take an exact prefix to a longer one. */
  lemma ReplayNext(log: seq<LogEntry>, ix: Index, to: nat)
    requires Dense(log) && ExactPrefix(log, ix) && ix.sequence <= to <= |log|
    ensures ExactPrefix(log, Replay(ix, log[ix.sequence..to])) && Replay(ix, log[ix.sequence..to]).sequence == to
  {
    hide Replay;
    var p := ix.sequence;
    ReplaySameView(ix, Replay(EMPTY, log[..p]), log[p..to]);
    assert log[..to] == log[..p] + log[p..to];
    ReplayConcat(EMPTY, log[..p], log[p..to]);
    DenseReplay(log, to);
  }

  /** Applying an entry that is the next one or was seen already keeps an index exact. */
  lemma ApplyExact(log: seq<LogEntry>, ix: Index, e: LogEntry)
    requires Dense(log) && ExactPrefix(log, ix) && 1 <= e.sequence <= |log| && log[e.sequence - 1] == e
    requires e.sequence <= ix.sequence + 1
    ensures ExactPrefix(log, Apply(ix, e))
    ensures Apply(ix, e).sequence == if e.sequence > ix.sequence then e.sequence else ix.sequence
  {
    assert Stretch(log, e.sequence - 1, [e]);
    ReplayStretch(log, ix, e.sequence - 1, [e]);
    assert Replay(ix, [e]) == Replay(Apply(ix, e), []);
  }

  lemma LoadedExact(log: seq<LogEntry>, s: Snapshot)
    requires Dense(log) && SnapshotOfPrefix(log, s)
    ensures ExactPrefix(log, Restore(EMPTY, s)) && Restore(EMPTY, s).sequence == s.sequence
  {
    DenseReplay(log, s.sequence);
    RestoreExact(Replay(EMPTY, log[..s.sequence]), s);
  }

  lemma CapturedExact(log: seq<LogEntry>, ix: Index, s: Snapshot)
    requires ExactPrefix(log, ix) && IsSnapshotOf(s, ix)
    ensures SnapshotOfPrefix(log, s)
  {
  }

  // ---- Survivors ----

  /** The surviving log objects of sequences above `after` and up to `top`, in order. */
  function Above(objects: map<nat, LogEntry>, after: nat, top: nat): seq<LogEntry> {
    if top <= after then []
    else if top in objects then Above(objects, after, top - 1) + [objects[top]]
    else Above(objects, after, top - 1)
  }

  /** Every object is the committed entry of its sequence. */
  ghost predicate FromLog(log: seq<LogEntry>, objects: map<nat, LogEntry>) {
    forall q :: q in objects ==> 1 <= q <= |log| && objects[q] == log[q - 1]
  }

  /** Everything committed above `after` survives. */
  ghost predicate AllAbove(log: seq<LogEntry>, objects: map<nat, LogEntry>, after: nat) {
    forall q :: after < q <= |log| ==> q in objects
  }

  lemma {:induction false} AboveNone(objects: map<nat, LogEntry>, after: nat, top: nat)
    requires forall q :: after < q <= top ==> q !in objects
    ensures Above(objects, after, top) == []
  {
    if top > after { AboveNone(objects, after, top - 1); }
  }

  lemma {:induction false} AboveIgnores(objects: map<nat, LogEntry>, q: nat, e: LogEntry, after: nat, top: nat)
    requires q <= after
    ensures Above(objects[q := e], after, top) == Above(objects, after, top)
  {
    if top > after { AboveIgnores(objects, q, e, after, top - 1); }
  }

  /** Survivors with nothing missing from `low` on are a stretch of the log. */
  lemma {:induction false} AboveIsStretch(log: seq<LogEntry>, objects: map<nat, LogEntry>,
      after: nat, top: nat, low: nat)
    requires FromLog(log, objects) && after <= low <= top <= |log|
    requires forall q :: after < q <= low ==> q !in objects
    requires forall q :: low < q <= top ==> q in objects
    ensures Above(objects, after, top) == log[low..top]
    decreases top
  {
    if top > low {
      AboveIsStretch(log, objects, after, top - 1, low);
      assert log[low..top] == log[low..top - 1] + [log[top - 1]];
    } else if top > after {
      AboveNone(objects, after, top);
    }
  }

  /** Where survivors begin, when none is missing after the first. */
  lemma ListingIsStretch(log: seq<LogEntry>, objects: map<nat, LogEntry>, after: nat) returns (from: nat)
    requires FromLog(log, objects) && after <= |log|
    requires forall q, p :: q in objects && q <= p <= |log| ==> p in objects
    ensures after <= from <= |log| && Above(objects, after, |log|) == log[from..]
    ensures forall q :: after < q <= from ==> q !in objects
    ensures from < |log| ==> from + 1 in objects
  {
    from := after;
    while from < |log| && from + 1 !in objects
      invariant after <= from <= |log|
      invariant forall q :: after < q <= from ==> q !in objects
    {
      from := from + 1;
    }
    AboveIsStretch(log, objects, after, |log|, from);
    assert log[from..|log|] == log[from..];
  }

  lemma {:induction false} AboveMembers(objects: map<nat, LogEntry>, after: nat, top: nat)
    ensures forall e :: e in Above(objects, after, top) ==>
      exists q :: after < q <= top && q in objects && e == objects[q]
    ensures after < top && after + 1 in objects ==>
      Above(objects, after, top) != [] && Above(objects, after, top)[0] == objects[after + 1]
  {
    if top > after {
      AboveMembers(objects, after, top - 1);
      forall e | e in Above(objects, after, top)
        ensures exists q :: after < q <= top && q in objects && e == objects[q]
      {
        if e in Above(objects, after, top - 1) {
          var q :| after < q <= top - 1 && q in objects && e == objects[q];
        } else {
          assert top in objects && e == objects[top];
        }
      }
    }
  }

  /** Replaying survivors from an exact position is exact if everything above it survives. */
  lemma {:induction false} AboveExact(log: seq<LogEntry>, objects: map<nat, LogEntry>, ix: Index, after: nat, top: nat)
    requires Dense(log) && FromLog(log, objects) && ExactPrefix(log, ix) && after <= ix.sequence && top <= |log|
    requires forall q :: ix.sequence < q <= top ==> q in objects
    ensures ExactPrefix(log, Replay(ix, Above(objects, after, top)))
    ensures Replay(ix, Above(objects, after, top)).sequence == if top > ix.sequence then top else ix.sequence
    decreases top
  {
    if top <= after {
    } else {
      var rest := Above(objects, after, top - 1);
      AboveExact(log, objects, ix, after, top - 1);
      if top in objects {
        ReplayConcat(ix, rest, [objects[top]]);
        var before := Replay(ix, rest);
        assert Replay(before, [objects[top]]) == Replay(Apply(before, objects[top]), []);
        ApplyExact(log, before, objects[top]);
      }
    }
  }

  // ---- What a replay takes in ----

  /** The position a replay from `at` ends at. */
  function Reach(at: nat, entries: seq<LogEntry>): nat {
    if entries == [] then at
    else
      var before, e := Reach(at, entries[..|entries| - 1]), entries[|entries| - 1];
      if e.sequence > before then e.sequence else before
  }

  /** The sequences of the entries a replay from `at` does not ignore. */
  function Taken(at: nat, entries: seq<LogEntry>): set<nat> {
    if entries == [] then {}
    else
      var before, e := entries[..|entries| - 1], entries[|entries| - 1];
      Taken(at, before) + if e.sequence > Reach(at, before) then {e.sequence} else {}
  }

  /** Every committed entry is at or below the position the replay starts from, or is taken by it. */
  ghost predicate TakesAll(log: seq<LogEntry>, at: nat, entries: seq<LogEntry>) {
    forall q :: 1 <= q <= |log| ==> q <= at || q in Taken(at, entries)
  }

  /** Taking an entry is applying it; the others leave the index as it was. */
  lemma {:induction false} ReplayTakes(ix: Index, entries: seq<LogEntry>)
    ensures Replay(ix, entries).sequence == Reach(ix.sequence, entries)
    ensures entries != [] ==>
      var before, e := entries[..|entries| - 1], entries[|entries| - 1];
      Replay(ix, entries) == if e.sequence in Taken(ix.sequence, entries) - Taken(ix.sequence, before)
                             then Apply(Replay(ix, before), e) else Replay(ix, before)
    decreases |entries|
  {
    if entries != [] {
      var before, e := entries[..|entries| - 1], entries[|entries| - 1];
      ReplayTakes(ix, before);
      TakenBelowReach(ix.sequence, before);
      assert entries == before + [e];
      ReplayConcat(ix, before, [e]);
      assert Replay(Replay(ix, before), [e]) == Replay(Apply(Replay(ix, before), e), []);
    }
  }

  lemma {:induction false} TakenBelowReach(at: nat, entries: seq<LogEntry>)
    ensures at <= Reach(at, entries) && forall q :: q in Taken(at, entries) ==> at < q <= Reach(at, entries)
  {
    if entries != [] { TakenBelowReach(at, entries[..|entries| - 1]); }
  }

  lemma {:induction false} ReachOfAbove(objects: map<nat, LogEntry>, at: nat, after: nat, top: nat)
    requires forall q :: q in objects ==> objects[q].sequence == q
    ensures at <= Reach(at, Above(objects, after, top)) <= if top > at then top else at
    decreases top
  {
    if top > after {
      ReachOfAbove(objects, at, after, top - 1);
      if top in objects { TakenSnoc(at, Above(objects, after, top - 1), objects[top]); }
    }
  }

  /** Of survivors, those above the starting position are taken, all of them. */
  lemma {:induction false} TakenOfAbove(objects: map<nat, LogEntry>, at: nat, after: nat, top: nat, q: nat)
    requires forall q :: q in objects ==> objects[q].sequence == q
    ensures q in Taken(at, Above(objects, after, top)) <==> q in objects && after < q <= top && at < q
    decreases top
  {
    if top > after {
      TakenOfAbove(objects, at, after, top - 1, q);
      if top in objects {
        var rest := Above(objects, after, top - 1);
        TakenSnoc(at, rest, objects[top]);
        ReachOfAbove(objects, at, after, top - 1);
        assert top > Reach(at, rest) <==> top > at;
      }
    }
  }

  lemma TakenSnoc(at: nat, entries: seq<LogEntry>, e: LogEntry)
    ensures Taken(at, entries + [e]) ==
      Taken(at, entries) + if e.sequence > Reach(at, entries) then {e.sequence} else {}
    ensures Reach(at, entries + [e]) == if e.sequence > Reach(at, entries) then e.sequence else Reach(at, entries)
  {
    assert (entries + [e])[..|entries|] == entries;
  }

  /** An entry beyond the one after a snapshot takes an index restored from it past entries it lacks. */
  lemma SkipsOne(log: seq<LogEntry>, s: Snapshot, e: LogEntry)
    requires s.sequence + 1 < e.sequence <= |log| + 1
    ensures Restore(EMPTY, s).sequence == s.sequence && !TakesAll(log, s.sequence, [e])
  {
    TakenSnoc(s.sequence, [], e);
    assert [] + [e] == [e];
    assert s.sequence + 1 !in Taken(s.sequence, [e]);
  }
}
