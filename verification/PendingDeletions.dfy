/** The compactor's queue of merged-away inputs waiting to be deleted. */
module PendingDeletions {
  import opened Wrappers

  /**
   Where a data file is stored: under the prefix of the node that owns it, written by ingest under a
   name of its own, or the output of a merge, whose name is determined by the set of input paths.
   That different input sets give different names, none of them one ingest uses, is the assumption
   made about the path hash.
   */
  datatype FilePath = Gen1(node: nat, id: nat) | Merge(node: nat, inputs: set<FilePath>)

  datatype PendingDeletion = PendingDeletion(due: int, path: FilePath)

  function Entries(inputs: seq<FilePath>, due: int): seq<PendingDeletion> {
    seq(|inputs|, i requires 0 <= i < |inputs| => PendingDeletion(due, inputs[i]))
  }

  function DueBy(q: seq<PendingDeletion>, now: int): seq<PendingDeletion> {
    if q == [] then []
    else if q[0].due <= now then [q[0]] + DueBy(q[1..], now)
    else DueBy(q[1..], now)
  }

  function WaitingAt(q: seq<PendingDeletion>, now: int): seq<PendingDeletion> {
    if q == [] then []
    else if q[0].due <= now then WaitingAt(q[1..], now)
    else [q[0]] + WaitingAt(q[1..], now)
  }

  function PathsOf(q: seq<PendingDeletion>): set<FilePath> { set e | e in q :: e.path }

  /** Every entry is either due or keeps waiting, as its due time says. */
  lemma {:induction false} DueOrWaiting(q: seq<PendingDeletion>, now: int)
    ensures forall e :: e in DueBy(q, now) <==> e in q && e.due <= now
    ensures forall e :: e in WaitingAt(q, now) <==> e in q && e.due > now
    ensures multiset(DueBy(q, now)) + multiset(WaitingAt(q, now)) == multiset(q)
  {
    if q != [] {
      DueOrWaiting(q[1..], now);
      assert q == [q[0]] + q[1..];
    }
  }

  lemma DuePaths(q: seq<PendingDeletion>, now: int)
    ensures forall p :: p in PathsOf(DueBy(q, now)) <==> exists e :: e in q && e.path == p && e.due <= now
    ensures DueBy(q, now) == [] <==> forall e :: e in q ==> now < e.due
  {
    DueOrWaiting(q, now);
    if DueBy(q, now) != [] {
      assert DueBy(q, now)[0] in DueBy(q, now);
    }
  }

  /** What a process loads at start: the stored queue, or nothing if it cannot be read. */
  function Loaded(stored: Option<seq<PendingDeletion>>, readable: bool): seq<PendingDeletion> {
    if readable && stored.Some? then stored.value else []
  }

  /** The stored queue after an overwrite that may fail. */
  function Stored(stored: Option<seq<PendingDeletion>>, q: seq<PendingDeletion>, written: bool)
    : Option<seq<PendingDeletion>>
  {
    if written then Some(q) else stored
  }

  lemma {:induction false} DueSnoc(q: seq<PendingDeletion>, e: PendingDeletion, now: int)
    ensures DueBy(q + [e], now) == DueBy(q, now) + if e.due <= now then [e] else []
    ensures WaitingAt(q + [e], now) == WaitingAt(q, now) + if e.due <= now then [] else [e]
  {
    if q == [] {
      assert q + [e] == [e];
    } else {
      assert (q + [e])[0] == q[0] && (q + [e])[1..] == q[1..] + [e];
      DueSnoc(q[1..], e, now);
    }
  }

  class InputDeleter {
    const grace: nat
    var pending: seq<PendingDeletion>
    var stored: Option<seq<PendingDeletion>>
    var objects: set<FilePath>

    constructor (grace: nat, stored: Option<seq<PendingDeletion>>, objects: set<FilePath>)
      ensures this.grace == grace && pending == [] && this.stored == stored && this.objects == objects
    {
      this.grace := grace;
      this.pending := [];
      this.stored := stored;
      this.objects := objects;
    }

    /** Pick up what an earlier process owed; any failure starts empty. */
    method Load(readable: bool)
      modifies this`pending
      ensures pending == old(pending) + Loaded(stored, readable)
      ensures pending == old(pending) + if readable && stored.Some? then stored.value else []
    {
      if !readable {
        return;
      }
      match stored
      case None =>
      case Some(q) => pending := pending + q;
    }

    /** Overwrite the stored queue; a failed write leaves the older one. */
    method Save(written: bool)
      modifies this`stored
      ensures stored == Stored(old(stored), pending, written)
      ensures stored == if written then Some(pending) else old(stored)
    {
      if written {
        stored := Some(pending);
      }
    }

    /** Queue the inputs of an acknowledged merge, due after the grace period. */
    method Schedule(inputs: seq<FilePath>, now: int, written: bool)
      modifies this`pending, this`stored
      ensures pending == old(pending) + Entries(inputs, now + grace)
      ensures stored == Stored(old(stored), pending, written)
      ensures |pending| == old(|pending|) + |inputs| && pending[..old(|pending|)] == old(pending)
      ensures forall i :: 0 <= i < |inputs| ==> pending[old(|pending|) + i] == PendingDeletion(now + grace, inputs[i])
      ensures stored == if written then Some(pending) else old(stored)
    {
      var due := now + grace;
      for i := 0 to |inputs|
        invariant pending == old(pending) + Entries(inputs[..i], due) && stored == old(stored)
      {
        assert Entries(inputs[..i + 1], due) == Entries(inputs[..i], due) + [PendingDeletion(due, inputs[i])];
        pending := pending + [PendingDeletion(due, inputs[i])];
      }
      assert inputs[..|inputs|] == inputs;
      Save(written);
    }

    /** Split the queue at `now`, keep what waits and hand out what is due. */
    method TakeDue(now: int) returns (due: seq<PendingDeletion>)
      modifies this`pending
      ensures pending == WaitingAt(old(pending), now) && due == DueBy(old(pending), now)
    {
      var waiting: seq<PendingDeletion> := [];
      due := [];
      for i := 0 to |pending|
        invariant pending == old(pending)
        invariant due == DueBy(pending[..i], now) && waiting == WaitingAt(pending[..i], now)
      {
        var e := pending[i];
        DueSnoc(pending[..i], e, now);
        assert pending[..i + 1] == pending[..i] + [e];
        if e.due <= now {
          due := due + [e];
        } else {
          waiting := waiting + [e];
        }
      }
      assert pending[..|pending|] == pending;
      pending := waiting;
    }

    /**
     Delete what is due. A delete that fails is not tried again; the shorter queue is stored only
     if something was due.
     */
    method ReclaimDue(now: int, undeletable: set<FilePath>, written: bool)
      modifies this`pending, this`objects, this`stored
      ensures pending == WaitingAt(old(pending), now)
      ensures objects == old(objects) - (PathsOf(DueBy(old(pending), now)) - undeletable)
      ensures stored == Stored(old(stored), pending, written && DueBy(old(pending), now) != [])
      ensures forall e :: e in pending <==> e in old(pending) && now < e.due
      ensures forall p :: p in objects <==>
        p in old(objects) && (p in undeletable || forall e :: e in old(pending) && e.path == p ==> now < e.due)
      ensures stored ==
        if written && exists e :: e in old(pending) && e.due <= now then Some(pending) else old(stored)
    {
      DueOrWaiting(pending, now);
      DuePaths(pending, now);
      var due := TakeDue(now);
      if due == [] {
        return;
      }
      for i := 0 to |due|
        invariant objects == old(objects) - (PathsOf(due[..i]) - undeletable)
        invariant pending == WaitingAt(old(pending), now) && stored == old(stored)
      {
        assert PathsOf(due[..i + 1]) == PathsOf(due[..i]) + {due[i].path};
        if due[i].path !in undeletable {
          objects := objects - {due[i].path};
        }
      }
      assert due[..|due|] == due;
      Save(written);
    }
  }
}
