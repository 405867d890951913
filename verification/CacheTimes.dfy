/**
 What a get answers, told from the history alone: the last put of the key that nothing has undone
 since, until its time to live is over. And what a cleanup removes and keeps.
 */
module CacheTimes {
  import opened Wrappers
  import opened CacheModel

  const HALF_HOUR := 30 * 60 * 1_000_000_000

  /** The call sets, removes or drops the key: an accepted put, a delete, or a drop of its namespace. */
  predicate Touches(op: Op, id: CacheId, key: Key) {
    match op
    case Put(i, k, _, ttl) => i == id && k == key && ttl != NotADuration
    case Delete(i, k) => i == id && k == key
    case DropTrigger(db, trigger) => id == CacheId.Trigger(db, trigger)
    case DropDatabase(db) => id.Trigger? && id.db == db
    case _ => false
  }

  /** Call `i` put `v`, and no call from then up to `n` touched the key. */
  ghost predicate LastPut(calls: seq<Call>, i: nat, n: nat, id: CacheId, key: Key, v: Value) {
    && i < n <= |calls|
    && calls[i].op.Put? && calls[i].op.id == id && calls[i].op.key == key && calls[i].op.value == v
    && calls[i].op.ttl != NotADuration
    && (forall j :: i < j < n ==> !Touches(calls[j].op, id, key))
  }

  /** What was put at `at` still shows at `now`: without a time to live for ever, or half an hour in a test. */
  predicate Lasting(id: CacheId, ttl: Ttl, at: int, now: int)
    requires ttl != NotADuration
  {
    match ttl
    case For(n) => now < at + n
    case Forever => id.Global? || id.Trigger? || now < at + HALF_HOUR
  }

  // ---- The plain map along a history ----

  function PlainAt(calls: seq<Call>, n: nat): Plain
    requires n <= |calls|
  {
    if n == 0 then map[] else PlainDo(PlainAt(calls, n - 1), calls[n - 1].op, calls[n - 1].now)
  }

  lemma {:induction false} PlainAnswerAt(calls: seq<Call>, k: nat, n: nat)
    requires k <= n < |calls|
    ensures |PlainAnswers(PlainAt(calls, k), calls[k..])| == |calls| - k
    ensures PlainAnswers(PlainAt(calls, k), calls[k..])[n - k] ==
      PlainAnswer(PlainAt(calls, n), calls[n].op, calls[n].now)
    decreases |calls| - k
  {
    assert calls[k..][1..] == calls[k + 1..] && calls[k..][0] == calls[k];
    if k < n {
      PlainAnswerAt(calls, k + 1, n);
    } else {
      PlainAnswersLength(PlainAt(calls, k), calls[k..]);
    }
  }

  lemma {:induction false} PlainAnswersLength(p: Plain, calls: seq<Call>)
    ensures |PlainAnswers(p, calls)| == |calls|
    decreases |calls|
  {
    if calls != [] {
      PlainAnswersLength(PlainDo(p, calls[0].op, calls[0].now), calls[1..]);
    }
  }

  /** A step that does not touch a key leaves its entry. */
  lemma Untouched(p: Plain, op: Op, now: int, id: CacheId, key: Key)
    requires !Touches(op, id, key)
    ensures key in PlainOf(PlainDo(p, op, now), id) <==> key in PlainOf(p, id)
    ensures key in PlainOf(p, id) ==> PlainOf(PlainDo(p, op, now), id)[key] == PlainOf(p, id)[key]
  {
  }

  /** Right after an accepted put the key shows for as long as its time to live says. */
  lemma JustPut(p: Plain, op: Op, at: int, now: int)
    requires op.Put? && op.ttl != NotADuration
    ensures var m := PlainOf(PlainDo(p, op, at), op.id);
      Lookup(m, op.key, now) == if Lasting(op.id, op.ttl, at, now) then Some(op.value) else None
  {
  }

  lemma JustGone(p: Plain, op: Op, now: int, id: CacheId, key: Key)
    requires Touches(op, id, key) && !op.Put?
    ensures key !in PlainOf(PlainDo(p, op, now), id)
  {
  }

  /** The put that a key's entry comes from. */
  ghost predicate FromPut(calls: seq<Call>, n: nat, id: CacheId, key: Key, now: int)
    requires n <= |calls|
  {
    var shown := Lookup(PlainOf(PlainAt(calls, n), id), key, now);
    && (shown.Some? ==> exists i: nat :: LastPut(calls, i, n, id, key, shown.value))
    && (forall i: nat, v: Value :: LastPut(calls, i, n, id, key, v) ==>
          shown == if Lasting(id, calls[i].op.ttl, calls[i].now, now) then Some(v) else None)
  }

  lemma {:induction false} EntryFromPut(calls: seq<Call>, n: nat, id: CacheId, key: Key, now: int)
    requires n <= |calls|
    ensures FromPut(calls, n, id, key, now)
  {
    if n > 0 {
      EntryFromPut(calls, n - 1, id, key, now);
      var op, at, p := calls[n - 1].op, calls[n - 1].now, PlainAt(calls, n - 1);
      var shown := Lookup(PlainOf(PlainAt(calls, n), id), key, now);
      if !Touches(op, id, key) {
        Untouched(p, op, at, id, key);
        SameLastPut(calls, n, id, key);
        if shown.Some? {
          var i: nat :| LastPut(calls, i, n - 1, id, key, shown.value);
          assert LastPut(calls, i, n, id, key, shown.value);
        }
      } else if op.Put? {
        OnlyLast(calls, n, id, key);
        JustPut(p, op, at, now);
        assert LastPut(calls, n - 1, n, id, key, op.value);
      } else {
        OnlyLast(calls, n, id, key);
        JustGone(p, op, at, id, key);
      }
    }
  }

  lemma OnlyLast(calls: seq<Call>, n: nat, id: CacheId, key: Key)
    requires 0 < n <= |calls| && Touches(calls[n - 1].op, id, key)
    ensures forall i: nat, v: Value :: LastPut(calls, i, n, id, key, v) ==> i == n - 1
  {
  }

  lemma SameLastPut(calls: seq<Call>, n: nat, id: CacheId, key: Key)
    requires 0 < n <= |calls| && !Touches(calls[n - 1].op, id, key)
    ensures forall i: nat, v: Value :: LastPut(calls, i, n - 1, id, key, v) <==> LastPut(calls, i, n, id, key, v)
  {
    forall i: nat, v: Value ensures LastPut(calls, i, n - 1, id, key, v) <==> LastPut(calls, i, n, id, key, v) {
      assert i == n - 1 ==> !LastPut(calls, i, n, id, key, v);
    }
  }

  /**
   Over every history under a clock that does not go back, a get answers `v` exactly if some earlier
   put gave the key `v`, no accepted put, delete or drop touched the key in between, and the time to
   live is not over: before `at + n` for a put at `at` with a time to live of `n`, and without one
   always, but before half an hour later in a test namespace. Every other get answers with nothing.
   */
  lemma GetShowsLastPut(calls: seq<Call>, start: int, cleanupInterval: nat, n: nat, id: CacheId, key: Key)
    requires Forward(calls, start) && n < |calls| && calls[n].op == Get(id, key)
    ensures var answers := Answers(EmptyStore(start, cleanupInterval), calls);
      && |answers| == |calls| && answers[n].Found?
      && forall v: Value :: answers[n].value == Some(v) <==>
           exists i: nat ::
             LastPut(calls, i, n, id, key, v) && Lasting(id, calls[i].op.ttl, calls[i].now, calls[n].now)
  {
    SameAnswers(calls, start, cleanupInterval);
    assert calls[0..] == calls;
    PlainAnswerAt(calls, 0, n);
    EntryFromPut(calls, n, id, key, calls[n].now);
  }

  // ---- Single calls ----

  /** What a cache keeps under a key, if the store has the cache and the key. */
  function Kept(s: Store, id: CacheId, key: Key): Option<Entry> {
    if id in s.namespaces && key in s.namespaces[id].entries then Some(s.namespaces[id].entries[key]) else None
  }

  /** An accepted put keeps the value until its time to live is over; no other key changes. */
  lemma PutKeeps(s: Store, id: CacheId, key: Key, value: Value, ttl: Ttl, now: int)
    requires StoreOk(s)
    ensures var n := Do(s, Put(id, key, value, ttl), now);
      && (ttl == NotADuration ==> n == s)
      && (ttl.For? ==> Kept(n, id, key) == Some(Entry(value, Some(now + ttl.nanos))))
      && (ttl.Forever? && (id.Global? || id.Trigger?) ==> Kept(n, id, key) == Some(Entry(value, None)))
      && (ttl.Forever? && (id.GlobalTest? || id.TriggerTest?) ==>
            Kept(n, id, key) == Some(Entry(value, Some(now + HALF_HOUR))))
      && (forall i, k :: i != id || k != key ==> Kept(n, i, k) == Kept(s, i, k))
  {
    CacheOfOk(s, id);
  }

  /** A delete takes away one key, a drop the keys of one trigger or of one database's triggers. */
  lemma RemovalsRemove(s: Store, op: Op, now: int, id: CacheId, key: Key)
    requires op.Delete? || op.DropTrigger? || op.DropDatabase?
    ensures Kept(Do(s, op, now), id, key) == if Touches(op, id, key) then None else Kept(s, id, key)
  {
  }

  /**
   Once the interval has passed since the last one, a cleanup forgets exactly what expired before
   `now`, drops exactly the caches left empty and starts a new interval; earlier it does nothing.
   */
  lemma CleanupForgetsExpired(s: Store, now: int)
    requires StoreOk(s)
    ensures var n := Do(s, Op.Cleanup, now);
      if now < s.lastCleanup + s.cleanupInterval && s.cleanupInterval > 0 then n == s
      else
        && n.lastCleanup == now && n.cleanupInterval == s.cleanupInterval
        && (forall id, key ::
              Kept(n, id, key) ==
                match Kept(s, id, key)
                case None => None
                case Some(e) => if e.expiresAt.Some? && e.expiresAt.value < now then None else Some(e))
        && (forall id :: id in n.namespaces ==> n.namespaces[id].entries != map[])
  {
    forall id | id in s.namespaces
      ensures forall k :: k in Cleaned(s.namespaces[id], now).entries <==>
        && k in s.namespaces[id].entries
        && !(s.namespaces[id].entries[k].expiresAt.Some? && s.namespaces[id].entries[k].expiresAt.value < now)
      ensures forall k :: k in Cleaned(s.namespaces[id], now).entries ==>
        Cleaned(s.namespaces[id], now).entries[k] == s.namespaces[id].entries[k]
    {
      CleanedExactly(s.namespaces[id], now);
    }
    hide Cleaned, Agree;
  }
}
