/**
 The plugin caches as values. A cache keeps its entries and, beside them, the keys by expiration time;
 expired entries go when they are asked for or at a cleanup, but never show. What a store answers is
 what a plain map with expiry times would.
 */
module CacheModel {
  import opened Wrappers

  type Key = string

  type Value = nat

  datatype Entry = Entry(value: Value, expiresAt: Option<int>) {
    predicate ExpiredAt(now: int) { expiresAt.Some? && expiresAt.value <= now }
  }

  datatype Cache = Cache(entries: map<Key, Entry>, expirations: map<int, set<Key>>, defaultTtl: Option<nat>)

  function EmptyCache(defaultTtl: Option<nat>): Cache { Cache(map[], map[], defaultTtl) }

  /** The value a key shows at a time. */
  function Lookup(m: map<Key, Entry>, key: Key, now: int): Option<Value> {
    if key in m && !m[key].ExpiredAt(now) then Some(m[key].value) else None
  }

  // ---- One cache ----

  /** An entry without an expiration gets the cache's default one. */
  function WithDefault(e: Entry, defaultTtl: Option<nat>, now: int): Entry {
    if defaultTtl.Some? && e.expiresAt.None? then e.(expiresAt := Some(now + defaultTtl.value)) else e
  }

  function Unfile(x: map<int, set<Key>>, at: Option<int>, key: Key): map<int, set<Key>> {
    if at.Some? && at.value in x then x[at.value := x[at.value] - {key}] else x
  }

  function File(x: map<int, set<Key>>, at: Option<int>, key: Key): map<int, set<Key>> {
    if at.None? then x else x[at.value := (if at.value in x then x[at.value] else {}) + {key}]
  }

  function ExpirationOf(m: map<Key, Entry>, key: Key): Option<int> { if key in m then m[key].expiresAt else None }

  function Inserted(c: Cache, key: Key, e: Entry, now: int): Cache {
    var full := WithDefault(e, c.defaultTtl, now);
    c.(entries := c.entries[key := full],
       expirations := File(Unfile(c.expirations, ExpirationOf(c.entries, key), key), full.expiresAt, key))
  }

  function Removed(c: Cache, key: Key): Cache {
    c.(entries := c.entries - {key}, expirations := Unfile(c.expirations, ExpirationOf(c.entries, key), key))
  }

  /** Asking for an expired key removes it. */
  function Asked(c: Cache, key: Key, now: int): Cache {
    if key in c.entries && c.entries[key].ExpiredAt(now) then Removed(c, key) else c
  }

  function KeysBefore(x: map<int, set<Key>>, now: int): set<Key> {
    set t, k | t in x && t < now && k in x[t] :: k
  }

  /** Forget what expired before `now`; what expires at `now` itself stays until the next time. */
  function Cleaned(c: Cache, now: int): Cache {
    if forall t :: t in c.expirations ==> t > now then c
    else
      c.(entries := c.entries - KeysBefore(c.expirations, now),
         expirations := map t | t in c.expirations && t >= now :: c.expirations[t])
  }

  /** A key is filed under a time exactly if its entry expires then. */
  ghost predicate Agree(c: Cache) {
    && (forall t, k :: t in c.expirations && k in c.expirations[t] ==>
          k in c.entries && c.entries[k].expiresAt == Some(t))
    && (forall k :: k in c.entries && c.entries[k].expiresAt.Some? ==>
          c.entries[k].expiresAt.value in c.expirations && k in c.expirations[c.entries[k].expiresAt.value])
  }

  lemma InsertedAgrees(c: Cache, key: Key, e: Entry, now: int)
    requires Agree(c)
    ensures Agree(Inserted(c, key, e, now))
  {
  }

  lemma RemovedAgrees(c: Cache, key: Key)
    requires Agree(c)
    ensures Agree(Removed(c, key))
  {
  }

  /** A cleanup removes exactly the entries that expired before `now`. */
  lemma CleanedExactly(c: Cache, now: int)
    requires Agree(c)
    ensures Agree(Cleaned(c, now))
    ensures forall k :: k in Cleaned(c, now).entries <==>
      k in c.entries && !(c.entries[k].expiresAt.Some? && c.entries[k].expiresAt.value < now)
    ensures forall k :: k in Cleaned(c, now).entries ==> Cleaned(c, now).entries[k] == c.entries[k]
  {
    if exists t :: t in c.expirations && t <= now {
      CleanedKeys(c, now);
    }
  }

  lemma CleanedKeys(c: Cache, now: int)
    requires Agree(c)
    ensures forall k :: k in KeysBefore(c.expirations, now) <==>
      k in c.entries && c.entries[k].expiresAt.Some? && c.entries[k].expiresAt.value < now
  {
    forall k | k in c.entries && c.entries[k].expiresAt.Some? && c.entries[k].expiresAt.value < now
      ensures k in KeysBefore(c.expirations, now)
    {
      var t := c.entries[k].expiresAt.value;
      assert t in c.expirations && k in c.expirations[t];
    }
  }

  /** Two maps show the same at every time from `now` on. */
  ghost predicate SameFrom(a: map<Key, Entry>, b: map<Key, Entry>, now: int) {
    forall k, t {:trigger Lookup(a, k, t)} {:trigger Lookup(b, k, t)} :: t >= now ==> Lookup(a, k, t) == Lookup(b, k, t)
  }

  /** No later lookup can tell whether a cleanup ran. */
  lemma CleanedShowsSame(c: Cache, now: int)
    requires Agree(c)
    ensures SameFrom(Cleaned(c, now).entries, c.entries, now)
  {
  }

  lemma AskedShowsSame(c: Cache, key: Key, now: int)
    requires Agree(c)
    ensures Agree(Asked(c, key, now)) && SameFrom(Asked(c, key, now).entries, c.entries, now)
  {
  }

  // ---- The store ----

  datatype CacheId =
    | Global
    | GlobalTest(name: string)
    | Trigger(db: nat, trigger: nat)
    | TriggerTest(testName: string)
  {
    /** Test caches keep values for 30 minutes. */
    function DefaultTtl(): Option<nat> {
      match this
      case Global | Trigger(_, _) => None
      case GlobalTest(_) | TriggerTest(_) => Some(30 * 60 * 1_000_000_000)
    }
  }

  /** A time to live as given: none, a duration, or a number that is no duration. */
  datatype Ttl = Forever | For(nanos: nat) | NotADuration

  datatype Op =
    | Put(id: CacheId, key: Key, value: Value, ttl: Ttl)
    | Get(id: CacheId, key: Key)
    | Delete(id: CacheId, key: Key)
    | Cleanup
    | DropTrigger(db: nat, trigger: nat)
    | DropDatabase(db: nat)

  /** What a call tells its caller about the cached values. */
  datatype Answer = Nothing | Invalid | Found(value: Option<Value>)

  datatype Store = Store(namespaces: map<CacheId, Cache>, lastCleanup: int, cleanupInterval: nat)

  function EmptyStore(now: int, cleanupInterval: nat): Store { Store(map[], now, cleanupInterval) }

  function NewEntry(value: Value, ttl: Ttl, now: int): Entry
    requires !ttl.NotADuration?
  {
    Entry(value, if ttl.For? then Some(now + ttl.nanos) else None)
  }

  function CacheOf(s: Store, id: CacheId): Cache {
    if id in s.namespaces then s.namespaces[id] else EmptyCache(id.DefaultTtl())
  }

  predicate CleanupDue(s: Store, now: int) {
    (if now >= s.lastCleanup then now - s.lastCleanup else 0) >= s.cleanupInterval
  }

  /** Clean every cache and drop those left empty. */
  function CleanedStore(s: Store, now: int): Store {
    if !CleanupDue(s, now) then s
    else
      var cleaned := map id | id in s.namespaces :: Cleaned(s.namespaces[id], now);
      s.(namespaces := map id | id in cleaned && cleaned[id].entries != map[] :: cleaned[id], lastCleanup := now)
  }

  function Do(s: Store, op: Op, now: int): Store {
    match op
    case Put(id, key, value, ttl) =>
      if ttl.NotADuration? then s
      else s.(namespaces := s.namespaces[id := Inserted(CacheOf(s, id), key, NewEntry(value, ttl, now), now)])
    case Get(id, key) =>
      if id in s.namespaces then s.(namespaces := s.namespaces[id := Asked(s.namespaces[id], key, now)]) else s
    case Delete(id, key) =>
      if id in s.namespaces then s.(namespaces := s.namespaces[id := Removed(s.namespaces[id], key)]) else s
    case Cleanup => CleanedStore(s, now)
    case DropTrigger(db, trigger) => s.(namespaces := s.namespaces - {Trigger(db, trigger)})
    case DropDatabase(db) =>
      s.(namespaces := map id | id in s.namespaces && !(id.Trigger? && id.db == db) :: s.namespaces[id])
  }

  function AnswerTo(s: Store, op: Op, now: int): Answer {
    match op
    case Put(_, _, _, ttl) => if ttl.NotADuration? then Invalid else Nothing
    case Get(id, key) => Found(if id in s.namespaces then Lookup(s.namespaces[id].entries, key, now) else None)
    case _ => Nothing
  }

  // ---- A plain map with expiry ----

  type Plain = map<CacheId, map<Key, Entry>>

  function PlainOf(p: Plain, id: CacheId): map<Key, Entry> { if id in p then p[id] else map[] }

  function PlainDo(p: Plain, op: Op, now: int): Plain {
    match op
    case Put(id, key, value, ttl) =>
      if ttl.NotADuration? then p
      else p[id := PlainOf(p, id)[key := WithDefault(NewEntry(value, ttl, now), id.DefaultTtl(), now)]]
    case Get(_, _) => p
    case Delete(id, key) => p[id := PlainOf(p, id) - {key}]
    case Cleanup => p
    case DropTrigger(db, trigger) => p - {Trigger(db, trigger)}
    case DropDatabase(db) => map id | id in p && !(id.Trigger? && id.db == db) :: p[id]
  }

  function PlainAnswer(p: Plain, op: Op, now: int): Answer {
    match op
    case Put(_, _, _, ttl) => if ttl.NotADuration? then Invalid else Nothing
    case Get(id, key) => Found(Lookup(PlainOf(p, id), key, now))
    case _ => Nothing
  }

  // ---- The store refines the map ----

  ghost predicate StoreOk(s: Store) {
    forall id :: id in s.namespaces ==> Agree(s.namespaces[id]) && s.namespaces[id].defaultTtl == id.DefaultTtl()
  }

  ghost predicate Refines(s: Store, p: Plain, now: int) {
    forall id :: SameFrom(CacheOf(s, id).entries, PlainOf(p, id), now)
  }

  lemma CacheOfOk(s: Store, id: CacheId)
    requires StoreOk(s)
    ensures Agree(CacheOf(s, id)) && CacheOf(s, id).defaultTtl == id.DefaultTtl()
  {
  }

  lemma SameLater(a: map<Key, Entry>, b: map<Key, Entry>, c: map<Key, Entry>, now: int, later: int)
    requires SameFrom(a, b, later) && SameFrom(b, c, now) && now <= later
    ensures SameFrom(a, c, later)
  {
  }

  lemma SamePut(a: map<Key, Entry>, b: map<Key, Entry>, key: Key, e: Entry, now: int)
    requires SameFrom(a, b, now)
    ensures SameFrom(a[key := e], b[key := e], now)
  {
    var x, y := a[key := e], b[key := e];
    forall k, t | t >= now ensures Lookup(x, k, t) == Lookup(y, k, t) {
      assert Lookup(a, k, t) == Lookup(b, k, t);
    }
  }

  lemma SameDrop(a: map<Key, Entry>, b: map<Key, Entry>, key: Key, now: int)
    requires SameFrom(a, b, now)
    ensures SameFrom(a - {key}, b - {key}, now)
  {
    forall k, t | t >= now ensures Lookup(a - {key}, k, t) == Lookup(b - {key}, k, t) {
      assert Lookup(a, k, t) == Lookup(b, k, t);
    }
  }

  lemma StepOk(s: Store, op: Op, now: int)
    requires StoreOk(s)
    ensures StoreOk(Do(s, op, now))
  {
    match op
    case Put(id, key, value, ttl) =>
      if !ttl.NotADuration? {
        CacheOfOk(s, id);
        InsertedAgrees(CacheOf(s, id), key, NewEntry(value, ttl, now), now);
      }
    case Get(id, key) => if id in s.namespaces { AskedShowsSame(s.namespaces[id], key, now); }
    case Delete(id, key) => if id in s.namespaces { RemovedAgrees(s.namespaces[id], key); }
    case Cleanup =>
      forall id | id in s.namespaces ensures Agree(Cleaned(s.namespaces[id], now)) {
        CleanedExactly(s.namespaces[id], now);
      }
    case _ =>
  }

  /** What one cache of the store shows after a step, compared with the plain map. */
  lemma StepShows(s: Store, p: Plain, op: Op, now: int, id: CacheId)
    requires StoreOk(s) && SameFrom(CacheOf(s, id).entries, PlainOf(p, id), now)
    ensures SameFrom(CacheOf(Do(s, op, now), id).entries, PlainOf(PlainDo(p, op, now), id), now)
  {
    var a, b := CacheOf(s, id).entries, PlainOf(p, id);
    CacheOfOk(s, id);
    match op
    case Put(i, key, value, ttl) =>
      if i == id && !ttl.NotADuration? {
        SamePut(a, b, key, WithDefault(NewEntry(value, ttl, now), id.DefaultTtl(), now), now);
      }
    case Get(i, key) =>
      if i == id && id in s.namespaces {
        AskedShowsSame(s.namespaces[id], key, now);
        SameLater(Asked(s.namespaces[id], key, now).entries, a, b, now, now);
      }
    case Delete(i, key) =>
      if i == id {
        SameDrop(a, b, key, now);
        EmptyMinus(map[], key);
      }
    case Cleanup => CleanupShows(s, id, b, now);
    case _ =>
  }

  lemma EmptyMinus(m: map<Key, Entry>, key: Key)
    requires m == map[]
    ensures m - {key} == m
  {
  }

  lemma CleanupShows(s: Store, id: CacheId, b: map<Key, Entry>, now: int)
    requires StoreOk(s) && SameFrom(CacheOf(s, id).entries, b, now)
    ensures SameFrom(CacheOf(CleanedStore(s, now), id).entries, b, now)
  {
    if CleanupDue(s, now) && id in s.namespaces {
      CleanedShowsSame(s.namespaces[id], now);
      SameLater(Cleaned(s.namespaces[id], now).entries, s.namespaces[id].entries, b, now, now);
    }
  }

  lemma StepRefines(s: Store, p: Plain, op: Op, now: int)
    requires StoreOk(s) && Refines(s, p, now)
    ensures StoreOk(Do(s, op, now)) && Refines(Do(s, op, now), PlainDo(p, op, now), now)
    ensures AnswerTo(s, op, now) == PlainAnswer(p, op, now)
  {
    StepOk(s, op, now);
    forall id ensures SameFrom(CacheOf(Do(s, op, now), id).entries, PlainOf(PlainDo(p, op, now), id), now) {
      StepShows(s, p, op, now, id);
    }
    if op.Get? {
      assert SameFrom(CacheOf(s, op.id).entries, PlainOf(p, op.id), now);
      assert Lookup(CacheOf(s, op.id).entries, op.key, now) == Lookup(PlainOf(p, op.id), op.key, now);
    }
  }

  // ---- Histories ----

  datatype Call = Call(now: int, op: Op)

  /** The clock does not go back. */
  predicate Forward(calls: seq<Call>, from: int) {
    calls == [] || (from <= calls[0].now && Forward(calls[1..], calls[0].now))
  }

  function Answers(s: Store, calls: seq<Call>): seq<Answer>
    decreases |calls|
  {
    if calls == [] then []
    else [AnswerTo(s, calls[0].op, calls[0].now)] + Answers(Do(s, calls[0].op, calls[0].now), calls[1..])
  }

  function PlainAnswers(p: Plain, calls: seq<Call>): seq<Answer>
    decreases |calls|
  {
    if calls == [] then []
    else [PlainAnswer(p, calls[0].op, calls[0].now)] + PlainAnswers(PlainDo(p, calls[0].op, calls[0].now), calls[1..])
  }

  lemma RefinesLater(s: Store, p: Plain, now: int, later: int)
    requires Refines(s, p, now) && now <= later
    ensures Refines(s, p, later)
  {
  }

  lemma {:induction false} SameAnswersFrom(s: Store, p: Plain, calls: seq<Call>, from: int)
    requires StoreOk(s) && Refines(s, p, from) && Forward(calls, from)
    ensures Answers(s, calls) == PlainAnswers(p, calls)
    decreases |calls|
  {
    if calls != [] {
      RefinesLater(s, p, from, calls[0].now);
      StepRefines(s, p, calls[0].op, calls[0].now);
      var op, now := calls[0].op, calls[0].now;
      SameAnswersFrom(Do(s, op, now), PlainDo(p, op, now), calls[1..], now);
    }
  }

  /** Every history of calls gets the answers a plain map with expiry times would give. */
  lemma SameAnswers(calls: seq<Call>, start: int, cleanupInterval: nat)
    requires Forward(calls, start)
    ensures Answers(EmptyStore(start, cleanupInterval), calls) == PlainAnswers(map[], calls)
  {
    SameAnswersFrom(EmptyStore(start, cleanupInterval), map[], calls, start);
  }
}
