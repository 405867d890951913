/** The plugin caches, updated in place: each method leaves what `CacheModel` says it does. */
module CacheStores {
  import opened Wrappers
  import opened CacheModel
  import opened CacheTimes

  class ExpiringCache {
    var entries: map<Key, Entry>
    var expirations: map<int, set<Key>>
    const defaultTtl: Option<nat>

    ghost function View(): Cache
      reads this
    {
      Cache(entries, expirations, defaultTtl)
    }

    constructor (defaultTtl: Option<nat>)
      ensures View() == EmptyCache(defaultTtl)
    {
      this.entries := map[];
      this.expirations := map[];
      this.defaultTtl := defaultTtl;
    }

    /** The time a key is filed under is there, since entries and expirations agree. */
    method TakeOff(at: int, key: Key)
      requires at in expirations
      modifies this`expirations
      ensures expirations == Unfile(old(expirations), Some(at), key)
    {
      expirations := expirations[at := expirations[at] - {key}];
    }

    method Insert(key: Key, given: Entry, now: int)
      requires Agree(View())
      modifies this
      ensures View() == Inserted(old(View()), key, given, now) && Agree(View())
    {
      InsertedAgrees(View(), key, given, now);
      var e := given;
      if defaultTtl.Some? && e.expiresAt.None? {
        e := e.(expiresAt := Some(now + defaultTtl.value));
      }
      var before := if key in entries then Some(entries[key]) else None;
      entries := entries[key := e];
      if before.Some? && before.value.expiresAt.Some? {
        TakeOff(before.value.expiresAt.value, key);
      }
      if e.expiresAt.Some? {
        var at := e.expiresAt.value;
        if at !in expirations {
          expirations := expirations[at := {}];
        }
        expirations := expirations[at := expirations[at] + {key}];
      }
    }

    method Remove(key: Key) returns (had: bool)
      requires Agree(View())
      modifies this
      ensures View() == Removed(old(View()), key) && Agree(View()) && had == (key in old(entries))
    {
      RemovedAgrees(View(), key);
      had := key in entries;
      if had {
        var e := entries[key];
        entries := entries - {key};
        if e.expiresAt.Some? {
          TakeOff(e.expiresAt.value, key);
        }
      } else {
        assert entries - {key} == entries;
      }
    }

    method Get(key: Key, now: int) returns (v: Option<Value>)
      requires Agree(View())
      modifies this
      ensures View() == Asked(old(View()), key, now) && Agree(View())
      ensures v == Lookup(old(entries), key, now)
    {
      if key !in entries {
        return None;
      }
      var e := entries[key];
      if e.expiresAt.Some? && e.expiresAt.value <= now {
        var had := Remove(key);
        return None;
      }
      v := Some(e.value);
    }

    /** Split the expirations at `now` and drop the entries of the earlier part. */
    method Cleanup(now: int)
      requires Agree(View())
      modifies this
      ensures View() == Cleaned(old(View()), now) && Agree(View())
    {
      CleanedExactly(View(), now);
      if forall t :: t in expirations ==> t > now {
        return;
      }
      var later := map t | t in expirations && t >= now :: expirations[t];
      var times := set t | t in expirations && t < now;
      ghost var done: set<Key> := {};
      while times != {}
        invariant times <= expirations.Keys && expirations == old(expirations)
        invariant forall t :: t in times ==> t < now
        invariant forall k :: k in done <==>
          exists t :: t in expirations && t < now && t !in times && k in expirations[t]
        invariant entries == old(entries) - done
      {
        var t :| t in times;
        entries := entries - expirations[t];
        done := done + expirations[t];
        times := times - {t};
      }
      assert done == KeysBefore(expirations, now);
      expirations := later;
    }
  }

  class CacheStore {
    var namespaces: map<CacheId, ExpiringCache>
    var lastCleanup: int
    const cleanupInterval: nat

    ghost predicate Separate()
      reads this
    {
      forall a, b :: a in namespaces && b in namespaces && a != b ==> namespaces[a] != namespaces[b]
    }

    ghost function View(): Store
      reads this, namespaces.Values
    {
      Store(map id | id in namespaces :: namespaces[id].View(), lastCleanup, cleanupInterval)
    }

    ghost predicate Valid()
      reads this, namespaces.Values
    {
      Separate() && StoreOk(View())
    }

    constructor (now: int, cleanupInterval: nat)
      ensures Valid() && View() == EmptyStore(now, cleanupInterval) && fresh(namespaces.Values)
    {
      this.namespaces := map[];
      this.lastCleanup := now;
      this.cleanupInterval := cleanupInterval;
    }

    method Put(id: CacheId, key: Key, value: Value, ttl: Ttl, now: int) returns (ok: bool)
      requires Valid()
      modifies this`namespaces, namespaces.Values
      ensures Valid() && View() == Do(old(View()), Op.Put(id, key, value, ttl), now)
      ensures ok == !ttl.NotADuration? && fresh(namespaces.Values - old(namespaces.Values))
      ensures ttl.For? ==> Kept(View(), id, key) == Some(Entry(value, Some(now + ttl.nanos)))
      ensures ttl.Forever? ==>
        Kept(View(), id, key) ==
          Some(Entry(value, if id.GlobalTest? || id.TriggerTest? then Some(now + HALF_HOUR) else None))
      ensures forall i, k :: i != id || k != key ==> Kept(View(), i, k) == Kept(old(View()), i, k)
    {
      PutKeeps(View(), id, key, value, ttl, now);
      StepOk(View(), Op.Put(id, key, value, ttl), now);
      if ttl.NotADuration? {
        return false;
      }
      ghost var e := NewEntry(value, ttl, now);
      UpdatedTwice(View().namespaces, id, CacheOf(View(), id), Inserted(CacheOf(View(), id), key, e, now));
      hide Inserted, StoreOk, NewEntry, CacheOf, Kept;
      Open(id);
      PutEntry(id, key, NewEntry(value, ttl, now), now);
      ok := true;
    }

    /** The namespace is there, empty if it was not. */
    method Open(id: CacheId)
      requires Valid()
      modifies this`namespaces
      ensures Separate() && id in namespaces && fresh(namespaces.Values - old(namespaces.Values))
      ensures View() == old(View()).(namespaces := old(View()).namespaces[id := CacheOf(old(View()), id)])
      ensures Agree(CacheOf(old(View()), id))
    {
      CacheOfOk(View(), id);
      if id !in namespaces {
        var c := new ExpiringCache(id.DefaultTtl());
        namespaces := namespaces[id := c];
      }
      assert View().namespaces == old(View()).namespaces[id := CacheOf(old(View()), id)];
    }

    method PutEntry(id: CacheId, key: Key, e: Entry, now: int)
      requires Separate() && id in namespaces && id in View().namespaces && Agree(View().namespaces[id])
      modifies namespaces[id]
      ensures Separate()
      ensures View() == old(View()).(
                          namespaces := old(View()).namespaces[id := Inserted(old(View()).namespaces[id], key, e, now)])
    {
      hide Inserted;
      namespaces[id].Insert(key, e, now);
      assert View().namespaces == old(View()).namespaces[id := Inserted(old(View()).namespaces[id], key, e, now)];
    }

    method Get(id: CacheId, key: Key, now: int) returns (v: Option<Value>)
      requires Valid()
      modifies namespaces.Values
      ensures Valid() && View() == Do(old(View()), Op.Get(id, key), now)
      ensures Found(v) == AnswerTo(old(View()), Op.Get(id, key), now)
    {
      StepOk(View(), Op.Get(id, key), now);
      if id !in namespaces {
        return None;
      }
      v := namespaces[id].Get(key, now);
    }

    method Delete(id: CacheId, key: Key, ghost now: int) returns (had: bool)
      requires Valid()
      modifies namespaces.Values
      ensures Valid() && View() == Do(old(View()), Op.Delete(id, key), now)
      ensures had == (id in old(View()).namespaces && key in old(View()).namespaces[id].entries)
    {
      StepOk(View(), Op.Delete(id, key), now);
      if id !in namespaces {
        return false;
      }
      had := namespaces[id].Remove(key);
    }

    method DropTriggerCache(db: nat, trigger: nat, ghost now: int) returns (had: bool)
      requires Valid()
      modifies this`namespaces
      ensures Valid() && View() == Do(old(View()), DropTrigger(db, trigger), now)
      ensures had == (CacheId.Trigger(db, trigger) in old(namespaces))
    {
      StepOk(View(), DropTrigger(db, trigger), now);
      ghost var after := Do(View(), DropTrigger(db, trigger), now);
      var id := CacheId.Trigger(db, trigger);
      had := id in namespaces;
      namespaces := namespaces - {id};
      assert View().namespaces == after.namespaces;
    }

    method DropAllTriggerCachesForDb(db: nat, ghost now: int)
      requires Valid()
      modifies this`namespaces
      ensures Valid() && View() == Do(old(View()), DropDatabase(db), now)
    {
      StepOk(View(), DropDatabase(db), now);
      ghost var after := Do(View(), DropDatabase(db), now);
      hide Agree;
      namespaces := map id | id in namespaces && !(id.Trigger? && id.db == db) :: namespaces[id];
      assert View().namespaces == after.namespaces;
    }

    method CleanAll(now: int)
      requires Valid()
      modifies namespaces.Values
      ensures Separate() && View() == old(View()).(namespaces := CleanEach(old(View()).namespaces, now))
    {
      hide Cleaned;
      var rest := namespaces.Keys;
      while rest != {}
        invariant rest <= namespaces.Keys
        invariant forall id :: id in rest ==> namespaces[id].View() == old(namespaces[id].View())
        invariant forall id ::
          id in namespaces && id !in rest ==> namespaces[id].View() == Cleaned(old(namespaces[id].View()), now)
      {
        var id :| id in rest;
        assert Agree(old(View()).namespaces[id]);
        namespaces[id].Cleanup(now);
        rest := rest - {id};
      }
      assert View().namespaces == CleanEach(old(View()).namespaces, now);
    }

    method DropEmpty(now: int)
      requires Separate()
      modifies this`namespaces, this`lastCleanup
      ensures Separate() && View() == old(View()).(namespaces := NonEmpty(old(View()).namespaces), lastCleanup := now)
    {
      namespaces := map id | id in namespaces && namespaces[id].entries != map[] :: namespaces[id];
      lastCleanup := now;
      assert View().namespaces == NonEmpty(old(View()).namespaces);
    }

    method Cleanup(now: int)
      requires Valid()
      modifies this, namespaces.Values
      ensures Valid() && View() == Do(old(View()), Op.Cleanup, now)
    {
      StepOk(View(), Op.Cleanup, now);
      CleanedInParts(View(), now);
      var elapsed := if now >= lastCleanup then now - lastCleanup else 0;
      if elapsed < cleanupInterval {
        return;
      }
      hide StoreOk, CleanEach, NonEmpty, CleanedStore;
      CleanAll(now);
      DropEmpty(now);
    }
  }

  lemma UpdatedTwice(m: map<CacheId, Cache>, id: CacheId, a: Cache, b: Cache)
    ensures m[id := a][id := b] == m[id := b]
  {
  }

  function CleanEach(m: map<CacheId, Cache>, now: int): map<CacheId, Cache> {
    map id | id in m :: Cleaned(m[id], now)
  }

  function NonEmpty(m: map<CacheId, Cache>): map<CacheId, Cache> {
    map id | id in m && m[id].entries != map[] :: m[id]
  }

  lemma CleanedInParts(s: Store, now: int)
    ensures CleanupDue(s, now) ==>
      CleanedStore(s, now) == s.(namespaces := NonEmpty(CleanEach(s.namespaces, now)), lastCleanup := now)
  {
  }
}
