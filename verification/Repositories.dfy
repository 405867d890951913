/** The catalog repositories, updated in place: each method leaves what the models say it does. */
module Repositories {
  import opened Wrappers
  import C = CatalogModel
  import opened TokenModel

  class Repository<T(!new)> {
    var resources: map<nat, C.Resource<T>>
    var names: C.BiMap<nat, string>
    var nextId: nat
    const max: nat
    ghost var used: set<nat>            // every id inserted or handed out so far

    ghost function View(): C.Repo<T>
      reads this
    {
      C.Repo(resources, names, nextId, max)
    }

    /** The ids from the next one up to the largest were never used. */
    ghost predicate Tracked()
      reads this
    {
      resources.Keys <= used && forall id :: id in used ==> id < nextId || id >= max
    }

    constructor (max: nat)
      ensures View() == C.NewRepo(max) && C.InStep(View()) && Tracked() && used == {}
    {
      this.used := {};
      this.resources := map[];
      this.names := C.BiMap(map[], map[]);
      this.nextId := 0;
      this.max := max;
    }

    /** Whether the id is there; nothing if the two maps disagree, where the source panics. */
    method IdExists(id: nat) returns (r: Option<bool>)
      ensures r == if C.IdInStep(View(), id) then Some(id in resources) else None
    {
      var inMap, inRepo := id in names.rights, id in resources;
      if inMap != inRepo {
        return None;
      }
      r := Some(inRepo);
    }

    method Insert(id: nat, r: C.Resource<T>) returns (o: C.Outcome)
      modifies this
      ensures (View(), o) == C.Insert(old(View()), id, r)
      ensures C.InStep(old(View())) && !C.StealsName(old(View()), id, r) ==> C.InStep(View())
      ensures if o.Done? then resources == old(resources)[id := r] else View() == old(View())
      ensures o.Done? ==> r.name in names.lefts && names.lefts[r.name] == id
      ensures old(Tracked()) ==> Tracked()
      ensures used == if o.Done? then old(used) + {id} else old(used)
    {
      if C.InStep(View()) { C.InsertInStepIff(View(), id, r); }
      var nameTaken := r.name in names.lefts;
      var found := IdExists(id);
      if found.None? {
        return C.Panicked;
      }
      if found.value && nameTaken {
        return C.AlreadyExists;
      }
      names := C.Pair(names, id, r.name);
      resources := resources[id := r];
      if nextId <= id && id < max {
        nextId := id + 1;
      }
      used := used + {id};
      o := C.Done;
    }

    method Update(id: nat, r: C.Resource<T>) returns (o: C.Outcome)
      modifies this
      ensures (View(), o) == C.Update(old(View()), id, r)
      ensures C.InStep(old(View())) ==> C.InStep(View())
      ensures if o.Done? then id in old(resources) && resources == old(resources)[id := r] else View() == old(View())
      ensures o.Done? ==> r.name in names.lefts && names.lefts[r.name] == id
      ensures (old(Tracked()) ==> Tracked()) && used == old(used)
    {
      if C.InStep(View()) { C.UpdateInStep(View(), id, r); }
      var found := IdExists(id);
      if found.None? {
        return C.Panicked;
      }
      if !found.value {
        return C.NotFound;
      }
      if r.name in names.lefts && names.lefts[r.name] != id {
        return C.AlreadyExistsByName;
      }
      names := C.Pair(names, id, r.name);
      resources := resources[id := r];
      o := C.Done;
    }

    /** Change a copy and write it back only if the change succeeds. */
    method ModifyById(id: nat, f: C.Resource<T> -> Option<C.Resource<T>>) returns (o: C.Outcome)
      modifies this
      ensures (View(), o) == C.Modify(old(View()), id, f)
      ensures C.InStep(old(View())) ==> C.InStep(View())
      ensures !o.Done? ==> View() == old(View())
      ensures o.Done? ==> id in old(resources) && f(old(resources)[id]).Some?
      ensures o.Done? ==>
        var r := f(old(resources)[id]).value;
        resources == old(resources)[id := r] && r.name in names.lefts && names.lefts[r.name] == id
      ensures (old(Tracked()) ==> Tracked()) && used == old(used)
    {
      if id !in resources {
        return C.NotFound;
      }
      var changed := f(resources[id]);
      if changed.None? {
        return C.Rejected;
      }
      o := Update(id, changed.value);
    }

    method Remove(id: nat)
      modifies this
      ensures View() == C.Remove(old(View()), id)
      ensures C.InStep(old(View())) ==> C.InStep(View())
      ensures resources == old(resources) - {id}
      ensures (old(Tracked()) ==> Tracked()) && used == old(used)
    {
      if C.InStep(View()) { C.RemoveInStep(View(), id); }
      names := C.RemoveLeft(names, id);
      resources := resources - {id};
    }

    method Clear()
      modifies this
      ensures View() == C.Clear(old(View()))
      ensures C.InStep(old(View())) ==> C.InStep(View())
      ensures resources == map[] && names.lefts == map[] && names.rights == map[] && nextId == old(nextId)
      ensures (old(Tracked()) ==> Tracked()) && used == old(used)
    {
      names := C.BiMap(map[], map[]);
      resources := map[];
    }

    /** The next id, one never used before; nothing where the source panics, with the ids run out. */
    method GetAndIncrementNextId() returns (id: Option<nat>)
      modifies this`nextId, this`used
      ensures id == if old(nextId) < max then Some(old(nextId)) else None
      ensures View() == C.NextId(old(View())).0
      ensures nextId == if id.Some? then old(nextId) + 1 else old(nextId)
      ensures C.InStep(old(View())) ==> C.InStep(View())
      ensures old(Tracked()) ==> Tracked() && (id.Some? ==> id.value !in old(used))
      ensures used == if id.Some? then old(used) + {id.value} else old(used)
    {
      if nextId >= max {
        return None;
      }
      id := Some(nextId);
      used := used + {nextId};
      nextId := nextId + 1;
    }
  }

  class TokenRepository {
    const repo: Repository<TokenData>
    var hashes: C.BiMap<nat, Hash>

    ghost function View(): Tokens
      reads this, repo
    {
      Tokens(repo.View(), hashes)
    }

    constructor (max: nat)
      ensures View() == NewTokens(max) && InStep(View()) && fresh(repo)
    {
      repo := new Repository(max);
      hashes := C.BiMap(map[], map[]);
    }

    method HashToId(hash: Hash) returns (id: Option<nat>)
      ensures id == if hash in hashes.lefts then Some(hashes.lefts[hash]) else None
    {
      id := if hash in hashes.lefts then Some(hashes.lefts[hash]) else None;
    }

    method GetByHash(hash: Hash) returns (info: Option<TokenInfo>)
      ensures info == HashToInfo(View(), hash)
    {
      var id := HashToId(hash);
      if id.None? || id.value !in repo.resources {
        return None;
      }
      info := Some(repo.resources[id.value]);
    }

    /** The hash is filed only after the repository accepted the token. */
    method Add(id: nat, info: TokenInfo) returns (o: Outcome)
      modifies this, repo
      ensures (View(), o) == AddToken(old(View()), id, info)
    {
      var inserted := repo.Insert(id, info);
      if !inserted.Done? {
        return Failed(inserted);
      }
      hashes := C.Pair(hashes, id, info.data.hash);
      o := Done;
    }

    method UpdateAdminHash(id: nat, hash: Hash, now: int) returns (o: Outcome)
      modifies this, repo
      ensures (View(), o) == UpdateAdminTokenHash(old(View()), id, hash, now)
      ensures InStep(old(View())) ==> InStep(View())
    {
      if InStep(View()) { AdminUpdateInStep(View(), id, hash, now); }
      var existing := HashToId(hash);
      if existing.Some? && existing.value != id {
        return HashTaken;
      }
      if id !in repo.resources {
        return Missing;
      }
      var info := repo.resources[id].(data := TokenData(hash, Some(now), Some(id)));
      var updated := repo.Update(id, info);
      if !updated.Done? {
        return Failed(updated);
      }
      hashes := C.Pair(hashes, id, hash);
      o := Done;
    }

    method Delete(name: string) returns (id: Option<nat>)
      modifies this, repo
      ensures (View(), id) == DeleteToken(old(View()), name)
      ensures InStep(old(View())) ==> InStep(View())
      ensures id.None? ==> View() == old(View())
      ensures id.Some? ==> repo.resources == old(repo.resources) - {id.value}
      ensures InStep(old(View())) ==>
        && (id.Some? <==> exists k :: C.Holds(old(View()).repo, k, name))
        && name !in repo.names.lefts
        && (id.Some? ==>
              && C.Holds(old(View()).repo, id.value, name)
              && HashToInfo(View(), old(repo.resources)[id.value].data.hash).None?
              && forall h :: h != old(repo.resources)[id.value].data.hash ==>
                   HashToInfo(View(), h) == HashToInfo(old(View()), h))
    {
      if InStep(View()) {
        DeleteInStep(View(), name);
        DeleteLeaves(View(), name);
      }
      hide C.InStep, HashesOk, HashToInfo;
      if name !in repo.names.lefts {
        return None;
      }
      var found := repo.names.lefts[name];
      repo.Remove(found);
      hashes := C.RemoveLeft(hashes, found);
      id := Some(found);
    }

    method Replace(id: nat, info: TokenInfo) returns (o: Outcome)
      modifies repo
      ensures (View(), o) == UpdateToken(old(View()), id, info)
    {
      var updated := repo.Update(id, info);
      o := if updated.Done? then Done else Failed(updated);
    }
  }
}
