/** The token repository as a value: a repository of tokens and a two-way map from ids to hashes. */
module TokenModel {
  import opened Wrappers
  import C = CatalogModel

  type Hash = seq<nat>

  datatype TokenData = TokenData(hash: Hash, updatedAt: Option<int>, updatedBy: Option<nat>)

  type TokenInfo = C.Resource<TokenData>

  datatype Tokens = Tokens(repo: C.Repo<TokenData>, hashes: C.BiMap<nat, Hash>)

  datatype Outcome = Done | HashTaken | Missing | Failed(reason: C.Outcome)

  function NewTokens(max: nat): Tokens { Tokens(C.NewRepo(max), C.BiMap(map[], map[])) }

  function HashToInfo(s: Tokens, hash: Hash): Option<TokenInfo> {
    if hash in s.hashes.lefts && s.hashes.lefts[hash] in s.repo.resources
    then Some(s.repo.resources[s.hashes.lefts[hash]])
    else None
  }

  function AddToken(s: Tokens, id: nat, info: TokenInfo): (Tokens, Outcome) {
    var (repo, outcome) := C.Insert(s.repo, id, info);
    if !outcome.Done? then (s.(repo := repo), Failed(outcome))
    else (Tokens(repo, C.Pair(s.hashes, id, info.data.hash)), Done)
  }

  function UpdateAdminTokenHash(s: Tokens, id: nat, hash: Hash, now: int): (Tokens, Outcome) {
    if hash in s.hashes.lefts && s.hashes.lefts[hash] != id then (s, HashTaken)
    else if id !in s.repo.resources then (s, Missing)
    else
      var info := s.repo.resources[id].(data := TokenData(hash, Some(now), Some(id)));
      var (repo, outcome) := C.Update(s.repo, id, info);
      if !outcome.Done? then (s.(repo := repo), Failed(outcome))
      else (Tokens(repo, C.Pair(s.hashes, id, hash)), Done)
  }

  function DeleteToken(s: Tokens, name: string): (Tokens, Option<nat>) {
    if name !in s.repo.names.lefts then (s, None)
    else
      var id := s.repo.names.lefts[name];
      (Tokens(C.Remove(s.repo, id), C.RemoveLeft(s.hashes, id)), Some(id))
  }

  /** Replaces the token's record; the hash map is left as it is. */
  function UpdateToken(s: Tokens, id: nat, info: TokenInfo): (Tokens, Outcome) {
    var (repo, outcome) := C.Update(s.repo, id, info);
    (s.(repo := repo), if outcome.Done? then Done else Failed(outcome))
  }

  /** Every token is paired with its own hash. */
  ghost predicate HashesOk(hashes: C.BiMap<nat, Hash>, tokens: map<nat, TokenInfo>) {
    && C.Mirrored(hashes) && hashes.rights.Keys == tokens.Keys
    && (forall id :: id in tokens ==> hashes.rights[id] == tokens[id].data.hash)
  }

  ghost predicate InStep(s: Tokens) { C.InStep(s.repo) && HashesOk(s.hashes, s.repo.resources) }

  /** A hash finds a token exactly if some token holds it, and then it finds that one. */
  lemma HashFindsHolder(s: Tokens, hash: Hash)
    requires InStep(s)
    ensures HashToInfo(s, hash).Some? <==> exists id :: id in s.repo.resources && s.repo.resources[id].data.hash == hash
    ensures forall id :: id in s.repo.resources && s.repo.resources[id].data.hash == hash ==>
      HashToInfo(s, hash) == Some(s.repo.resources[id])
  {
  }

  /** What an added token must not take from another one. */
  predicate Fresh(s: Tokens, id: nat, info: TokenInfo) {
    && !C.StealsName(s.repo, id, info)
    && (info.data.hash in s.hashes.lefts ==> s.hashes.lefts[info.data.hash] == id)
  }

  lemma PairHashesIff(hashes: C.BiMap<nat, Hash>, tokens: map<nat, TokenInfo>, id: nat, info: TokenInfo)
    requires HashesOk(hashes, tokens)
    ensures HashesOk(C.Pair(hashes, id, info.data.hash), tokens[id := info]) <==>
      (info.data.hash in hashes.lefts ==> hashes.lefts[info.data.hash] == id)
  {
    C.PairMirrored(hashes, id, info.data.hash);
    if info.data.hash in hashes.lefts && hashes.lefts[info.data.hash] != id {
      var other := hashes.lefts[info.data.hash];
      assert other in tokens && other !in C.Pair(hashes, id, info.data.hash).rights;
    }
  }

  /** An accepted token keeps the maps in step exactly if it takes no other token's name or hash. */
  lemma AddInStepIff(s: Tokens, id: nat, info: TokenInfo)
    requires InStep(s)
    ensures !AddToken(s, id, info).1.Done? ==> AddToken(s, id, info).0 == s
    ensures AddToken(s, id, info).1.Done? ==> (InStep(AddToken(s, id, info).0) <==> Fresh(s, id, info))
  {
    hide C.InStep, C.Pair, HashesOk;
    C.InsertInStepIff(s.repo, id, info);
    PairHashesIff(s.hashes, s.repo.resources, id, info);
  }

  lemma AdminUpdateInStep(s: Tokens, id: nat, hash: Hash, now: int)
    requires InStep(s)
    ensures InStep(UpdateAdminTokenHash(s, id, hash, now).0)
    ensures !UpdateAdminTokenHash(s, id, hash, now).1.Done? ==> UpdateAdminTokenHash(s, id, hash, now).0 == s
    ensures UpdateAdminTokenHash(s, id, hash, now).1.Done? <==>
      id in s.repo.resources && forall k :: k in s.repo.resources && s.repo.resources[k].data.hash == hash ==> k == id
  {
    if hash in s.hashes.lefts {
      var k := s.hashes.lefts[hash];
      assert k in s.repo.resources && s.repo.resources[k].data.hash == hash;
    }
    if id in s.repo.resources {
      C.UpdateInStep(s.repo, id, s.repo.resources[id].(data := TokenData(hash, Some(now), Some(id))));
      C.PairMirrored(s.hashes, id, hash);
      SameName(s.repo, id);
    }
  }

  lemma SameName(s: C.Repo<TokenData>, id: nat)
    requires C.InStep(s) && id in s.resources
    ensures forall k :: k in s.resources && s.resources[k].name == s.resources[id].name ==> k == id
  {
  }

  lemma DeleteInStep(s: Tokens, name: string)
    requires InStep(s)
    ensures InStep(DeleteToken(s, name).0)
  {
  }

  /** Replacing a token's record keeps the maps in step exactly if it keeps the hash. */
  lemma UpdateInStepIff(s: Tokens, id: nat, info: TokenInfo)
    requires InStep(s) && UpdateToken(s, id, info).1.Done?
    ensures id in s.repo.resources
    ensures InStep(UpdateToken(s, id, info).0) <==> info.data.hash == s.repo.resources[id].data.hash
  {
    C.UpdateInStep(s.repo, id, info);
    assert UpdateToken(s, id, info).0.repo.resources == s.repo.resources[id := info];
  }

  // ---- What each operation leaves, in terms of tokens and lookups ----

  /**
   A delete answers the id of the token with that name, if there is one; then that token alone is gone,
   its name leads nowhere, its hash finds nothing, and every other hash finds what it found before.
   */
  lemma DeleteLeaves(s: Tokens, name: string)
    requires InStep(s)
    ensures var n, id := DeleteToken(s, name).0, DeleteToken(s, name).1;
      && (id.Some? <==> exists k :: C.Holds(s.repo, k, name))
      && (id.None? ==> n == s)
      && (id.Some? ==>
            && C.Holds(s.repo, id.value, name)
            && n.repo.resources == s.repo.resources - {id.value}
            && name !in n.repo.names.lefts
            && HashToInfo(n, s.repo.resources[id.value].data.hash).None?
            && forall h :: h != s.repo.resources[id.value].data.hash ==> HashToInfo(n, h) == HashToInfo(s, h))
  {
    C.NameFindsHolder(s.repo, name);
  }

  /** What `h` finds once `id` has the token `info`, if the other tokens are as they were. */
  function FoundWith(s: Tokens, id: nat, info: TokenInfo, h: Hash): Option<TokenInfo> {
    if h == info.data.hash then Some(info)
    else if id in s.repo.resources && h == s.repo.resources[id].data.hash then None
    else HashToInfo(s, h)
  }

  lemma LookupsFollow(s: Tokens, n: Tokens, id: nat, info: TokenInfo, h: Hash)
    requires InStep(s) && InStep(n) && n.repo.resources == s.repo.resources[id := info]
    ensures HashToInfo(n, h) == FoundWith(s, id, info, h)
  {
    HashFindsHolder(s, h);
    HashFindsHolder(n, h);
    hide InStep, HashToInfo;
    var before, after := s.repo.resources, n.repo.resources;
    if h == info.data.hash {
      assert after[id].data.hash == h;
    } else if id in before && h == before[id].data.hash {
      forall k | k in before && before[k].data.hash == h ensures k == id {
        OneHolder(s, id, k);
      }
    } else {
      if k :| k in before && before[k].data.hash == h {
        assert after[k] == before[k];
      }
      if k :| k in after && after[k].data.hash == h {
        assert k in before && after[k] == before[k];
      }
    }
  }

  lemma OneHolder(s: Tokens, a: nat, b: nat)
    requires InStep(s) && a in s.repo.resources && b in s.repo.resources
    requires s.repo.resources[a].data.hash == s.repo.resources[b].data.hash
    ensures a == b
  {
  }

  /** An added token is there and is found by its hash; every other token's hash finds that one as before. */
  lemma AddLeaves(s: Tokens, id: nat, info: TokenInfo, h: Hash)
    requires InStep(s) && Fresh(s, id, info)
    ensures var n, o := AddToken(s, id, info).0, AddToken(s, id, info).1;
      && (o == if id in s.repo.resources && exists k :: C.Holds(s.repo, k, info.name)
               then Failed(C.AlreadyExists) else Done)
      && (o != Done ==> n == s)
      && (o == Done ==> n.repo.resources == s.repo.resources[id := info])
      && (o == Done ==> HashToInfo(n, h) == FoundWith(s, id, info, h))
  {
    C.InsertLeaves(s.repo, id, info);
    AddInStepIff(s, id, info);
    hide C.Insert, C.Pair, InStep, HashToInfo, FoundWith, Fresh;
    if AddToken(s, id, info).1 == Done {
      LookupsFollow(s, AddToken(s, id, info).0, id, info, h);
    }
  }

  /**
   A new hash for an admin token is refused if another token has it, or if there is no such token;
   else the token keeps its name, has the hash, and says when and by which token it was updated.
   */
  lemma RehashLeaves(s: Tokens, id: nat, hash: Hash, now: int, h: Hash)
    requires InStep(s)
    ensures var n, o := UpdateAdminTokenHash(s, id, hash, now).0, UpdateAdminTokenHash(s, id, hash, now).1;
      && (o == if exists k :: k != id && k in s.repo.resources && s.repo.resources[k].data.hash == hash then HashTaken
               else if id !in s.repo.resources then Missing else Done)
      && (o != Done ==> n == s)
      && (o == Done ==>
            var info := C.Resource(s.repo.resources[id].name, TokenData(hash, Some(now), Some(id)));
            && n.repo.resources == s.repo.resources[id := info]
            && HashToInfo(n, h) == FoundWith(s, id, info, h))
  {
    AdminUpdateInStep(s, id, hash, now);
    if hash in s.hashes.lefts {
      var k := s.hashes.lefts[hash];
      assert k in s.repo.resources && s.repo.resources[k].data.hash == hash;
    }
    if UpdateAdminTokenHash(s, id, hash, now).1 == Done {
      var info := C.Resource(s.repo.resources[id].name, TokenData(hash, Some(now), Some(id)));
      C.UpdateLeaves(s.repo, id, info);
      LookupsFollow(s, UpdateAdminTokenHash(s, id, hash, now).0, id, info, h);
    }
  }

  /** Replacing a record needs the id and a name no other token holds, and changes no other token. */
  lemma ReplaceLeaves(s: Tokens, id: nat, info: TokenInfo)
    requires InStep(s)
    ensures var n, o := UpdateToken(s, id, info).0, UpdateToken(s, id, info).1;
      && (o == Done <==> id in s.repo.resources && forall k :: C.Holds(s.repo, k, info.name) ==> k == id)
      && n.repo.resources == (if o == Done then s.repo.resources[id := info] else s.repo.resources)
  {
    C.UpdateLeaves(s.repo, id, info);
  }

  // ---- Histories ----

  datatype Op =
    | Add(id: nat, info: TokenInfo)
    | Rehash(id: nat, hash: Hash, now: int)
    | Replace(id: nat, info: TokenInfo)
    | Delete(name: string)

  function Do(s: Tokens, op: Op): Tokens {
    match op
    case Add(id, info) => AddToken(s, id, info).0
    case Rehash(id, hash, now) => UpdateAdminTokenHash(s, id, hash, now).0
    case Replace(id, info) => UpdateToken(s, id, info).0
    case Delete(name) => DeleteToken(s, name).0
  }

  /** Added tokens bring fresh names and hashes; replaced records keep their hash. */
  predicate Proper(s: Tokens, op: Op) {
    match op
    case Add(id, info) => Fresh(s, id, info)
    case Replace(id, info) => id in s.repo.resources ==> info.data.hash == s.repo.resources[id].data.hash
    case _ => true
  }

  lemma StepInStep(s: Tokens, op: Op)
    requires InStep(s) && Proper(s, op)
    ensures InStep(Do(s, op))
  {
    match op
    case Add(id, info) => AddInStepIff(s, id, info);
    case Rehash(id, hash, now) => AdminUpdateInStep(s, id, hash, now);
    case Replace(id, info) =>
      C.UpdateInStep(s.repo, id, info);
      if UpdateToken(s, id, info).1.Done? { UpdateInStepIff(s, id, info); }
    case Delete(name) => DeleteInStep(s, name);
  }

  function After(s: Tokens, ops: seq<Op>): Tokens
    decreases |ops|
  {
    if ops == [] then s else After(Do(s, ops[0]), ops[1..])
  }

  predicate AllProper(s: Tokens, ops: seq<Op>)
    decreases |ops|
  {
    ops == [] || (Proper(s, ops[0]) && AllProper(Do(s, ops[0]), ops[1..]))
  }

  lemma {:induction false} HistoryFrom(s: Tokens, ops: seq<Op>)
    requires InStep(s) && AllProper(s, ops)
    ensures InStep(After(s, ops))
    decreases |ops|
  {
    if ops != [] {
      StepInStep(s, ops[0]);
      HistoryFrom(Do(s, ops[0]), ops[1..]);
    }
  }

  /** Over every proper history a hash finds a token exactly if a token holds it. */
  lemma HashLookupExact(max: nat, ops: seq<Op>, hash: Hash)
    requires AllProper(NewTokens(max), ops)
    ensures var s := After(NewTokens(max), ops);
      HashToInfo(s, hash).Some? <==> exists id :: id in s.repo.resources && s.repo.resources[id].data.hash == hash
  {
    HistoryFrom(NewTokens(max), ops);
    HashFindsHolder(After(NewTokens(max), ops), hash);
  }
}
