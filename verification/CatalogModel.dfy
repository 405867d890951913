/**
 The catalog's repositories as values: resources by id, a two-way map between ids and names, and for
 tokens a two-way map between ids and hashes. What keeps the maps in step, and the one insert that
 does not.
 */
module CatalogModel {
  import opened Wrappers

  // ---- Two-way maps ----

  /** Each left value is paired with one right value and the other way round. */
  datatype BiMap<!L(==), !R(==)> = BiMap(rights: map<L, R>, lefts: map<R, L>)

  ghost predicate Mirrored<L(!new), R(!new)>(m: BiMap<L, R>) {
    && (forall l :: l in m.rights ==> m.rights[l] in m.lefts && m.lefts[m.rights[l]] == l)
    && (forall r :: r in m.lefts ==> m.lefts[r] in m.rights && m.rights[m.lefts[r]] == r)
  }

  function RemoveLeft<L, R>(m: BiMap<L, R>, l: L): BiMap<L, R> {
    if l in m.rights then BiMap(m.rights - {l}, m.lefts - {m.rights[l]}) else m
  }

  function RemoveRight<L, R>(m: BiMap<L, R>, r: R): BiMap<L, R> {
    if r in m.lefts then BiMap(m.rights - {m.lefts[r]}, m.lefts - {r}) else m
  }

  /** Pairs already holding either value give way. */
  function Pair<L, R>(m: BiMap<L, R>, l: L, r: R): BiMap<L, R> {
    var n := RemoveRight(RemoveLeft(m, l), r);
    BiMap(n.rights[l := r], n.lefts[r := l])
  }

  lemma PairMirrored<L(!new), R(!new)>(m: BiMap<L, R>, l: L, r: R)
    requires Mirrored(m)
    ensures Mirrored(Pair(m, l, r)) && Mirrored(RemoveLeft(m, l))
    ensures Pair(m, l, r).rights.Keys ==
      m.rights.Keys + {l} - (if r in m.lefts && m.lefts[r] != l then {m.lefts[r]} else {})
    ensures forall k :: k in Pair(m, l, r).rights ==> Pair(m, l, r).rights[k] == if k == l then r else m.rights[k]
  {
  }

  // ---- Repositories ----

  datatype Resource<T> = Resource(name: string, data: T)

  /** `max` is the largest id there is. */
  datatype Repo<T> = Repo(resources: map<nat, Resource<T>>, names: BiMap<nat, string>, nextId: nat, max: nat)

  /** The source panics where its maps disagree, and where the ids run out. */
  datatype Outcome = Done | AlreadyExists | AlreadyExistsByName | NotFound | Rejected | Panicked | OutOfIds

  function NewRepo<T>(max: nat): Repo<T> { Repo(map[], BiMap(map[], map[]), 0, max) }

  /** The check the source makes before it relies on an id: both maps have it or neither does. */
  predicate IdInStep<T>(s: Repo<T>, id: nat) { id in s.names.rights <==> id in s.resources }

  function Insert<T>(s: Repo<T>, id: nat, r: Resource<T>): (Repo<T>, Outcome) {
    if !IdInStep(s, id) then (s, Panicked)
    else if id in s.resources && r.name in s.names.lefts then (s, AlreadyExists)
    else
      (s.(names := Pair(s.names, id, r.name),
          resources := s.resources[id := r],
          nextId := if s.nextId <= id && id < s.max then id + 1 else s.nextId), Done)
  }

  function Update<T>(s: Repo<T>, id: nat, r: Resource<T>): (Repo<T>, Outcome) {
    if !IdInStep(s, id) then (s, Panicked)
    else if id !in s.resources then (s, NotFound)
    else if r.name in s.names.lefts && s.names.lefts[r.name] != id then (s, AlreadyExistsByName)
    else (s.(names := Pair(s.names, id, r.name), resources := s.resources[id := r]), Done)
  }

  /** The change asked for may itself fail. */
  function Modify<T>(s: Repo<T>, id: nat, f: Resource<T> -> Option<Resource<T>>): (Repo<T>, Outcome) {
    if id !in s.resources then (s, NotFound)
    else match f(s.resources[id])
      case None => (s, Rejected)
      case Some(r) => Update(s, id, r)
  }

  function Remove<T>(s: Repo<T>, id: nat): Repo<T> {
    s.(names := RemoveLeft(s.names, id), resources := s.resources - {id})
  }

  function NextId<T>(s: Repo<T>): (Repo<T>, Outcome) {
    if s.nextId < s.max then (s.(nextId := s.nextId + 1), Done) else (s, OutOfIds)
  }

  function Clear<T>(s: Repo<T>): Repo<T> { s.(names := BiMap(map[], map[]), resources := map[]) }

  /** Ids, names and resources are in bijection, and no id between the next one and the largest is present. */
  ghost predicate InStep<T(!new)>(s: Repo<T>) {
    && Mirrored(s.names)
    && s.names.rights.Keys == s.resources.Keys
    && (forall id :: id in s.resources ==> s.names.rights[id] == s.resources[id].name)
    && (forall id :: id in s.resources ==> id < s.nextId || id >= s.max)
  }

  /** The one insert that breaks the bijection: a new id with a name another id holds. */
  predicate StealsName<T>(s: Repo<T>, id: nat, r: Resource<T>) {
    id !in s.resources && r.name in s.names.lefts
  }

  lemma InsertKeepsStep<T(!new)>(s: Repo<T>, id: nat, r: Resource<T>)
    requires InStep(s) && !StealsName(s, id, r)
    ensures InStep(Insert(s, id, r).0)
  {
    PairMirrored(s.names, id, r.name);
    hide Mirrored, Pair;
  }

  lemma TheftBreaksStep<T(!new)>(s: Repo<T>, id: nat, r: Resource<T>)
    requires InStep(s) && StealsName(s, id, r)
    ensures !InStep(Insert(s, id, r).0)
  {
    PairMirrored(s.names, id, r.name);
    var other := s.names.lefts[r.name];
    assert other in s.resources;
    hide Mirrored, Pair;
    assert other in Insert(s, id, r).0.resources && other !in Insert(s, id, r).0.names.rights;
  }

  /** Inserting keeps the repository in step exactly if it steals no name. */
  lemma InsertInStepIff<T(!new)>(s: Repo<T>, id: nat, r: Resource<T>)
    requires InStep(s)
    ensures InStep(Insert(s, id, r).0) <==> !StealsName(s, id, r)
    ensures Insert(s, id, r).1 == if id in s.resources && r.name in s.names.lefts then AlreadyExists else Done
  {
    assert IdInStep(s, id);
    hide InStep;
    if StealsName(s, id, r) {
      TheftBreaksStep(s, id, r);
    } else {
      InsertKeepsStep(s, id, r);
    }
  }

  /** A stolen name makes the next look at its former owner panic. */
  lemma StolenNamePanics<T(!new)>(s: Repo<T>, id: nat, r: Resource<T>, other: Resource<T>)
    requires InStep(s) && StealsName(s, id, r)
    ensures Update(Insert(s, id, r).0, s.names.lefts[r.name], other).1 == Panicked
  {
  }

  lemma UpdateInStep<T(!new)>(s: Repo<T>, id: nat, r: Resource<T>)
    requires InStep(s)
    ensures InStep(Update(s, id, r).0) && Update(s, id, r).1 != Panicked
    ensures Update(s, id, r).1 != Done ==> Update(s, id, r).0 == s
    ensures Update(s, id, r).1 == Done <==>
      id in s.resources && forall k :: k in s.resources && s.resources[k].name == r.name ==> k == id
  {
    PairMirrored(s.names, id, r.name);
    if r.name in s.names.lefts {
      var k := s.names.lefts[r.name];
      assert k in s.resources && s.resources[k].name == r.name;
    }
  }

  lemma RemoveInStep<T(!new)>(s: Repo<T>, id: nat)
    requires InStep(s)
    ensures InStep(Remove(s, id)) && Remove(s, id).resources == s.resources - {id}
  {
  }

  // ---- What each operation leaves, in terms of the resources alone ----

  predicate Holds<T>(s: Repo<T>, id: nat, name: string) { id in s.resources && s.resources[id].name == name }

  /** A name leads to exactly the resource that holds it. */
  lemma NameFindsHolder<T(!new)>(s: Repo<T>, name: string)
    requires InStep(s)
    ensures name in s.names.lefts <==> exists id :: Holds(s, id, name)
    ensures forall id :: Holds(s, id, name) ==> name in s.names.lefts && s.names.lefts[name] == id
  {
    if name in s.names.lefts {
      assert Holds(s, s.names.lefts[name], name);
    }
  }

  /** An insert is refused exactly if both its id and its name are there; else the id has the resource. */
  lemma InsertLeaves<T(!new)>(s: Repo<T>, id: nat, r: Resource<T>)
    requires InStep(s)
    ensures var refused := id in s.resources && exists k :: Holds(s, k, r.name);
      && Insert(s, id, r).1 == (if refused then AlreadyExists else Done)
      && Insert(s, id, r).0.resources == (if refused then s.resources else s.resources[id := r])
      && Insert(s, id, r).0.nextId == if !refused && s.nextId <= id < s.max then id + 1 else s.nextId
  {
    NameFindsHolder(s, r.name);
    InsertInStepIff(s, id, r);
  }

  /** An update needs the id and a name no other resource holds; then the id has the new resource. */
  lemma UpdateLeaves<T(!new)>(s: Repo<T>, id: nat, r: Resource<T>)
    requires InStep(s)
    ensures var taken := exists k :: k != id && Holds(s, k, r.name);
      && Update(s, id, r).1 ==
        (if id !in s.resources then NotFound else if taken then AlreadyExistsByName else Done)
      && Update(s, id, r).0.resources ==
        (if id !in s.resources || taken then s.resources else s.resources[id := r])
      && Update(s, id, r).0.nextId == s.nextId
  {
    NameFindsHolder(s, r.name);
    UpdateInStep(s, id, r);
    if r.name in s.names.lefts {
      assert Holds(s, s.names.lefts[r.name], r.name);
    }
  }

  /** A change writes back what it made of the resource, as an update; a change that fails, nothing. */
  lemma ModifyLeaves<T(!new)>(s: Repo<T>, id: nat, f: Resource<T> -> Option<Resource<T>>)
    requires InStep(s)
    ensures id !in s.resources ==> Modify(s, id, f) == (s, NotFound)
    ensures id in s.resources && f(s.resources[id]).None? ==> Modify(s, id, f) == (s, Rejected)
    ensures id in s.resources && f(s.resources[id]).Some? ==>
      var r := f(s.resources[id]).value;
      var taken := exists k :: k != id && Holds(s, k, r.name);
      && Modify(s, id, f).1 == (if taken then AlreadyExistsByName else Done)
      && Modify(s, id, f).0.resources == (if taken then s.resources else s.resources[id := r])
      && Modify(s, id, f).0.nextId == s.nextId
  {
    if id in s.resources && f(s.resources[id]).Some? {
      UpdateLeaves(s, id, f(s.resources[id]).value);
    }
  }

  /** A removed resource's name leads nowhere and its id stays used; a clear leaves nothing but that. */
  lemma RemovalsLeave<T(!new)>(s: Repo<T>, id: nat)
    requires InStep(s)
    ensures Remove(s, id).resources == s.resources - {id} && Remove(s, id).nextId == s.nextId
    ensures id in s.resources ==> s.resources[id].name !in Remove(s, id).names.lefts
    ensures forall name, k :: k != id && Holds(s, k, name) ==>
      name in Remove(s, id).names.lefts && Remove(s, id).names.lefts[name] == k
    ensures Clear(s).resources == map[] && Clear(s).names.lefts == map[] && Clear(s).names.rights == map[]
    ensures Clear(s).nextId == s.nextId && InStep(Clear(s))
  {
  }

  // ---- Histories ----

  datatype Op<!T> =
    | DoInsert(id: nat, resource: Resource<T>)
    | DoUpdate(id: nat, resource: Resource<T>)
    | DoModify(id: nat, f: Resource<T> -> Option<Resource<T>>)
    | DoRemove(id: nat)
    | DoClear
    | DoNextId

  function Do<T>(s: Repo<T>, op: Op<T>): (Repo<T>, Outcome) {
    match op
    case DoInsert(id, r) => Insert(s, id, r)
    case DoUpdate(id, r) => Update(s, id, r)
    case DoModify(id, f) => Modify(s, id, f)
    case DoRemove(id) => (Remove(s, id), Done)
    case DoClear => (Clear(s), Done)
    case DoNextId => NextId(s)
  }

  predicate Steals<T>(s: Repo<T>, op: Op<T>) { op.DoInsert? && StealsName(s, op.id, op.resource) }

  /** Every step keeps the bijection, panics never, and changes nothing when it fails. */
  lemma StepInStep<T(!new)>(s: Repo<T>, op: Op<T>)
    requires InStep(s) && !Steals(s, op)
    ensures InStep(Do(s, op).0) && Do(s, op).1 != Panicked && s.nextId <= Do(s, op).0.nextId
    ensures Do(s, op).1 != Done ==> Do(s, op).0 == s
  {
    match op
    case DoInsert(id, r) => InsertInStepIff(s, id, r);
    case DoUpdate(id, r) => UpdateInStep(s, id, r);
    case DoModify(id, f) =>
      if id in s.resources {
        match f(s.resources[id])
        case None =>
        case Some(r) => UpdateInStep(s, id, r);
      }
    case DoRemove(id) => RemoveInStep(s, id);
    case _ =>
  }

  function After<T>(s: Repo<T>, ops: seq<Op<T>>): Repo<T>
    decreases |ops|
  {
    if ops == [] then s else After(Do(s, ops[0]).0, ops[1..])
  }

  predicate NoTheft<T>(s: Repo<T>, ops: seq<Op<T>>)
    decreases |ops|
  {
    ops == [] || (!Steals(s, ops[0]) && NoTheft(Do(s, ops[0]).0, ops[1..]))
  }

  predicate Panics<T>(s: Repo<T>, ops: seq<Op<T>>)
    decreases |ops|
  {
    ops != [] && (Do(s, ops[0]).1.Panicked? || Panics(Do(s, ops[0]).0, ops[1..]))
  }

  lemma {:induction false} HistoryFrom<T(!new)>(s: Repo<T>, ops: seq<Op<T>>)
    requires InStep(s) && NoTheft(s, ops)
    ensures InStep(After(s, ops)) && !Panics(s, ops) && s.nextId <= After(s, ops).nextId
    decreases |ops|
  {
    if ops != [] {
      StepInStep(s, ops[0]);
      HistoryFrom(Do(s, ops[0]).0, ops[1..]);
    }
  }

  /** Over every history without a stolen name the maps stay in bijection and no check panics. */
  lemma HistoryInStep<T(!new)>(max: nat, ops: seq<Op<T>>)
    requires NoTheft(NewRepo<T>(max), ops)
    ensures InStep(After(NewRepo<T>(max), ops)) && !Panics(NewRepo<T>(max), ops)
  {
    HistoryFrom(NewRepo<T>(max), ops);
  }

  // ---- Ids are never reused ----

  /** The ids handed out, in order. */
  function Handed<T>(s: Repo<T>, ops: seq<Op<T>>): seq<nat>
    decreases |ops|
  {
    if ops == [] then []
    else (if ops[0].DoNextId? && s.nextId < s.max then [s.nextId] else []) + Handed(Do(s, ops[0]).0, ops[1..])
  }

  /** The ids something was ever inserted under, removed since or not. */
  function Inserted<T>(s: Repo<T>, ops: seq<Op<T>>): set<nat>
    decreases |ops|
  {
    if ops == [] then {}
    else
      (if ops[0].DoInsert? && Do(s, ops[0]).1.Done? then {ops[0].id} else {}) + Inserted(Do(s, ops[0]).0, ops[1..])
  }

  lemma StepForward<T(!new)>(s: Repo<T>, op: Op<T>)
    ensures var n := Do(s, op).0;
      && s.nextId <= n.nextId && n.max == s.max
      && (op.DoNextId? && s.nextId < s.max ==> s.nextId < n.nextId)
      && (op.DoInsert? && Do(s, op).1.Done? ==> op.id < n.nextId || op.id >= s.max)
  {
  }

  ghost predicate Ascending(h: seq<nat>, low: nat, high: nat) {
    && (forall i, j :: 0 <= i < j < |h| ==> h[i] < h[j])
    && (forall i :: 0 <= i < |h| ==> low <= h[i] < high)
  }

  lemma AscendingCons(low: nat, h: seq<nat>, mid: nat, high: nat)
    requires low < mid <= high && Ascending(h, mid, high)
    ensures Ascending([low] + h, low, high)
  {
    var n := [low] + h;
    assert forall i :: 0 < i < |n| ==> n[i] == h[i - 1];
  }

  lemma {:induction false} Forward<T(!new)>(s: Repo<T>, ops: seq<Op<T>>)
    ensures s.nextId <= After(s, ops).nextId && After(s, ops).max == s.max
    decreases |ops|
  {
    if ops != [] {
      hide Do;
      StepForward(s, ops[0]);
      Forward(Do(s, ops[0]).0, ops[1..]);
    }
  }

  lemma {:induction false} HandedAscend<T(!new)>(s: Repo<T>, ops: seq<Op<T>>)
    ensures Ascending(Handed(s, ops), s.nextId, After(s, ops).nextId)
    decreases |ops|
  {
    if ops != [] {
      hide Do;
      var n, rest := Do(s, ops[0]).0, ops[1..];
      StepForward(s, ops[0]);
      HandedAscend(n, rest);
      if ops[0].DoNextId? && s.nextId < s.max {
        Forward(n, rest);
        AscendingCons(s.nextId, Handed(n, rest), n.nextId, After(n, rest).nextId);
      } else {
        assert [] + Handed(n, rest) == Handed(n, rest);
      }
    }
  }

  lemma {:induction false} InsertedBelow<T(!new)>(s: Repo<T>, ops: seq<Op<T>>)
    ensures forall id :: id in Inserted(s, ops) ==> id < After(s, ops).nextId || id >= s.max
    decreases |ops|
  {
    if ops != [] {
      hide Do;
      StepForward(s, ops[0]);
      Forward(Do(s, ops[0]).0, ops[1..]);
      InsertedBelow(Do(s, ops[0]).0, ops[1..]);
    }
  }

  /**
   Over every history, stolen names or not: the ids handed out are pairwise distinct, and the one
   handed out next was never handed out and never inserted before, present or removed since.
   */
  lemma NeverReused<T(!new)>(max: nat, ops: seq<Op<T>>)
    ensures var s := NewRepo<T>(max);
      && (forall i, j :: 0 <= i < j < |Handed(s, ops)| ==> Handed(s, ops)[i] != Handed(s, ops)[j])
      && (NextId(After(s, ops)).1.Done? ==>
            After(s, ops).nextId !in Handed(s, ops) && After(s, ops).nextId !in Inserted(s, ops))
  {
    HandedAscend(NewRepo<T>(max), ops);
    InsertedBelow(NewRepo<T>(max), ops);
    Forward(NewRepo<T>(max), ops);
  }

  /** Two inserts under one name, then an update of the first. */
  function Theft<T>(name: string, data: T): seq<Op<T>> {
    [DoInsert(0, Resource(name, data)), DoInsert(1, Resource(name, data)), DoUpdate(0, Resource(name, data))]
  }

  lemma TheftPanics<T(!new)>(max: nat, name: string, data: T)
    ensures Panics(NewRepo<T>(max), Theft(name, data))
  {
  }
}
