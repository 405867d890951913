/** Which trigger an HTTP request path leads to, over every history of trigger changes. */
module TriggerRoutes {
  import opened Wrappers

  datatype TriggerKey = TriggerKey(db: nat, trigger: nat)

  datatype Route = Wal(database: string) | Request(path: string)

  datatype Registry = Registry(routes: map<TriggerKey, Route>, paths: map<string, TriggerKey>)

  const NO_ROUTES := Registry(map[], map[])

  /** Forget the path of a route that is going, if it still leads to that trigger. */
  function DropPath(paths: map<string, TriggerKey>, key: TriggerKey, route: Route): map<string, TriggerKey> {
    if route.Request? && route.path in paths && paths[route.path] == key then paths - {route.path} else paths
  }

  function Unrouted(r: Registry, key: TriggerKey): map<string, TriggerKey> {
    if key in r.routes then DropPath(r.paths, key, r.routes[key]) else r.paths
  }

  function AddWal(r: Registry, key: TriggerKey, database: string): Registry {
    Registry(r.routes[key := Wal(database)], Unrouted(r, key))
  }

  function AddRequest(r: Registry, key: TriggerKey, path: string): Registry {
    Registry(r.routes[key := Request(path)], Unrouted(r, key)[path := key])
  }

  function RemoveTrigger(r: Registry, key: TriggerKey): Registry {
    Registry(r.routes - {key}, Unrouted(r, key))
  }

  /** All triggers of a database go. */
  function RemoveDatabase(r: Registry, db: nat): Registry {
    Registry(
      map k | k in r.routes && k.db != db :: r.routes[k],
      map p | p in r.paths && r.paths[p].db != db :: r.paths[p])
  }

  /** The trigger a request leads to: the path must be known and its trigger a request trigger. */
  function RequestTarget(r: Registry, path: string): Option<TriggerKey> {
    if path !in r.paths then None
    else if r.paths[path] !in r.routes || !r.routes[r.paths[path]].Request? then None
    else Some(r.paths[path])
  }

  /** Every path leads to a trigger whose route is a request route for that very path. */
  ghost predicate PathsOk(r: Registry) {
    forall p :: p in r.paths ==> r.paths[p] in r.routes && r.routes[r.paths[p]] == Request(p)
  }

  // ---- Histories ----

  datatype Op =
    | Wals(key: TriggerKey, database: string)
    | Requests(key: TriggerKey, path: string)
    | Removes(key: TriggerKey)
    | RemovesDatabase(db: nat)

  function Do(r: Registry, op: Op): Registry {
    match op
    case Wals(key, database) => AddWal(r, key, database)
    case Requests(key, path) => AddRequest(r, key, path)
    case Removes(key) => RemoveTrigger(r, key)
    case RemovesDatabase(db) => RemoveDatabase(r, db)
  }

  function After(ops: seq<Op>): Registry
    decreases |ops|
  {
    if ops == [] then NO_ROUTES else Do(After(ops[..|ops| - 1]), ops[|ops| - 1])
  }

  /** Whether an operation replaces or removes a trigger's route. */
  predicate Ends(op: Op, key: TriggerKey) {
    match op
    case Wals(k, _) => k == key
    case Requests(k, _) => k == key
    case Removes(k) => k == key
    case RemovesDatabase(db) => key.db == db
  }

  /** `ops[i]` gave the path to `key`; since then no one took the path and nothing ended the trigger's route. */
  ghost predicate HoldsSince(ops: seq<Op>, i: nat, key: TriggerKey, path: string) {
    && i < |ops| && ops[i] == Requests(key, path)
    && (forall j :: i < j < |ops| ==> !Ends(ops[j], key) && !(ops[j].Requests? && ops[j].path == path))
  }

  lemma StepPaths(r: Registry, op: Op)
    requires PathsOk(r)
    ensures PathsOk(Do(r, op))
  {
  }

  /** What one operation does to one path. */
  lemma PathAfter(r: Registry, op: Op, path: string)
    requires PathsOk(r)
    ensures var n := Do(r, op);
      if op.Requests? && op.path == path then path in n.paths && n.paths[path] == op.key
      else path in n.paths <==> path in r.paths && !Ends(op, r.paths[path])
    ensures var n := Do(r, op);
      !(op.Requests? && op.path == path) && path in n.paths ==> path in r.paths && n.paths[path] == r.paths[path]
  {
  }

  lemma {:induction false} PathHistory(ops: seq<Op>, path: string, key: TriggerKey)
    ensures PathsOk(After(ops))
    ensures path in After(ops).paths && After(ops).paths[path] == key <==> exists i :: HoldsSince(ops, i, key, path)
    decreases |ops|
  {
    if ops != [] {
      var before, op := ops[..|ops| - 1], ops[|ops| - 1];
      PathHistory(before, path, key);
      StepPaths(After(before), op);
      PathAfter(After(before), op, path);
      HoldersAfter(ops, key, path);
    }
  }

  lemma HoldersAfter(ops: seq<Op>, key: TriggerKey, path: string)
    requires ops != []
    ensures var before, op := ops[..|ops| - 1], ops[|ops| - 1];
      (exists i :: HoldsSince(ops, i, key, path)) <==>
      (op == Requests(key, path)
       || (!(op.Requests? && op.path == path) && !Ends(op, key) && exists i :: HoldsSince(before, i, key, path)))
  {
    var last := |ops| - 1;
    var before, op := ops[..last], ops[last];
    if op == Requests(key, path) { assert HoldsSince(ops, last, key, path); }
    if i: nat :| HoldsSince(ops, i, key, path) {
      if i < last {
        assert HoldsSince(before, i, key, path) && !Ends(ops[last], key);
      }
    }
    if i: nat :| HoldsSince(before, i, key, path) {
      if !(op.Requests? && op.path == path) && !Ends(op, key) { assert HoldsSince(ops, i, key, path); }
    }
  }

  /**
   A request leads to a trigger exactly if that trigger was the last to be given the path and has
   kept its route since; once the path is found the second lookup cannot fail.
   */
  lemma RequestsFindLastHolder(ops: seq<Op>, path: string, key: TriggerKey)
    ensures RequestTarget(After(ops), path) == Some(key) <==> exists i :: HoldsSince(ops, i, key, path)
    ensures path in After(ops).paths ==> RequestTarget(After(ops), path).Some?
  {
    PathHistory(ops, path, key);
  }

  /** `ops[i]` gave the trigger that route, and nothing ended it since. */
  ghost predicate RoutedSince(ops: seq<Op>, i: nat, key: TriggerKey, route: Route) {
    && i < |ops|
    && (ops[i] == (match route case Wal(database) => Wals(key, database) case Request(path) => Requests(key, path)))
    && (forall j :: i < j < |ops| ==> !Ends(ops[j], key))
  }

  /** A trigger has the route it was given last, until it or its database is removed. */
  lemma {:induction false} RouteIsLastGiven(ops: seq<Op>, key: TriggerKey, route: Route)
    ensures key in After(ops).routes && After(ops).routes[key] == route <==> exists i :: RoutedSince(ops, i, key, route)
    decreases |ops|
  {
    if ops != [] {
      var last := |ops| - 1;
      var before, op := ops[..last], ops[last];
      RouteIsLastGiven(before, key, route);
      if Ends(op, key) {
        assert forall i: nat :: i < last ==> !RoutedSince(ops, i, key, route);
        if key in After(ops).routes && After(ops).routes[key] == route { assert RoutedSince(ops, last, key, route); }
      } else {
        assert After(ops).routes.Keys * {key} == After(before).routes.Keys * {key};
        if i: nat :| RoutedSince(before, i, key, route) { assert RoutedSince(ops, i, key, route); }
        if i: nat :| RoutedSince(ops, i, key, route) { assert RoutedSince(before, i, key, route); }
      }
    }
  }

  // ---- In place ----

  class TriggerRegistry {
    var routes: map<TriggerKey, Route>
    var paths: map<string, TriggerKey>

    ghost function View(): Registry
      reads this
    {
      Registry(routes, paths)
    }

    constructor ()
      ensures View() == NO_ROUTES && PathsOk(View())
    {
      routes, paths := map[], map[];
    }

    method RemoveRequestPathForRoute(key: TriggerKey, route: Route)
      modifies this`paths
      ensures paths == DropPath(old(paths), key, route)
    {
      match route
      case Request(path) =>
        if path in paths && paths[path] == key {
          paths := paths - {path};
        }
      case Wal(_) =>
    }

    method InsertRoute(key: TriggerKey, route: Route)
      modifies this
      ensures routes == old(routes)[key := route] && paths == Unrouted(old(View()), key)
    {
      var replaced := if key in routes then Some(routes[key]) else None;
      routes := routes[key := route];
      if replaced.Some? {
        RemoveRequestPathForRoute(key, replaced.value);
      }
    }

    method AddWalTrigger(key: TriggerKey, database: string)
      requires PathsOk(View())
      modifies this
      ensures View() == AddWal(old(View()), key, database) && PathsOk(View())
    {
      StepPaths(View(), Wals(key, database));
      InsertRoute(key, Wal(database));
    }

    method AddRequestTrigger(key: TriggerKey, path: string)
      requires PathsOk(View())
      modifies this
      ensures View() == AddRequest(old(View()), key, path) && PathsOk(View())
    {
      StepPaths(View(), Requests(key, path));
      InsertRoute(key, Request(path));
      paths := paths[path := key];
    }

    method RemoveOne(key: TriggerKey)
      requires PathsOk(View())
      modifies this
      ensures View() == RemoveTrigger(old(View()), key) && PathsOk(View())
    {
      StepPaths(View(), Removes(key));
      if key in routes {
        var route := routes[key];
        routes := routes - {key};
        RemoveRequestPathForRoute(key, route);
      } else {
        assert routes - {key} == routes;
      }
    }

    /** One trigger of the database at a time. */
    method RemoveAllForDb(db: nat)
      requires PathsOk(View())
      modifies this
      ensures View() == RemoveDatabase(old(View()), db) && PathsOk(View())
    {
      var keys := set k | k in routes && k.db == db;
      while keys != {}
        invariant PathsOk(View()) && keys == set k | k in routes && k.db == db
        invariant RemoveDatabase(View(), db) == RemoveDatabase(old(View()), db)
      {
        var key :| key in keys;
        RemovedFirst(View(), key, db);
        RemoveOne(key);
        keys := keys - {key};
      }
      assert forall k :: k in routes && k.db == db ==> k in keys;
      NoneLeft(View(), db);
    }

    method RequestInvocation(path: string) returns (key: Option<TriggerKey>)
      requires PathsOk(View())
      ensures key == RequestTarget(View(), path) && (key.None? <==> path !in paths)
    {
      if path !in paths {
        return None;
      }
      if paths[path] in routes && routes[paths[path]].Request? {
        return Some(paths[path]);
      }
      assert false;
    }
  }

  lemma RemovedFirst(r: Registry, key: TriggerKey, db: nat)
    requires PathsOk(r) && key.db == db
    ensures RemoveDatabase(RemoveTrigger(r, key), db) == RemoveDatabase(r, db)
  {
  }

  lemma NoneLeft(r: Registry, db: nat)
    requires PathsOk(r) && forall k :: k in r.routes ==> k.db != db
    ensures RemoveDatabase(r, db) == r
  {
  }
}
