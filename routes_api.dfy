/**
 * The per-user route store behind the REST handlers: routes owned by users, each with a name,
 * optional JSON parameters and a creation time, and clients (delivery stops) that belong to a
 * route. Every handler looks the route up scoped to the caller and answers 404 when the caller
 * does not own it. A status of 500 stands for an uncaught exception; the request's transaction
 * is then rolled back, so the store is unchanged.
 */
module RoutesApi {
  import opened Common

  /** A JSON value. */
  datatype Json = JNull | JBool(b: bool) | JNumber(x: real) | JString(s: string)
                | JArray(items: seq<Json>) | JObject(fields: map<string, Json>)

  /** Python truthiness of a JSON value. */
  predicate Truthy(j: Json) {
    match j
    case JNull => false
    case JBool(b) => b
    case JNumber(x) => x != 0.0
    case JString(s) => s != ""
    case JArray(items) => items != []
    case JObject(fields) => fields != map[]
  }

  /** A key of a request body: absent, present with null, or present with a value. */
  datatype Key<+T> = Absent | Null | Given(v: T)

  /** One entry of a request's `clients` list. */
  datatype ClientInput = ClientInput(name: Key<string>, lat: Key<real>, lon: Key<real>,
                                     windowFrom: Key<string>, windowTo: Key<string>, demand: Key<real>)

  datatype RouteRow = RouteRow(owner: int, name: string, parameters: Option<map<string, Json>>, createdAt: int)

  datatype ClientRow = ClientRow(routeId: int, name: string, lat: real, lon: real,
                                 windowFrom: Option<string>, windowTo: Option<string>, demand: Option<real>)

  const DistanceMatrixKey := "distance_matrix"

  function KeyOr<T>(k: Key<T>, d: T): T {
    if k.Given? then k.v else d
  }

  function KeyValue<T>(k: Key<T>): Option<T> {
    if k.Given? then Some(k.v) else None
  }

  // ---------------------------------------------------------------------------
  // Clients
  // ---------------------------------------------------------------------------

  /**
   * A client entry can be stored: its name defaults to "Client" only when the key is absent
   * (an explicit null violates the NOT NULL column), and `float(c["lat"])`, `float(c["lon"])`
   * need both coordinates present and non-null.
   */
  predicate Storable(c: ClientInput) {
    !c.name.Null? && c.lat.Given? && c.lon.Given?
  }

  predicate AllStorable(cs: seq<ClientInput>) {
    forall i :: 0 <= i < |cs| ==> Storable(cs[i])
  }

  function ToClientRow(c: ClientInput, routeId: int): (r: ClientRow)
    requires Storable(c)
    ensures r.routeId == routeId && r.lat == c.lat.v && r.lon == c.lon.v
    ensures c.name.Absent? ==> r.name == "Client"
    ensures c.name.Given? ==> r.name == c.name.v
    ensures r.windowFrom == KeyValue(c.windowFrom) && r.windowTo == KeyValue(c.windowTo)
    ensures r.demand == KeyValue(c.demand)
  {
    ClientRow(routeId, KeyOr(c.name, "Client"), c.lat.v, c.lon.v,
              KeyValue(c.windowFrom), KeyValue(c.windowTo), KeyValue(c.demand))
  }

  /** The rows the first `n` client entries become, numbered from `next`. */
  function FirstRows(next: int, routeId: int, cs: seq<ClientInput>, n: nat): (r: map<int, ClientRow>)
    requires AllStorable(cs) && n <= |cs|
    ensures forall k :: k in r <==> next <= k < next + n
  {
    if n == 0 then map[]
    else FirstRows(next, routeId, cs, n - 1)[next + n - 1 := ToClientRow(cs[n - 1], routeId)]
  }

  /** Row `next + i` is entry `i`, stored on that route. */
  lemma {:induction false} FirstRowsAreEntries(next: int, routeId: int, cs: seq<ClientInput>, n: nat)
    requires AllStorable(cs) && n <= |cs|
    ensures forall k :: k in FirstRows(next, routeId, cs, n) ==>
      FirstRows(next, routeId, cs, n)[k] == ToClientRow(cs[k - next], routeId)
  {
    if n > 0 {
      FirstRowsAreEntries(next, routeId, cs, n - 1);
    }
  }

  /** The rows a list of client entries becomes, numbered from `next`. */
  function NewClients(next: int, routeId: int, cs: seq<ClientInput>): (r: map<int, ClientRow>)
    requires AllStorable(cs)
  {
    FirstRows(next, routeId, cs, |cs|)
  }

  /** The clients of one route. */
  function ClientsOf(clients: map<int, ClientRow>, routeId: int): (r: map<int, ClientRow>)
    ensures forall k :: k in r <==> k in clients && clients[k].routeId == routeId
    ensures forall k :: k in r ==> r[k] == clients[k]
  {
    map k | k in clients && clients[k].routeId == routeId :: clients[k]
  }

  /** The clients of every route but one. */
  function WithoutRouteClients(clients: map<int, ClientRow>, routeId: int): (r: map<int, ClientRow>)
    ensures forall k :: k in r <==> k in clients && clients[k].routeId != routeId
    ensures forall k :: k in r ==> r[k] == clients[k]
  {
    map k | k in clients && clients[k].routeId != routeId :: clients[k]
  }

  /** Replacing a route's clients wholesale: its old clients go, the new ones come, others stay. */
  function ReplaceClients(clients: map<int, ClientRow>, routeId: int, next: int, cs: seq<ClientInput>): map<int, ClientRow>
    requires AllStorable(cs)
  {
    WithoutRouteClients(clients, routeId) + NewClients(next, routeId, cs)
  }

  lemma {:induction false} ReplaceClientsIsWholesale(clients: map<int, ClientRow>, routeId: int, next: int,
                                                     cs: seq<ClientInput>, other: int)
    requires AllStorable(cs)
    requires forall k :: k in clients ==> k < next
    requires other != routeId
    ensures ClientsOf(ReplaceClients(clients, routeId, next, cs), routeId) == NewClients(next, routeId, cs)
    ensures ClientsOf(ReplaceClients(clients, routeId, next, cs), other) == ClientsOf(clients, other)
  {
    var after := ReplaceClients(clients, routeId, next, cs);
    var added := NewClients(next, routeId, cs);
    FirstRowsAreEntries(next, routeId, cs, |cs|);
    forall k | k in added
      ensures k in after && after[k] == added[k] && after[k].routeId == routeId
    {
    }
    assert ClientsOf(after, routeId) == added;
    assert ClientsOf(after, other) == ClientsOf(clients, other);
  }

  lemma MergeThenSet(a: map<int, ClientRow>, b: map<int, ClientRow>, k: int, v: ClientRow)
    ensures a + b[k := v] == (a + b)[k := v]
  {
  }

  /** `for c in clients: db.session.add(Client(...))`, numbering new rows from `next`. */
  method InsertClients(clients: map<int, ClientRow>, next: int, routeId: int, cs: seq<ClientInput>)
    returns (r: map<int, ClientRow>)
    requires AllStorable(cs)
    ensures r == clients + NewClients(next, routeId, cs)
  {
    r := clients;
    var i := 0;
    while i < |cs|
      invariant 0 <= i <= |cs|
      invariant r == clients + FirstRows(next, routeId, cs, i)
    {
      MergeThenSet(clients, FirstRows(next, routeId, cs, i), next + i, ToClientRow(cs[i], routeId));
      r := r[next + i := ToClientRow(cs[i], routeId)];
      i := i + 1;
    }
  }

  // ---------------------------------------------------------------------------
  // Field updates
  // ---------------------------------------------------------------------------

  /** `(data.get("name") or "").strip()` on creation. */
  function NameOnCreate(name: Key<string>): (r: string)
    ensures name.Given? ==> r == PyStrip(name.v)
    ensures !name.Given? ==> r == ""
  {
    PyStrip(KeyOr(name, ""))
  }

  /** `(data.get("name") or r.name).strip()` when the key is present; absent leaves the name alone. */
  function NameOnUpdate(current: string, name: Key<string>): (r: string)
    ensures name.Absent? ==> r == current
    ensures name.Null? ==> r == PyStrip(current)
    ensures name.Given? && name.v == "" ==> r == PyStrip(current)
    ensures name.Given? && name.v != "" ==> r == PyStrip(name.v)
  {
    match name
    case Absent => current
    case Null => PyStrip(current)
    case Given(s) => if s != "" then PyStrip(s) else PyStrip(current)
  }

  /**
   * `data.get("parameters") or {}` on creation: a falsy value gives the empty object, an object
   * is stored as is, and any other truthy value is refused by the dictionary-typed column.
   */
  function ParametersOnCreate(parameters: Key<Json>): (r: Option<map<string, Json>>)
    ensures r.None? <==> parameters.Given? && Truthy(parameters.v) && !parameters.v.JObject?
    ensures parameters.Given? && parameters.v.JObject? ==> r == Some(parameters.v.fields)
    ensures !(parameters.Given? && Truthy(parameters.v)) ==> r == Some(map[])
  {
    if parameters.Given? && Truthy(parameters.v) then
      if parameters.v.JObject? then Some(parameters.v.fields) else None
    else Some(map[])
  }

  /**
   * `data.get("parameters") or r.parameters` when the key is present: `Ok` of the new value, or
   * `Err` when a truthy non-object is refused by the column.
   */
  function ParametersOnUpdate(current: Option<map<string, Json>>, parameters: Key<Json>)
    : (r: Result<Option<map<string, Json>>, int>)
    ensures parameters.Absent? ==> r == Ok(current)
    ensures !(parameters.Given? && Truthy(parameters.v)) ==> r == Ok(current)
    ensures parameters.Given? && Truthy(parameters.v) && parameters.v.JObject? ==> r == Ok(Some(parameters.v.fields))
    ensures r.Err? <==> parameters.Given? && Truthy(parameters.v) && !parameters.v.JObject?
  {
    if parameters.Given? && Truthy(parameters.v) then
      if parameters.v.JObject? then Ok(Some(parameters.v.fields)) else Err(500)
    else Ok(current)
  }

  /** `not matrix or not isinstance(matrix, list)` rejects the upload. */
  predicate ValidMatrix(matrix: Key<Json>) {
    matrix.Given? && matrix.v.JArray? && matrix.v.items != []
  }

  /** `r.parameters = r.parameters or {}; r.parameters["distance_matrix"] = matrix`. */
  function WithMatrix(current: Option<map<string, Json>>, matrix: Json): (r: map<string, Json>)
    ensures DistanceMatrixKey in r && r[DistanceMatrixKey] == matrix
    ensures forall k :: k in r && k != DistanceMatrixKey <==> current.Some? && k in current.value && k != DistanceMatrixKey
    ensures forall k :: k in r && k != DistanceMatrixKey ==> r[k] == current.value[k]
  {
    GetOr(current, map[])[DistanceMatrixKey := matrix]
  }

  // ---------------------------------------------------------------------------
  // Listing
  // ---------------------------------------------------------------------------

  function CreatedAt(routes: map<int, RouteRow>, id: int): int {
    if id in routes then routes[id].createdAt else 0
  }

  /** Newest first: creation times never increase along the list. */
  ghost predicate NewestFirst(routes: map<int, RouteRow>, ids: seq<int>) {
    forall i, j :: 0 <= i < j < |ids| ==> CreatedAt(routes, ids[i]) >= CreatedAt(routes, ids[j])
  }

  ghost predicate Distinct(ids: seq<int>) {
    forall i, j :: 0 <= i < j < |ids| ==> ids[i] != ids[j]
  }

  /** Inserts `id` after every route at least as new and before the first older one. */
  function InsertByAge(routes: map<int, RouteRow>, ids: seq<int>, id: int): (r: seq<int>)
    ensures |r| == |ids| + 1
    ensures forall x :: x in r <==> x in ids || x == id
  {
    if ids == [] then [id]
    else if CreatedAt(routes, ids[0]) < CreatedAt(routes, id) then [id] + ids
    else
      var rest := InsertByAge(routes, ids[1..], id);
      assert forall x :: x in ids <==> x == ids[0] || x in ids[1..];
      [ids[0]] + rest
  }

  lemma {:induction false} InsertByAgeKeepsNewestFirst(routes: map<int, RouteRow>, ids: seq<int>, id: int)
    requires NewestFirst(routes, ids)
    ensures NewestFirst(routes, InsertByAge(routes, ids, id))
  {
    if ids == [] || CreatedAt(routes, ids[0]) < CreatedAt(routes, id) {
      NewestFirstCons(routes, id, ids);
    } else {
      var rest := InsertByAge(routes, ids[1..], id);
      assert NewestFirst(routes, ids[1..]);
      InsertByAgeKeepsNewestFirst(routes, ids[1..], id);
      forall k | 0 <= k < |rest|
        ensures CreatedAt(routes, ids[0]) >= CreatedAt(routes, rest[k])
      {
        if rest[k] != id {
          assert rest[k] in ids[1..];
          var j :| 0 <= j < |ids[1..]| && ids[1..][j] == rest[k];
          assert ids[j + 1] == rest[k];
        }
      }
      NewestFirstCons(routes, ids[0], rest);
    }
  }

  lemma NewestFirstCons(routes: map<int, RouteRow>, h: int, t: seq<int>)
    requires NewestFirst(routes, t)
    requires forall k :: 0 <= k < |t| ==> CreatedAt(routes, h) >= CreatedAt(routes, t[k])
    ensures NewestFirst(routes, [h] + t)
  {
    var r := [h] + t;
    forall i, j | 0 <= i < j < |r| ensures CreatedAt(routes, r[i]) >= CreatedAt(routes, r[j]) {
      assert r[j] == t[j - 1];
      if i > 0 {
        assert r[i] == t[i - 1];
      }
    }
  }

  lemma {:induction false} InsertByAgeKeepsDistinct(routes: map<int, RouteRow>, ids: seq<int>, id: int)
    requires Distinct(ids) && id !in ids
    ensures Distinct(InsertByAge(routes, ids, id))
  {
    if ids != [] && CreatedAt(routes, ids[0]) >= CreatedAt(routes, id) {
      var rest := InsertByAge(routes, ids[1..], id);
      assert Distinct(ids[1..]) by {
        forall i, j | 0 <= i < j < |ids[1..]|
          ensures ids[1..][i] != ids[1..][j]
        {
          assert ids[1..][i] == ids[i + 1] && ids[1..][j] == ids[j + 1];
        }
      }
      InsertByAgeKeepsDistinct(routes, ids[1..], id);
      assert ids[0] !in ids[1..];
      var r := [ids[0]] + rest;
      forall i, j | 0 <= i < j < |r|
        ensures r[i] != r[j]
      {
        if i > 0 {
          assert r[i] == rest[i - 1] && r[j] == rest[j - 1];
        } else {
          assert r[j] in rest;
        }
      }
    }
  }

  /** A non-empty set has a member. */
  lemma HasMember(s: set<int>)
    requires s != {}
    ensures exists x :: x in s
  {
    if forall x :: x !in s {
      assert false;
    }
  }

  /** `Route.query.filter_by(user_id=uid).order_by(Route.created_at.desc())`, as route ids. */
  method OwnedNewestFirst(routes: map<int, RouteRow>, uid: int) returns (ids: seq<int>)
    ensures forall id :: id in ids <==> id in routes && routes[id].owner == uid
    ensures Distinct(ids)
    ensures NewestFirst(routes, ids)
  {
    var pending := set id | id in routes && routes[id].owner == uid;
    ids := [];
    while pending != {}
      invariant forall x :: x in ids ==> x in routes && routes[x].owner == uid
      invariant forall x :: x in pending ==> x in routes && routes[x].owner == uid
      invariant forall x :: x in routes && routes[x].owner == uid ==> x in ids || x in pending
      invariant forall x :: x in pending ==> x !in ids
      invariant Distinct(ids)
      invariant NewestFirst(routes, ids)
      decreases pending
    {
      HasMember(pending);
      var next :| next in pending;
      InsertByAgeKeepsNewestFirst(routes, ids, next);
      InsertByAgeKeepsDistinct(routes, ids, next);
      ids := InsertByAge(routes, ids, next);
      pending := pending - {next};
    }
  }

  // ---------------------------------------------------------------------------
  // The store
  // ---------------------------------------------------------------------------

  /**
   * Every stored id is below the next one handed out, and every client belongs to a stored
   * route. The counters only grow, so the model never hands out an id again.
   */
  ghost predicate StoreInvariant(routes: map<int, RouteRow>, clients: map<int, ClientRow>,
                                 nextRouteId: int, nextClientId: int) {
    && (forall id :: id in routes ==> id < nextRouteId)
    && (forall k :: k in clients ==> k < nextClientId && clients[k].routeId in routes)
  }

  /** A new route with its new clients keeps the invariant. */
  lemma CreateKeepsInvariant(routes: map<int, RouteRow>, clients: map<int, ClientRow>, nextRouteId: int,
                             nextClientId: int, row: RouteRow, cs: seq<ClientInput>)
    requires StoreInvariant(routes, clients, nextRouteId, nextClientId) && AllStorable(cs)
    ensures StoreInvariant(routes[nextRouteId := row], clients + NewClients(nextClientId, nextRouteId, cs),
                           nextRouteId + 1, nextClientId + |cs|)
  {
    FirstRowsAreEntries(nextClientId, nextRouteId, cs, |cs|);
  }

  /** Rewriting a stored route and replacing its clients keeps the invariant. */
  lemma UpdateKeepsInvariant(routes: map<int, RouteRow>, clients: map<int, ClientRow>, nextRouteId: int,
                             nextClientId: int, routeId: int, row: RouteRow, cs: seq<ClientInput>)
    requires StoreInvariant(routes, clients, nextRouteId, nextClientId) && AllStorable(cs) && routeId in routes
    ensures StoreInvariant(routes[routeId := row], ReplaceClients(clients, routeId, nextClientId, cs),
                           nextRouteId, nextClientId + |cs|)
  {
    FirstRowsAreEntries(nextClientId, routeId, cs, |cs|);
  }

  class RouteStore {
    var routes: map<int, RouteRow>
    var clients: map<int, ClientRow>
    var nextRouteId: int
    var nextClientId: int

    ghost predicate Valid()
      reads this
    {
      StoreInvariant(routes, clients, nextRouteId, nextClientId)
    }

    predicate Owned(uid: int, routeId: int)
      reads this
    {
      routeId in routes && routes[routeId].owner == uid
    }

    constructor ()
      ensures routes == map[] && clients == map[] && Valid()
    {
      routes := map[];
      clients := map[];
      nextRouteId := 1;
      nextClientId := 1;
    }

    /** `list_routes`: the caller's routes, newest first. */
    method ListRoutes(uid: int) returns (ids: seq<int>)
      ensures forall id :: id in ids <==> Owned(uid, id)
      ensures Distinct(ids) && NewestFirst(routes, ids)
    {
      ids := OwnedNewestFirst(routes, uid);
    }

    /**
     * `create_route`: 400 for a name that is blank after stripping, 500 for parameters the
     * column refuses or a client entry that cannot be stored, otherwise one new route owned by
     * the caller with its clients, and `Ok` of its id.
     */
    method CreateRoute(uid: int, name: Key<string>, parameters: Key<Json>, clientList: Key<seq<ClientInput>>, now: int)
      returns (response: Result<int, int>)
      requires Valid()
      modifies this
      ensures Valid()
      ensures NameOnCreate(name) == "" ==> response == Err(400)
      ensures response.Err? ==> unchanged(this)
      ensures response.Err? <==> NameOnCreate(name) == "" || ParametersOnCreate(parameters).None?
                                 || !AllStorable(KeyOr(clientList, []))
      ensures NameOnCreate(name) != "" && response.Err? ==> response == Err(500)
      ensures response.Ok? ==>
        && response.value == old(nextRouteId) && response.value !in old(routes)
        && routes == old(routes)[response.value := RouteRow(uid, NameOnCreate(name), ParametersOnCreate(parameters), now)]
        && clients == old(clients) + NewClients(old(nextClientId), response.value, KeyOr(clientList, []))
        && nextRouteId == old(nextRouteId) + 1
        && nextClientId == old(nextClientId) + |KeyOr(clientList, [])|
    {
      var n := PyStrip(KeyOr(name, ""));
      var cs := KeyOr(clientList, []);
      if n == "" {
        return Err(400);
      }
      var params := ParametersOnCreate(parameters);
      if params.None? {
        return Err(500);
      }
      var i := 0;
      while i < |cs|
        invariant 0 <= i <= |cs|
        invariant forall j :: 0 <= j < i ==> Storable(cs[j])
      {
        if !Storable(cs[i]) {
          return Err(500);
        }
        i := i + 1;
      }
      var id := nextRouteId;
      CreateKeepsInvariant(routes, clients, nextRouteId, nextClientId, RouteRow(uid, n, params, now), cs);
      var added := InsertClients(clients, nextClientId, id, cs);
      routes, clients := routes[id := RouteRow(uid, n, params, now)], added;
      nextRouteId, nextClientId := nextRouteId + 1, nextClientId + |cs|;
      response := Ok(id);
    }

    /**
     * `update_route`: 404 for a route the caller does not own; otherwise the present keys are
     * applied (name, parameters, the client list replaced wholesale), or 500 and nothing changes
     * when the new parameters or a new client cannot be stored.
     */
    method UpdateRoute(uid: int, routeId: int, name: Key<string>, parameters: Key<Json>,
                       clientList: Key<seq<ClientInput>>)
      returns (status: int)
      requires Valid()
      modifies this
      ensures Valid()
      ensures !old(Owned(uid, routeId)) ==> status == 404
      ensures status != 200 ==> unchanged(this)
      ensures old(Owned(uid, routeId)) ==>
        (status == 500 <==> ParametersOnUpdate(old(routes[routeId].parameters), parameters).Err?
                             || (clientList.Given? && !AllStorable(clientList.v)))
      ensures (old(Owned(uid, routeId)) && ParametersOnUpdate(old(routes[routeId].parameters), parameters).Ok?
               && !(clientList.Given? && !AllStorable(clientList.v))) ==> status == 200
      ensures status == 200 ==>
        && old(Owned(uid, routeId))
        && routes == old(routes)[routeId := old(routes[routeId]).(
             name := NameOnUpdate(old(routes[routeId].name), name),
             parameters := ParametersOnUpdate(old(routes[routeId].parameters), parameters).value)]
        && (clientList.Absent? ==> clients == old(clients) && nextClientId == old(nextClientId))
        && (!clientList.Absent? ==>
              clients == ReplaceClients(old(clients), routeId, old(nextClientId), KeyOr(clientList, []))
              && nextClientId == old(nextClientId) + |KeyOr(clientList, [])|)
        && nextRouteId == old(nextRouteId)
    {
      if !(routeId in routes && routes[routeId].owner == uid) {
        return 404;
      }
      var r := routes[routeId];
      var params := ParametersOnUpdate(r.parameters, parameters);
      if params.Err? {
        return 500;
      }
      if clientList.Given? {
        var i := 0;
        while i < |clientList.v|
          invariant 0 <= i <= |clientList.v|
          invariant forall j :: 0 <= j < i ==> Storable(clientList.v[j])
        {
          if !Storable(clientList.v[i]) {
            return 500;
          }
          i := i + 1;
        }
      }
      var row := r.(name := NameOnUpdate(r.name, name), parameters := params.value);
      if !clientList.Absent? {
        var cs := KeyOr(clientList, []);
        UpdateKeepsInvariant(routes, clients, nextRouteId, nextClientId, routeId, row, cs);
        var kept := WithoutRouteClients(clients, routeId);
        var replaced := InsertClients(kept, nextClientId, routeId, cs);
        clients, nextClientId := replaced, nextClientId + |cs|;
      }
      routes := routes[routeId := row];
      status := 200;
    }

    /** `delete_route`: 404 for a route the caller does not own; otherwise the route and its clients go. */
    method DeleteRoute(uid: int, routeId: int) returns (status: int)
      requires Valid()
      modifies this
      ensures Valid()
      ensures status == 404 <==> !old(Owned(uid, routeId))
      ensures status == 404 ==> unchanged(this)
      ensures status != 404 ==>
        && status == 200
        && routes == old(routes) - {routeId}
        && clients == WithoutRouteClients(old(clients), routeId)
        && nextRouteId == old(nextRouteId) && nextClientId == old(nextClientId)
    {
      if !(routeId in routes && routes[routeId].owner == uid) {
        return 404;
      }
      routes := routes - {routeId};
      clients := WithoutRouteClients(clients, routeId);
      status := 200;
    }

    /**
     * `add_client`: 404 for a route the caller does not own, 400 when lat or lon is missing or
     * null, 500 for an explicit null name; otherwise exactly one new client on that route, named
     * "Client" when no name is given, and `Ok` of its id.
     */
    method AddClient(uid: int, routeId: int, name: Key<string>, lat: Key<real>, lon: Key<real>)
      returns (response: Result<int, int>)
      requires Valid()
      modifies this
      ensures Valid()
      ensures !old(Owned(uid, routeId)) ==> response == Err(404)
      ensures old(Owned(uid, routeId)) && (!lat.Given? || !lon.Given?) ==> response == Err(400)
      ensures old(Owned(uid, routeId)) && lat.Given? && lon.Given? && name.Null? ==> response == Err(500)
      ensures response.Err? ==> unchanged(this)
      ensures response.Ok? <==> old(Owned(uid, routeId)) && lat.Given? && lon.Given? && !name.Null?
      ensures response.Ok? ==>
        && response.value == old(nextClientId) && response.value !in old(clients)
        && clients == old(clients)[response.value := ClientRow(routeId, KeyOr(name, "Client"), lat.v, lon.v, None, None, None)]
        && routes == old(routes) && nextClientId == old(nextClientId) + 1 && nextRouteId == old(nextRouteId)
    {
      if !(routeId in routes && routes[routeId].owner == uid) {
        return Err(404);
      }
      if !lat.Given? || !lon.Given? {
        return Err(400);
      }
      if name.Null? {
        return Err(500);
      }
      var id := nextClientId;
      clients := clients[id := ClientRow(routeId, KeyOr(name, "Client"), lat.v, lon.v, None, None, None)];
      nextClientId := nextClientId + 1;
      response := Ok(id);
    }

    /** `delete_client`: 404 unless the client is on that route and the route is the caller's; otherwise only that client goes. */
    method DeleteClient(uid: int, routeId: int, clientId: int) returns (status: int)
      requires Valid()
      modifies this
      ensures Valid()
      ensures status == 404 <==> !(clientId in old(clients) && old(clients[clientId]).routeId == routeId && old(Owned(uid, routeId)))
      ensures status == 404 ==> unchanged(this)
      ensures status != 404 ==>
        && status == 200
        && clients == old(clients) - {clientId}
        && routes == old(routes) && nextRouteId == old(nextRouteId) && nextClientId == old(nextClientId)
    {
      if !(clientId in clients && clients[clientId].routeId == routeId && routeId in routes && routes[routeId].owner == uid) {
        return 404;
      }
      clients := clients - {clientId};
      status := 200;
    }

    /**
     * `upload_distance_matrix`: 404 for a route the caller does not own, 400 for a missing, empty
     * or non-list matrix; otherwise the matrix is stored under `distance_matrix` and the other
     * parameter keys are kept.
     */
    method UploadDistanceMatrix(uid: int, routeId: int, matrix: Key<Json>) returns (status: int)
      requires Valid()
      modifies this
      ensures Valid()
      ensures !old(Owned(uid, routeId)) ==> status == 404
      ensures old(Owned(uid, routeId)) ==> (status == 400 <==> !ValidMatrix(matrix))
      ensures old(Owned(uid, routeId)) && ValidMatrix(matrix) ==> status == 200
      ensures status != 200 ==> unchanged(this)
      ensures status == 200 ==>
        && old(Owned(uid, routeId)) && ValidMatrix(matrix)
        && routes == old(routes)[routeId := old(routes[routeId]).(parameters := Some(WithMatrix(old(routes[routeId].parameters), matrix.v)))]
        && clients == old(clients) && nextRouteId == old(nextRouteId) && nextClientId == old(nextClientId)
    {
      if !(routeId in routes && routes[routeId].owner == uid) {
        return 404;
      }
      if !(matrix.Given? && matrix.v.JArray? && matrix.v.items != []) {
        return 400;
      }
      var r := routes[routeId];
      routes := routes[routeId := r.(parameters := Some(WithMatrix(r.parameters, matrix.v)))];
      status := 200;
    }
  }
}
