/**
 * The pure helpers of the routes page: how a route's stop sequences are built (warehouse
 * first, then clients in recorded or optimized order), the straight-line fallback geometry,
 * the normalisation of clients received from the server, and the figures the route list
 * shows (best travel time, improvement percentage, minutes/hours split).
 */
module Geometry {
  import opened Common

  datatype LatLng = LatLng(lat: real, lng: real)

  /** A stop's identifier: a client's numeric id, or the synthetic `wh-<id>` of a warehouse. */
  datatype StopId = ClientKey(n: int) | WarehouseKey(w: int)

  datatype Stop = Stop(id: StopId, lat: real, lng: real, title: string, isWarehouse: bool)

  datatype Warehouse = Warehouse(id: int, name: string, lat: real, lng: real)

  /** The traffic part of a route summary; `error` is the truthiness of its `error` field. */
  datatype Traffic = Traffic(error: bool, trafficDuration: Option<real>)

  /** A baseline or optimized summary: distance (m), duration (s), optional traffic estimate. */
  datatype Summary = Summary(distance: Option<real>, duration: Option<real>, traffic: Option<Traffic>)

  /** The server's optimisation result: its summary, the client ids in visiting order, the chosen warehouse. */
  datatype Optimized = Optimized(summary: Summary, order: Option<seq<int>>, warehouseId: Option<int>)

  /** A route as the page keeps it, after its clients were normalised. */
  datatype Route = Route(id: int, name: string, clients: seq<Stop>,
                         baseline: Option<Summary>, optimized: Option<Optimized>)

  /** A polyline with its length in metres and its duration in seconds. */
  datatype RoadGeometry = RoadGeometry(latlngs: seq<LatLng>, distance: real, duration: real)

  /** The page keeps ONE cache entry per route, holding both variants. */
  datatype CacheEntry = CacheEntry(baseline: RoadGeometry, optimized: Option<RoadGeometry>)

  /** A client as the server sends it; each coordinate is what `Number(...)` makes of the field. */
  datatype RawClient = RawClient(id: int, name: Option<string>,
                                 lat: Option<Num>, latitude: Option<Num>,
                                 lon: Option<Num>, lng: Option<Num>, longitude: Option<Num>)

  datatype RawRoute = RawRoute(id: int, name: string, clients: seq<RawClient>,
                               baseline: Option<Summary>, optimized: Option<Optimized>)

  /** The three warehouses hard-coded in the page. */
  const Warehouses: seq<Warehouse> := [
    Warehouse(1, "Warehouse 1", 56.969109, 24.112366),
    Warehouse(2, "Warehouse 2", 56.939166, 24.055983),
    Warehouse(3, "Warehouse 3", 56.952044, 24.158705)
  ]

  function WarehouseStop(w: Warehouse): (s: Stop) {
    Stop(WarehouseKey(w.id), w.lat, w.lng, w.name, true)
  }

  // ---------------------------------------------------------------------------
  // Warehouse lookup
  // ---------------------------------------------------------------------------

  /** The index of the first warehouse whose id equals `id`, if any. */
  function FirstIndexWithId(ws: seq<Warehouse>, id: Option<int>): (k: Option<nat>)
    ensures k.Some? ==> (k.value < |ws| && Some(ws[k.value].id) == id
      && forall j :: 0 <= j < k.value ==> Some(ws[j].id) != id)
    ensures k.None? ==> forall j :: 0 <= j < |ws| ==> Some(ws[j].id) != id
  {
    if ws == [] then None
    else if Some(ws[0].id) == id then Some(0)
    else
      match FirstIndexWithId(ws[1..], id)
      case None => None
      case Some(k) => Some(k + 1)
  }

  /** `ws.find(w => w.id === id) || ws[0]`: the first warehouse with that id, else the first one. */
  function FindOrFirst(ws: seq<Warehouse>, id: Option<int>): (w: Warehouse)
    requires |ws| > 0
    ensures w in ws
    ensures (exists j :: 0 <= j < |ws| && Some(ws[j].id) == id) ==> Some(w.id) == id
    ensures (forall j :: 0 <= j < |ws| ==> Some(ws[j].id) != id) ==> w == ws[0]
    ensures FirstIndexWithId(ws, id).Some? ==> w == ws[FirstIndexWithId(ws, id).value]
  {
    match FirstIndexWithId(ws, id)
    case Some(k) => ws[k]
    case None => ws[0]
  }

  /** `getWarehouseById`: the hard-coded warehouse with that id, Warehouse 1 otherwise. */
  function GetWarehouseById(id: Option<int>): (w: Warehouse)
    ensures w in Warehouses
    ensures id.Some? && 1 <= id.value <= 3 ==> w.id == id.value
    ensures !(id.Some? && 1 <= id.value <= 3) ==> w == Warehouses[0]
  {
    FindOrFirst(Warehouses, id)
  }

  // ---------------------------------------------------------------------------
  // Stop sequences
  // ---------------------------------------------------------------------------

  /** Baseline order: Warehouse 1, then the route's clients as recorded. */
  function BuildBaselineStops(route: Route): (r: seq<Stop>)
    ensures |r| == |route.clients| + 1
    ensures r[0] == WarehouseStop(Warehouses[0]) && r[0].isWarehouse
    ensures r[1..] == route.clients
  {
    [WarehouseStop(Warehouses[0])] + route.clients
  }

  /** The last index of a client with that id; `new Map(entries)` keeps the last entry per key. */
  function LastIndexWithId(clients: seq<Stop>, id: int): (k: Option<nat>)
    ensures k.Some? ==> (k.value < |clients| && clients[k.value].id == ClientKey(id)
      && forall j :: k.value < j < |clients| ==> clients[j].id != ClientKey(id))
    ensures k.None? ==> forall j :: 0 <= j < |clients| ==> clients[j].id != ClientKey(id)
  {
    if clients == [] then None
    else if clients[|clients| - 1].id == ClientKey(id) then Some(|clients| - 1)
    else LastIndexWithId(clients[..|clients| - 1], id)
  }

  predicate HasClient(clients: seq<Stop>, id: int) {
    LastIndexWithId(clients, id).Some?
  }

  /** `order.map(id => byId.get(id)).filter(Boolean)`: the known clients in `order`'s order. */
  function OrderedClients(order: seq<int>, clients: seq<Stop>): (r: seq<Stop>)
    ensures |r| <= |order|
    ensures forall x :: x in r ==> x in clients
    ensures (forall k :: 0 <= k < |order| ==> HasClient(clients, order[k])) ==> |r| == |order|
  {
    if order == [] then []
    else
      var head := match LastIndexWithId(clients, order[0])
                  case Some(k) => [clients[k]]
                  case None => [];
      head + OrderedClients(order[1..], clients)
  }

  /** The ids of `order` that name a current client, in order. */
  function KnownOrder(order: seq<int>, clients: seq<Stop>): seq<StopId> {
    if order == [] then []
    else (if HasClient(clients, order[0]) then [ClientKey(order[0])] else [])
         + KnownOrder(order[1..], clients)
  }

  function StopIds(stops: seq<Stop>): (r: seq<StopId>)
    ensures |r| == |stops| && forall i :: 0 <= i < |stops| ==> r[i] == stops[i].id
  {
    seq(|stops|, i requires 0 <= i < |stops| => stops[i].id)
  }

  /** The optimized clients follow `order` exactly, with unknown ids dropped and nothing re-sorted. */
  lemma {:induction false} OrderedClientsFollowOrder(order: seq<int>, clients: seq<Stop>)
    ensures StopIds(OrderedClients(order, clients)) == KnownOrder(order, clients)
  {
    if order != [] {
      OrderedClientsFollowOrder(order[1..], clients);
      var rest := OrderedClients(order[1..], clients);
      match LastIndexWithId(clients, order[0])
      case Some(k) =>
        assert OrderedClients(order, clients) == [clients[k]] + rest;
        StopIdsAppend([clients[k]], rest);
      case None =>
        assert OrderedClients(order, clients) == rest;
    }
  }

  lemma StopIdsAppend(a: seq<Stop>, b: seq<Stop>)
    ensures StopIds(a + b) == StopIds(a) + StopIds(b)
  {
  }

  predicate HasOrder(route: Route) {
    route.optimized.Some? && route.optimized.value.order.Some? && |route.optimized.value.order.value| > 0
  }

  /**
   * Optimized order: null without a non-empty `order`; otherwise the chosen warehouse
   * (Warehouse 1 when unknown), then the known clients in `order`'s order.
   */
  function BuildOptimizedStops(route: Route): (r: Option<seq<Stop>>)
    ensures r.None? <==> !HasOrder(route)
    ensures r.Some? ==>
      var opt := route.optimized.value;
      && 1 <= |r.value| <= |opt.order.value| + 1
      && r.value[0] == WarehouseStop(GetWarehouseById(opt.warehouseId))
      && (forall i :: 1 <= i < |r.value| ==> r.value[i] in route.clients)
      && StopIds(r.value[1..]) == KnownOrder(opt.order.value, route.clients)
  {
    if !HasOrder(route) then None
    else
      var opt := route.optimized.value;
      var tail := OrderedClients(opt.order.value, route.clients);
      OrderedClientsFollowOrder(opt.order.value, route.clients);
      var r := [WarehouseStop(GetWarehouseById(opt.warehouseId))] + tail;
      assert r[1..] == tail;
      Some(r)
  }

  /** Whether a build also routes the optimized variant (it needs at least two stops). */
  predicate OptimizedRequested(route: Route) {
    var o := BuildOptimizedStops(route);
    o.Some? && |o.value| >= 2
  }

  // ---------------------------------------------------------------------------
  // Fallback geometry
  // ---------------------------------------------------------------------------

  /** The straight line through the stops, in their order, with zero distance and duration. */
  function FallbackGeometry(stops: seq<Stop>): (g: RoadGeometry)
    ensures |g.latlngs| == |stops|
    ensures forall i :: 0 <= i < |stops| ==> g.latlngs[i] == LatLng(stops[i].lat, stops[i].lng)
    ensures g.distance == 0.0 && g.duration == 0.0
  {
    RoadGeometry(seq(|stops|, i requires 0 <= i < |stops| => LatLng(stops[i].lat, stops[i].lng)), 0.0, 0.0)
  }

  /** The cache entry written when a build fails or its watchdog fires. */
  function FallbackEntry(route: Route): (e: CacheEntry)
    ensures e.baseline == FallbackGeometry(BuildBaselineStops(route))
    ensures e.optimized.None? <==> BuildOptimizedStops(route).None?
    ensures e.optimized.Some? ==> e.optimized.value == FallbackGeometry(BuildOptimizedStops(route).value)
  {
    CacheEntry(
      FallbackGeometry(BuildBaselineStops(route)),
      match BuildOptimizedStops(route)
      case None => None
      case Some(stops) => Some(FallbackGeometry(stops)))
  }

  /** The baseline fallback starts at Warehouse 1 and then passes each client in recorded order. */
  lemma FallbackBaselineShape(route: Route)
    ensures var pts := FallbackEntry(route).baseline.latlngs;
      && |pts| == |route.clients| + 1
      && pts[0] == LatLng(Warehouses[0].lat, Warehouses[0].lng)
      && forall i :: 0 <= i < |route.clients| ==>
           pts[i + 1] == LatLng(route.clients[i].lat, route.clients[i].lng)
  {
    var stops := BuildBaselineStops(route);
    forall i | 0 <= i < |route.clients|
      ensures stops[i + 1] == route.clients[i]
    {
      assert stops[1..][i] == route.clients[i];
    }
  }

  // ---------------------------------------------------------------------------
  // Clients received from the server
  // ---------------------------------------------------------------------------

  /** JavaScript's `a ?? b`. */
  function Coalesce<T>(a: Option<T>, b: Option<T>): Option<T> {
    if a.Some? then a else b
  }

  /** `toNum`: the number if it is finite, otherwise null. */
  function ToNum(x: Option<Num>): (r: Option<real>)
    ensures r.Some? <==> IsFiniteField(x)
    ensures r.Some? ==> x == Some(Finite(r.value))
  {
    match x
    case Some(Finite(v)) => Some(v)
    case _ => None
  }

  /** `normalizeClientStop`: lat from `lat ?? latitude`, lng from `lon ?? lng ?? longitude`. */
  function NormalizeClientStop(c: RawClient): (r: Option<Stop>)
    ensures var lat, lng := Coalesce(c.lat, c.latitude), Coalesce(c.lon, Coalesce(c.lng, c.longitude));
      && (r.Some? <==> IsFiniteField(lat) && IsFiniteField(lng))
      && (r.Some? ==> lat == Some(Finite(r.value.lat)) && lng == Some(Finite(r.value.lng)))
    ensures r.Some? ==> (r.value.id == ClientKey(c.id) && !r.value.isWarehouse
      && r.value.title == (if c.name.Some? then c.name.value else ""))
  {
    var lat := ToNum(Coalesce(c.lat, c.latitude));
    var lng := ToNum(Coalesce(c.lon, Coalesce(c.lng, c.longitude)));
    if lat.None? || lng.None? then None
    else Some(Stop(ClientKey(c.id), lat.value, lng.value, if c.name.Some? then c.name.value else "", false))
  }

  /** `clients.map(normalizeClientStop).filter(Boolean)`. */
  function NormalizeClients(raws: seq<RawClient>): (r: seq<Stop>)
    ensures |r| <= |raws|
    ensures forall s :: s in r ==> !s.isWarehouse && exists c :: c in raws && NormalizeClientStop(c) == Some(s)
    ensures (forall c :: c in raws ==> NormalizeClientStop(c).Some?) ==> |r| == |raws|
  {
    if raws == [] then []
    else
      var head := match NormalizeClientStop(raws[0])
                  case Some(s) => [s]
                  case None => [];
      var rest := NormalizeClients(raws[1..]);
      assert forall c :: c in raws[1..] ==> c in raws;
      head + rest
  }

  /** When every client has coordinates, the i-th stop is the i-th client normalised. */
  lemma {:induction false} NormalizeClientsKeepsValidList(raws: seq<RawClient>)
    requires forall i :: 0 <= i < |raws| ==> NormalizeClientStop(raws[i]).Some?
    ensures |NormalizeClients(raws)| == |raws|
    ensures forall i :: 0 <= i < |raws| ==> Some(NormalizeClients(raws)[i]) == NormalizeClientStop(raws[i])
  {
    if raws != [] {
      NormalizeClientsKeepsValidList(raws[1..]);
      var r, rest := NormalizeClients(raws), NormalizeClients(raws[1..]);
      assert r == [NormalizeClientStop(raws[0]).value] + rest;
      forall i | 0 <= i < |raws| ensures Some(r[i]) == NormalizeClientStop(raws[i]) {
        if i > 0 {
          assert r[i] == rest[i - 1] && raws[i] == raws[1..][i - 1];
        }
      }
    }
  }

  /** Normalising keeps the clients' recorded order: it distributes over concatenation. */
  lemma {:induction false} NormalizeClientsDistributes(a: seq<RawClient>, b: seq<RawClient>)
    ensures NormalizeClients(a + b) == NormalizeClients(a) + NormalizeClients(b)
  {
    if a == [] {
      assert a + b == b;
    } else {
      assert (a + b)[0] == a[0];
      assert (a + b)[1..] == a[1..] + b;
      NormalizeClientsDistributes(a[1..], b);
      var h, x, y := match NormalizeClientStop(a[0]) case Some(s) => [s] case None => [], NormalizeClients(a[1..]), NormalizeClients(b);
      assert h + (x + y) == (h + x) + y;
    }
  }

  /** A route as the page stores it after fetching the list (colour aside). */
  function ProcessRoute(raw: RawRoute): (r: Route)
    ensures r.id == raw.id && r.name == raw.name
    ensures r.baseline == raw.baseline && r.optimized == raw.optimized
    ensures r.clients == NormalizeClients(raw.clients)
    ensures |r.clients| <= |raw.clients| && forall s :: s in r.clients ==> !s.isWarehouse
  {
    Route(raw.id, raw.name, NormalizeClients(raw.clients), raw.baseline, raw.optimized)
  }

  // ---------------------------------------------------------------------------
  // Figures shown in the route list
  // ---------------------------------------------------------------------------

  /** `getTrafficSeconds`: a positive traffic-adjusted duration, when the traffic part is usable. */
  function GetTrafficSeconds(section: Option<Summary>): (r: Option<real>)
    ensures r.Some? ==> r.value > 0.0
    ensures r.Some? <==>
      && section.Some? && section.value.traffic.Some?
      && !section.value.traffic.value.error
      && section.value.traffic.value.trafficDuration.Some?
      && section.value.traffic.value.trafficDuration.value > 0.0
  {
    if section.None? || section.value.traffic.None? || section.value.traffic.value.error then None
    else
      var s := section.value.traffic.value.trafficDuration;
      if s.Some? && s.value > 0.0 then s else None
  }

  /** `bestTimeSeconds`: the traffic time when usable, else the plain duration, else null. */
  function BestTimeSeconds(section: Option<Summary>): (r: Option<real>)
    ensures GetTrafficSeconds(section).Some? ==> r == GetTrafficSeconds(section)
    ensures GetTrafficSeconds(section).None? ==>
      r == (if section.Some? then section.value.duration else None)
  {
    var t := GetTrafficSeconds(section);
    if t.Some? then t else if section.Some? then section.value.duration else None
  }

  /** `pct(base, val)`: the saving of `val` against `base`, in percent; null unless `base` is positive. */
  function Pct(base: real, val: real): (r: Option<real>)
    ensures r.Some? <==> base > 0.0
    ensures r.Some? ==> r.value * base == (base - val) * 100.0
    ensures r.Some? && val <= base ==> r.value >= 0.0
    ensures r.Some? && val >= 0.0 ==> r.value <= 100.0
    ensures r.Some? ==> (r.value == 0.0 <==> val == base)
  {
    if base <= 0.0 then None else Some((base - val) / base * 100.0)
  }

  /** JavaScript truthiness of an optional number. */
  predicate Truthy(x: Option<real>) {
    x.Some? && x.value != 0.0
  }

  /**
   * The distance improvement the route list shows: present exactly when the baseline distance
   * is positive and the optimized one is known and non-zero, and then their percentage saving.
   */
  function DistanceImprovement(route: Route): (r: Option<real>)
    ensures var bd := if route.baseline.Some? then route.baseline.value.distance else None;
      var od := if route.optimized.Some? then route.optimized.value.summary.distance else None;
      && (r.Some? <==> bd.Some? && bd.value > 0.0 && od.Some? && od.value != 0.0)
      && (r.Some? ==> r == Pct(bd.value, od.value))
  {
    var bd := if route.baseline.Some? then route.baseline.value.distance else None;
    var od := if route.optimized.Some? then route.optimized.value.summary.distance else None;
    if Truthy(bd) && Truthy(od) then Pct(bd.value, od.value) else None
  }

  /**
   * The time improvement the route list shows, on the best (traffic-aware) times: present
   * exactly when the baseline time is positive and the optimized one is known and non-zero.
   */
  function TimeImprovement(route: Route): (r: Option<real>)
    ensures var bt := BestTimeSeconds(route.baseline);
      var ot := BestTimeSeconds(if route.optimized.Some? then Some(route.optimized.value.summary) else None);
      && (r.Some? <==> bt.Some? && bt.value > 0.0 && ot.Some? && ot.value != 0.0)
      && (r.Some? ==> r == Pct(bt.value, ot.value))
  {
    var bt := BestTimeSeconds(route.baseline);
    var ot := BestTimeSeconds(if route.optimized.Some? then Some(route.optimized.value.summary) else None);
    if Truthy(bt) && Truthy(ot) then Pct(bt.value, ot.value) else None
  }

  /** `Math.round(seconds / 60)`: the whole number of minutes nearest to `seconds`. */
  function RoundMinutes(seconds: real): (mins: int)
    ensures (mins as real) * 60.0 - 30.0 <= seconds < (mins as real) * 60.0 + 30.0
  {
    (seconds / 60.0 + 0.5).Floor
  }

  datatype MinuteText = Minutes(m: int) | HoursMinutes(h: int, m: int)

  /** `formatMin`: under an hour as minutes, otherwise whole hours and the remaining minutes. */
  function FormatMin(seconds: real): (t: MinuteText)
    ensures var mins := RoundMinutes(seconds);
      && (t.Minutes? <==> mins < 60)
      && (t.Minutes? ==> t.m == mins)
      && (t.HoursMinutes? ==> t.h >= 1 && 0 <= t.m < 60 && t.h * 60 + t.m == mins)
  {
    var mins := RoundMinutes(seconds);
    if mins < 60 then Minutes(mins) else HoursMinutes(mins / 60, mins % 60)
  }
}
