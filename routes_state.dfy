/**
 * The geometry bookkeeping of the routes page as a state machine. Each event the page
 * reacts to (a build starting, its network result arriving, its watchdog firing, the user
 * unsticking, optimising, deleting, refreshing, toggling or focusing a route) is a pure
 * transition on `PageState`; the class in RoutesPage performs the same updates in place.
 */
module RoutesState {
  import opened Common
  import opened Geometry

  /** A watchdog timer: the route snapshot its callback captured, and whether it can still fire. */
  datatype Timer = Timer(route: Route, pending: bool)

  datatype PageState = PageState(
    routes: seq<Route>,
    visible: seq<int>,
    focused: Option<int>,
    geometries: map<int, CacheEntry>,   // routeGeometries
    loading: map<int, bool>,            // routingLoading
    inFlight: set<int>,                 // inFlightRef
    watchdogs: map<int, Timer>,         // watchdogRef
    optimizeInFlight: set<int>,         // optimizeInFlightRef
    baselineInFlight: set<int>)         // baselineInFlightRef

  const Initial := PageState([], [], None, map[], map[], {}, map[], {}, {})

  predicate Loading(s: PageState, id: int) {
    id in s.loading && s.loading[id]
  }

  predicate Armed(s: PageState, id: int) {
    id in s.watchdogs && s.watchdogs[id].pending
  }

  /**
   * What every event keeps: a route is in flight exactly when it is marked loading and
   * exactly when its watchdog can still fire, an in-flight route has no cached geometry,
   * and every timer belongs to the route it is filed under.
   */
  ghost predicate Consistent(s: PageState) {
    && (forall id :: id in s.inFlight <==> Loading(s, id))
    && (forall id :: id in s.inFlight <==> Armed(s, id))
    && (forall id :: id in s.inFlight ==> id !in s.geometries)
    && (forall id :: id in s.watchdogs ==> s.watchdogs[id].route.id == id)
  }

  // ---------------------------------------------------------------------------
  // Sequence helpers
  // ---------------------------------------------------------------------------

  /** `routes.filter(r => visibleRouteIds.includes(r.id))`. */
  function VisibleRoutes(routes: seq<Route>, visible: seq<int>): (r: seq<Route>)
    ensures |r| <= |routes|
    ensures forall x :: x in r <==> x in routes && x.id in visible
  {
    if routes == [] then []
    else (if routes[0].id in visible then [routes[0]] else []) + VisibleRoutes(routes[1..], visible)
  }

  /** The visible routes keep the list's order: the filter distributes over concatenation. */
  lemma {:induction false} VisibleRoutesDistributes(a: seq<Route>, b: seq<Route>, visible: seq<int>)
    ensures VisibleRoutes(a + b, visible) == VisibleRoutes(a, visible) + VisibleRoutes(b, visible)
  {
    if a == [] {
      assert a + b == b;
    } else {
      assert (a + b)[0] == a[0];
      assert (a + b)[1..] == a[1..] + b;
      VisibleRoutesDistributes(a[1..], b, visible);
    }
  }

  function RouteIds(routes: seq<Route>): (ids: seq<int>)
    ensures |ids| == |routes| && forall i :: 0 <= i < |routes| ==> ids[i] == routes[i].id
  {
    seq(|routes|, i requires 0 <= i < |routes| => routes[i].id)
  }

  /** `routes.filter(r => r.id !== id)`. */
  function WithoutRoute(routes: seq<Route>, id: int): (r: seq<Route>)
    ensures |r| <= |routes|
    ensures forall x :: x in r <==> x in routes && x.id != id
    ensures (forall i :: 0 <= i < |routes| ==> routes[i].id != id) ==> r == routes
  {
    if routes == [] then []
    else (if routes[0].id != id then [routes[0]] else []) + WithoutRoute(routes[1..], id)
  }

  /** The remaining routes keep their order: the filter distributes over concatenation. */
  lemma {:induction false} WithoutRouteDistributes(a: seq<Route>, b: seq<Route>, id: int)
    ensures WithoutRoute(a + b, id) == WithoutRoute(a, id) + WithoutRoute(b, id)
  {
    if a == [] {
      assert a + b == b;
    } else {
      assert (a + b)[0] == a[0];
      assert (a + b)[1..] == a[1..] + b;
      WithoutRouteDistributes(a[1..], b, id);
      var h, x, y := if a[0].id != id then [a[0]] else [], WithoutRoute(a[1..], id), WithoutRoute(b, id);
      assert h + (x + y) == (h + x) + y;
    }
  }

  /** The first remaining route is the first route of the old list with another id. */
  lemma {:induction false} WithoutRouteHead(routes: seq<Route>, id: int)
    requires WithoutRoute(routes, id) != []
    ensures exists k :: 0 <= k < |routes| && routes[k] == WithoutRoute(routes, id)[0]
                        && routes[k].id != id && forall j :: 0 <= j < k ==> routes[j].id == id
  {
    if routes[0].id == id {
      WithoutRouteHead(routes[1..], id);
      var k :| 0 <= k < |routes[1..]| && routes[1..][k] == WithoutRoute(routes[1..], id)[0]
               && routes[1..][k].id != id && forall j :: 0 <= j < k ==> routes[1..][j].id == id;
      assert routes[k + 1] == routes[1..][k];
      forall j | 0 <= j < k + 1 ensures routes[j].id == id {
        if j > 0 {
          assert routes[j] == routes[1..][j - 1];
        }
      }
    } else {
      assert WithoutRoute(routes, id)[0] == routes[0];
    }
  }

  /** `ids.filter(x => x !== id)`. */
  function WithoutId(ids: seq<int>, id: int): (r: seq<int>)
    ensures |r| <= |ids|
    ensures forall x :: x in r <==> x in ids && x != id
  {
    if ids == [] then []
    else (if ids[0] != id then [ids[0]] else []) + WithoutId(ids[1..], id)
  }

  /** The remaining ids keep their order: the filter distributes over concatenation. */
  lemma {:induction false} WithoutIdDistributes(a: seq<int>, b: seq<int>, id: int)
    ensures WithoutId(a + b, id) == WithoutId(a, id) + WithoutId(b, id)
  {
    if a == [] {
      assert a + b == b;
    } else {
      assert (a + b)[0] == a[0];
      assert (a + b)[1..] == a[1..] + b;
      WithoutIdDistributes(a[1..], b, id);
    }
  }

  function Elems(ids: seq<int>): set<int> {
    set x | x in ids
  }

  // ---------------------------------------------------------------------------
  // Building geometry
  // ---------------------------------------------------------------------------

  /** The guard of `buildForRoute`: nothing cached, nothing in flight, at least one client. */
  predicate CanStart(s: PageState, route: Route) {
    route.id !in s.geometries && route.id !in s.inFlight && |route.clients| >= 1
  }

  /** `buildForRoute` up to its first await: claim the id, mark it loading, (re)arm its watchdog. */
  function AfterBuildStart(s: PageState, route: Route): PageState {
    if !CanStart(s, route) then s
    else s.(inFlight := s.inFlight + {route.id},
            loading := s.loading[route.id := true],
            watchdogs := s.watchdogs[route.id := Timer(route, true)])
  }

  /** The watchdog's callback: publish the fallback of the captured route; its timer entry stays. */
  function AfterWatchdogExpire(s: PageState, id: int): PageState
    requires Armed(s, id)
  {
    var route := s.watchdogs[id].route;
    s.(geometries := s.geometries[id := FallbackEntry(route)],
       loading := s.loading[id := false],
       inFlight := s.inFlight - {id},
       watchdogs := s.watchdogs[id := Timer(route, false)])
  }

  /** The `finally` of `buildForRoute`: drop the timer, clear loading, release the id. */
  function AfterFinally(s: PageState, id: int): PageState {
    s.(watchdogs := s.watchdogs - {id}, loading := s.loading[id := false], inFlight := s.inFlight - {id})
  }

  /** Both road geometries arrived: store them (overwriting any fallback), then the `finally`. */
  function AfterBuildSucceed(s: PageState, route: Route, baseline: RoadGeometry,
                             optimized: Option<RoadGeometry>): PageState {
    AfterFinally(s.(geometries := s.geometries[route.id := CacheEntry(baseline, optimized)]), route.id)
  }

  /** A routing call failed: store the straight-line fallback, then the `finally`. */
  function AfterBuildFail(s: PageState, route: Route): PageState {
    AfterFinally(s.(geometries := s.geometries[route.id := FallbackEntry(route)]), route.id)
  }

  /** `visibleRoutes.forEach(buildForRoute)`: the synchronous part of each build, in list order. */
  function AfterBuildAll(s: PageState, rs: seq<Route>): PageState {
    if rs == [] then s else AfterBuildStart(AfterBuildAll(s, rs[..|rs| - 1]), rs[|rs| - 1])
  }

  // ---------------------------------------------------------------------------
  // Unsticking
  // ---------------------------------------------------------------------------

  predicate Stuck(s: PageState, id: int) {
    id !in s.geometries || Loading(s, id)
  }

  function StuckAmong(ids: seq<int>, s: PageState): (r: seq<int>)
    ensures forall x :: x in r <==> x in ids && Stuck(s, x)
  {
    if ids == [] then []
    else (if Stuck(s, ids[0]) then [ids[0]] else []) + StuckAmong(ids[1..], s)
  }

  /** A route with this id is in the list and visible. */
  ghost predicate ShownId(s: PageState, x: int) {
    exists route :: route in s.routes && route.id in s.visible && route.id == x
  }

  /** `idsToRetry`: the ids of the visible routes, in list order, that are stuck. */
  function IdsToRetry(s: PageState): seq<int> {
    StuckAmong(RouteIds(VisibleRoutes(s.routes, s.visible)), s)
  }

  /** The targets are exactly the visible routes with no cached geometry or still marked loading. */
  lemma IdsToRetryExactly(s: PageState)
    ensures forall x :: x in IdsToRetry(s) <==> ShownId(s, x) && Stuck(s, x)
  {
    var vr := VisibleRoutes(s.routes, s.visible);
    var ids := RouteIds(vr);
    forall x ensures x in ids <==> ShownId(s, x)
    {
      if x in ids {
        var i :| 0 <= i < |ids| && ids[i] == x;
        assert vr[i] in vr;
      }
      if ShownId(s, x) {
        var route :| route in s.routes && route.id in s.visible && route.id == x;
        assert route in vr;
        var i :| 0 <= i < |vr| && vr[i] == route;
        assert ids[i] == x;
      }
    }
  }

  /** `loading[id] = false` for every id of `ids`; the other marks stay. */
  function Unmarked(loading: map<int, bool>, ids: set<int>): (r: map<int, bool>)
    ensures r.Keys == loading.Keys + ids
    ensures forall k :: k in r ==> r[k] == (k !in ids && loading[k])
  {
    map k | k in loading.Keys + ids :: if k in ids then false else loading[k]
  }

  /** Any map with those keys and marks is the un-marked map. */
  lemma UnmarkedByParts(m: map<int, bool>, loading: map<int, bool>, ids: set<int>)
    requires m.Keys == loading.Keys + ids
    requires forall k :: k in m ==> m[k] == (k !in ids && loading[k])
    ensures m == Unmarked(loading, ids)
  {
    var want := Unmarked(loading, ids);
    assert forall k :: k in want ==> want[k] == m[k];
  }

  /** `fixStuckRoutes`: release, disarm, un-mark and evict every target; nothing without targets. */
  function AfterFixStuck(s: PageState): PageState {
    var ids := Elems(IdsToRetry(s));
    if ids == {} then s
    else s.(inFlight := s.inFlight - ids,
            watchdogs := s.watchdogs - ids,
            loading := Unmarked(s.loading, ids),
            geometries := s.geometries - ids)
  }

  // ---------------------------------------------------------------------------
  // Optimising, computing baselines, deleting, refreshing, visibility
  // ---------------------------------------------------------------------------

  /** `handleOptimize` up to its await: ignored when that id is already optimising. */
  function AfterOptimizeBegin(s: PageState, id: int): PageState {
    if id in s.optimizeInFlight then s else s.(optimizeInFlight := s.optimizeInFlight + {id})
  }

  function WithOptimized(routes: seq<Route>, id: int, updated: Option<Optimized>): (r: seq<Route>)
    ensures |r| == |routes|
    ensures forall i :: 0 <= i < |routes| ==>
      r[i] == if routes[i].id == id then routes[i].(optimized := Coalesce(updated, routes[i].optimized))
              else routes[i]
  {
    seq(|routes|, i requires 0 <= i < |routes| =>
      if routes[i].id == id then routes[i].(optimized := Coalesce(updated, routes[i].optimized)) else routes[i])
  }

  /** The optimisation call returned: adopt the new result, evict the route's whole cache entry. */
  function AfterOptimizeSucceed(s: PageState, id: int, updated: Option<Optimized>): PageState {
    s.(routes := WithOptimized(s.routes, id, updated),
       geometries := s.geometries - {id},
       optimizeInFlight := s.optimizeInFlight - {id})
  }

  /** The optimisation call failed: only the optimise claim is released. */
  function AfterOptimizeFail(s: PageState, id: int): PageState {
    s.(optimizeInFlight := s.optimizeInFlight - {id})
  }

  /** One iteration of the missing-baseline loop, up to its await: skipped when already computing. */
  function AfterBaselineBegin(s: PageState, id: int): PageState {
    if id in s.baselineInFlight then s else s.(baselineInFlight := s.baselineInFlight + {id})
  }

  function WithBaseline(routes: seq<Route>, id: int, updated: Option<Summary>): (r: seq<Route>)
    ensures |r| == |routes|
    ensures forall i :: 0 <= i < |routes| ==>
      r[i] == if routes[i].id == id then routes[i].(baseline := Coalesce(updated, routes[i].baseline))
              else routes[i]
  {
    seq(|routes|, i requires 0 <= i < |routes| =>
      if routes[i].id == id then routes[i].(baseline := Coalesce(updated, routes[i].baseline)) else routes[i])
  }

  function AfterBaselineSucceed(s: PageState, id: int, updated: Option<Summary>): PageState {
    s.(routes := WithBaseline(s.routes, id, updated), baselineInFlight := s.baselineInFlight - {id})
  }

  function AfterBaselineFail(s: PageState, id: int): PageState {
    s.(baselineInFlight := s.baselineInFlight - {id})
  }

  /** The server confirmed a deletion: forget the route everywhere; refocus only if it was focused. */
  function AfterDelete(s: PageState, id: int): PageState {
    var rest := WithoutRoute(s.routes, id);
    s.(inFlight := s.inFlight - {id},
       watchdogs := s.watchdogs - {id},
       geometries := s.geometries - {id},
       loading := s.loading - {id},
       routes := rest,
       visible := WithoutId(s.visible, id),
       focused := if s.focused == Some(id) then (if |rest| > 0 then Some(rest[0].id) else None)
                  else s.focused)
  }

  function ProcessRoutes(raws: seq<RawRoute>): (r: seq<Route>)
    ensures |r| == |raws| && forall i :: 0 <= i < |raws| ==> r[i] == ProcessRoute(raws[i])
  {
    seq(|raws|, i requires 0 <= i < |raws| => ProcessRoute(raws[i]))
  }

  /** The ids of the routes without a baseline summary, in list order. */
  function MissingBaseline(routes: seq<Route>): (ids: seq<int>)
    ensures forall x :: x in ids <==> exists r :: r in routes && r.id == x && r.baseline.None?
  {
    if routes == [] then []
    else (if routes[0].baseline.None? then [routes[0].id] else []) + MissingBaseline(routes[1..])
  }

  /** The ids come in list order: the filter distributes over concatenation. */
  lemma {:induction false} MissingBaselineDistributes(a: seq<Route>, b: seq<Route>)
    ensures MissingBaseline(a + b) == MissingBaseline(a) + MissingBaseline(b)
  {
    if a == [] {
      assert a + b == b;
    } else {
      var h := if a[0].baseline.None? then [a[0].id] else [];
      assert (a + b)[0] == a[0];
      assert (a + b)[1..] == a[1..] + b;
      assert MissingBaseline(a + b) == h + MissingBaseline(a[1..] + b);
      assert MissingBaseline(a) == h + MissingBaseline(a[1..]);
      MissingBaselineDistributes(a[1..], b);
    }
  }

  /**
   * `fetchRoutes` after the list arrived: every route visible, the first one focused (none when
   * its id is falsy), and all geometry bookkeeping reset. The baseline and optimise claims stay.
   */
  function AfterRefresh(s: PageState, raws: seq<RawRoute>): PageState {
    var processed := ProcessRoutes(raws);
    s.(routes := processed,
       visible := RouteIds(processed),
       focused := if |processed| > 0 && processed[0].id != 0 then Some(processed[0].id) else None,
       geometries := map[], loading := map[], inFlight := {}, watchdogs := map[])
  }

  /** `toggleRouteVisibility`: hide a shown route (every occurrence), or show it at the end. */
  function AfterToggleVisibility(s: PageState, id: int): PageState {
    s.(visible := if id in s.visible then WithoutId(s.visible, id) else s.visible + [id])
  }

  /** `handleRouteClick`: focus the route and make sure it is shown. */
  function AfterRouteClick(s: PageState, id: int): PageState {
    s.(focused := Some(id), visible := if id in s.visible then s.visible else s.visible + [id])
  }

  // ---------------------------------------------------------------------------
  // Events
  // ---------------------------------------------------------------------------

  datatype Event =
    | BuildStarted(route: Route)
    | WatchdogFired(id: int)
    | BuildSucceeded(route: Route, baseline: RoadGeometry, optimized: Option<RoadGeometry>)
    | BuildFailed(route: Route)
    | StuckFixed
    | OptimizeBegun(id: int)
    | OptimizeSucceeded(id: int, newOptimized: Option<Optimized>)
    | OptimizeFailed(id: int)
    | BaselineBegun(id: int)
    | BaselineSucceeded(id: int, newBaseline: Option<Summary>)
    | BaselineFailed(id: int)
    | RouteDeleted(id: int)
    | Refreshed(raws: seq<RawRoute>)
    | VisibilityToggled(id: int)
    | RouteClicked(id: int)

  /**
   * When an event can happen: a timer fires only while pending; a build returns road geometry
   * for the optimized variant exactly when it asked for one; an optimise or baseline call
   * returns only while its claim is held.
   */
  predicate Enabled(s: PageState, e: Event) {
    match e
    case WatchdogFired(id) => Armed(s, id)
    case BuildSucceeded(route, _, optimized) => optimized.Some? <==> OptimizedRequested(route)
    case OptimizeSucceeded(id, _) => id in s.optimizeInFlight
    case OptimizeFailed(id) => id in s.optimizeInFlight
    case BaselineSucceeded(id, _) => id in s.baselineInFlight
    case BaselineFailed(id) => id in s.baselineInFlight
    case _ => true
  }

  function Step(s: PageState, e: Event): PageState
    requires Enabled(s, e)
  {
    match e
    case BuildStarted(route) => AfterBuildStart(s, route)
    case WatchdogFired(id) => AfterWatchdogExpire(s, id)
    case BuildSucceeded(route, baseline, optimized) => AfterBuildSucceed(s, route, baseline, optimized)
    case BuildFailed(route) => AfterBuildFail(s, route)
    case StuckFixed => AfterFixStuck(s)
    case OptimizeBegun(id) => AfterOptimizeBegin(s, id)
    case OptimizeSucceeded(id, updated) => AfterOptimizeSucceed(s, id, updated)
    case OptimizeFailed(id) => AfterOptimizeFail(s, id)
    case BaselineBegun(id) => AfterBaselineBegin(s, id)
    case BaselineSucceeded(id, updated) => AfterBaselineSucceed(s, id, updated)
    case BaselineFailed(id) => AfterBaselineFail(s, id)
    case RouteDeleted(id) => AfterDelete(s, id)
    case Refreshed(raws) => AfterRefresh(s, raws)
    case VisibilityToggled(id) => AfterToggleVisibility(s, id)
    case RouteClicked(id) => AfterRouteClick(s, id)
  }

  /** Replays events from `s`; None as soon as one of them cannot happen. */
  function Run(s: PageState, es: seq<Event>): Option<PageState>
    decreases |es|
  {
    if es == [] then Some(s)
    else if Enabled(s, es[0]) then Run(Step(s, es[0]), es[1..])
    else None
  }

  // ---------------------------------------------------------------------------
  // The invariant
  // ---------------------------------------------------------------------------

  lemma InitialConsistent()
    ensures Consistent(Initial)
  {
  }

  lemma FixStuckKeepsConsistent(s: PageState)
    requires Consistent(s)
    ensures Consistent(AfterFixStuck(s))
  {
    var t := AfterFixStuck(s);
    var ids := Elems(IdsToRetry(s));
    if ids != {} {
      forall id ensures id in t.inFlight <==> Loading(t, id) {
        if id in ids {
          assert t.loading[id] == false;
        } else if id in s.loading {
          assert t.loading[id] == s.loading[id];
        }
      }
    }
  }

  /** Every event keeps the bookkeeping consistent. */
  lemma BuildStartKeepsConsistent(s: PageState, route: Route)
    requires Consistent(s)
    ensures Consistent(AfterBuildStart(s, route))
  {
  }

  lemma WatchdogKeepsConsistent(s: PageState, id: int)
    requires Consistent(s) && Armed(s, id)
    ensures Consistent(AfterWatchdogExpire(s, id))
  {
  }

  lemma BuildSucceedKeepsConsistent(s: PageState, route: Route, baseline: RoadGeometry, optimized: Option<RoadGeometry>)
    requires Consistent(s)
    ensures Consistent(AfterBuildSucceed(s, route, baseline, optimized))
  {
  }

  lemma BuildFailKeepsConsistent(s: PageState, route: Route)
    requires Consistent(s)
    ensures Consistent(AfterBuildFail(s, route))
  {
  }

  lemma OptimizeSucceedKeepsConsistent(s: PageState, id: int, updated: Option<Optimized>)
    requires Consistent(s)
    ensures Consistent(AfterOptimizeSucceed(s, id, updated))
  {
  }

  lemma DeleteKeepsConsistent(s: PageState, id: int)
    requires Consistent(s)
    ensures Consistent(AfterDelete(s, id))
  {
  }

  lemma StepKeepsConsistent(s: PageState, e: Event)
    requires Consistent(s) && Enabled(s, e)
    ensures Consistent(Step(s, e))
  {
    match e
    case BuildStarted(route) => BuildStartKeepsConsistent(s, route);
    case WatchdogFired(id) => WatchdogKeepsConsistent(s, id);
    case BuildSucceeded(route, baseline, optimized) => BuildSucceedKeepsConsistent(s, route, baseline, optimized);
    case BuildFailed(route) => BuildFailKeepsConsistent(s, route);
    case StuckFixed => FixStuckKeepsConsistent(s);
    case OptimizeSucceeded(id, updated) => OptimizeSucceedKeepsConsistent(s, id, updated);
    case RouteDeleted(id) => DeleteKeepsConsistent(s, id);
    case _ =>
  }

  /** Whatever happens to the page, from a fresh page on, the bookkeeping stays consistent. */
  lemma {:induction false} RunKeepsConsistent(s: PageState, es: seq<Event>)
    requires Consistent(s)
    ensures Run(s, es).Some? ==> Consistent(Run(s, es).value)
    decreases |es|
  {
    if es != [] && Enabled(s, es[0]) {
      StepKeepsConsistent(s, es[0]);
      RunKeepsConsistent(Step(s, es[0]), es[1..]);
    }
  }

  // ---------------------------------------------------------------------------
  // Building
  // ---------------------------------------------------------------------------

  /**
   * A started build claims its id, marks it loading and leaves exactly one pending timer for
   * it, holding this route; nothing else changes. Repeating the request is a no-op.
   */
  lemma BuildStartDeduplicates(s: PageState, route: Route, again: Route)
    requires CanStart(s, route) && again.id == route.id
    ensures var t := AfterBuildStart(s, route);
      && t.inFlight == s.inFlight + {route.id}
      && Loading(t, route.id)
      && t.watchdogs == s.watchdogs[route.id := Timer(route, true)]
      && t.geometries == s.geometries && t.routes == s.routes
      && AfterBuildStart(t, again) == t
  {
  }

  /** A completed build, successful or not, leaves its id idle: not loading, not claimed, no timer. */
  lemma CompletionReleases(s: PageState, route: Route, baseline: RoadGeometry, optimized: Option<RoadGeometry>)
    ensures var ok, failed := AfterBuildSucceed(s, route, baseline, optimized), AfterBuildFail(s, route);
      && route.id !in ok.inFlight && route.id !in ok.watchdogs && !Loading(ok, route.id)
      && ok.geometries[route.id] == CacheEntry(baseline, optimized)
      && route.id !in failed.inFlight && route.id !in failed.watchdogs && !Loading(failed, route.id)
      && failed.geometries[route.id] == FallbackEntry(route)
  {
  }

  /**
   * There is no settlement flag: when the watchdog has already published the fallback, the
   * late network result still replaces it, and its `finally` still clears the id.
   */
  lemma LateResultOverwritesFallback(s: PageState, route: Route, baseline: RoadGeometry,
                                     optimized: Option<RoadGeometry>)
    requires Consistent(s) && CanStart(s, route)
    ensures var started := AfterBuildStart(s, route);
      && Armed(started, route.id)
      && var expired := AfterWatchdogExpire(started, route.id);
      && expired.geometries[route.id] == FallbackEntry(route)
      && route.id in expired.watchdogs
      && var late := AfterBuildSucceed(expired, route, baseline, optimized);
      && late.geometries[route.id] == CacheEntry(baseline, optimized)
      && route.id !in late.watchdogs && route.id !in late.inFlight
  {
  }

  /** The effect's sweep leaves every visible route with clients and no cached geometry in flight. */
  lemma {:induction false} BuildAllCovers(s: PageState, rs: seq<Route>)
    ensures var t := AfterBuildAll(s, rs);
      && t.geometries == s.geometries
      && s.inFlight <= t.inFlight
      && forall r :: r in rs && |r.clients| >= 1 && r.id !in s.geometries ==> r.id in t.inFlight
  {
    if rs != [] {
      var front := rs[..|rs| - 1];
      BuildAllCovers(s, front);
      forall r | r in rs && |r.clients| >= 1 && r.id !in s.geometries
        ensures r.id in AfterBuildAll(s, rs).inFlight
      {
        if r != rs[|rs| - 1] {
          assert r in front;
        }
      }
    }
  }

  // ---------------------------------------------------------------------------
  // Unsticking
  // ---------------------------------------------------------------------------

  /**
   * Unsticking touches exactly its targets: each target is released, disarmed, un-marked and
   * evicted; every other route's entries are as before.
   */
  lemma FixStuckTargets(s: PageState, id: int)
    ensures var t := AfterFixStuck(s);
      && t.routes == s.routes && t.visible == s.visible && t.focused == s.focused
      && (id in IdsToRetry(s) ==>
            id !in t.inFlight && id !in t.watchdogs && !Loading(t, id) && id !in t.geometries)
      && (id !in IdsToRetry(s) ==>
            (id in t.inFlight <==> id in s.inFlight)
            && (id in t.watchdogs <==> id in s.watchdogs)
            && (id in s.watchdogs ==> t.watchdogs[id] == s.watchdogs[id])
            && (id in t.loading <==> id in s.loading)
            && (id in s.loading ==> t.loading[id] == s.loading[id])
            && (id in t.geometries <==> id in s.geometries)
            && (id in s.geometries ==> t.geometries[id] == s.geometries[id]))
  {
    var ids := Elems(IdsToRetry(s));
    assert id in IdsToRetry(s) <==> id in ids;
  }

  /** After unsticking, a visible route without geometry is idle, so the next sweep rebuilds it. */
  lemma FixStuckThenRetry(s: PageState, route: Route)
    requires route in s.routes && route.id in s.visible && |route.clients| >= 1
    ensures var t := AfterFixStuck(s);
      route.id !in t.geometries ==> CanStart(t, route) && route.id in AfterBuildStart(t, route).inFlight
  {
    var t := AfterFixStuck(s);
    FixStuckTargets(s, route.id);
    IdsToRetryExactly(s);
    if route.id !in IdsToRetry(s) {
      assert !Stuck(s, route.id);
    }
  }

  /** Unsticking does not change which routes are stuck. */
  lemma FixStuckKeepsTargets(s: PageState)
    ensures Elems(IdsToRetry(AfterFixStuck(s))) == Elems(IdsToRetry(s))
  {
    var t := AfterFixStuck(s);
    var ids := Elems(IdsToRetry(s));
    if ids != {} {
      IdsToRetryExactly(s);
      IdsToRetryExactly(t);
      assert forall x :: ShownId(t, x) == ShownId(s, x);
      forall x ensures x in IdsToRetry(t) <==> x in IdsToRetry(s) {
        if x in ids {
          assert x !in t.geometries;
        } else if !Stuck(s, x) {
          assert x in t.geometries;
          assert x in s.loading ==> t.loading[x] == s.loading[x];
        } else {
          assert x !in IdsToRetry(s);
        }
      }
    }
  }

  /** Unsticking twice is unsticking once. */
  lemma FixStuckIdempotent(s: PageState)
    ensures AfterFixStuck(AfterFixStuck(s)) == AfterFixStuck(s)
  {
    var t := AfterFixStuck(s);
    var ids := Elems(IdsToRetry(s));
    if ids != {} {
      FixStuckKeepsTargets(s);
      var u := AfterFixStuck(t);
      assert u.inFlight == t.inFlight && u.watchdogs == t.watchdogs && u.geometries == t.geometries;
      UnmarkedByParts(t.loading, t.loading, ids);
    }
  }

  // ---------------------------------------------------------------------------
  // Optimising
  // ---------------------------------------------------------------------------

  /** A second optimise request for an id that is already optimising changes nothing. */
  lemma OptimizeDeduplicates(s: PageState, id: int)
    ensures id in AfterOptimizeBegin(s, id).optimizeInFlight
    ensures AfterOptimizeBegin(AfterOptimizeBegin(s, id), id) == AfterOptimizeBegin(s, id)
  {
  }

  /**
   * A successful optimisation updates only that route's optimized result and evicts only that
   * route's cache entry (both variants); a failed one leaves routes and cache alone. Either way
   * the optimise claim is released.
   */
  lemma OptimizeOutcome(s: PageState, id: int, updated: Option<Optimized>, other: int)
    requires other != id
    ensures var ok := AfterOptimizeSucceed(s, id, updated);
      && id !in ok.geometries && id !in ok.optimizeInFlight
      && (other in ok.geometries <==> other in s.geometries)
      && (other in s.geometries ==> ok.geometries[other] == s.geometries[other])
      && |ok.routes| == |s.routes|
      && (forall i :: 0 <= i < |s.routes| ==>
            (ok.routes[i].id == s.routes[i].id
             && ok.routes[i].clients == s.routes[i].clients
             && (s.routes[i].id != id ==> ok.routes[i] == s.routes[i])))
      && ok.inFlight == s.inFlight && ok.loading == s.loading && ok.watchdogs == s.watchdogs
    ensures var failed := AfterOptimizeFail(s, id);
      && failed.geometries == s.geometries && failed.routes == s.routes
      && id !in failed.optimizeInFlight
  {
  }

  /**
   * After a successful re-optimisation of an idle route, the next build of that route starts
   * and its watchdog holds the new order, so the fallback follows the new order too.
   */
  lemma ReoptimizedRouteRebuildsWithNewOrder(s: PageState, i: nat, o: Optimized)
    requires i < |s.routes| && s.routes[i].id !in s.inFlight && |s.routes[i].clients| >= 1
    ensures var t := AfterOptimizeSucceed(s, s.routes[i].id, Some(o));
      var r := t.routes[i];
      && r.optimized == Some(o)
      && CanStart(t, r)
      && AfterBuildStart(t, r).watchdogs[r.id].route == r
      && FallbackEntry(r).optimized.Some? == HasOrder(r)
  {
  }

  /**
   * A build that was in flight when the optimisation returned still carries the old route:
   * its result lands in the cache, and the rebuild for the new order is skipped.
   */
  lemma InFlightBuildOutlivesReoptimize(s: PageState, route: Route, o: Optimized,
                                        baseline: RoadGeometry, optimized: Option<RoadGeometry>)
    requires Consistent(s) && route in s.routes && CanStart(s, route)
    ensures var started := AfterBuildStart(s, route);
      var reopt := AfterOptimizeSucceed(started, route.id, Some(o));
      var done := AfterBuildSucceed(reopt, route, baseline, optimized);
      && done.geometries[route.id] == CacheEntry(baseline, optimized)
      && forall r :: r in done.routes && r.id == route.id ==> AfterBuildStart(done, r) == done
  {
  }

  // ---------------------------------------------------------------------------
  // Deleting and refreshing
  // ---------------------------------------------------------------------------

  /**
   * A deletion forgets the route in the list, the visible ids, the cache, the loading marks,
   * the claims and the timers; the other routes and ids keep their order (the filters
   * distribute over concatenation); focus moves to the first remaining route, the first one of
   * the old list with another id, only when the deleted route had it.
   */
  lemma DeleteForgetsRoute(s: PageState, id: int)
    ensures var t := AfterDelete(s, id);
      && t.routes == WithoutRoute(s.routes, id) && t.visible == WithoutId(s.visible, id)
      && (forall r :: r in t.routes <==> r in s.routes && r.id != id)
      && id !in t.visible && (forall x :: x in t.visible <==> x in s.visible && x != id)
      && id !in t.geometries && id !in t.loading && id !in t.inFlight && id !in t.watchdogs
      && (s.focused != Some(id) ==> t.focused == s.focused)
      && (s.focused == Some(id) ==>
            t.focused == (if t.routes == [] then None else Some(t.routes[0].id)))
      && (s.focused == Some(id) && t.routes != [] ==>
            exists k :: 0 <= k < |s.routes| && Some(s.routes[k].id) == t.focused && s.routes[k].id != id
                        && forall j :: 0 <= j < k ==> s.routes[j].id == id)
      && t.optimizeInFlight == s.optimizeInFlight
  {
    var t := AfterDelete(s, id);
    if s.focused == Some(id) && t.routes != [] {
      WithoutRouteHead(s.routes, id);
    }
  }

  /**
   * A refresh shows every fetched route, focuses the first one, and starts the geometry
   * bookkeeping from scratch; the resulting state is consistent whatever came before.
   */
  lemma RefreshResets(s: PageState, raws: seq<RawRoute>)
    ensures var t := AfterRefresh(s, raws);
      && |t.routes| == |raws|
      && (forall i :: 0 <= i < |raws| ==> t.routes[i].id == raws[i].id && t.visible[i] == raws[i].id)
      && |t.visible| == |raws|
      && t.geometries == map[] && t.loading == map[] && t.inFlight == {} && t.watchdogs == map[]
      && (raws != [] && raws[0].id != 0 ==> t.focused == Some(raws[0].id))
      && Consistent(t)
  {
  }

  /** Toggling flips the route's own visibility and leaves every other route's alone. */
  lemma ToggleFlipsVisibility(s: PageState, id: int)
    ensures (id in AfterToggleVisibility(s, id).visible) <==> id !in s.visible
    ensures forall x :: x != id ==> (x in AfterToggleVisibility(s, id).visible <==> x in s.visible)
  {
  }
}
