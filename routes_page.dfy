/**
 * The routes page's component state, updated in place. Each method performs one reaction of
 * the page and is proved to land on the transition of RoutesState for that event, so every
 * method keeps `Valid()`.
 */
module RoutesPage {
  import opened Common
  import opened Geometry
  import opened RoutesState

  class Page {
    var routes: seq<Route>
    var visible: seq<int>
    var focused: Option<int>
    var geometries: map<int, CacheEntry>
    var loading: map<int, bool>
    var inFlight: set<int>
    var watchdogs: map<int, Timer>
    var optimizeInFlight: set<int>
    var baselineInFlight: set<int>

    function State(): PageState
      reads this
    {
      PageState(routes, visible, focused, geometries, loading, inFlight, watchdogs,
                optimizeInFlight, baselineInFlight)
    }

    ghost predicate Valid()
      reads this
    {
      Consistent(State())
    }

    constructor ()
      ensures State() == Initial && Valid()
    {
      routes, visible, focused := [], [], None;
      geometries, loading, inFlight, watchdogs := map[], map[], {}, map[];
      optimizeInFlight, baselineInFlight := {}, {};
    }

    /** `fetchRoutes` once the list has arrived; returns the routes whose baseline must be computed. */
    method Refresh(raws: seq<RawRoute>) returns (missing: seq<int>)
      modifies this
      ensures State() == AfterRefresh(old(State()), raws)
      ensures missing == MissingBaseline(routes)
      ensures Valid()
    {
      var processed := ProcessRoutes(raws);
      inFlight := {};
      watchdogs := map[];
      routes := processed;
      visible := RouteIds(processed);
      focused := if |processed| > 0 && processed[0].id != 0 then Some(processed[0].id) else None;
      geometries := map[];
      loading := map[];
      missing := MissingBaseline(processed);
    }

    /** `deleteRoute`: nothing happens unless the user confirms and the server accepts. */
    method DeleteRoute(id: int, confirmed: bool, serverOk: bool)
      requires Valid()
      modifies this
      ensures State() == if confirmed && serverOk then AfterDelete(old(State()), id) else old(State())
      ensures Valid()
    {
      if !confirmed || !serverOk {
        return;
      }
      ghost var target := AfterDelete(State(), id);
      DeleteKeepsConsistent(State(), id);
      var nextRoutes := WithoutRoute(routes, id);
      var nextFocus := focused;
      if focused == Some(id) {
        nextFocus := if |nextRoutes| > 0 then Some(nextRoutes[0].id) else None;
      }
      inFlight, watchdogs, geometries, loading := inFlight - {id}, watchdogs - {id}, geometries - {id}, loading - {id};
      routes, visible, focused := nextRoutes, WithoutId(visible, id), nextFocus;
      assert State() == target;
    }

    method ToggleRouteVisibility(id: int)
      requires Valid()
      modifies this
      ensures State() == AfterToggleVisibility(old(State()), id)
      ensures Valid()
    {
      visible := if id in visible then WithoutId(visible, id) else visible + [id];
    }

    method HandleRouteClick(id: int)
      requires Valid()
      modifies this
      ensures State() == AfterRouteClick(old(State()), id)
      ensures Valid()
    {
      focused := Some(id);
      if id !in visible {
        visible := visible + [id];
      }
    }

    /** The synchronous part of `buildForRoute`; reports whether a build was started. */
    method BuildStart(route: Route) returns (started: bool)
      requires Valid()
      modifies this
      ensures State() == AfterBuildStart(old(State()), route)
      ensures started == CanStart(old(State()), route)
      ensures Valid()
    {
      var id := route.id;
      if id in geometries || id in inFlight || |route.clients| < 1 {
        return false;
      }
      inFlight := inFlight + {id};
      loading := loading[id := true];
      watchdogs := watchdogs[id := Timer(route, true)];
      started := true;
      BuildStartKeepsConsistent(old(State()), route);
    }

    /** The watchdog's callback, run when its 20-second timer elapses. */
    method WatchdogExpire(id: int)
      requires Valid() && Armed(State(), id)
      modifies this
      ensures State() == AfterWatchdogExpire(old(State()), id)
      ensures Valid()
    {
      var route := watchdogs[id].route;
      geometries := geometries[id := FallbackEntry(route)];
      loading := loading[id := false];
      inFlight := inFlight - {id};
      watchdogs := watchdogs[id := Timer(route, false)];
      WatchdogKeepsConsistent(old(State()), id);
    }

    /** The `finally` block, shared by both outcomes of a build. */
    method Settle(id: int)
      modifies this
      ensures State() == AfterFinally(old(State()), id)
    {
      if id in watchdogs {
        watchdogs := watchdogs - {id};
      }
      loading := loading[id := false];
      inFlight := inFlight - {id};
    }

    /**
     * A build's network part returned. `geometry` is the road geometry of the baseline and,
     * when one was requested, the optimized variant; None when either routing call threw.
     */
    method BuildFinish(route: Route, geometry: Option<(RoadGeometry, Option<RoadGeometry>)>)
      requires Valid()
      requires geometry.Some? ==> (geometry.value.1.Some? <==> OptimizedRequested(route))
      modifies this
      ensures geometry.Some? ==>
        State() == AfterBuildSucceed(old(State()), route, geometry.value.0, geometry.value.1)
      ensures geometry.None? ==> State() == AfterBuildFail(old(State()), route)
      ensures Valid()
    {
      if geometry.Some? {
        geometries := geometries[route.id := CacheEntry(geometry.value.0, geometry.value.1)];
        Settle(route.id);
        BuildSucceedKeepsConsistent(old(State()), route, geometry.value.0, geometry.value.1);
      } else {
        geometries := geometries[route.id := FallbackEntry(route)];
        Settle(route.id);
        BuildFailKeepsConsistent(old(State()), route);
      }
    }

    /** The effect's `visibleRoutes.forEach(buildForRoute)`, synchronous parts in list order. */
    method BuildVisible()
      requires Valid()
      modifies this
      ensures State() == AfterBuildAll(old(State()), VisibleRoutes(old(routes), old(visible)))
      ensures Valid()
    {
      var vr := VisibleRoutes(routes, visible);
      if |vr| == 0 {
        return;
      }
      var i := 0;
      while i < |vr|
        invariant 0 <= i <= |vr|
        invariant Valid()
        invariant State() == AfterBuildAll(old(State()), vr[..i])
      {
        assert vr[..i + 1][..i] == vr[..i];
        var _ := BuildStart(vr[i]);
        i := i + 1;
      }
      assert vr[..i] == vr;
    }

    /** `fixStuckRoutes`. */
    method FixStuckRoutes()
      requires Valid()
      modifies this
      ensures State() == AfterFixStuck(old(State()))
      ensures Valid()
    {
      var idsToRetry := IdsToRetry(State());
      if |idsToRetry| == 0 {
        return;
      }
      ghost var s0 := State();
      inFlight := ReleaseAll(inFlight, idsToRetry);
      watchdogs := DisarmAll(watchdogs, idsToRetry);
      loading := MarkIdle(loading, idsToRetry);
      geometries := EvictAll(geometries, idsToRetry);
      FixStuckByParts(s0, State());
      FixStuckKeepsConsistent(s0);
    }

    /** `handleOptimize` up to its await; reports whether the call goes out. */
    method OptimizeBegin(id: int) returns (started: bool)
      requires Valid()
      modifies this
      ensures State() == AfterOptimizeBegin(old(State()), id)
      ensures started <==> id !in old(optimizeInFlight)
      ensures Valid()
    {
      if id in optimizeInFlight {
        return false;
      }
      optimizeInFlight := optimizeInFlight + {id};
      started := true;
    }

    /** The optimisation call returned `updated` (None: the call threw). */
    method OptimizeFinish(id: int, updated: Option<Option<Optimized>>)
      requires Valid() && id in optimizeInFlight
      modifies this
      ensures updated.Some? ==> State() == AfterOptimizeSucceed(old(State()), id, updated.value)
      ensures updated.None? ==> State() == AfterOptimizeFail(old(State()), id)
      ensures Valid()
    {
      if updated.Some? {
        routes := WithOptimized(routes, id, updated.value);
        geometries := geometries - {id};
        OptimizeSucceedKeepsConsistent(old(State()), id, updated.value);
      }
      optimizeInFlight := optimizeInFlight - {id};
    }

    /** One iteration of the missing-baseline loop, up to its await; reports whether it goes out. */
    method BaselineBegin(id: int) returns (started: bool)
      requires Valid()
      modifies this
      ensures State() == AfterBaselineBegin(old(State()), id)
      ensures started <==> id !in old(baselineInFlight)
      ensures Valid()
    {
      if id in baselineInFlight {
        return false;
      }
      baselineInFlight := baselineInFlight + {id};
      started := true;
    }

    /** The baseline call returned `updated` (None: the call threw). */
    method BaselineFinish(id: int, updated: Option<Option<Summary>>)
      requires Valid() && id in baselineInFlight
      modifies this
      ensures updated.Some? ==> State() == AfterBaselineSucceed(old(State()), id, updated.value)
      ensures updated.None? ==> State() == AfterBaselineFail(old(State()), id)
      ensures Valid()
    {
      if updated.Some? {
        routes := WithBaseline(routes, id, updated.value);
      }
      baselineInFlight := baselineInFlight - {id};
    }
  }
  /** The four per-id sweeps of `fixStuckRoutes` together make up the unstick transition. */
  lemma FixStuckByParts(s: PageState, t: PageState)
    requires IdsToRetry(s) != []
    requires t.routes == s.routes && t.visible == s.visible && t.focused == s.focused
    requires t.optimizeInFlight == s.optimizeInFlight && t.baselineInFlight == s.baselineInFlight
    requires t.inFlight == s.inFlight - Elems(IdsToRetry(s))
    requires t.watchdogs == s.watchdogs - Elems(IdsToRetry(s))
    requires t.geometries == s.geometries - Elems(IdsToRetry(s))
    requires t.loading.Keys == s.loading.Keys + Elems(IdsToRetry(s))
    requires forall k :: k in t.loading ==> t.loading[k] == (k !in Elems(IdsToRetry(s)) && s.loading[k])
    ensures t == AfterFixStuck(s)
  {
    var ids := Elems(IdsToRetry(s));
    assert IdsToRetry(s)[0] in ids;
    UnmarkedByParts(t.loading, s.loading, ids);
  }

  /** `idsToRetry.forEach(id => inFlightRef.current.delete(id))`. */
  method ReleaseAll(claims: set<int>, ids: seq<int>) returns (r: set<int>)
    ensures r == claims - Elems(ids)
  {
    r := claims;
    var i := 0;
    while i < |ids|
      invariant 0 <= i <= |ids|
      invariant r == claims - Elems(ids[..i])
    {
      assert ids[..i + 1] == ids[..i] + [ids[i]];
      r := r - {ids[i]};
      i := i + 1;
    }
    assert ids[..i] == ids;
  }

  /** Clears and forgets the timer of every id that has one. */
  method DisarmAll(timers: map<int, Timer>, ids: seq<int>) returns (r: map<int, Timer>)
    ensures r == timers - Elems(ids)
  {
    r := timers;
    var i := 0;
    while i < |ids|
      invariant 0 <= i <= |ids|
      invariant r == timers - Elems(ids[..i])
    {
      assert ids[..i + 1] == ids[..i] + [ids[i]];
      if ids[i] in r {
        r := r - {ids[i]};
      }
      i := i + 1;
    }
    assert ids[..i] == ids;
  }

  /** `idsToRetry.forEach(id => (copy[id] = false))` on a copy of the loading marks. */
  method MarkIdle(marks: map<int, bool>, ids: seq<int>) returns (r: map<int, bool>)
    ensures r.Keys == marks.Keys + Elems(ids)
    ensures forall k :: k in r ==> r[k] == (k !in Elems(ids) && marks[k])
  {
    r := marks;
    var i := 0;
    while i < |ids|
      invariant 0 <= i <= |ids|
      invariant r.Keys == marks.Keys + Elems(ids[..i])
      invariant forall k :: k in r ==> r[k] == (k !in Elems(ids[..i]) && marks[k])
    {
      assert ids[..i + 1] == ids[..i] + [ids[i]];
      r := r[ids[i] := false];
      i := i + 1;
    }
    assert ids[..i] == ids;
  }

  /** `idsToRetry.forEach(id => delete copy[id])` on a copy of the cache. */
  method EvictAll(cache: map<int, CacheEntry>, ids: seq<int>) returns (r: map<int, CacheEntry>)
    ensures r == cache - Elems(ids)
  {
    r := cache;
    var i := 0;
    while i < |ids|
      invariant 0 <= i <= |ids|
      invariant r == cache - Elems(ids[..i])
    {
      assert ids[..i + 1] == ids[..i] + [ids[i]];
      r := r - {ids[i]};
      i := i + 1;
    }
    assert ids[..i] == ids;
  }
}
