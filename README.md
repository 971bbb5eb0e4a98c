# QuickRoute route planner: a verified model of its core

QuickRoute lets a logged-in user create delivery routes: a route is a named list of client
stops, served from one of three warehouses. A server optimises the visiting order, and a
public OSRM router draws each route on a map twice: the recorded order (the *baseline*) and
the optimised order. This project models in Dafny the parts of the system that decide what
gets drawn, stored and counted, and proves what each of them promises.

- **The routes page** (`Routes.js`).
  - `Geometry` holds its pure helpers: stop sequences, the straight-line fallback, the client
    normalisation and the figures of the route list.
  - `RoutesState` is its geometry bookkeeping written as a state machine over `PageState`.
    The bookkeeping covers the routes list, the visible ids, the focus, the cache, the loading
    marks, the in-flight claims, the watchdog timers and the optimise and baseline claims. Each
    reaction of the page is one pure transition.
  - `RoutesPage.Page` is a class with the same fields, updated in place. Each of its methods is
    proved to land on that transition. The invariant `Consistent` is proved to hold after every
    event and after any run of events. It says that a route is in flight exactly when it is
    marked loading and exactly when its watchdog is pending, and that an in-flight route has no
    cached geometry.
- **The routing client** (`osrm.js`, module `Osrm`): `buildRoadRoute` checks the stops, builds
  the request URL and interprets the router's answer. The network outcome is a parameter.
- **The statistics page** (`StatisticsPage.jsx`, module `Statistics`): the include/exclude
  map, the totals derived from the included items, and the ranked chart rows.
- **The route form** (`AddRoute.js`, module `AddRoute`): the editable stop list (a class), the
  stops fit to be saved, the checks before saving, how the new route's id is found, and the
  client POSTs sent for its stops.
- **The REST handlers for routes** (`routes_api.py`, module `RoutesApi`): an in-memory store
  (a class) of routes and clients. It has per-user ownership, cascading deletes and
  transaction rollback on failure.
- **Registration and login** (`auth.py`, module `Auth`): a user table with unique normalised
  emails. Password hashing is a parameter.

`Common` holds the helpers they share: `Option`/`Result`, JavaScript `trim()` and Python
`strip()` with their own whitespace sets, ASCII lower-casing, and decimal text.

Three behaviours of the routes page may surprise a reader; the model keeps them as the code has them:
- **No settlement flag.** A network result that arrives after the watchdog published the
  fallback still replaces the fallback in the cache, and its `finally` still clears the id
  (`RoutesState.LateResultOverwritesFallback`). The watchdog's own timer entry is not deleted
  when it fires; only the build's `finally` deletes it.
- **One cache entry per route.** The cache holds both variants in one entry per route, and a
  successful optimisation evicts that whole entry, baseline included
  (`RoutesState.OptimizeOutcome`).
- **A stale build can outlive an optimisation.** A build that was in flight when an
  optimisation returned still lands its result, computed for the old order. The rebuild for
  the new order is then skipped (`RoutesState.InFlightBuildOutlivesReoptimize`).

## Model

Source paths are relative to the repository root.

| member | source | states |
|---|---|---|
| Common.TrimEmptyIffBlank | frontend/src/pages/AddRoute.js:139-140 | a trimmed text is empty exactly when every character of the input is whitespace |
| Common.HasNonSpaceIffTrimmedNonEmpty | frontend/src/pages/AddRoute.js:139-140 | `trim() !== ""` holds exactly when the text has a non-whitespace character |
| Common.DecimalRoundTrip | frontend/src/pages/AddRoute.js:237 | the decimal text written for a number reads back as that number |
| Geometry.FindOrFirst | frontend/src/pages/Routes.js:92-94 | the result is one of the warehouses: the first warehouse with the requested id when any has it, otherwise the first warehouse |
| Geometry.GetWarehouseById | frontend/src/pages/Routes.js:92-94 | ids 1-3 give that hard-coded warehouse; any other or missing id gives Warehouse 1 |
| Geometry.BuildBaselineStops | frontend/src/pages/Routes.js:110-116 | Warehouse 1 first, then exactly the route's clients in recorded order |
| Geometry.OrderedClients | frontend/src/pages/Routes.js:124-125 | every ordered client is a client of the route; none is lost when every id in the order is known |
| Geometry.OrderedClientsFollowOrder | frontend/src/pages/Routes.js:124-125 | the clients' ids are exactly the known ids of the order, in the order's order, unknown ids skipped |
| Geometry.BuildOptimizedStops | frontend/src/pages/Routes.js:119-131 | null exactly without a non-empty order; otherwise the chosen warehouse first, then the clients following the order |
| Geometry.FallbackGeometry | frontend/src/pages/Routes.js:349-362 | the straight line through the stops, point by point in stop order, with zero distance and duration |
| Geometry.FallbackEntry | frontend/src/pages/Routes.js:390-404 | the baseline fallback always, and the optimized fallback exactly when optimized stops exist |
| Geometry.FallbackBaselineShape | frontend/src/pages/Routes.js:349-350 | the baseline fallback starts at Warehouse 1 and then passes each client in order |
| Geometry.ToNum | frontend/src/pages/Routes.js:80-83 | a number exactly when the field is a finite number, and then that number |
| Geometry.NormalizeClientStop | frontend/src/pages/Routes.js:85-90 | a stop exactly when `lat ?? latitude` and `lon ?? lng ?? longitude` are finite; it carries those numbers, the client's id and its name or "" |
| Geometry.NormalizeClients | frontend/src/pages/Routes.js:221 | the kept stops all come from the received clients, none is a warehouse, and none is dropped when all are valid |
| Geometry.NormalizeClientsKeepsValidList | frontend/src/pages/Routes.js:221 | when every client has coordinates, the i-th stop is the i-th client normalised |
| Geometry.NormalizeClientsDistributes | frontend/src/pages/Routes.js:221 | normalising keeps the recorded order: it distributes over concatenation, so dropped clients leave the others in place |
| Geometry.ProcessRoute | frontend/src/pages/Routes.js:220-230 | the route keeps its id, name, baseline and optimized result, and its clients are exactly the normalised list of the received clients |
| Geometry.GetTrafficSeconds | frontend/src/pages/Routes.js:97-102 | a value exactly when the traffic part exists, has no error and a positive duration; the value is positive |
| Geometry.BestTimeSeconds | frontend/src/pages/Routes.js:105-107 | the usable traffic time when there is one, otherwise the plain duration, otherwise null |
| Geometry.Pct | frontend/src/pages/Routes.js:74-77 | defined exactly for a positive base; the percentage times the base is 100 times the saving; it lies in 0..100 for a saving within the base and is 0 exactly when nothing is saved |
| Geometry.DistanceImprovement | frontend/src/pages/Routes.js:539-542 | shown exactly when the baseline distance is positive and the optimized distance is known and non-zero, and then it is their percentage saving |
| Geometry.TimeImprovement | frontend/src/pages/Routes.js:544-546 | shown exactly when the baseline best time is positive and the optimized best time is known and non-zero, and then it is their percentage saving |
| Geometry.RoundMinutes | frontend/src/pages/Routes.js:67 | the minute count is within half a minute of the duration |
| Geometry.FormatMin | frontend/src/pages/Routes.js:66-72 | under 60 rounded minutes as minutes; otherwise at least one hour and 0-59 minutes that add back to the rounded minutes |
| Osrm.FirstInvalidStop | frontend/src/utils/osrm.js:18-24 | none exactly when every stop has finite coordinates; otherwise the first stop without them |
| Osrm.RequestUrlListsStops | frontend/src/utils/osrm.js:26-29 | the URL is the base, the profile, then every stop in order as longitude and latitude, then the fixed query; cutting and splitting gives each stop's two texts back |
| Osrm.SwapToLatLng | frontend/src/utils/osrm.js:47 | one point per coordinate pair, in order, with latitude and longitude swapped into place |
| Osrm.SwapRoundTrip | frontend/src/utils/osrm.js:47 | the swap loses, adds and reorders nothing |
| Osrm.Interpret | frontend/src/utils/osrm.js:34-58 | a geometry exactly when the answer is ok and its first route has coordinates; it carries them swapped and distance and duration defaulting to 0; abort, network failure and HTTP failure give their own errors |
| Osrm.BuildRoadRoute | frontend/src/utils/osrm.js:9-62 | fewer than two stops give an empty route with no request; an invalid stop gives the first invalid index with no request; otherwise one request with the profile and timeout defaults and the interpreted answer, which is never an empty line |
| Statistics.SafeNumber | frontend/src/pages/StatisticsPage.jsx:42-44 | a finite number passes unchanged; anything else counts as 0 |
| Statistics.SumAppend | frontend/src/pages/StatisticsPage.jsx:46-48 | the sum over two lists joined is the sum of their sums |
| Statistics.SumNonNegative | frontend/src/pages/StatisticsPage.jsx:46-48 | a sum of non-negative fields is non-negative, and 0 when no field counts |
| Statistics.ActivePlusArchived | frontend/src/pages/StatisticsPage.jsx:128-130 | the active and archived counts add up to the number of items |
| Statistics.ToggleFlipsOnlyThatId | frontend/src/pages/StatisticsPage.jsx:71-79 | toggling flips that id's inclusion, leaves every other id's alone, and toggling twice restores it |
| Statistics.IncludeAllIncludesEverything | frontend/src/pages/StatisticsPage.jsx:81 | after include-all every id is included |
| Statistics.ExclusionMap | frontend/src/pages/StatisticsPage.jsx:82-89 | every loaded item is excluded, and the map mentions only loaded ids |
| Statistics.InclusionPanel.constructor | frontend/src/pages/StatisticsPage.jsx:59-65 | the panel starts from the saved map |
| Statistics.InclusionPanel.Toggle | frontend/src/pages/StatisticsPage.jsx:73-79 | the map becomes the toggled map |
| Statistics.InclusionPanel.IncludeAll | frontend/src/pages/StatisticsPage.jsx:81 | the map is emptied, so every id is included |
| Statistics.InclusionPanel.ExcludeAll | frontend/src/pages/StatisticsPage.jsx:82-89 | every loaded item is excluded, and only loaded ids are mentioned |
| Statistics.IncludedItems | frontend/src/pages/StatisticsPage.jsx:124-125 | an item is kept exactly when it is loaded and included |
| Statistics.IncludedItemsDistributes | frontend/src/pages/StatisticsPage.jsx:124-125 | the included items keep the loaded order: the filter distributes over concatenation |
| Statistics.IncludeAllKeepsEveryItem | frontend/src/pages/StatisticsPage.jsx:81 | with an empty map every loaded item is included, in order |
| Statistics.InclusionSplits | frontend/src/pages/StatisticsPage.jsx:124-125 | included and excluded items partition the list: counts and every sum add up to the whole |
| Statistics.Saving | frontend/src/pages/StatisticsPage.jsx:150-156 | a saving exactly when both sums are non-zero, and then it is the baseline minus the optimized sum |
| Statistics.SavingPct | frontend/src/pages/StatisticsPage.jsx:158-166 | a percentage exactly when the baseline is positive and a saving exists; the percentage times the baseline is 100 times the saving |
| Statistics.DerivedTotals | frontend/src/pages/StatisticsPage.jsx:127-185 | every count, sum and the stop total is taken over the included items; active plus archived make the total; a saving exists exactly when both sums are non-zero and is their difference; each percentage is the saving over its positive baseline |
| Statistics.InsertDescending | frontend/src/pages/StatisticsPage.jsx:190-193 | inserting into a list in descending order keeps it descending and adds exactly that item |
| Statistics.SortDescending | frontend/src/pages/StatisticsPage.jsx:190-193 | the result is in descending baseline distance and is a permutation of the input |
| Statistics.ComparableItems | frontend/src/pages/StatisticsPage.jsx:189 | an item is kept exactly when it is included and comparable |
| Statistics.ComparableItemsDistributes | frontend/src/pages/StatisticsPage.jsx:189 | the comparable items keep their order: the filter distributes over concatenation |
| Statistics.ChartName | frontend/src/pages/StatisticsPage.jsx:196 | the first 14 characters of the name, or of `#id` when the name is missing or empty, and all of it when shorter |
| Statistics.ChartData | frontend/src/pages/StatisticsPage.jsx:188-204 | at most ten rows: the first ten of the comparable items sorted by baseline distance, or all of them when fewer |
| Statistics.ChartRowsAreRanked | frontend/src/pages/StatisticsPage.jsx:188-204 | every row comes from an included comparable item, the rows run from the longest baseline down, and with ten or fewer comparable items each one is shown |
| AddRoute.DropTrailingSlash | frontend/src/pages/AddRoute.js:40 | exactly one trailing slash is removed, and only when present |
| AddRoute.ApiUrl | frontend/src/pages/AddRoute.js:42-46 | the URL starts with the base and ends with the path, joined by exactly the one slash the path may lack |
| AddRoute.ApiUrlNoDoubleSlash | frontend/src/pages/AddRoute.js:39-46 | a base configured with a trailing slash gives no double slash before an absolute path |
| AddRoute.ApiBaseOfConfigured | frontend/src/pages/AddRoute.js:39-40 | `API_BASE` of a configured host padded with whitespace and ending in one slash is the host: the trim drops the padding, then the one trailing slash goes |
| AddRoute.ApiUrlFromConfiguredBase | frontend/src/pages/AddRoute.js:39-46 | such a padded, slash-terminated configuration joins an absolute path as host + path, with no double slash |
| Common.TrimPadded | frontend/src/pages/AddRoute.js:39 | trimming a text padded with whitespace on both sides gives back the text, when it has no whitespace at either end |
| AddRoute.WithStopAdded | frontend/src/pages/AddRoute.js:111-115 | the old stops are kept and one blank stop with the new id is appended |
| AddRoute.WithoutStop | frontend/src/pages/AddRoute.js:119 | the kept stops are exactly those with another id |
| AddRoute.WithoutStopDistributes | frontend/src/pages/AddRoute.js:119 | the kept stops stay in list order: the filter distributes over concatenation |
| AddRoute.Removal | frontend/src/pages/AddRoute.js:117-128 | the list is never empty: an emptied list becomes one fresh blank stop, made active; removing the active stop activates the first one left; the active id names a stop |
| AddRoute.WithField | frontend/src/pages/AddRoute.js:130-134 | only the stops with that id change, and only in the named field |
| AddRoute.WithClick | frontend/src/pages/AddRoute.js:48-61 | with an active stop its coordinates become the clicked ones; every other stop is unchanged, and without an active stop nothing changes |
| AddRoute.RouteForm.constructor | frontend/src/pages/AddRoute.js:70-72 | an empty name and one blank stop with id 1, made active |
| AddRoute.RouteForm.SetRouteName | frontend/src/pages/AddRoute.js:70 | only the name changes |
| AddRoute.RouteForm.AddStop | frontend/src/pages/AddRoute.js:111-115 | a blank stop is appended and made active; the list stays valid |
| AddRoute.RouteForm.RemoveStop | frontend/src/pages/AddRoute.js:117-128 | the list and active id become the removal's; the list is never empty and the active id names a stop |
| AddRoute.RouteForm.ChangeStop | frontend/src/pages/AddRoute.js:130-134 | the field edit is applied; the active stop stays a stop |
| AddRoute.RouteForm.MapClick | frontend/src/pages/AddRoute.js:48-61 | the active stop takes the clicked coordinates; nothing else changes |
| AddRoute.RouteForm.SelectStop | frontend/src/pages/AddRoute.js:329 | clicking a stop's row makes it the active stop; the list and the name stay |
| AddRoute.RouteForm.ResetAfterSave | frontend/src/pages/AddRoute.js:259-262 | after a save, an empty name and one fresh blank stop, made active |
| AddRoute.CleanedStops | frontend/src/pages/AddRoute.js:136-144 | a stop is kept exactly when both coordinates are non-blank and read as numbers |
| AddRoute.CleanedStopsDistributes | frontend/src/pages/AddRoute.js:136-144 | cleaning keeps the stops' order: it distributes over concatenation |
| AddRoute.CleanedStopsKeepsCleanList | frontend/src/pages/AddRoute.js:136-144 | a list of usable stops is kept whole |
| AddRoute.SelectedWarehouse | frontend/src/pages/AddRoute.js:77-80 | none exactly when no warehouse is loaded; otherwise the first warehouse with id 1 if one is loaded, else the first one |
| AddRoute.SubmitCheck | frontend/src/pages/AddRoute.js:146-168 | the save proceeds exactly with a non-blank name, a usable stop, a token and a warehouse; each refusal names the first check that failed, after the earlier ones passed |
| AddRoute.LargestMatchingId | frontend/src/pages/AddRoute.js:220-224 | none exactly when no listed route has the name; otherwise the largest id among those that do |
| AddRoute.ResolveRouteId | frontend/src/pages/AddRoute.js:200-231 | the created id when non-zero; otherwise the item id when non-zero; otherwise an id exactly when the listing succeeded and its largest id with the trimmed name is non-zero, and then that id |
| AddRoute.PayloadNameChoice | frontend/src/pages/AddRoute.js:237 | the client name is never empty: the trimmed label, or `Stop ` followed by the stop's 1-based position |
| AddRoute.RequestsAreStops | frontend/src/pages/AddRoute.js:233-249 | the i-th POST goes to the route's clients URL and carries the i-th cleaned stop's name and coordinates |
| AddRoute.ClientRequests | frontend/src/pages/AddRoute.js:233-255 | one POST per cleaned stop, in list order |
| RoutesState.VisibleRoutes | frontend/src/pages/Routes.js:322-325 | a route is visible exactly when it is listed and its id is among the visible ids |
| RoutesState.VisibleRoutesDistributes | frontend/src/pages/Routes.js:322-325 | the visible routes keep the list's order: the filter distributes over concatenation |
| RoutesState.WithoutRoute | frontend/src/pages/Routes.js:300 | exactly the routes with another id remain |
| RoutesState.WithoutRouteDistributes | frontend/src/pages/Routes.js:300 | the remaining routes keep their order: the filter distributes over concatenation |
| RoutesState.WithoutRouteHead | frontend/src/pages/Routes.js:300-304 | the first remaining route is the first route of the old list with another id |
| RoutesState.WithoutId | frontend/src/pages/Routes.js:301 | exactly the other ids remain |
| RoutesState.WithoutIdDistributes | frontend/src/pages/Routes.js:301 | the remaining ids keep their order: the filter distributes over concatenation |
| RoutesState.StuckAmong | frontend/src/pages/Routes.js:419-421 | an id is kept exactly when it has no cached geometry or is still marked loading |
| RoutesState.IdsToRetryExactly | frontend/src/pages/Routes.js:419-421 | the retry targets are exactly the visible listed routes that are stuck |
| RoutesState.Unmarked | frontend/src/pages/Routes.js:433-437 | every target is marked not loading; every other mark stays |
| RoutesState.WithOptimized | frontend/src/pages/Routes.js:454-458 | only the route with that id changes, and only its optimized result; a missing result keeps the old one |
| RoutesState.WithBaseline | frontend/src/pages/Routes.js:250-254 | only the route with that id changes, and only its baseline; a missing baseline keeps the old one |
| RoutesState.MissingBaseline | frontend/src/pages/Routes.js:244 | exactly the ids of the routes without a baseline |
| RoutesState.MissingBaselineDistributes | frontend/src/pages/Routes.js:244 | the ids come in list order: the filter distributes over concatenation |
| RoutesState.ProcessRoutes | frontend/src/pages/Routes.js:220-230 | one processed route per received route, in order |
| RoutesState.InitialConsistent | frontend/src/pages/Routes.js:150-163 | the page starts consistent |
| RoutesState.BuildStartKeepsConsistent | frontend/src/pages/Routes.js:340-366 | starting a build keeps the bookkeeping consistent |
| RoutesState.WatchdogKeepsConsistent | frontend/src/pages/Routes.js:348-366 | a firing watchdog keeps the bookkeeping consistent |
| RoutesState.BuildSucceedKeepsConsistent | frontend/src/pages/Routes.js:384-412 | a successful build keeps the bookkeeping consistent |
| RoutesState.BuildFailKeepsConsistent | frontend/src/pages/Routes.js:388-412 | a failed build keeps the bookkeeping consistent |
| RoutesState.FixStuckKeepsConsistent | frontend/src/pages/Routes.js:418-444 | unsticking keeps the bookkeeping consistent |
| RoutesState.OptimizeSucceedKeepsConsistent | frontend/src/pages/Routes.js:454-464 | a successful optimisation keeps the bookkeeping consistent |
| RoutesState.DeleteKeepsConsistent | frontend/src/pages/Routes.js:282-304 | a deletion keeps the bookkeeping consistent |
| RoutesState.StepKeepsConsistent | frontend/src/pages/Routes.js:333-416 | every event that can happen keeps the bookkeeping consistent |
| RoutesState.RunKeepsConsistent | frontend/src/pages/Routes.js:333-416 | any sequence of events that can happen keeps the bookkeeping consistent |
| RoutesState.BuildStartDeduplicates | frontend/src/pages/Routes.js:340-348 | a started build claims its id, marks it loading and arms one timer holding the route; nothing else changes, and a second start is a no-op |
| RoutesState.CompletionReleases | frontend/src/pages/Routes.js:384-412 | after success or failure the id is idle (not loading, not claimed, no timer), with the road or fallback geometry cached |
| RoutesState.LateResultOverwritesFallback | frontend/src/pages/Routes.js:348-387 | after the watchdog published the fallback, a late result still replaces it and its cleanup still clears the id |
| RoutesState.BuildAllCovers | frontend/src/pages/Routes.js:415 | the sweep leaves the cache alone, keeps existing claims, and puts every listed route with clients and no cached geometry in flight |
| RoutesState.FixStuckTargets | frontend/src/pages/Routes.js:418-444 | each target is released, disarmed, un-marked and evicted; every other id's entries are unchanged, as are the routes, visible ids and focus |
| RoutesState.FixStuckThenRetry | frontend/src/pages/Routes.js:418-444 | after unsticking, a visible route with clients and no geometry can start a build again |
| RoutesState.FixStuckKeepsTargets | frontend/src/pages/Routes.js:419-421 | unsticking does not change which routes count as stuck |
| RoutesState.FixStuckIdempotent | frontend/src/pages/Routes.js:418-444 | unsticking twice is unsticking once |
| RoutesState.OptimizeDeduplicates | frontend/src/pages/Routes.js:448-449 | a second optimise request for an id already optimising changes nothing |
| RoutesState.OptimizeOutcome | frontend/src/pages/Routes.js:447-471 | success changes only that route's optimized result and evicts only its cache entry; failure changes neither; both release the claim |
| RoutesState.ReoptimizedRouteRebuildsWithNewOrder | frontend/src/pages/Routes.js:460-464 | after re-optimising an idle route, its next build starts with the new order, and so does its fallback |
| RoutesState.InFlightBuildOutlivesReoptimize | frontend/src/pages/Routes.js:384-387 | a build in flight during an optimisation still caches its old-order result, and the rebuild is then skipped |
| RoutesState.DeleteForgetsRoute | frontend/src/pages/Routes.js:269-309 | the route disappears from the list, visible ids, cache, marks, claims and timers, the rest keeping their order; focus moves only when the deleted route had it, to the first route of the old list with another id |
| RoutesState.RefreshResets | frontend/src/pages/Routes.js:232-241 | every fetched route is listed and visible in order, the first one is focused, and the bookkeeping restarts empty and consistent |
| RoutesState.ToggleFlipsVisibility | frontend/src/pages/Routes.js:311-315 | toggling flips the route's visibility and leaves every other route's alone |
| RoutesPage.Page.constructor | frontend/src/pages/Routes.js:150-163 | the page starts in the initial, consistent state |
| RoutesPage.Page.Refresh | frontend/src/pages/Routes.js:211-244 | the state becomes the refresh transition's, and the routes missing a baseline are reported |
| RoutesPage.Page.DeleteRoute | frontend/src/pages/Routes.js:269-309 | the deletion transition when confirmed and accepted by the server, otherwise nothing; the state stays consistent |
| RoutesPage.Page.ToggleRouteVisibility | frontend/src/pages/Routes.js:311-315 | the toggle transition |
| RoutesPage.Page.HandleRouteClick | frontend/src/pages/Routes.js:317-320 | the click transition: focus and show the route |
| RoutesPage.Page.BuildStart | frontend/src/pages/Routes.js:337-366 | the build-start transition; reports whether the guard let the build start |
| RoutesPage.Page.WatchdogExpire | frontend/src/pages/Routes.js:348-366 | the watchdog transition, keeping the state consistent |
| RoutesPage.Page.Settle | frontend/src/pages/Routes.js:405-412 | the cleanup transition: no timer, not loading, not claimed |
| RoutesPage.Page.BuildFinish | frontend/src/pages/Routes.js:368-412 | the success or failure transition of a build, keeping the state consistent |
| RoutesPage.Page.BuildVisible | frontend/src/pages/Routes.js:333-416 | a build is started for each visible route in list order, keeping the state consistent |
| RoutesPage.Page.FixStuckRoutes | frontend/src/pages/Routes.js:418-444 | the unstick transition, keeping the state consistent |
| RoutesPage.Page.OptimizeBegin | frontend/src/pages/Routes.js:447-449 | the optimise claim is taken unless already held; reports whether the call goes out |
| RoutesPage.Page.OptimizeFinish | frontend/src/pages/Routes.js:451-471 | the success or failure transition of an optimisation, keeping the state consistent |
| RoutesPage.Page.BaselineBegin | frontend/src/pages/Routes.js:245-247 | the baseline claim is taken unless already held; reports whether the call goes out |
| RoutesPage.Page.BaselineFinish | frontend/src/pages/Routes.js:248-259 | the success or failure transition of a baseline computation |
| RoutesPage.ReleaseAll | frontend/src/pages/Routes.js:425-426 | every target's claim is released, and nothing else |
| RoutesPage.DisarmAll | frontend/src/pages/Routes.js:427-430 | every target's timer is cleared and forgotten, and nothing else |
| RoutesPage.MarkIdle | frontend/src/pages/Routes.js:433-437 | every target is marked not loading; the other marks stay |
| RoutesPage.EvictAll | frontend/src/pages/Routes.js:439-443 | every target's cache entry is evicted, and nothing else |
| RoutesApi.ToClientRow | backend/app/routes_api.py:51-59 | the row is on that route with the given coordinates, time window and demand (null when not sent), named "Client" when no name key is sent |
| RoutesApi.FirstRowsAreEntries | backend/app/routes_api.py:50-60 | new client row `next + i` is client entry `i`, stored on that route |
| RoutesApi.InsertClients | backend/app/routes_api.py:50-60 | the clients become the old ones plus one new row per entry, numbered consecutively |
| RoutesApi.ReplaceClientsIsWholesale | backend/app/routes_api.py:79-91 | after replacing, the route's clients are exactly the new ones and every other route's clients are unchanged |
| RoutesApi.NameOnCreate | backend/app/routes_api.py:39 | a given name is stripped; a missing or null name is "" |
| RoutesApi.NameOnUpdate | backend/app/routes_api.py:74-75 | an absent key keeps the name; a null or empty name re-strips the current one; otherwise the new name stripped |
| RoutesApi.ParametersOnCreate | backend/app/routes_api.py:40 | a falsy value gives `{}`, an object is kept, and any other truthy value is refused |
| RoutesApi.ParametersOnUpdate | backend/app/routes_api.py:76-77 | an absent or falsy value keeps the parameters, an object replaces them, and any other truthy value is refused |
| RoutesApi.WithMatrix | backend/app/routes_api.py:160-161 | the matrix is stored under `distance_matrix` and every other parameter key is kept |
| RoutesApi.InsertByAge | backend/app/routes_api.py:28 | the list grows by exactly that id |
| RoutesApi.InsertByAgeKeepsNewestFirst | backend/app/routes_api.py:28 | inserting keeps the list newest first |
| RoutesApi.InsertByAgeKeepsDistinct | backend/app/routes_api.py:28 | inserting a new id keeps the ids distinct |
| RoutesApi.OwnedNewestFirst | backend/app/routes_api.py:28 | exactly the user's routes, each once, newest first |
| RoutesApi.CreateKeepsInvariant | backend/app/routes_api.py:46-62 | a new route with its clients keeps ids unused and every client on a stored route |
| RoutesApi.UpdateKeepsInvariant | backend/app/routes_api.py:73-93 | rewriting a route and replacing its clients keeps the store invariant |
| RoutesApi.RouteStore.ListRoutes | backend/app/routes_api.py:24-29 | exactly the caller's routes, each once, newest first |
| RoutesApi.RouteStore.CreateRoute | backend/app/routes_api.py:31-63 | 400 for a blank name; otherwise 500, with nothing stored, exactly for refused parameters or a client without coordinates or with a null name; otherwise one new route owned by the caller with its clients |
| RoutesApi.RouteStore.UpdateRoute | backend/app/routes_api.py:65-94 | 404 unless the caller owns the route; 500, with nothing changed, exactly for refused parameters or clients; otherwise 200, only the sent keys are applied, and the clients are replaced wholesale |
| RoutesApi.RouteStore.DeleteRoute | backend/app/routes_api.py:96-105 | 404 exactly when the caller does not own the route; otherwise the route and all its clients go |
| RoutesApi.RouteStore.AddClient | backend/app/routes_api.py:107-129 | 404 for a route not owned; 400 when lat or lon is missing or null; 500 for a null name, with nothing stored; otherwise exactly one new client on that route |
| RoutesApi.RouteStore.DeleteClient | backend/app/routes_api.py:131-143 | 404 exactly unless the client is on that route and the route is the caller's; otherwise only that client goes |
| RoutesApi.RouteStore.UploadDistanceMatrix | backend/app/routes_api.py:145-164 | 404 for a route not owned; 400 exactly for a missing, empty or non-list matrix; otherwise 200, the matrix is stored and the other parameters kept |
| Auth.FirstWithEmail | backend/app/auth.py:20 | the first user with that email, or none exactly when no user has it |
| Auth.RegisterOutcome | backend/app/auth.py:8-33 | 400 for a missing name, email or password; 409 for a taken email; otherwise the stripped name, and exactly one new user with the normalised email and the password's hash |
| Auth.LoginOutcome | backend/app/auth.py:36-56 | 400 for a missing email or password; success exactly when the user exists and the stored hash is the password's, returning that user's name; every other failure is 401 |
| Auth.RegisterKeepsEmailsUnique | backend/app/auth.py:20-28 | registering never creates a second user with the same email |
| Auth.RegisterThenLogin | backend/app/auth.py:36-56 | a user just registered logs in with the same password, by any spelling of the email that normalises the same, and gets the registered name |
| Auth.WrongPasswordRefused | backend/app/auth.py:47-48 | with an injective hash, any other non-empty password is refused with 401 |
| Auth.NormalizeEmailIdempotent | backend/app/auth.py:13 | a normalised email normalises to itself, so login looks up what register stored |
| Auth.UserTable.FindByEmail | backend/app/auth.py:46 | the scan finds the first user with that email, or none |
| Auth.UserTable.Register | backend/app/auth.py:8-33 | the response and the new table are the register outcome, and emails stay unique |
| Auth.UserTable.Login | backend/app/auth.py:36-56 | the response is the login outcome |

## Left out

- Network, timers and `await` are not modelled as such. Each reaction of the routes page is an event (`RoutesState.Event`). The results of the routing, optimise and baseline calls are parameters of those events, so any interleaving of them is a sequence of events. The 20-second watchdog and the 12-second request timeout appear only as the events they cause.
- Floating point is modelled as exact reals. The display formatting (`toFixed`, `formatKm`, `formatPct`, the `Number(formatKm(...))` rounding of chart values) is left out.
- `Number(text)` on a typed coordinate is the parameter `num`. `Number(...)` on a received field is the `Num` datatype. How strings parse into numbers is not modelled. In particular `num` cannot represent a text such as "1e400": `Number` reads it as Infinity, which passes `!isNaN` in `cleanedStops`. `JSON.stringify` then posts that coordinate as null, `add_client` refuses it with 400, and the form only alerts and carries on.
- React rendering, effects and `localStorage` are left out. The statistics panel starts from a saved map given to its constructor, and the JSON parse fallback to `{}` is left to the caller. The warehouse list of the route form is given, not fetched.
- The error path of `fetchRoutes` (a failed list request shows an error and keeps the old state) and the page's `loading`/`error` flags are left out. The effect's early return while loading is assumed away by running `BuildVisible` only on a loaded page.
- The routes page's presentation is left out: marker icons, colours, offsets, map fitting and the focused route's polylines.
- Python's `float(...)` of a numeric string and non-numeric JSON values in client fields are not modelled. A coordinate is either a number or missing/null.
- JWT tokens, the debug prints, and the `route_to_dict` serialisation are left out. Handlers return a status and the new store rather than a JSON body. The baseline and optimise endpoints the page calls are not part of this model.
- The soft-delete columns of routes (`is_deleted`, `deleted_at`) are not used by these handlers and are left out. The statistics page receives `is_deleted` per item.
- Password hashing (werkzeug's salted hash) is the function parameter `hash`. Checking a password is modelled as comparing hashes.
- Auth.NormalizeEmail: lower-cases ASCII letters only, whereas Python's `lower()` folds all of Unicode.
- RoutesApi.RouteStore.ListRoutes: the order among routes created at the same instant is unspecified, as it is in the SQL query.
- RoutesApi.RouteStore.CreateRoute: a failure mid-request is modelled as a rollback that leaves the store unchanged. The id a rolled-back insert would consume is not modelled.
- RoutesApi.RouteStore.CreateRoute: new ids come from counters that only grow. The default SQLite database has no AUTOINCREMENT on these keys and hands out the largest id plus one, so the id of a deleted newest route can be handed out again; the model does not capture that reuse.
- Statistics.SortDescending: keeps equal keys in their original order by construction, but stability is not stated in its contract.
- AddRoute.ClientRequests: the server's answer to each POST is not modelled. A non-ok response only raises an alert and the loop carries on, but a request that fails outright throws out of the loop into the outer error handler, so the remaining stops are never posted; the model lists the POSTs of a run in which every request is answered.
- Osrm.BuildRoadRoute: the error messages' texts are not modelled, only which error occurs.
- Statistics.ChartName: cuts the text after 14 characters, whereas JavaScript's `slice(0, 14)` counts UTF-16 code units, so a name with characters outside the Basic Multilingual Plane is cut differently.
- AddRoute.EditStop: the stop's `label` field is named `labelText`, because `label` is a reserved word in Dafny.
