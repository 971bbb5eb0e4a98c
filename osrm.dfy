/**
 * `buildRoadRoute`: one road route through a list of stops, asked of a public OSRM server.
 * The network call is a parameter (`FetchOutcome`): what the server, the network or the
 * abort timer made of the request.
 */
module Osrm {
  import opened Common
  import opened Geometry

  const OsrmBase := "https://router.project-osrm.org"
  const DefaultTimeoutMs := 12000
  const DefaultProfile := "driving"
  const RouteQuery := "?overview=full&geometries=geojson&steps=false"

  /** A JavaScript value as far as this client looks at it: what `Number(v)` and `${v}` give. */
  datatype JsValue = JsValue(asNumber: Num, asText: string)

  /** One stop object; a stop slot holding `null` or `undefined` is None. */
  datatype StopPoint = StopPoint(lat: JsValue, lng: JsValue)

  /** `opts`; an absent field is None. */
  datatype Opts = Opts(timeoutMs: Option<int>, profile: Option<string>)

  /** The request handed to `fetch`: its URL and the delay after which it is aborted. */
  datatype Request = Request(url: string, timeoutMs: int)

  /** A `[lon, lat]` pair of a GeoJSON line string. */
  datatype Position = Position(lon: real, lat: real)

  /** `data.routes[k]`: its geometry's coordinates (None when geometry or coordinates is absent). */
  datatype OsrmRoute = OsrmRoute(coordinates: Option<seq<Position>>, distance: Option<real>,
                                 duration: Option<real>)

  /**
   * How the request ended: aborted by the timer, failed in the network, or answered. An answer
   * has its `ok` flag, its status, and its body: None when it is not JSON, Some(None) when it
   * has no `routes` array.
   */
  datatype FetchOutcome =
    | Aborted
    | NetworkError
    | Responded(ok: bool, status: int, body: Option<Option<seq<OsrmRoute>>>)

  datatype RoadError =
    | InvalidStop(index: nat)   // "Invalid stop coords at index i"
    | HttpFailure(status: int)  // "OSRM failed (status)"
    | BadBody                   // the body is not JSON
    | NoGeometry                // "OSRM returned no route geometry"
    | TimedOut                  // "OSRM request timed out (AbortError)"
    | Network                   // any other rejection of fetch, passed on

  // ---------------------------------------------------------------------------
  // Validation
  // ---------------------------------------------------------------------------

  /** `Number.isFinite(Number(stop?.lat)) && Number.isFinite(Number(stop?.lng))`. */
  predicate ValidStop(p: Option<StopPoint>) {
    p.Some? && p.value.lat.asNumber.Finite? && p.value.lng.asNumber.Finite?
  }

  /** The validation loop: the index of the first stop with a non-finite coordinate, if any. */
  method FirstInvalidStop(stops: seq<Option<StopPoint>>) returns (bad: Option<nat>)
    ensures bad.None? <==> forall i :: 0 <= i < |stops| ==> ValidStop(stops[i])
    ensures bad.Some? ==> bad.value < |stops| && !ValidStop(stops[bad.value])
                          && forall i :: 0 <= i < bad.value ==> ValidStop(stops[i])
  {
    var i := 0;
    while i < |stops|
      invariant 0 <= i <= |stops|
      invariant forall j :: 0 <= j < i ==> ValidStop(stops[j])
    {
      if !ValidStop(stops[i]) {
        return Some(i);
      }
      i := i + 1;
    }
    return None;
  }

  // ---------------------------------------------------------------------------
  // The request
  // ---------------------------------------------------------------------------

  /** `parts.join(sep)`. */
  function Join(parts: seq<string>, sep: char): string {
    if parts == [] then ""
    else if |parts| == 1 then parts[0]
    else parts[0] + [sep] + Join(parts[1..], sep)
  }

  /** `s.split(sep)`: always at least one part. */
  function Split(s: string, sep: char): (r: seq<string>)
    ensures |r| >= 1
  {
    if s == [] then [""]
    else
      var rest := Split(s[1..], sep);
      if s[0] == sep then [""] + rest else [[s[0]] + rest[0]] + rest[1..]
  }

  lemma {:induction false} SplitWithoutSeparator(a: string, sep: char)
    requires sep !in a
    ensures Split(a, sep) == [a]
  {
    if a != [] {
      SplitWithoutSeparator(a[1..], sep);
      assert [a[0]] + a[1..] == a;
    }
  }

  lemma {:induction false} SplitAtFirstSeparator(a: string, b: string, sep: char)
    requires sep !in a
    ensures Split(a + [sep] + b, sep) == [a] + Split(b, sep)
  {
    var s := a + [sep] + b;
    if a == [] {
      assert s[1..] == b;
    } else {
      assert s[1..] == a[1..] + [sep] + b;
      SplitAtFirstSeparator(a[1..], b, sep);
      assert [a[0]] + a[1..] == a;
    }
  }

  /** Splitting a join gives the parts back, provided no part contains the separator. */
  lemma {:induction false} SplitJoin(parts: seq<string>, sep: char)
    requires |parts| >= 1
    requires forall i :: 0 <= i < |parts| ==> sep !in parts[i]
    ensures Split(Join(parts, sep), sep) == parts
  {
    if |parts| == 1 {
      SplitWithoutSeparator(parts[0], sep);
    } else {
      SplitAtFirstSeparator(parts[0], Join(parts[1..], sep), sep);
      SplitJoin(parts[1..], sep);
    }
  }

  /** `${p.lng},${p.lat}`: longitude first, as OSRM expects. */
  function CoordText(p: StopPoint): string {
    p.lng.asText + "," + p.lat.asText
  }

  function CoordTexts(stops: seq<Option<StopPoint>>): (r: seq<string>)
    requires forall i :: 0 <= i < |stops| ==> stops[i].Some?
    ensures |r| == |stops| && forall i :: 0 <= i < |stops| ==> r[i] == CoordText(stops[i].value)
  {
    seq(|stops|, i requires 0 <= i < |stops| => CoordText(stops[i].value))
  }

  function RequestUrl(profile: string, stops: seq<Option<StopPoint>>): string
    requires forall i :: 0 <= i < |stops| ==> stops[i].Some?
  {
    OsrmBase + "/route/v1/" + profile + "/" + Join(CoordTexts(stops), ';') + RouteQuery
  }

  /** Text without the separators of the coordinate list: what a finite number prints as. */
  predicate PlainText(t: string) {
    ';' !in t && ',' !in t
  }

  /**
   * The URL names the profile and then every stop, in order, as its longitude and latitude:
   * cutting the coordinate list out of the URL and splitting it at `;` and `,` gives back each
   * stop's two texts.
   */
  lemma RequestUrlListsStops(profile: string, stops: seq<Option<StopPoint>>)
    requires |stops| >= 1
    requires forall i :: 0 <= i < |stops| ==>
      (stops[i].Some? && PlainText(stops[i].value.lng.asText) && PlainText(stops[i].value.lat.asText))
    ensures var url, head := RequestUrl(profile, stops), OsrmBase + "/route/v1/" + profile + "/";
      && StartsWith(url, head) && EndsWith(url, RouteQuery)
      && |head| + |RouteQuery| <= |url|
      && var parts := Split(url[|head|..|url| - |RouteQuery|], ';');
      && |parts| == |stops|
      && forall i :: 0 <= i < |stops| ==>
           Split(parts[i], ',') == [stops[i].value.lng.asText, stops[i].value.lat.asText]
  {
    var texts := CoordTexts(stops);
    var head := OsrmBase + "/route/v1/" + profile + "/";
    var coords := Join(texts, ';');
    var url := RequestUrl(profile, stops);
    assert url == head + coords + RouteQuery;
    assert url[|head|..|url| - |RouteQuery|] == coords;
    forall i | 0 <= i < |texts| ensures ';' !in texts[i] {
      assert texts[i] == stops[i].value.lng.asText + [','] + stops[i].value.lat.asText;
    }
    SplitJoin(texts, ';');
    forall i | 0 <= i < |stops|
      ensures Split(texts[i], ',') == [stops[i].value.lng.asText, stops[i].value.lat.asText]
    {
      var p := stops[i].value;
      assert texts[i] == p.lng.asText + [','] + p.lat.asText;
      SplitAtFirstSeparator(p.lng.asText, p.lat.asText, ',');
      SplitWithoutSeparator(p.lat.asText, ',');
    }
  }

  // ---------------------------------------------------------------------------
  // The answer
  // ---------------------------------------------------------------------------

  /** `[lon, lat] => [lat, lon]`. */
  function SwapToLatLng(coords: seq<Position>): (r: seq<LatLng>)
    ensures |r| == |coords|
    ensures forall i :: 0 <= i < |coords| ==> r[i].lat == coords[i].lat && r[i].lng == coords[i].lon
  {
    seq(|coords|, i requires 0 <= i < |coords| => LatLng(coords[i].lat, coords[i].lon))
  }

  /** The positions the swapped list came from, read back in GeoJSON order. */
  function LatLngToPositions(pts: seq<LatLng>): (r: seq<Position>)
    ensures |r| == |pts|
  {
    seq(|pts|, i requires 0 <= i < |pts| => Position(pts[i].lng, pts[i].lat))
  }

  /** No point is lost, added, reordered or has its coordinates crossed by the swap. */
  lemma SwapRoundTrip(coords: seq<Position>)
    ensures LatLngToPositions(SwapToLatLng(coords)) == coords
  {
  }

  /** What the `try` block makes of the request's outcome once it has been sent. */
  function Interpret(outcome: FetchOutcome): (r: Result<RoadGeometry, RoadError>)
    ensures r.Ok? <==>
      (&& outcome.Responded? && outcome.ok && outcome.body.Some? && outcome.body.value.Some?
       && |outcome.body.value.value| > 0
       && outcome.body.value.value[0].coordinates.Some?
       && |outcome.body.value.value[0].coordinates.value| > 0)
    ensures r.Ok? ==>
      var route := outcome.body.value.value[0];
      && |r.value.latlngs| == |route.coordinates.value|
      && (forall i :: 0 <= i < |route.coordinates.value| ==>
            r.value.latlngs[i] == LatLng(route.coordinates.value[i].lat, route.coordinates.value[i].lon))
      && r.value.distance == (if route.distance.Some? then route.distance.value else 0.0)
      && r.value.duration == (if route.duration.Some? then route.duration.value else 0.0)
    ensures outcome.Aborted? ==> r == Err(TimedOut)
    ensures outcome.NetworkError? ==> r == Err(Network)
    ensures outcome.Responded? && !outcome.ok ==> r == Err(HttpFailure(outcome.status))
  {
    match outcome
    case Aborted => Err(TimedOut)
    case NetworkError => Err(Network)
    case Responded(ok, status, body) =>
      if !ok then Err(HttpFailure(status))
      else if body.None? then Err(BadBody)
      else if body.value.None? || |body.value.value| == 0 then Err(NoGeometry)
      else
        var route := body.value.value[0];
        if route.coordinates.None? || |route.coordinates.value| == 0 then Err(NoGeometry)
        else Ok(RoadGeometry(SwapToLatLng(route.coordinates.value),
                             GetOr(route.distance, 0.0), GetOr(route.duration, 0.0)))
  }

  /**
   * `buildRoadRoute(stops, opts)`. `stops` is None when it is not an array; `fetch` is what
   * became of the request, consulted only when a request is sent, and `request` is that
   * request.
   */
  method BuildRoadRoute(stops: Option<seq<Option<StopPoint>>>, opts: Opts, fetch: FetchOutcome)
    returns (result: Result<RoadGeometry, RoadError>, request: Option<Request>)
    ensures stops.None? || |stops.value| < 2 ==>
      result == Ok(RoadGeometry([], 0.0, 0.0)) && request.None?
    ensures stops.Some? && |stops.value| >= 2 && (exists i :: 0 <= i < |stops.value| && !ValidStop(stops.value[i])) ==>
      && request.None? && result.Err? && result.error.InvalidStop?
      && var k := result.error.index;
      && k < |stops.value| && !ValidStop(stops.value[k])
      && forall i :: 0 <= i < k ==> ValidStop(stops.value[i])
    ensures stops.Some? && |stops.value| >= 2 && (forall i :: 0 <= i < |stops.value| ==> ValidStop(stops.value[i])) ==>
      && request == Some(Request(RequestUrl(GetOr(opts.profile, DefaultProfile), stops.value),
                                 GetOr(opts.timeoutMs, DefaultTimeoutMs)))
      && result == Interpret(fetch)
    ensures result.Ok? && request.Some? ==> |result.value.latlngs| > 0
  {
    var timeoutMs := GetOr(opts.timeoutMs, DefaultTimeoutMs);
    var profile := GetOr(opts.profile, DefaultProfile);
    if stops.None? || |stops.value| < 2 {
      return Ok(RoadGeometry([], 0.0, 0.0)), None;
    }
    var bad := FirstInvalidStop(stops.value);
    if bad.Some? {
      return Err(InvalidStop(bad.value)), None;
    }
    request := Some(Request(RequestUrl(profile, stops.value), timeoutMs));
    result := Interpret(fetch);
  }
}
