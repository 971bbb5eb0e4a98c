/**
 * The route form: the editable stop list with its active stop, the stops fit to be saved, the
 * checks made before saving, how the new route's id is found, and the client records sent for
 * its stops. Parsing a text as a number (`Number(text)`) is the parameter `num`, None meaning NaN.
 */
module AddRoute {
  import opened Common
  import opened Geometry

  // ---------------------------------------------------------------------------
  // Request paths
  // ---------------------------------------------------------------------------

  /** `.replace(/\/$/, "")`: one trailing slash removed. */
  function DropTrailingSlash(t: string): (b: string)
    ensures EndsWith(t, "/") ==> b + "/" == t
    ensures !EndsWith(t, "/") ==> b == t
  {
    if |t| > 0 && t[|t| - 1] == '/' then t[..|t| - 1] else t
  }

  /** `API_BASE`: the configured base, trimmed, without one trailing slash. */
  function ApiBase(raw: string): string {
    DropTrailingSlash(JsTrim(raw))
  }

  /** `apiUrl(path)`: the base and the path joined by exactly the one slash the path may lack. */
  function ApiUrl(base: string, path: string): (r: string)
    ensures EndsWith(r, path) && StartsWith(r, base)
    ensures StartsWith(path, "/") ==> |r| == |base| + |path|
    ensures !StartsWith(path, "/") ==> |r| == |base| + 1 + |path| && r[|base|] == '/'
  {
    if !StartsWith(path, "/") then (if base != "" then base + "/" + path else "/" + path)
    else (if base != "" then base + path else path)
  }

  /** With a base ending in one slash, an absolute path is appended right after the host part. */
  lemma ApiUrlNoDoubleSlash(host: string, path: string)
    requires host != [] && !EndsWith(host, "/")
    requires StartsWith(path, "/")
    ensures ApiUrl(DropTrailingSlash(host + "/"), path) == host + path
  {
    assert (host + "/")[..|host|] == host;
  }

  /**
   * `API_BASE` of a configured value padded with whitespace and ending in one slash: the
   * padding and the slash go, and the host stays.
   */
  lemma ApiBaseOfConfigured(pre: string, host: string, post: string)
    requires forall i :: 0 <= i < |pre| ==> IsJsSpace(pre[i])
    requires forall i :: 0 <= i < |post| ==> IsJsSpace(post[i])
    requires host != [] && !IsJsSpace(host[0]) && !EndsWith(host, "/")
    ensures ApiBase(pre + host + "/" + post) == host
  {
    assert pre + host + "/" + post == pre + (host + "/") + post;
    TrimPadded(pre, host + "/", post, IsJsSpace);
    assert JsTrim(pre + host + "/" + post) == host + "/";
    assert (host + "/")[..|host|] == host;
  }

  /** Such a base, once trimmed and stripped of its slash, joins an absolute path with no double slash. */
  lemma ApiUrlFromConfiguredBase(pre: string, host: string, post: string, path: string)
    requires forall i :: 0 <= i < |pre| ==> IsJsSpace(pre[i])
    requires forall i :: 0 <= i < |post| ==> IsJsSpace(post[i])
    requires host != [] && !IsJsSpace(host[0]) && !EndsWith(host, "/")
    requires StartsWith(path, "/")
    ensures ApiUrl(ApiBase(pre + host + "/" + post), path) == host + path
  {
    ApiBaseOfConfigured(pre, host, post);
  }

  // ---------------------------------------------------------------------------
  // Editing the stop list
  // ---------------------------------------------------------------------------

  /** A stop as typed in: coordinates are the texts of the input fields. */
  datatype EditStop = EditStop(id: int, labelText: string, lat: string, lng: string)

  datatype StopField = LabelField | LatField | LngField

  function Blank(id: int): EditStop {
    EditStop(id, "", "", "")
  }

  predicate HasStop(stops: seq<EditStop>, id: int) {
    exists i :: 0 <= i < |stops| && stops[i].id == id
  }

  /** `handleAddStop`: one blank stop appended. */
  function WithStopAdded(stops: seq<EditStop>, now: int): (r: seq<EditStop>)
    ensures |r| == |stops| + 1 && r[..|stops|] == stops && r[|stops|] == Blank(now)
  {
    stops + [Blank(now)]
  }

  function WithoutStop(stops: seq<EditStop>, id: int): (r: seq<EditStop>)
    ensures |r| <= |stops|
    ensures forall x :: x in r <==> x in stops && x.id != id
  {
    if stops == [] then []
    else (if stops[0].id != id then [stops[0]] else []) + WithoutStop(stops[1..], id)
  }

  /** The filter keeps the stops' order: it distributes over concatenation. */
  lemma {:induction false} WithoutStopDistributes(a: seq<EditStop>, b: seq<EditStop>, id: int)
    ensures WithoutStop(a + b, id) == WithoutStop(a, id) + WithoutStop(b, id)
  {
    if a == [] {
      assert a + b == b;
    } else {
      assert (a + b)[0] == a[0];
      assert (a + b)[1..] == a[1..] + b;
      WithoutStopDistributes(a[1..], b, id);
    }
  }

  /**
   * `handleRemoveStop`: the list without that id and the new active id. An emptied list becomes
   * one blank stop, made active; removing the active stop activates the first one left.
   */
  function Removal(stops: seq<EditStop>, active: int, id: int, now: int): (r: (seq<EditStop>, int))
    ensures |r.0| >= 1
    ensures HasStop(stops, active) || active == id ==> HasStop(r.0, r.1)
    ensures WithoutStop(stops, id) == [] ==> r.0 == [Blank(now)] && r.1 == now
    ensures WithoutStop(stops, id) != [] ==>
      r.0 == WithoutStop(stops, id) && r.1 == (if active == id then r.0[0].id else active)
  {
    var next := WithoutStop(stops, id);
    if next == [] then
      assert [Blank(now)][0].id == now;
      ([Blank(now)], now)
    else (next, if active == id then next[0].id else active)
  }

  /** `handleStopChange`: the named field of the stops with that id takes the value. */
  function WithField(stops: seq<EditStop>, id: int, field: StopField, value: string): (r: seq<EditStop>)
    ensures |r| == |stops|
    ensures forall i :: 0 <= i < |stops| ==> r[i].id == stops[i].id
    ensures forall i :: 0 <= i < |stops| && stops[i].id != id ==> r[i] == stops[i]
    ensures forall i :: 0 <= i < |stops| && stops[i].id == id ==>
      (&& (if field == LabelField then r[i].labelText == value else r[i].labelText == stops[i].labelText)
       && (if field == LatField then r[i].lat == value else r[i].lat == stops[i].lat)
       && (if field == LngField then r[i].lng == value else r[i].lng == stops[i].lng))
  {
    seq(|stops|, i requires 0 <= i < |stops| =>
      if stops[i].id != id then stops[i]
      else match field
        case LabelField => stops[i].(labelText := value)
        case LatField => stops[i].(lat := value)
        case LngField => stops[i].(lng := value))
  }

  /** A map click: with an active stop, its coordinates become the clicked point's texts. */
  function WithClick(stops: seq<EditStop>, active: int, latText: string, lngText: string): (r: seq<EditStop>)
    ensures active == 0 ==> r == stops
    ensures |r| == |stops|
    ensures forall i :: 0 <= i < |stops| ==>
      (if active != 0 && stops[i].id == active
       then r[i] == stops[i].(lat := latText, lng := lngText)
       else r[i] == stops[i])
  {
    if active == 0 then stops
    else
      seq(|stops|, i requires 0 <= i < |stops| =>
        if stops[i].id == active then stops[i].(lat := latText, lng := lngText) else stops[i])
  }

  /** The form's state. `now` stands for `Date.now()`, the source of fresh stop ids. */
  class RouteForm {
    var routeName: string
    var stops: seq<EditStop>
    var activeStopId: int

    /** The list is never empty and the active id names one of its stops. */
    ghost predicate Valid()
      reads this
    {
      |stops| >= 1 && HasStop(stops, activeStopId)
    }

    constructor ()
      ensures routeName == "" && stops == [Blank(1)] && activeStopId == 1
      ensures Valid()
    {
      routeName := "";
      stops := [Blank(1)];
      activeStopId := 1;
      new;
      assert stops[0].id == 1;
    }

    method SetRouteName(name: string)
      modifies this
      ensures routeName == name && stops == old(stops) && activeStopId == old(activeStopId)
    {
      routeName := name;
    }

    method AddStop(now: int)
      requires Valid()
      modifies this
      ensures stops == WithStopAdded(old(stops), now) && activeStopId == now
      ensures routeName == old(routeName)
      ensures Valid()
    {
      stops := stops + [Blank(now)];
      activeStopId := now;
      assert stops[|stops| - 1].id == now;
    }

    method RemoveStop(id: int, now: int)
      requires Valid()
      modifies this
      ensures (stops, activeStopId) == Removal(old(stops), old(activeStopId), id, now)
      ensures routeName == old(routeName)
      ensures Valid()
    {
      var next := WithoutStop(stops, id);
      if activeStopId == id && |next| > 0 {
        activeStopId := next[0].id;
      }
      if |next| == 0 {
        activeStopId := now;
        stops := [Blank(now)];
        assert stops[0].id == now;
      } else {
        if old(activeStopId) != id {
          var k :| 0 <= k < |old(stops)| && old(stops)[k].id == activeStopId;
          assert old(stops)[k] in next;
        } else {
          assert next[0] in next;
        }
        stops := next;
      }
    }

    method ChangeStop(id: int, field: StopField, value: string)
      requires Valid()
      modifies this
      ensures stops == WithField(old(stops), id, field, value)
      ensures activeStopId == old(activeStopId) && routeName == old(routeName)
      ensures Valid()
    {
      ghost var k :| 0 <= k < |stops| && stops[k].id == activeStopId;
      stops := WithField(stops, id, field, value);
      assert stops[k].id == activeStopId;
    }

    method MapClick(latText: string, lngText: string)
      requires Valid()
      modifies this
      ensures stops == WithClick(old(stops), old(activeStopId), latText, lngText)
      ensures activeStopId == old(activeStopId) && routeName == old(routeName)
      ensures Valid()
    {
      if activeStopId == 0 {
        return;
      }
      ghost var k :| 0 <= k < |stops| && stops[k].id == activeStopId;
      stops := WithClick(stops, activeStopId, latText, lngText);
      assert stops[k].id == activeStopId;
    }

    /** Clicking a stop's row makes it the active stop. */
    method SelectStop(id: int)
      requires Valid() && HasStop(stops, id)
      modifies this
      ensures activeStopId == id && stops == old(stops) && routeName == old(routeName)
      ensures Valid()
    {
      activeStopId := id;
    }

    /** After a successful save: an empty name and a single fresh blank stop, made active. */
    method ResetAfterSave(now: int)
      modifies this
      ensures routeName == "" && stops == [Blank(now)] && activeStopId == now
      ensures Valid()
    {
      routeName := "";
      stops := [Blank(now)];
      activeStopId := now;
      assert stops[0].id == now;
    }
  }

  // ---------------------------------------------------------------------------
  // Stops fit to be saved
  // ---------------------------------------------------------------------------

  /**
   * Non-blank coordinate texts that both read as numbers. `trim() !== ""` is written as the
   * presence of a non-whitespace character (the same test, by HasNonSpaceIffTrimmedNonEmpty).
   */
  predicate Usable(s: EditStop, num: string -> Option<real>) {
    HasNonSpace(s.lat, IsJsSpace) && HasNonSpace(s.lng, IsJsSpace) && Parses(s, num)
  }

  /** `!isNaN(Number(lat)) && !isNaN(Number(lng))`. */
  predicate Parses(s: EditStop, num: string -> Option<real>) {
    num(s.lat).Some? && num(s.lng).Some?
  }

  /** `cleanedStops`. */
  function CleanedStops(stops: seq<EditStop>, num: string -> Option<real>): (r: seq<EditStop>)
    ensures |r| <= |stops|
    ensures forall x :: x in r <==> x in stops && Usable(x, num)
  {
    if stops == [] then []
    else (if Usable(stops[0], num) then [stops[0]] else []) + CleanedStops(stops[1..], num)
  }

  /** Cleaning keeps the order: it distributes over concatenation. */
  lemma {:induction false} CleanedStopsDistributes(a: seq<EditStop>, b: seq<EditStop>, num: string -> Option<real>)
    ensures CleanedStops(a + b, num) == CleanedStops(a, num) + CleanedStops(b, num)
  {
    if a == [] {
      assert a + b == b;
    } else {
      assert (a + b)[0] == a[0];
      assert (a + b)[1..] == a[1..] + b;
      CleanedStopsDistributes(a[1..], b, num);
    }
  }

  /** A list whose stops are all fit to be saved is kept whole. */
  lemma {:induction false} CleanedStopsKeepsCleanList(a: seq<EditStop>, num: string -> Option<real>)
    requires forall i :: 0 <= i < |a| ==> Usable(a[i], num)
    ensures CleanedStops(a, num) == a
  {
    if a != [] {
      assert Usable(a[0], num);
      CleanedStopsKeepsCleanList(a[1..], num);
      assert [a[0]] + a[1..] == a;
    }
  }

  // ---------------------------------------------------------------------------
  // Saving
  // ---------------------------------------------------------------------------

  /** `selectedWarehouse`: warehouse 1 if loaded, else the first loaded one, else none. */
  function SelectedWarehouse(ws: seq<Warehouse>): (r: Option<Warehouse>)
    ensures r.None? <==> ws == []
    ensures r.Some? ==> r.value in ws
    ensures r.Some? && (exists j :: 0 <= j < |ws| && ws[j].id == 1) ==> r.value.id == 1
    ensures r.Some? && (forall j :: 0 <= j < |ws| ==> ws[j].id != 1) ==> r.value == ws[0]
    ensures FirstIndexWithId(ws, Some(1)).Some? ==> r == Some(ws[FirstIndexWithId(ws, Some(1)).value])
  {
    if ws == [] then None else Some(FindOrFirst(ws, Some(1)))
  }

  datatype SubmitError = BlankName | NoStops | NotLoggedIn | NoWarehouse

  /** The checks `handleSubmit` makes, in order, before any request. */
  function SubmitCheck(routeName: string, cleaned: seq<EditStop>, token: Option<string>,
                       warehouse: Option<Warehouse>): (r: Result<Warehouse, SubmitError>)
    ensures r.Ok? <==> JsTrim(routeName) != "" && |cleaned| >= 1 && token.Some? && token.value != ""
                       && warehouse.Some?
    ensures r.Ok? ==> r.value == warehouse.value
    ensures r == Err(BlankName) <==> JsTrim(routeName) == ""
    ensures r == Err(NoStops) ==> JsTrim(routeName) != "" && cleaned == []
    ensures r == Err(NotLoggedIn) ==> JsTrim(routeName) != "" && |cleaned| >= 1 && (token.None? || token.value == "")
    ensures r == Err(NoWarehouse) ==> JsTrim(routeName) != "" && |cleaned| >= 1 && token.Some? && token.value != ""
                                      && warehouse.None?
  {
    if JsTrim(routeName) == "" then Err(BlankName)
    else if |cleaned| < 1 then Err(NoStops)
    else if token.None? || token.value == "" then Err(NotLoggedIn)
    else if warehouse.None? then Err(NoWarehouse)
    else Ok(warehouse.value)
  }

  /** A route as listed by the server: its id and name. */
  datatype ListedRoute = ListedRoute(id: int, name: string)

  /**
   * The first id of the matching routes once sorted by descending id: the largest id among
   * the listed routes named `name`.
   */
  function LargestMatchingId(items: seq<ListedRoute>, name: string): (r: Option<int>)
    ensures r.None? <==> forall i :: 0 <= i < |items| ==> items[i].name != name
    ensures r.Some? ==> exists i :: 0 <= i < |items| && items[i].name == name && items[i].id == r.value
    ensures r.Some? ==> forall i :: 0 <= i < |items| && items[i].name == name ==> items[i].id <= r.value
  {
    if items == [] then None
    else
      var rest := LargestMatchingId(items[1..], name);
      if items[0].name != name then
        assert forall i :: 1 <= i < |items| ==> items[i] == items[1..][i - 1];
        rest
      else if rest.None? || rest.value <= items[0].id then
        assert forall i :: 1 <= i < |items| ==> items[i] == items[1..][i - 1];
        Some(items[0].id)
      else
        assert forall i :: 1 <= i < |items| ==> items[i] == items[1..][i - 1];
        assert exists i :: 1 <= i < |items| && items[i].name == name && items[i].id == rest.value by {
          var k :| 0 <= k < |items[1..]| && items[1..][k].name == name && items[1..][k].id == rest.value;
          assert items[k + 1] == items[1..][k];
        }
        rest
  }

  /**
   * The id the stops are added to: the created route's `id`, else its `item.id` (0 counts as
   * missing), else, when the listing succeeded, the largest id among routes with the trimmed
   * name. None stops the save.
   */
  function ResolveRouteId(createdId: Option<int>, itemId: Option<int>,
                          listing: Option<seq<ListedRoute>>, routeName: string): (r: Option<int>)
    ensures r.Some? ==> r.value != 0
    ensures createdId.Some? && createdId.value != 0 ==> r == createdId
    ensures (createdId.None? || createdId.value == 0) && itemId.Some? && itemId.value != 0 ==> r == itemId
    ensures (createdId.None? || createdId.value == 0) && (itemId.None? || itemId.value == 0) ==>
      && (r.Some? <==> listing.Some? && LargestMatchingId(listing.value, JsTrim(routeName)).Some?
                       && LargestMatchingId(listing.value, JsTrim(routeName)).value != 0)
      && (r.Some? ==> r == LargestMatchingId(listing.value, JsTrim(routeName)))
  {
    if createdId.Some? && createdId.value != 0 then createdId
    else if itemId.Some? && itemId.value != 0 then itemId
    else if listing.None? then None
    else
      var found := LargestMatchingId(listing.value, JsTrim(routeName));
      if found.Some? && found.value != 0 then found else None
  }

  /** The JSON body posted for one client. */
  datatype ClientPayload = ClientPayload(name: string, lat: real, lon: real)

  datatype ClientRequest = ClientRequest(url: string, payload: ClientPayload)

  /** The name sent for the i-th stop: its trimmed label, or `Stop i+1` when that is blank. */
  function PayloadName(s: EditStop, i: nat): string {
    if JsTrim(s.labelText) != "" then JsTrim(s.labelText) else "Stop " + NatToDecimal(i + 1)
  }

  /** The name is never empty: a blank label becomes `Stop ` and the stop's 1-based position. */
  lemma PayloadNameChoice(s: EditStop, i: nat)
    ensures |PayloadName(s, i)| > 0
    ensures JsTrim(s.labelText) != "" ==> PayloadName(s, i) == JsTrim(s.labelText)
    ensures JsTrim(s.labelText) == "" ==>
      StartsWith(PayloadName(s, i), "Stop ") && DecimalValue(PayloadName(s, i)[5..]) == i + 1
  {
    if JsTrim(s.labelText) == "" {
      var n := "Stop " + NatToDecimal(i + 1);
      assert n[5..] == NatToDecimal(i + 1);
      DecimalRoundTrip(i + 1);
    }
  }

  /** `apiUrl(`/api/routes/${routeId}/clients`)`. */
  function ClientsUrl(base: string, routeId: int): string {
    ApiUrl(base, "/api/routes/" + IntToDecimal(routeId) + "/clients")
  }

  /** The client record for the i-th cleaned stop: its name and its parsed coordinates. */
  function PayloadFor(s: EditStop, i: nat, num: string -> Option<real>): ClientPayload
    requires Parses(s, num)
  {
    ClientPayload(PayloadName(s, i), num(s.lat).value, num(s.lng).value)
  }

  /** The POSTs for the first `n` cleaned stops, in list order. */
  function Requests(url: string, cleaned: seq<EditStop>, num: string -> Option<real>, n: nat): (r: seq<ClientRequest>)
    requires n <= |cleaned|
    requires forall i :: 0 <= i < |cleaned| ==> Parses(cleaned[i], num)
    ensures |r| == n
  {
    if n == 0 then []
    else Requests(url, cleaned, num, n - 1) + [ClientRequest(url, PayloadFor(cleaned[n - 1], n - 1, num))]
  }

  /** The i-th POST goes to the route's clients URL and carries the i-th cleaned stop. */
  lemma {:induction false} RequestsAreStops(url: string, cleaned: seq<EditStop>, num: string -> Option<real>, n: nat, i: nat)
    requires i < n <= |cleaned|
    requires forall j :: 0 <= j < |cleaned| ==> Parses(cleaned[j], num)
    ensures Requests(url, cleaned, num, n)[i] == ClientRequest(url, PayloadFor(cleaned[i], i, num))
  {
    if i < n - 1 {
      RequestsAreStops(url, cleaned, num, n - 1, i);
    }
  }

  /** The loop of `handleSubmit` over the cleaned stops: one POST per stop, in list order. */
  method ClientRequests(base: string, routeId: int, cleaned: seq<EditStop>, num: string -> Option<real>)
    returns (reqs: seq<ClientRequest>)
    requires forall i :: 0 <= i < |cleaned| ==> Parses(cleaned[i], num)
    ensures reqs == Requests(ClientsUrl(base, routeId), cleaned, num, |cleaned|)
  {
    var url := ClientsUrl(base, routeId);
    reqs := [];
    var i := 0;
    while i < |cleaned|
      invariant 0 <= i <= |cleaned|
      invariant reqs == Requests(url, cleaned, num, i)
    {
      var stop := cleaned[i];
      var payload := PayloadFor(stop, i, num);
      reqs := reqs + [ClientRequest(url, payload)];
      i := i + 1;
    }
  }
}
