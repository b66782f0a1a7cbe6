/**
 * The route preview screen: it reads the trip from the URL, takes the
 * device position (falling back to the URL's start), fetches the route,
 * frames both endpoints on the map, sends an unreachable destination back
 * to the search results, and lists the route's instructions.
 */
module RouteScreen {
  import opened Wrappers
  import opened Text
  import opened RouteTypes
  import opened RouteService
  import opened Viewport

  /** The trip the screen shows, as read from the URL's query parameters. */
  datatype RouteQuery = RouteQuery(start: Coordinate, end: Coordinate, destinationName: string, rainAvoidance: bool)

  const DefaultStartLng: string := "137.7"
  const DefaultStartLat: string := "34.7"
  const DefaultEndLng: string := "137.72"
  const DefaultEndLat: string := "34.72"
  const DefaultDestinationName: string := "目的地"

  /** `searchParams.get(key) || fallback`: a missing or empty parameter takes the fallback. */
  function ParamOr(params: map<string, string>, key: string, fallback: string): (v: string)
    ensures key in params && params[key] != "" ==> v == params[key]
    ensures !(key in params && params[key] != "") ==> v == fallback
    ensures fallback != "" ==> v != ""
  {
    if key in params && params[key] != "" then params[key] else fallback
  }

  /**
   * The URL parameters as the screen reads them. `parseFloat` is the
   * number parser applied to the coordinate texts.
   */
  function ReadRouteQuery(params: map<string, string>, parseFloat: string -> real): (q: RouteQuery)
    ensures q.rainAvoidance <==> "rainAvoidance" in params && params["rainAvoidance"] == "true"
    ensures q.destinationName != ""
    ensures "name" in params && params["name"] != "" ==> q.destinationName == params["name"]
    ensures !("name" in params && params["name"] != "") ==> q.destinationName == DefaultDestinationName
    ensures "startLng" in params && params["startLng"] != "" ==> q.start.lng == parseFloat(params["startLng"])
    ensures "startLat" in params && params["startLat"] != "" ==> q.start.lat == parseFloat(params["startLat"])
    ensures "endLng" in params && params["endLng"] != "" ==> q.end.lng == parseFloat(params["endLng"])
    ensures "endLat" in params && params["endLat"] != "" ==> q.end.lat == parseFloat(params["endLat"])
    ensures !("startLng" in params && params["startLng"] != "") ==> q.start.lng == parseFloat(DefaultStartLng)
    ensures !("startLat" in params && params["startLat"] != "") ==> q.start.lat == parseFloat(DefaultStartLat)
    ensures !("endLng" in params && params["endLng"] != "") ==> q.end.lng == parseFloat(DefaultEndLng)
    ensures !("endLat" in params && params["endLat"] != "") ==> q.end.lat == parseFloat(DefaultEndLat)
  {
    RouteQuery(
      Coordinate(parseFloat(ParamOr(params, "startLng", DefaultStartLng)),
                 parseFloat(ParamOr(params, "startLat", DefaultStartLat))),
      Coordinate(parseFloat(ParamOr(params, "endLng", DefaultEndLng)),
                 parseFloat(ParamOr(params, "endLat", DefaultEndLat))),
      ParamOr(params, "name", DefaultDestinationName),
      "rainAvoidance" in params && params["rainAvoidance"] == "true")
  }

  /** With no parameters at all the trip runs from (137.7, 34.7) to (137.72, 34.72), avoiding no rain. */
  lemma EmptyQueryDefaults(parseFloat: string -> real)
    requires parseFloat(DefaultStartLng) == 137.7 && parseFloat(DefaultStartLat) == 34.7
    requires parseFloat(DefaultEndLng) == 137.72 && parseFloat(DefaultEndLat) == 34.72
    ensures ReadRouteQuery(map[], parseFloat)
            == RouteQuery(Coordinate(137.7, 34.7), Coordinate(137.72, 34.72), DefaultDestinationName, false)
  {
  }

  /** The notice shown on the search results when no route exists. */
  const NoRouteNotice: string :=
    "ルートを取得できませんでした。\n現在地または目的地が雨、経路が国外を通る、または到着地点までの道がありません。"

  /** A navigation to the search results: the query `q` and the `error` notice (URL encoding aside). */
  datatype SearchRedirect = SearchRedirect(q: string, error: string)

  /**
   * The fetch's catch block: an error mentioning "status: 400" sends the
   * user back to the search for the destination with the notice; any other
   * error is only logged.
   */
  function RedirectFor(message: string, destinationName: string): (r: Option<SearchRedirect>)
    ensures r.Some? <==> IsUnreachableError(message)
    ensures r.Some? ==> r.value.q == destinationName && r.value.error == NoRouteNotice
  {
    if message != "" && Contains(message, UnreachableMarker) then Some(SearchRedirect(destinationName, NoRouteNotice))
    else None
  }

  /** Every error `getRoute` lets through redirects to the search results. */
  lemma GetRouteFailureRedirects(startLng: real, startLat: real, endLng: real, endLat: real,
                                 primary: FetchOutcome, sample: FetchOutcome,
                                 distanceKm: (Coordinate, Coordinate) -> real, destinationName: string)
    ensures var r := GetRoute(startLng, startLat, endLng, endLat, primary, sample, distanceKm);
            r.Failure? ==> RedirectFor(r.error, destinationName) == Some(SearchRedirect(destinationName, NoRouteNotice))
  {
  }

  /**
   * For a backend answering with any status below 1000, the screen goes back
   * to the search results exactly when that status is 400.
   */
  lemma RedirectsOnlyOn400(startLng: real, startLat: real, endLng: real, endLat: real,
                           status: nat, body: Body, sample: FetchOutcome,
                           distanceKm: (Coordinate, Coordinate) -> real, destinationName: string)
    requires status < 1000
    requires body.Malformed? ==> !IsUnreachableError(body.message)
    ensures var r := GetRoute(startLng, startLat, endLng, endLat, Responded(status, body), sample, distanceKm);
            (r.Failure? && RedirectFor(r.error, destinationName).Some?) <==> status == 400
  {
    GetRouteFailsOnlyOn400(startLng, startLat, endLng, endLat, status, body, sample, distanceKm);
  }

  /**
   * The box handed to `fitBounds`: the two points' box widened on each axis
   * by a fifth of its span, and by at least 0.01 degrees.
   */
  function FitBoundsFor(current: Coordinate, end: Coordinate): (b: Bounds)
    ensures Inside(current, b) && Inside(end, b)
    ensures Min(current.lng, end.lng) - b.southWest.lng >= 0.01 && b.northEast.lng - Max(current.lng, end.lng) >= 0.01
    ensures Min(current.lat, end.lat) - b.southWest.lat >= 0.01 && b.northEast.lat - Max(current.lat, end.lat) >= 0.01
    ensures b.northEast.lng - b.southWest.lng >= 1.4 * Abs(end.lng - current.lng)
    ensures b.northEast.lat - b.southWest.lat >= 1.4 * Abs(end.lat - current.lat)
    ensures Min(current.lng, end.lng) - b.southWest.lng == Max(0.2 * Abs(end.lng - current.lng), 0.01)
    ensures b.northEast.lng - Max(current.lng, end.lng) == Max(0.2 * Abs(end.lng - current.lng), 0.01)
    ensures Min(current.lat, end.lat) - b.southWest.lat == Max(0.2 * Abs(end.lat - current.lat), 0.01)
    ensures b.northEast.lat - Max(current.lat, end.lat) == Max(0.2 * Abs(end.lat - current.lat), 0.01)
  {
    var minLng, maxLng := Min(current.lng, end.lng), Max(current.lng, end.lng);
    var minLat, maxLat := Min(current.lat, end.lat), Max(current.lat, end.lat);
    var lngPadding := Max((maxLng - minLng) * 0.2, 0.01);
    var latPadding := Max((maxLat - minLat) * 0.2, 0.01);
    Bounds(Coordinate(minLng - lngPadding, minLat - latPadding), Coordinate(maxLng + lngPadding, maxLat + latPadding))
  }

  /** The viewport used when `fitBounds` throws: the midpoint, zoomed by the larger coordinate difference. */
  function FallbackViewFor(current: Coordinate, end: Coordinate): (v: View)
    ensures 2.0 * v.center.lng == current.lng + end.lng && 2.0 * v.center.lat == current.lat + end.lat
    ensures v.zoom == ZoomForSpan(Max(Abs(end.lng - current.lng), Abs(end.lat - current.lat)))
  {
    View(Coordinate((current.lng + end.lng) / 2.0, (current.lat + end.lat) / 2.0),
         ZoomForSpan(Max(Abs(end.lng - current.lng), Abs(end.lat - current.lat))))
  }

  /** Both framings agree on the centre: the fit box is centred on the fallback view's centre. */
  lemma FramingsShareCentre(current: Coordinate, end: Coordinate)
    ensures var b, v := FitBoundsFor(current, end), FallbackViewFor(current, end);
            b.southWest.lng + b.northEast.lng == 2.0 * v.center.lng
            && b.southWest.lat + b.northEast.lat == 2.0 * v.center.lat
            && Inside(v.center, b)
  {
  }

  /** Two nearby points (closer than 0.01 degrees on both axes) are shown at street level, zoom 16. */
  lemma NearbyPointsZoomIn(current: Coordinate, end: Coordinate)
    requires Abs(end.lng - current.lng) < 0.01 && Abs(end.lat - current.lat) < 0.01
    ensures FallbackViewFor(current, end).zoom == 16
  {
  }

  /** `instructions.slice(0, -1)`: every instruction but the last (the arrival). */
  function DetailInstructions(instructions: seq<RouteInstruction>): (shown: seq<RouteInstruction>)
    ensures |shown| == if |instructions| == 0 then 0 else |instructions| - 1
    ensures forall k :: 0 <= k < |shown| ==> shown[k] == instructions[k]
  {
    if |instructions| == 0 then [] else instructions[..|instructions| - 1]
  }

  /** The number in the list header: one less than the number of instructions. */
  function DetailHeaderCount(instructions: seq<RouteInstruction>): (count: int)
    ensures count + 1 == |instructions|
  {
    |instructions| - 1
  }

  /**
   * The header counts the listed instructions whenever there is one; for an
   * empty instruction list it reads -1 while nothing is listed.
   */
  lemma HeaderCountsListedInstructions(instructions: seq<RouteInstruction>)
    ensures |instructions| > 0 ==> DetailHeaderCount(instructions) == |DetailInstructions(instructions)|
    ensures |instructions| == 0 ==> DetailHeaderCount(instructions) == -1 && DetailInstructions(instructions) == []
  {
  }

  /** A well-formed path lists every instruction before its arrival, and hides the arrival. */
  lemma DetailListHidesArrival(p: RoutePath)
    requires WellFormed(p)
    ensures DetailInstructions(p.instructions) + [Last(p.instructions)] == p.instructions
    ensures Last(p.instructions).sign == ArriveSign
  {
    assert DetailInstructions(p.instructions) == p.instructions[..|p.instructions| - 1];
  }

  /**
   * The screen's state: the trip, the rain-avoidance switch, the position
   * the route starts from, the fetch's loading flag, the fetched route and
   * the navigation the error handler requested.
   */
  class RouteScreenState {
    const query: RouteQuery
    var rainAvoidance: bool
    var currentPosition: Option<Coordinate>
    var loading: bool
    var route: Option<RouteResponse>
    var redirect: Option<SearchRedirect>

    /** The first render: the switch follows the URL, nothing is fetched yet. */
    constructor (query: RouteQuery)
      ensures this.query == query && rainAvoidance == query.rainAvoidance
      ensures currentPosition.None? && !loading && route.None? && redirect.None?
    {
      this.query := query;
      rainAvoidance := query.rainAvoidance;
      currentPosition := None;
      loading := false;
      route := None;
      redirect := None;
    }

    /** The geolocation callback: the device's fix, or on error the URL's start point. */
    method OnGeolocation(fix: Option<Coordinate>)
      modifies this`currentPosition
      ensures currentPosition == Some(if fix.Some? then fix.value else query.start)
    {
      match fix
      case Some(p) => currentPosition := Some(p);
      case None => currentPosition := Some(query.start);
    }

    /** The rain-avoidance switch. */
    method SetRainAvoidance(checked: bool)
      modifies this`rainAvoidance
      ensures rainAvoidance == checked
    {
      rainAvoidance := checked;
    }

    /**
     * The start of the fetch effect: nothing happens while the position is
     * unknown; otherwise loading begins and the route is requested from the
     * position to the destination with the current rain setting.
     */
    method BeginFetch() returns (request: Option<RouteRequest>)
      modifies this`loading
      ensures request.Some? <==> currentPosition.Some?
      ensures currentPosition.None? ==> loading == old(loading)
      ensures currentPosition.Some? ==> loading
      ensures currentPosition.Some? ==>
                request.value == RequestFor(currentPosition.value.lng, currentPosition.value.lat,
                                            query.end.lng, query.end.lat, rainAvoidance)
    {
      if currentPosition.None? {
        return None;
      }
      loading := true;
      var position := currentPosition.value;
      request := Some(RequestFor(position.lng, position.lat, query.end.lng, query.end.lat, rainAvoidance));
    }

    /**
     * The end of the fetch effect: a route is stored; an error is classified
     * and may request the redirect to the search results; loading ends
     * whatever the outcome.
     */
    method FinishFetch(result: Result<RouteResponse, string>)
      modifies this`route, this`redirect, this`loading
      ensures !loading
      ensures result.Success? ==> route == Some(result.value) && redirect == old(redirect)
      ensures result.Failure? ==> route == old(route)
      ensures result.Failure? && IsUnreachableError(result.error) ==>
                redirect == Some(SearchRedirect(query.destinationName, NoRouteNotice))
      ensures result.Failure? && !IsUnreachableError(result.error) ==> redirect == old(redirect)
    {
      match result {
        case Success(response) =>
          route := Some(response);
        case Failure(message) =>
          var target := RedirectFor(message, query.destinationName);
          if target.Some? {
            redirect := target;
          }
      }
      loading := false;
    }
  }

  /**
   * One run of the fetch effect against the service: with a position, the
   * screen ends not loading and either shows the route `getRoute` produced
   * or has asked to go back to the search results, keeping the other of the
   * two. The position and the switch are never touched.
   */
  method FetchRoute(screen: RouteScreenState, primary: FetchOutcome, sample: FetchOutcome,
                    distanceKm: (Coordinate, Coordinate) -> real)
    modifies screen
    ensures old(screen.currentPosition).None? ==>
              screen.route == old(screen.route) && screen.redirect == old(screen.redirect) && screen.loading == old(screen.loading)
    ensures old(screen.currentPosition).Some? ==>
              var p := old(screen.currentPosition).value;
              var r := GetRoute(p.lng, p.lat, screen.query.end.lng, screen.query.end.lat, primary, sample, distanceKm);
              && !screen.loading
              && (r.Success? ==> screen.route == Some(r.value) && screen.redirect == old(screen.redirect))
              && (r.Failure? ==> screen.route == old(screen.route)
                                 && screen.redirect == Some(SearchRedirect(screen.query.destinationName, NoRouteNotice)))
    ensures screen.currentPosition == old(screen.currentPosition) && screen.rainAvoidance == old(screen.rainAvoidance)
  {
    var request := screen.BeginFetch();
    if request.None? {
      return;
    }
    var p := screen.currentPosition.value;
    var result := GetRoute(p.lng, p.lat, screen.query.end.lng, screen.query.end.lat, primary, sample, distanceKm);
    screen.FinishFetch(result);
  }
}
