# SafeRide navigation client — a Dafny model of its logic

SafeRide is a web client for a rain-avoiding route planner. This project
models and proves the parts of the client that decide something:

- **RouteService** (`route_service.dfy`): how a route is requested; the
  fallback chain (routing backend, then the bundled sample route, then a
  synthesised three-point route); the one error that escapes that chain,
  the backend's HTTP 400 "no route" answer; and the time and distance
  formatters.
- **Navigation** (`navigation.dfy`): the navigation screen's playback
  engine. A `Navigator` class holds the screen state. `Start`, `Stop`,
  `Tick` and `LoadRoute` change it the way the screen's handlers and its
  interval callback do. The distance to the next maneuver is a loop,
  proved against a specification function.
- **RainTiles** (`rain_tiles.dfy`): rain tiles in the OpenStreetMap
  slippy-map scheme, turned into a GeoJSON FeatureCollection of Polygons
  (sections 3.2–3.3 of RFC 7946). Each Polygon is one closed linear ring
  (section 3.1.6). The ring winds clockwise, although that section asks
  exterior rings to wind counterclockwise; parsers are told not to reject
  such rings.
- **InstructionIcon** and **BottomNavigation** (`instruction_icon.dfy`,
  `bottom_navigation.dfy`): the maneuver-sign icon table and the two-tab
  bar.
- **RouteScreen** (`route_screen.dfy`): the route preview screen. It
  covers URL defaults, the geolocation fallback, the fetch effect as a
  class, the framing of both endpoints, the redirect on "no route" and the
  instruction list.
- **SearchResults** (`search_results.dfy`): the search results screen. It
  covers the query guard, result formatting, the camera plan that frames
  all results, and the marker/drawer selection handlers as a class.
- Shared modules:
  - `Viewport` (`viewport.dfy`): zoom buckets.
  - `RouteTypes` (`route_types.dfy`): the route record shapes, `Math.round`.
  - `Text` (`text.dfy`): decimal rendering, `includes`, `trim`.
  - `Wrappers` (`wrappers.dfy`): `Option` and `Result`.

Modelling choices:

- Quantities are JavaScript numbers. They are modelled as `real`; indices,
  signs and tile coordinates as `int`/`nat`.
- `Math.round(x)` is `Floor(x + 0.5)`. JavaScript's `%` truncates toward
  zero, and it is written out (`JsRem`).
- The great-circle distance and the tile latitude formula are passed in as
  function parameters. The model only assumes what it needs of them: a
  distance is never negative and is zero from a point to itself.
- Network answers, `parseFloat` and the device position are inputs.

## Model

| member | source | states |
|---|---|---|
| RouteService.Endpoint | src/services/routeService.ts:21 | the endpoint is "route" exactly when rain avoidance is on, "normal_route" exactly when it is off |
| RouteService.RequestFor | src/services/routeService.ts:21-22 | the request goes to the routing backend at the selected endpoint, latitude before longitude for both points |
| RouteService.EndpointDistinguishesSetting | src/services/routeService.ts:21 | the two settings address different endpoints |
| RouteService.PrimaryAttempt | src/services/routeService.ts:19-44 | a 2xx response with a parsed body gives the route; 400 throws the fixed "status: 400" message; another non-2xx status throws "HTTP error! status: N"; a parse or network failure throws its own message |
| RouteService.SampleRouteData | src/services/routeService.ts:59-81 | a 2xx parsed sample is returned verbatim; any other sample outcome yields the minimal route |
| RouteService.GetRoute | src/services/routeService.ts:12-57 | fails exactly when the attempt's error message mentions "status: 400", and then with that message; every other failure falls back to the sample route |
| RouteService.UnreachableMessageIsClassified | src/services/routeService.ts:35-51 | the message thrown for a 400 is caught by the rethrow test |
| RouteService.StatusMessageMentionsMarker | src/services/routeService.ts:38-51 | a status error is rethrown exactly when the decimal status starts with "400" |
| RouteService.MarkerOnlyAfterPrefix | src/services/routeService.ts:38-51 | in "HTTP error! status: " followed by digits, "status: 400" can only start right after "HTTP error! ", and then the digits start with "400" |
| RouteService.OnlyStatus400StartsWith400 | src/services/routeService.ts:35-38 | below 1000, only status 400 renders with a leading "400" |
| RouteService.GetRouteFailsOnlyOn400 | src/services/routeService.ts:33-55 | for any status below 1000, getRoute throws exactly when the backend answers 400, with the 400 message |
| RouteService.MinimalRoute | src/services/routeService.ts:83-162 | exactly one path and no rain tiles |
| RouteService.MinimalRouteShape | src/services/routeService.ts:109-148 | coordinates are [start, midpoint, end]; the box spans both endpoints; intervals [0,1], [1,2], [2,2] with signs 0, 2, 4; the arrival has no distance and no time; the path is well formed |
| RouteService.MinimalRouteTiming | src/services/routeService.ts:89-137 | total time is the distance at 8.33 m/s in whole milliseconds; the travel instructions split the distance 4:1, take round(0.8 × total) and round(0.2 × total) as their times, and those add up to the total |
| RouteService.FourFifthsSplit | src/services/routeService.ts:129-137 | rounding 0.8t and 0.2t separately never loses or gains a millisecond |
| RouteService.JsRem | src/services/routeService.ts:179-180 | JavaScript's remainder: that of the magnitude, with the sign of the dividend |
| RouteService.TimeLabelOf | src/services/routeService.ts:176-189 | hours and minutes from one hour on, minutes alone from one minute on, seconds below; minutes lie in 0..59 and the parts rebuild the floored total seconds |
| RouteService.FormatDistance | src/services/routeService.ts:191-197 | kilometres exactly from 1000 m on; otherwise whole metres within half a metre of the input, never above 1000 |
| RouteTypes.Round | src/services/routeService.ts:195 | `Math.round`: within half of the input, halves rounded up |
| RouteTypes.FirstPath | src/NavigationScreen.tsx:102 | the first path exactly when the response has one |
| Text.NatToString | src/services/routeService.ts:38 | a non-empty run of decimal digits, one digit exactly below 10 |
| Text.ParseNatToString | src/services/routeService.ts:38 | reading the rendered digits back gives the number |
| Text.NatToStringInjective | src/services/routeService.ts:38 | different statuses render differently |
| Text.TrimStart | src/SearchResultScreen.tsx:206 | removes exactly the leading JavaScript whitespace; empty exactly for a blank text |
| Text.TrimEnd | src/SearchResultScreen.tsx:206 | removes exactly the trailing JavaScript whitespace; empty exactly for a blank text |
| Text.TrimEmptyIffBlank | src/SearchResultScreen.tsx:206 | `trim()` is empty exactly for an all-whitespace text |
| Navigation.PolylineLengthNonNegative | src/NavigationScreen.tsx:124-128 | the summed segment lengths are never negative |
| Navigation.PolylineLengthFirst | src/NavigationScreen.tsx:124-128 | the sum from vertex i is its first segment plus the sum from i + 1 |
| Navigation.PolylineLengthShrinks | src/NavigationScreen.tsx:124-128 | starting further along never lengthens the sum |
| Navigation.SegmentEnd | src/NavigationScreen.tsx:110-124 | the loop bound min(interval end, N − 1) always indexes the polyline |
| Navigation.DistanceToNextInstruction | src/NavigationScreen.tsx:97-131 | the loop computes DistanceToNext: 0 without a path or from the last instruction on; otherwise the distance to the current vertex plus the segments up to the instruction's end |
| Navigation.DistanceToNextAtVertex | src/NavigationScreen.tsx:115-128 | at a vertex the first term vanishes and only the polyline to the instruction's end remains |
| Navigation.DistanceToNextShrinks | src/NavigationScreen.tsx:109-128 | walking on, the distance to the next maneuver never grows, is never negative, and is 0 once the instruction's end is reached |
| Navigation.ProgressIncreases | src/NavigationScreen.tsx:202 | progress starts at 0, grows strictly from tick to tick and stays below 100 on running ticks |
| Navigation.RemainingStartsAtTotal | src/NavigationScreen.tsx:206-208 | remaining time and distance equal the rounded totals at the first vertex |
| Navigation.RemainingDecreases | src/NavigationScreen.tsx:206-208 | remaining time and distance never increase from tick to tick and are never negative |
| Navigation.Navigator.constructor | src/NavigationScreen.tsx:40-58 | the screen starts with no route, not navigating, all readouts 0 |
| Navigation.Navigator.LoadRoute | src/NavigationScreen.tsx:134-174 | a fetched route is stored, the position moves to its first vertex, remaining totals reset; a running simulation restarts with both counters at 0; a failed fetch changes nothing |
| Navigation.Navigator.Start | src/NavigationScreen.tsx:244-249 | navigation starts with instruction 0, progress 0, not complete, and a fresh interval with both counters at 0 when a path is loaded |
| Navigation.Navigator.Stop | src/NavigationScreen.tsx:251-253 | navigation stops and the interval is cleared |
| Navigation.Navigator.Tick | src/NavigationScreen.tsx:187-239 | a running tick shows vertex i, sets progress i/N·100, remaining round(total·(N−i)/N), the distance to the next maneuver, advances the instruction only below the last one and once i has reached its interval end, and moves the counter by one; past the last vertex it completes: progress 100, nothing remaining, interval cleared, still navigating |
| Navigation.Playback | src/NavigationScreen.tsx:177-249 | after a start on a route of N vertices the interval fires exactly N + 1 times and the run ends complete, still navigating, with progress 100 and no time, distance or maneuver distance remaining |
| Navigation.NavigationIcon | src/NavigationScreen.tsx:263-286 | left/right/flag glyphs for the left, right and arrive signs; every icon coloured; primary except for slight, keep and arrive signs |
| Navigation.NavigationIconAgreesWithInstructionIcon | src/NavigationScreen.tsx:263-286 | the screen's table is the shared icon table with the uncoloured left turns made primary |
| RainTiles.TileToLonLat | src/components/map/RainTileLayer.tsx:21-27 | the corner's longitude is x/2^z·360 − 180 and its latitude the latitude of row y |
| RainTiles.LongitudeSpansWorld | src/components/map/RainTileLayer.tsx:22-23 | column 0 is at −180 and column 2^z at 180 |
| RainTiles.LongitudeStrictlyIncreasing | src/components/map/RainTileLayer.tsx:23 | longitude grows strictly with the column |
| RainTiles.LatitudeIgnoresColumn | src/components/map/RainTileLayer.tsx:24-25 | latitude does not depend on the column |
| RainTiles.TileBounds | src/components/map/RainTileLayer.tsx:36-47 | five positions, first equal to last; corners NW, NE, SE, SW in that order |
| RainTiles.NeighboursShareEdges | src/components/map/RainTileLayer.tsx:37-45 | the east edge of a tile is the west edge of its eastern neighbour and its south edge the north edge of its southern neighbour |
| RainTiles.TileBoundsOriented | src/components/map/RainTileLayer.tsx:37-45 | when latitude falls with the row, west lies west of east and south below north |
| RainTiles.RainTileFeatures | src/components/map/RainTileLayer.tsx:57-84 | nothing for a missing or empty list; otherwise one feature per tile, in order, id = index, x, y and zoom copied, the tile's ring as the only ring |
| RainTiles.FeaturesAreLinearRings | src/components/map/RainTileLayer.tsx:63-79 | every emitted polygon is one closed linear ring |
| RainTiles.BoxRingShoelace | src/components/map/RainTileLayer.tsx:36-47 | the ring NW, NE, SE, SW, NW of a box encloses the signed area 2(w − e)(n − s) |
| RainTiles.TileRingsWindClockwise | src/components/map/RainTileLayer.tsx:36-47 | when latitude falls with the row, a tile's ring has a negative shoelace sum: it winds clockwise |
| InstructionIcon.BuiltInIcon | src/components/InstructionIcon.tsx:12-33 | left glyph exactly for −3, −2, −1, −7; right exactly for 1, 2, 3, 7; flag exactly for 4; no own colour exactly for −3, −2; disabled exactly for ±1; action exactly for ±7; success exactly for 4 |
| InstructionIcon.RenderedIcon | src/components/InstructionIcon.tsx:11-35 | a caller's colour replaces the built-in one; the glyph is the table's |
| InstructionIcon.UnlistedSignsGoStraight | src/components/InstructionIcon.tsx:18-31 | every other sign shows the primary straight arrow |
| BottomNavigation.CurrentTab | src/components/navigation/BottomNavigation.tsx:16-25 | the tab is 0 or 1, and 1 exactly on "/settings" |
| BottomNavigation.TabTarget | src/components/navigation/BottomNavigation.tsx:27-36 | tab 0 goes to "/", tab 1 to "/settings", any other value nowhere |
| BottomNavigation.TabRoundTrip | src/components/navigation/BottomNavigation.tsx:16-36 | the path a tab leads to makes that tab current |
| BottomNavigation.PathRoundTrip | src/components/navigation/BottomNavigation.tsx:16-36 | on "/" and "/settings" the current tab leads back to the same path |
| Viewport.ZoomForSpan | src/RouteScreen.tsx:127-132 | the zoom is one of 16/14/12/10/8; 16 exactly below 0.01, 14 exactly in [0.01, 0.05), 12 exactly in [0.05, 0.1), 10 exactly in [0.1, 0.5), 8 exactly from 0.5 on |
| Viewport.ZoomNonIncreasing | src/RouteScreen.tsx:127-132 | a wider span never zooms in further |
| RouteScreen.ParamOr | src/RouteScreen.tsx:48-52 | a present, non-empty parameter yields its own value; a missing or empty one yields the fallback; a non-empty fallback gives a non-empty value |
| RouteScreen.ReadRouteQuery | src/RouteScreen.tsx:48-53 | rain avoidance exactly when the parameter is "true"; the destination name is the parameter when present and non-empty, else the default, and never empty; each coordinate parses its own non-empty parameter, or the default text when missing or empty |
| RouteScreen.EmptyQueryDefaults | src/RouteScreen.tsx:48-53 | with no parameters the trip runs from (137.7, 34.7) to (137.72, 34.72) to "目的地", rain avoidance off |
| RouteScreen.RedirectFor | src/RouteScreen.tsx:141-150 | a redirect to the search for the destination, with the notice, exactly when the error mentions "status: 400" |
| RouteScreen.GetRouteFailureRedirects | src/RouteScreen.tsx:81-147 | every error getRoute lets through redirects |
| RouteScreen.RedirectsOnlyOn400 | src/RouteScreen.tsx:141-150 | for a backend status below 1000 the screen redirects exactly on 400 |
| RouteScreen.FitBoundsFor | src/RouteScreen.tsx:97-107 | each edge lies exactly max(0.2 × span, 0.01)° beyond the outer point on that axis, so both points lie inside and each side spans at least 1.4 times the points' span |
| RouteScreen.FallbackViewFor | src/RouteScreen.tsx:121-132 | the centre is the midpoint; the zoom is the bucket of the larger coordinate difference |
| RouteScreen.FramingsShareCentre | src/RouteScreen.tsx:97-132 | the fit box is centred on the fallback centre, which lies inside it |
| RouteScreen.NearbyPointsZoomIn | src/RouteScreen.tsx:126-128 | points closer than 0.01° on both axes are shown at zoom 16 |
| RouteScreen.DetailInstructions | src/RouteScreen.tsx:382 | every instruction but the last, in order |
| RouteScreen.DetailHeaderCount | src/RouteScreen.tsx:379 | one less than the number of instructions |
| RouteScreen.HeaderCountsListedInstructions | src/RouteScreen.tsx:379-382 | the header counts the listed instructions, and reads −1 for an empty list |
| RouteScreen.DetailListHidesArrival | src/RouteScreen.tsx:379-382 | for a well-formed path the list is the path minus its arrival |
| RouteScreen.RouteScreenState.constructor | src/RouteScreen.tsx:37-56 | the switch follows the URL; no position, route or redirect; not loading |
| RouteScreen.RouteScreenState.OnGeolocation | src/RouteScreen.tsx:59-71 | the device's fix, or the URL's start on error |
| RouteScreen.RouteScreenState.SetRainAvoidance | src/RouteScreen.tsx:311-312 | the switch sets rain avoidance |
| RouteScreen.RouteScreenState.BeginFetch | src/RouteScreen.tsx:74-87 | no request while the position is unknown; otherwise loading and a request from the position to the destination with the current setting |
| RouteScreen.RouteScreenState.FinishFetch | src/RouteScreen.tsx:88-153 | a route is stored; a "status: 400" error sets the redirect; loading ends on every outcome |
| RouteScreen.FetchRoute | src/RouteScreen.tsx:74-156 | without a position nothing changes, loading included; with a position, the screen ends not loading; success stores getRoute's route and keeps the redirect; failure keeps the old route and asks to go back to the search with the no-route notice; position and rain switch are untouched |
| SearchResults.FirstPiece | src/SearchResultScreen.tsx:223 | the prefix before the first comma: comma-free, a prefix, stopped by a comma or the end |
| SearchResults.ResultName | src/SearchResultScreen.tsx:223 | never empty; the display name's first piece if non-empty, else the item's name if non-empty, else "名称不明" |
| SearchResults.FormatResult | src/SearchResultScreen.tsx:222-229 | name as above; address the display name or ""; coordinates parsed; category the class or "place" |
| SearchResults.FormatResults | src/SearchResultScreen.tsx:222-229 | one result per item, in order, each with a non-empty name and category |
| SearchResults.ShouldSearch | src/SearchResultScreen.tsx:206 | a search runs exactly for a query that is not all whitespace |
| SearchResults.InitialQuery | src/SearchResultScreen.tsx:248-253 | the initial search runs for a non-empty `q` exactly when no `error` parameter is present |
| SearchResults.SeqMin | src/SearchResultScreen.tsx:144-146 | an element no greater than any other |
| SearchResults.SeqMax | src/SearchResultScreen.tsx:145-147 | an element no smaller than any other |
| SearchResults.SumBetween | src/SearchResultScreen.tsx:173-174 | the sum of n numbers lies between n·min and n·max |
| SearchResults.Mean | src/SearchResultScreen.tsx:173-174 | the mean taken n times gives the sum of the n coordinates |
| SearchResults.MeanWithinRange | src/SearchResultScreen.tsx:173-174 | the mean lies between the least and the largest element |
| SearchResults.ResultsFallbackView | src/SearchResultScreen.tsx:170-192 | the centre is the mean of the longitudes and of the latitudes; the zoom is the bucket of the larger of the two spans |
| SearchResults.MeanPosition | src/SearchResultScreen.tsx:173-174 | its longitude and latitude, each taken n times, give the sums of the n results' coordinates |
| SearchResults.ResultsBounds | src/SearchResultScreen.tsx:141-156 | every result lies inside; each side spans 1.2 times the results' span, centred on it |
| SearchResults.FallbackCentreInsideBounds | src/SearchResultScreen.tsx:141-174 | the mean-position fallback centre lies inside the fit box |
| SearchResults.ClusteredResultsZoomIn | src/SearchResultScreen.tsx:177-186 | results within 0.01° of one another get zoom 16 |
| SearchResults.AdjustPlan | src/SearchResultScreen.tsx:125-196 | no results leave the map alone; one is centred at zoom 16; several are fitted to the 10%-padded min..max box of the results, with the mean view as fallback |
| SearchResults.AdjustPlanShowsEveryResult | src/SearchResultScreen.tsx:136-192 | for several results both the fit box and its fallback centre keep every result in view |
| SearchResults.SearchScreenState.constructor | src/SearchResultScreen.tsx:67-83 | no results, nothing selected, drawer closed; error banner exactly when the URL has an error |
| SearchResults.SearchScreenState.AdjustMapToAllResults | src/SearchResultScreen.tsx:125-202 | no results change nothing; otherwise the camera plan is applied and the drawer opens |
| SearchResults.SearchScreenState.PerformSearch | src/SearchResultScreen.tsx:205-245 | a blank query does nothing; an answer replaces the results and, only if the map was not framed when the search began, frames them and opens the drawer when there are any; a failure keeps the old results, camera and drawer; loading ends on every outcome; selection and error banner are untouched |
| SearchResults.SearchScreenState.ShowAnswer | src/SearchResultScreen.tsx:231-238 | the results are stored and flagged; framing and drawer change only when the map had not been framed |
| SearchResults.SearchScreenState.OnErrorMessage | src/SearchResultScreen.tsx:256-267 | an error parameter raises the banner, the results section and the drawer |
| SearchResults.SearchScreenState.HandleMarkerClick | src/SearchResultScreen.tsx:270-280 | the entry becomes selected, the drawer closes, the map centres on it at zoom 16 |
| SearchResults.SearchScreenState.HandleMapMarkerClick | src/SearchResultScreen.tsx:283-303 | the selected pin clears the selection; another pin is selected, closes the drawer and is centred |
| SearchResults.SearchScreenState.HandleShowAllResults | src/SearchResultScreen.tsx:306-316 | with results: selection cleared, drawer open, all framed; without: nothing |
| SearchResults.SearchScreenState.HandleDrawerToggle | src/SearchResultScreen.tsx:319-331 | the drawer toggles; opening clears the selection and frames all results |
| SearchResults.ClickPinTwice | src/SearchResultScreen.tsx:283-291 | clicking the same unselected pin twice leaves nothing selected and the drawer closed |

## Left out

- The haversine formulas are not modelled. Both copies are
  transcendental floating-point code (`src/NavigationScreen.tsx:79-88`,
  `src/services/routeService.ts:164-173`). Each is a function parameter
  assumed non-negative and zero on equal points, where a proof needs that.
- The Mercator latitude `atan(sinh(…))` is a function parameter of the
  row and zoom, for the same reason.
- Floating point is not modelled. Reals are exact, so rounding error in
  `(x / n) * 360`, in `0.8 * distance` or in the mean is not captured.
- `toFixed(1)` and number-to-text rendering of reals are not modelled.
  `FormatDistance` returns the kilometre value, not its one-decimal text.
- The network, `response.json()` and `parseFloat` are not modelled. Fetch
  outcomes and parsed values are inputs. `parseFloat` returning NaN is not
  modelled.
- `encodeURIComponent` is not modelled. The redirect carries the plain
  destination name and notice.
- Timers are not modelled: `setInterval` / `setTimeout` delays and React
  effect scheduling. Ticks and delayed map adjustments are explicit calls
  and take effect at once.
- Navigation.Navigator.LoadRoute: does not set the initial distance to the
  next maneuver. The screen computes it through a callback that still sees
  the previous route (`src/NavigationScreen.tsx:157-162`), so its result
  depends on render timing. The screen always requests the route with
  rain avoidance on (`src/NavigationScreen.tsx:136-142`); the model takes
  the fetch outcome as input and does not tie it to that request.
- An absent `paths` list in a route response is read as the empty
  list. `src/RouteScreen.tsx:158` reads `route?.paths[0]`, which throws
  during render when a response has no `paths`; that crash is not
  modelled.
- Map-library calls (`flyTo`, `fitBounds`, `setViewport` and the map
  viewport state) are not modelled. What the screens ask of the map is
  recorded as values: `Bounds`, `View`, `ViewPlan`, `camera`. Which of
  `fitBounds` or its fallback runs depends on the library throwing.
- Browser geolocation is an input (`Option<Coordinate>`).
- Route fields the logic does not read are not modelled: `hints`, `info`,
  `weight`, `legs`, `details`, street refs. The timestamp is
  nondeterministic.
- The `size`-to-`fontSize` mapping of `getInstructionIcon` is presentation
  only.
- Console logging and styling are not modelled.

## Findings

None.
