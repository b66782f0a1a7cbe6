/**
 * The records a routing backend returns (a GraphHopper-compatible route
 * response) and the numeric helpers of the JavaScript runtime that the core
 * applies to them.
 */
module RouteTypes {
  import opened Wrappers

  /** A position, longitude first, as in GeoJSON and in the route's point list. */
  datatype Coordinate = Coordinate(lng: real, lat: real)

  /** The `[startIndex, endIndex]` pair of an instruction: indices into the coordinates. */
  datatype Interval = Interval(start: int, end: int)

  /** One maneuver of a route. */
  datatype RouteInstruction = RouteInstruction(
    distance: real,        // metres
    sign: int,             // maneuver code (see InstructionIcon)
    interval: Interval,
    text: string,
    time: real,            // milliseconds
    streetName: string)

  /** The `[minLng, minLat, maxLng, maxLat]` box of a path. */
  datatype BBox = BBox(minLng: real, minLat: real, maxLng: real, maxLat: real)

  /** One computed path: polyline, turn-by-turn instructions and totals. */
  datatype RoutePath = RoutePath(
    distance: real,        // metres
    time: real,            // milliseconds
    bbox: BBox,
    coordinates: seq<Coordinate>,
    instructions: seq<RouteInstruction>,
    snappedWaypoints: seq<Coordinate>)

  /** A slippy-map tile flagged as carrying rain. */
  datatype RainTile = RainTile(x: int, y: int, zoom: nat)

  /**
   * A route response: its paths and the optional rain tiles. An absent
   * `paths` list is read as the empty list; the preview screen would throw
   * on it instead (see README).
   */
  datatype RouteResponse = RouteResponse(paths: seq<RoutePath>, rainTileList: Option<seq<RainTile>>)

  /** The sign value GraphHopper reserves for "arrive". */
  const ArriveSign: int := 4

  /** `response?.paths?.[0]`: the path every screen displays. */
  function FirstPath(response: Option<RouteResponse>): (p: Option<RoutePath>)
    ensures p.Some? <==> response.Some? && |response.value.paths| > 0
    ensures p.Some? ==> p.value == response.value.paths[0]
  {
    if response.Some? && |response.value.paths| > 0 then Some(response.value.paths[0]) else None
  }

  /**
   * The structural invariant of a path: at least two coordinates; every
   * interval is ordered and indexes the coordinates; intervals follow one
   * another along the polyline; the last instruction is an arrival that covers
   * a single point and no distance.
   */
  ghost predicate WellFormed(p: RoutePath) {
    |p.coordinates| >= 2 && |p.instructions| >= 1
    && (forall k :: 0 <= k < |p.instructions| ==>
          0 <= p.instructions[k].interval.start <= p.instructions[k].interval.end < |p.coordinates|)
    && (forall k :: 0 <= k < |p.instructions| - 1 ==>
          p.instructions[k].interval.end <= p.instructions[k + 1].interval.start)
    && Last(p.instructions).sign == ArriveSign
    && Last(p.instructions).distance == 0.0
    && Last(p.instructions).interval.start == Last(p.instructions).interval.end
  }

  function Last<T>(s: seq<T>): T
    requires |s| > 0
  {
    s[|s| - 1]
  }

  function Min(a: real, b: real): (m: real)
    ensures m <= a && m <= b && (m == a || m == b)
  {
    if a <= b then a else b
  }

  function Max(a: real, b: real): (m: real)
    ensures m >= a && m >= b && (m == a || m == b)
  {
    if a >= b then a else b
  }

  function Abs(a: real): (r: real)
    ensures r >= 0.0 && (r == a || r == -a)
  {
    if a < 0.0 then -a else a
  }

  /** `Math.round`: the nearest integer, halves rounded up. */
  function Round(x: real): (r: int)
    ensures x - 0.5 < r as real <= x + 0.5
  {
    (x + 0.5).Floor
  }

  /** Rounding never reverses the order of two numbers. */
  lemma RoundMonotone(x: real, y: real)
    requires x <= y
    ensures Round(x) <= Round(y)
  {
  }

  /** Adding a whole number commutes with rounding. */
  lemma RoundShift(x: real, n: int)
    ensures Round(x + n as real) == Round(x) + n
  {
  }
}
