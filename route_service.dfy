/**
 * RouteService: one fetch of a route from the routing backend, with a
 * fallback chain (bundled sample route, then a synthesised minimal route)
 * for every failure except the backend's definitive "no route" (HTTP 400).
 * The network is not modelled: the outcomes of the two fetches are inputs.
 */
module RouteService {
  import opened Wrappers
  import opened Text
  import opened RouteTypes

  /** Base address of the routing backend. */
  const RoutingApiUrl: string := "http://127.0.0.1:5000"

  /** The two `{lat},{lng}` path segments of a routing request, latitude first. */
  datatype LatLngSegment = LatLngSegment(lat: real, lng: real)

  /** `{base}/{endpoint}/{startLat},{startLng}/{endLat},{endLng}`. */
  datatype RouteRequest = RouteRequest(base: string, endpoint: string, from: LatLngSegment, to: LatLngSegment)

  /** The endpoint name selected by the rain-avoidance flag. */
  function Endpoint(rainAvoidance: bool): (e: string)
    ensures e == "route" <==> rainAvoidance
    ensures e == "normal_route" <==> !rainAvoidance
  {
    if rainAvoidance then "route" else "normal_route"
  }

  /** The single request `getRoute` sends. */
  function RequestFor(startLng: real, startLat: real, endLng: real, endLat: real, rainAvoidance: bool): (r: RouteRequest)
    ensures r.base == RoutingApiUrl
    ensures r.endpoint == Endpoint(rainAvoidance)
    ensures r.from == LatLngSegment(startLat, startLng) && r.to == LatLngSegment(endLat, endLng)
  {
    RouteRequest(RoutingApiUrl, Endpoint(rainAvoidance), LatLngSegment(startLat, startLng), LatLngSegment(endLat, endLng))
  }

  /** Different rain-avoidance settings address different endpoints. */
  lemma EndpointDistinguishesSetting(a: bool, b: bool)
    ensures Endpoint(a) == Endpoint(b) <==> a == b
  {
  }

  /** What `response.json()` yields: a parsed document, or the message of the SyntaxError it throws. */
  datatype Body = Parsed(value: RouteResponse) | Malformed(message: string)

  /** What `fetch` yields: a response with a status and a body, or the message of the error it rejects with. */
  datatype FetchOutcome = Responded(status: nat, body: Body) | Rejected(message: string)

  /** `response.ok`: a 2xx status. */
  predicate IsOk(status: nat) {
    200 <= status <= 299
  }

  /** The text whose presence in an error message marks the backend's "no route" answer. */
  const UnreachableMarker: string := "status: 400"

  const StatusPrefix: string := "HTTP error! status: "

  /** The message thrown for a 400 response. */
  const UnreachableMessage: string := StatusPrefix + "400 - Route calculation failed"

  /** The message thrown for any other non-2xx response. */
  function StatusMessage(status: nat): string {
    StatusPrefix + NatToString(status)
  }

  /** Whether an error message classifies as the backend's "no route" answer. */
  predicate IsUnreachableError(message: string) {
    Contains(message, UnreachableMarker)
  }

  /** The try block of `getRoute`: the parsed route, or the message of the Error thrown inside it. */
  function PrimaryAttempt(outcome: FetchOutcome): (r: Result<RouteResponse, string>)
    ensures outcome.Responded? && IsOk(outcome.status) && outcome.body.Parsed? ==> r == Success(outcome.body.value)
    ensures outcome.Responded? && outcome.status == 400 ==> r == Failure(UnreachableMessage)
    ensures outcome.Responded? && !IsOk(outcome.status) && outcome.status != 400 ==> r == Failure(StatusMessage(outcome.status))
    ensures outcome.Responded? && IsOk(outcome.status) && outcome.body.Malformed? ==> r == Failure(outcome.body.message)
    ensures outcome.Rejected? ==> r == Failure(outcome.message)
  {
    match outcome
    case Rejected(m) => Failure(m)
    case Responded(status, body) =>
      if !IsOk(status) then
        Failure(if status == 400 then UnreachableMessage else StatusMessage(status))
      else
        match body
        case Parsed(v) => Success(v)
        case Malformed(m) => Failure(m)
  }

  /**
   * `getSampleRouteData`: the bundled sample, verbatim, when it loads and
   * parses; otherwise the minimal route.
   */
  function SampleRouteData(startLng: real, startLat: real, endLng: real, endLat: real,
                           sample: FetchOutcome, distanceKm: (Coordinate, Coordinate) -> real): (r: RouteResponse)
    ensures sample.Responded? && IsOk(sample.status) && sample.body.Parsed? ==> r == sample.body.value
    ensures !(sample.Responded? && IsOk(sample.status) && sample.body.Parsed?) ==>
              r == MinimalRoute(startLng, startLat, endLng, endLat, distanceKm)
  {
    if sample.Responded? && IsOk(sample.status) && sample.body.Parsed? then sample.body.value
    else MinimalRoute(startLng, startLat, endLng, endLat, distanceKm)
  }

  /**
   * `getRoute`: one fetch of `RequestFor(...)` whose outcome is `primary`; an
   * error whose message mentions "status: 400" is rethrown, every other
   * failure falls back to the sample route whose fetch outcome is `sample`.
   * `distanceKm` is the great-circle distance in kilometres.
   */
  function GetRoute(startLng: real, startLat: real, endLng: real, endLat: real,
                    primary: FetchOutcome, sample: FetchOutcome,
                    distanceKm: (Coordinate, Coordinate) -> real): (r: Result<RouteResponse, string>)
    ensures PrimaryAttempt(primary).Success? ==> r == PrimaryAttempt(primary)
    ensures r.Failure? <==> PrimaryAttempt(primary).Failure? && IsUnreachableError(PrimaryAttempt(primary).error)
    ensures r.Failure? ==> r == PrimaryAttempt(primary) && IsUnreachableError(r.error)
    ensures PrimaryAttempt(primary).Failure? && !IsUnreachableError(PrimaryAttempt(primary).error) ==>
              r == Success(SampleRouteData(startLng, startLat, endLng, endLat, sample, distanceKm))
  {
    match PrimaryAttempt(primary)
    case Success(route) => Success(route)
    case Failure(message) =>
      if IsUnreachableError(message) then Failure(message)
      else Success(SampleRouteData(startLng, startLat, endLng, endLat, sample, distanceKm))
  }

  /** Within the fixed prefix, an "s" followed by a "t" starts only at index 12. */
  lemma PrefixMarkerPosition(i: int)
    requires 0 <= i < 19
    requires StatusPrefix[i] == 's' && StatusPrefix[i + 1] == 't'
    ensures i == 12
  {
    var head, tail := "HTTP error! ", "status: ";
    assert StatusPrefix == head + tail;
    assert 's' !in head;
    assert 's' !in tail[1..5];
    assert tail[5..] == "s: ";
  }

  /**
   * The message of a status error mentions "status: 400" exactly when the
   * decimal status starts with "400": the marker can only sit right after the
   * fixed prefix.
   */
  lemma StatusMessageMentionsMarker(status: nat)
    ensures IsUnreachableError(StatusMessage(status)) <==>
              |NatToString(status)| >= 3 && NatToString(status)[..3] == "400"
  {
    var digits := NatToString(status);
    if |digits| >= 3 && digits[..3] == "400" {
      MarkerAfterPrefix(digits);
    }
    if IsUnreachableError(StatusMessage(status)) {
      var i :| 0 <= i <= |StatusMessage(status)| - 11 && OccursAt(StatusMessage(status), UnreachableMarker, i);
      MarkerOnlyAfterPrefix(digits, i);
    }
  }

  /** Digits starting with "400" put the marker right after the prefix. */
  lemma MarkerAfterPrefix(digits: string)
    requires |digits| >= 3 && digits[..3] == "400"
    ensures OccursAt(StatusPrefix + digits, UnreachableMarker, 12)
  {
    var s := StatusPrefix + digits;
    assert s[12..23] == StatusPrefix[12..] + digits[..3];
  }

  /** In the prefix followed by digits, the marker can only start at index 12, and then the digits start with "400". */
  lemma MarkerOnlyAfterPrefix(digits: string, i: int)
    requires forall k :: 0 <= k < |digits| ==> IsDigit(digits[k])
    requires OccursAt(StatusPrefix + digits, UnreachableMarker, i)
    ensures i == 12 && |digits| >= 3 && digits[..3] == "400"
  {
    var s := StatusPrefix + digits;
    assert s[i] == 's' && s[i + 1] == 't' by {
      assert s[i..i + 11][0] == s[i] && s[i..i + 11][1] == s[i + 1];
    }
    assert i < 19 by {
      assert forall k :: 20 <= k < |s| ==> s[k] == digits[k - 20];
    }
    assert StatusPrefix[i] == 's' && StatusPrefix[i + 1] == 't' by {
      assert s[i] == StatusPrefix[i] && s[i + 1] == StatusPrefix[i + 1];
    }
    PrefixMarkerPosition(i);
    assert forall k :: 0 <= k < 3 ==> digits[k] == s[20 + k] == s[12..23][8 + k];
  }

  /** The message thrown for a 400 response is classified as "no route". */
  lemma UnreachableMessageIsClassified()
    ensures IsUnreachableError(UnreachableMessage)
  {
    var rest := "400 - Route calculation failed";
    assert UnreachableMessage == StatusPrefix + rest;
    assert StatusPrefix[12..] == "status: " && rest[..3] == "400";
    assert UnreachableMessage[12..23] == StatusPrefix[12..] + rest[..3];
    assert UnreachableMessage[12..23] == UnreachableMarker;
    assert OccursAt(UnreachableMessage, UnreachableMarker, 12);
  }

  /**
   * For every three-digit (or shorter) HTTP status, `getRoute` fails exactly
   * when the backend answers 400; every other status either succeeds or falls
   * back.
   */
  lemma {:induction false} GetRouteFailsOnlyOn400(startLng: real, startLat: real, endLng: real, endLat: real,
                                                  status: nat, body: Body, sample: FetchOutcome,
                                                  distanceKm: (Coordinate, Coordinate) -> real)
    requires status < 1000
    requires body.Malformed? ==> !IsUnreachableError(body.message)
    ensures var r := GetRoute(startLng, startLat, endLng, endLat, Responded(status, body), sample, distanceKm);
            (r.Failure? <==> status == 400) && (status == 400 ==> r == Failure(UnreachableMessage))
  {
    if status == 400 {
      UnreachableMessageIsClassified();
    } else if !IsOk(status) {
      StatusMessageMentionsMarker(status);
      OnlyStatus400StartsWith400(status);
    }
  }

  /** Below 1000, the only status whose decimal rendering starts with "400" is 400 itself. */
  lemma OnlyStatus400StartsWith400(status: nat)
    ensures status < 1000 && |NatToString(status)| >= 3 && NatToString(status)[..3] == "400" ==> status == 400
  {
    if status < 1000 && |NatToString(status)| >= 3 && NatToString(status)[..3] == "400" {
      assert NatToString(400) == "400";
      assert |NatToString(status)| == 3 by {
        assert |NatToString(status / 10)| == 2 by {
          assert |NatToString(status / 10 / 10)| == 1;
        }
      }
      NatToStringInjective(status, 400);
    }
  }

  /** Minimum speed assumed by the minimal route, in metres per second (about 30 km/h). */
  const SpeedMetresPerSecond: real := 8.33

  /**
   * `getMinimalRoute`: a three-point route (start, midpoint, end) with two
   * travel instructions sharing the distance and time 80/20, then an arrival.
   * `distanceKm` is the great-circle distance in kilometres.
   */
  function MinimalRoute(startLng: real, startLat: real, endLng: real, endLat: real,
                        distanceKm: (Coordinate, Coordinate) -> real): (r: RouteResponse)
    ensures |r.paths| == 1 && r.rainTileList.None?
  {
    var start := Coordinate(startLng, startLat);
    var end := Coordinate(endLng, endLat);
    var distance := distanceKm(start, end) * 1000.0;
    var time := Round(distance / SpeedMetresPerSecond * 1000.0) as real;
    RouteResponse(
      [RoutePath(
        distance,
        time,
        BBox(Min(startLng, endLng), Min(startLat, endLat), Max(startLng, endLng), Max(startLat, endLat)),
        [start, Coordinate((startLng + endLng) / 2.0, (startLat + endLat) / 2.0), end],
        [ RouteInstruction(distance * 0.8, 0, Interval(0, 1), "目的地方面へ進む", Round(time * 0.8) as real, "メイン通り"),
          RouteInstruction(distance * 0.2, 2, Interval(1, 2), "右折して目的地へ", Round(time * 0.2) as real, "目的地通り"),
          RouteInstruction(0.0, ArriveSign, Interval(2, 2), "目的地に到着", 0.0, "")],
        [start, end])],
      None)
  }

  /**
   * The shape of the minimal route: the polyline is start, midpoint, end; the
   * box spans both endpoints; the instructions are [0,1] sign 0, [1,2] sign 2
   * and the arrival [2,2] sign 4 with no distance and no time; the path is
   * well formed.
   */
  lemma MinimalRouteShape(startLng: real, startLat: real, endLng: real, endLat: real,
                          distanceKm: (Coordinate, Coordinate) -> real)
    ensures var p := MinimalRoute(startLng, startLat, endLng, endLat, distanceKm).paths[0];
            && p.coordinates == [Coordinate(startLng, startLat),
                                 Coordinate((startLng + endLng) / 2.0, (startLat + endLat) / 2.0),
                                 Coordinate(endLng, endLat)]
            && p.bbox.minLng <= startLng <= p.bbox.maxLng && p.bbox.minLng <= endLng <= p.bbox.maxLng
            && p.bbox.minLat <= startLat <= p.bbox.maxLat && p.bbox.minLat <= endLat <= p.bbox.maxLat
            && (p.bbox.minLng == startLng || p.bbox.minLng == endLng)
            && (p.bbox.maxLng == startLng || p.bbox.maxLng == endLng)
            && (p.bbox.minLat == startLat || p.bbox.minLat == endLat)
            && (p.bbox.maxLat == startLat || p.bbox.maxLat == endLat)
            && |p.instructions| == 3
            && p.instructions[0].interval == Interval(0, 1) && p.instructions[0].sign == 0
            && p.instructions[1].interval == Interval(1, 2) && p.instructions[1].sign == 2
            && p.instructions[2].interval == Interval(2, 2) && p.instructions[2].sign == ArriveSign
            && p.instructions[2].distance == 0.0 && p.instructions[2].time == 0.0
            && WellFormed(p)
  {
  }

  /**
   * The timing of the minimal route: the total time is the distance at
   * 8.33 m/s, in whole milliseconds; the travel instructions share distance
   * 80/20 and their whole-millisecond times add up to the total.
   */
  lemma MinimalRouteTiming(startLng: real, startLat: real, endLng: real, endLat: real,
                           distanceKm: (Coordinate, Coordinate) -> real)
    ensures var p := MinimalRoute(startLng, startLat, endLng, endLat, distanceKm).paths[0];
            && p.distance == distanceKm(Coordinate(startLng, startLat), Coordinate(endLng, endLat)) * 1000.0
            && p.time == Round(p.distance / SpeedMetresPerSecond * 1000.0) as real
            && p.instructions[0].distance + p.instructions[1].distance == p.distance
            && p.instructions[0].distance == 4.0 * p.instructions[1].distance
            && p.instructions[0].time == Round(p.time * 0.8) as real
            && p.instructions[1].time == Round(p.time * 0.2) as real
            && p.instructions[0].time + p.instructions[1].time == p.time
  {
    var p := MinimalRoute(startLng, startLat, endLng, endLat, distanceKm).paths[0];
    var t := Round(p.distance / SpeedMetresPerSecond * 1000.0);
    FourFifthsSplit(t);
  }

  /**
   * Rounding four fifths and one fifth of a whole number separately loses
   * nothing: neither part can end in exactly one half.
   */
  lemma FourFifthsSplit(t: int)
    ensures Round(t as real * 0.8) + Round(t as real * 0.2) == t
  {
    var a, b := t / 5, t % 5;
    assert t as real == 5.0 * a as real + b as real;
    assert t as real * 0.8 == 0.8 * b as real + (4 * a) as real;
    assert t as real * 0.2 == 0.2 * b as real + a as real;
    RoundShift(0.8 * b as real, 4 * a);
    RoundShift(0.2 * b as real, a);
    assert Round(0.8 * b as real) + Round(0.2 * b as real) == b by {
      if b == 0 {
      } else if b == 1 {
        assert Round(0.8) == 1 && Round(0.2) == 0;
      } else if b == 2 {
        assert Round(1.6) == 2 && Round(0.4) == 0;
      } else if b == 3 {
        assert Round(2.4) == 2 && Round(0.6) == 1;
      } else {
        assert Round(3.2) == 3 && Round(0.8) == 1;
      }
    }
  }

  /** How `formatTime` renders a duration: hours and minutes, minutes, or seconds. */
  datatype TimeLabel = HoursMinutes(hours: int, minutes: int) | MinutesOnly(minutes: int) | SecondsOnly(seconds: int)
  {
    function Text(): string {
      match this
      case HoursMinutes(h, m) => IntToString(h) + "時間" + IntToString(m) + "分"
      case MinutesOnly(m) => IntToString(m) + "分"
      case SecondsOnly(s) => IntToString(s) + "秒"
    }
  }

  /** JavaScript's `%`: the remainder takes the sign of the dividend. */
  function JsRem(a: int, b: int): (r: int)
    requires b > 0
    ensures a >= 0 ==> r == a % b
    ensures a < 0 ==> r == -((-a) % b)
  {
    if a >= 0 then a % b else -((-a) % b)
  }

  /**
   * The shown `formatTime` chooses for a duration in milliseconds: whole
   * seconds are split into hours, minutes and seconds; hours and minutes are
   * shown from one hour on, minutes alone from one minute on, seconds below.
   */
  function TimeLabelOf(milliseconds: real): (shown: TimeLabel)
    ensures milliseconds >= 0.0 ==>
              var total := (milliseconds / 1000.0).Floor;
              match shown
              case HoursMinutes(h, m) => h > 0 && 0 <= m < 60 && h * 3600 + m * 60 <= total < h * 3600 + m * 60 + 60
              case MinutesOnly(m) => total < 3600 && 0 < m < 60 && m * 60 <= total < m * 60 + 60
              case SecondsOnly(s) => total < 60 && s == total
    ensures milliseconds >= 0.0 ==>
              (shown.HoursMinutes? <==> milliseconds >= 3600000.0) &&
              (shown.SecondsOnly? <==> milliseconds < 60000.0)
  {
    var totalSeconds := (milliseconds / 1000.0).Floor;
    var hours := totalSeconds / 3600;
    var minutes := JsRem(totalSeconds, 3600) / 60;
    var seconds := JsRem(totalSeconds, 60);
    if hours > 0 then HoursMinutes(hours, minutes)
    else if minutes > 0 then MinutesOnly(minutes)
    else SecondsOnly(seconds)
  }

  /** `formatTime`: a duration in milliseconds as Japanese text. */
  function FormatTime(milliseconds: real): string {
    TimeLabelOf(milliseconds).Text()
  }

  /** How `formatDistance` renders a length: kilometres (printed to one decimal) or whole metres. */
  datatype DistanceLabel = Kilometres(km: real) | Metres(m: int)

  /**
   * `formatDistance`: kilometres from 1000 m on, otherwise the metres rounded
   * to the nearest whole number (so 999.5 m and above still show "1000m").
   */
  function FormatDistance(meters: real): (shown: DistanceLabel)
    ensures shown.Kilometres? <==> meters >= 1000.0
    ensures shown.Kilometres? ==> shown.km * 1000.0 == meters
    ensures shown.Metres? ==> meters - 0.5 < shown.m as real <= meters + 0.5 && shown.m <= 1000
  {
    if meters >= 1000.0 then Kilometres(meters / 1000.0) else Metres(Round(meters))
  }
}
