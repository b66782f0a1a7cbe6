/**
 * The navigation screen's playback engine: a fixed-interval clock walks the
 * route's coordinates one per tick, interpolating progress and remaining
 * time and distance by coordinate index, advancing the current instruction
 * by a guarded rule and measuring the distance to the next maneuver along
 * the polyline. The haversine distance is a parameter.
 */
module Navigation {
  import opened Wrappers
  import opened RouteTypes
  import opened InstructionIcon

  /** What the model needs of the great-circle distance: it is never negative and zero between a point and itself. */
  ghost predicate IsDistance(dist: (Coordinate, Coordinate) -> real) {
    (forall p, q :: dist(p, q) >= 0.0) && (forall p :: dist(p, p) == 0.0)
  }

  /** `Math.min` on indices. */
  function MinInt(a: int, b: int): int {
    if a <= b then a else b
  }

  /** The length of the polyline from vertex `from` to vertex `to`, summed segment by segment. */
  function PolylineLength(coords: seq<Coordinate>, from: nat, to: int, dist: (Coordinate, Coordinate) -> real): real
    requires to < |coords|
    decreases if to <= from then 0 else to - from
  {
    if to <= from then 0.0 else PolylineLength(coords, from, to - 1, dist) + dist(coords[to - 1], coords[to])
  }

  lemma {:induction false} PolylineLengthNonNegative(coords: seq<Coordinate>, from: nat, to: int,
                                                    dist: (Coordinate, Coordinate) -> real)
    requires to < |coords|
    requires forall p, q :: dist(p, q) >= 0.0
    ensures PolylineLength(coords, from, to, dist) >= 0.0
    decreases if to <= from then 0 else to - from
  {
    if from < to {
      PolylineLengthNonNegative(coords, from, to - 1, dist);
    }
  }

  /** The polyline from `from` is its first segment followed by the polyline from `from + 1`. */
  lemma {:induction false} PolylineLengthFirst(coords: seq<Coordinate>, from: nat, to: int,
                                              dist: (Coordinate, Coordinate) -> real)
    requires from < to < |coords|
    ensures PolylineLength(coords, from, to, dist)
            == dist(coords[from], coords[from + 1]) + PolylineLength(coords, from + 1, to, dist)
    decreases if to <= from then 0 else to - from
  {
    if from + 1 < to {
      PolylineLengthFirst(coords, from, to - 1, dist);
    }
  }

  /** Starting further along never makes the remaining polyline longer. */
  lemma {:induction false} PolylineLengthShrinks(coords: seq<Coordinate>, from: nat, later: nat, to: int,
                                                dist: (Coordinate, Coordinate) -> real)
    requires from <= later
    requires to < |coords|
    requires forall p, q :: dist(p, q) >= 0.0
    ensures PolylineLength(coords, later, to, dist) <= PolylineLength(coords, from, to, dist)
    decreases later - from
  {
    if from < later {
      PolylineLengthShrinks(coords, from + 1, later, to, dist);
      if from < to {
        PolylineLengthFirst(coords, from, to, dist);
      }
    }
  }

  /** The last vertex the distance to the next maneuver walks to: the instruction's interval end, clipped to the polyline. */
  function SegmentEnd(path: RoutePath, instructionIndex: nat): (end: int)
    requires instructionIndex < |path.instructions|
    ensures end < |path.coordinates|
  {
    MinInt(path.instructions[instructionIndex].interval.end, |path.coordinates| - 1)
  }

  /**
   * `calculateDistanceToNextInstruction`, as a specification: nothing without
   * a path or from the last instruction on; otherwise the distance from the
   * position to vertex `coordinateIndex` (when it exists) plus the polyline
   * from there to the current instruction's end.
   */
  function DistanceToNext(path: Option<RoutePath>, position: Coordinate, coordinateIndex: nat, instructionIndex: nat,
                          dist: (Coordinate, Coordinate) -> real): real
  {
    if path.None? || instructionIndex >= |path.value.instructions| - 1 then 0.0
    else
      var coords := path.value.coordinates;
      (if coordinateIndex < |coords| then dist(position, coords[coordinateIndex]) else 0.0)
      + PolylineLength(coords, coordinateIndex, SegmentEnd(path.value, instructionIndex), dist)
  }

  /** `calculateDistanceToNextInstruction`: accumulates the segment lengths in a loop. */
  method DistanceToNextInstruction(path: Option<RoutePath>, position: Coordinate, coordinateIndex: nat,
                                   instructionIndex: nat, dist: (Coordinate, Coordinate) -> real)
    returns (totalDistance: real)
    ensures totalDistance == DistanceToNext(path, position, coordinateIndex, instructionIndex, dist)
  {
    if path.None? {
      return 0.0;
    }
    var coordinates := path.value.coordinates;
    var instructions := path.value.instructions;
    if instructionIndex >= |instructions| - 1 {
      return 0.0;
    }
    var nextInstructionCoordIndex := instructions[instructionIndex].interval.end;
    totalDistance := 0.0;
    if coordinateIndex < |coordinates| {
      totalDistance := totalDistance + dist(position, coordinates[coordinateIndex]);
    }
    ghost var head := totalDistance;
    var i := coordinateIndex;
    while i < MinInt(nextInstructionCoordIndex, |coordinates| - 1)
      invariant i == coordinateIndex || coordinateIndex < i <= MinInt(nextInstructionCoordIndex, |coordinates| - 1)
      invariant i == coordinateIndex ==> totalDistance == head
      invariant i > coordinateIndex ==> totalDistance == head + PolylineLength(coordinates, coordinateIndex, i, dist)
    {
      totalDistance := totalDistance + dist(coordinates[i], coordinates[i + 1]);
      i := i + 1;
    }
  }

  /** At a vertex of the route the first term vanishes: what is left is the polyline to the instruction's end. */
  lemma DistanceToNextAtVertex(path: RoutePath, coordinateIndex: nat, instructionIndex: nat,
                               dist: (Coordinate, Coordinate) -> real)
    requires IsDistance(dist)
    requires coordinateIndex < |path.coordinates| && instructionIndex < |path.instructions| - 1
    ensures DistanceToNext(Some(path), path.coordinates[coordinateIndex], coordinateIndex, instructionIndex, dist)
            == PolylineLength(path.coordinates, coordinateIndex, SegmentEnd(path, instructionIndex), dist)
  {
  }

  /**
   * Walking the route toward the current instruction's end, the distance to
   * the next maneuver never grows, is never negative, and is zero once the
   * instruction's end is reached.
   */
  lemma DistanceToNextShrinks(path: RoutePath, i: nat, j: nat, instructionIndex: nat,
                              dist: (Coordinate, Coordinate) -> real)
    requires IsDistance(dist)
    requires i <= j < |path.coordinates|
    ensures var di := DistanceToNext(Some(path), path.coordinates[i], i, instructionIndex, dist);
            var dj := DistanceToNext(Some(path), path.coordinates[j], j, instructionIndex, dist);
            && 0.0 <= dj <= di
            && (instructionIndex < |path.instructions| - 1 && j >= SegmentEnd(path, instructionIndex) ==> dj == 0.0)
  {
    if instructionIndex < |path.instructions| - 1 {
      var end := SegmentEnd(path, instructionIndex);
      PolylineLengthShrinks(path.coordinates, i, j, end, dist);
      PolylineLengthNonNegative(path.coordinates, j, end, dist);
    }
  }

  /** Progress after the tick that shows vertex `i` of `n`: the fraction of vertices already behind. */
  function ProgressAt(i: nat, n: nat): real
    requires n > 0
  {
    (i as real / n as real) * 100.0
  }

  /** Share of the `n` vertices still ahead of vertex `i`. */
  function ShareAhead(i: nat, n: nat): real
    requires n > 0
  {
    (n - i) as real / n as real
  }

  /** Remaining time or distance at vertex `i` of `n`: the total scaled by the share of vertices still ahead, rounded. */
  function RemainingAt(total: real, i: nat, n: nat): int
    requires n > 0
  {
    Round(total * ShareAhead(i, n))
  }

  /** Progress starts at 0, stays below 100 on running ticks and grows strictly from tick to tick. */
  lemma ProgressIncreases(i: nat, j: nat, n: nat)
    requires i < j < n
    ensures ProgressAt(0, n) == 0.0
    ensures 0.0 <= ProgressAt(i, n) < ProgressAt(j, n) < 100.0
  {
    var r := n as real;
    assert i as real / r < j as real / r;
    assert j as real / r < 1.0 by {
      assert j as real < r;
    }
  }

  /** Remaining time and distance start at the rounded totals. */
  lemma RemainingStartsAtTotal(total: real, n: nat)
    requires n > 0
    ensures RemainingAt(total, 0, n) == Round(total)
  {
    assert (n - 0) as real / n as real == 1.0;
  }

  /**
   * Remaining time and distance never grow from tick to tick and stay
   * non-negative, for a non-negative total.
   */
  lemma RemainingDecreases(total: real, i: nat, j: nat, n: nat)
    requires total >= 0.0 && i <= j <= n && n > 0
    ensures 0 <= RemainingAt(total, j, n) <= RemainingAt(total, i, n)
  {
    ShareAheadMonotone(i, j, n);
    RoundScaledMonotone(total, ShareAhead(j, n), ShareAhead(i, n));
  }

  /** Rounding a non-negative total scaled by two shares keeps their order. */
  lemma RoundScaledMonotone(total: real, a: real, b: real)
    requires total >= 0.0 && 0.0 <= a <= b
    ensures 0 <= Round(total * a) <= Round(total * b)
  {
    ScaleMonotone(total, 0.0, a);
    ScaleMonotone(total, a, b);
    RoundMonotone(total * a, total * b);
    RoundMonotone(0.0, total * a);
  }

  lemma ShareAheadMonotone(i: nat, j: nat, n: nat)
    requires i <= j <= n && n > 0
    ensures 0.0 <= ShareAhead(j, n) <= ShareAhead(i, n)
  {
    DivMonotone(0.0, (n - j) as real, n as real);
    DivMonotone((n - j) as real, (n - i) as real, n as real);
  }

  lemma DivMonotone(a: real, b: real, r: real)
    requires r > 0.0 && a <= b
    ensures a / r <= b / r
  {
    var qa, qb := a / r, b / r;
    assert (qb - qa) * r == b - a;
  }

  lemma ScaleMonotone(k: real, a: real, b: real)
    requires k >= 0.0 && a <= b
    ensures k * a <= k * b
  {
    assert k * b - k * a == k * (b - a);
  }

  /**
   * The navigation screen's state: the loaded route, the values it renders,
   * and the running interval with the two counters its callback closes over.
   */
  class Navigator {
    /** The haversine distance in metres. */
    const dist: (Coordinate, Coordinate) -> real

    var route: Option<RouteResponse>
    var isNavigating: bool
    var isComplete: bool
    var currentInstructionIndex: nat
    var currentCoordinateIndex: nat
    var simulatedPosition: Option<Coordinate>
    var progress: real
    var remainingTime: real
    var remainingDistance: real
    var distanceToNextInstruction: real

    /** Whether the simulation interval is live. */
    var ticking: bool
    /** The interval callback's own coordinate counter. */
    var coordinateIndex: nat
    /** The interval callback's own instruction counter. */
    var instructionIndex: nat

    /** The path being played back. */
    function Path(): Option<RoutePath>
      reads this
    {
      FirstPath(route)
    }

    /**
     * A live interval belongs to a navigation in progress over a path; its
     * coordinate counter never passes the end of the polyline and its
     * instruction counter never passes the last instruction.
     */
    ghost predicate Valid()
      reads this
    {
      IsDistance(dist)
      && (ticking ==>
            isNavigating && Path().Some?
            && coordinateIndex <= |Path().value.coordinates|
            && (instructionIndex == 0 || instructionIndex <= |Path().value.instructions| - 1))
    }

    /** The screen before any route has loaded. */
    constructor (dist: (Coordinate, Coordinate) -> real)
      requires IsDistance(dist)
      ensures Valid() && this.dist == dist
      ensures route.None? && !isNavigating && !isComplete && !ticking
      ensures currentInstructionIndex == 0 && currentCoordinateIndex == 0 && simulatedPosition.None?
      ensures progress == 0.0 && remainingTime == 0.0 && remainingDistance == 0.0 && distanceToNextInstruction == 0.0
    {
      this.dist := dist;
      route := None;
      isNavigating, isComplete := false, false;
      currentInstructionIndex, currentCoordinateIndex := 0, 0;
      simulatedPosition := None;
      progress, remainingTime, remainingDistance, distanceToNextInstruction := 0.0, 0.0, 0.0, 0.0;
      ticking, coordinateIndex, instructionIndex := false, 0, 0;
    }

    /**
     * The route-fetch effect's outcome: a fetched route is stored, the
     * position moves to its first coordinate, the remaining totals are reset;
     * a running simulation restarts on the new route. A failed fetch changes
     * nothing. The screen always asks for the route with rain avoidance on;
     * `fetched` is that request's outcome.
     */
    method LoadRoute(fetched: Result<RouteResponse, string>)
      requires Valid()
      modifies this
      ensures Valid()
      ensures fetched.Failure? ==> unchanged(this)
      ensures fetched.Success? ==>
                && route == Some(fetched.value)
                && (Path().Some? && |Path().value.coordinates| > 0 ==> simulatedPosition == Some(Path().value.coordinates[0]))
                && (!(Path().Some? && |Path().value.coordinates| > 0) ==> simulatedPosition == old(simulatedPosition))
                && remainingTime == (if Path().Some? then Path().value.time else 0.0)
                && remainingDistance == (if Path().Some? then Path().value.distance else 0.0)
                && ticking == (isNavigating && Path().Some?)
                && (ticking ==> coordinateIndex == 0 && instructionIndex == 0)
                && isNavigating == old(isNavigating) && isComplete == old(isComplete)
                && progress == old(progress) && currentInstructionIndex == old(currentInstructionIndex)
                && currentCoordinateIndex == old(currentCoordinateIndex)
                && distanceToNextInstruction == old(distanceToNextInstruction)
    {
      if fetched.Failure? {
        return;
      }
      route := Some(fetched.value);
      var path := FirstPath(route);
      if path.Some? && |path.value.coordinates| > 0 {
        simulatedPosition := Some(path.value.coordinates[0]);
      }
      remainingTime := if path.Some? then path.value.time else 0.0;
      remainingDistance := if path.Some? then path.value.distance else 0.0;
      // The simulation effect depends on the route: its interval is replaced.
      ticking := isNavigating && path.Some?;
      if ticking {
        coordinateIndex, instructionIndex := 0, 0;
      }
    }

    /**
     * `handleStartNavigation` and the simulation effect it triggers: the
     * displayed instruction, progress and completion are reset and, when a
     * path is loaded, a fresh interval starts with both counters at 0.
     */
    method Start()
      requires Valid() && !isNavigating
      modifies this
      ensures Valid()
      ensures isNavigating && !isComplete && currentInstructionIndex == 0 && progress == 0.0
      ensures ticking <==> Path().Some?
      ensures ticking ==> coordinateIndex == 0 && instructionIndex == 0
      ensures route == old(route) && simulatedPosition == old(simulatedPosition)
      ensures currentCoordinateIndex == old(currentCoordinateIndex)
      ensures remainingTime == old(remainingTime) && remainingDistance == old(remainingDistance)
      ensures distanceToNextInstruction == old(distanceToNextInstruction)
    {
      isNavigating := true;
      currentInstructionIndex := 0;
      progress := 0.0;
      isComplete := false;
      ticking := Path().Some?;
      coordinateIndex, instructionIndex := 0, 0;
    }

    /** `handleStopNavigation`: the interval is cleared and its counters are discarded; nothing else changes. */
    method Stop()
      requires Valid()
      modifies this`isNavigating, this`ticking
      ensures Valid()
      ensures !isNavigating && !ticking
    {
      isNavigating := false;
      ticking := false;
    }

    /**
     * One firing of the interval. While vertices remain, the position moves
     * to the current vertex, progress and the remaining totals are
     * interpolated by index, the distance to the next maneuver is measured,
     * the instruction counter advances when the vertex has reached the
     * current instruction's end (never past the last instruction), and the
     * coordinate counter moves on. Past the last vertex the run completes:
     * progress 100, nothing remaining, and the interval is cleared while the
     * screen stays in navigation mode.
     */
    method Tick()
      requires Valid() && ticking
      modifies this
      ensures Valid()
      ensures route == old(route) && isNavigating
      ensures var p := FirstPath(route).value; var n := |p.coordinates|; var ci := old(coordinateIndex); var ii := old(instructionIndex);
              ci < n ==>
                && ticking && coordinateIndex == ci + 1
                && simulatedPosition == Some(p.coordinates[ci]) && currentCoordinateIndex == ci
                && progress == ProgressAt(ci, n)
                && remainingTime == RemainingAt(p.time, ci, n) as real
                && remainingDistance == RemainingAt(p.distance, ci, n) as real
                && distanceToNextInstruction == DistanceToNext(FirstPath(route), p.coordinates[ci], ci, ii, dist)
                && instructionIndex == (if ii < |p.instructions| - 1 && ci >= p.instructions[ii].interval.end then ii + 1 else ii)
                && currentInstructionIndex == (if instructionIndex != ii then instructionIndex else old(currentInstructionIndex))
                && isComplete == old(isComplete)
    ensures var n := |FirstPath(route).value.coordinates|;
              old(coordinateIndex) >= n ==>
                && !ticking && isComplete
                && progress == 100.0 && remainingTime == 0.0 && remainingDistance == 0.0
                && distanceToNextInstruction == 0.0
                && coordinateIndex == old(coordinateIndex) && instructionIndex == old(instructionIndex)
                && simulatedPosition == old(simulatedPosition)
                && currentInstructionIndex == old(currentInstructionIndex)
                && currentCoordinateIndex == old(currentCoordinateIndex)
    {
      var path := FirstPath(route).value;
      var coordinates := path.coordinates;
      var instructions := path.instructions;
      if coordinateIndex < |coordinates| {
        var currentCoord := coordinates[coordinateIndex];
        simulatedPosition := Some(currentCoord);
        currentCoordinateIndex := coordinateIndex;
        progress := ProgressAt(coordinateIndex, |coordinates|);
        remainingTime := RemainingAt(path.time, coordinateIndex, |coordinates|) as real;
        remainingDistance := RemainingAt(path.distance, coordinateIndex, |coordinates|) as real;
        var distanceToNext := DistanceToNextInstruction(FirstPath(route), currentCoord, coordinateIndex, instructionIndex, dist);
        distanceToNextInstruction := distanceToNext;
        if instructionIndex < |instructions| - 1 {
          var intervalEnd := instructions[instructionIndex].interval.end;
          if coordinateIndex >= intervalEnd {
            instructionIndex := instructionIndex + 1;
            currentInstructionIndex := instructionIndex;
          }
        }
        coordinateIndex := coordinateIndex + 1;
      } else {
        isComplete := true;
        progress := 100.0;
        remainingTime := 0.0;
        remainingDistance := 0.0;
        distanceToNextInstruction := 0.0;
        ticking := false;
      }
    }
  }

  /**
   * A whole playback: after Start, the first N ticks of a route with N
   * coordinates are running ticks with progress below 100, and tick N + 1
   * completes the run.
   */
  method Playback(nav: Navigator) returns (ticks: nat)
    requires nav.Valid() && !nav.isNavigating && nav.Path().Some?
    modifies nav
    ensures nav.Valid() && nav.route == old(nav.route)
    ensures ticks == |nav.Path().value.coordinates| + 1
    ensures nav.isNavigating && nav.isComplete && !nav.ticking
    ensures nav.progress == 100.0 && nav.remainingTime == 0.0 && nav.remainingDistance == 0.0
    ensures nav.distanceToNextInstruction == 0.0
  {
    nav.Start();
    var n := |nav.Path().value.coordinates|;
    ticks := 0;
    while nav.ticking
      invariant nav.Valid() && nav.route == old(nav.route) && nav.isNavigating
      invariant nav.ticking ==> nav.coordinateIndex == ticks <= n && !nav.isComplete
      invariant nav.ticking && ticks > 0 ==> nav.progress == ProgressAt(ticks - 1, n) < 100.0
      invariant !nav.ticking ==> ticks == n + 1 && nav.isComplete && nav.progress == 100.0
      invariant !nav.ticking ==> nav.remainingTime == 0.0 && nav.remainingDistance == 0.0
      invariant !nav.ticking ==> nav.distanceToNextInstruction == 0.0
      decreases n + 1 - ticks, nav.ticking
    {
      if ticks < n {
        ProgressIncreases(ticks, ticks + 1, n + 1);
        assert ProgressAt(ticks, n) < 100.0 by {
          var r := n as real;
          assert ticks as real < r;
          assert ticks as real / r < 1.0;
        }
      }
      nav.Tick();
      ticks := ticks + 1;
    }
  }

  /**
   * `getInstructionIcon` of the navigation screen: every icon has a colour;
   * sharp and normal left turns are primary here, and otherwise it agrees
   * with the shared instruction icon.
   */
  function NavigationIcon(sign: int): (icon: Icon)
    ensures icon.color.Some?
    ensures icon.glyph == TurnLeft <==> IsLeftSign(sign)
    ensures icon.glyph == TurnRight <==> IsRightSign(sign)
    ensures icon.glyph == Flag <==> sign == ArriveSign
    ensures icon.color == Some(Primary) <==> sign != -1 && sign != 1 && sign != 7 && sign != -7 && sign != 4
  {
    match sign
    case -3 => Icon(TurnLeft, Some(Primary))
    case -2 => Icon(TurnLeft, Some(Primary))
    case -1 => Icon(TurnLeft, Some(Disabled))
    case 0 => Icon(Straight, Some(Primary))
    case 1 => Icon(TurnRight, Some(Disabled))
    case 2 => Icon(TurnRight, Some(Primary))
    case 3 => Icon(TurnRight, Some(Primary))
    case 7 => Icon(TurnRight, Some(Action))
    case -7 => Icon(TurnLeft, Some(Action))
    case 4 => Icon(Flag, Some(IconColor.Success))
    case _ => Icon(Straight, Some(Primary))
  }

  /** The two icon tables agree, except that the navigation screen colours the plain left turns primary. */
  lemma NavigationIconAgreesWithInstructionIcon(sign: int)
    ensures NavigationIcon(sign) == Icon(BuiltInIcon(sign).glyph, Some(BuiltInIcon(sign).color.GetOr(Primary)))
  {
  }
}
