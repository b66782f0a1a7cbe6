/** Map-viewport arithmetic shared by the route and search-result screens. */
module Viewport {
  import opened RouteTypes

  /** A viewport: centre and zoom level. */
  datatype View = View(center: Coordinate, zoom: int)

  /** The `[[west, south], [east, north]]` box handed to `fitBounds`. */
  datatype Bounds = Bounds(southWest: Coordinate, northEast: Coordinate)

  predicate Inside(p: Coordinate, b: Bounds) {
    b.southWest.lng <= p.lng <= b.northEast.lng && b.southWest.lat <= p.lat <= b.northEast.lat
  }

  /**
   * The zoom level for a span of `maxDiff` degrees: 16 below 0.01, 14 below
   * 0.05, 12 below 0.1, 10 below 0.5, otherwise 8.
   */
  function ZoomForSpan(maxDiff: real): (zoom: int)
    ensures zoom == 16 || zoom == 14 || zoom == 12 || zoom == 10 || zoom == 8
    ensures zoom == 16 <==> maxDiff < 0.01
    ensures zoom == 14 <==> 0.01 <= maxDiff < 0.05
    ensures zoom == 12 <==> 0.05 <= maxDiff < 0.1
    ensures zoom == 10 <==> 0.1 <= maxDiff < 0.5
    ensures zoom == 8 <==> maxDiff >= 0.5
  {
    if maxDiff < 0.01 then 16
    else if maxDiff < 0.05 then 14
    else if maxDiff < 0.1 then 12
    else if maxDiff < 0.5 then 10
    else 8
  }

  /** A wider span never zooms in further. */
  lemma ZoomNonIncreasing(a: real, b: real)
    requires a <= b
    ensures ZoomForSpan(b) <= ZoomForSpan(a)
  {
  }
}
