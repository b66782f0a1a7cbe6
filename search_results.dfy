/**
 * The search results screen: a place search whose raw answers are turned
 * into named results, a camera plan that frames all of them, and the
 * selection state shared by the map markers and the results drawer.
 */
module SearchResults {
  import opened Wrappers
  import opened Text
  import opened RouteTypes
  import opened Viewport

  /** One item of the geocoder's JSON answer, with the fields the screen reads. */
  datatype RawPlace = RawPlace(displayName: Option<string>, name: Option<string>, lat: string, lon: string,
                               osmClass: Option<string>)

  /** A formatted search result. */
  datatype SearchResult = SearchResult(name: string, address: string, lat: real, lon: real,
                                       displayName: Option<string>, category: string)

  const UnknownName: string := "名称不明"
  const DefaultCategory: string := "place"

  /** `s.split(',')[0]`: the text before the first comma, or all of it. */
  function FirstPiece(s: string): (piece: string)
    ensures |piece| <= |s| && piece == s[..|piece|]
    ensures ',' !in piece
    ensures |piece| < |s| ==> s[|piece|] == ','
  {
    if s == [] || s[0] == ',' then []
    else
      var rest := FirstPiece(s[1..]);
      assert s[..1 + |rest|] == [s[0]] + s[1..][..|rest|];
      [s[0]] + rest
  }

  /** `item.name` when present and non-empty. */
  function NonEmpty(o: Option<string>): (r: Option<string>)
    ensures r.Some? <==> o.Some? && o.value != ""
    ensures r.Some? ==> r.value == o.value
  {
    if o.Some? && o.value != "" then o else None
  }

  /**
   * A result's name: the display name's first comma-separated piece when
   * non-empty, else the item's own name when non-empty, else "名称不明".
   */
  function ResultName(item: RawPlace): (name: string)
    ensures name != ""
    ensures item.displayName.Some? && FirstPiece(item.displayName.value) != "" ==>
              name == FirstPiece(item.displayName.value) && ',' !in name
    ensures (item.displayName.None? || FirstPiece(item.displayName.value) == "") && NonEmpty(item.name).Some? ==>
              name == item.name.value
    ensures (item.displayName.None? || FirstPiece(item.displayName.value) == "") && NonEmpty(item.name).None? ==>
              name == UnknownName
  {
    var piece := if item.displayName.Some? then FirstPiece(item.displayName.value) else "";
    if piece != "" then piece
    else if item.name.Some? && item.name.value != "" then item.name.value
    else UnknownName
  }

  /** The `data.map(...)` step for one item; `parseFloat` is the number parser applied to the coordinates. */
  function FormatResult(item: RawPlace, parseFloat: string -> real): (r: SearchResult)
    ensures r.name == ResultName(item)
    ensures r.address == (if item.displayName.Some? then item.displayName.value else "")
    ensures r.lat == parseFloat(item.lat) && r.lon == parseFloat(item.lon)
    ensures r.displayName == item.displayName
    ensures r.category == (if NonEmpty(item.osmClass).Some? then item.osmClass.value else DefaultCategory) && r.category != ""
  {
    SearchResult(ResultName(item), item.displayName.GetOr(""), parseFloat(item.lat), parseFloat(item.lon),
                 item.displayName, NonEmpty(item.osmClass).GetOr(DefaultCategory))
  }

  /** One result per item, in the items' order. */
  function FormatResults(items: seq<RawPlace>, parseFloat: string -> real): (results: seq<SearchResult>)
    ensures |results| == |items|
    ensures forall k :: 0 <= k < |items| ==> results[k] == FormatResult(items[k], parseFloat)
    ensures forall k :: 0 <= k < |items| ==> results[k].name != "" && results[k].category != ""
  {
    seq(|items|, k requires 0 <= k < |items| => FormatResult(items[k], parseFloat))
  }

  /** `searchQuery.trim()` is non-empty: a blank query searches nothing. */
  function ShouldSearch(query: string): (go: bool)
    ensures go <==> !AllWhitespace(query)
  {
    Trim(query) != ""
  }

  /** The initial search runs for a non-empty `q` unless an `error` parameter is present. */
  function InitialQuery(q: Option<string>, errorMessage: Option<string>): (r: Option<string>)
    ensures r.Some? <==> NonEmpty(q).Some? && NonEmpty(errorMessage).None?
    ensures r.Some? ==> r == q
  {
    if NonEmpty(q).Some? && NonEmpty(errorMessage).None? then q else None
  }

  /** `Math.min(...xs)`. */
  function SeqMin(xs: seq<real>): (m: real)
    requires |xs| > 0
    ensures m in xs
    ensures forall k :: 0 <= k < |xs| ==> m <= xs[k]
  {
    if |xs| == 1 then xs[0] else Min(xs[0], SeqMin(xs[1..]))
  }

  /** `Math.max(...xs)`. */
  function SeqMax(xs: seq<real>): (m: real)
    requires |xs| > 0
    ensures m in xs
    ensures forall k :: 0 <= k < |xs| ==> xs[k] <= m
  {
    if |xs| == 1 then xs[0] else Max(xs[0], SeqMax(xs[1..]))
  }

  /** `xs.reduce((a, b) => a + b, 0)`. */
  function Sum(xs: seq<real>): real {
    if xs == [] then 0.0 else xs[0] + Sum(xs[1..])
  }

  /** A sum of `n` numbers lies between `n` times their least and `n` times their largest. */
  lemma {:induction false} SumBetween(xs: seq<real>, lo: real, hi: real)
    requires forall k :: 0 <= k < |xs| ==> lo <= xs[k] <= hi
    ensures |xs| as real * lo <= Sum(xs) <= |xs| as real * hi
  {
    if xs != [] {
      SumBetween(xs[1..], lo, hi);
      assert xs[0] == xs[0];
    }
  }

  /** `m` is the mean of `xs`: taken `|xs|` times it gives their sum. */
  predicate IsMeanOf(m: real, xs: seq<real>) {
    |xs| as real * m == Sum(xs)
  }

  /** The arithmetic mean of a non-empty list: the number that, taken `|xs|` times, gives their sum. */
  function Mean(xs: seq<real>): (m: real)
    requires |xs| > 0
    ensures IsMeanOf(m, xs)
  {
    ScaledQuotient(Sum(xs), |xs| as real);
    Sum(xs) / |xs| as real
  }

  lemma ScaledQuotient(total: real, n: real)
    requires n > 0.0
    ensures n * (total / n) == total
  {
  }

  /** The mean lies between the least and the largest element. */
  lemma MeanWithinRange(xs: seq<real>)
    requires |xs| > 0
    ensures SeqMin(xs) <= Mean(xs) <= SeqMax(xs)
  {
    MeanWithinBounds(xs, SeqMin(xs), SeqMax(xs));
  }

  /** The mean of numbers between `lo` and `hi` is between `lo` and `hi`. */
  lemma MeanWithinBounds(xs: seq<real>, lo: real, hi: real)
    requires |xs| > 0
    requires forall k :: 0 <= k < |xs| ==> lo <= xs[k] <= hi
    ensures lo <= Mean(xs) <= hi
  {
    SumBetween(xs, lo, hi);
    QuotientBetween(Sum(xs), |xs| as real, lo, hi);
  }

  /** Dividing by a positive `n` a number between `n * lo` and `n * hi` gives a number between `lo` and `hi`. */
  lemma QuotientBetween(total: real, n: real, lo: real, hi: real)
    requires n > 0.0 && n * lo <= total <= n * hi
    ensures lo <= total / n <= hi
  {
    var q := total / n;
    assert (q - lo) * n == total - n * lo;
    assert (hi - q) * n == n * hi - total;
  }

  function Lngs(results: seq<SearchResult>): (lngs: seq<real>)
    ensures |lngs| == |results| && forall k :: 0 <= k < |results| ==> lngs[k] == results[k].lon
  {
    seq(|results|, k requires 0 <= k < |results| => results[k].lon)
  }

  function Lats(results: seq<SearchResult>): (lats: seq<real>)
    ensures |lats| == |results| && forall k :: 0 <= k < |results| ==> lats[k] == results[k].lat
  {
    seq(|results|, k requires 0 <= k < |results| => results[k].lat)
  }

  function Position(r: SearchResult): Coordinate {
    Coordinate(r.lon, r.lat)
  }

  /**
   * The box handed to `fitBounds` for several results: from the least to the
   * largest longitude and latitude, widened on each side by a tenth of the
   * span. Every result lies inside it.
   */
  function ResultsBounds(results: seq<SearchResult>): (b: Bounds)
    requires |results| > 0
    ensures forall k :: 0 <= k < |results| ==> Inside(Position(results[k]), b)
    ensures b.northEast.lng - b.southWest.lng == 1.2 * (SeqMax(Lngs(results)) - SeqMin(Lngs(results)))
    ensures b.northEast.lat - b.southWest.lat == 1.2 * (SeqMax(Lats(results)) - SeqMin(Lats(results)))
    ensures b.southWest.lng + b.northEast.lng == SeqMin(Lngs(results)) + SeqMax(Lngs(results))
    ensures b.southWest.lat + b.northEast.lat == SeqMin(Lats(results)) + SeqMax(Lats(results))
  {
    var lngs, lats := Lngs(results), Lats(results);
    var minLng, maxLng := SeqMin(lngs), SeqMax(lngs);
    var minLat, maxLat := SeqMin(lats), SeqMax(lats);
    var lngPadding, latPadding := (maxLng - minLng) * 0.1, (maxLat - minLat) * 0.1;
    Bounds(Coordinate(minLng - lngPadding, minLat - latPadding), Coordinate(maxLng + lngPadding, maxLat + latPadding))
  }

  /**
   * The viewport used when `fitBounds` throws: the mean position, zoomed by
   * the larger of the two spans.
   */
  function ResultsFallbackView(results: seq<SearchResult>): (v: View)
    requires |results| > 0
    ensures IsMeanOf(v.center.lng, Lngs(results)) && IsMeanOf(v.center.lat, Lats(results))
    ensures v.zoom == ZoomForSpan(Max(Span(Lngs(results)), Span(Lats(results))))
  {
    View(MeanPosition(results), ZoomForSpan(Max(Span(Lngs(results)), Span(Lats(results)))))
  }

  /** How far the largest of the numbers lies above the least. */
  function Span(xs: seq<real>): real
    requires |xs| > 0
  {
    SeqMax(xs) - SeqMin(xs)
  }

  /** The mean of the results' longitudes and of their latitudes. */
  function MeanPosition(results: seq<SearchResult>): (c: Coordinate)
    requires |results| > 0
    ensures IsMeanOf(c.lng, Lngs(results)) && IsMeanOf(c.lat, Lats(results))
  {
    Coordinate(Mean(Lngs(results)), Mean(Lats(results)))
  }


  /** The fallback centre of several results lies inside their fit box. */
  lemma FallbackCentreInsideBounds(results: seq<SearchResult>)
    requires |results| > 0
    ensures Inside(ResultsFallbackView(results).center, ResultsBounds(results))
  {
    MeanWithinRange(Lngs(results));
    MeanWithinRange(Lats(results));
  }

  /** Results that all lie within 0.01 degrees of one another on both axes get the street-level zoom 16. */
  lemma ClusteredResultsZoomIn(results: seq<SearchResult>)
    requires |results| > 0
    requires forall j, k :: 0 <= j < |results| && 0 <= k < |results| ==>
               results[j].lon - results[k].lon < 0.01 && results[j].lat - results[k].lat < 0.01
    ensures ResultsFallbackView(results).zoom == 16
  {
    var lngs, lats := Lngs(results), Lats(results);
    var a :| 0 <= a < |lngs| && lngs[a] == SeqMax(lngs);
    var b :| 0 <= b < |lngs| && lngs[b] == SeqMin(lngs);
    var c :| 0 <= c < |lats| && lats[c] == SeqMax(lats);
    var d :| 0 <= d < |lats| && lats[d] == SeqMin(lats);
    assert SeqMax(lngs) - SeqMin(lngs) < 0.01 by {
      assert results[a].lon - results[b].lon < 0.01;
    }
    assert SeqMax(lats) - SeqMin(lats) < 0.01 by {
      assert results[c].lat - results[d].lat < 0.01;
    }
  }

  /** What `adjustMapToAllResults` asks of the map. */
  datatype ViewPlan =
    | Untouched
    | CenterOn(view: View)
    | FitAll(bounds: Bounds, fallback: View)

  /** The zoom level used to show a single place. */
  const PinZoom: int := 16

  /**
   * `adjustMapToAllResults`: no results leave the map alone, one result is
   * centred at zoom 16, several are framed together.
   */
  function AdjustPlan(results: seq<SearchResult>): (plan: ViewPlan)
    ensures plan.Untouched? <==> |results| == 0
    ensures |results| == 1 ==> plan == CenterOn(View(Position(results[0]), PinZoom))
    ensures |results| > 1 ==> plan == FitAll(ResultsBounds(results), ResultsFallbackView(results))
    ensures plan.FitAll? ==> forall k :: 0 <= k < |results| ==> Inside(Position(results[k]), plan.bounds)
  {
    if |results| == 0 then Untouched
    else if |results| == 1 then CenterOn(View(Position(results[0]), PinZoom))
    else FitAll(ResultsBounds(results), ResultsFallbackView(results))
  }

  /** Every camera plan for a non-empty result list keeps every result in view, fallback included. */
  lemma AdjustPlanShowsEveryResult(results: seq<SearchResult>)
    requires |results| > 1
    ensures var plan := AdjustPlan(results);
            (forall k :: 0 <= k < |results| ==> Inside(Position(results[k]), plan.bounds))
            && Inside(plan.fallback.center, plan.bounds)
  {
    FallbackCentreInsideBounds(results);
  }

  /**
   * The screen's state: the results, the loading flag, the selected marker,
   * whether the drawer is open, the first-adjustment and has-results flags,
   * the error banner, and the last camera move requested of the map.
   */
  class SearchScreenState {
    var results: seq<SearchResult>
    var loading: bool
    var selectedMarker: Option<nat>
    var showResults: bool
    var hasInitiallyAdjusted: bool
    var hasSearchResults: bool
    var showError: bool
    var camera: ViewPlan

    /** The first render: no results, nothing selected, the error banner up when the URL carries an error. */
    constructor (errorMessage: Option<string>)
      ensures results == [] && !loading && selectedMarker.None? && !showResults
      ensures !hasInitiallyAdjusted && !hasSearchResults && camera.Untouched?
      ensures showError <==> NonEmpty(errorMessage).Some?
    {
      results := [];
      loading := false;
      selectedMarker := None;
      showResults := false;
      hasInitiallyAdjusted := false;
      hasSearchResults := false;
      showError := NonEmpty(errorMessage).Some?;
      camera := Untouched;
    }

    /** `adjustMapToAllResults` with its timers run: the camera plan, and the drawer opens for any results. */
    method AdjustMapToAllResults(shown: seq<SearchResult>)
      modifies this`camera, this`showResults
      ensures camera == (if |shown| == 0 then old(camera) else AdjustPlan(shown))
      ensures showResults == (|shown| > 0 || old(showResults))
    {
      if |shown| == 0 {
        return;
      }
      camera := AdjustPlan(shown);
      showResults := true;
    }

    /**
     * `performSearch` with the geocoder's answer `answer` (None when the
     * request or its parsing fails). A blank query does nothing. Otherwise
     * the answer replaces the results; the map is framed only if it had not
     * been framed when the search began; loading ends on every outcome.
     */
    method PerformSearch(query: string, answer: Option<seq<RawPlace>>, parseFloat: string -> real)
      modifies this`loading, this`results, this`hasSearchResults, this`hasInitiallyAdjusted, this`camera, this`showResults
      ensures !ShouldSearch(query) ==> unchanged(this)
      ensures ShouldSearch(query) ==>
                && !loading
                && (answer.None? ==> results == old(results) && !hasSearchResults && !hasInitiallyAdjusted
                                      && camera == old(camera) && showResults == old(showResults))
                && (answer.Some? ==> results == FormatResults(answer.value, parseFloat) && hasSearchResults)
                && (answer.Some? && !old(hasInitiallyAdjusted) ==>
                      hasInitiallyAdjusted && camera == (if |results| == 0 then old(camera) else AdjustPlan(results))
                      && showResults == (|results| > 0 || old(showResults)))
                && (answer.Some? && old(hasInitiallyAdjusted) ==>
                      !hasInitiallyAdjusted && camera == old(camera) && showResults == old(showResults))
      ensures selectedMarker == old(selectedMarker) && showError == old(showError)
    {
      if !ShouldSearch(query) {
        return;
      }
      // The callback reads the flag of the render it was created in.
      var adjustedWhenCalled := hasInitiallyAdjusted;
      loading := true;
      hasInitiallyAdjusted := false;
      hasSearchResults := false;
      if answer.Some? {
        ShowAnswer(FormatResults(answer.value, parseFloat), adjustedWhenCalled);
      }
      loading := false;
    }

    /**
     * The success path of `performSearch`: the formatted results are shown
     * and, unless the map had already been framed, framed.
     */
    method ShowAnswer(formatted: seq<SearchResult>, adjustedWhenCalled: bool)
      modifies this`results, this`hasSearchResults, this`hasInitiallyAdjusted, this`camera, this`showResults
      ensures results == formatted && hasSearchResults
      ensures !adjustedWhenCalled ==>
                && hasInitiallyAdjusted
                && camera == (if |formatted| == 0 then old(camera) else AdjustPlan(formatted))
                && showResults == (|formatted| > 0 || old(showResults))
      ensures adjustedWhenCalled ==>
                hasInitiallyAdjusted == old(hasInitiallyAdjusted) && camera == old(camera) && showResults == old(showResults)
    {
      results := formatted;
      hasSearchResults := true;
      if !adjustedWhenCalled {
        AdjustMapToAllResults(formatted);
        hasInitiallyAdjusted := true;
      }
    }

    /** The error effect: an `error` parameter raises the banner, the results section and the drawer. */
    method OnErrorMessage(errorMessage: Option<string>)
      modifies this`showError, this`hasSearchResults, this`showResults
      ensures NonEmpty(errorMessage).Some? ==> showError && hasSearchResults && showResults
      ensures NonEmpty(errorMessage).None? ==>
                showError == old(showError) && hasSearchResults == old(hasSearchResults) && showResults == old(showResults)
    {
      if NonEmpty(errorMessage).Some? {
        showError := true;
        hasSearchResults := true;
        showResults := true;
      }
    }

    /** A click on a list entry: it becomes the selected marker, the drawer closes and the map centres on it. */
    method HandleMarkerClick(index: nat)
      requires index < |results|
      modifies this`selectedMarker, this`showResults, this`camera
      ensures selectedMarker == Some(index) && !showResults
      ensures camera == CenterOn(View(Position(results[index]), PinZoom))
    {
      selectedMarker := Some(index);
      showResults := false;
      camera := CenterOn(View(Position(results[index]), PinZoom));
    }

    /**
     * A click on a map pin: on the selected pin it clears the selection;
     * on any other it selects it, closes the drawer and centres on it.
     */
    method HandleMapMarkerClick(index: nat)
      requires index < |results|
      modifies this`selectedMarker, this`showResults, this`camera
      ensures old(selectedMarker) == Some(index) ==>
                selectedMarker.None? && showResults == old(showResults) && camera == old(camera)
      ensures old(selectedMarker) != Some(index) ==>
                selectedMarker == Some(index) && !showResults && camera == CenterOn(View(Position(results[index]), PinZoom))
    {
      if selectedMarker == Some(index) {
        selectedMarker := None;
        return;
      }
      selectedMarker := Some(index);
      showResults := false;
      camera := CenterOn(View(Position(results[index]), PinZoom));
    }

    /** "Show all": with results, the selection clears, the drawer opens and the map frames them all; otherwise nothing. */
    method HandleShowAllResults()
      modifies this`selectedMarker, this`showResults, this`camera
      ensures |results| == 0 ==>
                selectedMarker == old(selectedMarker) && showResults == old(showResults) && camera == old(camera)
      ensures |results| > 0 ==> selectedMarker.None? && showResults && camera == AdjustPlan(results)
    {
      if |results| > 0 {
        selectedMarker := None;
        showResults := true;
        AdjustMapToAllResults(results);
      }
    }

    /** The drawer handle: it toggles the drawer; opening it clears the selection and frames all results. */
    method HandleDrawerToggle()
      modifies this`selectedMarker, this`showResults, this`camera
      ensures showResults == !old(showResults)
      ensures showResults ==> selectedMarker.None? && camera == (if |results| == 0 then old(camera) else AdjustPlan(results))
      ensures !showResults ==> selectedMarker == old(selectedMarker) && camera == old(camera)
    {
      var newShowResults := !showResults;
      showResults := newShowResults;
      if newShowResults {
        selectedMarker := None;
        AdjustMapToAllResults(results);
      }
    }
  }

  /** Clicking the same pin twice selects it and then leaves nothing selected. */
  method ClickPinTwice(screen: SearchScreenState, index: nat)
    requires index < |screen.results| && screen.selectedMarker != Some(index)
    modifies screen
    ensures screen.selectedMarker.None? && !screen.showResults
  {
    screen.HandleMapMarkerClick(index);
    screen.HandleMapMarkerClick(index);
  }
}
