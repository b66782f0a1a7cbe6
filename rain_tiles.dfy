/**
 * Rain tiles as map polygons: the slippy-map (Web Mercator) tile scheme of
 * OpenStreetMap turned into a GeoJSON FeatureCollection of Polygons
 * (sections 3.1.6 and 3.2-3.3 of RFC 7946). Each Polygon is one closed
 * linear ring; the ring winds clockwise, not counterclockwise as section
 * 3.1.6 asks of exterior rings (parsers are told not to reject such rings).
 */
module RainTiles {
  import opened Wrappers
  import opened RouteTypes

  /** `Math.pow(2, z)` for a whole zoom level. */
  function Pow2(z: nat): (n: nat)
    ensures n >= 1
  {
    if z == 0 then 1 else 2 * Pow2(z - 1)
  }

  /** The longitude of the west edge of tile column `x` at zoom `z`. */
  function TileLongitude(x: int, z: nat): real {
    (x as real / Pow2(z) as real) * 360.0 - 180.0
  }

  /**
   * `tileToLonLat`: the north-west corner of tile `(x, y)` at zoom `z`.
   * `latitude(y, z)` stands for the inverse Mercator formula
   * `atan(sinh(pi * (1 - 2y / 2^z)))` in degrees.
   */
  function TileToLonLat(x: int, y: int, z: nat, latitude: (int, nat) -> real): (c: Coordinate)
    ensures c.lng == TileLongitude(x, z) && c.lat == latitude(y, z)
  {
    Coordinate(TileLongitude(x, z), latitude(y, z))
  }

  /** The longitude scale spans the whole world: column 0 starts at -180 and column 2^z at 180. */
  lemma LongitudeSpansWorld(z: nat)
    ensures TileLongitude(0, z) == -180.0 && TileLongitude(Pow2(z), z) == 180.0
  {
    WholeTurn(Pow2(z) as real);
  }

  lemma WholeTurn(n: real)
    requires n > 0.0
    ensures (0.0 / n) * 360.0 - 180.0 == -180.0 && (n / n) * 360.0 - 180.0 == 180.0
  {
    assert 0.0 / n == 0.0 && n / n == 1.0;
  }

  /** Longitude grows strictly from column to column. */
  lemma LongitudeStrictlyIncreasing(x1: int, x2: int, z: nat)
    requires x1 < x2
    ensures TileLongitude(x1, z) < TileLongitude(x2, z)
  {
    var n := Pow2(z) as real;
    assert x1 as real / n < x2 as real / n by {
      assert x1 as real < x2 as real;
    }
  }

  /** The latitude of a tile corner does not depend on the column. */
  lemma LatitudeIgnoresColumn(x1: int, x2: int, y: int, z: nat, latitude: (int, nat) -> real)
    ensures TileToLonLat(x1, y, z, latitude).lat == TileToLonLat(x2, y, z, latitude).lat
  {
  }

  /**
   * `getTileBounds`: the closed ring north-west, north-east, south-east,
   * south-west, north-west of a tile.
   */
  function TileBounds(x: int, y: int, z: nat, latitude: (int, nat) -> real): (ring: seq<Coordinate>)
    ensures |ring| == 5 && ring[0] == ring[4]
    ensures ring[0] == Coordinate(TileLongitude(x, z), latitude(y, z))
    ensures ring[1] == Coordinate(TileLongitude(x + 1, z), latitude(y, z))
    ensures ring[2] == Coordinate(TileLongitude(x + 1, z), latitude(y + 1, z))
    ensures ring[3] == Coordinate(TileLongitude(x, z), latitude(y + 1, z))
  {
    var northWest := TileToLonLat(x, y, z, latitude);
    var southEast := TileToLonLat(x + 1, y + 1, z, latitude);
    [ Coordinate(northWest.lng, northWest.lat),
      Coordinate(southEast.lng, northWest.lat),
      Coordinate(southEast.lng, southEast.lat),
      Coordinate(northWest.lng, southEast.lat),
      Coordinate(northWest.lng, northWest.lat)]
  }

  /**
   * Adjacent tiles share edges exactly: the east edge of a tile is the west
   * edge of its eastern neighbour, and its south edge is the north edge of
   * its southern neighbour.
   */
  lemma NeighboursShareEdges(x: int, y: int, z: nat, latitude: (int, nat) -> real)
    ensures var t, east, south := TileBounds(x, y, z, latitude), TileBounds(x + 1, y, z, latitude),
                                  TileBounds(x, y + 1, z, latitude);
            && t[1] == east[0] && t[2] == east[3]
            && t[3] == south[0] && t[2] == south[1]
  {
  }

  /** A tile's polygon is a proper box when latitude falls as the row grows: west of east, south of north. */
  lemma TileBoundsOriented(x: int, y: int, z: nat, latitude: (int, nat) -> real)
    requires latitude(y + 1, z) < latitude(y, z)
    ensures var t := TileBounds(x, y, z, latitude);
            t[0].lng < t[1].lng && t[2].lat < t[1].lat
  {
    LongitudeStrictlyIncreasing(x, x + 1, z);
  }

  /** A GeoJSON Feature for one rain tile: its index, the tile's properties, and a one-ring Polygon. */
  datatype Feature = Feature(id: nat, tileX: int, tileY: int, zoom: nat, polygon: seq<seq<Coordinate>>)

  datatype FeatureCollection = FeatureCollection(features: seq<Feature>)

  /** RFC 7946 linear ring: at least four positions, the first equal to the last (winding aside: see `TileRingsWindClockwise`). */
  predicate IsLinearRing(ring: seq<Coordinate>) {
    |ring| >= 4 && ring[0] == ring[|ring| - 1]
  }

  /**
   * `RainTileLayer`: nothing for a missing or empty tile list; otherwise one
   * feature per tile, in order, numbered by position, carrying the tile's
   * x, y and zoom and the tile's ring as the Polygon's only ring.
   */
  function RainTileFeatures(rainTiles: Option<seq<RainTile>>, latitude: (int, nat) -> real): (r: Option<FeatureCollection>)
    ensures r.None? <==> rainTiles.None? || |rainTiles.value| == 0
    ensures r.Some? ==> |r.value.features| == |rainTiles.value|
    ensures r.Some? ==> forall i :: 0 <= i < |r.value.features| ==>
              var f, t := r.value.features[i], rainTiles.value[i];
              f.id == i && f.tileX == t.x && f.tileY == t.y && f.zoom == t.zoom
              && f.polygon == [TileBounds(t.x, t.y, t.zoom, latitude)]
  {
    if rainTiles.None? || |rainTiles.value| == 0 then None
    else
      var tiles := rainTiles.value;
      Some(FeatureCollection(seq(|tiles|, i requires 0 <= i < |tiles| =>
        Feature(i, tiles[i].x, tiles[i].y, tiles[i].zoom, [TileBounds(tiles[i].x, tiles[i].y, tiles[i].zoom, latitude)]))))
  }

  /**
   * Twice the signed area a ring encloses (the shoelace sum over its
   * consecutive positions): positive when it winds counterclockwise,
   * negative when it winds clockwise.
   */
  function ShoelaceSum(ring: seq<Coordinate>): real {
    if |ring| < 2 then 0.0
    else ring[0].lng * ring[1].lat - ring[1].lng * ring[0].lat + ShoelaceSum(ring[1..])
  }

  /** The ring west-north, east-north, east-south, west-south, west-north encloses 2(w - e)(n - s). */
  lemma BoxRingShoelace(w: real, e: real, n: real, s: real)
    ensures ShoelaceSum([Coordinate(w, n), Coordinate(e, n), Coordinate(e, s), Coordinate(w, s), Coordinate(w, n)])
            == 2.0 * (w - e) * (n - s)
  {
    var ring := [Coordinate(w, n), Coordinate(e, n), Coordinate(e, s), Coordinate(w, s), Coordinate(w, n)];
    assert ring[1..][1..][1..][1..] == [Coordinate(w, n)];
    assert ShoelaceSum(ring[1..][1..][1..]) == w * n - w * s;
    assert ShoelaceSum(ring[1..][1..]) == e * s - w * s + (w * n - w * s);
    assert ShoelaceSum(ring[1..]) == e * s - e * n + (e * s - w * s + (w * n - w * s));
    assert ShoelaceSum(ring) == w * n - e * n + (e * s - e * n + (e * s - w * s + (w * n - w * s)));
  }

  /**
   * A tile's ring winds clockwise in longitude/latitude whenever latitude
   * falls as the row grows: the exterior ring runs against the
   * counterclockwise rule of section 3.1.6 of RFC 7946.
   */
  lemma TileRingsWindClockwise(x: int, y: int, z: nat, latitude: (int, nat) -> real)
    requires latitude(y + 1, z) < latitude(y, z)
    ensures ShoelaceSum(TileBounds(x, y, z, latitude)) < 0.0
  {
    var w, e := TileLongitude(x, z), TileLongitude(x + 1, z);
    var n, s := latitude(y, z), latitude(y + 1, z);
    LongitudeStrictlyIncreasing(x, x + 1, z);
    assert TileBounds(x, y, z, latitude)
           == [Coordinate(w, n), Coordinate(e, n), Coordinate(e, s), Coordinate(w, s), Coordinate(w, n)];
    BoxRingShoelace(w, e, n, s);
    NegativeTimesPositive(w - e, n - s);
  }

  lemma NegativeTimesPositive(a: real, b: real)
    requires a < 0.0 && b > 0.0
    ensures 2.0 * a * b < 0.0
  {
    assert (-a) * b > 0.0;
  }

  /** Every polygon the layer emits consists of exactly one closed linear ring. */
  lemma FeaturesAreLinearRings(rainTiles: Option<seq<RainTile>>, latitude: (int, nat) -> real)
    ensures var r := RainTileFeatures(rainTiles, latitude);
            r.Some? ==> forall f :: f in r.value.features ==> |f.polygon| == 1 && IsLinearRing(f.polygon[0])
  {
  }
}
