/**
 * out_svg.py: the structure of the SVG writers. The bounding box of the
 * input, the search for the zoom at which a 4 x 4 grid of OpenStreetMap
 * tiles covers it, the scaling of coordinates and weights (absolute), the
 * running minimum and maximum (minmax), and the point and segment weights
 * that gen_weighted counts.
 *
 * The latitude parts of the projections (log, tan, sinh) are parameters;
 * the longitude parts are linear and written out. The SVG text itself
 * (number formatting) is not modelled.
 */
module Svg {
  import opened Track
  import opened Utils
  import opened Filters

  const OSM_TILE_WIDTH: int := 256
  const OSM_TILE_HEIGHT: int := 256
  const SVG_WIDTH: int := 1024
  const SVG_HEIGHT: int := 1024

  /** SVG_WIDTH / OSM_TILE_WIDTH and SVG_HEIGHT / OSM_TILE_HEIGHT in
      Python 2 integer division: 4 tiles across and 4 down. */
  const TILES_X: int := 4
  const TILES_Y: int := 4

  lemma TilesPerSide()
    ensures TILES_X == SVG_WIDTH / OSM_TILE_WIDTH && TILES_Y == SVG_HEIGHT / OSM_TILE_HEIGHT
  {
  }

  /** The latitude of a tile row's north edge at a zoom (atan and sinh). */
  type NwLatFn = (int, nat) -> real

  /** The {'lat': .., 'lon': ..} dicts used for map corners. */
  datatype LatLon = LatLon(lat: real, lon: real)

  /** The map's north-west and south-east corners. */
  datatype Bounds = Bounds(nw: LatLon, se: LatLon)

  /** One entry of osm_get_tiles' result. */
  datatype Tile = Tile(x: int, y: int, w: int, h: int, zoom: nat, tileX: int, tileY: int)

  // ---------------------------------------------------------------------
  // minmax and absolute

  /** minmax on the weights of a dict: None and None for no values, else
      a least and a greatest value. */
  method MinMax(l: seq<int>) returns (lo: Option<int>, hi: Option<int>)
    ensures l == [] <==> lo.None?
    ensures l == [] <==> hi.None?
    ensures lo.Some? ==> lo.value in l && forall i :: 0 <= i < |l| ==> lo.value <= l[i]
    ensures hi.Some? ==> hi.value in l && forall i :: 0 <= i < |l| ==> l[i] <= hi.value
  {
    lo, hi := None, None;
    for k := 0 to |l|
      invariant k == 0 <==> lo.None?
      invariant k == 0 <==> hi.None?
      invariant lo.Some? ==> lo.value in l[..k] && forall i :: 0 <= i < k ==> lo.value <= l[i]
      invariant hi.Some? ==> hi.value in l[..k] && forall i :: 0 <= i < k ==> l[i] <= hi.value
    {
      assert l[..k + 1] == l[..k] + [l[k]];
      if lo.None? || l[k] < lo.value {
        lo := Some(l[k]);
      }
      if hi.None? || l[k] > hi.value {
        hi := Some(l[k]);
      }
    }
    assert l[..|l|] == l;
  }

  /** absolute on floats: v placed on a scale of the given length where
      minV sits at 0 and maxV at scale. Equal bounds divide by zero. */
  function Absolute(v: real, scale: real, minV: real, maxV: real): (r: Result<real>)
    ensures r.Err? <==> maxV == minV
    ensures r.Err? ==> r.error == ZeroDivisionError
    ensures r.Ok? ==> r.value * (maxV - minV) == scale * (v - minV)
  {
    if maxV == minV then Err(ZeroDivisionError) else Ok(scale * (v - minV) / (maxV - minV))
  }

  /** The ends of the range land on the ends of the scale, and the
      placement keeps the order of values. */
  lemma AbsoluteEnds(v: real, w: real, scale: real, minV: real, maxV: real)
    requires minV < maxV && scale >= 0.0 && v <= w
    ensures Absolute(minV, scale, minV, maxV) == Ok(0.0)
    ensures Absolute(maxV, scale, minV, maxV) == Ok(scale)
    ensures Absolute(v, scale, minV, maxV).value <= Absolute(w, scale, minV, maxV).value
  {
    var d := maxV - minV;
    assert scale * (maxV - minV) / d == scale;
    assert scale * (w - minV) - scale * (v - minV) == scale * (w - v);
    assert scale * (w - v) >= 0.0;
    assert Absolute(w, scale, minV, maxV).value - Absolute(v, scale, minV, maxV).value == scale * (w - v) / d;
  }

  /** absolute on ints, as gen_weighted calls it on weights: Python 2
      floor division. */
  function AbsoluteInt(v: int, scale: int, minV: int, maxV: int): (r: Result<int>)
    ensures r.Err? <==> maxV == minV
    ensures r.Err? ==> r.error == ZeroDivisionError
  {
    if maxV == minV then Err(ZeroDivisionError) else Ok(FloorDiv(scale * (v - minV), maxV - minV))
  }

  lemma MulNonNegative(x: int, d: int)
    requires x >= 0 && d >= 0
    ensures x * d >= 0
  {
  }

  /** A quotient of a numerator in [0, s * d] by d lies in [0, s]. */
  lemma QuotientRange(a: int, s: int, d: int)
    requires d > 0 && s >= 0 && 0 <= a <= s * d
    ensures 0 <= FloorDiv(a, d) <= s
  {
    var q := FloorDiv(a, d);
    assert q * d <= a < q * d + d;
    if q < 0 {
      assert (-q - 1) * d == -(q * d + d);
      MulNonNegative(-q - 1, d);
    }
    if q > s {
      assert (q - s - 1) * d == q * d - s * d - d;
      MulNonNegative(q - s - 1, d);
    }
  }

  /** A weight between the least and the greatest, scaled, stays in
      [0, scale], with the least at 0 and the greatest at scale. */
  lemma AbsoluteIntRange(v: int, scale: int, minV: int, maxV: int)
    requires minV <= v <= maxV && minV < maxV && scale >= 0
    ensures 0 <= AbsoluteInt(v, scale, minV, maxV).value <= scale
    ensures AbsoluteInt(minV, scale, minV, maxV).value == 0
    ensures AbsoluteInt(maxV, scale, minV, maxV).value == scale
  {
    var d := maxV - minV;
    assert scale * (v - minV) <= scale * d by {
      assert scale * d - scale * (v - minV) == scale * (maxV - v);
    }
    QuotientRange(scale * (v - minV), scale, d);
    assert scale * (minV - minV) == 0;
    assert scale * (maxV - minV) == scale * d;
    QuotientExact(scale, d);
  }

  lemma QuotientExact(s: int, d: int)
    requires d > 0
    ensures FloorDiv(s * d, d) == s
  {
    var q := FloorDiv(s * d, d);
    assert q * d <= s * d < q * d + d;
    if q < s {
      assert (s - q - 1) * d == s * d - q * d - d;
      MulNonNegative(s - q - 1, d);
    }
    if q > s {
      assert (q - s - 1) * d == q * d - s * d - d;
      MulNonNegative(q - s - 1, d);
    }
  }

  /** The colour of a segment or point of weight w in gen_weighted:
      a fixed colour when every weight is the same, otherwise an HSL colour
      whose saturation grows and lightness falls with the weight. show
      stands for %s formatting. */
  function WeightColour(w: int, minW: int, maxW: int, hue: string, fixed: string, show: int -> string): string {
    if minW == maxW then fixed
    else
      "hsl(" + hue + "," + show(10 + AbsoluteInt(w, 80, minW, maxW).value) + "%," +
      show(80 - AbsoluteInt(w, 70, minW, maxW).value) + "%)"
  }

  /** Saturation and lightness stay within [10, 90] and [10, 80]; the
      lightest shade is the least weight and the darkest the greatest. */
  lemma WeightShades(w: int, minW: int, maxW: int)
    requires minW <= w <= maxW && minW < maxW
    ensures 10 <= 10 + AbsoluteInt(w, 80, minW, maxW).value <= 90
    ensures 10 <= 80 - AbsoluteInt(w, 70, minW, maxW).value <= 80
    ensures AbsoluteInt(minW, 80, minW, maxW).value == 0 && AbsoluteInt(minW, 70, minW, maxW).value == 0
    ensures AbsoluteInt(maxW, 80, minW, maxW).value == 80 && AbsoluteInt(maxW, 70, minW, maxW).value == 70
  {
    AbsoluteIntRange(w, 80, minW, maxW);
    AbsoluteIntRange(w, 70, minW, maxW);
  }

  /** Equal least and greatest weight select the fixed colour. */
  lemma UniformWeightColour(w: int, hue: string, fixed: string, show: int -> string)
    ensures WeightColour(w, w, w, hue, fixed, show) == fixed
  {
  }

  // ---------------------------------------------------------------------
  // Tiles (longitude part exact, latitude part abstract)

  /** osm_tile_nw, lon part: the west edge of tile column tileX. */
  function OsmTileNwLon(tileX: int, zoom: nat): (lon: real)
    ensures tileX == 0 ==> lon == -180.0
  {
    tileX as real / Pow2(zoom) as real * 360.0 - 180.0
  }

  /** A longitude lies in its tile column: between its west edge and the
      next column's. */
  lemma TileBracket(lon: real, zoom: nat)
    requires -180.0 <= lon < 180.0
    ensures OsmTileNwLon(TileX(lon, zoom), zoom) <= lon < OsmTileNwLon(TileX(lon, zoom) + 1, zoom)
  {
    var n := Pow2(zoom) as real;
    var u := (lon + 180.0) / 360.0;
    var t := TileX(lon, zoom);
    assert u * n >= 0.0;
    assert t as real <= u * n < t as real + 1.0;
    ScaleDown(t as real, u, n);
    ScaleUp(t as real + 1.0, u, n);
  }

  /** Dividing x <= y * n by a positive n. */
  lemma ScaleDown(x: real, y: real, n: real)
    requires n > 0.0 && x <= y * n
    ensures x / n <= y
  {
    assert x / n * n == x;
  }

  /** Dividing y * n < x by a positive n. */
  lemma ScaleUp(x: real, y: real, n: real)
    requires n > 0.0 && y * n < x
    ensures y < x / n
  {
    assert x / n * n == x;
  }

  /** osm_tile_nw: the north-west corner of a tile. */
  function TileCorner(tileX: int, tileY: int, zoom: nat, nwLat: NwLatFn): LatLon {
    LatLon(nwLat(tileY, zoom), OsmTileNwLon(tileX, zoom))
  }

  /** The test of osm_get_tiles' loop: the grid starting at map_nw's tile
      reaches below and right of map_se. */
  predicate Covers(nw: LatLon, se: LatLon, zoom: nat, tileY: TileYFn, nwLat: NwLatFn) {
    var corner := TileCorner(TileX(nw.lon, zoom) + TILES_X, tileY(nw.lat, zoom) + TILES_Y, zoom, nwLat);
    corner.lat <= se.lat && corner.lon >= se.lon
  }

  /** The zoom the loop stops at when it starts from zoom. */
  function SearchZoom(nw: LatLon, se: LatLon, zoom: nat, tileY: TileYFn, nwLat: NwLatFn): (z: nat)
    ensures z <= zoom
  {
    if zoom == 0 then 0
    else if Covers(nw, se, zoom, tileY, nwLat) then zoom
    else SearchZoom(nw, se, zoom - 1, tileY, nwLat)
  }

  /** The search finds the largest covering zoom not above the start, and 0
      when there is none. */
  lemma {:induction false} SearchZoomLargest(nw: LatLon, se: LatLon, zoom: nat, tileY: TileYFn, nwLat: NwLatFn)
    ensures var z := SearchZoom(nw, se, zoom, tileY, nwLat);
      && (z == 0 || Covers(nw, se, z, tileY, nwLat))
      && forall k :: z < k <= zoom ==> !Covers(nw, se, k, tileY, nwLat)
  {
    if zoom > 0 && !Covers(nw, se, zoom, tileY, nwLat) {
      SearchZoomLargest(nw, se, zoom - 1, tileY, nwLat);
    }
  }

  /** The list comprehension of osm_get_tiles: columns i outer, rows j inner. */
  function Grid(zoom: nat, tileX: int, tileY: int): (tiles: seq<Tile>)
    ensures |tiles| == TILES_X * TILES_Y
  {
    seq(TILES_X * TILES_Y, k requires 0 <= k < TILES_X * TILES_Y =>
      var i, j := k / TILES_Y, k % TILES_Y;
      Tile(i * OSM_TILE_WIDTH, j * OSM_TILE_HEIGHT, OSM_TILE_WIDTH, OSM_TILE_HEIGHT, zoom, tileX + i, tileY + j))
  }

  /** The 16 tiles: tile k is column k / 4, row k % 4, placed at 256-pixel
      steps; the first is the anchor tile and the last is 3 tiles right
      and 3 down. */
  lemma GridLayout(zoom: nat, tileX: int, tileY: int)
    ensures |Grid(zoom, tileX, tileY)| == 16
    ensures forall i, j :: 0 <= i < 4 && 0 <= j < 4 ==>
      Grid(zoom, tileX, tileY)[4 * i + j] == Tile(256 * i, 256 * j, 256, 256, zoom, tileX + i, tileY + j)
    ensures Grid(zoom, tileX, tileY)[0] == Tile(0, 0, 256, 256, zoom, tileX, tileY)
    ensures Grid(zoom, tileX, tileY)[15] == Tile(768, 768, 256, 256, zoom, tileX + 3, tileY + 3)
  {
    forall i, j | 0 <= i < 4 && 0 <= j < 4
      ensures Grid(zoom, tileX, tileY)[4 * i + j] == Tile(256 * i, 256 * j, 256, 256, zoom, tileX + i, tileY + j)
    {
      assert (4 * i + j) / 4 == i && (4 * i + j) % 4 == j;
    }
    assert Grid(zoom, tileX, tileY)[4 * 0 + 0] == Grid(zoom, tileX, tileY)[0];
    assert Grid(zoom, tileX, tileY)[4 * 3 + 3] == Grid(zoom, tileX, tileY)[15];
  }

  /** The outer corners of the grid: the north-west corner of its first
      tile and the north-west corner of the tile diagonally past its last. */
  lemma GridCorners(zoom: nat, tileX: int, tileY: int, nwLat: NwLatFn)
    ensures |Grid(zoom, tileX, tileY)| == 16
    ensures var first := Grid(zoom, tileX, tileY)[0];
      TileCorner(first.tileX, first.tileY, first.zoom, nwLat) == TileCorner(tileX, tileY, zoom, nwLat)
    ensures var last := Grid(zoom, tileX, tileY)[15];
      TileCorner(last.tileX + 1, last.tileY + 1, last.zoom, nwLat) == TileCorner(tileX + 4, tileY + 4, zoom, nwLat)
  {
    var first, last := Grid(zoom, tileX, tileY)[0], Grid(zoom, tileX, tileY)[15];
    assert first.tileX == tileX && first.tileY == tileY && first.zoom == zoom;
    assert last.tileX + 1 == tileX + 4 && last.tileY + 1 == tileY + 4 && last.zoom == zoom;
  }

  /** The zoom osm_get_tiles settles on, and the zoom its tile indices come
      from: the same, except that a search that reaches 0 keeps the
      indices computed at zoom 1. */
  function ChosenZoom(nw: LatLon, se: LatLon, tileY: TileYFn, nwLat: NwLatFn): nat {
    SearchZoom(nw, se, 18, tileY, nwLat)
  }

  function IndexZoom(nw: LatLon, se: LatLon, tileY: TileYFn, nwLat: NwLatFn): (z: nat)
    ensures 1 <= z <= 18
  {
    var z := ChosenZoom(nw, se, tileY, nwLat);
    if z == 0 then 1 else z
  }

  /** osm_get_tiles: from zoom 18 down, the first zoom whose grid covers
      the map; the grid of 16 tiles at it. */
  method OsmGetTiles(nw: LatLon, se: LatLon, tileY: TileYFn, nwLat: NwLatFn) returns (tiles: seq<Tile>)
    ensures var iz := IndexZoom(nw, se, tileY, nwLat);
      tiles == Grid(ChosenZoom(nw, se, tileY, nwLat), TileX(nw.lon, iz), tileY(nw.lat, iz))
  {
    var zoom: nat := 18;
    var tx, ty := TileX(nw.lon, 18), tileY(nw.lat, 18);
    while zoom > 0
      invariant zoom <= 18
      invariant SearchZoom(nw, se, zoom, tileY, nwLat) == ChosenZoom(nw, se, tileY, nwLat)
      invariant zoom < 18 ==> tx == TileX(nw.lon, zoom + 1) && ty == tileY(nw.lat, zoom + 1)
    {
      tx, ty := TileX(nw.lon, zoom), tileY(nw.lat, zoom);
      var se' := TileCorner(tx + TILES_X, ty + TILES_Y, zoom, nwLat);
      if se'.lat <= se.lat && se'.lon >= se.lon {
        assert Covers(nw, se, zoom, tileY, nwLat);
        break;
      }
      assert !Covers(nw, se, zoom, tileY, nwLat);
      zoom := zoom - 1;
    }
    assert zoom == ChosenZoom(nw, se, tileY, nwLat);
    assert tx == TileX(nw.lon, IndexZoom(nw, se, tileY, nwLat));
    tiles := Grid(zoom, tx, ty);
  }

  /** A search that fails everywhere lands on zoom 0 with zoom-1 indices. */
  lemma NoCoveringZoom(nw: LatLon, se: LatLon, tileY: TileYFn, nwLat: NwLatFn)
    requires forall z :: 1 <= z <= 18 ==> !Covers(nw, se, z, tileY, nwLat)
    ensures ChosenZoom(nw, se, tileY, nwLat) == 0 && IndexZoom(nw, se, tileY, nwLat) == 1
  {
    SearchZoomLargest(nw, se, 18, tileY, nwLat);
  }

  // ---------------------------------------------------------------------
  // The bounding box

  function Max(a: real, b: real): real { if a >= b then a else b }
  function Min(a: real, b: real): real { if a <= b then a else b }

  /** One step of the bounds loop. */
  function Extend(b: Option<Bounds>, p: Point): Bounds {
    if b.None? then Bounds(LatLon(p.lat, p.lon), LatLon(p.lat, p.lon))
    else
      var Bounds(nw, se) := b.value;
      Bounds(LatLon(Max(nw.lat, p.lat), Min(nw.lon, p.lon)), LatLon(Min(se.lat, p.lat), Max(se.lon, p.lon)))
  }

  /** The bounds after the points, in order. */
  function Box(points: seq<Point>): Option<Bounds> {
    if points == [] then None else Some(Extend(Box(points[..|points| - 1]), points[|points| - 1]))
  }

  /** The box is the northernmost and southernmost latitude and the
      westernmost and easternmost longitude, each reached by some point. */
  lemma {:induction false} BoxBounds(points: seq<Point>)
    ensures Box(points).None? <==> points == []
    ensures Box(points).Some? ==> var b := Box(points).value;
      && (forall i :: 0 <= i < |points| ==> b.se.lat <= points[i].lat <= b.nw.lat && b.nw.lon <= points[i].lon <= b.se.lon)
      && (exists i :: 0 <= i < |points| && points[i].lat == b.nw.lat)
      && (exists i :: 0 <= i < |points| && points[i].lon == b.nw.lon)
      && (exists i :: 0 <= i < |points| && points[i].lat == b.se.lat)
      && (exists i :: 0 <= i < |points| && points[i].lon == b.se.lon)
  {
    if points != [] {
      var init := points[..|points| - 1];
      var last := |points| - 1;
      BoxBounds(init);
      if init != [] {
        var b := Box(init).value;
        var b' := Box(points).value;
        if b'.nw.lat != points[last].lat {
          var i :| 0 <= i < |init| && init[i].lat == b.nw.lat;
          assert points[i].lat == b'.nw.lat;
        }
        if b'.nw.lon != points[last].lon {
          var i :| 0 <= i < |init| && init[i].lon == b.nw.lon;
          assert points[i].lon == b'.nw.lon;
        }
        if b'.se.lat != points[last].lat {
          var i :| 0 <= i < |init| && init[i].lat == b.se.lat;
          assert points[i].lat == b'.se.lat;
        }
        if b'.se.lon != points[last].lon {
          var i :| 0 <= i < |init| && init[i].lon == b.se.lon;
          assert points[i].lon == b'.se.lon;
        }
        forall i | 0 <= i < |points|
          ensures b'.se.lat <= points[i].lat <= b'.nw.lat && b'.nw.lon <= points[i].lon <= b'.se.lon
        {
          if i < last {
            assert points[i] == init[i];
          }
        }
      }
    }
  }

  /** The bounds loop of gen_map and gen_weighted over every point of every path. */
  method BoundingBox(paths: seq<Path>) returns (b: Option<Bounds>)
    ensures b == Box(Flatten(paths))
  {
    b := None;
    for i := 0 to |paths|
      invariant b == Box(Flatten(paths[..i]))
    {
      var points := paths[i].points;
      assert Flatten(paths[..i]) + points[..0] == Flatten(paths[..i]);
      for j := 0 to |points|
        invariant b == Box(Flatten(paths[..i]) + points[..j])
      {
        assert (Flatten(paths[..i]) + points[..j + 1])[..|Flatten(paths[..i]) + points[..j]|] == Flatten(paths[..i]) + points[..j];
        b := Some(Extend(b, points[j]));
      }
      assert points[..|points|] == points;
      FlattenStep(paths, i);
    }
    assert paths[..|paths|] == paths;
  }

  /** What gen_map computes before drawing: nothing but "Empty input!" on
      stderr for no points; otherwise the tiles, and the map's corners
      moved to the outer edges of the first and the last tile. */
  datatype Frame = Frame(tiles: seq<Tile>, nw: LatLon, se: LatLon)

  method MapFrame(paths: seq<Path>, tileY: TileYFn, nwLat: NwLatFn) returns (frame: Option<Frame>)
    ensures frame.None? <==> Flatten(paths) == []
    ensures frame.Some? ==>
      var b := Box(Flatten(paths)).value;
      var iz := IndexZoom(b.nw, b.se, tileY, nwLat);
      var z := ChosenZoom(b.nw, b.se, tileY, nwLat);
      var tx, ty := TileX(b.nw.lon, iz), tileY(b.nw.lat, iz);
      && frame.value.tiles == Grid(z, tx, ty)
      && frame.value.nw == TileCorner(tx, ty, z, nwLat)
      && frame.value.se == TileCorner(tx + 4, ty + 4, z, nwLat)
  {
    var box := BoundingBox(paths);
    BoxBounds(Flatten(paths));
    if box.None? {
      return None;
    }
    var tiles := OsmGetTiles(box.value.nw, box.value.se, tileY, nwLat);
    ghost var iz := IndexZoom(box.value.nw, box.value.se, tileY, nwLat);
    ghost var z := ChosenZoom(box.value.nw, box.value.se, tileY, nwLat);
    ghost var tx, ty := TileX(box.value.nw.lon, iz), tileY(box.value.nw.lat, iz);
    GridCorners(z, tx, ty, nwLat);
    var first, last := tiles[0], tiles[|tiles| - 1];
    var nw := TileCorner(first.tileX, first.tileY, first.zoom, nwLat);
    var se := TileCorner(last.tileX + 1, last.tileY + 1, last.zoom, nwLat);
    assert nw == TileCorner(tx, ty, z, nwLat) && se == TileCorner(tx + 4, ty + 4, z, nwLat);
    return Some(Frame(tiles, nw, se));
  }

  /** When a zoom covers the input, the frame contains every point: the
      corners lie outside the box on all four sides for the longitudes,
      and south of it for the south edge. */
  lemma FrameContainsBox(paths: seq<Path>, tileY: TileYFn, nwLat: NwLatFn)
    requires Flatten(paths) != []
    requires var b := Box(Flatten(paths)).value; -180.0 <= b.nw.lon < 180.0
    requires var b := Box(Flatten(paths)).value; ChosenZoom(b.nw, b.se, tileY, nwLat) >= 1
    ensures var b := Box(Flatten(paths)).value;
      var z := ChosenZoom(b.nw, b.se, tileY, nwLat);
      var tx, ty := TileX(b.nw.lon, z), tileY(b.nw.lat, z);
      && TileCorner(tx, ty, z, nwLat).lon <= b.nw.lon
      && TileCorner(tx + 4, ty + 4, z, nwLat).lon >= b.se.lon
      && TileCorner(tx + 4, ty + 4, z, nwLat).lat <= b.se.lat
  {
    var b := Box(Flatten(paths)).value;
    ChosenGridCorners(b.nw, b.se, tileY, nwLat);
  }

  /** The corners of the grid at the chosen zoom, for any two corners of a
      map. */
  lemma ChosenGridCorners(nw: LatLon, se: LatLon, tileY: TileYFn, nwLat: NwLatFn)
    requires -180.0 <= nw.lon < 180.0
    requires ChosenZoom(nw, se, tileY, nwLat) >= 1
    ensures var z := ChosenZoom(nw, se, tileY, nwLat);
      var tx, ty := TileX(nw.lon, z), tileY(nw.lat, z);
      && TileCorner(tx, ty, z, nwLat).lon <= nw.lon
      && TileCorner(tx + 4, ty + 4, z, nwLat).lon >= se.lon
      && TileCorner(tx + 4, ty + 4, z, nwLat).lat <= se.lat
  {
    var z := ChosenZoom(nw, se, tileY, nwLat);
    SearchZoomLargest(nw, se, 18, tileY, nwLat);
    assert Covers(nw, se, z, tileY, nwLat);
    TileBracket(nw.lon, z);
  }

  // ---------------------------------------------------------------------
  // Weights

  /** A projected point: latlon2xy gives (lon, mercator y). */
  type XY = (real, real)

  /** The dict key of a segment. */
  type Segment = (real, real, real, real)

  /** latlon2xy: x is the longitude itself, y comes from the abstract
      mercator formula. */
  function Project(points: seq<Point>, mercY: real -> real): (r: seq<XY>)
    ensures |r| == |points|
  {
    seq(|points|, i requires 0 <= i < |points| => (points[i].lon, mercY(points[i].lat)))
  }

  /** izip(svg_path, svg_path[1:]) as segment keys. */
  function Pairs(s: seq<XY>): (r: seq<Segment>)
    ensures |r| == if s == [] then 0 else |s| - 1
  {
    seq(if s == [] then 0 else |s| - 1, i requires 0 <= i < |s| - 1 => (s[i].0, s[i].1, s[i + 1].0, s[i + 1].1))
  }

  /** Every projected point of every path, in order. */
  function AllXY(paths: seq<Path>, mercY: real -> real): seq<XY> {
    if paths == [] then [] else AllXY(paths[..|paths| - 1], mercY) + Project(paths[|paths| - 1].points, mercY)
  }

  /** Every consecutive pair within each path, path by path; no pair spans two paths. */
  function AllPairs(paths: seq<Path>, mercY: real -> real): seq<Segment> {
    if paths == [] then [] else AllPairs(paths[..|paths| - 1], mercY) + Pairs(Project(paths[|paths| - 1].points, mercY))
  }

  /** defaultdict(int)[k] */
  function Weight<K>(counts: map<K, nat>, k: K): nat {
    if k in counts then counts[k] else 0
  }

  /** counts[k] += 1 on a defaultdict(int). */
  function Bump<K>(counts: map<K, nat>, k: K): map<K, nat> {
    counts[k := Weight(counts, k) + 1]
  }

  /** The dict after counting the keys in order. */
  function Counts<K>(keys: seq<K>): map<K, nat> {
    if keys == [] then map[] else Bump(Counts(keys[..|keys| - 1]), keys[|keys| - 1])
  }

  /** A counted key's weight is its number of occurrences; exactly the keys
      that occur are in the dict. */
  lemma {:induction false} CountsOccurrences<K>(keys: seq<K>, k: K)
    ensures Weight(Counts(keys), k) == multiset(keys)[k]
    ensures k in Counts(keys) <==> k in keys
  {
    if keys != [] {
      var init := keys[..|keys| - 1];
      CountsOccurrences(init, k);
      assert keys == init + [keys[|keys| - 1]];
    }
  }

  /** counts[k] += 1 for each key in order. */
  method CountKeys<K>(counts: map<K, nat>, keys: seq<K>, ghost done: seq<K>) returns (counts': map<K, nat>)
    requires counts == Counts(done)
    ensures counts' == Counts(done + keys)
  {
    counts' := counts;
    assert done + keys[..0] == done;
    for k := 0 to |keys|
      invariant counts' == Counts(done + keys[..k])
    {
      ghost var before := done + keys[..k];
      assert (before + [keys[k]])[..|before|] == before;
      assert done + keys[..k + 1] == before + [keys[k]];
      counts' := Bump(counts', keys[k]);
    }
    assert keys[..|keys|] == keys;
  }

  /** The inner loop of gen_weighted over one path: its projected points,
      each counted when points are drawn. */
  method ProjectPath(ps: seq<Point>, mercY: real -> real, counts: map<XY, nat>, ghost done: seq<XY>, count: bool)
    returns (svgPath: seq<XY>, counts': map<XY, nat>)
    requires count ==> counts == Counts(done)
    ensures svgPath == Project(ps, mercY)
    ensures count ==> counts' == Counts(done + svgPath)
    ensures !count ==> counts' == counts
  {
    svgPath, counts' := [], counts;
    assert done + svgPath == done;
    for j := 0 to |ps|
      invariant svgPath == Project(ps[..j], mercY)
      invariant count ==> counts' == Counts(done + svgPath)
      invariant !count ==> counts' == counts
    {
      var xy := (ps[j].lon, mercY(ps[j].lat));
      ghost var before := done + svgPath;
      assert (before + [xy])[..|before|] == before;
      svgPath := svgPath + [xy];
      assert done + svgPath == before + [xy];
      if count {
        counts' := Bump(counts', xy);
      }
    }
    assert ps[..|ps|] == ps;
  }

  /** The counting loop of gen_weighted: point weights when points are
      drawn, segment weights when paths are drawn, and the bounds. */
  method WeighPaths(paths: seq<Path>, mercY: real -> real, outputPath: bool, outputPoints: bool)
    returns (box: Option<Bounds>, segments: map<Segment, nat>, points: map<XY, nat>)
    ensures box == Box(Flatten(paths))
    ensures segments == if outputPath then Counts(AllPairs(paths, mercY)) else map[]
    ensures points == if outputPoints then Counts(AllXY(paths, mercY)) else map[]
  {
    box := BoundingBox(paths);
    segments, points := map[], map[];
    for i := 0 to |paths|
      invariant segments == if outputPath then Counts(AllPairs(paths[..i], mercY)) else map[]
      invariant points == if outputPoints then Counts(AllXY(paths[..i], mercY)) else map[]
    {
      assert paths[..i + 1][..i] == paths[..i];
      var svgPath;
      svgPath, points := ProjectPath(paths[i].points, mercY, points, AllXY(paths[..i], mercY), outputPoints);
      if outputPath {
        segments := CountKeys(segments, Pairs(svgPath), AllPairs(paths[..i], mercY));
      }
    }
    assert paths[..|paths|] == paths;
  }

  /** The colour of a path in gen_map: PATH_COLORS by transportation, black otherwise. */
  const PATH_COLORS: map<string, string> := map[
    "plane" := "rgb(200,0,0)", "train" := "rgb(0,0,0)", "bus" := "rgb(0,0,200)", "car" := "rgb(0,0,200)",
    "motorcycle" := "rgb(0,0,200)", "boat" := "rgb(100,100,100)", "bike" := "rgb(0,200,0)", "walk" := "rgb(0,200,0)"]

  function PathColour(transportation: Option<string>): (c: string)
    ensures transportation.None? ==> c == "rgb(0,0,0)"
    ensures transportation.Some? && transportation.value in PATH_COLORS ==> c == PATH_COLORS[transportation.value]
    ensures transportation.Some? && transportation.value !in PATH_COLORS ==> c == "rgb(0,0,0)"
  {
    if transportation.Some? && transportation.value in PATH_COLORS then PATH_COLORS[transportation.value] else "rgb(0,0,0)"
  }
}
