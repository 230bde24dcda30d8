/**
 * out_geojson_tiles.py: the points of every path are bucketed by slippy-map
 * tile and by path index; each (tile, path) fragment is projected,
 * simplified with a tolerance of one pixel at the fragment's mean latitude,
 * and becomes one GeoJSON LineString feature of (lon, lat) pairs.
 *
 * The Mercator y formula, the tile y formula and the cosine are parameters.
 * Writing one JSON file per tile is not modelled: a zoom level's output is
 * the map from tile key and path index to the feature's coordinates.
 */
module GeojsonTiles {
  import opened Track
  import opened Utils

  /** (zoom, tile_x, tile_y), the key of the tiles dictionary. */
  type TileKey = (nat, int, int)

  /** tiles: tile key -> path index -> the path's points in that tile. */
  type Tiles = map<TileKey, map<nat, seq<Point>>>

  /** A feature's coordinates: (lon, lat) pairs. */
  type Coordinates = seq<(real, real)>

  // ---------------------------------------------------------------------
  // epsilon_for_zoom and decorate_path_with_xy

  /** epsilon_for_zoom: metres per pixel at the latitude, with cos of degrees as a parameter. */
  function EpsilonForZoom(zoom: nat, lat: real, cosDeg: real -> real): real {
    40075000.0 * cosDeg(lat) / Pow2(zoom + 8) as real
  }

  /** One zoom level more halves the tolerance. */
  lemma EpsilonHalves(zoom: nat, lat: real, cosDeg: real -> real)
    ensures EpsilonForZoom(zoom + 1, lat, cosDeg) * 2.0 == EpsilonForZoom(zoom, lat, cosDeg)
  {
    assert Pow2(zoom + 9) == 2 * Pow2(zoom + 8);
  }

  /** The tolerance has the sign of the cosine, so it is never negative on
      latitudes where the cosine is not. */
  lemma EpsilonSign(zoom: nat, lat: real, cosDeg: real -> real)
    ensures cosDeg(lat) >= 0.0 <==> EpsilonForZoom(zoom, lat, cosDeg) >= 0.0
  {
    var d := Pow2(zoom + 8) as real;
    assert EpsilonForZoom(zoom, lat, cosDeg) * d == 40075000.0 * cosDeg(lat);
  }

  /** The dict decorate_path_with_xy builds for one point. */
  function Decorate(p: Point, mercY: real -> real): (q: XYPoint)
    ensures q.lat == p.lat && q.lon == p.lon
  {
    XYPoint(p.lat, p.lon, LatLngToX(p.lon), mercY(p.lat))
  }

  function Decorated(path: seq<Point>, mercY: real -> real): seq<XYPoint> {
    seq(|path|, i requires 0 <= i < |path| => Decorate(path[i], mercY))
  }

  /** decorate_path_with_xy: same length, each point keeps its lat and lon
      and gains its projected x and y. */
  method DecoratePathWithXY(path: seq<Point>, mercY: real -> real) returns (decorated: seq<XYPoint>)
    ensures |decorated| == |path|
    ensures forall i :: 0 <= i < |path| ==>
      decorated[i].lat == path[i].lat && decorated[i].lon == path[i].lon
      && decorated[i].x == LatLngToX(path[i].lon) && decorated[i].y == mercY(path[i].lat)
  {
    decorated := [];
    for i := 0 to |path|
      invariant |decorated| == i
      invariant forall j :: 0 <= j < i ==> decorated[j] == Decorate(path[j], mercY)
    {
      decorated := decorated + [Decorate(path[i], mercY)];
    }
  }

  // ---------------------------------------------------------------------
  // Bucketing

  /** The key under which gen_for_zoom files a point. */
  function Key(p: Point, zoom: nat, tileY: TileYFn): TileKey {
    var (x, y) := TileXY(p.lat, p.lon, zoom, tileY);
    (zoom, x, y)
  }

  /** The points of a list that fall in the tile key, in order. */
  function InTile(points: seq<Point>, key: TileKey, tileY: TileYFn): seq<Point> {
    if points == [] then []
    else
      var p := points[|points| - 1];
      InTile(points[..|points| - 1], key, tileY) + (if Key(p, key.0, tileY) == key then [p] else [])
  }

  /** tiles[key][i], or [] where the defaultdict has no entry. */
  function Frag(t: Tiles, key: TileKey, i: nat): seq<Point> {
    if key in t && i in t[key] then t[key][i] else []
  }

  /** Every entry of the dictionary holds at least one point. */
  predicate NonEmpty(t: Tiles) {
    forall key, i :: key in t && i in t[key] ==> t[key][i] != []
  }

  /** tiles[key][i].append(p). */
  function AddPoint(t: Tiles, key: TileKey, i: nat, p: Point): (r: Tiles)
    ensures Frag(r, key, i) == Frag(t, key, i) + [p]
    ensures forall k, j :: k != key || j != i ==> Frag(r, k, j) == Frag(t, k, j)
    ensures NonEmpty(t) ==> NonEmpty(r)
  {
    var inner := if key in t then t[key] else map[];
    t[key := inner[i := Frag(t, key, i) + [p]]]
  }

  /** The points of path i filed one after the other. */
  function FilePath(t: Tiles, i: nat, points: seq<Point>, zoom: nat, tileY: TileYFn): Tiles {
    if points == [] then t
    else
      var p := points[|points| - 1];
      AddPoint(FilePath(t, i, points[..|points| - 1], zoom, tileY), Key(p, zoom, tileY), i, p)
  }

  /** The tiles dictionary after the first loop of gen_for_zoom. */
  function Buckets(paths: seq<Path>, zoom: nat, tileY: TileYFn): Tiles {
    if paths == [] then map[]
    else
      var i := |paths| - 1;
      FilePath(Buckets(paths[..i], zoom, tileY), i, paths[i].points, zoom, tileY)
  }

  lemma {:induction false} FilePathFrag(t: Tiles, i: nat, points: seq<Point>, zoom: nat, tileY: TileYFn, key: TileKey, j: nat)
    requires key.0 == zoom
    ensures Frag(FilePath(t, i, points, zoom, tileY), key, j)
      == Frag(t, key, j) + (if j == i then InTile(points, key, tileY) else [])
  {
    if points != [] {
      FilePathFrag(t, i, points[..|points| - 1], zoom, tileY, key, j);
    }
  }

  lemma {:induction false} FilePathNonEmpty(t: Tiles, i: nat, points: seq<Point>, zoom: nat, tileY: TileYFn)
    requires NonEmpty(t)
    ensures NonEmpty(FilePath(t, i, points, zoom, tileY))
  {
    if points != [] {
      FilePathNonEmpty(t, i, points[..|points| - 1], zoom, tileY);
    }
  }

  /** Every point of path i lands under key i in the bucket of its own tile,
      in scan order; separate visits to a tile are concatenated. Nothing is
      filed under another zoom or under an index without a path. */
  lemma {:induction false} BucketsFrag(paths: seq<Path>, zoom: nat, tileY: TileYFn, key: TileKey, j: nat)
    ensures Frag(Buckets(paths, zoom, tileY), key, j)
      == if key.0 == zoom && j < |paths| then InTile(paths[j].points, key, tileY) else []
  {
    if paths != [] {
      var i := |paths| - 1;
      BucketsFrag(paths[..i], zoom, tileY, key, j);
      if key.0 == zoom {
        FilePathFrag(Buckets(paths[..i], zoom, tileY), i, paths[i].points, zoom, tileY, key, j);
      } else {
        BucketsZoom(paths, zoom, tileY, key, j);
      }
    }
  }

  lemma {:induction false} BucketsZoom(paths: seq<Path>, zoom: nat, tileY: TileYFn, key: TileKey, j: nat)
    requires key.0 != zoom
    ensures Frag(Buckets(paths, zoom, tileY), key, j) == []
  {
    if paths != [] {
      var i := |paths| - 1;
      BucketsZoom(paths[..i], zoom, tileY, key, j);
      FilePathZoom(Buckets(paths[..i], zoom, tileY), i, paths[i].points, zoom, tileY, key, j);
    }
  }

  lemma {:induction false} FilePathZoom(t: Tiles, i: nat, points: seq<Point>, zoom: nat, tileY: TileYFn, key: TileKey, j: nat)
    requires key.0 != zoom
    ensures Frag(FilePath(t, i, points, zoom, tileY), key, j) == Frag(t, key, j)
  {
    if points != [] {
      FilePathZoom(t, i, points[..|points| - 1], zoom, tileY, key, j);
    }
  }

  /** Every fragment holds at least one point, so avg_lat never divides by zero. */
  lemma {:induction false} BucketsNonEmpty(paths: seq<Path>, zoom: nat, tileY: TileYFn)
    ensures NonEmpty(Buckets(paths, zoom, tileY))
  {
    if paths != [] {
      var i := |paths| - 1;
      BucketsNonEmpty(paths[..i], zoom, tileY);
      FilePathNonEmpty(Buckets(paths[..i], zoom, tileY), i, paths[i].points, zoom, tileY);
    }
  }

  /** A tile's share of a list holds each point as often as the list does
      when the point belongs to that tile, and not at all otherwise. */
  lemma {:induction false} InTileCount(points: seq<Point>, key: TileKey, tileY: TileYFn, p: Point)
    ensures multiset(InTile(points, key, tileY))[p] == if Key(p, key.0, tileY) == key then multiset(points)[p] else 0
  {
    if points != [] {
      var init := points[..|points| - 1];
      assert points == init + [points[|points| - 1]];
      InTileCount(init, key, tileY, p);
    }
  }

  /** For every zoom the buckets hold each input point exactly once: the
      bucket of its own tile under its path's index holds it as often as the
      path does, and no other tile's bucket under that index holds it. */
  lemma BucketsPartition(paths: seq<Path>, zoom: nat, tileY: TileYFn, j: nat, p: Point)
    requires j < |paths|
    ensures multiset(Frag(Buckets(paths, zoom, tileY), Key(p, zoom, tileY), j))[p] == multiset(paths[j].points)[p]
    ensures forall key :: key != Key(p, zoom, tileY) ==> p !in Frag(Buckets(paths, zoom, tileY), key, j)
  {
    BucketsFrag(paths, zoom, tileY, Key(p, zoom, tileY), j);
    InTileCount(paths[j].points, Key(p, zoom, tileY), tileY, p);
    forall key | key != Key(p, zoom, tileY)
      ensures p !in Frag(Buckets(paths, zoom, tileY), key, j)
    {
      BucketsFrag(paths, zoom, tileY, key, j);
      if key.0 == zoom {
        InTileCount(paths[j].points, key, tileY, p);
      }
    }
  }

  lemma FilePathStep(t: Tiles, i: nat, points: seq<Point>, j: nat, zoom: nat, tileY: TileYFn)
    requires j < |points|
    ensures FilePath(t, i, points[..j + 1], zoom, tileY)
      == AddPoint(FilePath(t, i, points[..j], zoom, tileY), Key(points[j], zoom, tileY), i, points[j])
  {
    assert points[..j + 1][..j] == points[..j];
  }

  lemma BucketsStep(paths: seq<Path>, i: nat, zoom: nat, tileY: TileYFn)
    requires i < |paths|
    ensures Buckets(paths[..i + 1], zoom, tileY) == FilePath(Buckets(paths[..i], zoom, tileY), i, paths[i].points, zoom, tileY)
  {
    assert paths[..i + 1][..i] == paths[..i];
  }

  /** The first loop of gen_for_zoom. */
  method BucketPoints(paths: seq<Path>, zoom: nat, tileY: TileYFn) returns (tiles: Tiles)
    ensures tiles == Buckets(paths, zoom, tileY)
  {
    tiles := map[];
    for i := 0 to |paths|
      invariant tiles == Buckets(paths[..i], zoom, tileY)
    {
      ghost var start := tiles;
      var points := paths[i].points;
      for j := 0 to |points|
        invariant tiles == FilePath(start, i, points[..j], zoom, tileY)
      {
        var p := points[j];
        FilePathStep(start, i, points, j, zoom, tileY);
        var (x, y) := TileXY(p.lat, p.lon, zoom, tileY);
        var key := (zoom, x, y);
        var inner := if key in tiles then tiles[key] else map[];
        var fragment := if i in inner then inner[i] else [];
        tiles := tiles[key := inner[i := fragment + [p]]];
      }
      assert points[..|points|] == points;
      BucketsStep(paths, i, zoom, tileY);
    }
    assert paths[..|paths|] == paths;
  }

  // ---------------------------------------------------------------------
  // Features

  /** The feature of one fragment: decorated, simplified with the tolerance
      at its mean latitude, and written as (lon, lat) pairs. An empty
      fragment would divide by zero in avg_lat. */
  function FeatureOf(fragment: seq<Point>, zoom: nat, mercY: real -> real, cosDeg: real -> real, root: Root): Result<Coordinates> {
    if fragment == [] then Err(ZeroDivisionError)
    else
      var epsilon := EpsilonForZoom(zoom, Mean(Lats(fragment)), cosDeg);
      match Rdp(Decorated(fragment, mercY), epsilon, root)
      case Err(e) => Err(e)
      case Ok(s) => Ok(seq(|s|, j requires 0 <= j < |s| => (s[j].lon, s[j].lat)))
  }

  /** The (lon, lat) pairs of the fragment's own points. */
  function LonLats(points: seq<Point>): seq<(real, real)> {
    seq(|points|, j requires 0 <= j < |points| => (points[j].lon, points[j].lat))
  }

  /** A feature lists, longitude first, an order-preserving selection of its
      fragment's points that keeps the first and the last. */
  lemma FeatureFollowsFragment(fragment: seq<Point>, zoom: nat, mercY: real -> real, cosDeg: real -> real, root: Root)
    returns (idx: seq<nat>)
    requires FeatureOf(fragment, zoom, mercY, cosDeg, root).Ok?
    ensures AnchoredAt(FeatureOf(fragment, zoom, mercY, cosDeg, root).value, LonLats(fragment), idx)
  {
    var decorated := Decorated(fragment, mercY);
    var epsilon := EpsilonForZoom(zoom, Mean(Lats(fragment)), cosDeg);
    idx := RdpSubsequence(decorated, epsilon, root);
    var s := Rdp(decorated, epsilon, root).value;
    var coords := FeatureOf(fragment, zoom, mercY, cosDeg, root).value;
    forall j | 0 <= j < |idx| ensures coords[j] == LonLats(fragment)[idx[j]] {
      assert s[j] == decorated[idx[j]];
    }
  }

  /** A feature exists for the fragment whenever the cosine at its mean
      latitude is not negative. */
  lemma FeatureTotal(fragment: seq<Point>, zoom: nat, mercY: real -> real, cosDeg: real -> real, root: Root)
    requires fragment != []
    requires cosDeg(Mean(Lats(fragment))) >= 0.0
    ensures FeatureOf(fragment, zoom, mercY, cosDeg, root).Ok?
  {
    var epsilon := EpsilonForZoom(zoom, Mean(Lats(fragment)), cosDeg);
    EpsilonSign(zoom, Mean(Lats(fragment)), cosDeg);
    RdpTotal(Decorated(fragment, mercY), epsilon, root);
  }

  /** The output of gen_for_zoom: exactly one feature per (tile, path) pair. */
  predicate IsZoomOutput(t: Tiles, out: map<TileKey, map<nat, Coordinates>>, zoom: nat, mercY: real -> real, cosDeg: real -> real, root: Root) {
    && out.Keys == t.Keys
    && forall key :: key in t ==> (out[key].Keys == t[key].Keys
      && forall i :: i in t[key] ==> FeatureOf(t[key][i], zoom, mercY, cosDeg, root) == Ok(out[key][i]))
  }

  /** Some fragment fails to simplify. */
  predicate ZoomFails(t: Tiles, zoom: nat, mercY: real -> real, cosDeg: real -> real, root: Root) {
    exists key, i :: key in t && i in t[key] && FeatureOf(t[key][i], zoom, mercY, cosDeg, root).Err?
  }

  /** The features of one tile, path by path (dictionary order does not matter). */
  method TileFeatures(fragments: map<nat, seq<Point>>, zoom: nat, mercY: real -> real, cosDeg: real -> real, root: Root)
    returns (r: Result<map<nat, Coordinates>>)
    ensures r.Err? <==> exists i :: i in fragments && FeatureOf(fragments[i], zoom, mercY, cosDeg, root).Err?
    ensures r.Ok? ==> (r.value.Keys == fragments.Keys
      && forall i :: i in fragments ==> FeatureOf(fragments[i], zoom, mercY, cosDeg, root) == Ok(r.value[i]))
  {
    var features: map<nat, Coordinates> := map[];
    var todo := fragments.Keys;
    while todo != {}
      invariant todo <= fragments.Keys
      invariant features.Keys == fragments.Keys - todo
      invariant forall i :: i in features ==> FeatureOf(fragments[i], zoom, mercY, cosDeg, root) == Ok(features[i])
      decreases |todo|
    {
      var i :| i in todo;
      var path := DecoratePathWithXY(fragments[i], mercY);
      if |path| == 0 {
        return Err(ZeroDivisionError);
      }
      assert path == Decorated(fragments[i], mercY);
      var epsilon := EpsilonForZoom(zoom, Mean(Lats(fragments[i])), cosDeg);
      var simplified := Simplify(path, epsilon, root);
      if simplified.Err? {
        return Err(simplified.error);
      }
      var s := simplified.value;
      features := features[i := seq(|s|, j requires 0 <= j < |s| => (s[j].lon, s[j].lat))];
      todo := todo - {i};
    }
    return Ok(features);
  }

  /** gen_for_zoom: bucket the points, then build every tile's features. */
  method GenForZoom(paths: seq<Path>, zoom: nat, tileY: TileYFn, mercY: real -> real, cosDeg: real -> real, root: Root)
    returns (r: Result<map<TileKey, map<nat, Coordinates>>>)
    ensures r.Err? <==> FailsAt(paths, zoom, tileY, mercY, cosDeg, root)
    ensures r.Ok? ==> OutputAt(paths, zoom, r.value, tileY, mercY, cosDeg, root)
  {
    var tiles := BucketPoints(paths, zoom, tileY);
    var out: map<TileKey, map<nat, Coordinates>> := map[];
    var todo := tiles.Keys;
    while todo != {}
      invariant todo <= tiles.Keys
      invariant out.Keys == tiles.Keys - todo
      invariant forall key :: key in out ==> (out[key].Keys == tiles[key].Keys
        && forall i :: i in tiles[key] ==> FeatureOf(tiles[key][i], zoom, mercY, cosDeg, root) == Ok(out[key][i]))
      decreases |todo|
    {
      var key :| key in todo;
      var features := TileFeatures(tiles[key], zoom, mercY, cosDeg, root);
      if features.Err? {
        return Err(features.error);
      }
      out := out[key := features.value];
      todo := todo - {key};
    }
    return Ok(out);
  }

  /** gen_for_zoom's output for the zoom level. */
  predicate OutputAt(paths: seq<Path>, zoom: nat, out: map<TileKey, map<nat, Coordinates>>, tileY: TileYFn, mercY: real -> real, cosDeg: real -> real, root: Root) {
    IsZoomOutput(Buckets(paths, zoom, tileY), out, zoom, mercY, cosDeg, root)
  }

  /** gen_for_zoom fails at the zoom level. */
  predicate FailsAt(paths: seq<Path>, zoom: nat, tileY: TileYFn, mercY: real -> real, cosDeg: real -> real, root: Root) {
    ZoomFails(Buckets(paths, zoom, tileY), zoom, mercY, cosDeg, root)
  }

  /** gen: every zoom from min_zoom to max_zoom, once each and in increasing
      order; the first zoom that fails stops the run. */
  method Gen(paths: seq<Path>, minZoom: nat, maxZoom: int, tileY: TileYFn, mercY: real -> real, cosDeg: real -> real, root: Root)
    returns (r: Result<seq<map<TileKey, map<nat, Coordinates>>>>)
    ensures r.Ok? ==> |r.value| == if maxZoom < minZoom then 0 else maxZoom - minZoom + 1
    ensures r.Ok? ==> forall j :: 0 <= j < |r.value| ==>
      OutputAt(paths, minZoom + j, r.value[j], tileY, mercY, cosDeg, root)
    ensures r.Err? <==> exists zoom: nat :: minZoom <= zoom <= maxZoom && FailsAt(paths, zoom, tileY, mercY, cosDeg, root)
  {
    var outputs: seq<map<TileKey, map<nat, Coordinates>>> := [];
    var zoom := minZoom;
    while zoom <= maxZoom
      invariant minZoom <= zoom && |outputs| == zoom - minZoom
      invariant zoom <= if maxZoom < minZoom then minZoom else maxZoom + 1
      invariant forall j :: 0 <= j < |outputs| ==>
        OutputAt(paths, minZoom + j, outputs[j], tileY, mercY, cosDeg, root)
      invariant forall z: nat :: minZoom <= z < zoom ==> !FailsAt(paths, z, tileY, mercY, cosDeg, root)
      decreases maxZoom - zoom
    {
      var out := GenForZoom(paths, zoom, tileY, mercY, cosDeg, root);
      if out.Err? {
        return Err(out.error);
      }
      outputs := outputs + [out.value];
      zoom := zoom + 1;
    }
    return Ok(outputs);
  }
}
