# glot, modelled in Dafny

glot is a GPS track tool: it reads tracks from GPX, KML and Columbus CSV files,
filters and simplifies them, and writes them out as SVG maps, GeoJSON tiles,
KML, WKT or a statistics summary. This project models the track-handling core
of glot in Dafny and proves what that core promises about its data.

A track is a list of paths, each a list of points (`Track.Point`: latitude,
longitude, and an optional elevation, time and name). The modules follow the
source files:

- `Track` (track.dfy) and `Text` (text.dfy) are shared. They hold the point and
  path records, Python's exceptions as `Result`/`Outcome` values, Python's `int()`
  of a float and Python 2 integer division, and `str.strip`, `str.split`,
  `str.join` and `str.replace` on one character.
- `Utils` (utils.py) holds Ramer–Douglas–Peucker simplification, the
  perpendicular distance, `parse_latlon`, and the x part of the tile and
  Mercator arithmetic.
- `Filters` (filters.py) holds the stride filter and the name-match clusterer,
  as in-place methods over an array of paths.
- `GeojsonTiles` (out_geojson_tiles.py) holds tile bucketing, per-fragment
  simplification and the zoom range.
- `Gpx` (in_gpx.py), `KmlIn` (in_kml.py) and `GpxView` (gpxview.py) hold the SAX
  handlers. Each is a class whose callbacks update its fields, proved against a
  step function over an abstract list of parser events.
- `Columbus` (in_columbus.py) is the CSV line loop.
- `Stats` (out_stats.py) is the accumulator loop of `gen_path_stats` and the
  report derived from it.
- `Svg` (out_svg.py) holds `minmax`, `absolute`, the tile grid and zoom search,
  the bounding box, and the weight counters.
- `Wkt` (out_wkt.py) and `KmlOut` (out_kml.py) are the serialisers. Each is a
  method that appends to an output string, proved equal to a document
  function.

gpxview.py repeats several functions of the other files:

- Its `find_nearby_point`, `find_closest_point`, `skip_filter` and
  `name_match_filter` (gpxview.py:47-61, 108-154) are the ones in `Filters`.
- Its `minmax` and `absolute` (gpxview.py:38-45, 159-160) are `Svg.MinMax` and
  `Svg.Absolute`.

Everything transcendental or foreign is a parameter of the operation that uses
it:

- the distance (`Filters.Dist`);
- the Mercator y (`mercY`), the tile-row formula (`TileYFn`), a tile row's
  latitude (`NwLatFn`), the cosine of degrees (`cosDeg`), and square roots
  (`Root`, `sqrt`);
- `float()`, `int()` and `datetime.strptime`, as partial functions returning
  `Option` (`Gpx.ParseFloat`, `Columbus.ParseInt`, `Gpx.StrpTime`);
- `strftime`, and the `%s` text of a float or an int (`show`, `showInt`).

Times are whole microseconds (`Track.Instant`). Output written to a stream is
collected in a string.

## Model

| member | source | states |
|---|---|---|
| `Track.Trunc` | utils.py:68 | int() of a float truncates toward zero: within 1 of the value, on the side of zero |
| `Track.FloorDiv` | out_svg.py:21 | Python 2 `/` on ints rounds toward minus infinity: q·b ≤ a < q·b + b for b > 0 |
| `Track.Mean` | filters.py:5-6 | avg: the mean times the length is the sum |
| `Track.MeanBounds` | filters.py:5-6 | the mean of a list lies between any lower and upper bound of its elements |
| `Text.Strip` | in_gpx.py:38 | unicode.strip() of SAX character data, with whitespace as Python 2.7's unicode.isspace() defines it: an infix of the text with only whitespace cut at both ends, not starting or ending with whitespace; empty exactly for all-whitespace text |
| `Text.StripIdempotent` | in_kml.py:26-30 | stripping again (content.strip().strip()) changes nothing |
| `Text.Split` | in_kml.py:30 | str.split(c): at least one piece, no piece holds c, and joining the pieces with c gives the text back |
| `Text.SplitJoin` | in_kml.py:30 | splitting a join of separator-free pieces gives the pieces back |
| `Text.JoinAppend` | out_wkt.py:12-13 | joining two lists is joining each with one separator between |
| `Text.Remove` | in_columbus.py:10 | replace("\x00", ""): no NUL is left, every other character keeps its count |
| `Utils.TileXInRange` | utils.py:65-70 | for lon in [-180, 180) the tile column lies in [0, 2^zoom) |
| `Utils.LatLngToX` | utils.py:73-74 | x lies within ±ORIGIN_SHIFT for lon in [-180, 180], and is 0 exactly at lon 0 |
| `Utils.LatLngToXMonotonic` | utils.py:73-74 | x keeps the order of longitudes |
| `Utils.DecimalValue` | utils.py:111-115 | the digits.digits text LATLON_RE matches reads as a non-negative number |
| `Utils.MatchLatLon` | utils.py:103 | a match is a decimal and a compass letter, with an optional final newline that `$` admits |
| `Utils.MatchLatLonComplete` | utils.py:103 | every decimal followed by N, S, E or W matches, with or without a final newline |
| `Utils.ParseLatLon` | utils.py:105-115 | float(value) when it reads; otherwise the matched decimal, negated for S and W; otherwise None |
| `Utils.ParseLatLonCompass` | utils.py:109-115 | a compass-suffixed decimal that float() rejects reads as +value for N/E and -value for S/W |
| `Utils.ParseLatLonExample` | utils.py:105-115 | "12.5S" reads as -12.5 |
| `Utils.PerpendicularDistance` | utils.py:79-85 | the distance is non-negative, and is the horizontal offset when the chord is vertical |
| `Utils.ChordEndsOnChord` | utils.py:79-85 | both ends of the chord are at distance 0 from it |
| `Utils.Scan` | utils.py:91-97 | after path[1..k], the running maximum and the index where it was first reached; no index while every distance is 0 |
| `Utils.ScanMaximum` | utils.py:91-97 | the scan finds the largest distance at its first occurrence, and no index when every point lies on the chord |
| `Utils.SplitInside` | utils.py:93-99 | a split index is never the last point, so both recursive calls get shorter lists |
| `Utils.Rdp` | utils.py:87-101 | simplify's result is no longer than the input, and keeps at least two points of a path of two or more |
| `Utils.RdpShortUnchanged` | utils.py:89-90 | a path of fewer than 3 points comes back unchanged |
| `Utils.RdpTotal` | utils.py:91-99 | with epsilon ≥ 0 simplify never fails |
| `Utils.RdpNegativeEpsilonOnLine` | utils.py:91-99 | with epsilon < 0 and every point on the chord, index stays None and the slice raises TypeError |
| `Utils.RdpCollapses` | utils.py:98-101 | when no point is farther than epsilon, the result is exactly [path[0], path[-1]] |
| `Utils.RdpSplit` | utils.py:98-99 | beyond epsilon, the result is the left half without its last point followed by the right half |
| `Utils.JoinHalves` | utils.py:99 | two anchored subsequences of halves sharing the split point join into an anchored subsequence of the whole |
| `Utils.RdpSubsequence` | utils.py:98-101 | the output is an order-preserving subsequence of the input that keeps its first and last point |
| `Utils.RdpKeepsFarthest` | utils.py:93-99 | when some point is beyond epsilon, the farthest one is kept |
| `Utils.RdpNoSplit` | utils.py:98-101 | without a split: both ends when max_d ≤ epsilon, TypeError when max_d > epsilon with no index |
| `Utils.RdpHalves` | utils.py:98-99 | with a split at k: an error of either half is the result's, otherwise the two halves joined |
| `Utils.ScanIs` | utils.py:91-97 | the scan settles on index j with distance m when j is the first point at m, every point before is closer and none after is farther |
| `Utils.RejoinedScan` | utils.py:91-99 | rejoining the simplified halves around the split point gives a path whose scan settles on the split point again |
| `Utils.RdpIdempotent` | utils.py:87-101 | simplifying a simplified path with the same tolerance changes nothing |
| `Utils.FarthestPoint` | utils.py:91-97 | the scanning loop computes the maximum distance and its first index |
| `Utils.Simplify` | utils.py:87-101 | the recursive method computes exactly Rdp |
| `Filters.Nearby` | filters.py:8-12 | the first index within radius; None exactly when every point is farther |
| `Filters.FindNearbyPoint` | filters.py:8-12 | returns the first point within radius, or None |
| `Filters.Closest` | filters.py:14-22 | a minimum-distance index among the first n, the first one on ties; None only for n = 0 |
| `Filters.FindClosestPoint` | filters.py:14-22 | returns the closest point (the first on ties), None only for an empty list |
| `Filters.KeptIndicesSelect` | filters.py:27 | the kept indices increase and are exactly those with i == 0, i % skip == 0 or i == len-1 |
| `Filters.Stride` | filters.py:27-28 | the kept points are no more than the input and keep its first and last point |
| `Filters.StrideSubsequence` | filters.py:27-28 | the kept points are the input at exactly the indices keep(i) selects, in order |
| `Filters.StrideExample` | filters.py:27-28 | stride 3 on ten points keeps indices 0, 3, 6, 9 |
| `Filters.SkipFilter` | filters.py:24-30 | every path keeps the points keep(i) selects and nothing else changes; skip 0 raises ZeroDivisionError exactly when some path has two or more points, before any change |
| `Filters.WithName` | filters.py:54 | the points called n, no more than the input, each carrying the name n |
| `Filters.ByNameGroups` | filters.py:52-54 | all_points maps exactly the names that occur to their points, in scan order |
| `Filters.WithNameHas` | filters.py:54 | a point called n is among the points filed under n |
| `Filters.FlattenHas` | filters.py:52-53 | every point of every path is among the points scanned |
| `Filters.FlattenNamed` | filters.py:52-54 | every path point has a name exactly when every scanned point does |
| `Filters.FirstFit` | filters.py:33-37 | find_group picks the first group with a member within radius; None exactly when no group has one |
| `Filters.FirstFitFirst` | filters.py:33-37 | the first group with a near member is the one picked |
| `Filters.FindGroup` | filters.py:33-37 | the scan over the groups returns FirstFit's group |
| `Filters.MembersAppend` | filters.py:46 | appending a point to a group adds exactly that point to the groups' members |
| `Filters.Insert` | filters.py:42-46 | the point is appended to the group find_group picks and every other group is unchanged; when none fits, the old groups stay and [p] is added as the last group |
| `Filters.InsertMembers` | filters.py:42-46 | one step adds exactly the point to the members |
| `Filters.Grouped` | filters.py:39-47 | group_points' groups are never empty, and there is at least one for a non-empty input |
| `Filters.GroupedPartition` | filters.py:39-47 | the groups partition the input: their members are exactly the input points |
| `Filters.GroupedStep` | filters.py:41-46 | grouping one more point is one Insert |
| `Filters.GroupPoints` | filters.py:39-47 | the loop builds exactly Grouped |
| `Filters.Centroid` | filters.py:60 | a centroid's lat and lon are the means of its group's; it carries nothing else |
| `Filters.CentroidInside` | filters.py:60 | the centroid lies in the latitude and longitude range of its group |
| `Filters.Centroids` | filters.py:60 | one centroid per group |
| `Filters.Centres` | filters.py:58-60 | all_group_coords has exactly the names of all_points, each with at least one centroid |
| `Filters.Snap` | filters.py:64-66 | a point moves to its closest centroid of its own name; ele, time and name stay |
| `Filters.SnapAll` | filters.py:63-66 | snapping keeps the number of points |
| `Filters.CentresCover` | filters.py:62-64 | every point of every path finds centroids under its name |
| `Filters.Matched` | filters.py:49-68 | the filtered paths: same number of paths, each with its points snapped |
| `Filters.MatchedNearest` | filters.py:62-66 | every point moves to the centroid of one of its name's groups that is closest to it, computed before any point moved |
| `Filters.SnapToCentroid` | filters.py:64-66 | the new position is the centroid of some group and no other centroid is closer |
| `Filters.MatchedAt` | filters.py:62-66 | path i of the result is path i with every point snapped |
| `Filters.ByNameStep` | filters.py:54 | filing one more named point appends it under its name and changes no other name |
| `Filters.FlattenStep` | filters.py:52-53 | scanning one more path appends its points |
| `Filters.CollectPoints` | filters.py:53-54 | one path's points are filed under their names, or the lookup fails when one has no name |
| `Filters.CollectByName` | filters.py:50-54 | the all_points loop builds ByName of every point, or fails exactly when a point has no name |
| `Filters.GroupCentres` | filters.py:58-60 | the loop over names computes Centres |
| `Filters.SnapPoints` | filters.py:63-66 | the innermost loop moves each point to SnapAll's position |
| `Filters.NameMatchFilter` | filters.py:49-68 | KeyError before any change when a point has no name; otherwise the paths become Matched |
| `GeojsonTiles.EpsilonHalves` | out_geojson_tiles.py:8-10 | one zoom level more halves the tolerance |
| `GeojsonTiles.EpsilonSign` | out_geojson_tiles.py:8-10 | the tolerance is non-negative exactly when the cosine is |
| `GeojsonTiles.Decorate` | out_geojson_tiles.py:14-16 | a decorated point keeps its lat and lon |
| `GeojsonTiles.DecoratePathWithXY` | out_geojson_tiles.py:12-17 | same length; each point keeps lat and lon and gains its projected x and y |
| `GeojsonTiles.AddPoint` | out_geojson_tiles.py:24 | append adds the point to one bucket fragment, touches no other, and keeps every fragment non-empty |
| `GeojsonTiles.FilePathFrag` | out_geojson_tiles.py:22-24 | filing a path appends to each fragment exactly that path's points in that tile, in order |
| `GeojsonTiles.FilePathNonEmpty` | out_geojson_tiles.py:22-24 | filing keeps every fragment non-empty |
| `GeojsonTiles.FilePathZoom` | out_geojson_tiles.py:22-24 | filing at one zoom changes no fragment of another zoom |
| `GeojsonTiles.FilePathStep` | out_geojson_tiles.py:22-24 | filing one more point is one append |
| `GeojsonTiles.BucketsFrag` | out_geojson_tiles.py:21-24 | each point of path i lands under key i in its own tile's bucket, in scan order, revisits concatenated |
| `GeojsonTiles.BucketsZoom` | out_geojson_tiles.py:21-24 | nothing is filed under another zoom |
| `GeojsonTiles.InTileCount` | out_geojson_tiles.py:22-24 | a tile's share of a path holds each point of that tile as often as the path does, and no point of another tile |
| `GeojsonTiles.BucketsPartition` | out_geojson_tiles.py:20-24 | at every zoom each input point is filed exactly once: its own tile's bucket under its path's index holds it as often as the path does, no other tile's bucket holds it |
| `GeojsonTiles.BucketsNonEmpty` | out_geojson_tiles.py:21-24 | every fragment holds a point, so avg_lat never divides by zero |
| `GeojsonTiles.BucketsStep` | out_geojson_tiles.py:21-24 | bucketing one more path files its points |
| `GeojsonTiles.BucketPoints` | out_geojson_tiles.py:20-24 | the first loop builds exactly Buckets |
| `GeojsonTiles.FeatureFollowsFragment` | out_geojson_tiles.py:28-32 | a feature lists (lon, lat) of an order-preserving selection of its fragment that keeps the first and last point |
| `GeojsonTiles.FeatureTotal` | out_geojson_tiles.py:28-31 | a fragment always yields a feature when the cosine at its mean latitude is not negative |
| `GeojsonTiles.TileFeatures` | out_geojson_tiles.py:26-32 | exactly one feature per path in the tile, or the failure of some fragment |
| `GeojsonTiles.GenForZoom` | out_geojson_tiles.py:19-34 | exactly one feature per (tile, path) pair, or a failure exactly when some fragment fails |
| `GeojsonTiles.Gen` | out_geojson_tiles.py:36-38 | every zoom in [min_zoom, max_zoom] once, in increasing order; fails exactly when some zoom fails |
| `Gpx.LastTwo` | in_gpx.py:37 | xml_path[-2:]: the last two names, fewer for a shorter stack |
| `Gpx.ParseTypeOf` | in_gpx.py:69-75 | "" and "trk" give tracks, "rte" routes, anything else ValueError |
| `Gpx.LastMatch` | in_gpx.py:54-59 | the last format that reads the time; None exactly when none does |
| `Gpx.StartPushes` | in_gpx.py:28-34 | start pushes the name; a point starts with parsed lat/lon and name "", a path with no points |
| `Gpx.StartKeepsFormat` | in_gpx.py:28-34 | startElement never changes the time format |
| `Gpx.CharsConcatenate` | in_gpx.py:41-44 | ele and time text is concatenated across callbacks |
| `Gpx.CharsNameOverwrites` | in_gpx.py:37-40 | name text overwrites: only the last piece counts, stripped |
| `Gpx.CharsKeeps` | in_gpx.py:36-44 | characters touches neither the stack, nor paths, nor the time format |
| `Gpx.EndAppends` | in_gpx.py:46-67 | end pops; a closed point is converted and appended to the path, a closed path to paths |
| `Gpx.FinishPosition` | in_gpx.py:49-63 | a finished point keeps its position and name |
| `Gpx.FinishConverts` | in_gpx.py:49-62 | ele is float() of its stripped text; the time uses the sticky format, raising when no format reads it |
| `Gpx.LastFormatWins` | in_gpx.py:54-59 | when the second format reads a time it is the one chosen |
| `Gpx.StepInvariants` | in_gpx.py:28-67 | one callback keeps the stack discipline, grows paths exactly on a closed path element, and keeps a chosen format |
| `Gpx.RunStack` | in_gpx.py:28-47 | over the whole document xml_path is pushed and popped as a stack |
| `Gpx.RunPaths` | in_gpx.py:65-67 | paths grows by one entry per closed path element, in document order |
| `Gpx.RunKeepsFormat` | in_gpx.py:52-62 | once chosen, the time format is never detected again |
| `Gpx.ElementBalanced` | in_gpx.py:29-47 | a balanced element leaves the stack as it found it |
| `Gpx.StackAppend` | in_gpx.py:29-47 | the stack after two runs of callbacks is the stack after the first, then the second |
| `Gpx.EmptyTrack` | in_gpx.py:69-79 | an empty trk element yields one path with no name and no points |
| `Gpx.GpxHandler.constructor` | in_gpx.py:11-26 | a fresh handler has an empty stack, no point, no path, no paths and no format |
| `Gpx.GpxHandler.Feed` | in_gpx.py:28-67 | one event updates the fields as Step says, or raises Step's error |
| `Gpx.GpxHandler.StartElement` | in_gpx.py:28-34 | the fields become Start's state, or its error is raised |
| `Gpx.GpxHandler.Characters` | in_gpx.py:36-44 | the fields become Chars' state, or its error is raised |
| `Gpx.GpxHandler.EndElement` | in_gpx.py:46-67 | the fields become End's state, or its error is raised |
| `Gpx.Parse` | in_gpx.py:69-79 | a fresh handler fed every event in order returns ParseDocument's paths |
| `GpxView.ParseLatLonAsWritten` | gpxview.py:16-26 | as written: float(value) when it reads, NameError for every other text |
| `GpxView.ParseLatLonAgree` | gpxview.py:16-18 | on text float() reads, the written and the corrected function agree |
| `GpxView.ParseLatLonBroken` | gpxview.py:19-20 | "12.5S" raises NameError as written and reads -12.5 corrected |
| `GpxView.StartPushes` | gpxview.py:79-85 | start pushes; a point starts at its parsed position with no name, a path with no points; paths untouched |
| `GpxView.CharsNameOverwrites` | gpxview.py:87-91 | name text overwrites, stripped; the stack and paths stay |
| `GpxView.EndAppends` | gpxview.py:93-101 | end pops; a point is appended to the path, a path to paths; nothing else changes |
| `GpxView.StepInvariants` | gpxview.py:79-101 | one callback keeps the stack discipline and grows paths exactly on a closed path element |
| `GpxView.RunStack` | gpxview.py:79-94 | over the document xml_path is a stack |
| `GpxView.RunPaths` | gpxview.py:96-101 | paths grows by one per closed path element, in document order |
| `GpxView.GpxViewHandler.constructor` | gpxview.py:64-77 | a fresh handler has an empty stack and nothing open |
| `GpxView.GpxViewHandler.Feed` | gpxview.py:79-101 | one event updates the fields as Step says, or raises its error |
| `GpxView.GpxViewHandler.StartElement` | gpxview.py:79-85 | the fields become Start's state, or its error is raised |
| `GpxView.GpxViewHandler.Characters` | gpxview.py:87-91 | the fields become Chars' state, or its error is raised |
| `GpxView.GpxViewHandler.EndElement` | gpxview.py:93-101 | the fields become End's state, or its error is raised |
| `GpxView.ParseGpx` | gpxview.py:103-106 | a fresh handler fed every event returns ParseDocument's paths |
| `GpxView.LeastBounds` | gpxview.py:38-45 | the running minimum is None only for no values, else a value at most each |
| `GpxView.GreatestBounds` | gpxview.py:38-45 | the running maximum is None only for no values, else a value at least each |
| `GpxView.WidenStep` | gpxview.py:188-195 | one more point widens the extent by the four tests |
| `GpxView.ExtentBounds` | gpxview.py:175-195 | the extent is None for no points; otherwise it contains every projected point and each side is reached |
| `GpxView.TallyStep` | gpxview.py:186-198 | one more point widens the extent and bumps its count |
| `GpxView.ProjectStep` | gpxview.py:183-186 | projecting one more point appends its (lon, mercator y) |
| `GpxView.TallyPath` | gpxview.py:182-198 | the inner loop projects the path, widens the extent, and counts each point when points are drawn |
| `GpxView.TallyNext` | gpxview.py:181-202 | one more path tallied: extent, point counts and segment counts |
| `GpxView.GenSvgTally` | gpxview.py:174-202 | the extent of all projected points; each segment's weight is its number of occurrences within paths, each point's likewise |
| `GpxView.ShadeRange` | gpxview.py:212-213 | saturation in [10, 90], lightness in [10, 80]; the least weight palest, the greatest darkest |
| `Svg.TilesPerSide` | out_svg.py:59-60 | 1024 / 256 gives 4 tiles across and 4 down |
| `Svg.MinMax` | out_svg.py:8-15 | (None, None) for no values; otherwise a least and a greatest element |
| `Svg.Absolute` | out_svg.py:20-21 | the value placed on the scale, min_v at 0 and max_v at scale; equal bounds divide by zero |
| `Svg.AbsoluteEnds` | out_svg.py:20-21 | min_v maps to 0, max_v to scale, and the order of values is kept |
| `Svg.AbsoluteInt` | out_svg.py:20-21 | on ints, floor division; equal bounds divide by zero |
| `Svg.AbsoluteIntRange` | out_svg.py:182 | a weight between the extremes lands in [0, scale], the least at 0 and the greatest at scale |
| `Svg.WeightShades` | out_svg.py:179-182 | saturation in [10, 90] and lightness in [10, 80]; least weight lightest, greatest darkest |
| `Svg.UniformWeightColour` | out_svg.py:179-180 | equal least and greatest weight select the fixed colour |
| `Svg.OsmTileNwLon` | out_svg.py:52-54 | the west edge of column 0 is -180 |
| `Svg.TileBracket` | out_svg.py:45-56 | osm_tile_nw(x).lon ≤ lon < osm_tile_nw(x + 1).lon for the tile x of lon in [-180, 180) |
| `Svg.SearchZoom` | out_svg.py:61-68 | the zoom search never goes above its start |
| `Svg.SearchZoomLargest` | out_svg.py:61-68 | it stops at the largest covering zoom not above the start, or at 0 when none covers |
| `Svg.Grid` | out_svg.py:70-72 | the grid has TILES_X · TILES_Y tiles |
| `Svg.GridLayout` | out_svg.py:70-72 | 16 tiles, i outer and j inner, at tile_x + i, tile_y + j and pixels i·256, j·256 |
| `Svg.GridCorners` | out_svg.py:99-102 | the frame runs from the first tile's north-west corner to the corner past the last tile |
| `Svg.IndexZoom` | out_svg.py:61-68 | the tile indices come from a zoom in [1, 18] |
| `Svg.OsmGetTiles` | out_svg.py:58-72 | the loop from 18 down returns the grid of the chosen zoom, indices from zoom 1 when it ends at 0 |
| `Svg.NoCoveringZoom` | out_svg.py:61-68 | when no zoom covers, the zoom is 0 with indices left over from zoom 1 |
| `Svg.BoxBounds` | out_svg.py:78-89 | NW lat is the greatest lat, NW lon the least lon, SE lat the least lat, SE lon the greatest lon, each attained |
| `Svg.BoundingBox` | out_svg.py:78-89 | the bounds loop computes Box over every point of every path |
| `Svg.MapFrame` | out_svg.py:74-102 | no points: only "Empty input!"; otherwise the tiles and the map corners moved to the grid's outer edges |
| `Svg.FrameContainsBox` | out_svg.py:97-102 | when a zoom covers, the frame lies west of, east of, and south of every point as required |
| `Svg.ChosenGridCorners` | out_svg.py:61-66 | at the chosen zoom the grid's corners bracket the map's corners |
| `Svg.Project` | out_svg.py:156-157 | one projected point per point |
| `Svg.Pairs` | out_svg.py:163 | izip(svg_path, svg_path[1:]) has one pair fewer than the path |
| `Svg.CountsOccurrences` | out_svg.py:159-164 | a key's weight is its number of occurrences, and exactly the occurring keys are present |
| `Svg.CountKeys` | out_svg.py:163-164 | the counting loop computes Counts |
| `Svg.ProjectPath` | out_svg.py:143-160 | the inner loop projects the path and counts each point when points are drawn |
| `Svg.WeighPaths` | out_svg.py:142-164 | the bounds of every point; segment and point weights as counts of their occurrences |
| `Svg.PathColour` | out_svg.py:111 | the transportation's colour from PATH_COLORS, black when missing or unknown |
| `Columbus.Fields` | in_columbus.py:10 | one field per comma-separated piece of the line |
| `Columbus.FieldsClean` | in_columbus.py:10 | no field holds a NUL or a comma |
| `Columbus.RemoveAppend` | in_columbus.py:10 | removing NULs from two joined texts removes them from each |
| `Columbus.RemoveJoin` | in_columbus.py:10 | removing NULs commutes with joining on a NUL-free separator |
| `Columbus.FieldsJoin` | in_columbus.py:10 | the fields joined by "," are the line without its NULs |
| `Columbus.ParsePoint` | in_columbus.py:15-18 | time from fields 2+3 in %y%m%d%H%M%S, lat 4, lon 5, ele int(6); IndexError, ValueError or an unreadable coordinate in field order |
| `Columbus.LinePoints` | in_columbus.py:10-19 | a header line gives no point; any other line its point, or its error |
| `Columbus.ParseLinesAppend` | in_columbus.py:8-19 | a file reads as its first part followed by its second |
| `Columbus.HeaderSkipped` | in_columbus.py:12-13 | a line whose first field is INDEX is skipped wherever it stands |
| `Columbus.ParseLinesPoints` | in_columbus.py:8-21 | one point per non-header line, each from its own line, in line order |
| `Columbus.ParseLinesStops` | in_columbus.py:8-19 | a failing line fails the whole file with its error |
| `Columbus.Parse` | in_columbus.py:6-21 | exactly one path whose points are ParseLines', or the first failing line's error |
| `Stats.Leg` | out_stats.py:23 | the first point has distance 0 |
| `Stats.EleStep` | out_stats.py:26-32 | the elevation step fails exactly when the point has no elevation |
| `Stats.TimeFails` | out_stats.py:33-42 | no error means the point has a time, and the previous point has one wherever a gap is taken |
| `Stats.Accumulate` | out_stats.py:21-43 | after the loop prev_p is the last point, min and max are None together, and None only for no points |
| `Stats.Legs` | out_stats.py:23-24 | one distance per pair of neighbours |
| `Stats.Telescope` | out_stats.py:39-42 | moving time plus stopped time is last time minus first time |
| `Stats.AccumulateOk` | out_stats.py:26-42 | the loop fails exactly when a point lacks a field the first point has, with KeyError |
| `Stats.TotalDistance` | out_stats.py:21-24 | total_dist is the sum of the distances between neighbours |
| `Stats.EleSum` | out_stats.py:32 | ele_sum is the sum of the elevations |
| `Stats.EleRange` | out_stats.py:26-31 | min_ele ≤ every elevation ≤ max_ele, both attained |
| `Stats.TimeRange` | out_stats.py:33-38 | min_time and max_time are the least and greatest times, both attained |
| `Stats.TimeSplit` | out_stats.py:39-42 | moving and stopped time are the gaps between neighbours apart and coinciding; 0 without times |
| `Stats.AccumulateStops` | out_stats.py:22-43 | a failure part-way stops the loop |
| `Stats.WholeSeconds` | out_stats.py:54 | days·86400 + seconds is the span in whole seconds, rounded down |
| `Stats.Deviations` | out_stats.py:47 | one non-negative squared deviation per point |
| `Stats.PathStatsErrors` | out_stats.py:8-59 | IndexError exactly for no points, KeyError exactly for a missing field, success for complete untimed paths, ZeroDivisionError for a one-point timed path and for a timed path that never moves |
| `Stats.TimedPathSucceeds` | out_stats.py:51-59 | a complete timed path succeeds exactly when two of its times are at least a second apart and its moving time does not round down to 0 seconds; otherwise it divides by zero |
| `Stats.StandingStill` | out_stats.py:39-42 | a path whose neighbours all coincide has no moving time |
| `Stats.PathStatsReport` | out_stats.py:45-62 | the report's count and flags, total distance as the sum over neighbours, elevation extremes, and moving and stopped times within the span |
| `Stats.GenPathStats` | out_stats.py:7-62 | the method computes PathStats |
| `Stats.Scan` | out_stats.py:21-43 | the loop computes Accumulate |
| `Stats.VisitPoint` | out_stats.py:22-43 | the body computes one Visit |
| `Stats.AllStatsInOrder` | out_stats.py:64-66 | one report per path, each its own, in input order, when no path fails |
| `Stats.AllStatsFirstFailure` | out_stats.py:64-66 | a failure is the first failing path's |
| `Stats.AllStatsStops` | out_stats.py:64-66 | after a failure later paths change nothing |
| `Stats.Gen` | out_stats.py:64-66 | the loop computes AllStats |
| `Wkt.Framed` | out_wkt.py:3-15 | the output starts with "GEOMETRYCOLLECTION (" and ends with ")" |
| `Wkt.Gen` | out_wkt.py:6-15 | the writes, in order, form Document |
| `Wkt.WritePath` | out_wkt.py:9-14 | one pass writes the path's points, then ", " when i ≠ 0 or points were written, then its LINESTRING |
| `Wkt.NothingRequested` | out_wkt.py:6-15 | with both flags false the output is exactly "GEOMETRYCOLLECTION ()" |
| `Wkt.LinesOnly` | out_wkt.py:11-14 | with paths only, the LINESTRINGs are joined by ", " |
| `Wkt.PointsOnly` | out_wkt.py:8-10 | with points only, the point groups follow one another with no separator |
| `Wkt.PointsRunTogether` | out_wkt.py:8-13 | two one-point paths with points only run together where WKT needs ", " |
| `Wkt.CorrectedSeparated` | out_wkt.py:8-13 | corrected: the next path's geometries always follow the earlier ones after a ", " |
| `Wkt.CorrectedAgreesOnLines` | out_wkt.py:11-14 | with paths only, the corrected collection is the source's text |
| `Wkt.CorrectedNothingRequested` | out_wkt.py:7-15 | the corrected collection is empty when nothing is requested |
| `KmlOut.TimeStamp` | out_kml.py:36 | a TimeStamp is written exactly when the point has a time |
| `KmlOut.Gen` | out_kml.py:24-47 | the writes form KML_START, the Tracks folder holding one folder per path, and KML_END |
| `KmlOut.WriteTracks` | out_kml.py:26-47 | everything after the head: the Tracks folder, closed, then KML_END |
| `KmlOut.WritePath` | out_kml.py:27-45 | path i's folder, named path['name'] or "Track i", with the points folder when requested and the LineString when requested, closed |
| `KmlOut.WritePlacemarks` | out_kml.py:31-38 | one placemark per point, in order |
| `KmlOut.WriteLineCoordinates` | out_kml.py:42-43 | one "lon,lat" line per point, in order |
| `KmlOut.LineCoordinatesJoin` | out_kml.py:42-43 | the coordinates are the lines joined and ended by newlines |
| `KmlOut.LinesNewlineEnded` | out_kml.py:42-43 | a non-empty line string is its lines joined by newlines plus a final newline |
| `KmlOut.LineCoordinatesLines` | out_kml.py:40-44 | read line by line, the coordinates give each point's "lon,lat" in order |
| `KmlOut.PointCoordinatesReadBack` | out_kml.py:33-35 | "lon,lat,ele" of a point with elevation reads back through the KML reader as its position and elevation |
| `KmlOut.TwoValuesRejected` | out_kml.py:33-35 | a coordinate without ele, and every LineString coordinate, has two values, which the KML reader rejects |
| `KmlIn.Floats` | in_kml.py:30 | map(float, parts) reads every part, or None when one fails |
| `KmlIn.ParseToken` | in_kml.py:30 | a token reads exactly when it has three pieces that all read; otherwise ValueError |
| `KmlIn.ParseTokens` | in_kml.py:30 | the tokens' points in order, or ValueError when any token is bad |
| `KmlIn.TokenArity` | in_kml.py:30 | a token without exactly three pieces is an unpacking ValueError |
| `KmlIn.TokenRoundTrip` | in_kml.py:30 | a "lng,lat,ele" token reads back as Point(lat, lng, ele, None, None) |
| `KmlIn.ParseTokensAll` | in_kml.py:30 | tokens that each read give those points |
| `KmlIn.CoordinatesRoundTrip` | in_kml.py:26-30 | written points, space-separated, read back as the same points |
| `KmlIn.Start` | in_kml.py:18-22 | start pushes; a line opens a path with the transportation and no points |
| `KmlIn.End` | in_kml.py:32-37 | end pops, IndexError on an empty stack; a line appends the open path to paths |
| `KmlIn.CharsKeeps` | in_kml.py:24-28 | blank text changes nothing; characters never touches the stack or paths |
| `KmlIn.CharsReplaces` | in_kml.py:29-30 | coordinates text replaces the path's points, so the last callback wins |
| `KmlIn.StepInvariants` | in_kml.py:18-37 | one callback keeps the stack discipline and grows paths exactly on a closed line |
| `KmlIn.RunStack` | in_kml.py:18-37 | over the document xml_path is a stack |
| `KmlIn.RunPaths` | in_kml.py:32-37 | paths grows by one per closed line, in document order |
| `KmlIn.KmlHandler.constructor` | in_kml.py:8-16 | a fresh handler with its transportation and nothing open |
| `KmlIn.KmlHandler.Feed` | in_kml.py:18-37 | one event updates the fields as Step says, or raises its error |
| `KmlIn.KmlHandler.StartElement` | in_kml.py:18-22 | the fields become Start's state |
| `KmlIn.KmlHandler.Characters` | in_kml.py:24-30 | the fields become Chars' state, or its error is raised |
| `KmlIn.KmlHandler.EndElement` | in_kml.py:32-37 | the fields become End's state, or its error is raised |
| `KmlIn.Parse` | in_kml.py:39-42 | a fresh handler fed every event returns ParseDocument's paths |

## Left out

- Distances: `utils.distance` (Vincenty) and `gpxview.distance` (haversine) are floating-point iteration. They are the parameter `Filters.Dist`, which is total. `utils.distance` raises an Exception when its iteration does not converge (utils.py:55-56), and that raise's own `% p1, p2` formatting would fail first with TypeError; this failure is left out.
- Transcendental functions: the Mercator y, the tile-row formula, osm_tile_nw's latitude, cos, sqrt and log/tan. They are parameters.
- Float arithmetic: real numbers are exact, with no rounding.
- Number formatting: `%s`/`%.2f` of numbers, `strftime`, and `.encode("utf-8")` are parameters or left out. Because the text of floats is abstract, `Stats` models the report's values, not its formatted lines.
- Foreign parsers: the SAX parser becomes an abstract list of start/characters/end events. How the parser chunks character data is not modelled.
- Unreadable coordinates: `parse_latlon` returning None for an unreadable coordinate becomes the error `NoCoordinate` in `Gpx` and `Columbus`. The source stores None and fails later, or never.
- GpxView.StartPushes: the gpxview handler (`GpxView.Start`, `GpxView.StartPushes`, `GpxView.GpxViewHandler.StartElement`, `GpxView.ParseGpx`) reads coordinates with the corrected `Utils.ParseLatLon` (see Findings). The source's `parse_latlon` raises NameError for any text `float()` rejects (gpxview.py:20). The model reads "12.5S" as -12.5, and other unreadable text gives `NoCoordinate`; `GpxView.ParseLatLonBroken` models the NameError.
- Dict points: points are one record type. A key missing from a dict is an `Option` field. The source builds dict points in in_gpx.py:32, in_columbus.py:15-18 and filters.py:60, and namedtuple points in in_kml.py:30, but reads them both ways. The model reads every point the same way, so it succeeds in places where the source raises. The lines below name each place.
- Aliasing: the dict aliasing between `self.point` and the path's list is modelled by value. The filters update an `array` of paths in place.
- GpxView.End: a point element closed while a path is open but no point is (a nested point element) raises TypeError in the model. The source appends None to the path's points there and goes on (gpxview.py:97), which the model's point lists cannot hold. A point element closed with no path open is the source's TypeError on `None['points']`. A path element closed with no path open appends None to paths in both.
- Filters.NameMatchFilter: `utils.distance` reads attributes (utils.py:15-17), but the readers hand over dict points and `_filter` builds dict centroids (filters.py:60). So the source raises AttributeError in `find_nearby_point` at the second point of a name, and in `find_closest_point` on the centroids. The model's `Dist` reads any point. On KML's namedtuple points, `point['name']` at filters.py:53 raises TypeError, while the model returns `Fail(KeyError)`, because KML points carry no name (in_kml.py:30).
- Stats.Gen: on dict points from GPX or Columbus input, `distance(prev_p, p)` at out_stats.py:23 raises AttributeError for every path of two or more points. On KML's namedtuple points, `'ele' in path['points'][0]` (out_stats.py:9) is False even when the file had elevations. The model reads every point and reports.
- Svg.BoundingBox: `p.lat` at out_svg.py:80 raises AttributeError on dict points from GPX or Columbus input. The model reads every point.
- Svg.WeighPaths: `p.lat` at out_svg.py:145, like `p.lat` at out_svg.py:117 in gen_map, raises AttributeError on dict points from GPX or Columbus input. The model reads every point.
- Wkt.Gen: `point.lon` and `point.lat` at out_wkt.py:10 and 14 raise AttributeError on dict points from GPX or Columbus input. The model writes every point.
- GeojsonTiles.Gen: `p.lat` at out_geojson_tiles.py:15 and `point.lat` at out_geojson_tiles.py:23 raise AttributeError on dict points from GPX or Columbus input. The model files every point.
- KmlOut.Gen: `"%(lon)s,%(lat)s" % point` at out_kml.py:33 raises TypeError on KML's namedtuple points, and `'ele' in point` at out_kml.py:34 is False for them. The model writes every point.
- KmlIn: the handler's unused `self.point` field is left out. When a coordinate token is both unreadable and of the wrong arity, both are reported as the same ValueError.
- Stats:
  - Columbus elevations are ints, and `ele_sum / point_count` is then Python 2 floor division. The model uses real division.
  - Output written before a ZeroDivisionError is not modelled.
  - `Stats.Scan` keeps the loop's running values together in one `Acc` record.
- CLI code: glot.py, gpsview.py and gpxview.py's `__main__` (getopt, file opening, stderr) are not part of this model.
  - glot.py calls `in_columbus.parse(f, transportation=...)`, which parse does not accept.
- Drawing code: gpxview's `gen_svg`/`gen_kml` drawing and out_svg's drawing writes (coordinates and colours formatted as text) are left out. The tallies and colours behind them are modelled.
- out_plot.py and in_wkt.py are not part of this model.
- Round trip between the KML writer and reader: out_kml writes two-value "lon,lat" LineString coordinates, which in_kml cannot read (`KmlOut.TwoValuesRejected`). The round trip is proved only for three-value point coordinates. It assumes float() reads back what `%s` writes, which Python 2 does only for floats it prints exactly, as `%s` keeps 12 significant digits.
- Svg.OsmGetTiles: only the x/longitude part of the tile arithmetic is exact. The y part goes through the `TileYFn` and `NwLatFn` parameters.

## Findings

| source | as written | input that shows it | evidently intended | confidence | as-written member | corrected member |
|---|---|---|---|---|---|---|
| gpxview.py:16-26 | `parse_latlon` is a free function but looks up `self.LATLON_RE`, so any text `float()` rejects raises NameError | "12.5S" | the module's own `LATLON_RE`, as utils.py:105-115 does, giving -12.5 | not executed | `GpxView.ParseLatLonBroken` | `Utils.ParseLatLon` |
| out_wkt.py:8-13 | no ", " is written between one path's POINTs and the next path's, nor between a LINESTRING and the next path's POINTs | two one-point paths, output_points only | every geometry of the collection separated by ", " | not executed | `Wkt.PointsRunTogether` | `Wkt.CorrectedSeparated` |
