/**
 * filters.py (and the identical copies in gpxview.py): the stride filter and
 * the name-match clusterer. The paths live in an array whose elements the
 * filters overwrite; the distance between two points is a parameter.
 */
module Filters {
  import opened Track
  import opened Utils

  /** utils.distance (Vincenty) or gpxview.distance (haversine). */
  type Dist = (Point, Point) -> real

  // ---------------------------------------------------------------------
  // find_nearby_point and find_closest_point

  /** Index of the first point within radius of point, if any. */
  function Nearby(points: seq<Point>, point: Point, radius: real, dist: Dist): (r: Option<nat>)
    ensures r.None? <==> forall i :: 0 <= i < |points| ==> dist(points[i], point) > radius
    ensures r.Some? ==> r.value < |points| && dist(points[r.value], point) <= radius
    ensures r.Some? ==> forall i :: 0 <= i < r.value ==> dist(points[i], point) > radius
  {
    if points == [] then None
    else if dist(points[0], point) <= radius then Some(0)
    else
      match Nearby(points[1..], point, radius, dist)
      case None => None
      case Some(k) => Some(k + 1)
  }

  /** find_nearby_point: the scan that returns the first point within radius. */
  method FindNearbyPoint(points: seq<Point>, point: Point, radius: real, dist: Dist) returns (r: Option<Point>)
    ensures Nearby(points, point, radius, dist).None? ==> r == None
    ensures Nearby(points, point, radius, dist).Some? ==> r == Some(points[Nearby(points, point, radius, dist).value])
  {
    for i := 0 to |points|
      invariant forall k :: 0 <= k < i ==> dist(points[k], point) > radius
    {
      if dist(points[i], point) <= radius {
        return Some(points[i]);
      }
    }
    return None;
  }

  /** find_closest_point's running minimum over the first n points: the
      index of the first point at the least distance. */
  function Closest(points: seq<Point>, point: Point, dist: Dist, n: nat): (r: Option<nat>)
    requires n <= |points|
    ensures r.None? <==> n == 0
    ensures r.Some? ==> r.value < n
    ensures r.Some? ==> forall i :: 0 <= i < n ==> dist(points[r.value], point) <= dist(points[i], point)
    ensures r.Some? ==> forall i :: 0 <= i < r.value ==> dist(points[r.value], point) < dist(points[i], point)
  {
    if n == 0 then None
    else
      match Closest(points, point, dist, n - 1)
      case None => Some(n - 1)
      case Some(k) => if dist(points[n - 1], point) < dist(points[k], point) then Some(n - 1) else Some(k)
  }

  /** find_closest_point: None only for an empty list. */
  method FindClosestPoint(points: seq<Point>, point: Point, dist: Dist) returns (r: Option<Point>)
    ensures points == [] ==> r == None
    ensures points != [] ==> r == Some(points[Closest(points, point, dist, |points|).value])
  {
    var closest: Option<Point> := None;
    var minDistance: Option<real> := None;
    for i := 0 to |points|
      invariant Closest(points, point, dist, i).None? ==> closest == None && minDistance == None
      invariant Closest(points, point, dist, i).Some? ==>
        var k := Closest(points, point, dist, i).value;
        closest == Some(points[k]) && minDistance == Some(dist(points[k], point))
    {
      var d := dist(points[i], point);
      if minDistance.None? || d < minDistance.value {
        minDistance := Some(d);
        closest := Some(points[i]);
      }
    }
    return closest;
  }

  // ---------------------------------------------------------------------
  // skip_filter

  /** skip_filter's keep(i) for a list of n points. Python's i % skip and
      Dafny's agree on whether the remainder is zero for every non-zero skip. */
  predicate Keeps(i: nat, n: nat, skip: int)
    requires skip != 0
  {
    i == 0 || i % skip == 0 || i == n - 1
  }

  /** The indices below m that keep(i) selects. */
  function KeptIndices(n: nat, skip: int, m: nat): seq<nat>
    requires skip != 0 && m <= n
  {
    if m == 0 then []
    else KeptIndices(n, skip, m - 1) + (if Keeps(m - 1, n, skip) then [m - 1] else [])
  }

  /** The kept indices are increasing, and are exactly the ones keep(i)
      selects; the first index is always among them. */
  lemma {:induction false} KeptIndicesSelect(n: nat, skip: int, m: nat)
    requires skip != 0 && m <= n
    ensures var r := KeptIndices(n, skip, m);
      && |r| <= m
      && (forall j :: 0 <= j < |r| ==> r[j] < m)
      && (forall j, l :: 0 <= j < l < |r| ==> r[j] < r[l])
      && (forall i :: 0 <= i < m ==> (i in r <==> Keeps(i, n, skip)))
      && (m >= 1 ==> |r| >= 1 && r[0] == 0)
      && (m >= 1 && Keeps(m - 1, n, skip) ==> r[|r| - 1] == m - 1)
  {
    if m > 0 {
      KeptIndicesSelect(n, skip, m - 1);
    }
  }

  /** The points list skip_filter leaves in a path: the first and the last
      point always survive. */
  function Stride(s: seq<Point>, skip: int): (r: seq<Point>)
    requires skip != 0
    ensures |r| <= |s|
    ensures |s| >= 1 ==> |r| >= 1 && r[0] == s[0] && r[|r| - 1] == s[|s| - 1]
  {
    var idx := KeptIndices(|s|, skip, |s|);
    KeptIndicesSelect(|s|, skip, |s|);
    seq(|idx|, j requires 0 <= j < |idx| => s[idx[j]])
  }

  /** The stride keeps exactly the indices keep(i) selects, in their order. */
  lemma StrideSubsequence(s: seq<Point>, skip: int) returns (idx: seq<nat>)
    requires skip != 0
    ensures SubsequenceAt(Stride(s, skip), s, idx)
    ensures forall i :: 0 <= i < |s| ==> (i in idx <==> Keeps(i, |s|, skip))
  {
    idx := KeptIndices(|s|, skip, |s|);
    KeptIndicesSelect(|s|, skip, |s|);
  }

  /** Stride 3 on ten points keeps indices 0, 3, 6 and 9. */
  lemma StrideExample(s: seq<Point>)
    requires |s| == 10
    ensures Stride(s, 3) == [s[0], s[3], s[6], s[9]]
  {
    assert KeptIndices(10, 3, 10) == [0, 3, 6, 9];
  }

  /** skip_filter(skip)(paths): every path keeps the points keep(i) selects.
      With skip == 0 the first path of two or more points raises
      ZeroDivisionError at i % 0; no path has changed by then. */
  method SkipFilter(paths: array<Path>, skip: int) returns (o: Outcome)
    modifies paths
    ensures o.Fail? <==> skip == 0 && exists i :: 0 <= i < paths.Length && |old(paths[i]).points| >= 2
    ensures o.Fail? ==> o.error == ZeroDivisionError
    ensures skip == 0 ==> paths[..] == old(paths[..])
    ensures skip != 0 ==> forall i :: 0 <= i < paths.Length ==>
      paths[i] == old(paths[i]).(points := Stride(old(paths[i]).points, skip))
  {
    for i := 0 to paths.Length
      invariant skip == 0 ==> paths[..] == old(paths[..])
      invariant skip == 0 ==> forall k :: 0 <= k < i ==> |old(paths[k]).points| < 2
      invariant skip != 0 ==> forall k :: 0 <= k < i ==>
        paths[k] == old(paths[k]).(points := Stride(old(paths[k]).points, skip))
      invariant forall k :: i <= k < paths.Length ==> paths[k] == old(paths[k])
    {
      var points := paths[i].points;
      var kept: seq<Point>;
      if skip == 0 {
        if |points| >= 2 {
          return Fail(ZeroDivisionError);
        }
        kept := points;
      } else {
        kept := Stride(points, skip);
      }
      paths[i] := paths[i].(points := kept);
    }
    return Pass;
  }

  // ---------------------------------------------------------------------
  // name_match_filter

  /** Every point of every path, path by path. */
  function Flatten(paths: seq<Path>): seq<Point> {
    if paths == [] then [] else Flatten(paths[..|paths| - 1]) + paths[|paths| - 1].points
  }

  /** Every point carries a 'name' key; otherwise point['name'] raises KeyError. */
  predicate Named(paths: seq<Path>) {
    forall i, j :: 0 <= i < |paths| && 0 <= j < |paths[i].points| ==> paths[i].points[j].name.Some?
  }

  predicate AllNamed(points: seq<Point>) {
    forall i :: 0 <= i < |points| ==> points[i].name.Some?
  }

  /** The points called n, in order. */
  function WithName(points: seq<Point>, n: string): (r: seq<Point>)
    ensures |r| <= |points|
    ensures forall j :: 0 <= j < |r| ==> r[j].name == Some(n)
  {
    if points == [] then []
    else
      var p := points[|points| - 1];
      WithName(points[..|points| - 1], n) + (if p.name == Some(n) then [p] else [])
  }

  /** The defaultdict all_points, built point by point. */
  function ByName(points: seq<Point>): map<string, seq<Point>>
    requires AllNamed(points)
  {
    if points == [] then map[]
    else
      var prefix := points[..|points| - 1];
      var p := points[|points| - 1];
      var n := p.name.value;
      assert AllNamed(prefix) by {
        forall i | 0 <= i < |prefix| ensures prefix[i].name.Some? {
          assert prefix[i] == points[i];
        }
      }
      var m := ByName(prefix);
      m[n := (if n in m then m[n] else []) + [p]]
  }

  /** all_points holds every name that occurs, mapped to the points that
      carry it, in scan order. */
  lemma {:induction false} ByNameGroups(points: seq<Point>)
    requires AllNamed(points)
    ensures forall n :: n in ByName(points) <==> WithName(points, n) != []
    ensures forall n :: n in ByName(points) ==> ByName(points)[n] == WithName(points, n)
  {
    if points != [] {
      var prefix := points[..|points| - 1];
      assert AllNamed(prefix) by {
        forall i | 0 <= i < |prefix| ensures prefix[i].name.Some? {
          assert prefix[i] == points[i];
        }
      }
      ByNameGroups(prefix);
    }
  }

  /** A point whose name is n makes WithName(points, n) non-empty. */
  lemma {:induction false} WithNameHas(points: seq<Point>, i: nat, n: string)
    requires i < |points| && points[i].name == Some(n)
    ensures points[i] in WithName(points, n)
  {
    if i < |points| - 1 {
      WithNameHas(points[..|points| - 1], i, n);
    }
  }

  /** Flatten lists exactly the points of the paths. */
  lemma {:induction false} FlattenHas(paths: seq<Path>, i: nat, j: nat)
    requires i < |paths| && j < |paths[i].points|
    ensures exists k :: 0 <= k < |Flatten(paths)| && Flatten(paths)[k] == paths[i].points[j]
  {
    var prefix := paths[..|paths| - 1];
    if i < |paths| - 1 {
      FlattenHas(prefix, i, j);
      var k :| 0 <= k < |Flatten(prefix)| && Flatten(prefix)[k] == prefix[i].points[j];
      assert Flatten(paths)[k] == Flatten(prefix)[k];
    } else {
      assert Flatten(paths)[|Flatten(prefix)| + j] == paths[i].points[j];
    }
  }

  lemma {:induction false} FlattenNamed(paths: seq<Path>)
    ensures Named(paths) <==> AllNamed(Flatten(paths))
  {
    if paths != [] {
      var prefix := paths[..|paths| - 1];
      FlattenNamed(prefix);
      var last := paths[|paths| - 1].points;
      assert Flatten(paths) == Flatten(prefix) + last;
      if Named(paths) {
        assert Named(prefix) by {
          forall i, j | 0 <= i < |prefix| && 0 <= j < |prefix[i].points|
            ensures prefix[i].points[j].name.Some?
          {
            assert prefix[i] == paths[i];
          }
        }
        forall k | 0 <= k < |Flatten(paths)| ensures Flatten(paths)[k].name.Some? {
          if k >= |Flatten(prefix)| {
            assert Flatten(paths)[k] == paths[|paths| - 1].points[k - |Flatten(prefix)|];
          }
        }
      }
      if AllNamed(Flatten(paths)) {
        forall i, j | 0 <= i < |paths| && 0 <= j < |paths[i].points|
          ensures paths[i].points[j].name.Some?
        {
          FlattenHas(paths, i, j);
        }
      }
    }
  }

  /** The group find_group picks: the first one with a member within radius of p. */
  function FirstFit(groups: seq<seq<Point>>, p: Point, radius: real, dist: Dist): (r: Option<nat>)
    ensures r.None? <==> forall g :: 0 <= g < |groups| ==> Nearby(groups[g], p, radius, dist).None?
    ensures r.Some? ==> r.value < |groups| && Nearby(groups[r.value], p, radius, dist).Some?
    ensures r.Some? ==> forall g :: 0 <= g < r.value ==> Nearby(groups[g], p, radius, dist).None?
  {
    if groups == [] then None
    else if Nearby(groups[0], p, radius, dist).Some? then Some(0)
    else
      match FirstFit(groups[1..], p, radius, dist)
      case None => None
      case Some(g) => Some(g + 1)
  }

  /** The points of all groups, as a multiset. */
  function Members(groups: seq<seq<Point>>): multiset<Point> {
    if groups == [] then multiset{} else Members(groups[..|groups| - 1]) + multiset(groups[|groups| - 1])
  }

  lemma {:induction false} MembersAppend(groups: seq<seq<Point>>, g: nat, p: Point)
    requires g < |groups|
    ensures Members(groups[g := groups[g] + [p]]) == Members(groups) + multiset{p}
  {
    var prefix := groups[..|groups| - 1];
    var updated := groups[g := groups[g] + [p]];
    assert updated[..|updated| - 1] == if g < |groups| - 1 then prefix[g := groups[g] + [p]] else prefix;
    if g < |groups| - 1 {
      MembersAppend(prefix, g, p);
    }
  }

  /** One step of group_points: p joins the first group with a member within
      radius, or opens a new group of its own. */
  function Insert(groups: seq<seq<Point>>, p: Point, radius: real, dist: Dist): (r: seq<seq<Point>>)
    ensures |r| == |groups| + (if FirstFit(groups, p, radius, dist).None? then 1 else 0)
    ensures forall g :: 0 <= g < |groups| ==> |groups[g]| <= |r[g]| && r[g][..|groups[g]|] == groups[g]
    ensures var fit := FirstFit(groups, p, radius, dist);
      fit.Some? ==>
        (r[fit.value] == groups[fit.value] + [p] &&
         forall g :: 0 <= g < |groups| && g != fit.value ==> r[g] == groups[g])
    ensures FirstFit(groups, p, radius, dist).None? ==> r[..|groups|] == groups && r[|groups|] == [p]
  {
    match FirstFit(groups, p, radius, dist)
    case None =>
      assert (groups + [[p]])[..|groups|] == groups;
      groups + [[p]]
    case Some(g) =>
      groups[g := groups[g] + [p]]
  }

  /** The groups group_points builds; none of them is empty. */
  function Grouped(points: seq<Point>, radius: real, dist: Dist): (r: seq<seq<Point>>)
    ensures forall g :: 0 <= g < |r| ==> r[g] != []
    ensures 1 <= |r| <= |points| || (r == [] && points == [])
  {
    if points == [] then []
    else Insert(Grouped(points[..|points| - 1], radius, dist), points[|points| - 1], radius, dist)
  }

  /** group_points partitions its input: every point lands in exactly one
      group, and the groups hold nothing else. */
  lemma {:induction false} GroupedPartition(points: seq<Point>, radius: real, dist: Dist)
    ensures Members(Grouped(points, radius, dist)) == multiset(points)
  {
    if points != [] {
      var prefix := points[..|points| - 1];
      var p := points[|points| - 1];
      assert points == prefix + [p];
      assert multiset(points) == multiset(prefix) + multiset{p};
      GroupedPartition(prefix, radius, dist);
      assert Grouped(points, radius, dist) == Insert(Grouped(prefix, radius, dist), p, radius, dist);
      InsertMembers(Grouped(prefix, radius, dist), p, radius, dist);
    }
  }

  lemma InsertMembers(groups: seq<seq<Point>>, p: Point, radius: real, dist: Dist)
    ensures Members(Insert(groups, p, radius, dist)) == Members(groups) + multiset{p}
  {
    match FirstFit(groups, p, radius, dist)
    case None =>
      assert (groups + [[p]])[..|groups|] == groups;
    case Some(g) =>
      MembersAppend(groups, g, p);
  }

  /** The {'lat': avg(...), 'lon': avg(...)} of one group. */
  function Centroid(group: seq<Point>): (c: Point)
    requires group != []
    ensures c.lat * |group| as real == Sum(Lats(group))
    ensures c.lon * |group| as real == Sum(Lons(group))
    ensures c.ele == None && c.time == None && c.name == None
  {
    Position(Mean(Lats(group)), Mean(Lons(group)))
  }

  /** The centroid lies in the latitude and longitude range of its group. */
  lemma CentroidInside(group: seq<Point>, south: real, north: real, west: real, east: real)
    requires group != []
    requires forall i :: 0 <= i < |group| ==> south <= group[i].lat <= north && west <= group[i].lon <= east
    ensures south <= Centroid(group).lat <= north && west <= Centroid(group).lon <= east
  {
    MeanBounds(Lats(group), south, north);
    MeanBounds(Lons(group), west, east);
  }

  function Centroids(groups: seq<seq<Point>>): (cs: seq<Point>)
    requires forall g :: 0 <= g < |groups| ==> groups[g] != []
    ensures |cs| == |groups|
  {
    seq(|groups|, g requires 0 <= g < |groups| => Centroid(groups[g]))
  }

  /** all_group_coords: the centroids of the groups of each name. */
  function Centres(byName: map<string, seq<Point>>, radius: real, dist: Dist): (m: map<string, seq<Point>>)
    ensures m.Keys == byName.Keys
    ensures forall n :: n in m && byName[n] != [] ==> m[n] != []
  {
    map n | n in byName :: Centroids(Grouped(byName[n], radius, dist))
  }

  predicate Snappable(p: Point, centres: map<string, seq<Point>>) {
    p.name.Some? && p.name.value in centres && centres[p.name.value] != []
  }

  /** A point moved to the closest centroid of its own name; nothing else
      about it changes. */
  function Snap(p: Point, centres: map<string, seq<Point>>, dist: Dist): (q: Point)
    requires Snappable(p, centres)
    ensures var cs := centres[p.name.value];
      exists k :: 0 <= k < |cs| && q.lat == cs[k].lat && q.lon == cs[k].lon
        && forall j :: 0 <= j < |cs| ==> dist(cs[k], p) <= dist(cs[j], p)
    ensures q.ele == p.ele && q.time == p.time && q.name == p.name
  {
    var cs := centres[p.name.value];
    var k := Closest(cs, p, dist, |cs|).value;
    p.(lat := cs[k].lat, lon := cs[k].lon)
  }

  function SnapAll(points: seq<Point>, centres: map<string, seq<Point>>, dist: Dist): (r: seq<Point>)
    requires forall j :: 0 <= j < |points| ==> Snappable(points[j], centres)
    ensures |r| == |points|
  {
    seq(|points|, j requires 0 <= j < |points| => Snap(points[j], centres, dist))
  }

  /** The centroids name_match_filter computes from all the points. */
  function MatchCentres(paths: seq<Path>, radius: real, dist: Dist): map<string, seq<Point>>
    requires Named(paths)
  {
    FlattenNamed(paths);
    Centres(ByName(Flatten(paths)), radius, dist)
  }

  lemma CentresCover(paths: seq<Path>, radius: real, dist: Dist)
    requires Named(paths)
    ensures forall i, j :: 0 <= i < |paths| && 0 <= j < |paths[i].points| ==>
      Snappable(paths[i].points[j], MatchCentres(paths, radius, dist))
  {
    FlattenNamed(paths);
    var all := Flatten(paths);
    ByNameGroups(all);
    forall i, j | 0 <= i < |paths| && 0 <= j < |paths[i].points|
      ensures Snappable(paths[i].points[j], MatchCentres(paths, radius, dist))
    {
      FlattenHas(paths, i, j);
      var k :| 0 <= k < |all| && all[k] == paths[i].points[j];
      WithNameHas(all, k, all[k].name.value);
    }
  }

  /** The paths after name_match_filter(radius). */
  function Matched(paths: seq<Path>, radius: real, dist: Dist): (r: seq<Path>)
    requires Named(paths)
    ensures |r| == |paths|
    ensures forall i :: 0 <= i < |paths| ==>
      r[i].name == paths[i].name && r[i].transportation == paths[i].transportation
      && |r[i].points| == |paths[i].points|
  {
    CentresCover(paths, radius, dist);
    var centres := MatchCentres(paths, radius, dist);
    seq(|paths|, i requires 0 <= i < |paths| => paths[i].(points := SnapAll(paths[i].points, centres, dist)))
  }

  /** Every point moves to the centroid, among the groups of its own name,
      that is closest to it; the centroids are those of the points before
      any of them moved. */
  lemma MatchedNearest(paths: seq<Path>, radius: real, dist: Dist, i: nat, j: nat) returns (k: nat)
    requires Named(paths)
    requires i < |paths| && j < |paths[i].points|
    ensures var p := paths[i].points[j];
      var q := Matched(paths, radius, dist)[i].points[j];
      var groups := Grouped(WithName(Flatten(paths), p.name.value), radius, dist);
      && q.ele == p.ele && q.time == p.time && q.name == p.name
      && k < |groups| && q.lat == Centroid(groups[k]).lat && q.lon == Centroid(groups[k]).lon
      && forall l :: 0 <= l < |groups| ==> dist(Centroid(groups[k]), p) <= dist(Centroid(groups[l]), p)
  {
    FlattenNamed(paths);
    ByNameGroups(Flatten(paths));
    var p := paths[i].points[j];
    var centres := MatchCentres(paths, radius, dist);
    var groups := Grouped(WithName(Flatten(paths), p.name.value), radius, dist);
    MatchedAt(paths, radius, dist, i);
    assert Matched(paths, radius, dist)[i].points[j] == Snap(p, centres, dist);
    k := SnapToCentroid(p, centres, groups, dist);
  }

  lemma SnapToCentroid(p: Point, centres: map<string, seq<Point>>, groups: seq<seq<Point>>, dist: Dist) returns (k: nat)
    requires Snappable(p, centres)
    requires forall g :: 0 <= g < |groups| ==> groups[g] != []
    requires centres[p.name.value] == Centroids(groups)
    ensures var q := Snap(p, centres, dist);
      && k < |groups| && q.lat == Centroid(groups[k]).lat && q.lon == Centroid(groups[k]).lon
      && forall l :: 0 <= l < |groups| ==> dist(Centroid(groups[k]), p) <= dist(Centroid(groups[l]), p)
  {
    var cs := centres[p.name.value];
    k := Closest(cs, p, dist, |cs|).value;
    assert cs[k] == Centroid(groups[k]);
    forall l | 0 <= l < |groups| ensures dist(Centroid(groups[k]), p) <= dist(Centroid(groups[l]), p) {
      assert cs[l] == Centroid(groups[l]);
    }
  }

  /** find_group: the scan over the groups. */
  method FindGroup(groups: seq<seq<Point>>, p: Point, radius: real, dist: Dist) returns (r: Option<nat>)
    ensures r == FirstFit(groups, p, radius, dist)
  {
    for g := 0 to |groups|
      invariant forall h :: 0 <= h < g ==> Nearby(groups[h], p, radius, dist).None?
    {
      var near := FindNearbyPoint(groups[g], p, radius, dist);
      if near.Some? {
        FirstFitFirst(groups, p, radius, dist, g);
        return Some(g);
      }
    }
    return None;
  }

  lemma {:induction false} FirstFitFirst(groups: seq<seq<Point>>, p: Point, radius: real, dist: Dist, g: nat)
    requires g < |groups| && Nearby(groups[g], p, radius, dist).Some?
    requires forall h :: 0 <= h < g ==> Nearby(groups[h], p, radius, dist).None?
    ensures FirstFit(groups, p, radius, dist) == Some(g)
  {
    var r := FirstFit(groups, p, radius, dist);
    assert r.Some?;
    assert !(r.value < g);
    assert !(r.value > g);
  }

  lemma GroupedStep(points: seq<Point>, i: nat, radius: real, dist: Dist)
    requires i < |points|
    ensures Grouped(points[..i + 1], radius, dist) == Insert(Grouped(points[..i], radius, dist), points[i], radius, dist)
  {
    var s := points[..i + 1];
    assert s[..|s| - 1] == points[..i];
    assert s[|s| - 1] == points[i];
  }

  /** group_points: each point joins the first group that has a member
      within radius, or opens a new group. */
  method GroupPoints(points: seq<Point>, radius: real, dist: Dist) returns (groups: seq<seq<Point>>)
    ensures groups == Grouped(points, radius, dist)
  {
    groups := [];
    for i := 0 to |points|
      invariant groups == Grouped(points[..i], radius, dist)
    {
      GroupedStep(points, i, radius, dist);
      ghost var next := Insert(groups, points[i], radius, dist);
      var g := FindGroup(groups, points[i], radius, dist);
      if g.None? {
        groups := groups + [[points[i]]];
      } else {
        groups := groups[g.value := groups[g.value] + [points[i]]];
      }
      assert groups == next;
    }
    assert points[..|points|] == points;
  }

  lemma ByNameStep(s: seq<Point>, p: Point)
    requires AllNamed(s) && p.name.Some?
    ensures AllNamed(s + [p])
    ensures var m := ByName(s); var n := p.name.value;
      ByName(s + [p]) == m[n := (if n in m then m[n] else []) + [p]]
  {
    assert (s + [p])[..|s|] == s;
  }

  lemma FlattenStep(paths: seq<Path>, i: nat)
    requires i < |paths|
    ensures Flatten(paths[..i + 1]) == Flatten(paths[..i]) + paths[i].points
  {
    assert paths[..i + 1][..i] == paths[..i];
  }

  /** The inner loop of all_points' construction: the points of one path are
      appended under their names, or point['name'] raises. */
  method CollectPoints(byName: map<string, seq<Point>>, done: seq<Point>, points: seq<Point>)
    returns (r: Option<map<string, seq<Point>>>)
    requires AllNamed(done) && byName == ByName(done)
    ensures r.None? <==> !AllNamed(points)
    ensures r.Some? ==> AllNamed(done + points) && r.value == ByName(done + points)
  {
    var m := byName;
    ghost var seen := done;
    for j := 0 to |points|
      invariant forall l :: 0 <= l < j ==> points[l].name.Some?
      invariant seen == done + points[..j]
      invariant AllNamed(seen) && m == ByName(seen)
    {
      var p := points[j];
      if p.name.None? {
        return None;
      }
      var n := p.name.value;
      ByNameStep(seen, p);
      m := m[n := (if n in m then m[n] else []) + [p]];
      seen := seen + [p];
      assert points[..j + 1] == points[..j] + [p];
    }
    assert points[..|points|] == points;
    return Some(m);
  }

  /** The all_points defaultdict, or None when some point has no name. */
  method CollectByName(paths: array<Path>) returns (r: Option<map<string, seq<Point>>>)
    ensures r.None? <==> !Named(paths[..])
    ensures r.Some? ==> AllNamed(Flatten(paths[..])) && r.value == ByName(Flatten(paths[..]))
  {
    var byName: map<string, seq<Point>> := map[];
    for i := 0 to paths.Length
      invariant AllNamed(Flatten(paths[..i])) && byName == ByName(Flatten(paths[..i]))
    {
      FlattenStep(paths[..], i);
      assert paths[..][..i] == paths[..i] && paths[..][..i + 1] == paths[..i + 1];
      var next := CollectPoints(byName, Flatten(paths[..i]), paths[i].points);
      if next.None? {
        var j :| 0 <= j < |paths[i].points| && paths[i].points[j].name.None?;
        assert paths[..][i].points[j].name.None?;
        return None;
      }
      byName := next.value;
    }
    assert paths[..paths.Length] == paths[..];
    FlattenNamed(paths[..]);
    return Some(byName);
  }

  /** all_group_coords, one name at a time; the order of the names does not
      matter. */
  method GroupCentres(byName: map<string, seq<Point>>, radius: real, dist: Dist)
    returns (centres: map<string, seq<Point>>)
    ensures centres == Centres(byName, radius, dist)
  {
    centres := map[];
    var todo := byName.Keys;
    while todo != {}
      invariant todo <= byName.Keys
      invariant centres.Keys == byName.Keys - todo
      invariant forall n :: n in centres ==> centres[n] == Centroids(Grouped(byName[n], radius, dist))
      decreases |todo|
    {
      var n :| n in todo;
      var groups := GroupPoints(byName[n], radius, dist);
      centres := centres[n := Centroids(groups)];
      todo := todo - {n};
    }
  }

  /** The innermost loop of _filter: each point of one path moves to its
      closest centroid. */
  method SnapPoints(points: seq<Point>, centres: map<string, seq<Point>>, dist: Dist) returns (moved: seq<Point>)
    requires forall j :: 0 <= j < |points| ==> Snappable(points[j], centres)
    ensures moved == SnapAll(points, centres, dist)
  {
    moved := [];
    for j := 0 to |points|
      invariant |moved| == j
      invariant forall l :: 0 <= l < j ==> moved[l] == Snap(points[l], centres, dist)
    {
      var p := points[j];
      var c := FindClosestPoint(centres[p.name.value], p, dist);
      moved := moved + [p.(lat := c.value.lat, lon := c.value.lon)];
    }
  }

  lemma MatchedAt(paths: seq<Path>, radius: real, dist: Dist, i: nat)
    requires Named(paths) && i < |paths|
    ensures forall j :: 0 <= j < |paths[i].points| ==> Snappable(paths[i].points[j], MatchCentres(paths, radius, dist))
    ensures Matched(paths, radius, dist)[i]
      == paths[i].(points := SnapAll(paths[i].points, MatchCentres(paths, radius, dist), dist))
  {
    CentresCover(paths, radius, dist);
  }

  /** name_match_filter(radius)(paths): fails with KeyError, before changing
      anything, when a point has no name; otherwise moves every point to the
      nearest centroid of its name's groups. */
  method NameMatchFilter(paths: array<Path>, radius: real, dist: Dist) returns (o: Outcome)
    modifies paths
    ensures o.Fail? <==> !Named(old(paths[..]))
    ensures o.Fail? ==> o.error == KeyError && paths[..] == old(paths[..])
    ensures Named(old(paths[..])) ==> paths[..] == Matched(old(paths[..]), radius, dist)
  {
    var byName := CollectByName(paths);
    if byName.None? {
      return Fail(KeyError);
    }
    ghost var before := paths[..];
    FlattenNamed(before);
    var centres := GroupCentres(byName.value, radius, dist);
    assert centres == MatchCentres(before, radius, dist);
    ghost var after := Matched(before, radius, dist);
    for i := 0 to paths.Length
      invariant forall k :: 0 <= k < i ==> paths[k] == after[k]
      invariant forall k :: i <= k < paths.Length ==> paths[k] == before[k]
    {
      MatchedAt(before, radius, dist, i);
      var moved := SnapPoints(paths[i].points, centres, dist);
      paths[i] := paths[i].(points := moved);
    }
    assert paths[..] == after;
    return Pass;
  }
}
