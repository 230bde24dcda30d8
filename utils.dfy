/**
 * utils.py: the slippy-map tile x index, the metric Mercator x coordinate,
 * the compass-suffixed coordinate reader and the Ramer-Douglas-Peucker
 * simplification with its perpendicular-distance helper.
 *
 * The Vincenty distance, the tile y formula and the Mercator y formula are
 * transcendental; the model takes them as function parameters. The square
 * root in the perpendicular distance is a parameter of type Root, which
 * only promises what every square root does: a value of at least 1 for an
 * argument of at least 1.
 */
module Utils {
  import opened Track
  import opened Text

  /** math.pi, written out to the digits Python prints. */
  const PI: real := 3.141592653589793

  /** Half the circumference of the spherical Mercator earth, in metres. */
  const ORIGIN_SHIFT: real := 2.0 * PI * 6378137.0 / 2.0

  /** The tile y formula (log, tan, cos of the latitude): latitude in degrees, zoom. */
  type TileYFn = (real, nat) -> int

  /** A square root, known only on arguments of at least 1. */
  type Root = f: real -> real | forall r :: 1.0 <= r ==> 1.0 <= f(r)
    witness (r: real) => if r < 1.0 then 1.0 else r

  // ---------------------------------------------------------------------
  // Tile and projection arithmetic (x / longitude part)
  // ---------------------------------------------------------------------

  /** osm_get_tile_xy, x part: int((lon + 180) / 360 * 2^zoom). */
  function TileX(lon: real, zoom: nat): int {
    Trunc((lon + 180.0) / 360.0 * Pow2(zoom) as real)
  }

  /** For a longitude in [-180, 180) the tile column is one of the 2^zoom columns. */
  lemma TileXInRange(lon: real, zoom: nat)
    requires -180.0 <= lon < 180.0
    ensures 0 <= TileX(lon, zoom) < Pow2(zoom)
  {
    var n := Pow2(zoom) as real;
    var f := (lon + 180.0) / 360.0;
    assert 0.0 <= f < 1.0;
    assert 0.0 <= f * n < n by {
      assert f * n <= f * n;
    }
  }

  /** osm_get_tile_xy: the tile column from the longitude, the row from the abstract y formula. */
  function TileXY(lat: real, lon: real, zoom: nat, tileY: TileYFn): (int, int) {
    (TileX(lon, zoom), tileY(lat, zoom))
  }

  /** latlng_to_xy, x part: metres east of the prime meridian. */
  function LatLngToX(lon: real): (x: real)
    ensures -180.0 <= lon <= 180.0 ==> -ORIGIN_SHIFT <= x <= ORIGIN_SHIFT
    ensures lon == 0.0 <==> x == 0.0
  {
    lon * ORIGIN_SHIFT / 180.0
  }

  /** The x coordinate keeps the order of longitudes. */
  lemma LatLngToXMonotonic(lon1: real, lon2: real)
    requires lon1 < lon2
    ensures LatLngToX(lon1) < LatLngToX(lon2)
  {
    assert LatLngToX(lon2) - LatLngToX(lon1) == (lon2 - lon1) * (ORIGIN_SHIFT / 180.0);
  }

  // ---------------------------------------------------------------------
  // parse_latlon
  // ---------------------------------------------------------------------

  predicate IsDigit(c: char) {
    '0' <= c <= '9'
  }

  predicate IsDigits(s: string) {
    |s| >= 1 && forall i :: 0 <= i < |s| ==> IsDigit(s[i])
  }

  /** The number part of LATLON_RE: [0-9]+\.[0-9]+ */
  predicate IsDecimal(s: string) {
    var k := IndexOf(s, '.');
    k < |s| && IsDigits(s[..k]) && IsDigits(s[k + 1..])
  }

  function DigitsValue(s: string): nat
    requires forall i :: 0 <= i < |s| ==> IsDigit(s[i])
  {
    if s == [] then 0
    else
      assert IsDigit(s[|s| - 1]);
      10 * DigitsValue(s[..|s| - 1]) + (s[|s| - 1] as int - '0' as int)
  }

  function Pow10(n: nat): (p: nat)
    ensures p >= 1
  {
    if n == 0 then 1 else 10 * Pow10(n - 1)
  }

  /** float() of a string of the form digits.digits, read exactly. */
  function DecimalValue(s: string): (v: real)
    requires IsDecimal(s)
    ensures v >= 0.0
  {
    var k := IndexOf(s, '.');
    DigitsValue(s[..k]) as real + DigitsValue(s[k + 1..]) as real / Pow10(|s| - k - 1) as real
  }

  /** LATLON_RE.match: the number text and the compass letter. The trailing
      '$' also matches just before a final newline. */
  function MatchLatLon(value: string): (m: Option<(string, char)>)
    ensures m.Some? ==> IsDecimal(m.value.0) && m.value.1 in "NSEW"
    ensures m.Some? ==> value == m.value.0 + [m.value.1] || value == m.value.0 + [m.value.1] + "\n"
  {
    var body := if |value| >= 1 && value[|value| - 1] == '\n' then value[..|value| - 1] else value;
    if |body| >= 1 && body[|body| - 1] in "NSEW" && IsDecimal(body[..|body| - 1]) then
      assert body == body[..|body| - 1] + [body[|body| - 1]];
      Some((body[..|body| - 1], body[|body| - 1]))
    else None
  }

  /** Every decimal followed by a compass letter, with or without a final newline, matches. */
  lemma MatchLatLonComplete(num: string, dir: char)
    requires IsDecimal(num) && dir in "NSEW"
    ensures MatchLatLon(num + [dir]) == Some((num, dir))
    ensures MatchLatLon(num + [dir] + "\n") == Some((num, dir))
  {
    var s := num + [dir];
    assert s[|s| - 1] == dir && dir != '\n';
    assert s[..|s| - 1] == num;
    var t := s + "\n";
    assert t[|t| - 1] == '\n';
    assert t[..|t| - 1] == s;
  }

  /** parse_latlon (utils.py): float(value) when that succeeds, otherwise a
      compass-suffixed decimal signed by its letter, otherwise None. */
  function ParseLatLon(value: string, parseFloat: string -> Option<real>): (r: Option<real>)
    ensures parseFloat(value).Some? ==> r == parseFloat(value)
    ensures parseFloat(value).None? && MatchLatLon(value).None? ==> r.None?
    ensures parseFloat(value).None? && MatchLatLon(value).Some? ==>
      var (num, dir) := MatchLatLon(value).value;
      r.Some? && (dir in "NE" ==> r.value == DecimalValue(num)) && (dir in "SW" ==> r.value == -DecimalValue(num))
  {
    match parseFloat(value)
    case Some(v) => Some(v)
    case None =>
      match MatchLatLon(value)
      case None => None
      case Some((num, dir)) =>
        if dir == 'N' || dir == 'E' then Some(DecimalValue(num))
        else Some(-DecimalValue(num))
  }

  /** A compass-suffixed decimal that float() rejects reads as its value,
      positive for N and E, negative for S and W. */
  lemma ParseLatLonCompass(num: string, dir: char, parseFloat: string -> Option<real>)
    requires IsDecimal(num) && dir in "NSEW"
    requires parseFloat(num + [dir]) == None
    ensures ParseLatLon(num + [dir], parseFloat) ==
      Some(if dir == 'N' || dir == 'E' then DecimalValue(num) else -DecimalValue(num))
  {
    MatchLatLonComplete(num, dir);
  }

  /** "12.5S" reads as -12.5 wherever float() rejects it. */
  lemma ParseLatLonExample(parseFloat: string -> Option<real>)
    requires parseFloat("12.5S") == None
    ensures ParseLatLon("12.5S", parseFloat) == Some(-12.5)
  {
    assert IndexOf("12.5S"[..4], '.') == 2;
    assert "12.5S"[..4] == "12.5";
    assert IndexOf("12.5", '.') == 2;
    assert "12.5"[..2] == "12" && "12.5"[3..] == "5";
    assert DigitsValue("12") == 12 by {
      assert "12"[..1] == "1";
      assert DigitsValue("1") == 1 by { assert "1"[..0] == ""; }
    }
    assert DigitsValue("5") == 5 by { assert "5"[..0] == ""; }
    assert MatchLatLon("12.5S") == Some(("12.5", 'S'));
  }

  // ---------------------------------------------------------------------
  // Ramer-Douglas-Peucker
  // ---------------------------------------------------------------------

  /** A point decorated with its projected coordinates, as decorate_path_with_xy builds it. */
  datatype XYPoint = XYPoint(lat: real, lon: real, x: real, y: real)

  /** perpendicular_distance: distance of p from the line through p1 and p2;
      the horizontal offset when that line is vertical. */
  function PerpendicularDistance(p: XYPoint, p1: XYPoint, p2: XYPoint, root: Root): (d: real)
    ensures d >= 0.0
    ensures p1.x == p2.x ==> d == Abs(p.x - p1.x)
  {
    if p1.x == p2.x then Abs(p.x - p1.x)
    else
      var slope := (p2.y - p1.y) / (p2.x - p1.x);
      var intercept := p1.y - slope * p1.x;
      assert 1.0 <= slope * slope + 1.0;
      Abs(slope * p.x - p.y + intercept) / root(slope * slope + 1.0)
  }

  /** Both ends of the chord lie on it. */
  lemma ChordEndsOnChord(p1: XYPoint, p2: XYPoint, root: Root)
    ensures PerpendicularDistance(p1, p1, p2, root) == 0.0
    ensures PerpendicularDistance(p2, p1, p2, root) == 0.0
  {
    if p1.x != p2.x {
      var slope := (p2.y - p1.y) / (p2.x - p1.x);
      assert slope * (p2.x - p1.x) == p2.y - p1.y;
      assert slope * p2.x - p2.y + (p1.y - slope * p1.x) == 0.0;
    }
  }

  /** Distance of path[i] from the chord from the first to the last point. */
  function ChordDistance(path: seq<XYPoint>, i: nat, root: Root): real
    requires i < |path|
  {
    PerpendicularDistance(path[i], path[0], path[|path| - 1], root)
  }

  /** What the loop of simplify holds after looking at path[1..k]: the
      largest distance seen (0 to start with) and the first index where it
      was reached, None while no distance has exceeded 0. */
  function Scan(path: seq<XYPoint>, k: nat, root: Root): (r: (real, Option<nat>))
    requires 1 <= k <= |path|
    ensures r.0 >= 0.0
    ensures r.1.None? <==> r.0 == 0.0
    ensures r.1.Some? ==> 1 <= r.1.value < k && r.0 == ChordDistance(path, r.1.value, root)
  {
    if k == 1 then (0.0, None)
    else
      var (m, index) := Scan(path, k - 1, root);
      var d := ChordDistance(path, k - 1, root);
      if d > m then (d, Some(k - 1)) else (m, index)
  }

  /** The scan finds the largest distance, at its first occurrence, and
      finds no index when every point lies on the chord. */
  lemma {:induction false} ScanMaximum(path: seq<XYPoint>, k: nat, root: Root)
    requires 1 <= k <= |path|
    ensures var r := Scan(path, k, root);
      && (forall i :: 1 <= i < k ==> ChordDistance(path, i, root) <= r.0)
      && (r.1.None? ==> forall i :: 1 <= i < k ==> ChordDistance(path, i, root) == 0.0)
      && (r.1.Some? ==> forall i :: 1 <= i < r.1.value ==> ChordDistance(path, i, root) < r.0)
  {
    if k > 1 {
      ScanMaximum(path, k - 1, root);
    }
  }

  /** The last point is never the split point, so both halves are shorter. */
  lemma SplitInside(path: seq<XYPoint>, root: Root)
    requires |path| >= 1
    ensures var r := Scan(path, |path|, root); r.1.Some? ==> r.1.value < |path| - 1
  {
    ChordEndsOnChord(path[0], path[|path| - 1], root);
  }

  /** utils.simplify as a function of the input. Err(TypeError) is the
      slice path[:None + 1] that a negative epsilon reaches when every
      point lies on the chord. */
  function Rdp(path: seq<XYPoint>, epsilon: real, root: Root): (r: Result<seq<XYPoint>>)
    ensures r.Ok? ==> |r.value| <= |path|
    ensures r.Ok? && |path| >= 2 ==> |r.value| >= 2
    decreases |path|
  {
    if |path| < 3 then Ok(path)
    else
      var (maxD, index) := Scan(path, |path|, root);
      if maxD > epsilon then
        if index.None? then Err(TypeError)
        else
          var k := index.value;
          SplitInside(path, root);
          match Rdp(path[..k + 1], epsilon, root)
          case Err(e) => Err(e)
          case Ok(left) =>
            match Rdp(path[k..], epsilon, root)
            case Err(e) => Err(e)
            case Ok(right) => Ok(left[..|left| - 1] + right)
      else
        Ok([path[0], path[|path| - 1]])
  }

  /** A path of fewer than three points comes back unchanged. */
  lemma RdpShortUnchanged(path: seq<XYPoint>, epsilon: real, root: Root)
    requires |path| < 3
    ensures Rdp(path, epsilon, root) == Ok(path)
  {
  }

  /** With a non-negative tolerance simplification never fails. */
  lemma {:induction false} RdpTotal(path: seq<XYPoint>, epsilon: real, root: Root)
    requires epsilon >= 0.0
    ensures Rdp(path, epsilon, root).Ok?
    decreases |path|
  {
    if |path| >= 3 {
      var (maxD, index) := Scan(path, |path|, root);
      if maxD > epsilon {
        var k := index.value;
        SplitInside(path, root);
        RdpTotal(path[..k + 1], epsilon, root);
        RdpTotal(path[k..], epsilon, root);
      }
    }
  }

  /** With a negative tolerance a path of three or more points on one line fails. */
  lemma RdpNegativeEpsilonOnLine(path: seq<XYPoint>, epsilon: real, root: Root)
    requires epsilon < 0.0 && |path| >= 3
    requires forall i :: 1 <= i < |path| ==> ChordDistance(path, i, root) == 0.0
    ensures Rdp(path, epsilon, root) == Err(TypeError)
  {
  }

  /** If no point is farther than epsilon from the chord, only the ends remain. */
  lemma RdpCollapses(path: seq<XYPoint>, epsilon: real, root: Root)
    requires |path| >= 3
    requires forall i :: 1 <= i < |path| ==> ChordDistance(path, i, root) <= epsilon
    ensures Rdp(path, epsilon, root) == Ok([path[0], path[|path| - 1]])
  {
    var r := Scan(path, |path|, root);
    if r.1.Some? {
      assert ChordDistance(path, r.1.value, root) <= epsilon;
    } else {
      assert ChordDistance(path, 1, root) <= epsilon;
    }
  }

  /** r is s with some elements left out, in order: r[j] is s[idx[j]]. */
  ghost predicate SubsequenceAt<T>(r: seq<T>, s: seq<T>, idx: seq<nat>) {
    && |idx| == |r|
    && (forall j :: 0 <= j < |idx| ==> idx[j] < |s| && r[j] == s[idx[j]])
    && (forall j, l :: 0 <= j < l < |idx| ==> idx[j] < idx[l])
  }

  function Shift(idx: seq<nat>, k: nat): (r: seq<nat>)
    ensures |r| == |idx| && forall j :: 0 <= j < |idx| ==> r[j] == idx[j] + k
  {
    seq(|idx|, j requires 0 <= j < |idx| => idx[j] + k)
  }

  /** One level of the recursion: when the farthest point at index k is
      beyond epsilon, the result is the left half without its last point
      followed by the right half. */
  lemma RdpSplit(path: seq<XYPoint>, epsilon: real, root: Root) returns (k: nat)
    requires |path| >= 3
    requires Rdp(path, epsilon, root).Ok?
    requires Scan(path, |path|, root).0 > epsilon
    ensures Scan(path, |path|, root).1 == Some(k) && 1 <= k < |path| - 1
    ensures Rdp(path[..k + 1], epsilon, root).Ok? && Rdp(path[k..], epsilon, root).Ok?
    ensures var left := Rdp(path[..k + 1], epsilon, root).value;
      Rdp(path, epsilon, root).value == left[..|left| - 1] + Rdp(path[k..], epsilon, root).value
  {
    SplitInside(path, root);
    k := Scan(path, |path|, root).1.value;
  }

  /** r is a subsequence of s at idx that starts at s's first element and
      ends at its last one. */
  ghost predicate AnchoredAt<T>(r: seq<T>, s: seq<T>, idx: seq<nat>) {
    && SubsequenceAt(r, s, idx)
    && (|s| >= 1 ==> |idx| >= 1 && idx[0] == 0 && idx[|idx| - 1] == |s| - 1)
  }

  /** Two anchored subsequences of the halves s[..k+1] and s[k..], which share
      s[k], join into an anchored subsequence of s. */
  lemma JoinHalves<T>(s: seq<T>, k: nat, left: seq<T>, il: seq<nat>, right: seq<T>, ir: seq<nat>) returns (idx: seq<nat>)
    requires 1 <= k < |s|
    requires AnchoredAt(left, s[..k + 1], il)
    requires AnchoredAt(right, s[k..], ir)
    ensures AnchoredAt(left[..|left| - 1] + right, s, idx)
  {
    var out := left[..|left| - 1] + right;
    idx := il[..|il| - 1] + Shift(ir, k);
    assert il[|il| - 1] == k;
    forall j | 0 <= j < |idx|
      ensures idx[j] < |s| && out[j] == s[idx[j]]
    {
      if j < |il| - 1 {
        assert idx[j] == il[j];
        assert out[j] == left[j];
      } else {
        var j' := j - (|il| - 1);
        assert idx[j] == ir[j'] + k;
        assert out[j] == right[j'];
      }
    }
    forall j, l | 0 <= j < l < |idx|
      ensures idx[j] < idx[l]
    {
      if l < |il| - 1 {
        assert idx[j] == il[j] && idx[l] == il[l];
      } else if j < |il| - 1 {
        assert idx[j] == il[j] < il[|il| - 1] == k;
        assert idx[l] == ir[l - (|il| - 1)] + k;
      } else {
        assert idx[j] == ir[j - (|il| - 1)] + k;
        assert idx[l] == ir[l - (|il| - 1)] + k;
      }
    }
    assert idx[|idx| - 1] == ir[|ir| - 1] + k;
  }

  /** The simplified path is an order-preserving subsequence of the input
      that keeps its first and its last point. */
  lemma {:induction false} RdpSubsequence(path: seq<XYPoint>, epsilon: real, root: Root) returns (idx: seq<nat>)
    requires Rdp(path, epsilon, root).Ok?
    ensures AnchoredAt(Rdp(path, epsilon, root).value, path, idx)
    decreases |path|
  {
    if |path| < 3 {
      idx := seq(|path|, j requires 0 <= j < |path| => j);
      assert AnchoredAt(path, path, idx);
    } else if Scan(path, |path|, root).0 <= epsilon {
      idx := [0, |path| - 1];
      assert AnchoredAt([path[0], path[|path| - 1]], path, idx);
    } else {
      var k := RdpSplit(path, epsilon, root);
      var left := Rdp(path[..k + 1], epsilon, root).value;
      var right := Rdp(path[k..], epsilon, root).value;
      var il := RdpSubsequence(path[..k + 1], epsilon, root);
      var ir := RdpSubsequence(path[k..], epsilon, root);
      idx := JoinHalves(path, k, left, il, right, ir);
    }
  }

  /** When some point is farther than epsilon, the farthest one is kept. */
  lemma RdpKeepsFarthest(path: seq<XYPoint>, epsilon: real, root: Root)
    requires |path| >= 3
    requires Rdp(path, epsilon, root).Ok?
    requires exists i :: 1 <= i < |path| && ChordDistance(path, i, root) > epsilon
    ensures Scan(path, |path|, root).1.Some?
    ensures path[Scan(path, |path|, root).1.value] in Rdp(path, epsilon, root).value
  {
    var i :| 1 <= i < |path| && ChordDistance(path, i, root) > epsilon;
    ScanMaximum(path, |path|, root);
    assert Scan(path, |path|, root).0 > epsilon;
    var k := RdpSplit(path, epsilon, root);
    var right := Rdp(path[k..], epsilon, root).value;
    var ir := RdpSubsequence(path[k..], epsilon, root);
    assert right[0] == path[k..][0] == path[k];
    var left := Rdp(path[..k + 1], epsilon, root).value;
    assert Rdp(path, epsilon, root).value[|left| - 1] == right[0];
  }

  /** The scan settles on index j with distance m when every point before
      j is strictly closer and none after it is farther. */
  lemma {:induction false} ScanIs(path: seq<XYPoint>, k: nat, root: Root, m: real, j: nat)
    requires 1 <= j < k <= |path|
    requires ChordDistance(path, j, root) == m && m > 0.0
    requires forall i :: 1 <= i < j ==> ChordDistance(path, i, root) < m
    requires forall i :: j < i < k ==> ChordDistance(path, i, root) <= m
    ensures Scan(path, k, root) == (m, Some(j))
    decreases k
  {
    if k > j + 1 {
      ScanIs(path, k - 1, root, m, j);
    } else {
      var before := Scan(path, j, root);
      assert before.0 < m by {
        if before.1.Some? {
          assert ChordDistance(path, before.1.value, root) < m;
        }
      }
    }
  }

  /** A point of a subsequence with the same ends lies as far from the chord
      as it does in the full path. */
  lemma SameChord(r: seq<XYPoint>, i: nat, path: seq<XYPoint>, pi: nat, root: Root)
    requires i < |r| && pi < |path|
    requires r[0] == path[0] && r[|r| - 1] == path[|path| - 1] && r[i] == path[pi]
    ensures ChordDistance(r, i, root) == ChordDistance(path, pi, root)
  {
  }

  /** The points kept from the left half before the split point are
      strictly closer to the chord than the split point. */
  lemma RejoinedBefore(path: seq<XYPoint>, k: nat, root: Root, r: seq<XYPoint>, left: seq<XYPoint>, il: seq<nat>)
    requires 1 <= k < |path| - 1
    requires Scan(path, |path|, root).1 == Some(k)
    requires AnchoredAt(left, path[..k + 1], il) && |left| >= 2
    requires |r| >= |left| && r[..|left| - 1] == left[..|left| - 1]
    requires r[0] == path[0] && r[|r| - 1] == path[|path| - 1]
    ensures forall i :: 1 <= i < |left| - 1 ==> ChordDistance(r, i, root) < ChordDistance(path, k, root)
  {
    ScanMaximum(path, |path|, root);
    forall i | 1 <= i < |left| - 1
      ensures ChordDistance(r, i, root) < ChordDistance(path, k, root)
    {
      assert il[0] < il[i] < il[|il| - 1];
      assert r[i] == left[i] == path[il[i]];
      SameChord(r, i, path, il[i], root);
    }
  }

  /** The points kept from the right half after the split point are no
      farther from the chord than the split point. */
  lemma RejoinedAfter(path: seq<XYPoint>, k: nat, root: Root, r: seq<XYPoint>, j: nat, right: seq<XYPoint>, ir: seq<nat>)
    requires 1 <= k < |path| - 1
    requires Scan(path, |path|, root).1 == Some(k)
    requires AnchoredAt(right, path[k..], ir)
    requires j + |right| == |r| && r[j..] == right
    requires r[0] == path[0] && r[|r| - 1] == path[|path| - 1]
    ensures forall i :: j < i < |r| ==> ChordDistance(r, i, root) <= ChordDistance(path, k, root)
  {
    ScanMaximum(path, |path|, root);
    forall i | j < i < |r|
      ensures ChordDistance(r, i, root) <= ChordDistance(path, k, root)
    {
      var t := i - j;
      assert ir[0] < ir[t];
      assert r[i] == right[t] == path[k + ir[t]];
      SameChord(r, i, path, k + ir[t], root);
    }
  }

  /** An anchored subsequence keeps the first and the last element. */
  lemma AnchoredEnds<T>(r: seq<T>, s: seq<T>, idx: seq<nat>)
    requires AnchoredAt(r, s, idx) && |s| >= 1
    ensures |r| >= 1 && r[0] == s[0] && r[|r| - 1] == s[|s| - 1]
  {
  }

  /** The two pieces of left[..|left|-1] + right, seen from the joined sequence. */
  lemma JoinPieces<T>(left: seq<T>, right: seq<T>)
    requires |left| >= 1 && |right| >= 1 && left[|left| - 1] == right[0]
    ensures var r := left[..|left| - 1] + right; var j := |left| - 1;
      && r[..j + 1] == left && r[j..] == right && r[j] == right[0]
  {
  }

  /** Rejoining the simplified halves around the split point k: the scan of
      the result settles on the split point again, where the two halves meet. */
  lemma RejoinedScan(path: seq<XYPoint>, k: nat, root: Root, left: seq<XYPoint>, il: seq<nat>, right: seq<XYPoint>, ir: seq<nat>)
    requires 1 <= k < |path| - 1
    requires Scan(path, |path|, root).1 == Some(k)
    requires AnchoredAt(left, path[..k + 1], il) && AnchoredAt(right, path[k..], ir)
    requires |left| >= 2 && |right| >= 2
    ensures var r := left[..|left| - 1] + right; var j: nat := |left| - 1;
      && |r| >= 3 && j < |r|
      && Scan(r, |r|, root) == (ChordDistance(r, j, root), Some(j))
      && r[..j + 1] == left && r[j..] == right
  {
    var r := left[..|left| - 1] + right;
    var j := |left| - 1;
    AnchoredEnds(left, path[..k + 1], il);
    AnchoredEnds(right, path[k..], ir);
    JoinPieces(left, right);
    assert r[0] == path[0] && r[j] == path[k] && r[|r| - 1] == path[|path| - 1];
    SameChord(r, j, path, k, root);
    RejoinedBefore(path, k, root, r, left, il);
    RejoinedAfter(path, k, root, r, j, right, ir);
    ScanIs(r, |r|, root, ChordDistance(path, k, root), j);
  }

  /** Simplifying a simplified path with the same tolerance changes nothing. */
  lemma {:induction false} RdpIdempotent(path: seq<XYPoint>, epsilon: real, root: Root)
    requires Rdp(path, epsilon, root).Ok?
    ensures Rdp(Rdp(path, epsilon, root).value, epsilon, root) == Rdp(path, epsilon, root)
    decreases |path|
  {
    if |path| >= 3 && Scan(path, |path|, root).0 > epsilon {
      var k := RdpSplit(path, epsilon, root);
      var lp, rp := path[..k + 1], path[k..];
      var left, right := Rdp(lp, epsilon, root).value, Rdp(rp, epsilon, root).value;
      RdpIdempotent(lp, epsilon, root);
      RdpIdempotent(rp, epsilon, root);
      var il := RdpSubsequence(lp, epsilon, root);
      var ir := RdpSubsequence(rp, epsilon, root);
      RejoinedScan(path, k, root, left, il, right, ir);
      var r := left[..|left| - 1] + right;
      RdpHalves(r, epsilon, root, |left| - 1);
    } else if |path| >= 3 {
      RdpNoSplit(path, epsilon, root);
    }
  }

  /** The scanning loop of simplify (utils.py:91-97). */
  method FarthestPoint(path: seq<XYPoint>, root: Root) returns (maxD: real, index: Option<nat>)
    requires |path| >= 1
    ensures (maxD, index) == Scan(path, |path|, root)
  {
    maxD, index := 0.0, None;
    for i := 1 to |path|
      invariant (maxD, index) == Scan(path, i, root)
    {
      var d := PerpendicularDistance(path[i], path[0], path[|path| - 1], root);
      if d > maxD {
        maxD, index := d, Some(i);
      }
    }
  }

  /** utils.simplify: recursion on the two halves around the farthest point. */
  method Simplify(path: seq<XYPoint>, epsilon: real, root: Root) returns (r: Result<seq<XYPoint>>)
    ensures r == Rdp(path, epsilon, root)
    decreases |path|
  {
    if |path| < 3 {
      return Ok(path);
    }
    var maxD, index := FarthestPoint(path, root);
    RdpNoSplit(path, epsilon, root);
    if maxD <= epsilon {
      assert Rdp(path, epsilon, root) == Ok([path[0], path[|path| - 1]]);
      return Ok([path[0], path[|path| - 1]]);
    }
    if index.None? {
      assert Rdp(path, epsilon, root) == Err(TypeError);
      return Err(TypeError);
    }
    var k := index.value;
    RdpHalves(path, epsilon, root, k);
    var left := Simplify(path[..k + 1], epsilon, root);
    if left.Err? {
      assert Rdp(path, epsilon, root) == left;
      return left;
    }
    var right := Simplify(path[k..], epsilon, root);
    if right.Err? {
      assert Rdp(path, epsilon, root) == right;
      return right;
    }
    assert Rdp(path, epsilon, root) == Ok(left.value[..|left.value| - 1] + right.value);
    return Ok(left.value[..|left.value| - 1] + right.value);
  }

  /** Rdp unfolded once where it does not recurse. */
  lemma RdpNoSplit(path: seq<XYPoint>, epsilon: real, root: Root)
    requires |path| >= 3
    ensures Scan(path, |path|, root).0 <= epsilon ==> Rdp(path, epsilon, root) == Ok([path[0], path[|path| - 1]])
    ensures Scan(path, |path|, root).0 > epsilon && Scan(path, |path|, root).1.None? ==> Rdp(path, epsilon, root) == Err(TypeError)
  {
  }

  /** Rdp unfolded once where the farthest point, at k, lies beyond epsilon. */
  lemma RdpHalves(path: seq<XYPoint>, epsilon: real, root: Root, k: nat)
    requires |path| >= 3
    requires k < |path| && Scan(path, |path|, root) == (ChordDistance(path, k, root), Some(k))
    requires ChordDistance(path, k, root) > epsilon
    ensures 1 <= k < |path| - 1
    ensures Rdp(path[..k + 1], epsilon, root).Err? ==> Rdp(path, epsilon, root) == Rdp(path[..k + 1], epsilon, root)
    ensures Rdp(path[..k + 1], epsilon, root).Ok? && Rdp(path[k..], epsilon, root).Err? ==>
      Rdp(path, epsilon, root) == Rdp(path[k..], epsilon, root)
    ensures Rdp(path[..k + 1], epsilon, root).Ok? && Rdp(path[k..], epsilon, root).Ok? ==>
      Rdp(path, epsilon, root) == Ok(Rdp(path[..k + 1], epsilon, root).value[..|Rdp(path[..k + 1], epsilon, root).value| - 1] + Rdp(path[k..], epsilon, root).value)
  {
    SplitInside(path, root);
  }
}
