/**
 * gpxview.py: the older stand-alone viewer. Its filters are those of
 * filters.py (module Filters) and its minmax and absolute those of
 * out_svg.py (module Svg). What is its own: parse_latlon as it stands,
 * a GPX handler that keeps only positions and names, and the tally of
 * gen_svg (the projected extent and the point and segment weights).
 */
module GpxView {
  import opened Track
  import opened Text
  import opened Utils
  import Gpx
  import Svg

  // ---------------------------------------------------------------------
  // parse_latlon

  /** parse_latlon as gpxview.py writes it: float(value); for any text
      float() rejects, the handler names self, which a free function does
      not have, so the lookup raises NameError before the pattern is tried. */
  function ParseLatLonAsWritten(value: string, parseFloat: Gpx.ParseFloat): (r: Result<real>)
    ensures r.Ok? <==> parseFloat(value).Some?
    ensures r.Ok? ==> r.value == parseFloat(value).value
    ensures r.Err? ==> r.error == NameError
  {
    match parseFloat(value)
    case Some(v) => Ok(v)
    case None => Err(NameError)
  }

  /** The two agree on every text float() reads. */
  lemma ParseLatLonAgree(value: string, parseFloat: Gpx.ParseFloat)
    requires parseFloat(value).Some?
    ensures ParseLatLon(value, parseFloat).Some?
    ensures ParseLatLonAsWritten(value, parseFloat) == Ok(ParseLatLon(value, parseFloat).value)
  {
  }

  /** "12.5S": the corrected parse_latlon reads -12.5, the one as written raises. */
  lemma ParseLatLonBroken(parseFloat: Gpx.ParseFloat)
    requires parseFloat("12.5S") == None
    ensures ParseLatLonAsWritten("12.5S", parseFloat) == Err(NameError)
    ensures ParseLatLon("12.5S", parseFloat) == Some(-12.5)
  {
    ParseLatLonExample(parseFloat);
  }

  // ---------------------------------------------------------------------
  // The handler

  /** The handler's fields. A point holds its position and, once a name
      element sets it, its name. paths holds None where a path element
      closed while no path was open. */
  datatype State = State(xmlPath: seq<string>, point: Option<Point>, path: Option<Path>, paths: seq<Option<Path>>)

  const INIT: State := State([], None, None, [])

  /** startElement. The coordinates are read with the corrected
      parse_latlon (see ParseLatLonBroken). */
  function Start(t: Gpx.ParseType, st: State, name: string, attrs: map<string, string>, parseFloat: Gpx.ParseFloat): Result<State> {
    var st' := st.(xmlPath := st.xmlPath + [name]);
    if name == Gpx.PointElement(t) then
      if "lat" !in attrs || "lon" !in attrs then Err(KeyError)
      else
        match (ParseLatLon(attrs["lat"], parseFloat), ParseLatLon(attrs["lon"], parseFloat))
        case (Some(lat), Some(lon)) => Ok(st'.(point := Some(Position(lat, lon))))
        case _ => Err(NoCoordinate)
    else if name == Gpx.PathElement(t) then
      Ok(st'.(path := Some(Path(None, None, []))))
    else
      Ok(st')
  }

  /** characters: only name text is kept, stripped. */
  function Chars(t: Gpx.ParseType, st: State, content: string): Result<State> {
    var tail := Gpx.LastTwo(st.xmlPath);
    if tail == [Gpx.PathElement(t), "name"] then
      if st.path.None? then Err(TypeError)
      else Ok(st.(path := Some(st.path.value.(name := Some(Strip(content))))))
    else if tail == [Gpx.PointElement(t), "name"] then
      if st.point.None? then Err(TypeError)
      else Ok(st.(point := Some(st.point.value.(name := Some(Strip(content))))))
    else
      Ok(st)
  }

  /** endElement. */
  function End(t: Gpx.ParseType, st: State, name: string): Result<State> {
    if st.xmlPath == [] then Err(IndexError)
    else
      var st' := st.(xmlPath := st.xmlPath[..|st.xmlPath| - 1]);
      if name == Gpx.PointElement(t) then
        if st.path.None? || st.point.None? then Err(TypeError)
        else Ok(st'.(path := Some(st.path.value.(points := st.path.value.points + [st.point.value])), point := None))
      else if name == Gpx.PathElement(t) then
        Ok(st'.(paths := st.paths + [st.path], path := None))
      else
        Ok(st')
  }

  function Step(t: Gpx.ParseType, st: State, e: Gpx.Event, parseFloat: Gpx.ParseFloat): Result<State> {
    match e
    case StartElement(name, attrs) => Start(t, st, name, attrs, parseFloat)
    case Characters(content) => Chars(t, st, content)
    case EndElement(name) => End(t, st, name)
  }

  /** The handler after the callbacks of events, stopping at the first exception. */
  function Run(t: Gpx.ParseType, st: State, events: seq<Gpx.Event>, parseFloat: Gpx.ParseFloat): Result<State>
    decreases |events|
  {
    if events == [] then Ok(st)
    else match Step(t, st, events[0], parseFloat)
      case Err(e) => Err(e)
      case Ok(st') => Run(t, st', events[1..], parseFloat)
  }

  /** parse_gpx: every callback of the document, then the handler's paths. */
  function ParseDocument(t: Gpx.ParseType, events: seq<Gpx.Event>, parseFloat: Gpx.ParseFloat): Result<seq<Option<Path>>> {
    match Run(t, INIT, events, parseFloat)
    case Err(e) => Err(e)
    case Ok(st) => Ok(st.paths)
  }

  /** startElement pushes the name; a point starts at its parsed position
      with no name, a path with no points; paths is untouched. */
  lemma StartPushes(t: Gpx.ParseType, st: State, name: string, attrs: map<string, string>, parseFloat: Gpx.ParseFloat)
    ensures Start(t, st, name, attrs, parseFloat).Ok? ==>
      Start(t, st, name, attrs, parseFloat).value.xmlPath == st.xmlPath + [name] &&
      Start(t, st, name, attrs, parseFloat).value.paths == st.paths
    ensures name == Gpx.PointElement(t) ==>
      if "lat" !in attrs || "lon" !in attrs then Start(t, st, name, attrs, parseFloat) == Err(KeyError)
      else if ParseLatLon(attrs["lat"], parseFloat).None? || ParseLatLon(attrs["lon"], parseFloat).None? then
        Start(t, st, name, attrs, parseFloat) == Err(NoCoordinate)
      else
        Start(t, st, name, attrs, parseFloat).Ok? &&
        Start(t, st, name, attrs, parseFloat).value.point ==
          Some(Point(ParseLatLon(attrs["lat"], parseFloat).value, ParseLatLon(attrs["lon"], parseFloat).value, None, None, None))
    ensures name == Gpx.PathElement(t) ==>
      Start(t, st, name, attrs, parseFloat).Ok? && Start(t, st, name, attrs, parseFloat).value.path == Some(Path(None, None, []))
  {
  }

  /** Name text overwrites: of two pieces only the last counts, stripped;
      characters leaves the stack and paths alone. */
  lemma CharsNameOverwrites(t: Gpx.ParseType, st: State, a: string, b: string)
    requires Chars(t, st, a).Ok?
    ensures Chars(t, st, a).value.xmlPath == st.xmlPath && Chars(t, st, a).value.paths == st.paths
    ensures Chars(t, Chars(t, st, a).value, b) == Chars(t, st, b)
    ensures Gpx.LastTwo(st.xmlPath) == [Gpx.PointElement(t), "name"] ==>
      Chars(t, st, b).Ok? && Chars(t, st, b).value.point.value.name == Some(Strip(b))
    ensures Gpx.LastTwo(st.xmlPath) == [Gpx.PathElement(t), "name"] ==>
      Chars(t, st, b).Ok? && Chars(t, st, b).value.path.value.name == Some(Strip(b))
  {
    assert Gpx.PathElement(t) != Gpx.PointElement(t);
  }

  /** endElement pops; closing a point appends it to the open path, closing
      a path appends it to paths; no other element changes anything else. */
  lemma EndAppends(t: Gpx.ParseType, st: State, name: string)
    ensures End(t, st, name).Err? <==>
      st.xmlPath == [] || (name == Gpx.PointElement(t) && (st.path.None? || st.point.None?))
    ensures End(t, st, name).Ok? ==> var st' := End(t, st, name).value;
      && st'.xmlPath == st.xmlPath[..|st.xmlPath| - 1]
      && (name == Gpx.PointElement(t) ==>
            st'.path == Some(st.path.value.(points := st.path.value.points + [st.point.value]))
            && st'.point == None && st'.paths == st.paths)
      && (name == Gpx.PathElement(t) ==> st'.paths == st.paths + [st.path] && st'.path == None && st'.point == st.point)
      && (name != Gpx.PointElement(t) && name != Gpx.PathElement(t) ==>
            st'.paths == st.paths && st'.path == st.path && st'.point == st.point)
  {
    assert Gpx.PathElement(t) != Gpx.PointElement(t);
  }

  /** One callback keeps the stack discipline and adds an entry to paths
      exactly when it closes a path element. */
  lemma StepInvariants(t: Gpx.ParseType, st: State, e: Gpx.Event, parseFloat: Gpx.ParseFloat)
    requires Step(t, st, e, parseFloat).Ok?
    ensures var st' := Step(t, st, e, parseFloat).value;
      && st'.xmlPath == Gpx.StackStep(st.xmlPath, e)
      && st'.paths == (if e == Gpx.EndElement(Gpx.PathElement(t)) then st.paths + [st.path] else st.paths)
  {
    match e
    case StartElement(name, attrs) =>
      StartPushes(t, st, name, attrs, parseFloat);
    case Characters(content) =>
      CharsNameOverwrites(t, st, content, content);
    case EndElement(name) =>
      EndAppends(t, st, name);
  }

  /** Running the callbacks, xml_path follows the stack discipline. */
  lemma {:induction false} RunStack(t: Gpx.ParseType, st: State, events: seq<Gpx.Event>, parseFloat: Gpx.ParseFloat)
    requires Run(t, st, events, parseFloat).Ok?
    ensures Run(t, st, events, parseFloat).value.xmlPath == Gpx.StackAfter(st.xmlPath, events)
    decreases |events|
  {
    if events != [] {
      var s1 := Step(t, st, events[0], parseFloat).value;
      StepInvariants(t, st, events[0], parseFloat);
      RunStack(t, s1, events[1..], parseFloat);
    }
  }

  /** Running the callbacks, paths only grows, by one entry per closed
      path element, in document order. */
  lemma {:induction false} RunPaths(t: Gpx.ParseType, st: State, events: seq<Gpx.Event>, parseFloat: Gpx.ParseFloat)
    requires Run(t, st, events, parseFloat).Ok?
    ensures var paths := Run(t, st, events, parseFloat).value.paths;
      |paths| == |st.paths| + Gpx.CountEnds(events, Gpx.PathElement(t)) && paths[..|st.paths|] == st.paths
    decreases |events|
  {
    if events != [] {
      var s1 := Step(t, st, events[0], parseFloat).value;
      StepInvariants(t, st, events[0], parseFloat);
      RunPaths(t, s1, events[1..], parseFloat);
      var paths := Run(t, s1, events[1..], parseFloat).value.paths;
      assert paths[..|st.paths|] == paths[..|s1.paths|][..|st.paths|];
    }
  }

  class GpxViewHandler {
    const parseType: Gpx.ParseType
    var xmlPath: seq<string>
    var point: Option<Point>
    var path: Option<Path>
    var paths: seq<Option<Path>>

    function Current(): State
      reads this
    {
      State(xmlPath, point, path, paths)
    }

    constructor(parseType: Gpx.ParseType)
      ensures this.parseType == parseType && Current() == INIT
    {
      this.parseType := parseType;
      xmlPath := [];
      point := None;
      path := None;
      paths := [];
    }

    /** The callback the parser makes for one event. */
    method Feed(e: Gpx.Event, parseFloat: Gpx.ParseFloat) returns (o: Outcome)
      modifies this
      ensures o.Pass? <==> Step(parseType, old(Current()), e, parseFloat).Ok?
      ensures o.Pass? ==> Current() == Step(parseType, old(Current()), e, parseFloat).value
      ensures o.Fail? ==> o.error == Step(parseType, old(Current()), e, parseFloat).error
    {
      match e
      case StartElement(name, attrs) => o := StartElement(name, attrs, parseFloat);
      case Characters(content) => o := Characters(content);
      case EndElement(name) => o := EndElement(name);
    }

    method StartElement(name: string, attrs: map<string, string>, parseFloat: Gpx.ParseFloat) returns (o: Outcome)
      modifies this
      ensures o.Pass? <==> Start(parseType, old(Current()), name, attrs, parseFloat).Ok?
      ensures o.Pass? ==> Current() == Start(parseType, old(Current()), name, attrs, parseFloat).value
      ensures o.Fail? ==> o.error == Start(parseType, old(Current()), name, attrs, parseFloat).error
    {
      xmlPath := xmlPath + [name];
      if name == Gpx.PointElement(parseType) {
        if "lat" !in attrs || "lon" !in attrs {
          return Fail(KeyError);
        }
        var lat := ParseLatLon(attrs["lat"], parseFloat);
        var lon := ParseLatLon(attrs["lon"], parseFloat);
        if lat.None? || lon.None? {
          return Fail(NoCoordinate);
        }
        point := Some(Position(lat.value, lon.value));
      } else if name == Gpx.PathElement(parseType) {
        path := Some(Path(None, None, []));
      }
      return Pass;
    }

    method Characters(content: string) returns (o: Outcome)
      modifies this
      ensures o.Pass? <==> Chars(parseType, old(Current()), content).Ok?
      ensures o.Pass? ==> Current() == Chars(parseType, old(Current()), content).value
      ensures o.Fail? ==> o.error == Chars(parseType, old(Current()), content).error
    {
      var tail := Gpx.LastTwo(xmlPath);
      if tail == [Gpx.PathElement(parseType), "name"] {
        if path.None? {
          return Fail(TypeError);
        }
        path := Some(path.value.(name := Some(Strip(content))));
      } else if tail == [Gpx.PointElement(parseType), "name"] {
        if point.None? {
          return Fail(TypeError);
        }
        point := Some(point.value.(name := Some(Strip(content))));
      }
      return Pass;
    }

    method EndElement(name: string) returns (o: Outcome)
      modifies this
      ensures o.Pass? <==> End(parseType, old(Current()), name).Ok?
      ensures o.Pass? ==> Current() == End(parseType, old(Current()), name).value
      ensures o.Fail? ==> o.error == End(parseType, old(Current()), name).error
    {
      if xmlPath == [] {
        return Fail(IndexError);
      }
      xmlPath := xmlPath[..|xmlPath| - 1];
      if name == Gpx.PointElement(parseType) {
        if path.None? || point.None? {
          return Fail(TypeError);
        }
        path := Some(path.value.(points := path.value.points + [point.value]));
        point := None;
      } else if name == Gpx.PathElement(parseType) {
        paths := paths + [path];
        path := None;
      }
      return Pass;
    }
  }

  /** parse_gpx: a fresh handler receives every callback of the document in order. */
  method ParseGpx(t: Gpx.ParseType, events: seq<Gpx.Event>, parseFloat: Gpx.ParseFloat) returns (r: Result<seq<Option<Path>>>)
    ensures r == ParseDocument(t, events, parseFloat)
  {
    var handler := new GpxViewHandler(t);
    for i := 0 to |events|
      invariant handler.parseType == t
      invariant Run(t, INIT, events, parseFloat) == Run(t, handler.Current(), events[i..], parseFloat)
    {
      assert events[i..][0] == events[i] && events[i..][1..] == events[i + 1..];
      var o := handler.Feed(events[i], parseFloat);
      if o.Fail? {
        return Err(o.error);
      }
    }
    return Ok(handler.paths);
  }

  // ---------------------------------------------------------------------
  // The tally of gen_svg

  /** One step of a running minimum: a value replaces it only when strictly smaller. */
  function Lower(m: Option<real>, v: real): Option<real> {
    if m.None? || v < m.value then Some(v) else m
  }

  /** One step of a running maximum: a value replaces it only when strictly greater. */
  function Upper(m: Option<real>, v: real): Option<real> {
    if m.None? || v > m.value then Some(v) else m
  }

  /** The running minimum after the values, in order. */
  function Least(xs: seq<real>): Option<real> {
    if xs == [] then None else Lower(Least(xs[..|xs| - 1]), xs[|xs| - 1])
  }

  /** The running maximum after the values, in order. */
  function Greatest(xs: seq<real>): Option<real> {
    if xs == [] then None else Upper(Greatest(xs[..|xs| - 1]), xs[|xs| - 1])
  }

  /** The running minimum is None exactly for no values, and otherwise one
      of them and at most each. */
  lemma {:induction false} LeastBounds(xs: seq<real>)
    ensures Least(xs).None? <==> xs == []
    ensures Least(xs).Some? ==> Least(xs).value in xs && forall i :: 0 <= i < |xs| ==> Least(xs).value <= xs[i]
  {
    if xs != [] {
      var init := xs[..|xs| - 1];
      LeastBounds(init);
      assert xs == init + [xs[|xs| - 1]];
    }
  }

  /** The running maximum is None exactly for no values, and otherwise one
      of them and at least each. */
  lemma {:induction false} GreatestBounds(xs: seq<real>)
    ensures Greatest(xs).None? <==> xs == []
    ensures Greatest(xs).Some? ==> Greatest(xs).value in xs && forall i :: 0 <= i < |xs| ==> xs[i] <= Greatest(xs).value
  {
    if xs != [] {
      var init := xs[..|xs| - 1];
      GreatestBounds(init);
      assert xs == init + [xs[|xs| - 1]];
    }
  }

  function Xs(s: seq<Svg.XY>): (r: seq<real>)
    ensures |r| == |s| && forall i :: 0 <= i < |s| ==> r[i] == s[i].0
  {
    seq(|s|, i requires 0 <= i < |s| => s[i].0)
  }

  function Ys(s: seq<Svg.XY>): (r: seq<real>)
    ensures |r| == |s| && forall i :: 0 <= i < |s| ==> r[i] == s[i].1
  {
    seq(|s|, i requires 0 <= i < |s| => s[i].1)
  }

  /** min_x, max_x, min_y and max_y of gen_svg. */
  datatype Extent = Extent(minX: Option<real>, maxX: Option<real>, minY: Option<real>, maxY: Option<real>)

  /** The extent after the projected points, in order. */
  function ExtentOf(s: seq<Svg.XY>): Extent {
    Extent(Least(Xs(s)), Greatest(Xs(s)), Least(Ys(s)), Greatest(Ys(s)))
  }

  /** The four tests of the loop body on one projected point. */
  function Widen(e: Extent, xy: Svg.XY): Extent {
    Extent(Lower(e.minX, xy.0), Upper(e.maxX, xy.0), Lower(e.minY, xy.1), Upper(e.maxY, xy.1))
  }

  lemma WidenStep(s: seq<Svg.XY>, xy: Svg.XY)
    ensures ExtentOf(s + [xy]) == Widen(ExtentOf(s), xy)
  {
    var s' := s + [xy];
    assert Xs(s')[..|s|] == Xs(s) && Ys(s')[..|s|] == Ys(s);
  }

  /** The extent is None on all four sides for no points; otherwise every
      point lies inside it, and each side is reached by some point. */
  lemma ExtentBounds(s: seq<Svg.XY>)
    ensures ExtentOf(s).minX.None? <==> s == []
    ensures s != [] ==> var e := ExtentOf(s);
      && e.minX.Some? && e.maxX.Some? && e.minY.Some? && e.maxY.Some?
      && (forall i :: 0 <= i < |s| ==> e.minX.value <= s[i].0 <= e.maxX.value && e.minY.value <= s[i].1 <= e.maxY.value)
      && e.minX.value in Xs(s) && e.maxX.value in Xs(s) && e.minY.value in Ys(s) && e.maxY.value in Ys(s)
  {
    LeastBounds(Xs(s));
    GreatestBounds(Xs(s));
    LeastBounds(Ys(s));
    GreatestBounds(Ys(s));
  }

  lemma TallyStep(done: seq<Svg.XY>, svgPath: seq<Svg.XY>, xy: Svg.XY)
    ensures ExtentOf(done + (svgPath + [xy])) == Widen(ExtentOf(done + svgPath), xy)
    ensures Svg.Counts(done + (svgPath + [xy])) == Svg.Bump(Svg.Counts(done + svgPath), xy)
  {
    var before := done + svgPath;
    assert done + (svgPath + [xy]) == before + [xy];
    assert (before + [xy])[..|before|] == before;
    WidenStep(before, xy);
  }

  lemma ProjectStep(ps: seq<Point>, j: nat, mercY: real -> real)
    requires j < |ps|
    ensures Svg.Project(ps[..j + 1], mercY) == Svg.Project(ps[..j], mercY) + [(ps[j].lon, mercY(ps[j].lat))]
  {
    var a := Svg.Project(ps[..j + 1], mercY);
    var b := Svg.Project(ps[..j], mercY) + [(ps[j].lon, mercY(ps[j].lat))];
    assert |a| == |b|;
    forall k | 0 <= k < |a|
      ensures a[k] == b[k]
    {
      assert ps[..j + 1][k] == ps[k];
    }
  }

  /** The inner loop of gen_svg over one path: the projected points, the
      extent widened by each, and each counted when points are drawn. */
  method TallyPath(ps: seq<Point>, mercY: real -> real, ext: Extent, counts: map<Svg.XY, nat>, ghost done: seq<Svg.XY>, count: bool)
    returns (svgPath: seq<Svg.XY>, ext': Extent, counts': map<Svg.XY, nat>)
    requires ext == ExtentOf(done)
    requires count ==> counts == Svg.Counts(done)
    ensures svgPath == Svg.Project(ps, mercY)
    ensures ext' == ExtentOf(done + svgPath)
    ensures count ==> counts' == Svg.Counts(done + svgPath)
    ensures !count ==> counts' == counts
  {
    svgPath, ext', counts' := [], ext, counts;
    assert done + svgPath == done;
    for j := 0 to |ps|
      invariant svgPath == Svg.Project(ps[..j], mercY)
      invariant ext' == ExtentOf(done + svgPath)
      invariant count ==> counts' == Svg.Counts(done + svgPath)
      invariant !count ==> counts' == counts
    {
      var xy := (ps[j].lon, mercY(ps[j].lat));
      TallyStep(done, svgPath, xy);
      ProjectStep(ps, j, mercY);
      svgPath := svgPath + [xy];
      ext' := Widen(ext', xy);
      if count {
        counts' := Svg.Bump(counts', xy);
      }
    }
    assert ps[..|ps|] == ps;
  }

  /** What the counting loop of gen_svg holds after the first paths. */
  predicate Tallied(paths: seq<Path>, mercY: real -> real, outputPath: bool, outputPoints: bool,
                    ext: Extent, segments: map<Svg.Segment, nat>, points: map<Svg.XY, nat>)
  {
    && ext == ExtentOf(Svg.AllXY(paths, mercY))
    && segments == (if outputPath then Svg.Counts(Svg.AllPairs(paths, mercY)) else map[])
    && points == (if outputPoints then Svg.Counts(Svg.AllXY(paths, mercY)) else map[])
  }

  /** The counting loop of gen_svg: the extent of every projected point,
      point weights when points are drawn, segment weights when paths are. */
  method GenSvgTally(paths: seq<Path>, mercY: real -> real, outputPath: bool, outputPoints: bool)
    returns (ext: Extent, segments: map<Svg.Segment, nat>, points: map<Svg.XY, nat>)
    ensures ext == ExtentOf(Svg.AllXY(paths, mercY))
    ensures segments == if outputPath then Svg.Counts(Svg.AllPairs(paths, mercY)) else map[]
    ensures points == if outputPoints then Svg.Counts(Svg.AllXY(paths, mercY)) else map[]
  {
    ext, segments, points := Extent(None, None, None, None), map[], map[];
    assert Tallied([], mercY, outputPath, outputPoints, ext, segments, points);
    for i := 0 to |paths|
      invariant Tallied(paths[..i], mercY, outputPath, outputPoints, ext, segments, points)
    {
      ext, segments, points := TallyNext(paths[..i], paths[i], mercY, outputPath, outputPoints, ext, segments, points);
      assert paths[..i] + [paths[i]] == paths[..i + 1];
    }
    assert paths[..|paths|] == paths;
  }

  /** The body of gen_svg's loop over paths: one more path tallied. */
  method TallyNext(done: seq<Path>, path: Path, mercY: real -> real, outputPath: bool, outputPoints: bool,
                   ext: Extent, segments: map<Svg.Segment, nat>, points: map<Svg.XY, nat>)
    returns (ext': Extent, segments': map<Svg.Segment, nat>, points': map<Svg.XY, nat>)
    requires Tallied(done, mercY, outputPath, outputPoints, ext, segments, points)
    ensures Tallied(done + [path], mercY, outputPath, outputPoints, ext', segments', points')
  {
    var all := done + [path];
    assert all[..|all| - 1] == done;
    var svgPath;
    svgPath, ext', points' := TallyPath(path.points, mercY, ext, points, Svg.AllXY(done, mercY), outputPoints);
    segments' := segments;
    if outputPath {
      segments' := Svg.CountKeys(segments, Svg.Pairs(svgPath), Svg.AllPairs(done, mercY));
    }
  }

  /** The saturation and lightness of a weight in gen_svg: absolute on the
      weights, left out (0) when every weight is the same. */
  function Shade(w: int, minW: int, maxW: int): (int, int) {
    if minW == maxW then (10, 80)
    else (10 + Svg.AbsoluteInt(w, 80, minW, maxW).value, 80 - Svg.AbsoluteInt(w, 70, minW, maxW).value)
  }

  /** Saturation stays in [10, 90] and lightness in [10, 80]; the least
      weight is the palest and the greatest the darkest; equal weights all
      get the palest. */
  lemma ShadeRange(w: int, minW: int, maxW: int)
    requires minW <= w <= maxW
    ensures 10 <= Shade(w, minW, maxW).0 <= 90 && 10 <= Shade(w, minW, maxW).1 <= 80
    ensures Shade(minW, minW, maxW) == (10, 80)
    ensures minW < maxW ==> Shade(maxW, minW, maxW) == (90, 10)
  {
    if minW < maxW {
      Svg.AbsoluteIntRange(w, 80, minW, maxW);
      Svg.AbsoluteIntRange(w, 70, minW, maxW);
    }
  }
}
