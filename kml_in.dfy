/**
 * in_kml.py: the SAX content handler that reads the line strings and
 * linear rings of a KML document as paths. As for GPX, the parser is
 * replaced by its callbacks and float() by a partial function.
 */
module KmlIn {
  import opened Track
  import opened Text
  import Gpx

  /** The two elements that hold a path. */
  predicate IsLine(name: string) {
    name == "LineString" || name == "LinearRing"
  }

  /** map(float, parts): every value, or None when float() rejects one. */
  function Floats(parts: seq<string>, parseFloat: Gpx.ParseFloat): (r: Option<seq<real>>)
    ensures r.Some? <==> forall i :: 0 <= i < |parts| ==> parseFloat(parts[i]).Some?
    ensures r.Some? ==> |r.value| == |parts| && forall i :: 0 <= i < |parts| ==> Some(r.value[i]) == parseFloat(parts[i])
  {
    if parts == [] then Some([])
    else
      match (Floats(parts[..|parts| - 1], parseFloat), parseFloat(parts[|parts| - 1]))
      case (Some(vs), Some(v)) => Some(vs + [v])
      case _ => None
  }

  /** One "lng,lat,ele" token: split on ",", every piece read as a float,
      and the three values unpacked; lat is stored first. A bad number and
      a wrong number of pieces both raise ValueError. */
  function ParseToken(token: string, parseFloat: Gpx.ParseFloat): (r: Result<Point>)
    ensures r.Ok? <==> |Split(token, ',')| == 3 && Floats(Split(token, ','), parseFloat).Some?
    ensures r.Err? ==> r.error == ValueError
  {
    match Floats(Split(token, ','), parseFloat)
    case None => Err(ValueError)
    case Some(vs) =>
      if |vs| != 3 then Err(ValueError)
      else Ok(Point(vs[1], vs[0], Some(vs[2]), None, None))
  }

  /** The points of the tokens, in order, or ValueError if any token is bad. */
  function ParseTokens(tokens: seq<string>, parseFloat: Gpx.ParseFloat): (r: Result<seq<Point>>)
    ensures r.Ok? <==> forall i :: 0 <= i < |tokens| ==> ParseToken(tokens[i], parseFloat).Ok?
    ensures r.Ok? ==> |r.value| == |tokens| && forall i :: 0 <= i < |tokens| ==> r.value[i] == ParseToken(tokens[i], parseFloat).value
    ensures r.Err? ==> r.error == ValueError
  {
    if tokens == [] then Ok([])
    else
      var init := tokens[..|tokens| - 1];
      var ps := ParseTokens(init, parseFloat);
      var p := ParseToken(tokens[|tokens| - 1], parseFloat);
      assert forall i :: 0 <= i < |init| ==> init[i] == tokens[i];
      if ps.Ok? && p.Ok? then Ok(ps.value + [p.value])
      else Err(ValueError)
  }

  /** The comprehension of characters: the stripped text split on " ". */
  function ParseCoordinates(content: string, parseFloat: Gpx.ParseFloat): Result<seq<Point>> {
    ParseTokens(Split(Strip(content), ' '), parseFloat)
  }

  /** A token with other than three pieces is an unpacking error. */
  lemma TokenArity(token: string, parseFloat: Gpx.ParseFloat)
    requires |Split(token, ',')| != 3
    ensures ParseToken(token, parseFloat) == Err(ValueError)
  {
  }

  /** How a point is written as a token: "lng,lat,ele", with show as the
      text of a float. */
  function FormatToken(p: Point, show: real -> string): string
    requires p.ele.Some?
  {
    Join([show(p.lon), show(p.lat), show(p.ele.value)], ",")
  }

  function FormatCoordinates(points: seq<Point>, show: real -> string): string
    requires forall i :: 0 <= i < |points| ==> points[i].ele.Some?
  {
    Join(seq(|points|, i requires 0 <= i < |points| => FormatToken(points[i], show)), " ")
  }

  /** Points written as space-separated "lng,lat,ele" tokens read back as
      the same points, when float() reads back what show writes and show
      writes neither whitespace nor commas.
      Python 2's "%s" of a float keeps 12 significant digits, so this holds
      only for values it prints exactly; the premise on show and float()
      states that restriction. */
  lemma CoordinatesRoundTrip(points: seq<Point>, show: real -> string, parseFloat: Gpx.ParseFloat)
    requires |points| >= 1
    requires forall i :: 0 <= i < |points| ==> points[i].ele.Some? && points[i].time.None? && points[i].name.None?
    requires forall x :: parseFloat(show(x)) == Some(x)
    requires forall x :: NoSpace(show(x)) && ',' !in show(x)
    ensures ParseCoordinates(FormatCoordinates(points, show), parseFloat) == Ok(points)
  {
    var tokens := seq(|points|, i requires 0 <= i < |points| => FormatToken(points[i], show));
    forall i | 0 <= i < |tokens|
      ensures |tokens[i]| >= 1 && NoSpace(tokens[i]) && ' ' !in tokens[i]
      ensures ParseToken(tokens[i], parseFloat) == Ok(points[i])
    {
      TokenRoundTrip(points[i], show, parseFloat);
    }
    var text := Join(tokens, " ");
    var last := tokens[|tokens| - 1];
    JoinEnds(tokens, " ");
    assert !IsSpace(text[0]) && !IsSpace(text[|text| - 1]);
    StripClean(text);
    SplitJoin(tokens, ' ');
    ParseTokensAll(tokens, points, parseFloat);
  }

  /** Tokens that each read as a point read as those points. */
  lemma {:induction false} ParseTokensAll(tokens: seq<string>, points: seq<Point>, parseFloat: Gpx.ParseFloat)
    requires |tokens| == |points|
    requires forall i :: 0 <= i < |tokens| ==> ParseToken(tokens[i], parseFloat) == Ok(points[i])
    ensures ParseTokens(tokens, parseFloat) == Ok(points)
  {
    if tokens != [] {
      var n := |tokens| - 1;
      ParseTokensAll(tokens[..n], points[..n], parseFloat);
      assert points[..n] + [points[n]] == points;
    }
  }

  /** One point written as a token reads back as itself.
      Python 2's "%s" of a float keeps 12 significant digits, so this holds
      only for values it prints exactly; the premise on show and float()
      states that restriction. */
  lemma TokenRoundTrip(p: Point, show: real -> string, parseFloat: Gpx.ParseFloat)
    requires p.ele.Some? && p.time.None? && p.name.None?
    requires forall x :: parseFloat(show(x)) == Some(x)
    requires forall x :: NoSpace(show(x)) && ',' !in show(x)
    ensures var token := FormatToken(p, show);
      |token| >= 1 && NoSpace(token) && ' ' !in token && ParseToken(token, parseFloat) == Ok(p)
  {
    var ele: real := p.ele.value;
    var a, b, c := show(p.lon), show(p.lat), show(ele);
    var parts := [a, b, c];
    assert NoSpace(a) && NoSpace(b) && NoSpace(c) && ',' !in a && ',' !in b && ',' !in c;
    assert parseFloat(a) == Some(p.lon) && parseFloat(b) == Some(p.lat) && parseFloat(c) == Some(ele);
    assert Join(parts, ",") == a + "," + Join([b, c], ",") by {
      assert parts[1..] == [b, c];
    }
    assert Join([b, c], ",") == b + "," + c by {
      assert [b, c][1..] == [c];
    }
    assert NoSpace(",");
    JoinNoSpace(parts, ",");
    assert IsSpace(' ');
    SplitJoin(parts, ',');
    assert forall i :: 0 <= i < 3 ==> parseFloat(parts[i]).Some?;
    var vs := Floats(parts, parseFloat).value;
    assert Some(vs[0]) == parseFloat(a) && Some(vs[1]) == parseFloat(b) && Some(vs[2]) == parseFloat(c);
    assert vs == [p.lon, p.lat, ele];
    assert Floats(parts, parseFloat) == Some([p.lon, p.lat, ele]);
  }

  // ---------------------------------------------------------------------
  // The handler

  /** The handler's fields. paths holds None where a line closed while no
      path was open. */
  datatype State = State(xmlPath: seq<string>, path: Option<Path>, paths: seq<Option<Path>>)

  const INIT: State := State([], None, [])

  /** startElement: a line opens a path tagged with the transportation and with no points. */
  function Start(transportation: Option<string>, st: State, name: string): (r: State)
    ensures r.xmlPath == st.xmlPath + [name] && r.paths == st.paths
    ensures IsLine(name) ==> r.path == Some(Path(None, transportation, []))
    ensures !IsLine(name) ==> r.path == st.path
  {
    var st' := st.(xmlPath := st.xmlPath + [name]);
    if IsLine(name) then st'.(path := Some(Path(None, transportation, []))) else st'
  }

  /** The coordinates text of a line. */
  predicate UnderCoordinates(xmlPath: seq<string>) {
    var tail := Gpx.LastTwo(xmlPath);
    tail == ["LineString", "coordinates"] || tail == ["LinearRing", "coordinates"]
  }

  /** characters: blank text is ignored; coordinates text replaces the
      open path's points (the points are read before the path is looked at). */
  function Chars(st: State, content: string, parseFloat: Gpx.ParseFloat): Result<State> {
    var text := Strip(content);
    if text == [] then Ok(st)
    else if UnderCoordinates(st.xmlPath) then
      match ParseCoordinates(text, parseFloat)
      case Err(e) => Err(e)
      case Ok(points) =>
        if st.path.None? then Err(TypeError)
        else Ok(st.(path := Some(st.path.value.(points := points))))
    else Ok(st)
  }

  /** endElement: pop, and a closing line appends the open path to paths. */
  function End(st: State, name: string): (r: Result<State>)
    ensures r.Err? <==> st.xmlPath == []
    ensures r.Err? ==> r.error == IndexError
    ensures r.Ok? ==> r.value.xmlPath == st.xmlPath[..|st.xmlPath| - 1]
    ensures r.Ok? && IsLine(name) ==> r.value.paths == st.paths + [st.path] && r.value.path == None
    ensures r.Ok? && !IsLine(name) ==> r.value.paths == st.paths && r.value.path == st.path
  {
    if st.xmlPath == [] then Err(IndexError)
    else
      var st' := st.(xmlPath := st.xmlPath[..|st.xmlPath| - 1]);
      if IsLine(name) then Ok(st'.(paths := st.paths + [st.path], path := None)) else Ok(st')
  }

  function Step(transportation: Option<string>, st: State, e: Gpx.Event, parseFloat: Gpx.ParseFloat): Result<State> {
    match e
    case StartElement(name, _) => Ok(Start(transportation, st, name))
    case Characters(content) => Chars(st, content, parseFloat)
    case EndElement(name) => End(st, name)
  }

  function Run(transportation: Option<string>, st: State, events: seq<Gpx.Event>, parseFloat: Gpx.ParseFloat): Result<State>
    decreases |events|
  {
    if events == [] then Ok(st)
    else match Step(transportation, st, events[0], parseFloat)
      case Err(e) => Err(e)
      case Ok(st') => Run(transportation, st', events[1..], parseFloat)
  }

  /** parse: every callback of the document, then the handler's paths. */
  function ParseDocument(events: seq<Gpx.Event>, transportation: Option<string>, parseFloat: Gpx.ParseFloat): Result<seq<Option<Path>>> {
    match Run(transportation, INIT, events, parseFloat)
    case Err(e) => Err(e)
    case Ok(st) => Ok(st.paths)
  }

  /** Blank text changes nothing; characters never touches the stack or paths. */
  lemma CharsKeeps(st: State, a: string, parseFloat: Gpx.ParseFloat)
    ensures Strip(a) == [] ==> Chars(st, a, parseFloat) == Ok(st)
    ensures Chars(st, a, parseFloat).Ok? ==>
      Chars(st, a, parseFloat).value.xmlPath == st.xmlPath && Chars(st, a, parseFloat).value.paths == st.paths
  {
    var text := Strip(a);
    if text != [] && UnderCoordinates(st.xmlPath) {
      var parsed := ParseCoordinates(text, parseFloat);
      if parsed.Ok? && st.path.Some? {
        assert Chars(st, a, parseFloat) == Ok(st.(path := Some(st.path.value.(points := parsed.value))));
      }
    }
  }

  /** Coordinates text sets the open path's points to the points it reads,
      whatever they were before, so of two callbacks the last wins. */
  lemma CharsReplaces(st: State, a: string, b: string, parseFloat: Gpx.ParseFloat)
    ensures Strip(a) != [] && UnderCoordinates(st.xmlPath) && st.path.Some? && ParseCoordinates(a, parseFloat).Ok? ==>
      Chars(st, a, parseFloat) == Ok(st.(path := Some(st.path.value.(points := ParseCoordinates(a, parseFloat).value))))
    ensures Chars(st, a, parseFloat).Ok? && Strip(b) != [] && UnderCoordinates(st.xmlPath) ==>
      Chars(Chars(st, a, parseFloat).value, b, parseFloat) == Chars(st, b, parseFloat)
  {
    StripIdempotent(a);
  }

  /** One callback keeps the stack discipline and adds an entry to paths
      exactly when it closes a line. */
  lemma StepInvariants(transportation: Option<string>, st: State, e: Gpx.Event, parseFloat: Gpx.ParseFloat)
    requires Step(transportation, st, e, parseFloat).Ok?
    ensures var st' := Step(transportation, st, e, parseFloat).value;
      && st'.xmlPath == Gpx.StackStep(st.xmlPath, e)
      && st'.paths == (if e.EndElement? && IsLine(e.name) then st.paths + [st.path] else st.paths)
  {
    if e.Characters? {
      CharsKeeps(st, e.content, parseFloat);
    }
  }

  /** Running the callbacks, xml_path follows the stack discipline. */
  lemma {:induction false} RunStack(transportation: Option<string>, st: State, events: seq<Gpx.Event>, parseFloat: Gpx.ParseFloat)
    requires Run(transportation, st, events, parseFloat).Ok?
    ensures Run(transportation, st, events, parseFloat).value.xmlPath == Gpx.StackAfter(st.xmlPath, events)
    decreases |events|
  {
    if events != [] {
      var s1 := Step(transportation, st, events[0], parseFloat).value;
      StepInvariants(transportation, st, events[0], parseFloat);
      RunStack(transportation, s1, events[1..], parseFloat);
    }
  }

  /** Number of callbacks closing a line. */
  function CountLineEnds(events: seq<Gpx.Event>): nat
    decreases |events|
  {
    if events == [] then 0
    else (if events[0].EndElement? && IsLine(events[0].name) then 1 else 0) + CountLineEnds(events[1..])
  }

  /** Running the callbacks, paths only grows, by one entry per closed
      line, in document order. */
  lemma {:induction false} RunPaths(transportation: Option<string>, st: State, events: seq<Gpx.Event>, parseFloat: Gpx.ParseFloat)
    requires Run(transportation, st, events, parseFloat).Ok?
    ensures var paths := Run(transportation, st, events, parseFloat).value.paths;
      |paths| == |st.paths| + CountLineEnds(events) && paths[..|st.paths|] == st.paths
    decreases |events|
  {
    if events != [] {
      var s1 := Step(transportation, st, events[0], parseFloat).value;
      StepInvariants(transportation, st, events[0], parseFloat);
      RunPaths(transportation, s1, events[1..], parseFloat);
      var paths := Run(transportation, s1, events[1..], parseFloat).value.paths;
      assert paths[..|st.paths|] == paths[..|s1.paths|][..|st.paths|];
    }
  }

  class KmlHandler {
    const transportation: Option<string>
    var xmlPath: seq<string>
    var path: Option<Path>
    var paths: seq<Option<Path>>

    function Current(): State
      reads this
    {
      State(xmlPath, path, paths)
    }

    constructor(transportation: Option<string>)
      ensures this.transportation == transportation && Current() == INIT
    {
      this.transportation := transportation;
      xmlPath := [];
      path := None;
      paths := [];
    }

    method Feed(e: Gpx.Event, parseFloat: Gpx.ParseFloat) returns (o: Outcome)
      modifies this
      ensures o.Pass? <==> Step(transportation, old(Current()), e, parseFloat).Ok?
      ensures o.Pass? ==> Current() == Step(transportation, old(Current()), e, parseFloat).value
      ensures o.Fail? ==> o.error == Step(transportation, old(Current()), e, parseFloat).error
    {
      match e
      case StartElement(name, _) => StartElement(name); o := Pass;
      case Characters(content) => o := Characters(content, parseFloat);
      case EndElement(name) => o := EndElement(name);
    }

    method StartElement(name: string)
      modifies this
      ensures Current() == Start(transportation, old(Current()), name)
    {
      xmlPath := xmlPath + [name];
      if IsLine(name) {
        path := Some(Path(None, transportation, []));
      }
    }

    method Characters(content: string, parseFloat: Gpx.ParseFloat) returns (o: Outcome)
      modifies this
      ensures o.Pass? <==> Chars(old(Current()), content, parseFloat).Ok?
      ensures o.Pass? ==> Current() == Chars(old(Current()), content, parseFloat).value
      ensures o.Fail? ==> o.error == Chars(old(Current()), content, parseFloat).error
    {
      var text := Strip(content);
      if text == [] {
        return Pass;
      }
      if UnderCoordinates(xmlPath) {
        var points := ParseCoordinates(text, parseFloat);
        if points.Err? {
          return Fail(points.error);
        }
        if path.None? {
          return Fail(TypeError);
        }
        path := Some(path.value.(points := points.value));
      }
      return Pass;
    }

    method EndElement(name: string) returns (o: Outcome)
      modifies this
      ensures o.Pass? <==> End(old(Current()), name).Ok?
      ensures o.Pass? ==> Current() == End(old(Current()), name).value
      ensures o.Fail? ==> o.error == End(old(Current()), name).error
    {
      if xmlPath == [] {
        return Fail(IndexError);
      }
      xmlPath := xmlPath[..|xmlPath| - 1];
      if IsLine(name) {
        paths := paths + [path];
        path := None;
      }
      return Pass;
    }
  }

  /** parse: a fresh handler receives every callback of the document in order. */
  method Parse(events: seq<Gpx.Event>, transportation: Option<string>, parseFloat: Gpx.ParseFloat) returns (r: Result<seq<Option<Path>>>)
    ensures r == ParseDocument(events, transportation, parseFloat)
  {
    var handler := new KmlHandler(transportation);
    for i := 0 to |events|
      invariant handler.transportation == transportation
      invariant Run(transportation, INIT, events, parseFloat) == Run(transportation, handler.Current(), events[i..], parseFloat)
    {
      assert events[i..][0] == events[i] && events[i..][1..] == events[i + 1..];
      var o := handler.Feed(events[i], parseFloat);
      if o.Fail? {
        return Err(o.error);
      }
    }
    return Ok(handler.paths);
  }
}
