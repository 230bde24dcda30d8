/**
 * in_gpx.py: the SAX content handler that turns a GPX document into paths.
 *
 * The XML parser is replaced by the sequence of callbacks it would make
 * (Event). float() and datetime.strptime are partial function parameters.
 * The handler's behaviour on one callback is a function on a State value
 * (Start, Characters, End); the GpxHandler class holds the same fields and
 * its methods are proved to make exactly those transitions.
 */
module Gpx {
  import opened Track
  import opened Text
  import opened Utils

  /** float(s): the value, or None where Python raises ValueError. */
  type ParseFloat = string -> Option<real>

  /** datetime.strptime(text, format): the instant, or None where it raises ValueError. */
  type StrpTime = (string, string) -> Option<Instant>

  /** PARSE_TRACKS and PARSE_ROUTES. */
  datatype ParseType = Tracks | Routes

  function PathElement(t: ParseType): string {
    if t == Tracks then "trk" else "rte"
  }

  function PointElement(t: ParseType): string {
    if t == Tracks then "trkpt" else "rtept"
  }

  /** The formats tried, in order, on the first time text met. */
  const TIME_FORMATS: seq<string> := ["%Y-%m-%dT%H:%M:%S.%f", "%Y-%m-%dT%H:%M:%SZ"]

  /** The message of the exception raised when no format reads a time. */
  const TIME_ERROR: string := "Can't parse time."

  /** One callback of the SAX parser. */
  datatype Event =
    | StartElement(name: string, attrs: map<string, string>)
    | Characters(content: string)
    | EndElement(name: string)

  /** The point dict while its element is open: ele and time are still text. */
  datatype RawPoint = RawPoint(lat: real, lon: real, name: string, ele: Option<string>, time: Option<string>)

  /** The handler's fields. paths holds None where a path element closed
      while no path was open. */
  datatype State = State(
    xmlPath: seq<string>,
    point: Option<RawPoint>,
    path: Option<Path>,
    paths: seq<Option<Path>>,
    timeFormat: Option<string>)

  const INIT: State := State([], None, None, [], None)

  /** xml_path[-2:] */
  function LastTwo(s: seq<string>): (r: seq<string>)
    ensures |r| <= 2
    ensures |s| >= 2 ==> r == [s[|s| - 2], s[|s| - 1]]
  {
    if |s| >= 2 then s[|s| - 2..] else s
  }

  /** parse's option dispatch. */
  function ParseTypeOf(opts: string): (r: Result<ParseType>)
    ensures r == Ok(Tracks) <==> opts == "" || opts == "trk"
    ensures r == Ok(Routes) <==> opts == "rte"
    ensures r.Err? <==> opts != "" && opts != "trk" && opts != "rte"
    ensures r.Err? ==> r.error == ValueError
  {
    if opts == "" || opts == "trk" then Ok(Tracks)
    else if opts == "rte" then Ok(Routes)
    else Err(ValueError)
  }

  // ---------------------------------------------------------------------
  // The transitions

  /** startElement. A point element reads its lat and lon attributes
      through parse_latlon. */
  function Start(t: ParseType, st: State, name: string, attrs: map<string, string>, parseFloat: ParseFloat): Result<State> {
    var st' := st.(xmlPath := st.xmlPath + [name]);
    if name == PointElement(t) then
      if "lat" !in attrs || "lon" !in attrs then Err(KeyError)
      else
        match (ParseLatLon(attrs["lat"], parseFloat), ParseLatLon(attrs["lon"], parseFloat))
        case (Some(lat), Some(lon)) => Ok(st'.(point := Some(RawPoint(lat, lon, "", None, None))))
        case _ => Err(NoCoordinate)
    else if name == PathElement(t) then
      Ok(st'.(path := Some(Path(None, None, []))))
    else
      Ok(st')
  }

  /** dict.get(key, "") on an optional text field. */
  function OrEmpty(s: Option<string>): string {
    if s.Some? then s.value else ""
  }

  /** characters. */
  function Chars(t: ParseType, st: State, content: string): Result<State> {
    var tail := LastTwo(st.xmlPath);
    if tail == [PathElement(t), "name"] then
      if st.path.None? then Err(TypeError)
      else Ok(st.(path := Some(st.path.value.(name := Some(Strip(content))))))
    else if tail == [PointElement(t), "name"] then
      if st.point.None? then Err(TypeError)
      else Ok(st.(point := Some(st.point.value.(name := Strip(content)))))
    else if tail == [PointElement(t), "ele"] then
      if st.point.None? then Err(AttributeError)
      else Ok(st.(point := Some(st.point.value.(ele := Some(OrEmpty(st.point.value.ele) + content)))))
    else if tail == [PointElement(t), "time"] then
      if st.point.None? then Err(AttributeError)
      else Ok(st.(point := Some(st.point.value.(time := Some(OrEmpty(st.point.value.time) + content)))))
    else
      Ok(st)
  }

  /** The last of formats that reads text, None when none does. */
  function LastMatch(formats: seq<string>, text: string, strptime: StrpTime): (f: Option<string>)
    ensures f.None? <==> forall i :: 0 <= i < |formats| ==> strptime(text, formats[i]).None?
    ensures f.Some? ==> exists i :: (0 <= i < |formats| && f.value == formats[i] && strptime(text, formats[i]).Some? &&
      forall j :: i < j < |formats| ==> strptime(text, formats[j]).None?)
  {
    if formats == [] then None
    else if strptime(text, formats[|formats| - 1]).Some? then Some(formats[|formats| - 1])
    else
      var f := LastMatch(formats[..|formats| - 1], text, strptime);
      if f.Some? then
        var i :| 0 <= i < |formats| - 1 && f.value == formats[..|formats| - 1][i] && strptime(text, formats[i]).Some? &&
          forall j :: i < j < |formats| - 1 ==> strptime(text, formats[j]).None?;
        f
      else f
  }

  /** The ele and time of a closing point, converted; the time format after it. */
  function Finish(raw: RawPoint, timeFormat: Option<string>, parseFloat: ParseFloat, strptime: StrpTime): Result<(Point, Option<string>)> {
    var ele: Result<Option<real>> :=
      if raw.ele.None? then Ok(None)
      else match parseFloat(Strip(raw.ele.value))
        case None => Err(ValueError)
        case Some(v) => Ok(Some(v));
    if ele.Err? then Err(ele.error)
    else if raw.time.None? then
      Ok((Point(raw.lat, raw.lon, ele.value, None, Some(raw.name)), timeFormat))
    else
      var format := if timeFormat.Some? then timeFormat else LastMatch(TIME_FORMATS, raw.time.value, strptime);
      if format.None? then Err(Raised(TIME_ERROR))
      else match strptime(raw.time.value, format.value)
        case None => Err(ValueError)
        case Some(time) => Ok((Point(raw.lat, raw.lon, ele.value, Some(time), Some(raw.name)), format))
  }

  /** endElement. */
  function End(t: ParseType, st: State, name: string, parseFloat: ParseFloat, strptime: StrpTime): Result<State> {
    if st.xmlPath == [] then Err(IndexError)
    else
      var st' := st.(xmlPath := st.xmlPath[..|st.xmlPath| - 1]);
      if name == PointElement(t) then
        if st.point.None? then Err(TypeError)
        else match Finish(st.point.value, st.timeFormat, parseFloat, strptime)
          case Err(e) => Err(e)
          case Ok((p, format)) =>
            if st.path.None? then Err(TypeError)
            else Ok(st'.(point := None, path := Some(st.path.value.(points := st.path.value.points + [p])), timeFormat := format))
      else if name == PathElement(t) then
        Ok(st'.(paths := st.paths + [st.path], path := None))
      else
        Ok(st')
  }

  function Step(t: ParseType, st: State, e: Event, parseFloat: ParseFloat, strptime: StrpTime): Result<State> {
    match e
    case StartElement(name, attrs) => Start(t, st, name, attrs, parseFloat)
    case Characters(content) => Chars(t, st, content)
    case EndElement(name) => End(t, st, name, parseFloat, strptime)
  }

  /** The handler after the callbacks of events, stopping at the first exception. */
  function Run(t: ParseType, st: State, events: seq<Event>, parseFloat: ParseFloat, strptime: StrpTime): Result<State>
    decreases |events|
  {
    if events == [] then Ok(st)
    else match Step(t, st, events[0], parseFloat, strptime)
      case Err(e) => Err(e)
      case Ok(st') => Run(t, st', events[1..], parseFloat, strptime)
  }

  /** parse: the option dispatch, then every callback of the document. */
  function ParseDocument(opts: string, events: seq<Event>, parseFloat: ParseFloat, strptime: StrpTime): Result<seq<Option<Path>>> {
    match ParseTypeOf(opts)
    case Err(e) => Err(e)
    case Ok(t) =>
      match Run(t, INIT, events, parseFloat, strptime)
      case Err(e) => Err(e)
      case Ok(st) => Ok(st.paths)
  }

  // ---------------------------------------------------------------------
  // Properties of one callback

  /** startElement pushes the name; a point starts with its parsed
      coordinates and an empty name, a path with no points. */
  lemma StartPushes(t: ParseType, st: State, name: string, attrs: map<string, string>, parseFloat: ParseFloat)
    ensures Start(t, st, name, attrs, parseFloat).Ok? ==> Start(t, st, name, attrs, parseFloat).value.xmlPath == st.xmlPath + [name]
    ensures name == PointElement(t) ==>
      if "lat" !in attrs || "lon" !in attrs then Start(t, st, name, attrs, parseFloat) == Err(KeyError)
      else if ParseLatLon(attrs["lat"], parseFloat).None? || ParseLatLon(attrs["lon"], parseFloat).None? then
        Start(t, st, name, attrs, parseFloat) == Err(NoCoordinate)
      else
        Start(t, st, name, attrs, parseFloat).Ok? &&
        Start(t, st, name, attrs, parseFloat).value.point ==
          Some(RawPoint(ParseLatLon(attrs["lat"], parseFloat).value, ParseLatLon(attrs["lon"], parseFloat).value, "", None, None))
    ensures name == PathElement(t) ==>
      Start(t, st, name, attrs, parseFloat).Ok? && Start(t, st, name, attrs, parseFloat).value.path == Some(Path(None, None, []))
    ensures Start(t, st, name, attrs, parseFloat).Ok? ==> Start(t, st, name, attrs, parseFloat).value.paths == st.paths
  {
  }

  /** Two pieces of ele or time text add up to their concatenation. */
  lemma CharsConcatenate(t: ParseType, st: State, a: string, b: string, field: string)
    requires field == "ele" || field == "time"
    requires |st.xmlPath| >= 2 && st.xmlPath[|st.xmlPath| - 2..] == [PointElement(t), field]
    requires st.point.Some?
    ensures Chars(t, st, a).Ok?
    ensures Chars(t, Chars(t, st, a).value, b) == Chars(t, st, a + b)
  {
    assert PathElement(t) != PointElement(t);
    assert LastTwo(st.xmlPath) == [PointElement(t), field];
    if field == "ele" {
      assert OrEmpty(st.point.value.ele) + a + b == OrEmpty(st.point.value.ele) + (a + b);
    } else {
      assert OrEmpty(st.point.value.time) + a + b == OrEmpty(st.point.value.time) + (a + b);
    }
  }

  /** Name text overwrites: only the last piece counts, stripped. */
  lemma CharsNameOverwrites(t: ParseType, st: State, a: string, b: string)
    requires |st.xmlPath| >= 2 && st.xmlPath[|st.xmlPath| - 2..] == [PointElement(t), "name"]
    requires st.point.Some?
    ensures Chars(t, st, a).Ok?
    ensures Chars(t, Chars(t, st, a).value, b) == Chars(t, st, b)
    ensures Chars(t, st, b).Ok? && Chars(t, st, b).value.point.value.name == Strip(b)
  {
    assert PathElement(t) != PointElement(t);
    assert LastTwo(st.xmlPath) == [PointElement(t), "name"];
  }

  /** Closing a point converts it and appends it to the open path;
      closing a path appends it to paths. */
  lemma EndAppends(t: ParseType, st: State, name: string, parseFloat: ParseFloat, strptime: StrpTime)
    requires End(t, st, name, parseFloat, strptime).Ok?
    ensures var st' := End(t, st, name, parseFloat, strptime).value;
      && st.xmlPath != [] && st'.xmlPath == st.xmlPath[..|st.xmlPath| - 1]
      && (name == PointElement(t) ==>
            && st.point.Some? && st.path.Some? && st'.point == None && st'.paths == st.paths
            && st'.path.Some? && st'.path.value.name == st.path.value.name
            && var p := Finish(st.point.value, st.timeFormat, parseFloat, strptime).value.0;
               st'.path.value.points == st.path.value.points + [p]
               && p.lat == st.point.value.lat && p.lon == st.point.value.lon && p.name == Some(st.point.value.name))
      && (name == PathElement(t) ==> st'.paths == st.paths + [st.path] && st'.path == None)
  {
    if name == PointElement(t) {
      assert st.point.Some?;
      FinishPosition(st.point.value, st.timeFormat, parseFloat, strptime);
    }
  }

  /** A finished point keeps the position and the name it was opened with. */
  lemma FinishPosition(raw: RawPoint, timeFormat: Option<string>, parseFloat: ParseFloat, strptime: StrpTime)
    requires Finish(raw, timeFormat, parseFloat, strptime).Ok?
    ensures var p := Finish(raw, timeFormat, parseFloat, strptime).value.0;
      p.lat == raw.lat && p.lon == raw.lon && p.name == Some(raw.name)
  {
  }

  /** A point's ele is float() of its stripped text, and its time is read
      with the sticky format: the one already chosen, or else the last of
      the two formats that reads the text; no format is an exception. */
  lemma FinishConverts(raw: RawPoint, timeFormat: Option<string>, parseFloat: ParseFloat, strptime: StrpTime)
    ensures raw.ele.Some? && parseFloat(Strip(raw.ele.value)).None? ==> Finish(raw, timeFormat, parseFloat, strptime) == Err(ValueError)
    ensures (raw.time.Some? && timeFormat.None? && (forall i :: 0 <= i < |TIME_FORMATS| ==> strptime(raw.time.value, TIME_FORMATS[i]).None?) &&
      (raw.ele.None? || parseFloat(Strip(raw.ele.value)).Some?)) ==>
      Finish(raw, timeFormat, parseFloat, strptime) == Err(Raised(TIME_ERROR))
    ensures Finish(raw, timeFormat, parseFloat, strptime).Ok? ==>
      var (p, format) := Finish(raw, timeFormat, parseFloat, strptime).value;
      && (raw.ele.None? <==> p.ele.None?)
      && (raw.ele.Some? ==> Some(p.ele.value) == parseFloat(Strip(raw.ele.value)))
      && (raw.time.None? ==> p.time.None? && format == timeFormat)
      && (raw.time.Some? ==> format.Some? && Some(p.time.value) == strptime(raw.time.value, format.value))
      && (timeFormat.Some? ==> format == timeFormat)
      && (raw.time.Some? && timeFormat.None? ==> format == LastMatch(TIME_FORMATS, raw.time.value, strptime))
  {
  }

  /** When the second format reads a time, it is the one chosen. */
  lemma LastFormatWins(text: string, strptime: StrpTime)
    requires strptime(text, TIME_FORMATS[1]).Some?
    ensures LastMatch(TIME_FORMATS, text, strptime) == Some("%Y-%m-%dT%H:%M:%SZ")
  {
  }

  // ---------------------------------------------------------------------
  // Properties of a whole document

  /** The stack after one callback: push on start, pop on end. */
  function StackStep(stack: seq<string>, e: Event): seq<string> {
    match e
    case StartElement(name, _) => stack + [name]
    case Characters(_) => stack
    case EndElement(_) => if stack == [] then [] else stack[..|stack| - 1]
  }

  /** The stack the callbacks leave. */
  function StackAfter(stack: seq<string>, events: seq<Event>): seq<string>
    decreases |events|
  {
    if events == [] then stack else StackAfter(StackStep(stack, events[0]), events[1..])
  }

  /** One callback keeps the stack discipline, adds an entry to paths
      exactly when it closes a path element, and keeps a chosen format. */
  lemma StepInvariants(t: ParseType, st: State, e: Event, parseFloat: ParseFloat, strptime: StrpTime)
    requires Step(t, st, e, parseFloat, strptime).Ok?
    ensures var st' := Step(t, st, e, parseFloat, strptime).value;
      && st'.xmlPath == StackStep(st.xmlPath, e)
      && st'.paths == (if e == EndElement(PathElement(t)) then st.paths + [st.path] else st.paths)
      && (st.timeFormat.Some? ==> st'.timeFormat == st.timeFormat)
  {
    match e
    case StartElement(name, attrs) =>
      StartPushes(t, st, name, attrs, parseFloat);
      StartKeepsFormat(t, st, name, attrs, parseFloat);
    case Characters(content) =>
      CharsKeeps(t, st, content);
    case EndElement(name) =>
      EndAppends(t, st, name, parseFloat, strptime);
      if name != PathElement(t) && name != PointElement(t) {
        assert End(t, st, name, parseFloat, strptime).value.paths == st.paths;
      }
      if name == PointElement(t) {
        FinishConverts(st.point.value, st.timeFormat, parseFloat, strptime);
      }
  }

  lemma StartKeepsFormat(t: ParseType, st: State, name: string, attrs: map<string, string>, parseFloat: ParseFloat)
    requires Start(t, st, name, attrs, parseFloat).Ok?
    ensures Start(t, st, name, attrs, parseFloat).value.timeFormat == st.timeFormat
  {
  }

  /** characters touches neither the stack, nor paths, nor the time format. */
  lemma CharsKeeps(t: ParseType, st: State, content: string)
    requires Chars(t, st, content).Ok?
    ensures var st' := Chars(t, st, content).value;
      st'.xmlPath == st.xmlPath && st'.paths == st.paths && st'.timeFormat == st.timeFormat
  {
  }

  /** Number of callbacks closing an element of the given name. */
  function CountEnds(events: seq<Event>, name: string): nat
    decreases |events|
  {
    if events == [] then 0
    else (if events[0] == EndElement(name) then 1 else 0) + CountEnds(events[1..], name)
  }

  /** Running the callbacks, xml_path follows the stack discipline. */
  lemma {:induction false} RunStack(t: ParseType, st: State, events: seq<Event>, parseFloat: ParseFloat, strptime: StrpTime)
    requires Run(t, st, events, parseFloat, strptime).Ok?
    ensures Run(t, st, events, parseFloat, strptime).value.xmlPath == StackAfter(st.xmlPath, events)
    decreases |events|
  {
    if events != [] {
      var s1 := Step(t, st, events[0], parseFloat, strptime).value;
      StepInvariants(t, st, events[0], parseFloat, strptime);
      RunStack(t, s1, events[1..], parseFloat, strptime);
    }
  }

  /** Running the callbacks, paths only grows, by one entry per closed
      path element, in document order. */
  lemma {:induction false} RunPaths(t: ParseType, st: State, events: seq<Event>, parseFloat: ParseFloat, strptime: StrpTime)
    requires Run(t, st, events, parseFloat, strptime).Ok?
    ensures var paths := Run(t, st, events, parseFloat, strptime).value.paths;
      |paths| == |st.paths| + CountEnds(events, PathElement(t)) && paths[..|st.paths|] == st.paths
    decreases |events|
  {
    if events != [] {
      var s1 := Step(t, st, events[0], parseFloat, strptime).value;
      StepInvariants(t, st, events[0], parseFloat, strptime);
      RunPaths(t, s1, events[1..], parseFloat, strptime);
      var paths := Run(t, s1, events[1..], parseFloat, strptime).value.paths;
      assert paths[..|st.paths|] == paths[..|s1.paths|][..|st.paths|];
    }
  }

  /** Running the callbacks never replaces a chosen time format. */
  lemma {:induction false} RunKeepsFormat(t: ParseType, st: State, events: seq<Event>, parseFloat: ParseFloat, strptime: StrpTime)
    requires Run(t, st, events, parseFloat, strptime).Ok?
    requires st.timeFormat.Some?
    ensures Run(t, st, events, parseFloat, strptime).value.timeFormat == st.timeFormat
    decreases |events|
  {
    if events != [] {
      var s1 := Step(t, st, events[0], parseFloat, strptime).value;
      StepInvariants(t, st, events[0], parseFloat, strptime);
      RunKeepsFormat(t, s1, events[1..], parseFloat, strptime);
    }
  }

  /** An element whose content leaves the stack as it found it leaves the
      stack as it found it. */
  lemma {:induction false} ElementBalanced(stack: seq<string>, name: string, attrs: map<string, string>, inner: seq<Event>)
    requires StackAfter(stack + [name], inner) == stack + [name]
    ensures StackAfter(stack, [StartElement(name, attrs)] + inner + [EndElement(name)]) == stack
  {
    var evs := [StartElement(name, attrs)] + inner + [EndElement(name)];
    assert evs[1..] == inner + [EndElement(name)];
    StackAppend(stack + [name], inner, [EndElement(name)]);
    assert [EndElement(name)][1..] == [];
    assert (stack + [name])[..|stack|] == stack;
  }

  lemma {:induction false} StackAppend(stack: seq<string>, a: seq<Event>, b: seq<Event>)
    ensures StackAfter(stack, a + b) == StackAfter(StackAfter(stack, a), b)
    decreases |a|
  {
    if a == [] {
      assert a + b == b;
    } else {
      assert (a + b)[0] == a[0] && (a + b)[1..] == a[1..] + b;
      StackAppend(StackStep(stack, a[0]), a[1..], b);
    }
  }

  /** An empty track element yields one path with no name and no points. */
  lemma EmptyTrack(parseFloat: ParseFloat, strptime: StrpTime)
    ensures ParseDocument("trk", [StartElement("trk", map[]), EndElement("trk")], parseFloat, strptime)
      == Ok([Some(Path(None, None, []))])
  {
    var evs := [StartElement("trk", map[]), EndElement("trk")];
    var s1 := State(["trk"], None, Some(Path(None, None, [])), [], None);
    var s2 := State([], None, None, [Some(Path(None, None, []))], None);
    assert "trk" != PointElement(Tracks) && "trk" == PathElement(Tracks);
    assert INIT.xmlPath + ["trk"] == ["trk"] && ["trk"][..0] == [];
    assert Step(Tracks, INIT, evs[0], parseFloat, strptime) == Ok(s1);
    assert End(Tracks, s1, "trk", parseFloat, strptime) == Ok(s2) by {
      assert s1.xmlPath[..|s1.xmlPath| - 1] == [];
      assert s1.paths + [s1.path] == s2.paths;
      assert "trk" != "trkpt";
    }
    assert Run(Tracks, s2, evs[2..], parseFloat, strptime) == Ok(s2);
    assert Run(Tracks, s1, evs[1..], parseFloat, strptime) == Ok(s2);
  }

  // ---------------------------------------------------------------------
  // The handler object

  class GpxHandler {
    const parseType: ParseType
    var xmlPath: seq<string>
    var point: Option<RawPoint>
    var path: Option<Path>
    var paths: seq<Option<Path>>
    var timeFormat: Option<string>

    function Current(): State
      reads this
    {
      State(xmlPath, point, path, paths, timeFormat)
    }

    constructor(parseType: ParseType)
      ensures this.parseType == parseType && Current() == INIT
    {
      this.parseType := parseType;
      xmlPath := [];
      point := None;
      path := None;
      paths := [];
      timeFormat := None;
    }

    /** The loop of endElement that tries every format on the first time text. */
    static method DetectTimeFormat(text: string, strptime: StrpTime) returns (format: Option<string>)
      ensures format == LastMatch(TIME_FORMATS, text, strptime)
    {
      format := None;
      for i := 0 to |TIME_FORMATS|
        invariant format == LastMatch(TIME_FORMATS[..i], text, strptime)
      {
        assert TIME_FORMATS[..i + 1][..i] == TIME_FORMATS[..i];
        if strptime(text, TIME_FORMATS[i]).Some? {
          format := Some(TIME_FORMATS[i]);
        }
      }
      assert TIME_FORMATS[..|TIME_FORMATS|] == TIME_FORMATS;
    }

    /** The conversions of endElement on a closing point. */
    static method FinishPoint(raw: RawPoint, timeFormat: Option<string>, parseFloat: ParseFloat, strptime: StrpTime)
      returns (r: Result<(Point, Option<string>)>)
      ensures r == Finish(raw, timeFormat, parseFloat, strptime)
    {
      var ele: Option<real> := None;
      if raw.ele.Some? {
        ele := parseFloat(Strip(raw.ele.value));
        if ele.None? {
          return Err(ValueError);
        }
      }
      if raw.time.None? {
        return Ok((Point(raw.lat, raw.lon, ele, None, Some(raw.name)), timeFormat));
      }
      var format := timeFormat;
      if format.None? {
        format := DetectTimeFormat(raw.time.value, strptime);
      }
      if format.None? {
        return Err(Raised(TIME_ERROR));
      }
      var time := strptime(raw.time.value, format.value);
      if time.None? {
        return Err(ValueError);
      }
      return Ok((Point(raw.lat, raw.lon, ele, time, Some(raw.name)), format));
    }

    /** The callback the parser makes for one event. */
    method Feed(e: Event, parseFloat: ParseFloat, strptime: StrpTime) returns (o: Outcome)
      modifies this
      ensures o.Pass? <==> Step(parseType, old(Current()), e, parseFloat, strptime).Ok?
      ensures o.Pass? ==> Current() == Step(parseType, old(Current()), e, parseFloat, strptime).value
      ensures o.Fail? ==> o.error == Step(parseType, old(Current()), e, parseFloat, strptime).error
    {
      match e
      case StartElement(name, attrs) => o := StartElement(name, attrs, parseFloat);
      case Characters(content) => o := Characters(content);
      case EndElement(name) => o := EndElement(name, parseFloat, strptime);
    }

    method StartElement(name: string, attrs: map<string, string>, parseFloat: ParseFloat) returns (o: Outcome)
      modifies this
      ensures o.Pass? <==> Start(parseType, old(Current()), name, attrs, parseFloat).Ok?
      ensures o.Pass? ==> Current() == Start(parseType, old(Current()), name, attrs, parseFloat).value
      ensures o.Fail? ==> o.error == Start(parseType, old(Current()), name, attrs, parseFloat).error
    {
      xmlPath := xmlPath + [name];
      if name == PointElement(parseType) {
        if "lat" !in attrs || "lon" !in attrs {
          return Fail(KeyError);
        }
        var lat := ParseLatLon(attrs["lat"], parseFloat);
        var lon := ParseLatLon(attrs["lon"], parseFloat);
        if lat.None? || lon.None? {
          return Fail(NoCoordinate);
        }
        point := Some(RawPoint(lat.value, lon.value, "", None, None));
      } else if name == PathElement(parseType) {
        path := Some(Path(None, None, []));
      }
      return Pass;
    }

    method Characters(content: string) returns (o: Outcome)
      modifies this
      ensures o.Pass? <==> Chars(parseType, old(Current()), content).Ok?
      ensures o.Pass? ==> Current() == Chars(parseType, old(Current()), content).value
      ensures o.Fail? ==> o.error == Chars(parseType, old(Current()), content).error
    {
      var tail := LastTwo(xmlPath);
      if tail == [PathElement(parseType), "name"] {
        if path.None? {
          return Fail(TypeError);
        }
        path := Some(path.value.(name := Some(Strip(content))));
      } else if tail == [PointElement(parseType), "name"] {
        if point.None? {
          return Fail(TypeError);
        }
        point := Some(point.value.(name := Strip(content)));
      } else if tail == [PointElement(parseType), "ele"] {
        if point.None? {
          return Fail(AttributeError);
        }
        point := Some(point.value.(ele := Some(OrEmpty(point.value.ele) + content)));
      } else if tail == [PointElement(parseType), "time"] {
        if point.None? {
          return Fail(AttributeError);
        }
        point := Some(point.value.(time := Some(OrEmpty(point.value.time) + content)));
      }
      return Pass;
    }

    method EndElement(name: string, parseFloat: ParseFloat, strptime: StrpTime) returns (o: Outcome)
      modifies this
      ensures o.Pass? <==> End(parseType, old(Current()), name, parseFloat, strptime).Ok?
      ensures o.Pass? ==> Current() == End(parseType, old(Current()), name, parseFloat, strptime).value
      ensures o.Fail? ==> o.error == End(parseType, old(Current()), name, parseFloat, strptime).error
    {
      if xmlPath == [] {
        return Fail(IndexError);
      }
      xmlPath := xmlPath[..|xmlPath| - 1];
      if name == PointElement(parseType) {
        if point.None? {
          return Fail(TypeError);
        }
        var finished := FinishPoint(point.value, timeFormat, parseFloat, strptime);
        if finished.Err? {
          return Fail(finished.error);
        }
        if path.None? {
          return Fail(TypeError);
        }
        var (p, format) := finished.value;
        timeFormat := format;
        path := Some(path.value.(points := path.value.points + [p]));
        point := None;
      } else if name == PathElement(parseType) {
        paths := paths + [path];
        path := None;
      }
      return Pass;
    }
  }

  /** parse: a fresh handler receives every callback of the document in order. */
  method Parse(opts: string, events: seq<Event>, parseFloat: ParseFloat, strptime: StrpTime) returns (r: Result<seq<Option<Path>>>)
    ensures r == ParseDocument(opts, events, parseFloat, strptime)
  {
    var t := ParseTypeOf(opts);
    if t.Err? {
      return Err(t.error);
    }
    var handler := new GpxHandler(t.value);
    for i := 0 to |events|
      invariant handler.parseType == t.value
      invariant Run(t.value, INIT, events, parseFloat, strptime) == Run(t.value, handler.Current(), events[i..], parseFloat, strptime)
    {
      assert events[i..][0] == events[i] && events[i..][1..] == events[i + 1..];
      var o := handler.Feed(events[i], parseFloat, strptime);
      if o.Fail? {
        return Err(o.error);
      }
    }
    return Ok(handler.paths);
  }
}
