/**
 * The KML writer (out_kml.py): a fixed document head, then a "Tracks"
 * folder holding one folder per path, each with an optional "Points"
 * folder of placemarks and an optional line-string placemark.
 */
module KmlOut {
  import opened Track
  import opened Text
  import KmlIn
  import Gpx

  /** The document head with its placemark and line styles. */
  const KML_START :=
    "<?xml version=\"1.0\" encoding=\"UTF-8\" ?>\n" +
    "<kml xmlns=\"http://www.opengis.net/kml/2.2\" xmlns:gx=\"http://www.google.com/kml/ext/2.2\">\n" +
    "<Document>\n" +
    "<Style id=\"track_n\">\n" +
    "  <LabelStyle><scale>0</scale></LabelStyle>\n" +
    "  <IconStyle><scale>.5</scale><Icon><href>http://earth.google.com/images/kml-icons/track-directional/track-none.png</href></Icon></IconStyle>\n" +
    "</Style>\n" +
    "<Style id=\"track_h\">\n" +
    "  <IconStyle><scale>1.2</scale><Icon><href>http://earth.google.com/images/kml-icons/track-directional/track-none.png</href></Icon></IconStyle>\n" +
    "</Style>\n" +
    "<StyleMap id=\"track\">\n" +
    "  <Pair><key>normal</key><styleUrl>#track_n</styleUrl></Pair>\n" +
    "  <Pair><key>highlight</key><styleUrl>#track_h</styleUrl></Pair>\n" +
    "</StyleMap>\n" +
    "<Style id=\"line\">\n" +
    "  <LineStyle><color>99ffac59</color><width>6</width></LineStyle>\n" +
    "</Style>\n"

  const KML_END := "</Document></kml>"
  const TIME_FORMAT := "%Y-%m-%dT%H:%M:%SZ"
  const LINE_OPEN := "<Placemark><name>Path</name><styleUrl>#line</styleUrl><LineString><tessellate>1</tessellate><coordinates>\n"
  const LINE_CLOSE := "</coordinates></LineString></Placemark>\n"

  /** datetime.strftime: an instant written in a format. */
  type StrfTime = (Instant, string) -> string

  function FolderOpen(name: string): string {
    "<Folder><name>" + name + "</name>\n"
  }

  const FOLDER_CLOSE := "</Folder>\n"

  /** A named folder around its contents: every folder opened is closed. */
  function Folder(name: string, inner: string): string {
    FolderOpen(name) + inner + FOLDER_CLOSE
  }

  /** "%(lon)s,%(lat)s", then ",ele" when the point has an elevation. */
  function PointCoordinates(p: Point, show: real -> string): string {
    var coordinates := show(p.lon) + "," + show(p.lat);
    if p.ele.Some? then coordinates + "," + show(p.ele.value) else coordinates
  }

  /** A TimeStamp element when the point has a time, nothing otherwise. */
  function TimeStamp(p: Point, strftime: StrfTime): (r: string)
    ensures r == "" <==> p.time.None?
  {
    if p.time.Some? then "<TimeStamp><when>" + strftime(p.time.value, TIME_FORMAT) + "</when></TimeStamp>" else ""
  }

  /** One point as a placemark, named after the point or unnamed. */
  function Placemark(p: Point, show: real -> string, strftime: StrfTime): string {
    var name := if p.name.Some? then p.name.value else "";
    "<Placemark><name>" + name + "</name><styleUrl>#track</styleUrl><Point><coordinates>" +
    PointCoordinates(p, show) + "</coordinates></Point>" + TimeStamp(p, strftime) + "</Placemark>\n"
  }

  /** The placemarks of the points, in order. */
  function Placemarks(points: seq<Point>, show: real -> string, strftime: StrfTime): string {
    if points == [] then ""
    else Placemarks(points[..|points| - 1], show, strftime) + Placemark(points[|points| - 1], show, strftime)
  }

  /** One line-string coordinate: "%(lon)s,%(lat)s". */
  function LineCoordinate(p: Point, show: real -> string): string {
    show(p.lon) + "," + show(p.lat)
  }

  /** The line-string coordinates, one line per point, in order. */
  function LineCoordinates(points: seq<Point>, show: real -> string): string {
    if points == [] then ""
    else LineCoordinates(points[..|points| - 1], show) + LineCoordinate(points[|points| - 1], show) + "\n"
  }

  /** The folder of path number i (counting from 1): its name, or
      "Track i" for an unnamed path. */
  function FolderName(path: Path, i: nat, showInt: int -> string): string {
    if path.name.Some? then path.name.value else "Track " + showInt(i)
  }

  function PathFolder(path: Path, i: nat, outputPath: bool, outputPoints: bool,
                      show: real -> string, showInt: int -> string, strftime: StrfTime): string {
    Folder(FolderName(path, i, showInt),
      (if outputPoints then Folder("Points", Placemarks(path.points, show, strftime)) else "") +
      (if outputPath then LINE_OPEN + LineCoordinates(path.points, show) + LINE_CLOSE else ""))
  }

  function PathFolders(paths: seq<Path>, outputPath: bool, outputPoints: bool,
                       show: real -> string, showInt: int -> string, strftime: StrfTime): string {
    if paths == [] then ""
    else
      PathFolders(paths[..|paths| - 1], outputPath, outputPoints, show, showInt, strftime) +
      PathFolder(paths[|paths| - 1], |paths|, outputPath, outputPoints, show, showInt, strftime)
  }

  /** What follows the head: the Tracks folder and the tail. */
  function Tracks(paths: seq<Path>, outputPath: bool, outputPoints: bool,
                  show: real -> string, showInt: int -> string, strftime: StrfTime): string {
    Folder("Tracks", PathFolders(paths, outputPath, outputPoints, show, showInt, strftime)) + KML_END
  }

  /** The whole output of gen. */
  function Document(paths: seq<Path>, outputPath: bool, outputPoints: bool,
                    show: real -> string, showInt: int -> string, strftime: StrfTime): string {
    KML_START + Tracks(paths, outputPath, outputPoints, show, showInt, strftime)
  }

  /** gen: the writes to standard output, in order, collected in out; the
      folders it opens and closes one write at a time nest as Document says. */
  method Gen(paths: seq<Path>, outputPath: bool, outputPoints: bool,
             show: real -> string, showInt: int -> string, strftime: StrfTime) returns (out: string)
    ensures out == Document(paths, outputPath, outputPoints, show, showInt, strftime)
  {
    out := WriteTracks(KML_START, paths, outputPath, outputPoints, show, showInt, strftime);
  }

  /** Everything gen writes after the head. */
  method WriteTracks(out: string, paths: seq<Path>, outputPath: bool, outputPoints: bool,
                     show: real -> string, showInt: int -> string, strftime: StrfTime) returns (out': string)
    ensures out' == out + Tracks(paths, outputPath, outputPoints, show, showInt, strftime)
  {
    out' := out + FolderOpen("Tracks");
    ghost var head := out';
    for i := 0 to |paths|
      invariant out' == head + PathFolders(paths[..i], outputPath, outputPoints, show, showInt, strftime)
    {
      assert paths[..i + 1][..i] == paths[..i];
      ghost var done := PathFolders(paths[..i], outputPath, outputPoints, show, showInt, strftime);
      ghost var folder := PathFolder(paths[i], i + 1, outputPath, outputPoints, show, showInt, strftime);
      out' := WritePath(out', paths[i], i + 1, outputPath, outputPoints, show, showInt, strftime);
      AppendAssoc(head, done, folder);
    }
    assert paths[..|paths|] == paths;
    ghost var folders := PathFolders(paths, outputPath, outputPoints, show, showInt, strftime);
    out' := out' + FOLDER_CLOSE;
    out' := out' + KML_END;
    AppendAssoc(out, FolderOpen("Tracks"), folders);
    AppendAssoc(out, FolderOpen("Tracks") + folders, FOLDER_CLOSE);
    AppendAssoc(out, Folder("Tracks", folders), KML_END);
  }

  /** One pass of gen's loop over the paths. */
  method WritePath(out: string, path: Path, i: nat, outputPath: bool, outputPoints: bool,
                   show: real -> string, showInt: int -> string, strftime: StrfTime) returns (out': string)
    ensures out' == out + PathFolder(path, i, outputPath, outputPoints, show, showInt, strftime)
  {
    var name := FolderName(path, i, showInt);
    out' := out + FolderOpen(name);
    ghost var points := if outputPoints then Folder("Points", Placemarks(path.points, show, strftime)) else "";
    ghost var line := if outputPath then LINE_OPEN + LineCoordinates(path.points, show) + LINE_CLOSE else "";
    if outputPoints {
      out' := out' + FolderOpen("Points");
      out' := WritePlacemarks(out', path.points, show, strftime);
      out' := out' + FOLDER_CLOSE;
      AppendAssoc(out + FolderOpen(name), FolderOpen("Points"), Placemarks(path.points, show, strftime));
      AppendAssoc(out + FolderOpen(name), FolderOpen("Points") + Placemarks(path.points, show, strftime), FOLDER_CLOSE);
    } else {
      assert out' == (out + FolderOpen(name)) + "";
    }
    assert out' == (out + FolderOpen(name)) + points;
    if outputPath {
      out' := out' + LINE_OPEN;
      out' := WriteLineCoordinates(out', path.points, show);
      out' := out' + LINE_CLOSE;
      AppendAssoc((out + FolderOpen(name)) + points, LINE_OPEN, LineCoordinates(path.points, show));
      AppendAssoc((out + FolderOpen(name)) + points, LINE_OPEN + LineCoordinates(path.points, show), LINE_CLOSE);
    } else {
      assert out' == ((out + FolderOpen(name)) + points) + "";
    }
    assert out' == ((out + FolderOpen(name)) + points) + line;
    out' := out' + FOLDER_CLOSE;
    AppendAssoc(out + FolderOpen(name), points, line);
    AppendAssoc(out + FolderOpen(name), points + line, FOLDER_CLOSE);
    AppendAssoc(out, FolderOpen(name), (points + line) + FOLDER_CLOSE);
    AppendAssoc(FolderOpen(name), points + line, FOLDER_CLOSE);
  }

  /** The loop over the points of the Points folder. */
  method WritePlacemarks(out: string, points: seq<Point>, show: real -> string, strftime: StrfTime) returns (out': string)
    ensures out' == out + Placemarks(points, show, strftime)
  {
    out' := out;
    for j := 0 to |points|
      invariant out' == out + Placemarks(points[..j], show, strftime)
    {
      assert points[..j + 1][..j] == points[..j];
      AppendAssoc(out, Placemarks(points[..j], show, strftime), Placemark(points[j], show, strftime));
      out' := out' + Placemark(points[j], show, strftime);
    }
    assert points[..|points|] == points;
  }

  /** The loop over the points of the line string. */
  method WriteLineCoordinates(out: string, points: seq<Point>, show: real -> string) returns (out': string)
    ensures out' == out + LineCoordinates(points, show)
  {
    out' := out;
    for j := 0 to |points|
      invariant out' == out + LineCoordinates(points[..j], show)
    {
      assert points[..j + 1][..j] == points[..j];
      var line := LineCoordinate(points[j], show) + "\n";
      AppendAssoc(out, LineCoordinates(points[..j], show), line);
      AppendAssoc(LineCoordinates(points[..j], show), LineCoordinate(points[j], show), "\n");
      out' := out' + line;
    }
    assert points[..|points|] == points;
  }

  /** The line-string coordinates of the points, one entry per point. */
  function LineList(points: seq<Point>, show: real -> string): (r: seq<string>)
    ensures |r| == |points|
  {
    seq(|points|, i requires 0 <= i < |points| => LineCoordinate(points[i], show))
  }

  /** The line-string coordinates are the points' "lon,lat" joined and
      ended by newlines. */
  lemma LineCoordinatesJoin(points: seq<Point>, show: real -> string)
    ensures LineCoordinates(points, show) == Join(LineList(points, show) + [""], "\n")
  {
    if points == [] {
      assert LineList(points, show) + [""] == [""];
    } else {
      LinesNewlineEnded(points, show);
      JoinSnoc(LineList(points, show), "", "\n");
    }
  }

  /** A non-empty line string is its lines joined by newlines, plus a final
      newline. */
  lemma {:induction false} LinesNewlineEnded(points: seq<Point>, show: real -> string)
    requires points != []
    ensures LineCoordinates(points, show) == Join(LineList(points, show), "\n") + "\n"
    decreases |points|
  {
    var init := points[..|points| - 1];
    var last := LineCoordinate(points[|points| - 1], show);
    var list := LineList(points, show);
    assert list == LineList(init, show) + [last];
    if init == [] {
      assert list == [last];
    } else {
      LinesNewlineEnded(init, show);
      JoinSnoc(LineList(init, show), last, "\n");
      var a := Join(LineList(init, show), "\n");
      assert LineCoordinates(points, show) == a + "\n" + last + "\n";
    }
  }

  /** Read line by line, the line-string coordinates give every point's
      "lon,lat" in point order, then the empty rest after the last newline,
      when show writes no newline. */
  lemma LineCoordinatesLines(points: seq<Point>, show: real -> string)
    requires forall x :: '\n' !in show(x)
    ensures Split(LineCoordinates(points, show), '\n') == LineList(points, show) + [""]
  {
    LineCoordinatesJoin(points, show);
    var parts := LineList(points, show) + [""];
    forall i | 0 <= i < |parts|
      ensures '\n' !in parts[i]
    {
      if i < |points| {
        var p := points[i];
        assert parts[i] == show(p.lon) + "," + show(p.lat);
        assert '\n' !in show(p.lon) && '\n' !in show(p.lat);
      }
    }
    SplitJoin(parts, '\n');
  }

  /** A point with an elevation is written as the "lon,lat,ele" token the KML
      reader takes apart, and reads back as the same position and elevation,
      when float() reads back what show writes.
      Python 2's "%s" of a float keeps 12 significant digits, so this holds
      only for values it prints exactly; the premise on show and float()
      states that restriction. */
  lemma PointCoordinatesReadBack(p: Point, show: real -> string, parseFloat: Gpx.ParseFloat)
    requires p.ele.Some?
    requires forall x :: parseFloat(show(x)) == Some(x)
    requires forall x :: NoSpace(show(x)) && ',' !in show(x)
    ensures KmlIn.ParseToken(PointCoordinates(p, show), parseFloat) == Ok(Point(p.lat, p.lon, p.ele, None, None))
  {
    var bare := Point(p.lat, p.lon, p.ele, None, None);
    var ele: real := p.ele.value;
    var a, b, c := show(p.lon), show(p.lat), show(ele);
    assert bare.ele.value == ele;
    assert KmlIn.FormatToken(bare, show) == Join([a, b, c], ",");
    assert [a, b, c][1..] == [b, c] && [b, c][1..] == [c];
    assert Join([b, c], ",") == b + "," + c;
    assert Join([a, b, c], ",") == a + "," + (b + "," + c);
    assert PointCoordinates(p, show) == (a + "," + b) + "," + c;
    AppendAssoc(a + ",", b + ",", c);
    AppendAssoc(a, ",", b + "," + c);
    AppendAssoc(a + ",", b, ",");
    assert PointCoordinates(p, show) == KmlIn.FormatToken(bare, show);
    KmlIn.TokenRoundTrip(bare, show, parseFloat);
  }

  /** A point without an elevation, and every line-string coordinate, has
      two values where the KML reader wants three: the reader rejects it. */
  lemma TwoValuesRejected(p: Point, show: real -> string, parseFloat: Gpx.ParseFloat)
    requires forall x :: ',' !in show(x)
    ensures KmlIn.ParseToken(LineCoordinate(p, show), parseFloat) == Err(ValueError)
    ensures p.ele.None? ==> KmlIn.ParseToken(PointCoordinates(p, show), parseFloat) == Err(ValueError)
  {
    var a, b := show(p.lon), show(p.lat);
    assert ',' !in a && ',' !in b;
    SplitPrefix(a, b, ',');
    SplitNoSeparator(b, ',');
    assert LineCoordinate(p, show) == a + [','] + b;
    assert |Split(LineCoordinate(p, show), ',')| == 2;
  }
}
