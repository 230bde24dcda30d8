/**
 * The WKT writer (out_wkt.py): one GEOMETRYCOLLECTION holding, path by
 * path, the path's points as POINT geometries and the path itself as a
 * LINESTRING, each position written longitude first.
 */
module Wkt {
  import opened Track
  import opened Text

  const WKT_START := "GEOMETRYCOLLECTION ("
  const WKT_END := ")"

  /** "%s %s" % (point.lon, point.lat); show is Python's str() of a float. */
  function Coordinates(p: Point, show: real -> string): string {
    show(p.lon) + " " + show(p.lat)
  }

  function PointText(p: Point, show: real -> string): string {
    "POINT (" + Coordinates(p, show) + ")"
  }

  /** A path's points as POINT geometries joined by ", ". */
  function PointsText(path: Path, show: real -> string): string {
    Join(seq(|path.points|, i requires 0 <= i < |path.points| => PointText(path.points[i], show)), ", ")
  }

  /** A path as a LINESTRING, followed by a newline. */
  function LineText(path: Path, show: real -> string): string {
    "LINESTRING (" + Join(seq(|path.points|, i requires 0 <= i < |path.points| => Coordinates(path.points[i], show)), ", ") + ")\n"
  }

  /** What the loop writes for the path at position i. */
  function Chunk(path: Path, i: nat, outputPath: bool, outputPoints: bool, show: real -> string): string {
    (if outputPoints then PointsText(path, show) else "") +
    (if outputPath then (if i != 0 || outputPoints then ", " else "") + LineText(path, show) else "")
  }

  /** Everything the loop writes, path by path. */
  function Body(paths: seq<Path>, outputPath: bool, outputPoints: bool, show: real -> string): string {
    if paths == [] then ""
    else Body(paths[..|paths| - 1], outputPath, outputPoints, show) + Chunk(paths[|paths| - 1], |paths| - 1, outputPath, outputPoints, show)
  }

  /** The whole output of gen. */
  function Document(paths: seq<Path>, outputPath: bool, outputPoints: bool, show: real -> string): string {
    WKT_START + Body(paths, outputPath, outputPoints, show) + WKT_END
  }

  /** The output always opens and closes the geometry collection. */
  lemma Framed(paths: seq<Path>, outputPath: bool, outputPoints: bool, show: real -> string)
    ensures var out := Document(paths, outputPath, outputPoints, show);
      |out| >= |WKT_START| + |WKT_END| &&
      out[..|WKT_START|] == WKT_START && out[|out| - |WKT_END|..] == WKT_END
  {
  }

  /** gen: the writes to standard output, in order, collected in out. */
  method Gen(paths: seq<Path>, outputPath: bool, outputPoints: bool, show: real -> string) returns (out: string)
    ensures out == Document(paths, outputPath, outputPoints, show)
  {
    out := WKT_START;
    for i := 0 to |paths|
      invariant out == WKT_START + Body(paths[..i], outputPath, outputPoints, show)
    {
      assert paths[..i + 1][..i] == paths[..i];
      ghost var body := Body(paths[..i], outputPath, outputPoints, show);
      ghost var chunk := Chunk(paths[i], i, outputPath, outputPoints, show);
      out := WritePath(out, paths[i], i, outputPath, outputPoints, show);
      assert Body(paths[..i + 1], outputPath, outputPoints, show) == body + chunk;
      AppendAssoc(WKT_START, body, chunk);
    }
    assert paths[..|paths|] == paths;
    out := out + WKT_END;
  }

  /** One pass of gen's loop: the path's points, then the path. */
  method WritePath(out: string, path: Path, i: nat, outputPath: bool, outputPoints: bool, show: real -> string) returns (out': string)
    ensures out' == out + Chunk(path, i, outputPath, outputPoints, show)
  {
    out' := out;
    if outputPoints {
      out' := out' + PointsText(path, show);
    }
    ghost var points := if outputPoints then PointsText(path, show) else "";
    assert out' == out + points;
    if outputPath {
      var comma := if i != 0 || outputPoints then ", " else "";
      out' := out' + comma;
      AppendAssoc(out, points, comma);
      out' := out' + LineText(path, show);
      AppendAssoc(out, points + comma, LineText(path, show));
      AppendAssoc(points, comma, LineText(path, show));
    } else {
      assert points + "" == points;
    }
  }

  /** With neither points nor paths requested the collection is empty. */
  lemma {:induction false} NothingRequested(paths: seq<Path>, show: real -> string)
    ensures Document(paths, false, false, show) == "GEOMETRYCOLLECTION ()"
  {
    EmptyBody(paths, show);
  }

  lemma {:induction false} EmptyBody(paths: seq<Path>, show: real -> string)
    ensures Body(paths, false, false, show) == ""
  {
    if paths != [] {
      EmptyBody(paths[..|paths| - 1], show);
    }
  }

  /** The line strings of the paths, in order. */
  function Lines(paths: seq<Path>, show: real -> string): (r: seq<string>)
    ensures |r| == |paths|
  {
    seq(|paths|, i requires 0 <= i < |paths| => LineText(paths[i], show))
  }

  /** With paths only, the line strings are joined by ", ". */
  lemma {:induction false} LinesOnly(paths: seq<Path>, show: real -> string)
    ensures Body(paths, true, false, show) == Join(Lines(paths, show), ", ")
  {
    if paths != [] {
      var init := paths[..|paths| - 1];
      var line := LineText(paths[|paths| - 1], show);
      assert Lines(paths, show) == Lines(init, show) + [line];
      if init == [] {
        assert Chunk(paths[0], 0, true, false, show) == line;
        assert Lines(paths, show) == [line];
      } else {
        LinesOnly(init, show);
        assert Chunk(paths[|paths| - 1], |paths| - 1, true, false, show) == ", " + line;
        JoinSnoc(Lines(init, show), line, ", ");
        AppendAssoc(Body(init, true, false, show), ", ", line);
      }
    }
  }

  /** The point groups of the paths, in order. */
  function PointGroups(paths: seq<Path>, show: real -> string): (r: seq<string>)
    ensures |r| == |paths|
  {
    seq(|paths|, i requires 0 <= i < |paths| => PointsText(paths[i], show))
  }

  /** With points only, the point groups of consecutive paths follow each
      other with no separator. */
  lemma {:induction false} PointsOnly(paths: seq<Path>, show: real -> string)
    ensures Body(paths, false, true, show) == Concat(PointGroups(paths, show))
  {
    if paths != [] {
      var init := paths[..|paths| - 1];
      PointsOnly(init, show);
      assert PointGroups(paths, show)[..|paths| - 1] == PointGroups(init, show);
    }
  }

  /** The geometries of one path, in the order gen writes them. */
  function PathGeometries(path: Path, outputPath: bool, outputPoints: bool, show: real -> string): (r: seq<string>)
    ensures |r| == (if outputPoints then |path.points| else 0) + (if outputPath then 1 else 0)
  {
    (if outputPoints then seq(|path.points|, i requires 0 <= i < |path.points| => PointText(path.points[i], show)) else []) +
    (if outputPath then [LineText(path, show)] else [])
  }

  /** The geometries of all paths, in order. */
  function Geometries(paths: seq<Path>, outputPath: bool, outputPoints: bool, show: real -> string): seq<string> {
    if paths == [] then []
    else Geometries(paths[..|paths| - 1], outputPath, outputPoints, show) + PathGeometries(paths[|paths| - 1], outputPath, outputPoints, show)
  }

  /** The collection as WKT defines it: every geometry separated from the
      next by ", ". */
  function CorrectedDocument(paths: seq<Path>, outputPath: bool, outputPoints: bool, show: real -> string): string {
    WKT_START + Join(Geometries(paths, outputPath, outputPoints, show), ", ") + WKT_END
  }

  /** With points only, two one-point paths run together: no ", " stands
      between the first path's POINT and the second's, where the corrected
      collection has one. */
  lemma PointsRunTogether(a: Point, b: Point, show: real -> string)
    ensures var paths := [Path(None, None, [a]), Path(None, None, [b])];
      Document(paths, false, true, show) == WKT_START + PointText(a, show) + PointText(b, show) + WKT_END &&
      CorrectedDocument(paths, false, true, show) == WKT_START + PointText(a, show) + ", " + PointText(b, show) + WKT_END &&
      Document(paths, false, true, show) != CorrectedDocument(paths, false, true, show)
  {
    var paths := [Path(None, None, [a]), Path(None, None, [b])];
    var pa, pb := PointText(a, show), PointText(b, show);
    assert paths[..1] == [paths[0]] && paths[..1][..0] == [];
    assert PointsText(paths[0], show) == Join([pa], ", ") == pa;
    assert PointsText(paths[1], show) == Join([pb], ", ") == pb;
    assert PathGeometries(paths[0], false, true, show) == [pa];
    assert PathGeometries(paths[1], false, true, show) == [pb];
    assert Chunk(paths[0], 0, false, true, show) == pa + "";
    assert Chunk(paths[1], 1, false, true, show) == pb + "";
    assert Body(paths[..1], false, true, show) == "" + (pa + "");
    assert Body(paths, false, true, show) == Body(paths[..1], false, true, show) + (pb + "");
    assert Body(paths, false, true, show) == pa + pb;
    assert Geometries(paths[..1], false, true, show) == [] + [pa];
    assert Geometries(paths, false, true, show) == [pa] + [pb] == [pa, pb];
    assert [pa, pb][1..] == [pb];
    assert Join([pa, pb], ", ") == pa + ", " + pb;
    var written := Document(paths, false, true, show);
    var corrected := CorrectedDocument(paths, false, true, show);
    assert written == WKT_START + (pa + pb) + WKT_END;
    assert corrected == WKT_START + (pa + ", " + pb) + WKT_END;
    assert |corrected| == |written| + 2;
  }

  /** In the corrected collection a path's geometries always follow the
      earlier ones after a ", ". */
  lemma CorrectedSeparated(paths: seq<Path>, next: Path, outputPath: bool, outputPoints: bool, show: real -> string)
    requires Geometries(paths, outputPath, outputPoints, show) != []
    requires PathGeometries(next, outputPath, outputPoints, show) != []
    ensures CorrectedDocument(paths + [next], outputPath, outputPoints, show) ==
      WKT_START + Join(Geometries(paths, outputPath, outputPoints, show), ", ") + ", " +
      Join(PathGeometries(next, outputPath, outputPoints, show), ", ") + WKT_END
  {
    assert (paths + [next])[..|paths|] == paths;
    JoinAppend(Geometries(paths, outputPath, outputPoints, show), PathGeometries(next, outputPath, outputPoints, show), ", ");
  }

  /** With paths only, the source already separates every geometry, and the
      corrected collection is the same text. */
  lemma CorrectedAgreesOnLines(paths: seq<Path>, show: real -> string)
    ensures CorrectedDocument(paths, true, false, show) == Document(paths, true, false, show)
  {
    LinesOnly(paths, show);
    LinesGeometries(paths, show);
  }

  lemma {:induction false} LinesGeometries(paths: seq<Path>, show: real -> string)
    ensures Geometries(paths, true, false, show) == Lines(paths, show)
  {
    if paths != [] {
      LinesGeometries(paths[..|paths| - 1], show);
      assert PathGeometries(paths[|paths| - 1], true, false, show) == [LineText(paths[|paths| - 1], show)];
    }
  }

  /** With nothing requested, the corrected collection is empty too. */
  lemma {:induction false} CorrectedNothingRequested(paths: seq<Path>, show: real -> string)
    ensures CorrectedDocument(paths, false, false, show) == "GEOMETRYCOLLECTION ()"
  {
    NoGeometries(paths, show);
  }

  lemma {:induction false} NoGeometries(paths: seq<Path>, show: real -> string)
    ensures Geometries(paths, false, false, show) == []
  {
    if paths != [] {
      NoGeometries(paths[..|paths| - 1], show);
    }
  }
}
