/**
 * The Columbus GPS logger's CSV reader (in_columbus.py): every line is
 * split on commas with NUL characters dropped from each field; a line
 * whose first field is INDEX is a header and is skipped; every other line
 * becomes one point, and the whole file becomes one path.
 */
module Columbus {
  import opened Track
  import opened Text
  import Utils
  import Gpx

  /** int() of a string: a whole number, or None where Python raises ValueError. */
  type ParseInt = string -> Option<int>

  const HEADER := "INDEX"
  const TIME_FORMAT := "%y%m%d%H%M%S"
  const NUL: char := '\0'

  /** The fields of one line: its comma-separated pieces, each without NULs. */
  function Fields(line: string): (parts: seq<string>)
    ensures |parts| == |Split(line, ',')| >= 1
  {
    var pieces := Split(line, ',');
    seq(|pieces|, i requires 0 <= i < |pieces| => Remove(pieces[i], NUL))
  }

  /** No field holds a NUL or a comma. */
  lemma FieldsClean(line: string)
    ensures forall i :: 0 <= i < |Fields(line)| ==> NUL !in Fields(line)[i] && ',' !in Fields(line)[i]
  {
    var pieces := Split(line, ',');
    forall i | 0 <= i < |pieces|
      ensures ',' !in Remove(pieces[i], NUL)
    {
      if ',' in Remove(pieces[i], NUL) {
        RemoveSubset(pieces[i], NUL, ',');
      }
    }
  }

  /** Removing a character from a concatenation removes it from each half. */
  lemma {:induction false} RemoveAppend(a: string, b: string, c: char)
    ensures Remove(a + b, c) == Remove(a, c) + Remove(b, c)
    decreases |b|
  {
    if b == [] {
      assert a + b == a;
    } else {
      var b' := b[..|b| - 1];
      RemoveAppend(a, b', c);
      assert (a + b)[..|a + b| - 1] == a + b';
      assert b == b' + [b[|b| - 1]];
    }
  }

  /** Removing a character the separator does not hold commutes with joining. */
  lemma {:induction false} RemoveJoin(parts: seq<string>, sep: string, c: char)
    requires c !in sep
    ensures Remove(Join(parts, sep), c) ==
      Join(seq(|parts|, i requires 0 <= i < |parts| => Remove(parts[i], c)), sep)
    decreases |parts|
  {
    var cleaned := seq(|parts|, i requires 0 <= i < |parts| => Remove(parts[i], c));
    if |parts| >= 2 {
      var rest := seq(|parts| - 1, i requires 0 <= i < |parts| - 1 => Remove(parts[1..][i], c));
      RemoveJoin(parts[1..], sep, c);
      assert cleaned[1..] == rest;
      RemoveAppend(parts[0] + sep, Join(parts[1..], sep), c);
      RemoveAppend(parts[0], sep, c);
    }
  }

  /** The fields, joined back with commas, are the line with its NULs removed:
      the split loses nothing else and reorders nothing. */
  lemma FieldsJoin(line: string)
    ensures Join(Fields(line), ",") == Remove(line, NUL)
  {
    RemoveJoin(Split(line, ','), ",", NUL);
  }

  /** A header line, skipped wherever it appears. */
  predicate IsHeader(parts: seq<string>) {
    |parts| >= 1 && parts[0] == HEADER
  }

  /** The point of one data line. The dict literal is evaluated field by
      field: time from fields 2 and 3, lat from field 4, lon from field 5,
      ele from field 6; a missing field is IndexError, a bad time or ele
      ValueError, an unreadable coordinate NoCoordinate. */
  function ParsePoint(parts: seq<string>, parseFloat: Gpx.ParseFloat, parseInt: ParseInt, strptime: Gpx.StrpTime): (r: Result<Point>)
    ensures |parts| < 4 ==> r == Err(IndexError)
    ensures |parts| >= 4 && strptime(parts[2] + parts[3], TIME_FORMAT).None? ==> r == Err(ValueError)
    ensures r.Ok? <==>
      |parts| >= 7 && strptime(parts[2] + parts[3], TIME_FORMAT).Some? &&
      Utils.ParseLatLon(parts[4], parseFloat).Some? && Utils.ParseLatLon(parts[5], parseFloat).Some? &&
      parseInt(parts[6]).Some?
    ensures r.Ok? ==>
      r.value.time == strptime(parts[2] + parts[3], TIME_FORMAT) &&
      Some(r.value.lat) == Utils.ParseLatLon(parts[4], parseFloat) &&
      Some(r.value.lon) == Utils.ParseLatLon(parts[5], parseFloat) &&
      r.value.ele == Some(parseInt(parts[6]).value as real) &&
      r.value.name == None
  {
    if |parts| < 4 then Err(IndexError)
    else
      match strptime(parts[2] + parts[3], TIME_FORMAT)
      case None => Err(ValueError)
      case Some(time) =>
        if |parts| < 5 then Err(IndexError)
        else
          match Utils.ParseLatLon(parts[4], parseFloat)
          case None => Err(NoCoordinate)
          case Some(lat) =>
            if |parts| < 6 then Err(IndexError)
            else
              match Utils.ParseLatLon(parts[5], parseFloat)
              case None => Err(NoCoordinate)
              case Some(lon) =>
                if |parts| < 7 then Err(IndexError)
                else
                  match parseInt(parts[6])
                  case None => Err(ValueError)
                  case Some(ele) => Ok(Point(lat, lon, Some(ele as real), Some(time), None))
  }

  /** The points one line contributes: none for a header, else its point. */
  function LinePoints(line: string, parseFloat: Gpx.ParseFloat, parseInt: ParseInt, strptime: Gpx.StrpTime): (r: Result<seq<Point>>)
    ensures IsHeader(Fields(line)) ==> r == Ok([])
    ensures !IsHeader(Fields(line)) ==>
      (r.Ok? <==> ParsePoint(Fields(line), parseFloat, parseInt, strptime).Ok?)
    ensures !IsHeader(Fields(line)) && r.Ok? ==>
      r.value == [ParsePoint(Fields(line), parseFloat, parseInt, strptime).value]
  {
    var parts := Fields(line);
    if IsHeader(parts) then Ok([])
    else
      match ParsePoint(parts, parseFloat, parseInt, strptime)
      case Err(e) => Err(e)
      case Ok(p) => Ok([p])
  }

  /** Reading two runs of lines one after the other: the first error wins. */
  function Then(a: Result<seq<Point>>, b: Result<seq<Point>>): (r: Result<seq<Point>>)
    ensures r.Ok? <==> a.Ok? && b.Ok?
    ensures r.Ok? ==> r.value == a.value + b.value
    ensures a.Err? ==> r == a
  {
    match a
    case Err(e) => Err(e)
    case Ok(x) =>
      match b
      case Err(e) => Err(e)
      case Ok(y) => Ok(x + y)
  }

  /** The points read from a run of lines, in line order; the first failing
      line decides the error. */
  function ParseLines(lines: seq<string>, parseFloat: Gpx.ParseFloat, parseInt: ParseInt, strptime: Gpx.StrpTime): Result<seq<Point>> {
    if lines == [] then Ok([])
    else Then(ParseLines(lines[..|lines| - 1], parseFloat, parseInt, strptime), LinePoints(lines[|lines| - 1], parseFloat, parseInt, strptime))
  }

  /** The number of lines that are not headers. */
  function DataLines(lines: seq<string>): (n: nat)
    ensures n <= |lines|
  {
    if lines == [] then 0
    else DataLines(lines[..|lines| - 1]) + (if IsHeader(Fields(lines[|lines| - 1])) then 0 else 1)
  }

  /** Reading is compositional: a file reads as its first part followed by
      its second, so every line is handled the same way wherever it stands. */
  lemma {:induction false} ParseLinesAppend(a: seq<string>, b: seq<string>, parseFloat: Gpx.ParseFloat, parseInt: ParseInt, strptime: Gpx.StrpTime)
    ensures ParseLines(a + b, parseFloat, parseInt, strptime) ==
      Then(ParseLines(a, parseFloat, parseInt, strptime), ParseLines(b, parseFloat, parseInt, strptime))
    decreases |b|
  {
    var pa := ParseLines(a, parseFloat, parseInt, strptime);
    if b == [] {
      assert a + b == a;
      assert pa.Ok? ==> pa.value + [] == pa.value;
    } else {
      var b' := b[..|b| - 1];
      var last := LinePoints(b[|b| - 1], parseFloat, parseInt, strptime);
      ParseLinesAppend(a, b', parseFloat, parseInt, strptime);
      assert (a + b)[..|a + b| - 1] == a + b';
      assert (a + b)[|a + b| - 1] == b[|b| - 1];
      assert ParseLines(a + b, parseFloat, parseInt, strptime) == Then(ParseLines(a + b', parseFloat, parseInt, strptime), last);
      assert ParseLines(b, parseFloat, parseInt, strptime) == Then(ParseLines(b', parseFloat, parseInt, strptime), last);
      ThenAssoc(pa, ParseLines(b', parseFloat, parseInt, strptime), last);
    }
  }

  lemma ThenAssoc(a: Result<seq<Point>>, b: Result<seq<Point>>, c: Result<seq<Point>>)
    ensures Then(Then(a, b), c) == Then(a, Then(b, c))
  {
    if a.Ok? && b.Ok? && c.Ok? {
      assert a.value + b.value + c.value == a.value + (b.value + c.value);
    }
  }

  /** A header line is skipped wherever it stands, not only at the top. */
  lemma HeaderSkipped(a: seq<string>, line: string, b: seq<string>, parseFloat: Gpx.ParseFloat, parseInt: ParseInt, strptime: Gpx.StrpTime)
    requires IsHeader(Fields(line))
    ensures ParseLines(a + [line] + b, parseFloat, parseInt, strptime) == ParseLines(a + b, parseFloat, parseInt, strptime)
  {
    var pa := ParseLines(a, parseFloat, parseInt, strptime);
    assert [line][..0] == [];
    assert ParseLines([line], parseFloat, parseInt, strptime) == Then(Ok([]), Ok([]));
    ParseLinesAppend(a, [line], parseFloat, parseInt, strptime);
    assert pa.Ok? ==> pa.value + [] == pa.value;
    assert ParseLines(a + [line], parseFloat, parseInt, strptime) == pa;
    ParseLinesAppend(a + [line], b, parseFloat, parseInt, strptime);
    ParseLinesAppend(a, b, parseFloat, parseInt, strptime);
  }

  /** A successful read gives one point per data line, each the point of its
      own line, in line order. */
  lemma {:induction false} ParseLinesPoints(lines: seq<string>, parseFloat: Gpx.ParseFloat, parseInt: ParseInt, strptime: Gpx.StrpTime)
    requires ParseLines(lines, parseFloat, parseInt, strptime).Ok?
    ensures |ParseLines(lines, parseFloat, parseInt, strptime).value| == DataLines(lines)
    ensures forall i :: 0 <= i < |lines| && !IsHeader(Fields(lines[i])) ==>
      DataLines(lines[..i]) < DataLines(lines) &&
      ParsePoint(Fields(lines[i]), parseFloat, parseInt, strptime).Ok? &&
      ParsePoint(Fields(lines[i]), parseFloat, parseInt, strptime).value ==
        ParseLines(lines, parseFloat, parseInt, strptime).value[DataLines(lines[..i])]
    decreases |lines|
  {
    if lines != [] {
      var init := lines[..|lines| - 1];
      var last := lines[|lines| - 1];
      var r := ParseLines(lines, parseFloat, parseInt, strptime);
      var before := ParseLines(init, parseFloat, parseInt, strptime);
      ParseLinesPoints(init, parseFloat, parseInt, strptime);
      assert r.value == before.value + LinePoints(last, parseFloat, parseInt, strptime).value;
      forall i | 0 <= i < |lines| && !IsHeader(Fields(lines[i]))
        ensures DataLines(lines[..i]) < DataLines(lines)
        ensures ParsePoint(Fields(lines[i]), parseFloat, parseInt, strptime).Ok?
        ensures ParsePoint(Fields(lines[i]), parseFloat, parseInt, strptime).value == r.value[DataLines(lines[..i])]
      {
        if i < |lines| - 1 {
          assert lines[..i] == init[..i];
          assert lines[i] == init[i];
        } else {
          assert lines[..i] == init;
        }
      }
    }
  }

  /** Once a prefix of the lines fails, the whole file fails the same way. */
  lemma ParseLinesStops(lines: seq<string>, k: nat, parseFloat: Gpx.ParseFloat, parseInt: ParseInt, strptime: Gpx.StrpTime)
    requires k <= |lines|
    requires ParseLines(lines[..k], parseFloat, parseInt, strptime).Err?
    ensures ParseLines(lines, parseFloat, parseInt, strptime) == ParseLines(lines[..k], parseFloat, parseInt, strptime)
  {
    ParseLinesAppend(lines[..k], lines[k..], parseFloat, parseInt, strptime);
    assert lines[..k] + lines[k..] == lines;
  }

  /** parse: one path, its points appended line by line. */
  method Parse(lines: seq<string>, parseFloat: Gpx.ParseFloat, parseInt: ParseInt, strptime: Gpx.StrpTime) returns (r: Result<seq<Path>>)
    ensures r.Ok? <==> ParseLines(lines, parseFloat, parseInt, strptime).Ok?
    ensures r.Err? ==> r.error == ParseLines(lines, parseFloat, parseInt, strptime).error
    ensures r.Ok? ==> r.value == [Path(None, None, ParseLines(lines, parseFloat, parseInt, strptime).value)]
  {
    var points: seq<Point> := [];
    for i := 0 to |lines|
      invariant ParseLines(lines[..i], parseFloat, parseInt, strptime) == Ok(points)
    {
      assert lines[..i + 1][..i] == lines[..i];
      ghost var next := LinePoints(lines[i], parseFloat, parseInt, strptime);
      assert ParseLines(lines[..i + 1], parseFloat, parseInt, strptime) == Then(Ok(points), next);
      var parts := Fields(lines[i]);
      if IsHeader(parts) {
        assert points + [] == points;
        continue;
      }
      var point := ParsePoint(parts, parseFloat, parseInt, strptime);
      if point.Err? {
        assert next == Err(point.error);
        ParseLinesStops(lines, i + 1, parseFloat, parseInt, strptime);
        return Err(point.error);
      }
      points := points + [point.value];
    }
    assert lines[..|lines|] == lines;
    return Ok([Path(None, None, points)]);
  }
}
