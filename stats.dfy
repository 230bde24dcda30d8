/**
 * Track statistics (out_stats.py): one pass over a path's points sums the
 * distances between neighbours, keeps the extreme elevations and times and
 * splits the elapsed time into moving time (the point moved) and stopped
 * time (it did not); the report then derives averages and speeds.
 */
module Stats {
  import opened Track
  import Filters

  /** What the pass over the points has gathered so far. Times and time
      spans are in microseconds. */
  datatype Acc = Acc(
    totalDist: real,
    minEle: Option<real>, maxEle: Option<real>, eleSum: real,
    minTime: Option<Instant>, maxTime: Option<Instant>,
    moving: int, stopped: int,
    prev: Option<Point>)

  const START := Acc(0.0, None, None, 0.0, None, None, 0, 0, None)

  /** Python 2's min and max of a running value and a new one: None orders
      below everything. */
  function MinWith<T>(o: Option<T>, v: T, less: (T, T) -> bool): Option<T> {
    match o
    case None => None
    case Some(m) => Some(if less(v, m) then v else m)
  }

  function MaxWith<T>(o: Option<T>, v: T, less: (T, T) -> bool): Option<T> {
    match o
    case None => Some(v)
    case Some(m) => Some(if less(m, v) then v else m)
  }

  function LessReal(a: real, b: real): bool { a < b }
  function LessInt(a: int, b: int): bool { a < b }

  /** The distance from the previous point, 0 for the first. */
  function Leg(prev: Option<Point>, p: Point, dist: Filters.Dist): (d: real)
    ensures prev.None? ==> d == 0.0
  {
    if prev.None? then 0.0 else dist(prev.value, p)
  }

  /** The elevation part of one iteration. */
  function EleStep(acc: Acc, p: Point): (r: Result<Acc>)
    ensures r.Err? <==> p.ele.None?
  {
    match p.ele
    case None => Err(KeyError)
    case Some(e) =>
      if acc.minEle.None? && acc.maxEle.None? then
        Ok(acc.(minEle := Some(e), maxEle := Some(e), eleSum := acc.eleSum + e))
      else
        Ok(acc.(minEle := MinWith(acc.minEle, e, LessReal), maxEle := MaxWith(acc.maxEle, e, LessReal),
                eleSum := acc.eleSum + e))
  }

  /** The time part of one iteration: the time since the previous point is
      moving time when the point moved and stopped time when it did not. */
  function TimeStep(acc: Acc, p: Point, d: real): Result<Acc> {
    match TimeFails(acc.prev, p, d)
    case Some(e) => Err(e)
    case None =>
      var t := p.time.value;
      var ranged :=
        if acc.minTime.None? && acc.maxTime.None? then acc.(minTime := Some(t), maxTime := Some(t))
        else acc.(minTime := MinWith(acc.minTime, t, LessInt), maxTime := MaxWith(acc.maxTime, t, LessInt));
      if d != 0.0 then Ok(ranged.(moving := acc.moving + (t - acc.prev.value.time.value)))
      else if acc.prev.Some? then Ok(ranged.(stopped := acc.stopped + (t - acc.prev.value.time.value)))
      else Ok(ranged)
  }

  /** The lookups of the time part that raise: the point's own time, and the
      previous point's where a gap is taken. */
  function TimeFails(prev: Option<Point>, p: Point, d: real): (e: Option<PyError>)
    ensures e.None? ==> p.time.Some? && ((d != 0.0 || prev.Some?) ==> prev.Some? && prev.value.time.Some?)
  {
    if p.time.None? then Some(KeyError)
    else if d != 0.0 || prev.Some? then
      if prev.None? then Some(TypeError)
      else if prev.value.time.None? then Some(KeyError)
      else None
    else None
  }

  /** One iteration of the loop over the points. */
  function Visit(acc: Acc, p: Point, hasEle: bool, hasTime: bool, dist: Filters.Dist): Result<Acc> {
    var d := Leg(acc.prev, p, dist);
    var walked := acc.(totalDist := acc.totalDist + d);
    match (if hasEle then EleStep(walked, p) else Ok(walked))
    case Err(e) => Err(e)
    case Ok(withEle) =>
      match (if hasTime then TimeStep(withEle, p, d) else Ok(withEle))
      case Err(e) => Err(e)
      case Ok(withTime) => Ok(withTime.(prev := Some(p)))
  }

  /** The loop over a list of points, from the start. */
  function Accumulate(points: seq<Point>, hasEle: bool, hasTime: bool, dist: Filters.Dist): (r: Result<Acc>)
    ensures r.Ok? ==> r.value.prev == (if points == [] then None else Some(points[|points| - 1]))
    ensures r.Ok? ==> (r.value.minEle.None? <==> r.value.maxEle.None?)
    ensures r.Ok? ==> (r.value.minTime.None? <==> r.value.maxTime.None?)
    ensures r.Ok? && hasEle ==> (r.value.minEle.None? <==> points == [])
    ensures r.Ok? && hasTime ==> (r.value.minTime.None? <==> points == [])
    ensures r.Ok? && hasTime && points != [] ==> r.value.prev.value.time.Some?
  {
    if points == [] then Ok(START)
    else
      match Accumulate(points[..|points| - 1], hasEle, hasTime, dist)
      case Err(e) => Err(e)
      case Ok(acc) => Visit(acc, points[|points| - 1], hasEle, hasTime, dist)
  }

  /** The elevation of a point, 0 where it has none. */
  function EleOf(p: Point): real {
    if p.ele.Some? then p.ele.value else 0.0
  }

  /** The time of a point, 0 where it has none. */
  function TimeOf(p: Point): Instant {
    if p.time.Some? then p.time.value else 0
  }

  function Eles(points: seq<Point>): (r: seq<real>)
    ensures |r| == |points| && forall i :: 0 <= i < |points| ==> r[i] == EleOf(points[i])
  {
    seq(|points|, i requires 0 <= i < |points| => EleOf(points[i]))
  }

  /** The distances between neighbouring points, in order. */
  function Legs(points: seq<Point>, dist: Filters.Dist): (r: seq<real>)
    ensures |r| == if |points| <= 1 then 0 else |points| - 1
    ensures forall i :: 0 <= i < |r| ==> r[i] == dist(points[i], points[i + 1])
  {
    if |points| <= 1 then [] else seq(|points| - 1, i requires 0 <= i < |points| - 1 => dist(points[i], points[i + 1]))
  }

  /** The time spent between neighbours that are apart. */
  function MovingTime(points: seq<Point>, dist: Filters.Dist): int {
    if |points| < 2 then 0
    else
      var a, b := points[|points| - 2], points[|points| - 1];
      MovingTime(points[..|points| - 1], dist) + (if dist(a, b) != 0.0 then TimeOf(b) - TimeOf(a) else 0)
  }

  /** The time spent between neighbours that coincide. */
  function StoppedTime(points: seq<Point>, dist: Filters.Dist): int {
    if |points| < 2 then 0
    else
      var a, b := points[|points| - 2], points[|points| - 1];
      StoppedTime(points[..|points| - 1], dist) + (if dist(a, b) == 0.0 then TimeOf(b) - TimeOf(a) else 0)
  }

  /** Every gap between neighbours is counted once, as moving or as stopped
      time, so together they span the first to the last point. */
  lemma {:induction false} Telescope(points: seq<Point>, dist: Filters.Dist)
    requires |points| >= 1
    ensures MovingTime(points, dist) + StoppedTime(points, dist) ==
      TimeOf(points[|points| - 1]) - TimeOf(points[0])
  {
    if |points| >= 2 {
      Telescope(points[..|points| - 1], dist);
    }
  }

  /** The pass fails exactly when a point lacks a field the first point
      decided to read. */
  lemma {:induction false} AccumulateOk(points: seq<Point>, hasEle: bool, hasTime: bool, dist: Filters.Dist)
    ensures Accumulate(points, hasEle, hasTime, dist).Ok? <==>
      (hasEle ==> forall i :: 0 <= i < |points| ==> points[i].ele.Some?) &&
      (hasTime ==> forall i :: 0 <= i < |points| ==> points[i].time.Some?)
    ensures Accumulate(points, hasEle, hasTime, dist).Err? ==> Accumulate(points, hasEle, hasTime, dist).error == KeyError
  {
    if points != [] {
      AccumulateOk(points[..|points| - 1], hasEle, hasTime, dist);
    }
  }

  /** The total distance is the sum of the distances between neighbours. */
  lemma {:induction false} TotalDistance(points: seq<Point>, hasEle: bool, hasTime: bool, dist: Filters.Dist)
    requires Accumulate(points, hasEle, hasTime, dist).Ok?
    ensures Accumulate(points, hasEle, hasTime, dist).value.totalDist == Sum(Legs(points, dist))
  {
    if |points| >= 2 {
      var init := points[..|points| - 1];
      TotalDistance(init, hasEle, hasTime, dist);
      assert Legs(points, dist)[..|points| - 2] == Legs(init, dist);
    } else if |points| == 1 {
      assert points[..0] == [];
    }
  }

  /** The elevation sum is the sum of all elevations. */
  lemma {:induction false} EleSum(points: seq<Point>, hasTime: bool, dist: Filters.Dist)
    requires Accumulate(points, true, hasTime, dist).Ok?
    ensures Accumulate(points, true, hasTime, dist).value.eleSum == Sum(Eles(points))
  {
    if points != [] {
      var init := points[..|points| - 1];
      EleSum(init, hasTime, dist);
      assert Eles(points)[..|init|] == Eles(init);
    }
  }

  /** The elevation extremes bound every elevation and are elevations of
      the path. */
  lemma {:induction false} EleRange(points: seq<Point>, hasTime: bool, dist: Filters.Dist)
    requires Accumulate(points, true, hasTime, dist).Ok?
    ensures var acc := Accumulate(points, true, hasTime, dist).value;
      forall i :: 0 <= i < |points| ==> points[i].ele.Some? && acc.minEle.value <= points[i].ele.value <= acc.maxEle.value
    ensures var acc := Accumulate(points, true, hasTime, dist).value;
      points != [] ==>
        (exists i :: 0 <= i < |points| && points[i].ele == acc.minEle) &&
        (exists i :: 0 <= i < |points| && points[i].ele == acc.maxEle)
  {
    if points != [] {
      EleRange(points[..|points| - 1], hasTime, dist);
    }
  }

  /** The time extremes bound every time and are times of the path. */
  lemma {:induction false} TimeRange(points: seq<Point>, hasEle: bool, dist: Filters.Dist)
    requires Accumulate(points, hasEle, true, dist).Ok?
    ensures var acc := Accumulate(points, hasEle, true, dist).value;
      forall i :: 0 <= i < |points| ==> points[i].time.Some? && acc.minTime.value <= points[i].time.value <= acc.maxTime.value
    ensures var acc := Accumulate(points, hasEle, true, dist).value;
      points != [] ==>
        (exists i :: 0 <= i < |points| && points[i].time == acc.minTime) &&
        (exists i :: 0 <= i < |points| && points[i].time == acc.maxTime)
  {
    if points != [] {
      TimeRange(points[..|points| - 1], hasEle, dist);
    }
  }

  /** The time between neighbours goes to moving time when they are apart
      and to stopped time when they coincide; without times both stay 0. */
  lemma {:induction false} TimeSplit(points: seq<Point>, hasEle: bool, hasTime: bool, dist: Filters.Dist)
    requires Accumulate(points, hasEle, hasTime, dist).Ok?
    ensures var acc := Accumulate(points, hasEle, hasTime, dist).value;
      if hasTime then acc.moving == MovingTime(points, dist) && acc.stopped == StoppedTime(points, dist)
      else acc.moving == 0 && acc.stopped == 0
  {
    if points != [] {
      TimeSplit(points[..|points| - 1], hasEle, hasTime, dist);
    }
  }

  /** A failure part-way through stops the pass: later points change nothing. */
  lemma {:induction false} AccumulateStops(points: seq<Point>, rest: seq<Point>, hasEle: bool, hasTime: bool, dist: Filters.Dist)
    requires Accumulate(points, hasEle, hasTime, dist).Err?
    ensures Accumulate(points + rest, hasEle, hasTime, dist) == Accumulate(points, hasEle, hasTime, dist)
    decreases |rest|
  {
    if rest == [] {
      assert points + rest == points;
    } else {
      var init := rest[..|rest| - 1];
      AccumulateStops(points, init, hasEle, hasTime, dist);
      assert (points + rest)[..|points + rest| - 1] == points + init;
    }
  }

  datatype EleReport = EleReport(minEle: real, maxEle: real, avgEle: real, stdDev: real)

  /** The timed part of the report: span, moving and stopped time in
      microseconds, speeds in km/h, resolution in seconds per point. */
  datatype TimeReport = TimeReport(span: int, avgSpeed: real, moving: int, stopped: int, avgMovingSpeed: real, resolution: real)

  /** What gen_path_stats writes for one path, before number formatting. */
  datatype Report = Report(pointCount: nat, hasEle: bool, hasTime: bool, totalDist: real, time: Option<TimeReport>, ele: Option<EleReport>)

  /** timedelta.days * 24 * 3600 + timedelta.seconds: the whole seconds of a
      span, the microseconds dropped. */
  function WholeSeconds(span: int): (s: int)
    ensures s * 1000000 <= span < s * 1000000 + 1000000
  {
    FloorDiv(span, 1000000)
  }

  /** The squared distances of the elevations from their mean. */
  function Deviations(points: seq<Point>, mean: real): (r: seq<real>)
    ensures |r| == |points|
    ensures forall i :: 0 <= i < |r| ==> r[i] >= 0.0
  {
    seq(|points|, i requires 0 <= i < |points| => (mean - EleOf(points[i])) * (mean - EleOf(points[i])))
  }

  /** The report derived from a finished pass; a zero span or zero moving
      time divides by zero. */
  function Summarise(points: seq<Point>, acc: Acc, hasEle: bool, hasTime: bool, sqrt: real -> real): Result<Report>
    requires |points| >= 1
    requires hasEle ==> acc.minEle.Some? && acc.maxEle.Some?
    requires hasTime ==> acc.minTime.Some? && acc.maxTime.Some?
  {
    var n := |points| as real;
    var avgEle := acc.eleSum / n;
    var ele := if hasEle then Some(EleReport(acc.minEle.value, acc.maxEle.value, avgEle, sqrt(Sum(Deviations(points, avgEle)) / n))) else None;
    if !hasTime then Ok(Report(|points|, hasEle, hasTime, acc.totalDist, None, ele))
    else
      var span := acc.maxTime.value - acc.minTime.value;
      var seconds := WholeSeconds(span);
      if seconds == 0 then Err(ZeroDivisionError)
      else
        var movingSeconds := WholeSeconds(acc.moving);
        if movingSeconds == 0 then Err(ZeroDivisionError)
        else
          var timed := TimeReport(span, acc.totalDist / seconds as real * 3600.0 / 1000.0, acc.moving, acc.stopped,
                                  acc.totalDist / movingSeconds as real * 3600.0 / 1000.0, seconds as real / n);
          Ok(Report(|points|, hasEle, hasTime, acc.totalDist, Some(timed), ele))
  }

  /** gen_path_stats: the first point decides whether elevations and times
      are read at all. */
  function PathStats(path: Path, dist: Filters.Dist, sqrt: real -> real): Result<Report> {
    var points := path.points;
    if points == [] then Err(IndexError)
    else
      var hasEle := points[0].ele.Some?;
      var hasTime := points[0].time.Some?;
      match Accumulate(points, hasEle, hasTime, dist)
      case Err(e) => Err(e)
      case Ok(acc) => Summarise(points, acc, hasEle, hasTime, sqrt)
  }

  /** How a path's statistics fail: an empty path has no first point, a
      point without a field the first point has is a KeyError, and a timed
      path whose span or moving time is under a second divides by zero. */
  lemma PathStatsErrors(path: Path, dist: Filters.Dist, sqrt: real -> real)
    ensures path.points == [] <==> PathStats(path, dist, sqrt) == Err(IndexError)
    ensures path.points != [] ==>
      var first := path.points[0];
      var complete := forall i :: 0 <= i < |path.points| ==>
        (first.ele.Some? ==> path.points[i].ele.Some?) && (first.time.Some? ==> path.points[i].time.Some?);
      (PathStats(path, dist, sqrt) == Err(KeyError) <==> !complete) &&
      (complete && first.time.None? ==> PathStats(path, dist, sqrt).Ok?)
    ensures |path.points| == 1 && path.points[0].time.Some? ==> PathStats(path, dist, sqrt) == Err(ZeroDivisionError)
    ensures (|path.points| >= 1 && path.points[0].time.Some? &&
             (forall i :: 0 <= i < |path.points| ==> path.points[i].time.Some?) &&
             (path.points[0].ele.Some? ==> forall i :: 0 <= i < |path.points| ==> path.points[i].ele.Some?) &&
             (forall i :: 0 <= i < |Legs(path.points, dist)| ==> Legs(path.points, dist)[i] == 0.0))
      ==> PathStats(path, dist, sqrt) == Err(ZeroDivisionError)
  {
    if path.points != [] {
      var points := path.points;
      var first := points[0];
      AccumulateOk(points, first.ele.Some?, first.time.Some?, dist);
      var acc := Accumulate(points, first.ele.Some?, first.time.Some?, dist);
      if acc.Ok? && first.time.Some? {
        TimeSplit(points, first.ele.Some?, true, dist);
        if forall i :: 0 <= i < |Legs(points, dist)| ==> Legs(points, dist)[i] == 0.0 {
          StandingStill(points, dist);
        }
        if |points| == 1 {
          TimeRange(points, first.ele.Some?, dist);
        }
      }
    }
  }

  /** A timed path with every field the first point has succeeds exactly
      when two of its times are a second or more apart and its moving time
      does not round down to 0 seconds; a negative moving time, from times
      that go backwards, does not. */
  lemma TimedPathSucceeds(path: Path, dist: Filters.Dist, sqrt: real -> real)
    requires |path.points| >= 1 && path.points[0].time.Some?
    requires forall i :: 0 <= i < |path.points| ==> path.points[i].time.Some?
    requires path.points[0].ele.Some? ==> forall i :: 0 <= i < |path.points| ==> path.points[i].ele.Some?
    ensures var points := path.points;
      PathStats(path, dist, sqrt).Ok? <==>
        (exists i, j :: 0 <= i < |points| && 0 <= j < |points| && TimeOf(points[j]) - TimeOf(points[i]) >= 1000000) &&
        !(0 <= MovingTime(points, dist) < 1000000)
  {
    var points := path.points;
    var hasEle := points[0].ele.Some?;
    AccumulateOk(points, hasEle, true, dist);
    TimeSplit(points, hasEle, true, dist);
    TimeRange(points, hasEle, dist);
    var acc := Accumulate(points, hasEle, true, dist).value;
    var span := acc.maxTime.value - acc.minTime.value;
    if span >= 1000000 {
      var i :| 0 <= i < |points| && points[i].time == acc.minTime;
      var j :| 0 <= j < |points| && points[j].time == acc.maxTime;
      assert TimeOf(points[j]) - TimeOf(points[i]) >= 1000000;
    } else {
      forall i, j | 0 <= i < |points| && 0 <= j < |points|
        ensures TimeOf(points[j]) - TimeOf(points[i]) < 1000000
      {
        assert acc.minTime.value <= points[i].time.value && points[j].time.value <= acc.maxTime.value;
      }
    }
    assert PathStats(path, dist, sqrt) == Summarise(points, acc, hasEle, true, sqrt);
  }

  /** A path whose neighbours all coincide has no moving time. */
  lemma {:induction false} StandingStill(points: seq<Point>, dist: Filters.Dist)
    requires forall i :: 0 <= i < |Legs(points, dist)| ==> Legs(points, dist)[i] == 0.0
    ensures MovingTime(points, dist) == 0
  {
    if |points| >= 2 {
      var init := points[..|points| - 1];
      assert forall i :: 0 <= i < |Legs(init, dist)| ==> Legs(init, dist)[i] == Legs(points, dist)[i];
      StandingStill(init, dist);
      assert Legs(points, dist)[|points| - 2] == 0.0;
    }
  }

  /** A timed report spans the earliest to the latest time and splits it
      into moving and stopped time; an elevation report holds the extreme
      elevations; the distance is the sum over neighbours. */
  lemma PathStatsReport(path: Path, dist: Filters.Dist, sqrt: real -> real)
    requires PathStats(path, dist, sqrt).Ok?
    ensures var r := PathStats(path, dist, sqrt).value; var points := path.points;
      r.pointCount == |points| >= 1 &&
      r.hasEle == points[0].ele.Some? && r.hasTime == points[0].time.Some? &&
      r.totalDist == Sum(Legs(points, dist)) &&
      (r.ele.Some? <==> r.hasEle) && (r.time.Some? <==> r.hasTime)
    ensures var r := PathStats(path, dist, sqrt).value; var points := path.points;
      r.ele.Some? ==>
        forall i :: 0 <= i < |points| ==> r.ele.value.minEle <= EleOf(points[i]) <= r.ele.value.maxEle
    ensures var r := PathStats(path, dist, sqrt).value; var points := path.points;
      r.time.Some? ==>
        r.time.value.moving == MovingTime(points, dist) && r.time.value.stopped == StoppedTime(points, dist) &&
        (forall i :: 0 <= i < |points| ==> points[i].time.Some?) &&
        r.time.value.span >= r.time.value.moving + r.time.value.stopped
  {
    var points := path.points;
    var hasEle, hasTime := points[0].ele.Some?, points[0].time.Some?;
    var acc := Accumulate(points, hasEle, hasTime, dist).value;
    TotalDistance(points, hasEle, hasTime, dist);
    TimeSplit(points, hasEle, hasTime, dist);
    if hasEle {
      EleRange(points, hasTime, dist);
    }
    if hasTime {
      TimeRange(points, hasEle, dist);
      Telescope(points, dist);
      var last := |points| - 1;
      assert acc.minTime.value <= points[0].time.value && points[last].time.value <= acc.maxTime.value;
    }
  }

  /** gen_path_stats: one loop over the points updates every running value. */
  method GenPathStats(path: Path, dist: Filters.Dist, sqrt: real -> real) returns (r: Result<Report>)
    ensures r == PathStats(path, dist, sqrt)
  {
    var points := path.points;
    if |points| == 0 {
      return Err(IndexError);
    }
    var hasEle := points[0].ele.Some?;
    var hasTime := points[0].time.Some?;
    var acc := Scan(points, hasEle, hasTime, dist);
    if acc.Err? {
      return Err(acc.error);
    }
    return Summarise(points, acc.value, hasEle, hasTime, sqrt);
  }

  /** The loop of gen_path_stats over the points; its running values are
      kept together in one Acc. */
  method Scan(points: seq<Point>, hasEle: bool, hasTime: bool, dist: Filters.Dist) returns (r: Result<Acc>)
    ensures r == Accumulate(points, hasEle, hasTime, dist)
  {
    var acc := START;
    for i := 0 to |points|
      invariant Accumulate(points[..i], hasEle, hasTime, dist) == Ok(acc)
    {
      assert points[..i + 1][..i] == points[..i];
      var next := VisitPoint(acc, points[i], hasEle, hasTime, dist);
      if next.Err? {
        AccumulateStops(points[..i + 1], points[i + 1..], hasEle, hasTime, dist);
        assert points[..i + 1] + points[i + 1..] == points;
        return next;
      }
      acc := next.value;
    }
    assert points[..|points|] == points;
    return Ok(acc);
  }

  /** The body of gen_path_stats's loop for one point. */
  method VisitPoint(acc: Acc, p: Point, hasEle: bool, hasTime: bool, dist: Filters.Dist) returns (r: Result<Acc>)
    ensures r == Visit(acc, p, hasEle, hasTime, dist)
  {
    var prev := acc.prev;
    var totalDist, minEle, maxEle, eleSum := acc.totalDist, acc.minEle, acc.maxEle, acc.eleSum;
    var minTime, maxTime, moving, stopped := acc.minTime, acc.maxTime, acc.moving, acc.stopped;
    var d := if prev.Some? then dist(prev.value, p) else 0.0;
    totalDist := totalDist + d;
    if hasEle {
      if p.ele.None? {
        return Err(KeyError);
      }
      if minEle.None? && maxEle.None? {
        minEle, maxEle := p.ele, p.ele;
      } else {
        minEle, maxEle := MinWith(minEle, p.ele.value, LessReal), MaxWith(maxEle, p.ele.value, LessReal);
      }
      eleSum := eleSum + p.ele.value;
    }
    ghost var withEle := Acc(totalDist, minEle, maxEle, eleSum, minTime, maxTime, moving, stopped, prev);
    assert (if hasEle then EleStep(acc.(totalDist := totalDist), p) else Ok(acc.(totalDist := totalDist))) == Ok(withEle);
    if hasTime {
      var failed := TimeFails(prev, p, d);
      if failed.Some? {
        return Err(failed.value);
      }
      if minTime.None? && maxTime.None? {
        minTime, maxTime := p.time, p.time;
      } else {
        minTime, maxTime := MinWith(minTime, p.time.value, LessInt), MaxWith(maxTime, p.time.value, LessInt);
      }
      if d != 0.0 {
        moving := moving + (p.time.value - prev.value.time.value);
      }
      if d == 0.0 && prev.Some? {
        stopped := stopped + (p.time.value - prev.value.time.value);
      }
    }
    return Ok(Acc(totalDist, minEle, maxEle, eleSum, minTime, maxTime, moving, stopped, Some(p)));
  }

  /** gen: the statistics of every path, in order; the first failure stops. */
  function AllStats(paths: seq<Path>, dist: Filters.Dist, sqrt: real -> real): Result<seq<Report>> {
    if paths == [] then Ok([])
    else
      match AllStats(paths[..|paths| - 1], dist, sqrt)
      case Err(e) => Err(e)
      case Ok(reports) =>
        match PathStats(paths[|paths| - 1], dist, sqrt)
        case Err(e) => Err(e)
        case Ok(report) => Ok(reports + [report])
  }

  /** One report per path, each that path's own, in input order. */
  lemma {:induction false} AllStatsInOrder(paths: seq<Path>, dist: Filters.Dist, sqrt: real -> real)
    ensures AllStats(paths, dist, sqrt).Ok? <==> forall i :: 0 <= i < |paths| ==> PathStats(paths[i], dist, sqrt).Ok?
    ensures AllStats(paths, dist, sqrt).Ok? ==>
      |AllStats(paths, dist, sqrt).value| == |paths| &&
      forall i :: 0 <= i < |paths| ==> AllStats(paths, dist, sqrt).value[i] == PathStats(paths[i], dist, sqrt).value
  {
    if paths != [] {
      var init := paths[..|paths| - 1];
      AllStatsInOrder(init, dist, sqrt);
      assert forall i :: 0 <= i < |init| ==> init[i] == paths[i];
    }
  }

  /** A failure is the first failing path's. */
  lemma {:induction false} AllStatsFirstFailure(paths: seq<Path>, dist: Filters.Dist, sqrt: real -> real)
    requires AllStats(paths, dist, sqrt).Err?
    ensures exists k ::
      0 <= k < |paths| && PathStats(paths[k], dist, sqrt).Err? &&
      PathStats(paths[k], dist, sqrt).error == AllStats(paths, dist, sqrt).error &&
      forall j :: 0 <= j < k ==> PathStats(paths[j], dist, sqrt).Ok?
  {
    var init := paths[..|paths| - 1];
    assert forall i :: 0 <= i < |init| ==> init[i] == paths[i];
    if AllStats(init, dist, sqrt).Err? {
      AllStatsFirstFailure(init, dist, sqrt);
    } else {
      AllStatsInOrder(init, dist, sqrt);
      assert PathStats(paths[|init|], dist, sqrt).Err?;
    }
  }

  method Gen(paths: seq<Path>, dist: Filters.Dist, sqrt: real -> real) returns (r: Result<seq<Report>>)
    ensures r == AllStats(paths, dist, sqrt)
  {
    var reports: seq<Report> := [];
    for i := 0 to |paths|
      invariant AllStats(paths[..i], dist, sqrt) == Ok(reports)
    {
      assert paths[..i + 1][..i] == paths[..i];
      var report := GenPathStats(paths[i], dist, sqrt);
      if report.Err? {
        AllStatsStops(paths[..i + 1], paths[i + 1..], dist, sqrt);
        assert paths[..i + 1] + paths[i + 1..] == paths;
        return Err(report.error);
      }
      reports := reports + [report.value];
    }
    assert paths[..|paths|] == paths;
    return Ok(reports);
  }

  lemma {:induction false} AllStatsStops(paths: seq<Path>, rest: seq<Path>, dist: Filters.Dist, sqrt: real -> real)
    requires AllStats(paths, dist, sqrt).Err?
    ensures AllStats(paths + rest, dist, sqrt) == AllStats(paths, dist, sqrt)
    decreases |rest|
  {
    if rest == [] {
      assert paths + rest == paths;
    } else {
      var init := rest[..|rest| - 1];
      AllStatsStops(paths, init, dist, sqrt);
      assert (paths + rest)[..|paths + rest| - 1] == paths + init;
    }
  }
}
