/**
 * The canonical track model shared by every parser, filter and writer:
 * one Point record, one Path record, the error kinds the Python code can
 * raise, and the small numeric helpers (Python's int() truncation, powers
 * of two, sums and means) that several components use.
 */
module Track {

  datatype Option<T> = None | Some(value: T)

  /** The exception kinds the modelled code can raise. NoCoordinate stands
      for a coordinate that parse_latlon could not read (see README). */
  datatype PyError =
    | ValueError
    | KeyError
    | TypeError
    | AttributeError
    | IndexError
    | NameError
    | ZeroDivisionError
    | NoCoordinate
    | Raised(message: string)

  datatype Result<T> = Ok(value: T) | Err(error: PyError)

  datatype Outcome = Pass | Fail(error: PyError)

  /** A datetime, counted in microseconds. */
  type Instant = int

  /** One geographic sample. A field the source leaves out of its dict is None. */
  datatype Point = Point(lat: real, lon: real, ele: Option<real>, time: Option<Instant>, name: Option<string>)

  /** One recorded track or route. */
  datatype Path = Path(name: Option<string>, transportation: Option<string>, points: seq<Point>)

  /** A point that carries only a position (a centroid, a map corner). */
  function Position(lat: real, lon: real): (p: Point)
    ensures p.lat == lat && p.lon == lon && p.ele == None && p.time == None && p.name == None
  {
    Point(lat, lon, None, None, None)
  }

  function Abs(r: real): real {
    if r < 0.0 then -r else r
  }

  /** Python's int() of a float: truncation toward zero. */
  function Trunc(r: real): (t: int)
    ensures 0.0 <= r ==> t as real <= r < t as real + 1.0
    ensures r < 0.0 ==> t as real - 1.0 < r <= t as real
  {
    if r >= 0.0 then r.Floor else -((-r).Floor)
  }

  /** Python 2's / on two ints: the quotient rounded toward minus infinity. */
  function FloorDiv(a: int, b: int): (q: int)
    requires b != 0
    ensures b > 0 ==> q * b <= a < q * b + b
    ensures b < 0 ==> q * b + b < a <= q * b
  {
    if b > 0 then a / b else (-a) / (-b)
  }

  function Pow2(n: nat): (p: nat)
    ensures p >= 1
  {
    if n == 0 then 1 else 2 * Pow2(n - 1)
  }

  function Sum(xs: seq<real>): real {
    if xs == [] then 0.0 else Sum(xs[..|xs| - 1]) + xs[|xs| - 1]
  }

  /** The latitudes of a list of points, in order. */
  function Lats(points: seq<Point>): seq<real> {
    seq(|points|, i requires 0 <= i < |points| => points[i].lat)
  }

  /** The longitudes of a list of points, in order. */
  function Lons(points: seq<Point>): seq<real> {
    seq(|points|, i requires 0 <= i < |points| => points[i].lon)
  }

  /** Python's sum(l) / len(l) on a non-empty list of floats. */
  function Mean(xs: seq<real>): (m: real)
    requires |xs| > 0
    ensures m * |xs| as real == Sum(xs)
  {
    Sum(xs) / |xs| as real
  }

  /** The mean lies between the smallest and the largest element. */
  lemma {:induction false} MeanBounds(xs: seq<real>, lo: real, hi: real)
    requires |xs| > 0
    requires forall i :: 0 <= i < |xs| ==> lo <= xs[i] <= hi
    ensures lo <= Mean(xs) <= hi
  {
    SumBounds(xs, lo, hi);
  }

  lemma {:induction false} SumBounds(xs: seq<real>, lo: real, hi: real)
    requires forall i :: 0 <= i < |xs| ==> lo <= xs[i] <= hi
    ensures lo * |xs| as real <= Sum(xs) <= hi * |xs| as real
  {
    if xs != [] {
      SumBounds(xs[..|xs| - 1], lo, hi);
    }
  }
}
