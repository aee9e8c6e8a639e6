/** Waypoint tracking and the tube distance (edge_runtime/trajectory.py).
    Distances are kept squared, which compares them the same way. */
module Trajectory {
  import opened Wrappers
  import opened Arithmetic

  datatype Point = Point(x: real, y: real, z: real)

  function Dot(a: Point, b: Point): real { a.x * b.x + a.y * b.y + a.z * b.z }

  function Minus(a: Point, b: Point): Point { Point(a.x - b.x, a.y - b.y, a.z - b.z) }

  /** a + s * d */
  function Along(a: Point, d: Point, s: real): Point { Point(a.x + s * d.x, a.y + s * d.y, a.z + s * d.z) }

  /** math.dist, squared. */
  function DistanceSquared(a: Point, b: Point): real { Dot(Minus(a, b), Minus(a, b)) }

  datatype Tracker = Tracker(
    waypoints: seq<Point>, tolerance: real, intermediate: Option<real>, index: nat, completed: bool)

  predicate TrackerOk(t: Tracker) {
    && t.index < |t.waypoints| && t.tolerance > 0.0 && (t.intermediate.Some? ==> t.intermediate.value > 0.0)
    && (t.completed ==> t.index == |t.waypoints| - 1)
  }

  function NewTracker(waypoints: seq<Point>, tolerance: real, intermediate: Option<real>): Tracker {
    Tracker(waypoints, tolerance, intermediate, 0, false)
  }

  /** current_tolerance_m for the waypoint of an index. */
  function ToleranceAt(t: Tracker, k: nat): real {
    if k == 0 || k == |t.waypoints| - 1 || t.intermediate.None? then t.tolerance else t.intermediate.value
  }

  predicate Reaches(t: Tracker, point: Point, k: nat)
    requires k < |t.waypoints|
  {
    DistanceSquared(point, t.waypoints[k]) <= ToleranceAt(t, k) * ToleranceAt(t, k)
  }

  /** WaypointTracker.advance */
  function Advance(t: Tracker, point: Point): (u: Tracker)
    requires TrackerOk(t)
    ensures TrackerOk(u)
  {
    if t.completed || !Reaches(t, point, t.index) then t
    else if t.index == |t.waypoints| - 1 then t.(completed := true)
    else t.(index := t.index + 1)
  }

  function AdvanceAll(t: Tracker, points: seq<Point>): (u: Tracker)
    requires TrackerOk(t)
    ensures TrackerOk(u) && u.(index := 0, completed := false) == t.(index := 0, completed := false)
  {
    if points == [] then t else Advance(AdvanceAll(t, points[..|points| - 1]), points[|points| - 1])
  }

  // ---------- waypoints are reached in order, and as early as possible ----------

  function Reached(t: Tracker): nat { t.index + if t.completed then 1 else 0 }

  /** Among the points, m of them in order, at strictly increasing positions,
      reach the first m waypoints one by one. */
  predicate InOrder(t: Tracker, points: seq<Point>, m: nat)
    requires m <= |t.waypoints|
    decreases m
  {
    m == 0 || exists k :: 0 <= k < |points| && Reaches(t, points[k], m - 1) && InOrder(t, points[..k], m - 1)
  }

  lemma {:induction false} InOrderGrows(t: Tracker, points: seq<Point>, k: nat, m: nat)
    requires m <= |t.waypoints| && k <= |points| && InOrder(t, points[..k], m)
    ensures InOrder(t, points, m)
  {
    if m > 0 {
      var j :| 0 <= j < k && Reaches(t, points[..k][j], m - 1) && InOrder(t, points[..k][..j], m - 1);
      assert points[..k][..j] == points[..j];
      assert Reaches(t, points[j], m - 1);
    }
  }

  /** One more point helps only as the last of the m. */
  lemma LastPoint(t: Tracker, before: seq<Point>, last: Point, m: nat)
    requires 0 < m <= |t.waypoints|
    ensures InOrder(t, before + [last], m) <==>
            InOrder(t, before, m) || (Reaches(t, last, m - 1) && InOrder(t, before, m - 1))
  {
    var points := before + [last];
    assert points[..|before|] == before;
    if InOrder(t, before, m) {
      InOrderGrows(t, points, |before|, m);
    }
    if InOrder(t, points, m) {
      var k :| 0 <= k < |points| && Reaches(t, points[k], m - 1) && InOrder(t, points[..k], m - 1);
      if k < |before| {
        assert before[..k] == points[..k] && before[k] == points[k];
      }
    }
  }

  lemma AdvanceReaches(t: Tracker, u: Tracker, point: Point, m: nat)
    requires TrackerOk(u) && u.(index := 0, completed := false) == t.(index := 0, completed := false)
    requires 0 < m <= |t.waypoints|
    ensures m <= Reached(Advance(u, point)) <==>
            m <= Reached(u) || (Reaches(t, point, m - 1) && m - 1 <= Reached(u))
  {}

  /** The tracker has reached at least m waypoints exactly when the observations
      contain m points, in order, within tolerance of waypoints 0 to m - 1: it
      misses nothing and claims nothing. */
  lemma {:induction false} TrackerIsExact(t: Tracker, points: seq<Point>, m: nat)
    requires TrackerOk(t) && t.index == 0 && !t.completed && m <= |t.waypoints|
    ensures m <= Reached(AdvanceAll(t, points)) <==> InOrder(t, points, m)
    decreases |points|, m
  {
    if m > 0 && points != [] {
      var before, last := points[..|points| - 1], points[|points| - 1];
      TrackerIsExact(t, before, m);
      TrackerIsExact(t, before, m - 1);
      AdvanceReaches(t, AdvanceAll(t, before), last, m);
      LastPoint(t, before, last, m);
      assert before + [last] == points;
    }
  }

  /** In particular: completion means every waypoint was reached, in order. */
  lemma CompletionIsExact(waypoints: seq<Point>, tolerance: real, intermediate: Option<real>, points: seq<Point>)
    requires TrackerOk(NewTracker(waypoints, tolerance, intermediate))
    ensures var t := NewTracker(waypoints, tolerance, intermediate);
      AdvanceAll(t, points).completed <==> InOrder(t, points, |waypoints|)
  {
    TrackerIsExact(NewTracker(waypoints, tolerance, intermediate), points, |waypoints|);
  }

  // ---------- the tube ----------

  const MIN_LENGTH_SQUARED := 0.000000000001

  /** _point_to_segment_distance, squared. */
  function SegmentDistanceSquared(point: Point, start: Point, end: Point): real {
    var segment := Minus(end, start);
    var length := Dot(segment, segment);
    if length <= MIN_LENGTH_SQUARED then DistanceSquared(point, start)
    else DistanceSquared(point, Along(start, segment, Clamp(Dot(Minus(point, start), segment) / length, 0.0, 1.0)))
  }

  lemma AxisExpands(o: real, d: real, s: real)
    ensures (o - s * d) * (o - s * d) == o * o - 2.0 * s * (o * d) + s * s * (d * d)
  {}

  lemma SumExpands(oo: Point, od: Point, dd: Point, s: real)
    ensures (oo.x - 2.0 * s * od.x + s * s * dd.x) + (oo.y - 2.0 * s * od.y + s * s * dd.y)
            + (oo.z - 2.0 * s * od.z + s * s * dd.z)
            == (oo.x + oo.y + oo.z) - 2.0 * s * (od.x + od.y + od.z) + s * s * (dd.x + dd.y + dd.z)
  {}

  function Products(a: Point, b: Point): Point { Point(a.x * b.x, a.y * b.y, a.z * b.z) }

  /** The squared distance to a point of the line, as a polynomial in s. */
  lemma DistanceExpands(point: Point, start: Point, d: Point, s: real)
    ensures var o := Minus(point, start);
      DistanceSquared(point, Along(start, d, s)) == Dot(o, o) - 2.0 * s * Dot(o, d) + s * s * Dot(d, d)
  {
    OffsetIsRelative(point, start, d, s);
    OffsetExpands(Minus(point, start), d, s);
  }

  lemma OffsetIsRelative(point: Point, start: Point, d: Point, s: real)
    ensures Minus(point, Along(start, d, s)) == Minus(Minus(point, start), Along(Point(0.0, 0.0, 0.0), d, s))
  {}

  lemma OffsetExpands(o: Point, d: Point, s: real)
    ensures var q := Minus(o, Along(Point(0.0, 0.0, 0.0), d, s));
      Dot(q, q) == Dot(o, o) - 2.0 * s * Dot(o, d) + s * s * Dot(d, d)
  {
    AxisExpands(o.x, d.x, s);
    AxisExpands(o.y, d.y, s);
    AxisExpands(o.z, d.z, s);
    SumExpands(Products(o, o), Products(o, d), Products(d, d), s);
  }

  /** A parabola opening upward is least, on [0, 1], at its clamped vertex. */
  lemma ClampedVertexIsLeast(length: real, vertex: real, s: real)
    requires length > 0.0 && 0.0 <= s <= 1.0
    ensures var r := Clamp(vertex, 0.0, 1.0);
      r * r * length - 2.0 * r * (vertex * length) <= s * s * length - 2.0 * s * (vertex * length)
  {
    var r := Clamp(vertex, 0.0, 1.0);
    var difference := (s - r) * (s + r - 2.0 * vertex);
    assert difference >= 0.0 by {
      if r == vertex {
        assert s + r - 2.0 * vertex == s - r;
      }
    }
    assert difference * length >= 0.0;
    FactorParabola(length, vertex, r, s);
  }

  lemma FactorParabola(length: real, vertex: real, r: real, s: real)
    ensures (s - r) * (s + r - 2.0 * vertex) * length ==
            (s * s * length - 2.0 * s * (vertex * length)) - (r * r * length - 2.0 * r * (vertex * length))
  {}

  /** The same for any parabola oo - 2 s od + s^2 length. */
  lemma LeastOnSegment(oo: real, od: real, length: real, s: real)
    requires length > 0.0 && 0.0 <= s <= 1.0
    ensures var r := Clamp(od / length, 0.0, 1.0);
      oo - 2.0 * r * od + r * r * length <= oo - 2.0 * s * od + s * s * length
  {
    assert (od / length) * length == od;
    ClampedVertexIsLeast(length, od / length, s);
  }

  /** A segment the source measures by its start alone. */
  predicate Short(start: Point, end: Point) { Dot(Minus(end, start), Minus(end, start)) <= MIN_LENGTH_SQUARED }

  /** The distance the source computes is to the nearest point of the segment. */
  ghost predicate MeasuresNearest(point: Point, start: Point, end: Point) {
    forall s | 0.0 <= s <= 1.0 ::
      SegmentDistanceSquared(point, start, end) <= DistanceSquared(point, Along(start, Minus(end, start), s))
  }

  lemma LongMeasuresNearest(point: Point, start: Point, end: Point, s: real)
    requires !Short(start, end) && 0.0 <= s <= 1.0
    ensures SegmentDistanceSquared(point, start, end) <= DistanceSquared(point, Along(start, Minus(end, start), s))
  {
    var d := Minus(end, start);
    var o := Minus(point, start);
    var length := Dot(d, d);
    DistanceExpands(point, start, d, Clamp(Dot(o, d) / length, 0.0, 1.0));
    DistanceExpands(point, start, d, s);
    LeastOnSegment(Dot(o, o), Dot(o, d), length, s);
  }

  /** A parabola that does not fall at 0 is nowhere lower on [0, 1]. */
  lemma RisingParabola(oo: real, od: real, length: real, s: real)
    requires od <= 0.0 && length >= 0.0 && s >= 0.0
    ensures oo <= oo - 2.0 * s * od + s * s * length
  {
    assert s * od <= 0.0;
    assert (s * s) * length >= 0.0;
  }

  /** A place on [0, 1] where a parabola that falls at 0 is lower than there. */
  function FallingAt(od: real, length: real): real
    requires od > 0.0
  {
    if length <= od then 1.0 else od / length
  }

  lemma QuotientBelowOne(od: real, length: real)
    requires 0.0 < od < length
    ensures 0.0 < od / length < 1.0 && (od / length) * length == od
  {
    var q := od / length;
    assert q * length == od;
    if q >= 1.0 { ProductOfSigns(q - 1.0, length); }
    if q <= 0.0 { ProductOfSigns(-q, length); }
  }

  lemma ProductOfSigns(a: real, b: real)
    requires a >= 0.0 && b >= 0.0
    ensures a * b >= 0.0
  {}

  /** At its vertex a parabola is lower than at 0. */
  lemma AtVertex(oo: real, s: real, od: real, length: real)
    requires s * length == od && s > 0.0 && od > 0.0
    ensures oo - 2.0 * s * od + s * s * length < oo
  {
    assert s * s * length == s * (s * length);
    assert 2.0 * s * od == 2.0 * (s * od);
    assert s * od > 0.0;
  }

  lemma FallingParabola(oo: real, od: real, length: real)
    requires od > 0.0
    ensures var s := FallingAt(od, length);
      0.0 <= s <= 1.0 && oo - 2.0 * s * od + s * s * length < oo
  {
    if length > od {
      QuotientBelowOne(od, length);
      AtVertex(oo, od / length, od, length);
    }
  }

  lemma SquareIsNonnegative(a: Point)
    ensures Dot(a, a) >= 0.0
  {
    assert a.x * a.x >= 0.0 && a.y * a.y >= 0.0 && a.z * a.z >= 0.0;
  }

  lemma ShortMeasuresStart(point: Point, start: Point, end: Point, s: real)
    requires Short(start, end) && s >= 0.0 && Dot(Minus(point, start), Minus(end, start)) <= 0.0
    ensures SegmentDistanceSquared(point, start, end) <= DistanceSquared(point, Along(start, Minus(end, start), s))
  {
    var d := Minus(end, start);
    var o := Minus(point, start);
    DistanceExpands(point, start, d, s);
    SquareIsNonnegative(d);
    RisingParabola(Dot(o, o), Dot(o, d), Dot(d, d), s);
  }

  lemma StartIsNotNearest(point: Point, start: Point, d: Point)
    requires Dot(Minus(point, start), d) > 0.0
    ensures var s := FallingAt(Dot(Minus(point, start), d), Dot(d, d));
      && 0.0 <= s <= 1.0
      && DistanceSquared(point, Along(start, d, s)) < DistanceSquared(point, start)
  {
    var o := Minus(point, start);
    FallingParabola(Dot(o, o), Dot(o, d), Dot(d, d));
    DistanceExpands(point, start, d, FallingAt(Dot(o, d), Dot(d, d)));
  }

  /** The computed distance is that of the nearest point of the segment exactly
      when the segment is long enough, or the point does not lie on the side its
      end is on. */
  lemma ProjectionIsNearest(point: Point, start: Point, end: Point)
    ensures MeasuresNearest(point, start, end) <==>
            !Short(start, end) || Dot(Minus(point, start), Minus(end, start)) <= 0.0
  {
    if !Short(start, end) {
      forall s | 0.0 <= s <= 1.0
        ensures SegmentDistanceSquared(point, start, end) <= DistanceSquared(point, Along(start, Minus(end, start), s))
      {
        LongMeasuresNearest(point, start, end, s);
      }
    } else if Dot(Minus(point, start), Minus(end, start)) <= 0.0 {
      forall s | 0.0 <= s <= 1.0
        ensures SegmentDistanceSquared(point, start, end) <= DistanceSquared(point, Along(start, Minus(end, start), s))
      {
        ShortMeasuresStart(point, start, end, s);
      }
    } else {
      StartIsNotNearest(point, start, Minus(end, start));
    }
  }

  lemma ProductIsNonnegative(a: real, b: real)
    requires a >= 0.0 && b >= 0.0
    ensures a * b >= 0.0
  {}

  lemma ScalingShrinks(k: real, x: real)
    requires k <= 1.0 && x >= 0.0
    ensures k * x <= x
  {
    ProductIsNonnegative(1.0 - k, x);
    assert (1.0 - k) * x == x - k * x;
  }

  lemma SumOfShrunk(k: real, a: real, b: real, c: real)
    requires k <= 1.0 && a >= 0.0 && b >= 0.0 && c >= 0.0
    ensures k * a + k * b + k * c <= a + b + c
  {
    ScalingShrinks(k, a);
    ScalingShrinks(k, b);
    ScalingShrinks(k, c);
  }

  lemma SquareShrinks(s: real)
    requires 0.0 <= s <= 1.0
    ensures s * s <= 1.0
  {
    ScalingShrinks(s, s);
  }

  /** What a short segment costs: all of it is within 1e-6 of its start. */
  lemma ShortStaysNearStart(start: Point, end: Point, s: real)
    requires Short(start, end) && 0.0 <= s <= 1.0
    ensures DistanceSquared(start, Along(start, Minus(end, start), s)) <= MIN_LENGTH_SQUARED
  {
    var d := Minus(end, start);
    assert Minus(start, Along(start, d, s)) == Point(0.0 - s * d.x, 0.0 - s * d.y, 0.0 - s * d.z);
    AxisExpands(0.0, d.x, s);
    AxisExpands(0.0, d.y, s);
    AxisExpands(0.0, d.z, s);
    SquareShrinks(s);
    SumOfShrunk(s * s, d.x * d.x, d.y * d.y, d.z * d.z);
  }

  /** The segment _tube_ratio measures against: the one that ends at the current
      waypoint, or the first one. */
  function TubeSegment(count: nat, index: nat): (ends: (nat, nat))
    requires count >= 2
    ensures index < count ==> ends.0 < ends.1 < count
  {
    var from := if index == 0 then 0 else index - 1;
    var to := if index < count then index else count - 1;
    if from == to then (from, if from + 1 < count then from + 1 else count - 1) else (from, to)
  }

  lemma TubeSegmentLeadsToCurrent(count: nat, index: nat)
    requires count >= 2 && index < count
    ensures TubeSegment(count, index) == if index == 0 then (0, 1) else (index - 1, index)
  {}

  function Product(a: real, b: real): (r: real)
    requires a > 0.0 && b > 0.0
    ensures r > 0.0
  {
    a * b
  }

  function Square(x: real): real
    requires x > 0.0
  {
    Product(x, x)
  }

  /** The distance to a segment per radius, clamped to [0, 1], squared: clamping
      commutes with squaring. */
  function SegmentRatioSquared(point: Point, start: Point, end: Point, radius: real): real
    requires radius > 0.0
  {
    Clamp(SegmentDistanceSquared(point, start, end) / Square(radius), 0.0, 1.0)
  }

  /** _tube_ratio, squared. */
  function TubeRatioSquared(waypoints: seq<Point>, point: Point, index: nat, radius: real): real
    requires index < |waypoints| && radius > 0.0
  {
    if |waypoints| < 2 then 0.0
    else
      var (from, to) := TubeSegment(|waypoints|, index);
      SegmentRatioSquared(point, waypoints[from], waypoints[to], radius)
  }

  /** Some point of the segment, or the start of a short one, is nearer than the
      radius. */
  ghost predicate InsideTube(point: Point, start: Point, end: Point, radius: real)
    requires radius > 0.0
  {
    exists s :: 0.0 <= s <= 1.0 && (Short(start, end) ==> s == 0.0) &&
                DistanceSquared(point, Along(start, Minus(end, start), s)) < Square(radius)
  }

  lemma InsideIsNearer(point: Point, start: Point, end: Point, radius: real)
    requires radius > 0.0
    ensures InsideTube(point, start, end, radius) <==> SegmentDistanceSquared(point, start, end) < Square(radius)
  {
    var d := Minus(end, start);
    assert Along(start, d, 0.0) == start;
    if InsideTube(point, start, end, radius) && !Short(start, end) {
      var s :| 0.0 <= s <= 1.0 && DistanceSquared(point, Along(start, d, s)) < Square(radius);
      LongMeasuresNearest(point, start, end, s);
    }
    if SegmentDistanceSquared(point, start, end) < Square(radius) {
      var r := if Short(start, end) then 0.0 else Clamp(Dot(Minus(point, start), d) / Dot(d, d), 0.0, 1.0);
      assert SegmentDistanceSquared(point, start, end) == DistanceSquared(point, Along(start, d, r));
    }
  }

  lemma RatioBelowOne(distance: real, square: real)
    requires distance >= 0.0 && square > 0.0
    ensures var r := Clamp(distance / square, 0.0, 1.0);
      && 0.0 <= r <= 1.0 && (r < 1.0 <==> distance < square) && (r < 1.0 ==> r * square == distance)
  {
    var q := distance / square;
    assert q * square == distance;
    if q < 0.0 { assert q * square < 0.0; }
    if q >= 1.0 { assert (q - 1.0) * square >= 0.0; } else { assert (1.0 - q) * square > 0.0; }
  }

  lemma SegmentDistanceIsNonnegative(point: Point, start: Point, end: Point)
    ensures SegmentDistanceSquared(point, start, end) >= 0.0
  {
    var d := Minus(end, start);
    if Short(start, end) {
      SquareIsNonnegative(Minus(point, start));
    } else {
      SquareIsNonnegative(Minus(point, Along(start, d, Clamp(Dot(Minus(point, start), d) / Dot(d, d), 0.0, 1.0))));
    }
  }

  lemma RatioBelowRadius(distance: real, radius: real)
    requires distance >= 0.0 && radius > 0.0
    ensures var r := Clamp(distance / Square(radius), 0.0, 1.0);
      && 0.0 <= r <= 1.0 && (r < 1.0 <==> distance < Square(radius))
      && (r < 1.0 ==> r * Square(radius) == distance)
  {
    RatioBelowOne(distance, Square(radius));
  }

  lemma SegmentRatioTellsInside(point: Point, start: Point, end: Point, radius: real)
    requires radius > 0.0
    ensures var r := SegmentRatioSquared(point, start, end, radius);
      && 0.0 <= r <= 1.0 && (r < 1.0 <==> InsideTube(point, start, end, radius))
      && (r < 1.0 ==> r * Square(radius) == SegmentDistanceSquared(point, start, end))
  {
    SegmentDistanceIsNonnegative(point, start, end);
    InsideIsNearer(point, start, end, radius);
    RatioBelowRadius(SegmentDistanceSquared(point, start, end), radius);
  }

  /** The tube ratio is 0 without a segment; otherwise it lies in [0, 1], is below
      1 exactly when the point is inside the tube around the segment that leads to
      the current waypoint, and is there the computed distance per radius. */
  lemma TubeRatioTellsInside(waypoints: seq<Point>, point: Point, index: nat, radius: real)
    requires index < |waypoints| && radius > 0.0
    ensures 0.0 <= TubeRatioSquared(waypoints, point, index, radius) <= 1.0
    ensures |waypoints| < 2 ==> TubeRatioSquared(waypoints, point, index, radius) == 0.0
    ensures |waypoints| >= 2 ==>
              var ratio := TubeRatioSquared(waypoints, point, index, radius);
              var k := if index == 0 then 1 else index;
              && (ratio < 1.0 <==> InsideTube(point, waypoints[k - 1], waypoints[k], radius))
              && (ratio < 1.0 ==>
                    ratio * Square(radius) == SegmentDistanceSquared(point, waypoints[k - 1], waypoints[k]))
  {
    if |waypoints| >= 2 {
      var k := if index == 0 then 1 else index;
      TubeSegmentLeadsToCurrent(|waypoints|, index);
      SegmentRatioTellsInside(point, waypoints[k - 1], waypoints[k], radius);
    }
  }
}
