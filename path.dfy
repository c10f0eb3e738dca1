/**
 * The polyline the enemies walk (game.js, worldPointOnPath) and the plane geometry
 * shared by targeting, bullets and click selection.
 */
module PathModel {
  import opened Basics

  datatype Point = Point(x: real, y: real)

  /** What worldPointOnPath answers for a path with fewer than two waypoints. */
  const ORIGIN := Point(0.0, 0.0)

  /** Squared Euclidean distance; every `Math.hypot(..) <= r` test is compared in squares. */
  function DistSq(a: Point, b: Point): real
  {
    (a.x - b.x) * (a.x - b.x) + (a.y - b.y) * (a.y - b.y)
  }

  /**
   * What the game's `Math.hypot` is taken to be: a non-negative square root of the
   * sum of squares. Passed as a parameter wherever the game divides by a distance.
   */
  ghost predicate IsHypot(hypot: (real, real) -> real)
  {
    forall dx: real, dy: real :: hypot(dx, dy) >= 0.0 && hypot(dx, dy) * hypot(dx, dy) == dx * dx + dy * dy
  }

  /** `hypot(a - b) <= r`, stated without a square root. */
  predicate WithinRange(a: Point, b: Point, r: real)
  {
    r >= 0.0 && DistSq(a, b) <= r * r
  }

  /** `hypot(a - b) < r`, stated without a square root. */
  predicate StrictlyWithin(a: Point, b: Point, r: real)
  {
    r > 0.0 && DistSq(a, b) < r * r
  }

  lemma SquareMonotone(a: real, b: real)
    requires a >= 0.0 && b >= 0.0
    ensures a <= b <==> a * a <= b * b
    ensures a < b <==> a * a < b * b
  {
    assert (b - a) * (b + a) == b * b - a * a;
    if a < b {
      MulPos(b - a, b + a);
    } else if b < a {
      MulPos(a - b, a + b);
      assert (a - b) * (a + b) == a * a - b * b;
    }
  }

  /** A non-negative square root is zero exactly when its square is. */
  lemma SquareZero(h: real, d2: real)
    requires h >= 0.0 && h * h == d2
    ensures h == 0.0 <==> d2 == 0.0
  {
    if h > 0.0 {
      calc {
        d2;
      ==
        h * h;
      >  { MulPos(h, h); }
        0.0;
      }
    }
  }

  /**
   * Comparing a distance h (a square root of d2) with a radius r is the same as comparing
   * d2 with r squared: justifies every squared-distance test in the model.
   */
  lemma HypotCompare(h: real, d2: real, r: real)
    requires h >= 0.0 && h * h == d2
    ensures h <= r <==> (r >= 0.0 && d2 <= r * r)
    ensures h < r <==> (r > 0.0 && d2 < r * r)
  {
    if r >= 0.0 {
      SquareMonotone(h, r);
    }
  }

  /** Number of the segment that fraction t lands on: floor(t * segments), clamped to the last one. */
  function SegmentIndex(segments: nat, t: real): (seg: int)
    requires segments >= 1 && t >= 0.0
    ensures 0 <= seg <= segments - 1
    ensures seg as real <= t * segments as real
  {
    assert t * segments as real >= 0.0;
    Min(segments - 1, (t * segments as real).Floor)
  }

  /** Position of t inside its segment: t * segments - seg. */
  function LocalT(segments: nat, t: real): real
    requires segments >= 1 && t >= 0.0
  {
    t * segments as real - SegmentIndex(segments, t) as real
  }

  function Lerp(a: Point, b: Point, u: real): Point
  {
    Point(a.x + (b.x - a.x) * u, a.y + (b.y - a.y) * u)
  }

  /**
   * worldPointOnPath: fraction t of the polyline `pts` to a point. Fewer than two waypoints
   * give the origin; otherwise the segment floor(t * n) (at most the last) is interpolated.
   * A negative t with a real path would index pts[-1] and throw, hence the precondition.
   */
  function PointOnPath(pts: seq<Point>, t: real): (p: Point)
    requires |pts| < 2 || t >= 0.0
    ensures |pts| < 2 ==> p == ORIGIN
    ensures |pts| >= 2 && t == 0.0 ==> p == pts[0]
    ensures |pts| >= 2 && t == 1.0 ==> p == pts[|pts| - 1]
  {
    if |pts| - 1 <= 0 then ORIGIN
    else
      var n := |pts| - 1;
      var seg := SegmentIndex(n, t);
      Lerp(pts[seg], pts[seg + 1], LocalT(n, t))
  }

  predicate Between(v: real, a: real, b: real)
  {
    (a <= v <= b) || (b <= v <= a)
  }

  /** For 0 <= t <= 1 the interpolation parameter inside the chosen segment lies in [0, 1]. */
  lemma LocalTInUnit(n: nat, t: real)
    requires n >= 1 && 0.0 <= t <= 1.0
    ensures 0.0 <= LocalT(n, t) <= 1.0
  {
    MulLe(n as real, t, 1.0);
    var f := (t * n as real).Floor;
    assert f as real <= t * n as real < f as real + 1.0;
  }

  /**
   * For 0 <= t <= 1 the point lies on one segment of the path: both coordinates lie
   * between the endpoints of segment SegmentIndex.
   */
  lemma PointOnPathLiesOnSegment(pts: seq<Point>, t: real)
    requires |pts| >= 2 && 0.0 <= t <= 1.0
    ensures var seg := SegmentIndex(|pts| - 1, t);
            && Between(PointOnPath(pts, t).x, pts[seg].x, pts[seg + 1].x)
            && Between(PointOnPath(pts, t).y, pts[seg].y, pts[seg + 1].y)
  {
    var n := |pts| - 1;
    var seg := SegmentIndex(n, t);
    LocalTInUnit(n, t);
    BetweenLerp(pts[seg].x, pts[seg + 1].x, LocalT(n, t));
    BetweenLerp(pts[seg].y, pts[seg + 1].y, LocalT(n, t));
  }

  lemma BetweenLerp(a: real, b: real, u: real)
    requires 0.0 <= u <= 1.0
    ensures Between(a + (b - a) * u, a, b)
  {
    if a <= b {
      MulNonNeg(b - a, 1.0 - u);
      MulNonNeg(b - a, u);
    } else {
      MulNonNeg(a - b, 1.0 - u);
      MulNonNeg(a - b, u);
    }
  }
}
