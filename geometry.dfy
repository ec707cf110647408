/** The geometric helpers of the rule layer: distance from a point to a path
    segment, the even-odd ray-casting test for water polygons, and the
    covered-garden quadrant rule. Distances are kept squared so that no square
    root is needed; `CloserThan`/`WithinDistance` compare them with a radius. */
module Geometry {
  import opened GameConstants

  /** The point a fraction t of the way from a to b. */
  function Lerp(a: Point, b: Point, t: real): Point {
    Point(a.x + t * (b.x - a.x), a.y + t * (b.y - a.y))
  }

  /** `Math.max(0, Math.min(1, t))`. */
  function Clamp01(t: real): (c: real)
    ensures 0.0 <= c <= 1.0
    ensures 0.0 <= t <= 1.0 ==> c == t
  {
    if t > 1.0 then 1.0 else if t < 0.0 then 0.0 else t
  }

  /** The dot product (p - a) . (b - a). */
  function Dot(p: Point, a: Point, b: Point): real {
    (p.x - a.x) * (b.x - a.x) + (p.y - a.y) * (b.y - a.y)
  }

  /** The parameter of the projection of p on the line through a and b,
      clamped to the segment. */
  function ProjectionParam(p: Point, a: Point, b: Point): (t: real)
    requires SqDist(a, b) != 0.0
    ensures 0.0 <= t <= 1.0
  {
    Clamp01(Dot(p, a, b) / SqDist(a, b))
  }

  /** `pointToSegmentDistance`, squared: the distance from p to the closest
      point of the segment from a to b; a degenerate segment is its endpoint. */
  function PointToSegmentDistSq(p: Point, a: Point, b: Point): (d: real)
    ensures d >= 0.0
    ensures SqDist(a, b) == 0.0 ==> d == SqDist(p, a)
  {
    if SqDist(a, b) == 0.0 then SqDist(p, a)
    else SqDist(p, Lerp(a, b, ProjectionParam(p, a, b)))
  }

  /** One coordinate of the squared distance to the point a fraction t along
      the segment, expanded as a quadratic in t. */
  lemma CoordinateAlong(pc: real, ac: real, bc: real, t: real)
    ensures (pc - (ac + t * (bc - ac))) * (pc - (ac + t * (bc - ac)))
         == (pc - ac) * (pc - ac) - 2.0 * t * ((pc - ac) * (bc - ac)) + t * t * ((ac - bc) * (ac - bc))
  {
  }

  /** The squared distance to the point a fraction t along the segment, by coordinates. */
  lemma DistanceToLerp(p: Point, a: Point, b: Point, t: real)
    ensures SqDist(p, Lerp(a, b, t))
         == (p.x - (a.x + t * (b.x - a.x))) * (p.x - (a.x + t * (b.x - a.x)))
          + (p.y - (a.y + t * (b.y - a.y))) * (p.y - (a.y + t * (b.y - a.y)))
  {
  }

  /** Summing the two expanded coordinates gives the quadratic in terms of
      the distance to a, the dot product and the segment length. */
  lemma SumOfCoordinates(p: Point, a: Point, b: Point, t: real, ex: real, ey: real)
    requires ex == (p.x - a.x) * (p.x - a.x) - 2.0 * t * ((p.x - a.x) * (b.x - a.x))
                   + t * t * ((a.x - b.x) * (a.x - b.x))
    requires ey == (p.y - a.y) * (p.y - a.y) - 2.0 * t * ((p.y - a.y) * (b.y - a.y))
                   + t * t * ((a.y - b.y) * (a.y - b.y))
    ensures ex + ey == SqDist(p, a) - 2.0 * t * Dot(p, a, b) + t * t * SqDist(a, b)
  {
  }

  /** The squared distance to a point of the segment is a quadratic in its parameter. */
  lemma DistanceAlongSegment(p: Point, a: Point, b: Point, t: real)
    ensures SqDist(p, Lerp(a, b, t))
         == SqDist(p, a) - 2.0 * t * Dot(p, a, b) + t * t * SqDist(a, b)
  {
    var ex := (p.x - (a.x + t * (b.x - a.x))) * (p.x - (a.x + t * (b.x - a.x)));
    var ey := (p.y - (a.y + t * (b.y - a.y))) * (p.y - (a.y + t * (b.y - a.y)));
    DistanceToLerp(p, a, b, t);
    CoordinateAlong(p.x, a.x, b.x, t);
    CoordinateAlong(p.y, a.y, b.y, t);
    SumOfCoordinates(p, a, b, t, ex, ey);
  }

  /** A square is positive unless its root is zero. */
  lemma PositiveSquare(u: real)
    requires u != 0.0
    ensures u * u > 0.0
  {
    if u < 0.0 {
      assert (-u) * (-u) == u * u;
    }
  }

  /** A segment of zero length has both endpoints equal. */
  lemma ZeroLengthSegment(a: Point, b: Point)
    requires SqDist(a, b) == 0.0
    ensures a == b
  {
    var dx, dy := a.x - b.x, a.y - b.y;
    if dx != 0.0 {
      calc {
        SqDist(a, b);
        dx * dx + dy * dy;
      >= { assert dy * dy >= 0.0; }
        dx * dx;
      > { PositiveSquare(dx); }
        0.0;
      }
    }
    if dy != 0.0 {
      calc {
        SqDist(a, b);
        dx * dx + dy * dy;
      >= { assert dx * dx >= 0.0; }
        dy * dy;
      > { PositiveSquare(dy); }
        0.0;
      }
    }
  }

  /** f(t) - f(s) for the quadratic f(t) = A - 2tD + t^2 L, factored. */
  lemma QuadraticDifference(A: real, D: real, L: real, s: real, t: real)
    ensures (A - 2.0 * t * D + t * t * L) - (A - 2.0 * s * D + s * s * L)
         == (t - s) * (L * (t + s) - 2.0 * D)
  {
  }

  lemma ProductNonNegative(x: real, y: real)
    requires (x >= 0.0 && y >= 0.0) || (x <= 0.0 && y <= 0.0)
    ensures x * y >= 0.0
  {
    if x <= 0.0 && y <= 0.0 {
      assert x * y == (-x) * (-y);
    }
  }

  /** On [0, 1], the quadratic f(t) = A - 2tD + t^2 L with L > 0 is smallest
      at its vertex D/L clamped to the interval: f(t) - f(s) >= 0. */
  lemma VertexIsLowest(D: real, L: real, s: real, t: real)
    requires L > 0.0 && 0.0 <= t <= 1.0 && s == Clamp01(D / L)
    ensures (t - s) * (L * (t + s) - 2.0 * D) >= 0.0
  {
    var q := D / L;
    assert D == q * L;
    var dt, k := t - s, L * (t + s) - 2.0 * D;
    if q < 0.0 {
      assert D < 0.0;
      assert L * (t + s) >= 0.0;
      ProductNonNegative(dt, k);
    } else if q > 1.0 {
      assert D > L;
      assert L * (t + s) <= 2.0 * L;
      ProductNonNegative(dt, k);
    } else {
      assert k == L * (t + s) - 2.0 * s * L;
      assert k == L * dt;
      assert dt * k == L * (dt * dt);
      ProductNonNegative(dt, dt);
      ProductNonNegative(L, dt * dt);
    }
  }

  /** Moving along the segment from parameter s to t changes the squared
      distance by a product of two factors. */
  lemma DistanceDifference(p: Point, a: Point, b: Point, s: real, t: real)
    ensures SqDist(p, Lerp(a, b, t)) - SqDist(p, Lerp(a, b, s))
         == (t - s) * (SqDist(a, b) * (t + s) - 2.0 * Dot(p, a, b))
  {
    DistanceAlongSegment(p, a, b, s);
    DistanceAlongSegment(p, a, b, t);
    QuadraticDifference(SqDist(p, a), Dot(p, a, b), SqDist(a, b), s, t);
  }

  /** A point of the segment at parameter s is no farther than the one at t
      when that product is non-negative. Kept apart from the clamped division
      so that the solver never sees the expanded quadratic and the division
      in the same proof. */
  lemma LowestAt(p: Point, a: Point, b: Point, s: real, t: real)
    requires (t - s) * (SqDist(a, b) * (t + s) - 2.0 * Dot(p, a, b)) >= 0.0
    ensures SqDist(p, Lerp(a, b, s)) <= SqDist(p, Lerp(a, b, t))
  {
    DistanceDifference(p, a, b, s, t);
  }

  /** The value computed is the smallest squared distance from p to any
      point of the segment: no point of the segment is closer. */
  lemma SegmentDistanceIsMinimum(p: Point, a: Point, b: Point, t: real)
    requires 0.0 <= t <= 1.0
    ensures PointToSegmentDistSq(p, a, b) <= SqDist(p, Lerp(a, b, t))
  {
    if SqDist(a, b) == 0.0 {
      ZeroLengthSegment(a, b);
      assert Lerp(a, b, t) == a;
    } else {
      VertexIsLowest(Dot(p, a, b), SqDist(a, b), ProjectionParam(p, a, b), t);
      LowestAt(p, a, b, ProjectionParam(p, a, b), t);
    }
  }

  /** ... and that smallest distance is reached at a point of the segment. */
  lemma SegmentDistanceIsAttained(p: Point, a: Point, b: Point)
    ensures exists t :: 0.0 <= t <= 1.0 && PointToSegmentDistSq(p, a, b) == SqDist(p, Lerp(a, b, t))
  {
    if SqDist(a, b) == 0.0 {
      assert Lerp(a, b, 0.0) == a;
    } else {
      var s := ProjectionParam(p, a, b);
      assert PointToSegmentDistSq(p, a, b) == SqDist(p, Lerp(a, b, s));
    }
  }

  /** In particular the segment is never farther than either endpoint. */
  lemma SegmentDistanceAtMostEndpoints(p: Point, a: Point, b: Point)
    ensures PointToSegmentDistSq(p, a, b) <= SqDist(p, a)
    ensures PointToSegmentDistSq(p, a, b) <= SqDist(p, b)
  {
    SegmentDistanceIsMinimum(p, a, b, 0.0);
    SegmentDistanceIsMinimum(p, a, b, 1.0);
    assert Lerp(a, b, 0.0) == a;
    assert Lerp(a, b, 1.0) == b;
  }

  // ---------------------------------------------------------------------
  // Water zones: even-odd ray casting

  /** The index of the vertex before vertex i of an n-gon, wrapping at 0. */
  function PrevVertex(i: nat, n: nat): nat
    requires i < n
  {
    if i == 0 then n - 1 else i - 1
  }

  /** Whether the horizontal ray from q to the right crosses the edge (pi, pj).
      The division is defined because the edge straddles q's height. */
  predicate EdgeCrosses(pi: Point, pj: Point, q: Point) {
    ((pi.y > q.y) != (pj.y > q.y))
    && q.x < (pj.x - pi.x) * (q.y - pi.y) / (pj.y - pi.y) + pi.x
  }

  /** The parity of the crossings of the first k edges of the polygon. */
  function CrossingParity(zone: seq<Point>, q: Point, k: nat): bool
    requires k <= |zone|
  {
    if k == 0 then false
    else CrossingParity(zone, q, k - 1) != EdgeCrosses(zone[k - 1], zone[PrevVertex(k - 1, |zone|)], q)
  }

  /** The even-odd rule: q is inside when the ray crosses an odd number of edges. */
  predicate InZone(zone: seq<Point>, q: Point) {
    CrossingParity(zone, q, |zone|)
  }

  function Normalize(p: Point, w: real, h: real): Point
    requires w > 0.0 && h > 0.0
  {
    Point(p.x / w, p.y / h)
  }

  /** A normalised map point (waypoint, stump) in canvas pixels. */
  function ToCanvas(p: Point, w: real, h: real): Point {
    Point(p.x * w, p.y * h)
  }

  /** Normalising undoes scaling to the canvas. */
  lemma NormalizeToCanvas(p: Point, w: real, h: real)
    requires w > 0.0 && h > 0.0
    ensures Normalize(ToCanvas(p, w, h), w, h) == p
  {
  }

  /** `isPointInWater` as a predicate: a glass-floor map is water everywhere;
      otherwise the canvas point, normalised, lies in some zone. */
  predicate InWater(p: Point, w: real, h: real, zones: seq<seq<Point>>, isGlassFloor: bool)
    requires w > 0.0 && h > 0.0
  {
    isGlassFloor || exists k :: 0 <= k < |zones| && InZone(zones[k], Normalize(p, w, h))
  }

  /** `isPointInWater`: the zone loop and the edge loop of the source, each
      zone tested by toggling `inside` on every crossing edge. */
  method IsPointInWater(p: Point, w: real, h: real, zones: seq<seq<Point>>, isGlassFloor: bool)
    returns (r: bool)
    requires w > 0.0 && h > 0.0
    ensures r == InWater(p, w, h, zones, isGlassFloor)
  {
    var q := Normalize(p, w, h);
    if isGlassFloor {
      return true;
    }
    for k := 0 to |zones|
      invariant forall m :: 0 <= m < k ==> !InZone(zones[m], q)
    {
      var zone := zones[k];
      var inside := false;
      var i, j := 0, |zone| - 1;
      while i < |zone|
        invariant 0 <= i <= |zone|
        invariant j == if i == 0 then |zone| - 1 else i - 1
        invariant inside == CrossingParity(zone, q, i)
      {
        if EdgeCrosses(zone[i], zone[j], q) {
          inside := !inside;
        }
        j, i := i, i + 1;
      }
      if inside {
        return true;
      }
    }
    return false;
  }

  /** No edge crosses the ray of a point at or above every vertex, nor of a
      point strictly below every vertex: such points are never in the zone. */
  lemma {:induction false} OutsideVerticalExtent(zone: seq<Point>, q: Point, k: nat)
    requires k <= |zone|
    requires (forall v :: v in zone ==> v.y <= q.y) || (forall v :: v in zone ==> v.y > q.y)
    ensures !CrossingParity(zone, q, k)
  {
    if k > 0 {
      OutsideVerticalExtent(zone, q, k - 1);
      var pi, pj := zone[k - 1], zone[PrevVertex(k - 1, |zone|)];
      assert pi in zone && pj in zone;
      assert !EdgeCrosses(pi, pj, q);
    }
  }

  /** The river band of the rainforest map holds the point at its centre. */
  lemma RainforestRiverHoldsCentre()
    ensures InZone([Point(0.0, 0.45), Point(1.0, 0.45), Point(1.0, 0.65), Point(0.0, 0.65)], Point(0.5, 0.5))
  {
    var zone := [Point(0.0, 0.45), Point(1.0, 0.45), Point(1.0, 0.65), Point(0.0, 0.65)];
    var q := Point(0.5, 0.5);
    assert !EdgeCrosses(zone[0], zone[3], q);
    assert !EdgeCrosses(zone[1], zone[0], q);
    assert EdgeCrosses(zone[2], zone[1], q);
    assert !EdgeCrosses(zone[3], zone[2], q);
    assert CrossingParity(zone, q, 2) == false;
    assert CrossingParity(zone, q, 3) == true;
  }

  // ---------------------------------------------------------------------
  // Covered garden

  /** The quadrant of a canvas point: 0 bottom-left, 1 top-left, 2 top-right,
      3 bottom-right (canvas y grows downwards). */
  function Quadrant(p: Point, w: real, h: real): (q: int)
    ensures 0 <= q <= 3
  {
    var isLeft := p.x < w * 0.5;
    var isTop := p.y < h * 0.5;
    if isLeft && !isTop then 0
    else if isLeft && isTop then 1
    else if !isLeft && isTop then 2
    else 3
  }

  /** `isUnderGlass`: a point is under glass unless its quadrant is the open
      one; with no open quadrant given (the source's null) every point is. */
  function IsUnderGlass(p: Point, w: real, h: real, openQuadrant: Option<int>): (r: bool)
    ensures openQuadrant.None? ==> r
  {
    Some(Quadrant(p, w, h)) != openQuadrant
  }

  /** For every point exactly one choice of open quadrant leaves it buildable. */
  lemma ExactlyOneOpenQuadrant(p: Point, w: real, h: real)
    ensures |set q | 0 <= q < 4 && !IsUnderGlass(p, w, h, Some(q))| == 1
  {
    var open := set q | 0 <= q < 4 && !IsUnderGlass(p, w, h, Some(q));
    assert open == {Quadrant(p, w, h)};
  }
}
