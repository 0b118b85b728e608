/** Clipping a polygon to the viewport and to the client boxes of its ancestors, over exact reals. */
module Clip {
  import opened Json

  datatype Point = Point(x: real, y: real)

  /** Maps (x, y) to (a x + c y + e, b x + d y + f). */
  datatype Affine = Affine(a: real, b: real, c: real, d: real, e: real, f: real)

  const IDENTITY := Affine(1.0, 0.0, 0.0, 1.0, 0.0, 0.0)

  function Linear(u: real, v: real, w: real, x: real, y: real): real {
    u * x + v * y + w
  }

  function Transform(m: Affine, p: Point): Point {
    Point(Linear(m.a, m.c, m.e, p.x, p.y), Linear(m.b, m.d, m.f, p.x, p.y))
  }

  function Determinant(m: Affine): real {
    m.a * m.d - m.b * m.c
  }

  function Inverse(m: Affine): Affine
    requires Determinant(m) != 0.0
  {
    var det := Determinant(m);
    Affine(m.d / det, -m.b / det, -m.c / det, m.a / det, (m.c * m.f - m.d * m.e) / det, (m.b * m.e - m.a * m.f) / det)
  }

  /** The inverse of a singular matrix holds no numbers. */
  function InverseOf(m: Affine): Option<Affine> {
    if Determinant(m) == 0.0 then None else Some(Inverse(m))
  }

  /** The side of a line where `u x + v y + w` is not negative. */
  datatype HalfPlane = HalfPlane(u: real, v: real, w: real)

  function Distance(h: HalfPlane, p: Point): real {
    Linear(h.u, h.v, h.w, p.x, p.y)
  }

  predicate Inside(h: HalfPlane, p: Point) {
    Distance(h, p) >= 0.0
  }

  predicate AllInside(h: HalfPlane, points: seq<Point>) {
    forall i :: 0 <= i < |points| ==> Inside(h, points[i])
  }

  datatype Axis = X | Y

  /** One client edge: a coordinate of the transformed point is at least, or at most, the limit. */
  datatype Edge = Edge(inverse: Option<Affine>, axis: Axis, limit: real, greater: bool)

  /** Not a number, and then in no comparison, when the edge's matrix is singular. */
  function EdgeDistance(e: Edge, p: Point): Option<real> {
    if e.inverse.None? then None
    else
      var q := Transform(e.inverse.value, p);
      Some(((if e.axis.X? then q.x else q.y) - e.limit) * (if e.greater then 1.0 else -1.0))
  }

  predicate NotNegative(distance: Option<real>) {
    distance.Some? && distance.value >= 0.0
  }

  /** The half-plane of an edge; that of a singular matrix holds no point. */
  function Line(e: Edge): HalfPlane {
    if e.inverse.None? then HalfPlane(0.0, 0.0, -1.0)
    else
      var m := e.inverse.value;
      var h := if e.axis.X? then HalfPlane(m.a, m.c, m.e - e.limit) else HalfPlane(m.b, m.d, m.f - e.limit);
      if e.greater then h else HalfPlane(-h.u, -h.v, -h.w)
  }

  /** The distance that clipping tests is that of the edge's line, if it is a number, and otherwise no
      point is inside. */
  lemma EdgeIsLine(e: Edge, p: Point)
    ensures EdgeDistance(e, p) == if e.inverse.Some? then Some(Distance(Line(e), p)) else None
    ensures NotNegative(EdgeDistance(e, p)) <==> Inside(Line(e), p)
  {
  }

  function Between(p: Point, q: Point, t: real): Point {
    Point(p.x + (q.x - p.x) * t, p.y + (q.y - p.y) * t)
  }

  lemma DistanceBetween(h: HalfPlane, p: Point, q: Point, t: real)
    ensures Distance(h, Between(p, q, t)) == Distance(h, p) + (Distance(h, q) - Distance(h, p)) * t
  {
  }

  /** Where the segment from `p` to `q` meets the line. */
  function Crossing(h: HalfPlane, p: Point, q: Point): Point
    requires Inside(h, p) != Inside(h, q)
  {
    Between(p, q, Distance(h, p) / (Distance(h, p) - Distance(h, q)))
  }

  lemma Fraction(before: real, after: real)
    requires (before >= 0.0) != (after >= 0.0)
    ensures before - after != 0.0
    ensures 0.0 <= before / (before - after) <= 1.0
    ensures before + (after - before) * (before / (before - after)) == 0.0
  {
  }

  /** The crossing lies on the line, and in every half-plane that holds both ends. */
  lemma CrossingFacts(h: HalfPlane, p: Point, q: Point, g: HalfPlane)
    requires Inside(h, p) != Inside(h, q)
    ensures Distance(h, Crossing(h, p, q)) == 0.0
    ensures Inside(g, p) && Inside(g, q) ==> Inside(g, Crossing(h, p, q))
  {
    var before, after := Distance(h, p), Distance(h, q);
    Fraction(before, after);
    var t := before / (before - after);
    DistanceBetween(h, p, q, t);
    DistanceBetween(g, p, q, t);
    if Inside(g, p) && Inside(g, q) { Blend(Distance(g, p), Distance(g, q), t); }
  }

  lemma Blend(a: real, b: real, t: real)
    requires a >= 0.0 && b >= 0.0 && 0.0 <= t <= 1.0
    ensures a + (b - a) * t >= 0.0
  {
    var s := 1.0 - t;
    assert a * s >= 0.0 && b * t >= 0.0;
    assert a + (b - a) * t == a * s + b * t;
  }

  lemma InverseUndoes(m: Affine, p: Point)
    requires Determinant(m) != 0.0
    ensures Transform(m, Transform(Inverse(m), p)) == p
    ensures Transform(Inverse(m), Transform(m, p)) == p
  {
    hide *;
    var k := 1.0 / Determinant(m);
    InverseIsScaled(m);
    Reciprocal(1.0, Determinant(m));
    ScaledUndoes(m, p, k);
  }

  lemma InverseIsScaled(m: Affine)
    requires Determinant(m) != 0.0
    ensures Inverse(m) == ScaledInverse(m, 1.0 / Determinant(m))
  {
    hide Determinant;
    var det := Determinant(m);
    Reciprocal(m.d, det);
    Reciprocal(-m.b, det);
    Reciprocal(-m.c, det);
    Reciprocal(m.a, det);
    Reciprocal(m.c * m.f - m.d * m.e, det);
    Reciprocal(m.b * m.e - m.a * m.f, det);
  }

  lemma Reciprocal(n: real, det: real)
    requires det != 0.0
    ensures n / det == n * (1.0 / det) && det * (1.0 / det) == 1.0
  {
  }

  function ScaledInverse(m: Affine, k: real): Affine {
    Affine(m.d * k, -m.b * k, -m.c * k, m.a * k, (m.c * m.f - m.d * m.e) * k, (m.b * m.e - m.a * m.f) * k)
  }

  lemma ScaledUndoes(m: Affine, p: Point, k: real)
    requires Determinant(m) * k == 1.0
    ensures Transform(m, Transform(ScaledInverse(m, k), p)) == p
    ensures Transform(ScaledInverse(m, k), Transform(m, p)) == p
  {
    hide Linear, ScaledInverse, Determinant;
    BackX(m, k, p.x, p.y);
    BackY(m, k, p.x, p.y);
    ForthX(m, k, p.x, p.y);
    ForthY(m, k, p.x, p.y);
  }

  lemma BackX(m: Affine, k: real, x: real, y: real)
    requires Determinant(m) * k == 1.0
    ensures var s := ScaledInverse(m, k);
            Linear(m.a, m.c, m.e, Linear(s.a, s.c, s.e, x, y), Linear(s.b, s.d, s.f, x, y)) == x
  {
    BackXPolynomial(m.a, m.b, m.c, m.d, m.e, m.f, k, x, y);
  }

  lemma BackXPolynomial(a: real, b: real, c: real, d: real, e: real, f: real, k: real, x: real, y: real)
    ensures a * (d * k * x + -c * k * y + (c * f - d * e) * k) + c * (-b * k * x + a * k * y + (b * e - a * f) * k) ==
            (a * d - b * c) * k * (x - e)
  {
  }

  lemma BackY(m: Affine, k: real, x: real, y: real)
    requires Determinant(m) * k == 1.0
    ensures var s := ScaledInverse(m, k);
            Linear(m.b, m.d, m.f, Linear(s.a, s.c, s.e, x, y), Linear(s.b, s.d, s.f, x, y)) == y
  {
    BackYPolynomial(m.a, m.b, m.c, m.d, m.e, m.f, k, x, y);
  }

  lemma BackYPolynomial(a: real, b: real, c: real, d: real, e: real, f: real, k: real, x: real, y: real)
    ensures b * (d * k * x + -c * k * y + (c * f - d * e) * k) + d * (-b * k * x + a * k * y + (b * e - a * f) * k) ==
            (a * d - b * c) * k * (y - f)
  {
  }

  lemma ForthX(m: Affine, k: real, x: real, y: real)
    requires Determinant(m) * k == 1.0
    ensures var s := ScaledInverse(m, k);
            Linear(s.a, s.c, s.e, Linear(m.a, m.c, m.e, x, y), Linear(m.b, m.d, m.f, x, y)) == x
  {
    ForthXPolynomial(m.a, m.b, m.c, m.d, m.e, m.f, k, x, y);
  }

  lemma ForthXPolynomial(a: real, b: real, c: real, d: real, e: real, f: real, k: real, x: real, y: real)
    ensures d * k * (a * x + c * y + e) + -c * k * (b * x + d * y + f) + (c * f - d * e) * k == (a * d - b * c) * k * x
  {
  }

  lemma ForthY(m: Affine, k: real, x: real, y: real)
    requires Determinant(m) * k == 1.0
    ensures var s := ScaledInverse(m, k);
            Linear(s.b, s.d, s.f, Linear(m.a, m.c, m.e, x, y), Linear(m.b, m.d, m.f, x, y)) == y
  {
    ForthYPolynomial(m.a, m.b, m.c, m.d, m.e, m.f, k, x, y);
  }

  lemma ForthYPolynomial(a: real, b: real, c: real, d: real, e: real, f: real, k: real, x: real, y: real)
    ensures -b * k * (a * x + c * y + e) + a * k * (b * x + d * y + f) + (b * e - a * f) * k == (a * d - b * c) * k * y
  {
  }

  // ----- clipping against one edge

  /** What the step from `p` to `q` adds: the crossing if the line is crossed, then `q` if inside. */
  function Emitted(h: HalfPlane, p: Point, q: Point): seq<Point> {
    (if Inside(h, p) != Inside(h, q) then [Crossing(h, p, q)] else []) + (if Inside(h, q) then [q] else [])
  }

  function Walk(h: HalfPlane, previous: Point, points: seq<Point>): seq<Point>
    decreases |points|
  {
    if points == [] then [] else Emitted(h, previous, points[0]) + Walk(h, points[0], points[1..])
  }

  function Clipped(h: HalfPlane, points: seq<Point>): seq<Point> {
    if points == [] then [] else Walk(h, points[|points| - 1], points)
  }

  lemma EmittedFrom(e: Edge, p: Point, q: Point, before: Option<real>, after: Option<real>)
    requires before == EdgeDistance(e, p) && after == EdgeDistance(e, q)
    ensures NotNegative(before) != NotNegative(after) ==>
              before.Some? && after.Some? && before.value - after.value != 0.0
    ensures Emitted(Line(e), p, q) ==
            (if NotNegative(before) != NotNegative(after)
             then [Between(p, q, before.value / (before.value - after.value))] else [])
            + (if NotNegative(after) then [q] else [])
  {
    EdgeIsLine(e, p);
    EdgeIsLine(e, q);
    hide EdgeDistance, Line, Distance, Between;
  }

  lemma WalkOn(h: HalfPlane, previous: Point, points: seq<Point>, i: nat)
    requires i < |points|
    ensures Walk(h, previous, points[i..]) == Emitted(h, previous, points[i]) + Walk(h, points[i], points[i + 1..])
  {
  }

  method ClipEdge(points: seq<Point>, e: Edge) returns (out: seq<Point>)
    ensures out == Clipped(Line(e), points)
  {
    out := [];
    if points == [] { return; }
    ghost var h := Line(e);
    var previous := points[|points| - 1];
    assert points[0..] == points && Clipped(h, points) == Walk(h, previous, points);
    hide *;
    var before := EdgeDistance(e, previous);
    for i := 0 to |points|
      invariant before == EdgeDistance(e, previous)
      invariant out + Walk(h, previous, points[i..]) == Clipped(h, points)
    {
      var point := points[i];
      var after := EdgeDistance(e, point);
      EmittedFrom(e, previous, point, before, after);
      WalkOn(h, previous, points, i);
      var crossing := if NotNegative(before) != NotNegative(after)
        then [Between(previous, point, before.value / (before.value - after.value))] else [];
      var kept := if NotNegative(after) then [point] else [];
      AppendStep(out, crossing, kept, Walk(h, point, points[i + 1..]));
      out := out + crossing + kept;
      previous, before := point, after;
    }
    WalkNone(h, previous, points);
  }

  lemma Regroup(x: seq<Point>, y: seq<Point>, z: seq<Point>)
    ensures x + (y + z) == x + y + z
  {
  }

  lemma AppendStep(out: seq<Point>, crossing: seq<Point>, kept: seq<Point>, rest: seq<Point>)
    ensures out + crossing + kept + rest == out + (crossing + kept + rest)
  {
  }

  lemma WalkNone(h: HalfPlane, previous: Point, points: seq<Point>)
    ensures Walk(h, previous, points[|points|..]) == []
  {
  }

  lemma {:induction false} WalkSound(h: HalfPlane, previous: Point, points: seq<Point>, g: HalfPlane)
    ensures AllInside(h, Walk(h, previous, points))
    ensures Inside(g, previous) && AllInside(g, points) ==> AllInside(g, Walk(h, previous, points))
    decreases |points|
  {
    if points != [] {
      WalkSound(h, points[0], points[1..], g);
      if Inside(h, previous) != Inside(h, points[0]) { CrossingFacts(h, previous, points[0], g); }
      hide Inside, Crossing, Distance;
      assert points[0] in points;
      assert AllInside(g, points) ==> Inside(g, points[0]) && AllInside(g, points[1..]);
    }
  }

  /** Nothing outside the edge remains, and no half-plane that held the polygon is left. */
  lemma ClippedIsSound(h: HalfPlane, points: seq<Point>, g: HalfPlane)
    ensures AllInside(h, Clipped(h, points))
    ensures AllInside(g, points) ==> AllInside(g, Clipped(h, points))
  {
    if points != [] { WalkSound(h, points[|points| - 1], points, g); }
  }

  lemma {:induction false} WalkUnchanged(h: HalfPlane, previous: Point, points: seq<Point>)
    requires Inside(h, previous) && AllInside(h, points)
    ensures Walk(h, previous, points) == points
    decreases |points|
  {
    if points != [] {
      WalkUnchanged(h, points[0], points[1..]);
      assert points == [points[0]] + points[1..];
    }
  }

  lemma ClippedUnchanged(h: HalfPlane, points: seq<Point>)
    requires AllInside(h, points)
    ensures Clipped(h, points) == points
  {
    if points != [] { WalkUnchanged(h, points[|points| - 1], points); }
  }

  // ----- no part of the outline is lost

  predicate OnSegment(p: Point, q: Point, z: Point, t: real) {
    0.0 <= t <= 1.0 && z == Between(p, q, t)
  }

  function Previous(points: seq<Point>, i: nat): Point
    requires i < |points|
  {
    if i == 0 then points[|points| - 1] else points[i - 1]
  }

  /** The point lies on the segment that ends at some vertex of the closed outline. */
  ghost predicate OnOutline(points: seq<Point>, z: Point) {
    exists i, t :: 0 <= i < |points| && OnSegment(Previous(points, i), points[i], z, t)
  }

  lemma Ratio(n: real, d: real)
    requires 0.0 <= n <= d && d > 0.0
    ensures 0.0 <= n / d <= 1.0 && (n / d) * d == n
  {
    var q := n / d;
    assert q * d == n;
    assert d * (1.0 - q) == d - n;
    SameSign(d, q);
    SameSign(d, 1.0 - q);
  }

  lemma SameSign(d: real, e: real)
    requires d > 0.0 && d * e >= 0.0
    ensures e >= 0.0
  {
  }

  lemma BetweenBetween(p: Point, q: Point, f: real, s: real)
    ensures Between(p, Between(p, q, f), s) == Between(p, q, s * f)
    ensures Between(Between(p, q, f), q, s) == Between(p, q, f + (1.0 - f) * s)
  {
  }

  lemma SegmentStart(p: Point, q: Point, f: real, t: real)
    requires 0.0 <= t <= f <= 1.0
    ensures exists s :: OnSegment(p, Between(p, q, f), Between(p, q, t), s)
  {
    hide Between;
    var s := 0.0;
    if f > 0.0 {
      s := t / f;
      Ratio(t, f);
    }
    assert s * f == t;
    BetweenBetween(p, q, f, s);
    assert OnSegment(p, Between(p, q, f), Between(p, q, t), s);
  }

  lemma SegmentEnd(p: Point, q: Point, f: real, t: real)
    requires 0.0 <= f <= t <= 1.0
    ensures exists s :: OnSegment(Between(p, q, f), q, Between(p, q, t), s)
  {
    hide Between;
    var s := 0.0;
    if f < 1.0 {
      s := (t - f) / (1.0 - f);
      Ratio(t - f, 1.0 - f);
    }
    assert f + (1.0 - f) * s == t;
    BetweenBetween(p, q, f, s);
    assert OnSegment(Between(p, q, f), q, Between(p, q, t), s);
  }

  /** The inside part of one step's segment lies between its crossing, if any, and its inside ends. */
  lemma StepKeeps(h: HalfPlane, p: Point, q: Point, t: real)
    requires 0.0 <= t <= 1.0 && Inside(h, Between(p, q, t))
    ensures Inside(h, p) || Inside(h, q)
    ensures Inside(h, p) && !Inside(h, q) ==> exists s :: OnSegment(p, Crossing(h, p, q), Between(p, q, t), s)
    ensures !Inside(h, p) && Inside(h, q) ==> exists s :: OnSegment(Crossing(h, p, q), q, Between(p, q, t), s)
  {
    var before, after := Distance(h, p), Distance(h, q);
    DistanceBetween(h, p, q, t);
    if before < 0.0 && after < 0.0 {
      Mixed(before, after, t);
      assert false;
    } else if Inside(h, p) != Inside(h, q) {
      Fraction(before, after);
      CrossedAt(before, after, t);
      var f := before / (before - after);
      assert Crossing(h, p, q) == Between(p, q, f);
      hide Between, Distance, Crossing;
      if before >= 0.0 { SegmentStart(p, q, f, t); } else { SegmentEnd(p, q, f, t); }
    }
  }

  lemma Mixed(before: real, after: real, t: real)
    requires before < 0.0 && after < 0.0 && 0.0 <= t <= 1.0
    ensures before + (after - before) * t < 0.0
  {
    var s := 1.0 - t;
    assert before * s <= 0.0 && after * t <= 0.0;
    assert before + (after - before) * t == before * s + after * t;
    if t > 0.0 { assert after * t < 0.0; }
  }

  lemma CrossedAt(before: real, after: real, t: real)
    requires (before >= 0.0) != (after >= 0.0) && before + (after - before) * t >= 0.0
    ensures before - after != 0.0
    ensures before >= 0.0 ==> t <= before / (before - after)
    ensures after >= 0.0 ==> before / (before - after) <= t
  {
    var f := before / (before - after);
    assert before == (before - after) * f;
    assert before + (after - before) * t == (before - after) * (f - t);
    if before >= 0.0 { SameSign(before - after, f - t); } else { SameSign(after - before, t - f); }
  }

  lemma {:induction false} WalkConcat(h: HalfPlane, previous: Point, a: seq<Point>, b: seq<Point>)
    ensures Walk(h, previous, a + b) == Walk(h, previous, a) + Walk(h, if a == [] then previous else a[|a| - 1], b)
    decreases |a|
  {
    if a == [] {
      assert a + b == b;
    } else {
      assert (a + b)[1..] == a[1..] + b;
      WalkConcat(h, a[0], a[1..], b);
    }
  }

  /** An inside vertex is the last thing emitted when the walk reaches it. */
  lemma {:induction false} WalkEndsAt(h: HalfPlane, previous: Point, a: seq<Point>)
    requires a != [] && Inside(h, a[|a| - 1])
    ensures Walk(h, previous, a) != [] && Walk(h, previous, a)[|Walk(h, previous, a)| - 1] == a[|a| - 1]
    decreases |a|
  {
    if |a| > 1 {
      WalkEndsAt(h, a[0], a[1..]);
    } else {
      assert a[1..] == [];
    }
  }

  /** Every part of the polygon's outline that is inside the edge is still on the clipped outline. */
  lemma OutlineIsKept(h: HalfPlane, points: seq<Point>, i: nat, t: real)
    requires i < |points| && 0.0 <= t <= 1.0
    requires Inside(h, Between(Previous(points, i), points[i], t))
    ensures OnOutline(Clipped(h, points), Between(Previous(points, i), points[i], t))
  {
    var p, q := Previous(points, i), points[i];
    var z := Between(p, q, t);
    var start := points[|points| - 1];
    var head, step, out := Walk(h, start, points[..i]), Emitted(h, p, q), Clipped(h, points);
    var tail := Walk(h, q, points[i + 1..]);
    ClippedParts(h, points, i);
    StepKeeps(h, p, q, t);
    if Inside(h, p) {
      StepFollows(h, points, i);
      assert Previous(out, |head|) == p && out[|head|] == step[0];
      if Inside(h, q) {
        assert OnSegment(Previous(out, |head|), out[|head|], z, t);
      } else {
        var s :| OnSegment(p, Crossing(h, p, q), z, s);
        assert OnSegment(Previous(out, |head|), out[|head|], z, s);
      }
    } else {
      var s :| OnSegment(Crossing(h, p, q), q, z, s);
      assert step == [Crossing(h, p, q), q];
      assert out[|head|] == step[0] && out[|head| + 1] == step[1];
      assert OnSegment(Previous(out, |head| + 1), out[|head| + 1], z, s);
    }
  }

  lemma ClippedParts(h: HalfPlane, points: seq<Point>, i: nat)
    requires i < |points|
    ensures Clipped(h, points) ==
            Walk(h, points[|points| - 1], points[..i]) + Emitted(h, Previous(points, i), points[i]) + Walk(h, points[i], points[i + 1..])
  {
    var start := points[|points| - 1];
    assert points == points[..i] + points[i..];
    WalkConcat(h, start, points[..i], points[i..]);
    WalkOn(h, Previous(points, i), points, i);
    Regroup(Walk(h, start, points[..i]), Emitted(h, Previous(points, i), points[i]), Walk(h, points[i], points[i + 1..]));
  }

  /** What a step from an inside vertex emits directly follows that vertex. */
  lemma StepFollows(h: HalfPlane, points: seq<Point>, i: nat)
    requires i < |points| && Inside(h, Previous(points, i))
    ensures var head := |Walk(h, points[|points| - 1], points[..i])|;
            && head < |Clipped(h, points)| && Previous(Clipped(h, points), head) == Previous(points, i)
  {
    var start := points[|points| - 1];
    ClippedParts(h, points, i);
    if i > 0 {
      WalkEndsAt(h, start, points[..i]);
    } else {
      WalkEndsAt(h, start, points);
    }
  }

  // ----- clipping against everything

  /** An ancestor's client box in its own coordinates, with the axes on which it clips. */
  datatype Box = Box(matrix: Affine, width: real, height: real, clipX: bool, clipY: bool)

  datatype Bounds = Bounds(left: real, right: real, top: real, bottom: real, clips: seq<Box>)

  predicate Clips(box: Box) {
    box.clipX || box.clipY
  }

  /** The point lies in the box as far as the box clips; a box without an inverse that clips holds
      no point. */
  predicate InBox(box: Box, p: Point) {
    match InverseOf(box.matrix)
    case None => !Clips(box)
    case Some(inverse) =>
      var local := Transform(inverse, p);
      (box.clipX ==> 0.0 <= local.x <= box.width) && (box.clipY ==> 0.0 <= local.y <= box.height)
  }

  predicate InViewport(bounds: Bounds, p: Point) {
    bounds.left <= p.x <= bounds.right && bounds.top <= p.y <= bounds.bottom
  }

  function ViewportEdges(bounds: Bounds): seq<Edge> {
    [Edge(Some(IDENTITY), X, bounds.left, true), Edge(Some(IDENTITY), X, bounds.right, false),
     Edge(Some(IDENTITY), Y, bounds.top, true), Edge(Some(IDENTITY), Y, bounds.bottom, false)]
  }

  function BoxEdges(box: Box): seq<Edge> {
    var inverse := InverseOf(box.matrix);
    (if box.clipX then [Edge(inverse, X, 0.0, true), Edge(inverse, X, box.width, false)] else [])
    + (if box.clipY then [Edge(inverse, Y, 0.0, true), Edge(inverse, Y, box.height, false)] else [])
  }

  /** All the edges in the order in which they are applied. */
  function Edges(bounds: Bounds, k: nat): seq<Edge>
    requires k <= |bounds.clips|
  {
    if k == 0 then ViewportEdges(bounds) else Edges(bounds, k - 1) + BoxEdges(bounds.clips[k - 1])
  }

  function ClippedBy(edges: seq<Edge>, points: seq<Point>): seq<Point> {
    if edges == [] then points else Clipped(Line(edges[|edges| - 1]), ClippedBy(edges[..|edges| - 1], points))
  }

  method ClipEdges(points: seq<Point>, edges: seq<Edge>, ghost done: seq<Edge>, ghost original: seq<Point>) returns (out: seq<Point>)
    requires points == ClippedBy(done, original)
    ensures out == ClippedBy(done + edges, original)
  {
    out := points;
    NoMoreEdges(done, edges);
    hide ClippedBy;
    for i := 0 to |edges|
      invariant out == ClippedBy(done + edges[..i], original)
    {
      out := ClipEdge(out, edges[i]);
      OneMoreEdge(done, edges, i, original);
    }
  }

  lemma NoMoreEdges(done: seq<Edge>, edges: seq<Edge>)
    ensures done + edges[..0] == done && edges[..|edges|] == edges
  {
  }

  lemma OneMoreEdge(done: seq<Edge>, edges: seq<Edge>, i: nat, points: seq<Point>)
    requires i < |edges|
    ensures ClippedBy(done + edges[..i + 1], points) == Clipped(Line(edges[i]), ClippedBy(done + edges[..i], points))
  {
    hide Clipped, Line;
    var more := done + edges[..i + 1];
    assert more != [] && more[|more| - 1] == edges[i] && more[..|more| - 1] == done + edges[..i];
  }

  method ClippedPolygon(points: seq<Point>, bounds: Bounds) returns (out: seq<Point>)
    ensures out == ClippedBy(Edges(bounds, |bounds.clips|), points)
  {
    assert [] + ViewportEdges(bounds) == ViewportEdges(bounds);
    out := ClipEdges(points, ViewportEdges(bounds), [], points);
    for k := 0 to |bounds.clips|
      invariant out == ClippedBy(Edges(bounds, k), points)
    {
      out := ClipEdges(out, BoxEdges(bounds.clips[k]), Edges(bounds, k), points);
    }
  }

  lemma {:induction false} ClippedByKeeps(edges: seq<Edge>, points: seq<Point>, g: HalfPlane)
    requires AllInside(g, points)
    ensures AllInside(g, ClippedBy(edges, points))
    decreases |edges|
  {
    if edges != [] {
      ClippedByKeeps(edges[..|edges| - 1], points, g);
      ClippedIsSound(Line(edges[|edges| - 1]), ClippedBy(edges[..|edges| - 1], points), g);
    }
  }

  lemma {:induction false} ClippedByHolds(edges: seq<Edge>, points: seq<Point>, k: nat)
    requires k < |edges|
    ensures AllInside(Line(edges[k]), ClippedBy(edges, points))
    decreases |edges|
  {
    var last := |edges| - 1;
    if k < last { ClippedByHolds(edges[..last], points, k); }
    ClippedIsSound(Line(edges[last]), ClippedBy(edges[..last], points), Line(edges[k]));
  }

  lemma {:induction false} ClippedByUnchanged(edges: seq<Edge>, points: seq<Point>)
    requires forall k :: 0 <= k < |edges| ==> AllInside(Line(edges[k]), points)
    ensures ClippedBy(edges, points) == points
    decreases |edges|
  {
    if edges != [] {
      ClippedByUnchanged(edges[..|edges| - 1], points);
      ClippedUnchanged(Line(edges[|edges| - 1]), points);
    }
  }

  lemma ViewportLines(bounds: Bounds, p: Point)
    ensures InViewport(bounds, p) <==> forall j :: 0 <= j < 4 ==> Inside(Line(ViewportEdges(bounds)[j]), p)
  {
    var es := ViewportEdges(bounds);
    EdgeIsLine(es[0], p);
    EdgeIsLine(es[1], p);
    EdgeIsLine(es[2], p);
    EdgeIsLine(es[3], p);
  }

  lemma BoxLines(box: Box, p: Point)
    ensures InBox(box, p) <==> forall j :: 0 <= j < |BoxEdges(box)| ==> Inside(Line(BoxEdges(box)[j]), p)
  {
    var inverse, es := InverseOf(box.matrix), BoxEdges(box);
    var left, right := Edge(inverse, X, 0.0, true), Edge(inverse, X, box.width, false);
    var top, bottom := Edge(inverse, Y, 0.0, true), Edge(inverse, Y, box.height, false);
    EdgeIsLine(left, p);
    EdgeIsLine(right, p);
    EdgeIsLine(top, p);
    EdgeIsLine(bottom, p);
    hide Inverse, Determinant, Distance, Line, Transform;
    assert box.clipX ==> es[0] == left && es[1] == right;
    assert box.clipY ==> es[|es| - 2] == top && es[|es| - 1] == bottom;
    assert forall j :: 0 <= j < |es| ==> (box.clipX && (es[j] == left || es[j] == right)) || (box.clipY && (es[j] == top || es[j] == bottom));
  }

  lemma EdgesInclude(bounds: Bounds, k: nat, n: nat, j: nat)
    requires n <= |bounds.clips|
    ensures j < 4 ==> ViewportEdges(bounds)[j] in Edges(bounds, n)
    ensures k < n && j < |BoxEdges(bounds.clips[k])| ==> BoxEdges(bounds.clips[k])[j] in Edges(bounds, n)
    decreases n
  {
  }

  /** Every vertex of the result lies in the viewport and in every client box, and in every half-plane
      that held the polygon; nothing is left if a box that clips has a singular matrix. */
  lemma ClippedPolygonIsSound(points: seq<Point>, bounds: Bounds, g: HalfPlane)
    ensures var out := ClippedBy(Edges(bounds, |bounds.clips|), points);
            && (forall i :: 0 <= i < |out| ==> InViewport(bounds, out[i]))
            && (forall i, k :: 0 <= i < |out| && 0 <= k < |bounds.clips| ==> InBox(bounds.clips[k], out[i]))
            && (AllInside(g, points) ==> AllInside(g, out))
            && ((exists k :: 0 <= k < |bounds.clips| && Clips(bounds.clips[k]) && InverseOf(bounds.clips[k].matrix).None?) ==> out == [])
  {
    var n, es := |bounds.clips|, Edges(bounds, |bounds.clips|);
    var out := ClippedBy(es, points);
    if AllInside(g, points) { ClippedByKeeps(es, points, g); }
    forall i | 0 <= i < |out|
      ensures InViewport(bounds, out[i])
    {
      ViewportLines(bounds, out[i]);
      forall j | 0 <= j < 4
        ensures Inside(Line(ViewportEdges(bounds)[j]), out[i])
      {
        EdgesInclude(bounds, 0, n, j);
        InsideAll(es, points, ViewportEdges(bounds)[j], i);
      }
    }
    forall i, k | 0 <= i < |out| && 0 <= k < n
      ensures InBox(bounds.clips[k], out[i])
    {
      BoxLines(bounds.clips[k], out[i]);
      forall j | 0 <= j < |BoxEdges(bounds.clips[k])|
        ensures Inside(Line(BoxEdges(bounds.clips[k])[j]), out[i])
      {
        EdgesInclude(bounds, k, n, j);
        InsideAll(es, points, BoxEdges(bounds.clips[k])[j], i);
      }
    }
    if k :| 0 <= k < n && Clips(bounds.clips[k]) && InverseOf(bounds.clips[k].matrix).None? {
      assert out != [] ==> InBox(bounds.clips[k], out[0]);
    }
  }

  lemma InsideAll(edges: seq<Edge>, points: seq<Point>, e: Edge, i: nat)
    requires e in edges && i < |ClippedBy(edges, points)|
    ensures Inside(Line(e), ClippedBy(edges, points)[i])
  {
    var k :| 0 <= k < |edges| && edges[k] == e;
    ClippedByHolds(edges, points, k);
  }

  lemma PolygonInsideIsUnchanged(points: seq<Point>, bounds: Bounds)
    requires forall i :: 0 <= i < |points| ==> InViewport(bounds, points[i])
    requires forall i, k :: 0 <= i < |points| && 0 <= k < |bounds.clips| ==> InBox(bounds.clips[k], points[i])
    ensures ClippedBy(Edges(bounds, |bounds.clips|), points) == points
  {
    AllEdgesHold(points, bounds, |bounds.clips|);
    ClippedByUnchanged(Edges(bounds, |bounds.clips|), points);
  }

  lemma AllEdgesHold(points: seq<Point>, bounds: Bounds, n: nat)
    requires n <= |bounds.clips|
    requires forall i :: 0 <= i < |points| ==> InViewport(bounds, points[i])
    requires forall i, k :: 0 <= i < |points| && 0 <= k < n ==> InBox(bounds.clips[k], points[i])
    ensures forall j :: 0 <= j < |Edges(bounds, n)| ==> AllInside(Line(Edges(bounds, n)[j]), points)
    decreases n
  {
    if n > 0 { AllEdgesHold(points, bounds, n - 1); }
    forall j, i | 0 <= j < |Edges(bounds, n)| && 0 <= i < |points|
      ensures Inside(Line(Edges(bounds, n)[j]), points[i])
    {
      if n == 0 {
        ViewportLines(bounds, points[i]);
      } else if j < |Edges(bounds, n - 1)| {
        assert Edges(bounds, n)[j] == Edges(bounds, n - 1)[j];
        assert AllInside(Line(Edges(bounds, n - 1)[j]), points);
      } else {
        BoxLines(bounds.clips[n - 1], points[i]);
        assert Edges(bounds, n)[j] == BoxEdges(bounds.clips[n - 1])[j - |Edges(bounds, n - 1)|];
      }
    }
  }
}
