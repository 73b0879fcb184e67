/** `sierpinskiTriangle.ts`: the leaf triangles of a unit equilateral
    triangle subdivided `depth` times, fitted to the drawing area and
    stroked one closed path per triangle, chunk by chunk. */
module SierpinskiTriangle {
  import opened Wrappers
  import opened Geometry
  import opened DrawLog
  import opened Canvas
  import opened SierpinskiSubdivide
  import opened Chunked

  const A: Point := Point(0.0, 0.0)
  const B: Point := Point(1.0, 0.0)

  /** The apex `(L / 2, sqrt(3) / 2 * L)` with `L = 1`. */
  function C(t: Trig): Point
  {
    Point(1.0 / 2.0, t.sqrt(3.0) / 2.0 * 1.0)
  }

  function Base(t: Trig): Triangle
  {
    Triangle(A, B, C(t))
  }

  /** `generateTriangles`. */
  function GenerateTriangles(t: Trig, depth: nat): seq<Triangle>
  {
    Subdivide(Base(t), depth)
  }

  /** `3^depth` leaves; depth 0 is the base triangle alone; above it the
      leaves come in three equal blocks, those of the corner children at
      `a`, `b` and `c` in that order, the middle triangle never appearing. */
  lemma Shape(t: Trig, depth: nat)
    ensures |GenerateTriangles(t, depth)| == Pow(3, depth)
    ensures depth == 0 ==> GenerateTriangles(t, depth) == [Base(t)]
    ensures depth >= 1 ==>
      var r, k, c := GenerateTriangles(t, depth), Pow(3, depth - 1), Children(Base(t));
      && r[..k] == Subdivide(c[0], depth - 1)
      && r[k..2 * k] == Subdivide(c[1], depth - 1)
      && r[2 * k..] == Subdivide(c[2], depth - 1)
  {
    if depth >= 1 {
      SubdivideThirds(Base(t), depth);
    }
  }

  /** Each leaf has `1 / 4^depth` of the base triangle's area. */
  lemma LeafAreas(t: Trig, depth: nat)
    ensures AllArea(GenerateTriangles(t, depth), Area2(Base(t)) * RPow(0.25, depth))
  {
    LeafArea(Base(t), depth);
  }

  /** Together the leaves have `(3/4)^depth` of the base triangle's area. */
  lemma LeavesArea(t: Trig, depth: nat)
    ensures SumArea(GenerateTriangles(t, depth)) == Area2(Base(t)) * RPow(0.75, depth)
  {
    TotalArea(Base(t), depth);
  }

  /** The base corners A, B and C are leaf corners at every depth: A the
      first leaf's first corner, B the second corner of leaf `CornerB(depth)`,
      C the last leaf's third corner. */
  lemma CornerA(t: Trig, depth: nat)
    ensures GenerateTriangles(t, depth)[0].a == A
  {
    FirstCorner(Base(t), depth);
  }

  lemma CornerBSurvives(t: Trig, depth: nat)
    ensures CornerB(depth) < |GenerateTriangles(t, depth)| && GenerateTriangles(t, depth)[CornerB(depth)].b == B
  {
    SecondCorner(Base(t), depth);
  }

  lemma CornerC(t: Trig, depth: nat)
    ensures GenerateTriangles(t, depth)[|GenerateTriangles(t, depth)| - 1].c == C(t)
  {
    LastCorner(Base(t), depth);
  }

  /** The points pushed for the bounding box include A and B, so the box is
      never flat horizontally. */
  lemma PointCorners(t: Trig, depth: nat)
    ensures var pts := TrianglePoints(GenerateTriangles(t, depth));
      && 3 * CornerB(depth) + 1 < |pts|
      && pts[0].x == 0.0 && pts[3 * CornerB(depth) + 1].x == 1.0
  {
    CornerA(t, depth);
    CornerBSurvives(t, depth);
  }

  /** One triangle's calls: its own path, closed and stroked. */
  function TriangleCalls(f: Fit, tri: Triangle): seq<Cmd>
  {
    [BeginPath, MoveTo(Apply(f, tri.a)), LineTo(Apply(f, tri.b)), LineTo(Apply(f, tri.c)), ClosePath, Stroke]
  }

  /** Each tick opens, closes and strokes one path per triangle it draws. */
  lemma OnePathEach(f: Fit, chunk: seq<Triangle>)
    ensures Count(TickLog(tri => TriangleCalls(f, tri), PathPerItem, chunk), BeginPath) == |chunk|
    ensures Count(TickLog(tri => TriangleCalls(f, tri), PathPerItem, chunk), ClosePath) == |chunk|
    ensures Count(TickLog(tri => TriangleCalls(f, tri), PathPerItem, chunk), Stroke) == |chunk|
  {
    var emit := tri => TriangleCalls(f, tri);
    forall tri ensures Count(emit(tri), BeginPath) == 1 && Count(emit(tri), ClosePath) == 1 && Count(emit(tri), Stroke) == 1 {
      CallCounts(f, tri);
    }
    EmitAllCount(emit, chunk, BeginPath, 1);
    EmitAllCount(emit, chunk, ClosePath, 1);
    EmitAllCount(emit, chunk, Stroke, 1);
  }

  lemma CallCounts(f: Fit, tri: Triangle)
    ensures Count(TriangleCalls(f, tri), BeginPath) == 1
    ensures Count(TriangleCalls(f, tri), ClosePath) == 1
    ensures Count(TriangleCalls(f, tri), Stroke) == 1
  {
    var s := TriangleCalls(f, tri);
    assert s[5..] == [Stroke] && s[5..][1..] == [];
    assert Count(s[5..], BeginPath) == 0 && Count(s[5..], ClosePath) == 0 && Count(s[5..], Stroke) == 1;
    assert s[4..][1..] == s[5..];
    assert Count(s[4..], BeginPath) == 0 && Count(s[4..], ClosePath) == 1 && Count(s[4..], Stroke) == 1;
    assert s[3..][1..] == s[4..];
    assert Count(s[3..], BeginPath) == 0 && Count(s[3..], ClosePath) == 1 && Count(s[3..], Stroke) == 1;
    assert s[2..][1..] == s[3..];
    assert Count(s[2..], BeginPath) == 0 && Count(s[2..], ClosePath) == 1 && Count(s[2..], Stroke) == 1;
    assert s[1..][1..] == s[2..];
    assert Count(s[1..], BeginPath) == 0 && Count(s[1..], ClosePath) == 1 && Count(s[1..], Stroke) == 1;
  }

  /** The bounding box of the leaves' corners and its fit. */
  method BoxAndFitLeaves(t: Trig, depth: nat, drawArea: Rect) returns (bbox: BBox, fit: Fit)
    requires drawArea.w >= 0.0 && drawArea.h > 0.0
    ensures var pts := TrianglePoints(GenerateTriangles(t, depth));
      IsBox(bbox) && Bounds(bbox, pts) && Tight(bbox, pts) && FitAndScale(bbox, drawArea) == Some(fit)
  {
    PointCorners(t, depth);
    bbox, fit := BoxAndFit(TrianglePoints(GenerateTriangles(t, depth)), drawArea, 0, 3 * CornerB(depth) + 1);
  }

  /** `drawSierpinskiTriangle` up to and including its direct `drawChunk()`
      call. */
  method Draw(ctx: Context, t: Trig, drawArea: Rect, depth: nat, animate: bool, speed: int)
    returns (r: ChunkedRender<Triangle>, bbox: BBox, fit: Fit)
    requires drawArea.w >= 0.0 && drawArea.h > 0.0
    modifies ctx
    ensures fresh(r) && r.ctx == ctx && r.Valid()
    ensures r.items == GenerateTriangles(t, depth)
    ensures r.mode == PathPerItem && r.animate == animate && r.step == Step(|r.items|, speed, 15)
    ensures forall tri :: r.emit(tri) == TriangleCalls(fit, tri)
    ensures Bounds(bbox, TrianglePoints(r.items)) && Tight(bbox, TrianglePoints(r.items))
    ensures IsBox(bbox) && FitAndScale(bbox, drawArea) == Some(fit)
    ensures r.cursor == Min(|r.items|, if animate then r.step else |r.items|)
    ensures r.chunks == [r.items[..r.cursor]] && r.pending == (animate && r.cursor < |r.items|)
    ensures ctx.log == old(ctx.log) + Prelude(r.mode) + TickLog(r.emit, r.mode, r.items[..r.cursor])
  {
    var tris := GenerateTriangles(t, depth);
    bbox, fit := BoxAndFitLeaves(t, depth, drawArea);
    var f := fit;
    r := Start(ctx, tris, tri => TriangleCalls(f, tri), PathPerItem, animate, Step(|tris|, speed, 15));
  }
}
