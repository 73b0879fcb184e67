/** `kochSnowflake.ts`: the snowflake's segments, generated from the three
    sides of a unit equilateral triangle, then fitted to the drawing area
    and drawn on one shared path, chunk by chunk. */
module KochSnowflake {
  import opened Wrappers
  import opened Geometry
  import opened DrawLog
  import opened Canvas
  import opened KochSubdivide
  import opened Chunked

  const A: Point := Point(0.0, 0.0)
  const B: Point := Point(1.0, 0.0)

  /** The apex `(L / 2, sqrt(3) / 2 * L)` with `L = 1`. */
  function C(t: Trig): Point
  {
    Point(1.0 / 2.0, t.sqrt(3.0) / 2.0 * 1.0)
  }

  /** The base triangle's sides A to B, B to C, C to A. */
  function Edges(t: Trig): (r: seq<Segment>)
    ensures Chain(r, A, A)
  {
    var r := [Segment(A, B), Segment(B, C(t)), Segment(C(t), A)];
    assert Chain(r[1..][1..][1..], A, A);
    assert Chain(r[1..][1..], C(t), A);
    assert Chain(r[1..], B, A);
    r
  }

  /** `generateKochSegments`: each side subdivided `depth` times, in order. */
  method GenerateKochSegments(t: Trig, depth: nat) returns (result: seq<Segment>)
    ensures result == SubdivideEach(Outward(t), Edges(t), depth)
  {
    var edges := Edges(t);
    result := [];
    var i := 0;
    while i < |edges|
      invariant 0 <= i <= |edges|
      invariant result == SubdivideEach(Outward(t), edges[..i], depth)
    {
      assert edges[..i + 1][..i] == edges[..i];
      result := result + Subdivide(Outward(t), edges[i].a, edges[i].b, depth);
      i := i + 1;
    }
    assert edges[..i] == edges;
  }

  /** The snowflake at `depth` has `3 * 4^depth` segments chaining from A
      round to A, passing B and C where the sides' subdivisions meet; at
      depth 0 it is exactly the three sides. */
  lemma Shape(t: Trig, depth: nat)
    ensures var r, k := SubdivideEach(Outward(t), Edges(t), depth), Pow(4, depth);
      && |r| == 3 * k
      && Chain(r, A, A)
      && r[0].a == A && r[k].a == B && r[2 * k].a == C(t) && r[3 * k - 1].b == A
      && (depth == 0 ==> r == Edges(t))
  {
    var r := SubdivideEach(Outward(t), Edges(t), depth);
    SubdivideEachChains(Outward(t), Edges(t), A, A, depth);
    ChainLinks(r, A, A);
    Corners(t, depth);
    if depth == 0 {
      SubdivideEachZero(Outward(t), Edges(t));
    }
  }

  /** B and C open the second and third sides' blocks. */
  lemma Corners(t: Trig, depth: nat)
    ensures var r, k := SubdivideEach(Outward(t), Edges(t), depth), Pow(4, depth);
      r[k].a == B && r[2 * k].a == C(t)
  {
    var r, k := SubdivideEach(Outward(t), Edges(t), depth), Pow(4, depth);
    assert r[k].a == B by {
      SubdivideEachBlock(Outward(t), Edges(t), depth, 1);
      SubdivideChains(Outward(t), B, C(t), depth);
      ChainLinks(Subdivide(Outward(t), B, C(t), depth), B, C(t));
      assert r[k] == r[k..2 * k][0];
    }
    assert r[2 * k].a == C(t) by {
      SubdivideEachBlock(Outward(t), Edges(t), depth, 2);
      SubdivideChains(Outward(t), C(t), A, depth);
      ChainLinks(Subdivide(Outward(t), C(t), A, depth), C(t), A);
      assert r[2 * k] == r[2 * k..3 * k][0];
    }
  }

  /** `drawKochSnowflake` up to and including its direct `drawChunk()` call:
      the segments, their bounding box, the fit, the shared path opened,
      and the first tick drawn. The returned renderer stands for the
      closure; its `Tick` is each requested animation frame. The drawing
      area must have positive height: A and B give the box width 1, but the
      box may be flat. */
  method Draw(ctx: Context, t: Trig, drawArea: Rect, depth: nat, animate: bool, speed: int)
    returns (r: ChunkedRender<Segment>, bbox: BBox, fit: Fit)
    requires drawArea.w >= 0.0 && drawArea.h > 0.0
    modifies ctx
    ensures fresh(r) && r.ctx == ctx && r.Valid()
    ensures r.items == SubdivideEach(Outward(t), Edges(t), depth)
    ensures r.mode == SharedPath && r.animate == animate && r.step == Step(|r.items|, speed, 15)
    ensures forall s :: r.emit(s) == SegmentCalls(fit, s)
    ensures Bounds(bbox, SegmentPoints(r.items)) && Tight(bbox, SegmentPoints(r.items))
    ensures IsBox(bbox) && FitAndScale(bbox, drawArea) == Some(fit)
    ensures r.cursor == Min(|r.items|, if animate then r.step else |r.items|)
    ensures r.chunks == [r.items[..r.cursor]] && r.pending == (animate && r.cursor < |r.items|)
    ensures ctx.log == old(ctx.log) + Prelude(r.mode) + TickLog(r.emit, r.mode, r.items[..r.cursor])
  {
    var segments := GenerateKochSegments(t, depth);
    Shape(t, depth);
    var pts := SegmentPoints(segments);
    var k := Pow(4, depth);
    assert pts[0] == A && pts[2 * k] == B;
    bbox, fit := BoxAndFit(pts, drawArea, 0, 2 * k);
    var f := fit;
    r := Start(ctx, segments, s => SegmentCalls(f, s), SharedPath, animate, Step(|segments|, speed, 15));
  }
}
