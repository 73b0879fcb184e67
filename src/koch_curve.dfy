/** `kochCurve.ts`: one side of the snowflake, from (0, 0) to (1, 0),
    subdivided, fitted and drawn with a fresh path per tick. */
module KochCurve {
  import opened Wrappers
  import opened Geometry
  import opened DrawLog
  import opened Canvas
  import opened KochSubdivide
  import opened Chunked

  const A: Point := Point(0.0, 0.0)
  const B: Point := Point(1.0, 0.0)

  /** `generateKochCurve`. */
  function GenerateKochCurve(t: Trig, depth: nat): seq<Segment>
  {
    Subdivide(Outward(t), A, B, depth)
  }

  /** `4^depth` segments chaining from A to B; at depth 0 the single
      segment A to B; above it, the quarters start at the exact thirds of
      A to B and at the peak. */
  lemma Shape(t: Trig, depth: nat)
    ensures var r := GenerateKochCurve(t, depth);
      && |r| == Pow(4, depth)
      && Chain(r, A, B)
      && r[0].a == A && r[|r| - 1].b == B
      && (depth == 0 ==> r == [Segment(A, B)])
      && (depth >= 1 ==>
            var k := Pow(4, depth - 1);
            r[k].a == Point(1.0 / 3.0, 0.0) && r[2 * k].a == OutwardPeak(t, A, B) && r[3 * k].a == Point(2.0 / 3.0, 0.0))
  {
    Ends(t, depth);
    if depth >= 1 {
      SubdivideQuarters(Outward(t), A, B, depth);
    }
  }

  lemma Ends(t: Trig, depth: nat)
    ensures var r := GenerateKochCurve(t, depth);
      Chain(r, A, B) && |r| >= 1 && r[0].a == A && r[|r| - 1].b == B
  {
    SubdivideChains(Outward(t), A, B, depth);
    ChainLinks(GenerateKochCurve(t, depth), A, B);
  }

  /** The curve's first and last points, which set the box's width. */
  lemma PointEnds(t: Trig, depth: nat)
    ensures var pts := SegmentPoints(GenerateKochCurve(t, depth));
      |pts| >= 2 && pts[0].x == 0.0 && pts[|pts| - 1].x == 1.0
  {
    var r := GenerateKochCurve(t, depth);
    Ends(t, depth);
    var last := |r| - 1;
    assert SegmentPoints(r)[2 * last + 1] == r[last].b;
  }

  /** `drawKochCurve` up to and including its direct `drawChunk()` call. The
      curve's box is flat at depth 0, so the drawing area must have positive
      height. */
  method Draw(ctx: Context, t: Trig, drawArea: Rect, depth: nat, animate: bool, speed: int)
    returns (r: ChunkedRender<Segment>, bbox: BBox, fit: Fit)
    requires drawArea.w >= 0.0 && drawArea.h > 0.0
    modifies ctx
    ensures fresh(r) && r.ctx == ctx && r.Valid()
    ensures r.items == GenerateKochCurve(t, depth)
    ensures r.mode == PathPerTick && r.animate == animate && r.step == Step(|r.items|, speed, 15)
    ensures forall s :: r.emit(s) == SegmentCalls(fit, s)
    ensures Bounds(bbox, SegmentPoints(r.items)) && Tight(bbox, SegmentPoints(r.items))
    ensures IsBox(bbox) && FitAndScale(bbox, drawArea) == Some(fit)
    ensures r.cursor == Min(|r.items|, if animate then r.step else |r.items|)
    ensures r.chunks == [r.items[..r.cursor]] && r.pending == (animate && r.cursor < |r.items|)
    ensures ctx.log == old(ctx.log) + Prelude(r.mode) + TickLog(r.emit, r.mode, r.items[..r.cursor])
  {
    var segments := GenerateKochCurve(t, depth);
    PointEnds(t, depth);
    var pts := SegmentPoints(segments);
    bbox, fit := BoxAndFit(pts, drawArea, 0, |pts| - 1);
    var f := fit;
    r := Start(ctx, segments, s => SegmentCalls(f, s), PathPerTick, animate, Step(|segments|, speed, 15));
  }
}
