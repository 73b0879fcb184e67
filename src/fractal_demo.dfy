/** The three immediate-mode drawings of `FractalDemo.tsx`: a Koch
    snowflake and a Sierpinski triangle drawn by nested recursive closures
    that count what they draw, and a Mandelbrot image of one-pixel
    rectangles whose inner loop counts every iteration. */
module FractalDemo {
  import opened Geometry
  import opened DrawLog
  import opened KochSubdivide
  import Sierp = SierpinskiSubdivide
  import opened SierpinskiFill
  import opened Escape

  /** A counter captured by a drawing closure (`segmentCount`,
      `triangleCount`, `iterationsCount`). */
  class Tally {
    var count: nat

    constructor ()
      ensures count == 0
    {
      count := 0;
    }
  }

  /** A base case's calls: a one-segment path, stroked. */
  function LineCalls(s: Segment): seq<Cmd>
  {
    [BeginPath, MoveTo(s.a), LineTo(s.b), Stroke]
  }

  /** The stroke calls of the segments `p`–`q` breaks into under the demo's
      peak, part by part. */
  function LeafStrokes(t: Trig, p: Point, q: Point, n: nat): seq<Cmd>
    decreases n
  {
    if n == 0 then LineCalls(Segment(p, q))
    else
      var a, c, b := Third(p, q), TurnedPeak(t, p, q), TwoThirds(p, q);
      LeafStrokes(t, p, a, n - 1) + LeafStrokes(t, a, c, n - 1)
      + LeafStrokes(t, c, b, n - 1) + LeafStrokes(t, b, q, n - 1)
  }

  /** Those calls are the segments of the demo's subdivision stroked in order. */
  lemma {:induction false} LeafStrokesInOrder(t: Trig, p: Point, q: Point, n: nat)
    ensures LeafStrokes(t, p, q, n) == EmitAll(LineCalls, Subdivide(Turned(t), p, q, n))
    decreases n, 1
  {
    if n == 0 {
      assert EmitAll(LineCalls, [Segment(p, q)]) == EmitAll(LineCalls, []) + LineCalls(Segment(p, q));
    } else {
      LeafStrokesStep(t, p, q, n);
    }
  }

  /** The inductive step: each part's calls are its segments stroked in
      order, so the whole's are too. */
  lemma {:induction false} LeafStrokesStep(t: Trig, p: Point, q: Point, n: nat)
    requires n >= 1
    ensures LeafStrokes(t, p, q, n) == EmitAll(LineCalls, Subdivide(Turned(t), p, q, n))
    decreases n, 0
  {
    var a, c, b := Third(p, q), TurnedPeak(t, p, q), TwoThirds(p, q);
    LeafStrokesInOrder(t, p, a, n - 1);
    LeafStrokesInOrder(t, a, c, n - 1);
    LeafStrokesInOrder(t, c, b, n - 1);
    LeafStrokesInOrder(t, b, q, n - 1);
    var s0, s1 := Subdivide(Turned(t), p, a, n - 1), Subdivide(Turned(t), a, c, n - 1);
    var s2, s3 := Subdivide(Turned(t), c, b, n - 1), Subdivide(Turned(t), b, q, n - 1);
    assert Turned(t)(p, q) == c;
    assert Subdivide(Turned(t), p, q, n) == s0 + s1 + s2 + s3;
    EmitAllAppend4(LineCalls, s0, s1, s2, s3);
  }

  lemma AppendThree(log: seq<Cmd>, e0: seq<Cmd>, e1: seq<Cmd>, e2: seq<Cmd>)
    ensures log + e0 + e1 + e2 == log + (e0 + e1 + e2)
  {
  }

  /** `kochCurve(x1, y1, x2, y2, depth)` inside `drawKoch`: each base case
      strokes its segment and counts it; nothing else is drawn. */
  method KochCurve(ctx: Context, segmentCount: Tally, t: Trig, p1: Point, p2: Point, depth: nat)
    modifies ctx, segmentCount
    ensures ctx.log == old(ctx.log) + LeafStrokes(t, p1, p2, depth)
    ensures segmentCount.count == old(segmentCount.count) + Pow(4, depth)
    decreases depth
  {
    if depth == 0 {
      ctx.log := ctx.log + [BeginPath, MoveTo(p1), LineTo(p2), Stroke];
      segmentCount.count := segmentCount.count + 1;
      return;
    }
    var dx := p2.x - p1.x;
    var dy := p2.y - p1.y;
    var third := Point(p1.x + dx / 3.0, p1.y + dy / 3.0);
    var twoThird := Point(p1.x + (2.0 * dx) / 3.0, p1.y + (2.0 * dy) / 3.0);
    var angle := TurnedAngle(t, dx, dy);
    var length := ThirdLength(t, dx, dy);
    var peak := Point(third.x + t.cos(angle) * length, third.y + t.sin(angle) * length);
    assert third == Third(p1, p2) && twoThird == TwoThirds(p1, p2);
    assert peak == PeakFrom(t, third, dx, dy) == TurnedPeak(t, p1, p2);
    ghost var count0, l0 := segmentCount.count, ctx.log;
    KochCurve(ctx, segmentCount, t, p1, third, depth - 1);
    ghost var l1 := ctx.log;
    KochCurve(ctx, segmentCount, t, third, peak, depth - 1);
    ghost var l2 := ctx.log;
    KochCurve(ctx, segmentCount, t, peak, twoThird, depth - 1);
    ghost var l3 := ctx.log;
    KochCurve(ctx, segmentCount, t, twoThird, p2, depth - 1);
    FourAppends(l0, l1, l2, l3, ctx.log,
      LeafStrokes(t, p1, third, depth - 1), LeafStrokes(t, third, peak, depth - 1),
      LeafStrokes(t, peak, twoThird, depth - 1), LeafStrokes(t, twoThird, p2, depth - 1));
    assert segmentCount.count == count0 + 4 * Pow(4, depth - 1);
  }

  const Center: real := 360.0

  /** The demo snowflake's corners: apex up, side `size * sqrt(3)` for
      `size = 200`. */
  function KochCorners(t: Trig): seq<Point>
  {
    var size := 200.0;
    [Point(Center, Center - size / 2.0),
     Point(Center - (size * t.sqrt(3.0)) / 2.0, Center + size / 2.0),
     Point(Center + (size * t.sqrt(3.0)) / 2.0, Center + size / 2.0)]
  }

  function KochSides(t: Trig): (r: seq<Segment>)
    ensures |r| == 3
  {
    var c := KochCorners(t);
    [Segment(c[0], c[1]), Segment(c[1], c[2]), Segment(c[2], c[0])]
  }

  lemma SidesCalls(peak: (Point, Point) -> Point, sides: seq<Segment>, n: nat)
    requires |sides| == 3
    ensures EmitAll(LineCalls, SubdivideEach(peak, sides, n))
      == EmitAll(LineCalls, Subdivide(peak, sides[0].a, sides[0].b, n))
         + EmitAll(LineCalls, Subdivide(peak, sides[1].a, sides[1].b, n))
         + EmitAll(LineCalls, Subdivide(peak, sides[2].a, sides[2].b, n))
  {
    var s0 := Subdivide(peak, sides[0].a, sides[0].b, n);
    var s1 := Subdivide(peak, sides[1].a, sides[1].b, n);
    var s2 := Subdivide(peak, sides[2].a, sides[2].b, n);
    SubdivideEachThree(peak, sides, n);
    EmitAllAppend3(LineCalls, s0, s1, s2);
  }

  /** `drawKoch`: the three sides, each subdivided and stroked segment by
      segment; the count returned is the number of segments stroked,
      `3 * 4^depth`. */
  method DrawKoch(ctx: Context, t: Trig, depth: nat) returns (count: nat)
    modifies ctx
    ensures ctx.log == old(ctx.log) + EmitAll(LineCalls, SubdivideEach(Turned(t), KochSides(t), depth))
    ensures count == |SubdivideEach(Turned(t), KochSides(t), depth)| == 3 * Pow(4, depth)
  {
    var segmentCount := new Tally();
    var c := KochCorners(t);
    ghost var l0 := ctx.log;
    KochCurve(ctx, segmentCount, t, c[0], c[1], depth);
    KochCurve(ctx, segmentCount, t, c[1], c[2], depth);
    KochCurve(ctx, segmentCount, t, c[2], c[0], depth);
    KochSidesInOrder(l0, t, depth);
    count := segmentCount.count;
  }

  /** The three sides' strokes, drawn in turn, are the snowflake's segments
      stroked in order. */
  lemma KochSidesInOrder(log: seq<Cmd>, t: Trig, n: nat)
    ensures var c := KochCorners(t);
      log + LeafStrokes(t, c[0], c[1], n) + LeafStrokes(t, c[1], c[2], n) + LeafStrokes(t, c[2], c[0], n)
      == log + EmitAll(LineCalls, SubdivideEach(Turned(t), KochSides(t), n))
  {
    var c := KochCorners(t);
    LeafStrokesInOrder(t, c[0], c[1], n);
    LeafStrokesInOrder(t, c[1], c[2], n);
    LeafStrokesInOrder(t, c[2], c[0], n);
    SidesCalls(Turned(t), KochSides(t), n);
    AppendThree(log, EmitAll(LineCalls, Subdivide(Turned(t), c[0], c[1], n)),
      EmitAll(LineCalls, Subdivide(Turned(t), c[1], c[2], n)), EmitAll(LineCalls, Subdivide(Turned(t), c[2], c[0], n)));
  }

  /** One stroke per segment: the count returned is the number of strokes. */
  lemma StrokesCounted(s: seq<Segment>)
    ensures Count(EmitAll(LineCalls, s), Stroke) == |s|
  {
    forall x ensures Count(LineCalls(x), Stroke) == 1 {
      var c := LineCalls(x);
      assert c[3..] == [Stroke] && c[3..][1..] == [];
      assert c[2..][1..] == c[3..];
      assert c[1..][1..] == c[2..];
      assert Count(c[3..], Stroke) == 1;
      assert Count(c[2..], Stroke) == 1;
      assert Count(c[1..], Stroke) == 1;
    }
    EmitAllCount(LineCalls, s, Stroke, 1);
  }

  /** `sierpinski(x1, y1, ..., depth)` inside `drawSierpinski`: each base
      case fills its triangle and counts it. */
  method SierpinskiCounted(ctx: Context, triangleCount: Tally, p1: Point, p2: Point, p3: Point, depth: nat)
    modifies ctx, triangleCount
    ensures ctx.log == FillLog(old(ctx.log), p1, p2, p3, depth)
    ensures triangleCount.count == old(triangleCount.count) + Pow(3, depth)
    decreases depth
  {
    if depth == 0 {
      ctx.log := ctx.log + [BeginPath, MoveTo(p1), LineTo(p2), LineTo(p3), ClosePath, Fill];
      triangleCount.count := triangleCount.count + 1;
    } else {
      var m1 := Point((p1.x + p2.x) / 2.0, (p1.y + p2.y) / 2.0);
      var m2 := Point((p2.x + p3.x) / 2.0, (p2.y + p3.y) / 2.0);
      var m3 := Point((p3.x + p1.x) / 2.0, (p3.y + p1.y) / 2.0);
      assert m1 == Midpoint(p1, p2) && m2 == Midpoint(p2, p3) && m3 == Midpoint(p3, p1);
      ghost var count0 := triangleCount.count;
      SierpinskiCounted(ctx, triangleCount, p1, m1, m3, depth - 1);
      SierpinskiCounted(ctx, triangleCount, m1, p2, m2, depth - 1);
      SierpinskiCounted(ctx, triangleCount, m3, m2, p3, depth - 1);
      assert triangleCount.count == count0 + 3 * Pow(3, depth - 1);
    }
  }

  /** The demo's Sierpinski outline: side 300, centroid at the centre. */
  function SierpinskiOutline(t: Trig): Triangle
  {
    var size := 300.0;
    var h := (size * t.sqrt(3.0)) / 2.0;
    Triangle(Point(Center, Center - (2.0 * h) / 3.0),
             Point(Center - size / 2.0, Center + h / 3.0),
             Point(Center + size / 2.0, Center + h / 3.0))
  }

  /** `drawSierpinski`: the fill colour, then `3^depth` filled triangles,
      which is the count returned. */
  method DrawSierpinski(ctx: Context, t: Trig, depth: nat) returns (count: nat)
    modifies ctx
    ensures ctx.log == old(ctx.log) + [SetFill(Css("#60a5fa"))]
                       + EmitAll(FillCalls, Sierp.Subdivide(SierpinskiOutline(t), depth))
    ensures count == |Sierp.Subdivide(SierpinskiOutline(t), depth)| == Pow(3, depth)
  {
    var triangleCount := new Tally();
    ctx.log := ctx.log + [SetFill(Css("#60a5fa"))];
    var o := SierpinskiOutline(t);
    ghost var log0 := ctx.log;
    SierpinskiCounted(ctx, triangleCount, o.a, o.b, o.c, depth);
    FillLogIsLeaves(log0, o.a, o.b, o.c, depth);
    count := triangleCount.count;
  }

  /** The demo's Mandelbrot canvas is 720 pixels square. */
  const Side: nat := 720

  /** `cx = (px / width) * 3 - 2` and `cy = (py / height) * 3 - 1.5`. */
  function Cx(px: nat): real
  {
    (px as real / Side as real) * 3.0 - 2.0
  }

  function Cy(py: nat): real
  {
    (py as real / Side as real) * 3.0 - 1.5
  }

  /** The pixels cover [-2, 1) x [-1.5, 1.5). */
  lemma DemoPixelRange(px: nat, py: nat)
    requires px < Side && py < Side
    ensures -2.0 <= Cx(px) < 1.0 && -1.5 <= Cy(py) < 1.5
  {
    assert px as real / 720.0 < 1.0;
    assert py as real / 720.0 < 1.0;
  }

  /** The fill colour for a pixel whose count is `iter`: black for points
      that use up the budget, otherwise the hue `iter / maxIter * 360`. */
  function PixelStyle(iter: nat, maxIter: nat): FillStyle
    requires iter <= maxIter
  {
    if iter == maxIter then Black else Hsl(iter as real / maxIter as real * 360.0)
  }

  /** Black exactly for the points that never escape; every other hue lies
      in [0, 360). */
  lemma PixelStyleRange(iter: nat, maxIter: nat)
    requires iter <= maxIter
    ensures PixelStyle(iter, maxIter) == Black <==> iter == maxIter
    ensures PixelStyle(iter, maxIter).Hsl? ==> 0.0 <= PixelStyle(iter, maxIter).hue < 360.0
  {
    if iter < maxIter {
      assert iter as real / maxIter as real < 1.0;
    }
  }

  /** The count of pixel `(px, py)`, with the demo's strict test. */
  function PixelIters(px: nat, py: nat, maxIter: nat): (r: nat)
    ensures r <= maxIter
  {
    EscapeCount(Strict, Cx(px), Cy(py), maxIter)
  }

  /** The two calls painting pixel `(px, py)`. */
  function PixelCalls(px: nat, py: nat, maxIter: nat): seq<Cmd>
  {
    [SetFill(PixelStyle(PixelIters(px, py, maxIter), maxIter)), FillRect(px, py)]
  }

  /** The calls for the first `n` pixels of row `py`, left to right. */
  function RowCalls(py: nat, n: nat, maxIter: nat): seq<Cmd>
  {
    if n == 0 then [] else RowCalls(py, n - 1, maxIter) + PixelCalls(n - 1, py, maxIter)
  }

  /** The calls for the first `m` rows, top to bottom. */
  function ImageCalls(m: nat, maxIter: nat): seq<Cmd>
  {
    if m == 0 then [] else ImageCalls(m - 1, maxIter) + RowCalls(m - 1, Side, maxIter)
  }

  /** The iterations spent on the first `n` pixels of row `py`. */
  function RowIters(py: nat, n: nat, maxIter: nat): nat
  {
    if n == 0 then 0 else RowIters(py, n - 1, maxIter) + PixelIters(n - 1, py, maxIter)
  }

  /** The iterations spent on the first `m` rows. */
  function ImageIters(m: nat, maxIter: nat): nat
  {
    if m == 0 then 0 else ImageIters(m - 1, maxIter) + RowIters(m - 1, Side, maxIter)
  }

  /** `drawMandelbrot`: every pixel painted once, row by row, in the colour
      its count selects; the count returned is the total number of
      iterations. */
  method DrawMandelbrot(ctx: Context, maxIter: nat) returns (iterationsCount: nat)
    modifies ctx
    ensures ctx.log == old(ctx.log) + ImageCalls(Side, maxIter)
    ensures iterationsCount == ImageIters(Side, maxIter)
  {
    iterationsCount := 0;
    var py := 0;
    while py < Side
      invariant py <= Side
      invariant ctx.log == old(ctx.log) + ImageCalls(py, maxIter)
      invariant iterationsCount == ImageIters(py, maxIter)
    {
      ghost var rowStart, count0 := ctx.log, iterationsCount;
      var px := 0;
      while px < Side
        invariant px <= Side
        invariant ctx.log == rowStart + RowCalls(py, px, maxIter)
        invariant iterationsCount == count0 + RowIters(py, px, maxIter)
      {
        var cx := (px as real / Side as real) * 3.0 - 2.0;
        var cy := (py as real / Side as real) * 3.0 - 1.5;
        var iter := EscapeLoop(cx, cy, maxIter);
        iterationsCount := iterationsCount + iter;
        var style := if iter == maxIter then Black else Hsl(iter as real / maxIter as real * 360.0);
        ghost var l := ctx.log;
        ctx.log := ctx.log + [SetFill(style), FillRect(px, py)];
        AppendStep(rowStart, RowCalls(py, px, maxIter), PixelCalls(px, py, maxIter), l, ctx.log);
        px := px + 1;
      }
      AppendStep(old(ctx.log), ImageCalls(py, maxIter), RowCalls(py, Side, maxIter), rowStart, ctx.log);
      py := py + 1;
    }
  }

  /** The `while` loop for one pixel; each pass is one of the iterations
      `iterationsCount` counts. */
  method EscapeLoop(cx: real, cy: real, maxIter: nat) returns (iter: nat)
    ensures iter == EscapeCount(Strict, cx, cy, maxIter)
  {
    var x, y := 0.0, 0.0;
    iter := 0;
    while iter < maxIter && x * x + y * y < 4.0
      invariant iter <= maxIter
      invariant Orbit(Strict, x, y, cx, cy, iter, maxIter) == EscapeCount(Strict, cx, cy, maxIter)
      decreases maxIter - iter
    {
      var temp := x * x - y * y + cx;
      y := 2.0 * x * y + cy;
      x := temp;
      iter := iter + 1;
    }
  }

  /** Each pixel costs at most `maxIter` iterations, so the total is at
      most `720 * 720 * maxIter`. */
  lemma {:induction false} RowItersBound(py: nat, n: nat, maxIter: nat)
    ensures RowIters(py, n, maxIter) <= n * maxIter
  {
    if n > 0 {
      RowItersBound(py, n - 1, maxIter);
      assert (n - 1) * maxIter + maxIter == n * maxIter;
    }
  }

  lemma {:induction false} ImageItersBound(m: nat, maxIter: nat)
    ensures ImageIters(m, maxIter) <= m * (Side * maxIter)
  {
    if m > 0 {
      ImageItersBound(m - 1, maxIter);
      RowItersBound(m - 1, Side, maxIter);
      assert (m - 1) * (Side * maxIter) + Side * maxIter == m * (Side * maxIter);
    }
  }

  /** Pixel `px` of a row owns calls `2 * px` and `2 * px + 1` of the row. */
  lemma {:induction false} RowLayout(py: nat, n: nat, maxIter: nat, px: nat)
    requires px < n
    ensures |RowCalls(py, n, maxIter)| == 2 * n
    ensures RowCalls(py, n, maxIter)[2 * px..2 * px + 2] == PixelCalls(px, py, maxIter)
  {
    RowLength(py, n - 1, maxIter);
    if px < n - 1 {
      RowLayout(py, n - 1, maxIter, px);
      PrefixSlice(RowCalls(py, n - 1, maxIter), PixelCalls(n - 1, py, maxIter), 2 * px, 2 * px + 2);
    } else {
      assert RowCalls(py, n, maxIter)[2 * px..2 * px + 2] == PixelCalls(px, py, maxIter);
    }
  }

  lemma {:induction false} RowLength(py: nat, n: nat, maxIter: nat)
    ensures |RowCalls(py, n, maxIter)| == 2 * n
  {
    if n > 0 {
      RowLength(py, n - 1, maxIter);
    }
  }

  /** Pixel `(px, py)` owns the two calls at `2 * (py * 720 + px)` of the
      image: every pixel is painted exactly once, row by row. */
  lemma {:induction false} ImageLayout(m: nat, maxIter: nat, px: nat, py: nat)
    requires px < 720 && py < m
    ensures |ImageCalls(m, maxIter)| == 2 * 720 * m
    ensures var i := 2 * (py * 720 + px);
      ImageCalls(m, maxIter)[i..i + 2] == PixelCalls(px, py, maxIter)
  {
    var front, row := ImageCalls(m - 1, maxIter), RowCalls(m - 1, Side, maxIter);
    ImageLength(m - 1, maxIter);
    RowLayout(m - 1, Side, maxIter, px);
    if py < m - 1 {
      ImageLayout(m - 1, maxIter, px, py);
    }
    RowBlock(front, row, m, py, px, PixelCalls(px, py, maxIter));
  }

  /** The slice arithmetic of `ImageLayout`: the pixel lies in an earlier
      row, or in the row appended last. */
  lemma RowBlock(front: seq<Cmd>, row: seq<Cmd>, m: nat, py: nat, px: nat, x: seq<Cmd>)
    requires 1 <= m && py < m && px < 720
    requires |front| == 2 * 720 * (m - 1) && |row| == 2 * 720
    requires py < m - 1 ==> front[2 * (py * 720 + px)..2 * (py * 720 + px) + 2] == x
    requires py == m - 1 ==> row[2 * px..2 * px + 2] == x
    ensures (front + row)[2 * (py * 720 + px)..2 * (py * 720 + px) + 2] == x
  {
    var i := 2 * (py * 720 + px);
    if py < m - 1 {
      assert i + 2 <= |front|;
      PrefixSlice(front, row, i, i + 2);
    } else {
      assert i == |front| + 2 * px;
      SuffixSlice(front, row, 2 * px);
    }
  }

  lemma {:induction false} ImageLength(m: nat, maxIter: nat)
    ensures |ImageCalls(m, maxIter)| == 2 * 720 * m
  {
    if m > 0 {
      ImageLength(m - 1, maxIter);
      RowLength(m - 1, Side, maxIter);
    }
  }

  lemma PrefixSlice(a: seq<Cmd>, b: seq<Cmd>, lo: nat, hi: nat)
    requires lo <= hi <= |a|
    ensures (a + b)[lo..hi] == a[lo..hi]
  {
  }

  lemma SuffixSlice(a: seq<Cmd>, b: seq<Cmd>, k: nat)
    requires k + 2 <= |b|
    ensures (a + b)[|a| + k..|a| + k + 2] == b[k..k + 2]
  {
  }
}
