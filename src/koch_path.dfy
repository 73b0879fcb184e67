/** The Koch snowflake of `koch.ts`: one continuous path, started at the
    triangle's left corner, whose every Koch step puts its peak on the side
    of the segment away from the triangle's centre. */
module KochPath {
  import opened Geometry
  import opened DrawLog
  import opened Grid
  import opened KochSubdivide

  /** `DEG60`, sixty degrees in radians. */
  function Deg60(t: Trig): real
  {
    t.pi / 3.0
  }

  /** `rot(vx, vy, ang)`: the vector turned by `ang`. */
  function Rot(t: Trig, vx: real, vy: real, ang: real): (r: Point)
    ensures t.cos(ang) == 1.0 && t.sin(ang) == 0.0 ==> r == Point(vx, vy)
  {
    var c, s := t.cos(ang), t.sin(ang);
    Point(vx * c - vy * s, vx * s + vy * c)
  }

  /** With a cosine and sine on the unit circle, turning keeps a vector's
      length. */
  lemma RotKeepsLength(t: Trig, vx: real, vy: real, ang: real)
    requires t.cos(ang) * t.cos(ang) + t.sin(ang) * t.sin(ang) == 1.0
    ensures D2(Rot(t, vx, vy, ang), Point(0.0, 0.0)) == vx * vx + vy * vy
  {
    var c, s := t.cos(ang), t.sin(ang);
    calc {
      D2(Rot(t, vx, vy, ang), Point(0.0, 0.0));
      (vx * c - vy * s) * (vx * c - vy * s) + (vx * s + vy * c) * (vx * s + vy * c);
      { Expand(vx, vy, c, s); }
      vx * vx * (c * c + s * s) + vy * vy * (c * c + s * s);
    }
  }

  lemma Expand(vx: real, vy: real, c: real, s: real)
    ensures (vx * c - vy * s) * (vx * c - vy * s) + (vx * s + vy * c) * (vx * s + vy * c)
         == vx * vx * (c * c + s * s) + vy * vy * (c * c + s * s)
  {
  }

  /** `d2` is a squared distance: never negative, the same both ways round,
      and zero from a point to itself. */
  lemma D2IsSquaredDistance(a: Point, b: Point)
    ensures D2(a, b) >= 0.0 && D2(a, b) == D2(b, a) && D2(a, a) == 0.0
  {
    var dx, dy := a.x - b.x, a.y - b.y;
    Square(dx);
    Square(dy);
    assert D2(b, a) == (-dx) * (-dx) + (-dy) * (-dy);
    assert (-dx) * (-dx) == dx * dx && (-dy) * (-dy) == dy * dy;
    assert D2(a, a) == 0.0 * 0.0 + 0.0 * 0.0;
  }

  lemma Square(x: real)
    ensures x * x >= 0.0
  {
    if x > 0.0 {
      assert x * x > 0.0;
    } else if x < 0.0 {
      assert x * x > 0.0;
    }
  }

  /** The candidate peak turned by `+DEG60` from the middle third. */
  function RaisedApex(t: Trig, p1: Point, p2: Point): Point
  {
    var q, r := Third(p1, p2), TwoThirds(p1, p2);
    var v := Rot(t, r.x - q.x, r.y - q.y, Deg60(t));
    Point(q.x + v.x, q.y + v.y)
  }

  /** The candidate peak turned by `-DEG60` from the middle third. */
  function LoweredApex(t: Trig, p1: Point, p2: Point): Point
  {
    var q, r := Third(p1, p2), TwoThirds(p1, p2);
    var v := Rot(t, r.x - q.x, r.y - q.y, -Deg60(t));
    Point(q.x + v.x, q.y + v.y)
  }

  /** The candidate farther from `center`; a tie goes to `s2`. */
  function ChooseApex(s1: Point, s2: Point, center: Point): Point
  {
    if D2(s1, center) > D2(s2, center) then s1 else s2
  }

  /** The chosen peak is one of the two candidates and never nearer the
      centre than the other; on a tie it is the `-DEG60` one. */
  lemma ChooseApexFarther(s1: Point, s2: Point, center: Point)
    ensures var s := ChooseApex(s1, s2, center);
      && (s == s1 || s == s2)
      && D2(s, center) >= D2(s1, center) && D2(s, center) >= D2(s2, center)
      && (D2(s1, center) == D2(s2, center) ==> s == s2)
      && (D2(s1, center) < D2(s2, center) ==> s == s2)
      && (D2(s1, center) > D2(s2, center) ==> s == s1)
  {
  }

  /** The peak `kochSegment` puts on `p1`–`p2`. */
  function Apex(t: Trig, center: Point, p1: Point, p2: Point): Point
  {
    ChooseApex(RaisedApex(t, p1, p2), LoweredApex(t, p1, p2), center)
  }

  /** The peak rule as a function of a segment's ends. */
  function AwayFrom(t: Trig, center: Point): (Point, Point) -> Point
  {
    (p, q) => Apex(t, center, p, q)
  }

  /** A segment drawn as a continuation of the current path. */
  function LineToEnd(s: Segment): seq<Cmd>
  {
    [LineTo(s.b)]
  }

  /** The `lineTo` calls `kochSegment(ctx, p1, p2, n, center)` makes: one
      to the end of each segment of the Koch subdivision of `p1`–`p2` whose
      peaks lie away from `center`, in order. */
  function PathLines(t: Trig, center: Point, p1: Point, p2: Point, n: nat): seq<Cmd>
  {
    EmitAll(LineToEnd, Subdivide(AwayFrom(t, center), p1, p2, n))
  }

  /** At level 0 the path continues straight to the segment's end. */
  lemma PathLinesBase(t: Trig, center: Point, p1: Point, p2: Point)
    ensures PathLines(t, center, p1, p2, 0) == [LineTo(p2)]
  {
    assert Subdivide(AwayFrom(t, center), p1, p2, 0) == [Segment(p1, p2)];
    assert EmitAll(LineToEnd, [Segment(p1, p2)]) == EmitAll(LineToEnd, []) + LineToEnd(Segment(p1, p2));
  }

  /** One `kochSegment` step: the calls for a segment are those for its
      four parts in turn. */
  lemma PathLinesSplit(t: Trig, center: Point, p1: Point, p2: Point, n: nat, q: Point, s: Point, r: Point)
    requires n >= 1 && q == Third(p1, p2) && s == Apex(t, center, p1, p2) && r == TwoThirds(p1, p2)
    ensures PathLines(t, center, p1, p2, n)
      == PathLines(t, center, p1, q, n - 1) + PathLines(t, center, q, s, n - 1)
         + PathLines(t, center, s, r, n - 1) + PathLines(t, center, r, p2, n - 1)
  {
    var peak := AwayFrom(t, center);
    var s0, s1 := Subdivide(peak, p1, q, n - 1), Subdivide(peak, q, s, n - 1);
    var s2, s3 := Subdivide(peak, s, r, n - 1), Subdivide(peak, r, p2, n - 1);
    assert peak(p1, p2) == s;
    assert Subdivide(peak, p1, p2, n) == s0 + s1 + s2 + s3;
    EmitAllAppend4(LineToEnd, s0, s1, s2, s3);
  }

  /** Continuing a path along segments draws a line to each one's end. */
  lemma {:induction false} LineToEnds(s: seq<Segment>)
    ensures |EmitAll(LineToEnd, s)| == |s|
    ensures forall i :: 0 <= i < |s| ==> EmitAll(LineToEnd, s)[i] == LineTo(s[i].b)
    decreases |s|
  {
    if s != [] {
      LineToEnds(s[..|s| - 1]);
    }
  }

  /** The pen, starting at `p1`, walks the Koch curve of `p1`–`p2`: the
      `i`-th `lineTo` reaches the end of the `i`-th segment, the segments
      join end to start, and the walk ends at `p2`. */
  lemma PathWalksCurve(t: Trig, center: Point, p1: Point, p2: Point, n: nat)
    ensures var s, l := Subdivide(AwayFrom(t, center), p1, p2, n), PathLines(t, center, p1, p2, n);
      && Chain(s, p1, p2) && |l| == |s|
      && forall i :: 0 <= i < |s| ==> l[i] == LineTo(s[i].b)
  {
    LineToEnds(Subdivide(AwayFrom(t, center), p1, p2, n));
    SubdivideChains(AwayFrom(t, center), p1, p2, n);
  }

  /** `kochSegment(ctx, p1, p2, depth, center)`: the level-0 case continues
      the path to `p2`; a step cuts the segment at its thirds, picks the
      peak away from the centre, and recurses on the four parts. */
  method KochSegment(ctx: Context, t: Trig, p1: Point, p2: Point, depth: nat, center: Point)
    modifies ctx
    ensures ctx.log == old(ctx.log) + PathLines(t, center, p1, p2, depth)
    decreases depth
  {
    if depth == 0 {
      ctx.log := ctx.log + [LineTo(p2)];
      PathLinesBase(t, center, p1, p2);
      return;
    }
    var q, s, r := StepPoints(t, p1, p2, center);
    var d := depth - 1;
    ghost var l0 := ctx.log;
    KochSegment(ctx, t, p1, q, d, center);
    ghost var l1 := ctx.log;
    KochSegment(ctx, t, q, s, d, center);
    ghost var l2 := ctx.log;
    KochSegment(ctx, t, s, r, d, center);
    ghost var l3 := ctx.log;
    KochSegment(ctx, t, r, p2, d, center);
    PathLinesSplit(t, center, p1, p2, depth, q, s, r);
    FourAppends(l0, l1, l2, l3, ctx.log,
      PathLines(t, center, p1, q, depth - 1), PathLines(t, center, q, s, depth - 1),
      PathLines(t, center, s, r, depth - 1), PathLines(t, center, r, p2, depth - 1));
  }

  /** The cut points and the peak of one `kochSegment` step: the thirds of
      `p1`–`p2`, and the middle third turned both ways by sixty degrees,
      keeping the candidate farther from `center`. */
  method StepPoints(t: Trig, p1: Point, p2: Point, center: Point) returns (q: Point, s: Point, r: Point)
    ensures q == Third(p1, p2) && r == TwoThirds(p1, p2)
    ensures s == Apex(t, center, p1, p2)
  {
    var dx := (p2.x - p1.x) / 3.0;
    var dy := (p2.y - p1.y) / 3.0;
    q := Point(p1.x + dx, p1.y + dy);
    r := Point(p1.x + 2.0 * dx, p1.y + 2.0 * dy);
    var vx := r.x - q.x;
    var vy := r.y - q.y;
    var rp := Rot(t, vx, vy, Deg60(t));
    var rn := Rot(t, vx, vy, -Deg60(t));
    var s1 := Point(q.x + rp.x, q.y + rp.y);
    var s2 := Point(q.x + rn.x, q.y + rn.y);
    s := if D2(s1, center) > D2(s2, center) then s1 else s2;
    assert s1 == RaisedApex(t, p1, p2) && s2 == LoweredApex(t, p1, p2);
  }

  /** The snowflake's side: the smaller canvas dimension less an 8% margin
      on each side, never negative. */
  function Size(w: real, h: real): (r: real)
    ensures r >= 0.0
    ensures MinR(w, h) >= 0.0 ==> r == 0.84 * MinR(w, h)
    ensures MinR(w, h) < 0.0 ==> r == 0.0
  {
    var margin := MinR(w, h) * 0.08;
    var usable := MinR(w, h) - 2.0 * margin;
    if usable >= 0.0 then usable else 0.0
  }

  /** The triangle's height for a side of `size`. */
  function Height(t: Trig, size: real): real
  {
    (size * t.sqrt(3.0)) / 2.0
  }

  /** `pLeft`, `pRight` and `pTop` for a canvas of `w` by `h`. */
  function Corners(t: Trig, w: real, h: real): (Point, Point, Point)
  {
    var size := Size(w, h);
    var height := Height(t, size);
    var cx, cy := w / 2.0, h / 2.0;
    (Point(cx - size / 2.0, cy + height / 2.0),
     Point(cx + size / 2.0, cy + height / 2.0),
     Point(cx, cy - height / 2.0))
  }

  /** With a square root of 3 that squares to 3, the corners make an
      equilateral triangle of side `Size(w, h)`, and `pTop` lies above the
      middle of the base. */
  lemma CornersEquilateral(t: Trig, w: real, h: real)
    requires t.sqrt(3.0) * t.sqrt(3.0) == 3.0
    ensures var (l, r, top) := Corners(t, w, h); var size := Size(w, h);
      && l.y == r.y && top.x == (l.x + r.x) / 2.0
      && D2(l, r) == size * size && D2(r, top) == size * size && D2(top, l) == size * size
  {
    var size := Size(w, h);
    HeightSquared(size, t.sqrt(3.0));
    Equilateral(w / 2.0, h / 2.0, size, Height(t, size));
  }

  lemma HeightSquared(size: real, s3: real)
    requires s3 * s3 == 3.0
    ensures ((size * s3) / 2.0) * ((size * s3) / 2.0) == 3.0 * (size * size) / 4.0
  {
    assert (size * s3) * (size * s3) == (size * size) * (s3 * s3);
  }

  /** A base of `size` centred under an apex `height` above it, with
      `height² = 3/4 size²`, gives three sides of length `size`. */
  lemma Equilateral(cx: real, cy: real, size: real, height: real)
    requires height * height == 3.0 * (size * size) / 4.0
    ensures var l, r := Point(cx - size / 2.0, cy + height / 2.0), Point(cx + size / 2.0, cy + height / 2.0);
      var top := Point(cx, cy - height / 2.0);
      D2(l, r) == size * size && D2(r, top) == size * size && D2(top, l) == size * size
  {
    var l, r := Point(cx - size / 2.0, cy + height / 2.0), Point(cx + size / 2.0, cy + height / 2.0);
    var top := Point(cx, cy - height / 2.0);
    assert l.x - r.x == -size && r.x - top.x == size / 2.0 && top.x - l.x == size / 2.0;
    assert r.y - top.y == height && top.y - l.y == -height;
    assert (size / 2.0) * (size / 2.0) == (size * size) / 4.0;
  }

  /** The calls `render(ctx, depth)` makes on a canvas of `w` by `h` CSS
      pixels. */
  function RenderCalls(t: Trig, w: real, h: real, depth: nat): seq<Cmd>
  {
    var (l, r, top) := Corners(t, w, h);
    var center := Point(w / 2.0, h / 2.0);
    [BeginPath, MoveTo(l)]
    + PathLines(t, center, l, r, depth) + PathLines(t, center, r, top, depth)
    + PathLines(t, center, top, l, depth)
    + [ClosePath, Stroke]
  }

  /** `render(ctx, depth)`; the backing store's size and the pixel ratio
      are parameters. */
  method Render(ctx: Context, t: Trig, pixelWidth: real, pixelHeight: real, dpr: real, depth: nat)
    modifies ctx
    ensures ctx.log == old(ctx.log) + RenderCalls(t, pixelWidth / PixelRatio(dpr), pixelHeight / PixelRatio(dpr), depth)
  {
    var ratio := PixelRatio(dpr);
    var canvasWidth := pixelWidth / ratio;
    var canvasHeight := pixelHeight / ratio;
    var margin := MinR(canvasWidth, canvasHeight) * 0.08;
    var usable := MinR(canvasWidth, canvasHeight) - 2.0 * margin;
    var size := if usable >= 0.0 then usable else 0.0;
    var centerX := canvasWidth / 2.0;
    var centerY := canvasHeight / 2.0;
    var height := (size * t.sqrt(3.0)) / 2.0;
    var pLeft := Point(centerX - size / 2.0, centerY + height / 2.0);
    var pRight := Point(centerX + size / 2.0, centerY + height / 2.0);
    var pTop := Point(centerX, centerY - height / 2.0);
    var center := Point(centerX, centerY);
    assert (pLeft, pRight, pTop) == Corners(t, canvasWidth, canvasHeight);
    ghost var a, b, d := PathLines(t, center, pLeft, pRight, depth), PathLines(t, center, pRight, pTop, depth),
      PathLines(t, center, pTop, pLeft, depth);
    ghost var l0 := ctx.log;
    ctx.log := ctx.log + [BeginPath, MoveTo(pLeft)];
    ghost var l1 := ctx.log;
    KochSegment(ctx, t, pLeft, pRight, depth, center);
    ghost var l2 := ctx.log;
    KochSegment(ctx, t, pRight, pTop, depth, center);
    ghost var l3 := ctx.log;
    KochSegment(ctx, t, pTop, pLeft, depth, center);
    ghost var l4 := ctx.log;
    ctx.log := ctx.log + [ClosePath, Stroke];
    FourAppends(l0, l1, l2, l3, l4, [BeginPath, MoveTo(pLeft)], a, b, d);
    AppendStep(l0, [BeginPath, MoveTo(pLeft)] + a + b + d, [ClosePath, Stroke], l4, ctx.log);
    RenderCallsAt(t, canvasWidth, canvasHeight, depth, pLeft, pRight, pTop, center);
  }

  /** `RenderCalls` for corners and centre already computed. */
  lemma RenderCallsAt(t: Trig, w: real, h: real, depth: nat, l: Point, r: Point, top: Point, center: Point)
    requires (l, r, top) == Corners(t, w, h) && center == Point(w / 2.0, h / 2.0)
    ensures RenderCalls(t, w, h, depth)
      == ([BeginPath, MoveTo(l)] + PathLines(t, center, l, r, depth) + PathLines(t, center, r, top, depth)
          + PathLines(t, center, top, l, depth)) + [ClosePath, Stroke]
  {
  }

  /** The triangle's sides in drawing order: `pLeft` to `pRight` to `pTop`
      and back to `pLeft`. */
  function Sides(t: Trig, w: real, h: real): seq<Segment>
  {
    var (l, r, top) := Corners(t, w, h);
    [Segment(l, r), Segment(r, top), Segment(top, l)]
  }

  /** The outline is one closed path along the Koch snowflake: it opens and
      moves to `pLeft`, then its `i`-th `lineTo` reaches the end of the
      `i`-th segment of the three subdivided sides, which join end to start
      from `pLeft` back to `pLeft`; then it closes and strokes the path once. */
  lemma RenderTracesSnowflake(t: Trig, w: real, h: real, depth: nat)
    ensures var c, l := RenderCalls(t, w, h, depth), Corners(t, w, h).0;
      var s := SubdivideEach(AwayFrom(t, Point(w / 2.0, h / 2.0)), Sides(t, w, h), depth);
      && |s| == 3 * Pow(4, depth) && |c| == |s| + 4
      && c[0] == BeginPath && c[1] == MoveTo(l)
      && Chain(s, l, l)
      && (forall i :: 0 <= i < |s| ==> c[i + 2] == LineTo(s[i].b))
      && c[|s| + 2] == ClosePath && c[|s| + 3] == Stroke
  {
    var (l, r, top) := Corners(t, w, h);
    var c := Point(w / 2.0, h / 2.0);
    var peak := AwayFrom(t, c);
    var sides := Sides(t, w, h);
    var s0, s1, s2 := Subdivide(peak, l, r, depth), Subdivide(peak, r, top, depth), Subdivide(peak, top, l, depth);
    PathWalksCurve(t, c, l, r, depth);
    PathWalksCurve(t, c, r, top, depth);
    PathWalksCurve(t, c, top, l, depth);
    SubdivideEachThree(peak, sides, depth);
    ChainAppend(s0, s1, l, r, top);
    ChainAppend(s0 + s1, s2, l, top, l);
    OutlineParts([BeginPath, MoveTo(l)], PathLines(t, c, l, r, depth), PathLines(t, c, r, top, depth),
      PathLines(t, c, top, l, depth), [ClosePath, Stroke], s0, s1, s2);
  }

  lemma OutlineParts(head: seq<Cmd>, a: seq<Cmd>, b: seq<Cmd>, d: seq<Cmd>, tail: seq<Cmd>,
                     s0: seq<Segment>, s1: seq<Segment>, s2: seq<Segment>)
    requires |head| == 2 && |tail| == 2 && |a| == |s0| && |b| == |s1| && |d| == |s2|
    requires forall i :: 0 <= i < |s0| ==> a[i] == LineTo(s0[i].b)
    requires forall i :: 0 <= i < |s1| ==> b[i] == LineTo(s1[i].b)
    requires forall i :: 0 <= i < |s2| ==> d[i] == LineTo(s2[i].b)
    ensures var c, s := head + a + b + d + tail, s0 + s1 + s2;
      && |c| == |s| + 4 && c[0] == head[0] && c[1] == head[1]
      && c[|s| + 2] == tail[0] && c[|s| + 3] == tail[1]
      && forall i :: 0 <= i < |s| ==> c[i + 2] == LineTo(s[i].b)
  {
    var c, s := head + a + b + d + tail, s0 + s1 + s2;
    forall i | 0 <= i < |s| ensures c[i + 2] == LineTo(s[i].b) {
      if i < |s0| {
        assert c[i + 2] == a[i] && s[i] == s0[i];
      } else if i < |s0| + |s1| {
        assert c[i + 2] == b[i - |s0|] && s[i] == s1[i - |s0|];
      } else {
        assert c[i + 2] == d[i - |s0| - |s1|] && s[i] == s2[i - |s0| - |s1|];
      }
    }
  }
}
