/** `pythagoras.ts`: the Pythagoras tree, drawn straight onto the context
    square by square, each square carrying two smaller ones on its top. */
module Pythagoras {
  import opened Geometry
  import opened DrawLog
  import opened Grid

  /** What `drawSquare` computes from a square's base `p1`–`p2`: the top
      corners `p3` (above `p2`) and `p4` (above `p1`), and the outer
      corners `leftTop` and `rightTop` of the two children's bases. */
  datatype Top = Top(p3: Point, p4: Point, leftTop: Point, rightTop: Point)

  /** `(perpX, perpY)`: the base vector `p1`–`p2` turned a quarter turn. */
  function Perp(p1: Point, p2: Point): Point
  {
    Point(-(p2.y - p1.y), p2.x - p1.x)
  }

  /** `p + v`. */
  function Shift(p: Point, v: Point): Point
  {
    Point(p.x + v.x, p.y + v.y)
  }

  /** The offset from the square's top corners to the children's outer
      corners: half the side's length, in the direction
      `atan2(dy, dx) - PI/2`. */
  function Lift(t: Trig, p1: Point, p2: Point): Point
  {
    var dx, dy := p2.x - p1.x, p2.y - p1.y;
    var angle := t.atan2(dy, dx);
    var height := t.sqrt(D2(p2, p1)) * 0.5;
    Point(height * t.cos(angle - t.pi / 2.0), height * t.sin(angle - t.pi / 2.0))
  }

  /** The corners `drawSquare` places on the base `p1`–`p2`. */
  function SquareTop(t: Trig, p1: Point, p2: Point): Top
  {
    var v := Perp(p1, p2);
    var p3, p4 := Shift(p2, v), Shift(p1, v);
    var off := Lift(t, p1, p2);
    Top(p3, p4, Shift(p4, off), Shift(p3, off))
  }

  /** `drawSquare`'s placing rule as a value, for the tree below. */
  function TopRule(t: Trig): (Point, Point) -> Top
  {
    (a, b) => SquareTop(t, a, b)
  }

  /** One square's calls: the closed path `p1`, `p2`, `p3`, `p4`, stroked. */
  function SquareCalls(p1: Point, p2: Point, p3: Point, p4: Point): seq<Cmd>
  {
    [BeginPath, MoveTo(p1), LineTo(p2), LineTo(p3), LineTo(p4), ClosePath, Stroke]
  }

  /** The calls `drawSquare(ctx, p1, p2, depth)` makes when its corners are
      placed by `top`: its own square, then the tree on the base from `p4`
      to `leftTop`, then the tree on the base from `rightTop` to `p3`. The
      counting lemmas below hold whatever the placing rule. */
  function TreeCalls(top: (Point, Point) -> Top, p1: Point, p2: Point, depth: nat): seq<Cmd>
    decreases depth
  {
    if depth == 0 then []
    else
      var k := top(p1, p2);
      SquareCalls(p1, p2, k.p3, k.p4)
      + TreeCalls(top, k.p4, k.leftTop, depth - 1)
      + TreeCalls(top, k.rightTop, k.p3, depth - 1)
  }

  /** `p1`, `p2`, `p3`, `p4` is a square: the sides at `p1` and `p2` are
      the same vector, perpendicular to the base, and every side is as long
      as the base. */
  lemma IsSquare(t: Trig, p1: Point, p2: Point)
    ensures var k, dx, dy := SquareTop(t, p1, p2), p2.x - p1.x, p2.y - p1.y;
      && k.p3.x - p2.x == k.p4.x - p1.x && k.p3.y - p2.y == k.p4.y - p1.y
      && (k.p4.x - p1.x) * dx + (k.p4.y - p1.y) * dy == 0.0
      && D2(p1, k.p4) == D2(p1, p2) && D2(p2, k.p3) == D2(p1, p2) && D2(k.p4, k.p3) == D2(p1, p2)
  {
    var dx, dy := p2.x - p1.x, p2.y - p1.y;
    var k := SquareTop(t, p1, p2);
    assert k.p4.x - p1.x == -dy && k.p4.y - p1.y == dx;
    assert k.p3.x - k.p4.x == dx && k.p3.y - k.p4.y == dy;
    assert D2(p1, k.p4) == (-(-dy)) * (-(-dy)) + (-dx) * (-dx);
    assert D2(p1, p2) == (-dx) * (-dx) + (-dy) * (-dy);
    assert D2(k.p4, k.p3) == (-dx) * (-dx) + (-dy) * (-dy);
  }

  /** Both children's bases leave the top by the same offset, and that
      offset is half the side long, provided `cos` and `sin` of its
      direction lie on the unit circle and `sqrt` is the square root of the
      squared side. */
  lemma HalfSide(t: Trig, p1: Point, p2: Point)
    requires var dx, dy := p2.x - p1.x, p2.y - p1.y;
      var a := t.atan2(dy, dx) - t.pi / 2.0;
      t.cos(a) * t.cos(a) + t.sin(a) * t.sin(a) == 1.0
    requires t.sqrt(D2(p2, p1)) * t.sqrt(D2(p2, p1)) == D2(p2, p1)
    ensures var k := SquareTop(t, p1, p2);
      var ox, oy := k.leftTop.x - k.p4.x, k.leftTop.y - k.p4.y;
      && k.rightTop.x - k.p3.x == ox && k.rightTop.y - k.p3.y == oy
      && 4.0 * (ox * ox + oy * oy) == D2(p2, p1)
  {
    var dx, dy := p2.x - p1.x, p2.y - p1.y;
    var a := t.atan2(dy, dx) - t.pi / 2.0;
    var len := t.sqrt(D2(p2, p1));
    var off := Lift(t, p1, p2);
    OnCircle(len * 0.5, t.cos(a), t.sin(a));
    Quarter(len, D2(p2, p1));
    assert 4.0 * (off.x * off.x + off.y * off.y) == D2(p2, p1);
  }

  lemma OnCircle(h: real, c: real, s: real)
    requires c * c + s * s == 1.0
    ensures (h * c) * (h * c) + (h * s) * (h * s) == h * h
  {
    calc {
      (h * c) * (h * c) + (h * s) * (h * s);
      h * h * (c * c + s * s);
      h * h;
    }
  }

  lemma Quarter(len: real, sq: real)
    requires len * len == sq
    ensures 4.0 * ((len * 0.5) * (len * 0.5)) == sq
  {
  }

  lemma SquareCounts(p1: Point, p2: Point, p3: Point, p4: Point, c: Cmd)
    requires c == Stroke || c == BeginPath
    ensures Count(SquareCalls(p1, p2, p3, p4), c) == 1
  {
    var a := SquareCalls(p1, p2, p3, p4);
    assert Count(a[7..], c) == 0;
    assert Count(a[6..], c) == (if c == Stroke then 1 else 0);
    assert Count(a[5..], c) == Count(a[6..], c);
    assert Count(a[4..], c) == Count(a[5..], c);
    assert Count(a[3..], c) == Count(a[4..], c);
    assert Count(a[2..], c) == Count(a[3..], c);
    assert Count(a[1..], c) == Count(a[2..], c);
    assert a == a[0..];
  }

  /** A tree of depth `n` strokes `2^n - 1` squares, one path each. */
  lemma {:induction false} TreeCount(top: (Point, Point) -> Top, p1: Point, p2: Point, n: nat, c: Cmd)
    requires c == Stroke || c == BeginPath
    ensures Count(TreeCalls(top, p1, p2, n), c) == Pow(2, n) - 1
    decreases n
  {
    if n > 0 {
      var k := top(p1, p2);
      TreeCount(top, k.p4, k.leftTop, n - 1, c);
      TreeCount(top, k.rightTop, k.p3, n - 1, c);
      SquareCounts(p1, p2, k.p3, k.p4, c);
      CountThree(SquareCalls(p1, p2, k.p3, k.p4), TreeCalls(top, k.p4, k.leftTop, n - 1), TreeCalls(top, k.rightTop, k.p3, n - 1), c);
    }
  }

  /** Every square takes seven calls, and depth 0 draws nothing. */
  lemma {:induction false} TreeLength(top: (Point, Point) -> Top, p1: Point, p2: Point, n: nat)
    ensures |TreeCalls(top, p1, p2, n)| == 7 * (Pow(2, n) - 1)
    decreases n
  {
    if n > 0 {
      var k := top(p1, p2);
      TreeLength(top, k.p4, k.leftTop, n - 1);
      TreeLength(top, k.rightTop, k.p3, n - 1);
    }
  }

  /** Each square is followed by its two subtrees: first the left one, on
      the base from `p4` to `leftTop`, then the right one, on the base from
      `rightTop` to `p3`, each `7 * (2^(n-1) - 1)` calls long. */
  lemma Children(top: (Point, Point) -> Top, p1: Point, p2: Point, n: nat)
    requires n >= 1
    ensures var r, k, m := TreeCalls(top, p1, p2, n), top(p1, p2), 7 * (Pow(2, n - 1) - 1);
      && |r| == 7 + 2 * m
      && r[..7] == SquareCalls(p1, p2, k.p3, k.p4)
      && r[7..7 + m] == TreeCalls(top, k.p4, k.leftTop, n - 1)
      && r[7 + m..] == TreeCalls(top, k.rightTop, k.p3, n - 1)
  {
    var k := top(p1, p2);
    var a, b, c := SquareCalls(p1, p2, k.p3, k.p4), TreeCalls(top, k.p4, k.leftTop, n - 1), TreeCalls(top, k.rightTop, k.p3, n - 1);
    TreeLength(top, k.p4, k.leftTop, n - 1);
    TreeLength(top, k.rightTop, k.p3, n - 1);
    Slices(a, b, c);
  }

  lemma Slices(a: seq<Cmd>, b: seq<Cmd>, c: seq<Cmd>)
    ensures var r := a + b + c;
      r[..|a|] == a && r[|a|..|a| + |b|] == b && r[|a| + |b|..] == c
  {
  }

  /** The corners `drawSquare` computes from its base. */
  method Corners(t: Trig, p1: Point, p2: Point) returns (k: Top)
    ensures k == TopRule(t)(p1, p2)
  {
    var dx := p2.x - p1.x;
    var dy := p2.y - p1.y;
    var perpX := -dy;
    var perpY := dx;
    var p3 := Point(p2.x + perpX, p2.y + perpY);
    var p4 := Point(p1.x + perpX, p1.y + perpY);
    var off := Lift(t, p1, p2);
    var leftTop := Point(p4.x + off.x, p4.y + off.y);
    var rightTop := Point(p3.x + off.x, p3.y + off.y);
    k := Top(p3, p4, leftTop, rightTop);
  }

  /** `drawSquare(ctx, p1, p2, depth)`. */
  method DrawSquare(ctx: Context, t: Trig, p1: Point, p2: Point, depth: nat)
    modifies ctx
    ensures ctx.log == old(ctx.log) + TreeCalls(TopRule(t), p1, p2, depth)
    decreases depth
  {
    if depth == 0 {
      return;
    }
    var k := Corners(t, p1, p2);
    ctx.log := ctx.log + [BeginPath, MoveTo(p1), LineTo(p2), LineTo(k.p3), LineTo(k.p4), ClosePath, Stroke];
    var d := depth - 1;
    ghost var l1 := ctx.log;
    DrawSquare(ctx, t, k.p4, k.leftTop, d);
    ghost var l2 := ctx.log;
    DrawSquare(ctx, t, k.rightTop, k.p3, d);
    ThreeAppends(old(ctx.log), l1, l2, ctx.log, SquareCalls(p1, p2, k.p3, k.p4),
      TreeCalls(TopRule(t), k.p4, k.leftTop, d), TreeCalls(TopRule(t), k.rightTop, k.p3, d));
  }

  /** The tree's first base, centred on the canvas near its bottom: a
      margin of 6% of the smaller side below it, and a length of 22% of the
      smaller side but never under 10. */
  function Base(w: real, h: real): (Point, Point)
  {
    var margin := MinR(w, h) * 0.06;
    var baseLength := if MinR(w, h) * 0.22 >= 10.0 then MinR(w, h) * 0.22 else 10.0;
    var baseY := h - margin;
    var centerX := w / 2.0;
    (Point(centerX - baseLength / 2.0, baseY), Point(centerX + baseLength / 2.0, baseY))
  }

  /** The base is level, centred, at least 10 long, runs left to right and
      sits a margin above the bottom edge. */
  lemma BaseLevel(w: real, h: real)
    ensures var (l, r) := Base(w, h);
      && l.y == r.y == h - MinR(w, h) * 0.06
      && l.x + r.x == w && r.x - l.x >= 10.0
      && r.x - l.x == (if MinR(w, h) * 0.22 >= 10.0 then MinR(w, h) * 0.22 else 10.0)
  {
  }

  /** `render(ctx, depth)`; the backing store's size and the pixel ratio
      are parameters. Depth 0 draws nothing. */
  method Render(ctx: Context, t: Trig, pixelWidth: real, pixelHeight: real, dpr: real, depth: nat)
    modifies ctx
    ensures var (l, r) := Base(pixelWidth / PixelRatio(dpr), pixelHeight / PixelRatio(dpr));
      ctx.log == old(ctx.log) + TreeCalls(TopRule(t), l, r, depth)
  {
    if depth == 0 {
      return;
    }
    var ratio := PixelRatio(dpr);
    var canvasWidth := pixelWidth / ratio;
    var canvasHeight := pixelHeight / ratio;
    var margin := MinR(canvasWidth, canvasHeight) * 0.06;
    var baseLength := if MinR(canvasWidth, canvasHeight) * 0.22 >= 10.0 then MinR(canvasWidth, canvasHeight) * 0.22 else 10.0;
    var baseY := canvasHeight - margin;
    var centerX := canvasWidth / 2.0;
    var bottomLeft := Point(centerX - baseLength / 2.0, baseY);
    var bottomRight := Point(centerX + baseLength / 2.0, baseY);
    assert (bottomLeft, bottomRight) == Base(canvasWidth, canvasHeight);
    DrawSquare(ctx, t, bottomLeft, bottomRight, depth);
  }
}
