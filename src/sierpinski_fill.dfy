/** `sierpinski.ts`: the same subdivision drawn directly, recursively, each
    leaf triangle filled as its own closed path. */
module SierpinskiFill {
  import opened Geometry
  import opened DrawLog
  import opened SierpinskiSubdivide

  /** A base case's calls: the triangle's own closed path, filled. */
  function FillCalls(tri: Triangle): seq<Cmd>
  {
    [BeginPath, MoveTo(tri.a), LineTo(tri.b), LineTo(tri.c), ClosePath, Fill]
  }

  /** The context's log after `sierpinski(ctx, p1, p2, p3, n)` on a context
      holding `log`: the three corner children drawn in turn. */
  function FillLog(log: seq<Cmd>, p1: Point, p2: Point, p3: Point, n: nat): seq<Cmd>
    decreases n
  {
    if n == 0 then log + FillCalls(Triangle(p1, p2, p3))
    else
      var m1, m2, m3 := Midpoint(p1, p2), Midpoint(p2, p3), Midpoint(p3, p1);
      FillLog(FillLog(FillLog(log, p1, m1, m3, n - 1), m1, p2, m2, n - 1), m3, m2, p3, n - 1)
  }

  /** The fill calls of `tri`'s leaves after `n` subdivisions, child block
      by child block. */
  function LeafFills(tri: Triangle, n: nat): seq<Cmd>
    decreases n
  {
    if n == 0 then FillCalls(tri)
    else
      var c := Children(tri);
      LeafFills(c[0], n - 1) + LeafFills(c[1], n - 1) + LeafFills(c[2], n - 1)
  }

  /** The recursion appends the leaves' fill calls to the log. */
  lemma {:induction false} FillLogAppends(log: seq<Cmd>, p1: Point, p2: Point, p3: Point, n: nat)
    ensures FillLog(log, p1, p2, p3, n) == log + LeafFills(Triangle(p1, p2, p3), n)
    decreases n
  {
    if n > 0 {
      var m1, m2, m3 := Midpoint(p1, p2), Midpoint(p2, p3), Midpoint(p3, p1);
      var l1 := FillLog(log, p1, m1, m3, n - 1);
      var l2 := FillLog(l1, m1, p2, m2, n - 1);
      var c := Children(Triangle(p1, p2, p3));
      assert c == [Triangle(p1, m1, m3), Triangle(m1, p2, m2), Triangle(m3, m2, p3)];
      var f0, f1, f2 := LeafFills(c[0], n - 1), LeafFills(c[1], n - 1), LeafFills(c[2], n - 1);
      FillLogAppends(log, p1, m1, m3, n - 1);
      FillLogAppends(l1, m1, p2, m2, n - 1);
      FillLogAppends(l2, m3, m2, p3, n - 1);
      assert FillLog(log, p1, p2, p3, n) == log + f0 + f1 + f2;
    }
  }

  /** Those calls are the leaves of the subdivision filled in order. */
  lemma {:induction false} LeafFillsInOrder(tri: Triangle, n: nat)
    ensures LeafFills(tri, n) == EmitAll(FillCalls, Subdivide(tri, n))
    decreases n
  {
    if n == 0 {
      FillLogLeaf(tri);
    } else {
      var c, m := Children(tri), n - 1;
      LeafFillsInOrder(c[0], m);
      LeafFillsInOrder(c[1], m);
      LeafFillsInOrder(c[2], m);
      var s0, s1, s2 := Subdivide(c[0], m), Subdivide(c[1], m), Subdivide(c[2], m);
      assert Subdivide(tri, n) == s0 + s1 + s2;
      EmitAllAppend3(FillCalls, s0, s1, s2);
    }
  }

  /** The recursion fills exactly the leaves of the subdivision, in order. */
  lemma FillLogIsLeaves(log: seq<Cmd>, p1: Point, p2: Point, p3: Point, n: nat)
    ensures FillLog(log, p1, p2, p3, n) == log + EmitAll(FillCalls, Subdivide(Triangle(p1, p2, p3), n))
  {
    FillLogAppends(log, p1, p2, p3, n);
    LeafFillsInOrder(Triangle(p1, p2, p3), n);
  }

  /** `sierpinski(ctx, p1, p2, p3, depth)`: only the base cases touch the
      context, and they fill the leaves of the subdivision in order. */
  method Sierpinski(ctx: Context, p1: Point, p2: Point, p3: Point, depth: nat)
    modifies ctx
    ensures ctx.log == FillLog(old(ctx.log), p1, p2, p3, depth)
    decreases depth
  {
    if depth == 0 {
      ctx.log := ctx.log + [BeginPath, MoveTo(p1), LineTo(p2), LineTo(p3), ClosePath, Fill];
    } else {
      var mid1 := Point((p1.x + p2.x) / 2.0, (p1.y + p2.y) / 2.0);
      var mid2 := Point((p2.x + p3.x) / 2.0, (p2.y + p3.y) / 2.0);
      var mid3 := Point((p1.x + p3.x) / 2.0, (p1.y + p3.y) / 2.0);
      assert mid1 == Midpoint(p1, p2) && mid2 == Midpoint(p2, p3) && mid3 == Midpoint(p3, p1);
      Sierpinski(ctx, p1, mid1, mid3, depth - 1);
      Sierpinski(ctx, mid1, p2, mid2, depth - 1);
      Sierpinski(ctx, mid3, mid2, p3, depth - 1);
    }
  }

  lemma FillLogLeaf(tri: Triangle)
    ensures EmitAll(FillCalls, Subdivide(tri, 0)) == FillCalls(tri)
  {
    assert EmitAll(FillCalls, [tri]) == EmitAll(FillCalls, []) + FillCalls(tri);
  }

  /** One `fill()` per leaf: `3^depth` in all. */
  lemma FillCount(tri: Triangle, depth: nat)
    ensures Count(EmitAll(FillCalls, Subdivide(tri, depth)), Fill) == Pow(3, depth)
  {
    forall x ensures Count(FillCalls(x), Fill) == 1 {
      OneFill(x);
    }
    EmitAllCount(FillCalls, Subdivide(tri, depth), Fill, 1);
  }

  lemma OneFill(tri: Triangle)
    ensures Count(FillCalls(tri), Fill) == 1
  {
    var s := FillCalls(tri);
    assert s[5..] == [Fill] && s[5..][1..] == [];
    assert Count(s[5..], Fill) == 1;
    assert s[4..][1..] == s[5..];
    assert Count(s[4..], Fill) == 1;
    assert s[3..][1..] == s[4..];
    assert Count(s[3..], Fill) == 1;
    assert s[2..][1..] == s[3..];
    assert Count(s[2..], Fill) == 1;
    assert s[1..][1..] == s[2..];
    assert Count(s[1..], Fill) == 1;
  }

  const Size: real := 650.0
  const Center: real := 360.0

  /** `render`'s triangle: apex on top, base below, its centroid at the
      canvas centre. */
  function Outline(t: Trig): Triangle
  {
    var height := Size * t.sqrt(3.0) / 2.0;
    Triangle(Point(Center, Center - 2.0 * height / 3.0),
             Point(Center - Size / 2.0, Center + height / 3.0),
             Point(Center + Size / 2.0, Center + height / 3.0))
  }

  /** The outline's centroid is the centre, and its base is `Size` wide. */
  lemma OutlineShape(t: Trig)
    ensures var o := Outline(t);
      && (o.a.x + o.b.x + o.c.x) / 3.0 == Center && (o.a.y + o.b.y + o.c.y) / 3.0 == Center
      && o.c.x - o.b.x == Size && o.b.y == o.c.y
  {
  }

  /** `render(ctx, depth)`. */
  method Render(ctx: Context, t: Trig, depth: nat)
    modifies ctx
    ensures ctx.log == old(ctx.log) + EmitAll(FillCalls, Subdivide(Outline(t), depth))
  {
    var o := Outline(t);
    ghost var log0 := ctx.log;
    Sierpinski(ctx, o.a, o.b, o.c, depth);
    FillLogIsLeaves(log0, o.a, o.b, o.c, depth);
  }

  /** Each filled triangle has `1 / 4^depth` of the outline's area. */
  lemma FilledAreas(t: Trig, depth: nat)
    ensures AllArea(Subdivide(Outline(t), depth), Area2(Outline(t)) * RPow(0.25, depth))
  {
    LeafArea(Outline(t), depth);
  }
}
