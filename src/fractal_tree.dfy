/** `fractalTree.ts`: a binary tree of branches, generated in pre-order,
    fitted and drawn with a fresh path per tick. */
module FractalTree {
  import opened Wrappers
  import opened Geometry
  import opened DrawLog
  import opened Canvas
  import opened Chunked

  /** Where a branch from `from` of length `len` in direction `dir` ends;
      the canvas' y axis points down, hence the minus. */
  function Tip(t: Trig, from: Point, len: real, dir: real): Point
  {
    Point(from.x + t.cos(dir) * len, from.y - t.sin(dir) * len)
  }

  /** `len * shrink^k`, the length of a branch `k` levels below one of
      length `len`. */
  function Scaled(len: real, shrink: real, k: nat): real
  {
    len * RPow(shrink, k)
  }

  /** `branch(x, y, len, dir, n)`: the segments it pushes, in push order. */
  function Branch(t: Trig, angle: real, shrink: real, from: Point, len: real, dir: real, n: nat): seq<Segment>
    decreases n
  {
    var tip := Tip(t, from, len, dir);
    if n == 0 then [Segment(from, tip)]
    else
      [Segment(from, tip)]
      + Branch(t, angle, shrink, tip, len * shrink, dir + angle, n - 1)
      + Branch(t, angle, shrink, tip, len * shrink, dir - angle, n - 1)
  }

  /** `generateTree(depth, angle, shrink)`: the trunk grows straight up
      from the origin with length 1. */
  function GenerateTree(t: Trig, depth: nat, angle: real, shrink: real): seq<Segment>
  {
    Branch(t, angle, shrink, Point(0.0, 0.0), 1.0, t.pi / 2.0, depth)
  }

  /** The default spread, `Math.PI / 6`. */
  function DefaultAngle(t: Trig): real
  {
    t.pi / 6.0
  }

  /** The default shrink factor. */
  const DefaultShrink: real := 0.67

  /** A branch call of depth `n` pushes `2^(n+1) - 1` segments. */
  lemma {:induction false} BranchCount(t: Trig, angle: real, shrink: real, from: Point, len: real, dir: real, n: nat)
    ensures |Branch(t, angle, shrink, from, len, dir, n)| == Pow(2, n + 1) - 1
    decreases n
  {
    if n > 0 {
      var tip := Tip(t, from, len, dir);
      BranchCount(t, angle, shrink, tip, len * shrink, dir + angle, n - 1);
      BranchCount(t, angle, shrink, tip, len * shrink, dir - angle, n - 1);
    }
  }

  /** Pre-order: the branch itself comes first, then the whole subtree
      turned by `+angle`, then the whole subtree turned by `-angle`; both
      subtrees start at the branch's tip with `len * shrink`. */
  lemma PreOrder(t: Trig, angle: real, shrink: real, from: Point, len: real, dir: real, n: nat)
    requires n >= 1
    ensures var r, tip, k := Branch(t, angle, shrink, from, len, dir, n), Tip(t, from, len, dir), Pow(2, n);
      && |r| == 2 * k - 1
      && r[0] == Segment(from, tip)
      && r[1..k] == Branch(t, angle, shrink, tip, len * shrink, dir + angle, n - 1)
      && r[k..] == Branch(t, angle, shrink, tip, len * shrink, dir - angle, n - 1)
  {
    var tip := Tip(t, from, len, dir);
    BranchCount(t, angle, shrink, from, len, dir, n);
    BranchCount(t, angle, shrink, tip, len * shrink, dir + angle, n - 1);
  }

  /** Segment `i` starts where an earlier one ends. */
  ghost predicate StartsAtEarlierEnd(r: seq<Segment>, i: nat)
    requires i < |r|
  {
    exists j :: 0 <= j < i && r[j].b == r[i].a
  }

  /** Every segment but the first starts where an earlier one ends. */
  ghost predicate Linked(r: seq<Segment>)
  {
    forall i :: 1 <= i < |r| ==> StartsAtEarlierEnd(r, i)
  }

  /** Every branch but the first starts where an earlier one ends: the tree
      is connected and each child is pushed after its parent. */
  lemma {:induction false} Connected(t: Trig, angle: real, shrink: real, from: Point, len: real, dir: real, n: nat)
    ensures var r := Branch(t, angle, shrink, from, len, dir, n);
      r[0].a == from && Linked(r)
    decreases n
  {
    if n > 0 {
      var tip, ls := Tip(t, from, len, dir), len * shrink;
      Connected(t, angle, shrink, tip, ls, dir + angle, n - 1);
      Connected(t, angle, shrink, tip, ls, dir - angle, n - 1);
      ConnectedJoin(Segment(from, tip), Branch(t, angle, shrink, tip, ls, dir + angle, n - 1),
        Branch(t, angle, shrink, tip, ls, dir - angle, n - 1));
    }
  }

  /** A root followed by two linked lists that both start at its end is
      linked. */
  lemma ConnectedJoin(root: Segment, left: seq<Segment>, right: seq<Segment>)
    requires |left| >= 1 && left[0].a == root.b && Linked(left)
    requires |right| >= 1 && right[0].a == root.b && Linked(right)
    ensures Linked([root] + left + right)
  {
    var r := [root] + left + right;
    var m := 1 + |left|;
    forall i | 1 <= i < |r|
      ensures StartsAtEarlierEnd(r, i)
    {
      if i == 1 || i == m {
        assert r[0].b == r[i].a;
      } else if i < m {
        assert r[i] == left[i - 1];
        assert StartsAtEarlierEnd(left, i - 1);
        var j :| 0 <= j < i - 1 && left[j].b == left[i - 1].a;
        assert r[j + 1] == left[j];
      } else {
        assert r[i] == right[i - m];
        assert StartsAtEarlierEnd(right, i - m);
        var j :| 0 <= j < i - m && right[j].b == right[i - m].a;
        assert r[j + m] == right[j];
      }
    }
  }

  /** `s` runs from its start to the tip of a branch of length
      `len * shrink^k`, for some level `k` no deeper than `n`. */
  ghost predicate Grown(t: Trig, s: Segment, len: real, shrink: real, n: nat)
  {
    exists k: nat, d: real :: k <= n && s.b == Tip(t, s.a, Scaled(len, shrink, k), d)
  }

  /** Every branch is a branch of length `len * shrink^k` for a level `k`
      no deeper than `n`. */
  lemma {:induction false} Lengths(t: Trig, angle: real, shrink: real, from: Point, len: real, dir: real, n: nat)
    ensures var r := Branch(t, angle, shrink, from, len, dir, n);
      forall i :: 0 <= i < |r| ==> Grown(t, r[i], len, shrink, n)
    decreases n
  {
    var r, tip := Branch(t, angle, shrink, from, len, dir, n), Tip(t, from, len, dir);
    assert r[0].b == Tip(t, r[0].a, Scaled(len, shrink, 0), dir);
    if n > 0 {
      var ls := len * shrink;
      var left := Branch(t, angle, shrink, tip, ls, dir + angle, n - 1);
      var right := Branch(t, angle, shrink, tip, ls, dir - angle, n - 1);
      Lengths(t, angle, shrink, tip, ls, dir + angle, n - 1);
      Lengths(t, angle, shrink, tip, ls, dir - angle, n - 1);
      BranchCount(t, angle, shrink, tip, ls, dir + angle, n - 1);
      BranchCount(t, angle, shrink, tip, ls, dir - angle, n - 1);
      assert r == [r[0]] + left + right;
      forall i | 1 <= i < |r|
        ensures Grown(t, r[i], len, shrink, n)
      {
        if i < 1 + |left| {
          assert r[i] == left[i - 1] && Grown(t, left[i - 1], ls, shrink, n - 1);
          GrownStep(t, left[i - 1], len, shrink, n - 1);
        } else {
          assert r[i] == right[i - 1 - |left|] && Grown(t, right[i - 1 - |left|], ls, shrink, n - 1);
          GrownStep(t, right[i - 1 - |left|], len, shrink, n - 1);
        }
      }
    }
  }

  /** A branch of a subtree one level down is a branch of the tree. */
  lemma GrownStep(t: Trig, s: Segment, len: real, shrink: real, n: nat)
    requires Grown(t, s, len * shrink, shrink, n)
    ensures Grown(t, s, len, shrink, n + 1)
  {
    var k: nat, d: real :| k <= n && s.b == Tip(t, s.a, Scaled(len * shrink, shrink, k), d);
    ScaledStep(len, shrink, k);
    assert s.b == Tip(t, s.a, Scaled(len, shrink, k + 1), d);
  }

  lemma ScaledStep(len: real, shrink: real, k: nat)
    ensures Scaled(len * shrink, shrink, k) == Scaled(len, shrink, k + 1)
  {
    calc {
      Scaled(len * shrink, shrink, k);
      (len * shrink) * RPow(shrink, k);
      len * (shrink * RPow(shrink, k));
      Scaled(len, shrink, k + 1);
    }
  }

  /** `generateTree(depth)`: `2^(depth+1) - 1` segments, the trunk first
      from the origin; at depth 0 the trunk alone; above it, the trunk's
      two children both start at its tip, the `+angle` one right after the
      trunk and the `-angle` one after the whole `+angle` subtree. */
  lemma Shape(t: Trig, depth: nat, angle: real, shrink: real)
    ensures var r, o := GenerateTree(t, depth, angle, shrink), Point(0.0, 0.0);
      var trunk := Segment(o, Tip(t, o, 1.0, t.pi / 2.0));
      && |r| == Pow(2, depth + 1) - 1
      && r[0] == trunk
      && (depth == 0 ==> r == [trunk])
      && (depth >= 1 ==>
            var k := Pow(2, depth);
            && r[1] == Segment(trunk.b, Tip(t, trunk.b, shrink, t.pi / 2.0 + angle))
            && r[k] == Segment(trunk.b, Tip(t, trunk.b, shrink, t.pi / 2.0 - angle)))
  {
    var o := Point(0.0, 0.0);
    BranchCount(t, angle, shrink, o, 1.0, t.pi / 2.0, depth);
    if depth >= 1 {
      Children(t, angle, shrink, o, 1.0, t.pi / 2.0, depth);
      assert 1.0 * shrink == shrink;
    }
  }

  /** The first segments of the two subtrees of a branch call. */
  lemma Children(t: Trig, angle: real, shrink: real, from: Point, len: real, dir: real, n: nat)
    requires n >= 1
    ensures var r, tip, k := Branch(t, angle, shrink, from, len, dir, n), Tip(t, from, len, dir), Pow(2, n);
      && |r| == 2 * k - 1
      && r[1] == Segment(tip, Tip(t, tip, len * shrink, dir + angle))
      && r[k] == Segment(tip, Tip(t, tip, len * shrink, dir - angle))
  {
    var r, tip, k := Branch(t, angle, shrink, from, len, dir, n), Tip(t, from, len, dir), Pow(2, n);
    PreOrder(t, angle, shrink, from, len, dir, n);
    assert r[1] == r[1..k][0];
    assert r[k] == r[k..][0];
  }

  /** The trunk's start and end, which set the box's height. */
  lemma PointsTall(t: Trig, depth: nat, angle: real, shrink: real)
    requires t.sin(t.pi / 2.0) > 0.0
    ensures var pts := SegmentPoints(GenerateTree(t, depth, angle, shrink));
      |pts| >= 2 && pts[1].y < pts[0].y
  {
    var r := GenerateTree(t, depth, angle, shrink);
    assert r[0].b.y == 0.0 - t.sin(t.pi / 2.0) * 1.0;
  }

  /** `drawFractalTree` up to and including its direct `drawChunk()` call.
      The trunk is vertical (`Math.sin(Math.PI / 2)` is 1), so the box has
      height, and the drawing area must have positive width. */
  method Draw(ctx: Context, t: Trig, drawArea: Rect, depth: nat, animate: bool, speed: int)
    returns (r: ChunkedRender<Segment>, bbox: BBox, fit: Fit)
    requires t.sin(t.pi / 2.0) > 0.0
    requires drawArea.w > 0.0 && drawArea.h >= 0.0
    modifies ctx
    ensures fresh(r) && r.ctx == ctx && r.Valid()
    ensures r.items == GenerateTree(t, depth, DefaultAngle(t), DefaultShrink)
    ensures r.mode == PathPerTick && r.animate == animate && r.step == Step(|r.items|, speed, 15)
    ensures forall s :: r.emit(s) == SegmentCalls(fit, s)
    ensures Bounds(bbox, SegmentPoints(r.items)) && Tight(bbox, SegmentPoints(r.items))
    ensures IsBox(bbox) && FitAndScale(bbox, drawArea) == Some(fit)
    ensures r.cursor == Min(|r.items|, if animate then r.step else |r.items|)
    ensures r.chunks == [r.items[..r.cursor]] && r.pending == (animate && r.cursor < |r.items|)
    ensures ctx.log == old(ctx.log) + Prelude(r.mode) + TickLog(r.emit, r.mode, r.items[..r.cursor])
  {
    var segments := GenerateTree(t, depth, DefaultAngle(t), DefaultShrink);
    PointsTall(t, depth, DefaultAngle(t), DefaultShrink);
    var pts := SegmentPoints(segments);
    bbox, fit := BoxAndFitTall(pts, drawArea, 1, 0);
    var f := fit;
    r := Start(ctx, segments, s => SegmentCalls(f, s), PathPerTick, animate, Step(|segments|, speed, 15));
  }
}
