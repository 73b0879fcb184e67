/** The interactive Koch demo: the `kochLine` generator, the snowflake's
    segments collected from it, their statistics, and the `drawChunk`
    closure, which draws every segment as its own stroked path and shows a
    message when it reaches the first base-case segment. */
module KochDemo {
  import opened Wrappers
  import opened Geometry
  import opened DrawLog
  import opened Canvas
  import opened KochSubdivide
  import opened Chunked

  /** A yielded segment: its ends, the generator's `level` when it was
      yielded, and whether it is a base case. */
  datatype DemoSegment = DemoSegment(a: Point, b: Point, level: nat, base: bool)

  /** `kochLine(p1, p2, level)`: the segments the generator yields, in order. */
  function KochLine(t: Trig, p1: Point, p2: Point, level: nat): seq<DemoSegment>
    decreases level
  {
    if level == 0 then [DemoSegment(p1, p2, level, true)]
    else
      var a := Third(p1, p2);
      var d := TwoThirds(p1, p2);
      var c := OutwardPeak(t, p1, p2);
      KochLine(t, p1, a, level - 1) + KochLine(t, a, c, level - 1)
      + KochLine(t, c, d, level - 1) + KochLine(t, d, p2, level - 1)
  }

  /** Plain segments as base-case segments yielded at level 0. */
  function Tag(s: seq<Segment>): (r: seq<DemoSegment>)
    ensures |r| == |s|
    ensures forall i :: 0 <= i < |s| ==> r[i] == DemoSegment(s[i].a, s[i].b, 0, true)
  {
    seq(|s|, i requires 0 <= i < |s| => DemoSegment(s[i].a, s[i].b, 0, true))
  }

  /** The ends of demo segments, as plain segments. */
  function Untag(s: seq<DemoSegment>): (r: seq<Segment>)
    ensures |r| == |s|
    ensures forall i :: 0 <= i < |s| ==> r[i] == Segment(s[i].a, s[i].b)
  {
    seq(|s|, i requires 0 <= i < |s| => Segment(s[i].a, s[i].b))
  }

  lemma TagAppend(s: seq<Segment>, t: seq<Segment>)
    ensures Tag(s + t) == Tag(s) + Tag(t)
  {
    assert forall i :: 0 <= i < |s + t| ==> Tag(s + t)[i] == (Tag(s) + Tag(t))[i];
  }

  lemma TagFour(s1: seq<Segment>, s2: seq<Segment>, s3: seq<Segment>, s4: seq<Segment>)
    ensures Tag(s1 + s2 + s3 + s4) == Tag(s1) + Tag(s2) + Tag(s3) + Tag(s4)
  {
    TagAppend(s1, s2);
    TagAppend(s1 + s2, s3);
    TagAppend(s1 + s2 + s3, s4);
  }

  /** The generator yields exactly the subdivision of the Koch generators,
      every segment tagged as a base case of level 0. */
  lemma {:induction false} KochLineIsSubdivision(t: Trig, p1: Point, p2: Point, level: nat)
    ensures KochLine(t, p1, p2, level) == Tag(Subdivide(Outward(t), p1, p2, level))
    decreases level, 1
  {
    if level == 0 {
      assert Tag(Subdivide(Outward(t), p1, p2, 0))[0] == DemoSegment(p1, p2, 0, true);
    } else {
      KochLineStep(t, p1, p2, level);
    }
  }

  /** The inductive step: the four recursive calls agree, so the call does. */
  lemma {:induction false} KochLineStep(t: Trig, p1: Point, p2: Point, level: nat)
    requires level >= 1
    ensures KochLine(t, p1, p2, level) == Tag(Subdivide(Outward(t), p1, p2, level))
    decreases level, 0
  {
    var a, c, d := Third(p1, p2), OutwardPeak(t, p1, p2), TwoThirds(p1, p2);
    KochLineIsSubdivision(t, p1, a, level - 1);
    KochLineIsSubdivision(t, a, c, level - 1);
    KochLineIsSubdivision(t, c, d, level - 1);
    KochLineIsSubdivision(t, d, p2, level - 1);
    var s1, s2 := Subdivide(Outward(t), p1, a, level - 1), Subdivide(Outward(t), a, c, level - 1);
    var s3, s4 := Subdivide(Outward(t), c, d, level - 1), Subdivide(Outward(t), d, p2, level - 1);
    assert Outward(t)(p1, p2) == c;
    assert Subdivide(Outward(t), p1, p2, level) == s1 + s2 + s3 + s4;
    TagFour(s1, s2, s3, s4);
  }

  /** Hence `kochLine(p1, p2, level)` yields `4^level` segments, chaining
      from `p1` to `p2`, every one of level 0 and a base case. */
  lemma KochLineShape(t: Trig, p1: Point, p2: Point, level: nat)
    ensures var r := KochLine(t, p1, p2, level);
      && |r| == Pow(4, level)
      && Chain(Untag(r), p1, p2)
      && forall i :: 0 <= i < |r| ==> r[i].level == 0 && r[i].base
  {
    var s := Subdivide(Outward(t), p1, p2, level);
    KochLineIsSubdivision(t, p1, p2, level);
    SubdivideChains(Outward(t), p1, p2, level);
    assert Untag(Tag(s)) == s;
  }

  /** `for (const segment of gen) all.push(segment)`. */
  method PushAll(all: seq<DemoSegment>, gen: seq<DemoSegment>) returns (r: seq<DemoSegment>)
    ensures r == all + gen
  {
    r := all;
    var i := 0;
    while i < |gen|
      invariant 0 <= i <= |gen|
      invariant r == all + gen[..i]
    {
      assert gen[..i + 1] == gen[..i] + [gen[i]];
      r := r + [gen[i]];
      i := i + 1;
    }
    assert gen[..i] == gen;
  }

  const P1: Point := Point(0.0, 0.0)
  const P3: Point := Point(1.0, 0.0)

  /** The top corner `(L / 2, sqrt(3) / 2 * L)` with `L = 1`. */
  function P2(t: Trig): Point
  {
    Point(1.0 / 2.0, t.sqrt(3.0) / 2.0 * 1.0)
  }

  /** The demo's sides: left corner to top, top to right corner, right
      corner back to the left. */
  function Sides(t: Trig): (r: seq<Segment>)
    ensures Chain(r, P1, P1)
  {
    var r := [Segment(P1, P2(t)), Segment(P2(t), P3), Segment(P3, P1)];
    assert Chain(r[1..][1..][1..], P1, P1);
    assert Chain(r[1..][1..], P3, P1);
    assert Chain(r[1..], P2(t), P1);
    r
  }

  /** `allSegments`, assembled from the generator for the three sides. */
  method CollectSegments(t: Trig, depth: nat) returns (all: seq<DemoSegment>)
    ensures all == KochLine(t, P1, P2(t), depth) + KochLine(t, P2(t), P3, depth) + KochLine(t, P3, P1, depth)
  {
    all := [];
    all := PushAll(all, KochLine(t, P1, P2(t), depth));
    all := PushAll(all, KochLine(t, P2(t), P3, depth));
    all := PushAll(all, KochLine(t, P3, P1, depth));
  }

  /** `allSegments` has `3 * 4^depth` segments (the formula the demo
      displays) chaining round from the left corner, all of them level-0
      base cases. */
  lemma AllSegmentsShape(t: Trig, depth: nat)
    ensures var all := KochLine(t, P1, P2(t), depth) + KochLine(t, P2(t), P3, depth) + KochLine(t, P3, P1, depth);
      && all == Tag(SubdivideEach(Outward(t), Sides(t), depth))
      && |all| == 3 * Pow(4, depth)
      && Chain(Untag(all), P1, P1)
      && forall i :: 0 <= i < |all| ==> all[i].level == 0 && all[i].base
  {
    var s := SubdivideEach(Outward(t), Sides(t), depth);
    AllIsTagged(t, depth);
    SubdivideEachChains(Outward(t), Sides(t), P1, P1, depth);
    TaggedShape(s, Pow(4, depth), P1);
  }

  /** The three lines together are the tagged subdivision of the three sides. */
  lemma AllIsTagged(t: Trig, depth: nat)
    ensures KochLine(t, P1, P2(t), depth) + KochLine(t, P2(t), P3, depth) + KochLine(t, P3, P1, depth)
      == Tag(SubdivideEach(Outward(t), Sides(t), depth))
  {
    var sides := Sides(t);
    var s1 := Subdivide(Outward(t), P1, P2(t), depth);
    var s2 := Subdivide(Outward(t), P2(t), P3, depth);
    var s3 := Subdivide(Outward(t), P3, P1, depth);
    assert sides[0] == Segment(P1, P2(t)) && sides[1] == Segment(P2(t), P3) && sides[2] == Segment(P3, P1);
    SubdivideEachThree(Outward(t), sides, depth);
    KochLineIsSubdivision(t, P1, P2(t), depth);
    KochLineIsSubdivision(t, P2(t), P3, depth);
    KochLineIsSubdivision(t, P3, P1, depth);
    TagThree(s1, s2, s3);
  }

  /** Tagged segments of a closed chain: same count, same chain, all of
      level 0 and base cases. */
  lemma TaggedShape(s: seq<Segment>, k: nat, p: Point)
    requires |s| == 3 * k && Chain(s, p, p)
    ensures var all := Tag(s);
      && |all| == 3 * k
      && Chain(Untag(all), p, p)
      && forall i :: 0 <= i < |all| ==> all[i].level == 0 && all[i].base
  {
    assert Untag(Tag(s)) == s;
  }

  lemma TagThree(s1: seq<Segment>, s2: seq<Segment>, s3: seq<Segment>)
    ensures Tag(s1 + s2 + s3) == Tag(s1) + Tag(s2) + Tag(s3)
  {
    TagAppend(s1, s2);
    TagAppend(s1 + s2, s3);
  }


  /** How many segments have level `k`. */
  function LevelCount(s: seq<DemoSegment>, k: nat): nat
  {
    if s == [] then 0 else LevelCount(s[..|s| - 1], k) + (if s[|s| - 1].level == k then 1 else 0)
  }

  /** How many segments are base cases. */
  function BaseCount(s: seq<DemoSegment>): nat
  {
    if s == [] then 0 else BaseCount(s[..|s| - 1]) + (if s[|s| - 1].base then 1 else 0)
  }

  /** The statistics loop: `levels` maps each level that occurs to the
      number of its segments, `baseCount` counts the base cases. */
  method Stats(all: seq<DemoSegment>) returns (levels: map<nat, nat>, baseCount: nat)
    ensures forall k :: k in levels <==> LevelCount(all, k) > 0
    ensures forall k :: k in levels ==> levels[k] == LevelCount(all, k)
    ensures baseCount == BaseCount(all)
  {
    levels := map[];
    baseCount := 0;
    var i := 0;
    while i < |all|
      invariant 0 <= i <= |all|
      invariant forall k :: k in levels <==> LevelCount(all[..i], k) > 0
      invariant forall k :: k in levels ==> levels[k] == LevelCount(all[..i], k)
      invariant baseCount == BaseCount(all[..i])
    {
      var seg := all[i];
      assert all[..i + 1][..i] == all[..i];
      levels := levels[seg.level := (if seg.level in levels then levels[seg.level] else 0) + 1];
      if seg.base {
        baseCount := baseCount + 1;
      }
      i := i + 1;
    }
    assert all[..i] == all;
  }

  /** When every segment is a level-0 base case, as the generator's are,
      every segment is counted as a base case and under level 0 only. */
  lemma {:induction false} AllBaseCounts(s: seq<DemoSegment>, k: nat)
    requires forall i :: 0 <= i < |s| ==> s[i].level == 0 && s[i].base
    ensures BaseCount(s) == |s|
    ensures LevelCount(s, k) == (if k == 0 then |s| else 0)
    decreases |s|
  {
    if s != [] {
      AllBaseCounts(s[..|s| - 1], k);
    }
  }

  /** The calls for one segment: its own path, styled by its base flag. */
  function DemoCalls(f: Fit, s: DemoSegment): seq<Cmd>
  {
    [BeginPath, LineStyle(s.base), MoveTo(Apply(f, s.a)), LineTo(Apply(f, s.b)), Stroke]
  }

  /** `DemoCalls` under a fixed fit, as the closure passed over the segments. */
  function DemoEmit(f: Fit): DemoSegment -> seq<Cmd>
  {
    s => DemoCalls(f, s)
  }

  /** Drawing one more segment extends the log by that segment's calls. */
  lemma DemoLogStep(f: Fit, segs: seq<DemoSegment>, from: nat, d: nat)
    requires from <= d < |segs|
    ensures EmitAll(DemoEmit(f), segs[from..d + 1]) == EmitAll(DemoEmit(f), segs[from..d]) + DemoCalls(f, segs[d])
  {
    assert segs[from..d + 1][..d - from] == segs[from..d];
  }

  /** One segment's calls contain exactly one `stroke()`. */
  lemma OneStrokeEach(f: Fit, s: DemoSegment)
    ensures Count(DemoCalls(f, s), Stroke) == 1
  {
    var c := DemoCalls(f, s);
    assert Count(c[4..], Stroke) == 1 by {
      assert c[4..][1..] == [];
    }
    assert c[3..][1..] == c[4..];
    assert Count(c[3..], Stroke) == 1;
    assert c[2..][1..] == c[3..];
    assert Count(c[2..], Stroke) == 1;
    assert c[1..][1..] == c[2..];
    assert Count(c[1..], Stroke) == 1;
  }

  /** The closure's state, over plain values: `drawnCount` segments drawn
      in order, each once; the message set at most once, at the first base
      segment, and only once one was drawn. */
  ghost predicate DemoConsistent(segs: seq<DemoSegment>, f: Fit, step: nat, start: seq<Cmd>, drawnCount: nat,
                                baseShown: bool, messages: seq<nat>, log: seq<Cmd>)
  {
    && step >= 1
    && drawnCount <= |segs|
    && log == start + EmitAll(DemoEmit(f), segs[..drawnCount])
    && (baseShown <==> messages != [])
    && |messages| <= 1
    && (forall m :: m in messages ==>
          m < drawnCount && segs[m].base && forall j :: 0 <= j < m ==> !segs[j].base)
    && (!baseShown ==> forall j :: 0 <= j < drawnCount ==> !segs[j].base)
  }

  /** One iteration of the drawing loop keeps the state consistent. */
  lemma DrawOneKeeps(segs: seq<DemoSegment>, f: Fit, step: nat, start: seq<Cmd>, drawnCount: nat,
                     baseShown: bool, messages: seq<nat>, log: seq<Cmd>)
    requires DemoConsistent(segs, f, step, start, drawnCount, baseShown, messages, log)
    requires drawnCount < |segs|
    ensures var seg := segs[drawnCount];
      var shows := seg.base && !baseShown;
      DemoConsistent(segs, f, step, start, drawnCount + 1, baseShown || shows,
                     if shows then messages + [drawnCount] else messages, log + DemoCalls(f, seg))
  {
    assert segs[..drawnCount + 1][..drawnCount] == segs[..drawnCount];
  }

  class KochDemoRender {
    const ctx: Context
    const segs: seq<DemoSegment>
    const fit: Fit
    const animate: bool
    const step: nat
    var drawnCount: nat
    var baseShown: bool
    /** `isDrawing`: set before the first call, cleared when no frame is requested. */
    var isDrawing: bool
    /** The indices at which `setBaseMessage` was given the base-case text. */
    var messages: seq<nat>
    ghost var start: seq<Cmd>

    ghost predicate Valid()
      reads this, ctx
    {
      && DemoConsistent(segs, fit, step, start, drawnCount, baseShown, messages, ctx.log)
      && (!isDrawing ==> drawnCount == |segs|)
    }

    /** The closure's variables as `draw` sets them before its first
        `drawChunk()` call. */
    constructor (ctx: Context, segs: seq<DemoSegment>, fit: Fit, animate: bool, step: nat)
      requires step >= 1
      ensures Valid() && isDrawing && drawnCount == 0 && !baseShown && messages == []
      ensures this.ctx == ctx && this.segs == segs && this.fit == fit && this.animate == animate
      ensures this.step == step && start == ctx.log
    {
      this.ctx := ctx;
      this.segs := segs;
      this.fit := fit;
      this.animate := animate;
      this.step := step;
      drawnCount := 0;
      baseShown := false;
      isDrawing := true;
      messages := [];
      start := ctx.log;
    }

    /** The loop body for segment `drawnCount`. */
    method DrawOne()
      requires Valid() && isDrawing && drawnCount < |segs|
      modifies this, ctx
      ensures Valid() && drawnCount == old(drawnCount) + 1 && isDrawing == old(isDrawing)
      ensures start == old(start)
      ensures ctx.log == old(ctx.log) + DemoCalls(fit, segs[old(drawnCount)])
    {
      DrawOneKeeps(segs, fit, step, start, drawnCount, baseShown, messages, ctx.log);
      var seg := segs[drawnCount];
      if seg.base && !baseShown {
        messages := messages + [drawnCount];
        baseShown := true;
      }
      ctx.log := ctx.log + DemoCalls(fit, seg);
      drawnCount := drawnCount + 1;
    }

    /** The drawing loop of one chunk: segments up to `end`, in order. */
    method DrawTo(end: nat)
      requires Valid() && isDrawing && drawnCount <= end <= |segs|
      modifies this, ctx
      ensures Valid() && start == old(start) && isDrawing && drawnCount == end
      ensures ctx.log == old(ctx.log) + EmitAll(DemoEmit(fit), segs[old(drawnCount)..end])
    {
      ghost var from := drawnCount;
      ghost var log0 := ctx.log;
      while drawnCount < end
        invariant Valid() && start == old(start) && isDrawing
        invariant from <= drawnCount <= end
        invariant ctx.log == log0 + EmitAll(DemoEmit(fit), segs[from..drawnCount])
        decreases end - drawnCount
      {
        ghost var d, l := drawnCount, ctx.log;
        DemoLogStep(fit, segs, from, d);
        DrawOne();
        AppendStep(log0, EmitAll(DemoEmit(fit), segs[from..d]), DemoCalls(fit, segs[d]), l, ctx.log);
      }
    }

    /** One `drawChunk()` call. */
    method Tick()
      requires Valid() && isDrawing
      modifies this, ctx
      ensures Valid() && start == old(start)
      ensures drawnCount == Min(|segs|, old(drawnCount) + (if animate then step else |segs|))
      ensures ctx.log == old(ctx.log) + EmitAll(DemoEmit(fit), segs[old(drawnCount)..drawnCount])
      ensures isDrawing == (animate && drawnCount < |segs|)
    {
      var end := Min(|segs|, drawnCount + (if animate then step else |segs|));
      DrawTo(end);
      isDrawing := animate && drawnCount < |segs|;
    }

    /** The requested frames, run until none is requested: every segment
        drawn once, in order, one stroke each; the message set exactly
        once, at the first segment. */
    method Finish()
      requires Valid()
      requires forall i :: 0 <= i < |segs| ==> segs[i].base
      modifies this, ctx
      ensures Valid() && !isDrawing && drawnCount == |segs| && start == old(start)
      ensures ctx.log == start + EmitAll(DemoEmit(fit), segs)
      ensures Count(ctx.log, Stroke) == Count(start, Stroke) + |segs|
      ensures segs != [] ==> messages == [0]
    {
      while isDrawing
        invariant Valid() && start == old(start)
        decreases |segs| - drawnCount + (if isDrawing then 1 else 0)
      {
        Tick();
      }
      if segs != [] {
        assert segs[0].base;
        assert messages[0] in messages;
        assert messages == [messages[0]];
      }
      assert segs[..drawnCount] == segs;
      forall s ensures Count(DemoCalls(fit, s), Stroke) == 1 {
        OneStrokeEach(fit, s);
      }
      EmitAllCount(DemoEmit(fit), segs, Stroke, 1);
      CountAppend(start, EmitAll(DemoEmit(fit), segs), Stroke);
    }
  }

  /** `drawArea`: the 720-pixel canvas less a padding of 48 on every side. */
  const DrawArea: Rect := Rect(48.0, 48.0, 720.0 - 2.0 * 48.0, 720.0 - 2.0 * 48.0)

  /** The left corner starts the first side's block, the right corner the third's. */
  lemma SideCorners(t: Trig, depth: nat)
    ensures var s, k := SubdivideEach(Outward(t), Sides(t), depth), Pow(4, depth);
      |s| == 3 * k && s[0].a == P1 && s[2 * k].a == P3
  {
    var s, k := SubdivideEach(Outward(t), Sides(t), depth), Pow(4, depth);
    SubdivideEachChains(Outward(t), Sides(t), P1, P1, depth);
    ChainLinks(s, P1, P1);
    SubdivideEachBlock(Outward(t), Sides(t), depth, 2);
    SubdivideChains(Outward(t), P3, P1, depth);
    ChainLinks(Subdivide(Outward(t), P3, P1, depth), P3, P1);
    assert s[2 * k] == s[2 * k..3 * k][0];
  }

  /** The left and right corners, the extreme x values among the points. */
  lemma PointCorners(t: Trig, depth: nat)
    ensures var pts, k := SegmentPoints(Untag(Tag(SubdivideEach(Outward(t), Sides(t), depth)))), Pow(4, depth);
      |pts| > 4 * k && pts[0].x == 0.0 && pts[4 * k].x == 1.0
  {
    SideCorners(t, depth);
    TaggedEnds(SubdivideEach(Outward(t), Sides(t), depth), Pow(4, depth));
  }

  /** Tagging and untagging keeps the segments, so the pushed points start
      at the first segment's start and reach the `k`-th third's start. */
  lemma TaggedEnds(s: seq<Segment>, k: nat)
    requires |s| == 3 * k && |s| > 0
    ensures var pts := SegmentPoints(Untag(Tag(s)));
      |pts| > 4 * k && pts[0] == s[0].a && pts[4 * k] == s[2 * k].a
  {
    assert Untag(Tag(s)) == s;
    assert SegmentPoints(s)[2 * (2 * k)] == s[2 * k].a;
  }

  /** The statistics of segments that are all level-0 base cases. */
  method BaseStats(all: seq<DemoSegment>) returns (levels: map<nat, nat>, baseCount: nat)
    requires all != []
    requires forall i :: 0 <= i < |all| ==> all[i].level == 0 && all[i].base
    ensures baseCount == |all| && levels == map[0 := |all|]
  {
    levels, baseCount := Stats(all);
    forall k: nat ensures LevelCount(all, k) == (if k == 0 then |all| else 0) {
      AllBaseCounts(all, k);
    }
    AllBaseCounts(all, 0);
    assert levels == map[0 := |all|];
  }

  /** The part of `draw` before any drawing: segments, fit and statistics. */
  method Prepare(t: Trig, depth: nat) returns (all: seq<DemoSegment>, levels: map<nat, nat>, baseCount: nat, bbox: BBox, fit: Fit)
    ensures all == Tag(SubdivideEach(Outward(t), Sides(t), depth)) && |all| == 3 * Pow(4, depth)
    ensures baseCount == |all| && levels == map[0 := |all|]
    ensures IsBox(bbox) && Bounds(bbox, SegmentPoints(Untag(all))) && Tight(bbox, SegmentPoints(Untag(all)))
    ensures FitAndScale(bbox, DrawArea) == Some(fit)
  {
    all := CollectSegments(t, depth);
    AllSegmentsShape(t, depth);
    PointCorners(t, depth);
    bbox, fit := BoxAndFit(SegmentPoints(Untag(all)), DrawArea, 0, 4 * Pow(4, depth));
    levels, baseCount := BaseStats(all);
  }

  /** `draw` up to and including its direct `drawChunk()` call: the
      segments collected, their statistics, the fit, and the first tick. */
  method Draw(ctx: Context, t: Trig, depth: nat, animate: bool, speed: int)
    returns (r: KochDemoRender, levels: map<nat, nat>, baseCount: nat, bbox: BBox)
    modifies ctx
    ensures fresh(r) && r.Valid() && r.ctx == ctx && r.start == old(ctx.log)
    ensures r.segs == Tag(SubdivideEach(Outward(t), Sides(t), depth)) && |r.segs| == 3 * Pow(4, depth)
    ensures baseCount == |r.segs| && levels == map[0 := |r.segs|]
    ensures IsBox(bbox) && Bounds(bbox, SegmentPoints(Untag(r.segs))) && Tight(bbox, SegmentPoints(Untag(r.segs)))
    ensures FitAndScale(bbox, DrawArea) == Some(r.fit)
    ensures r.animate == animate && r.step == Step(|r.segs|, speed, 20)
    ensures r.drawnCount == Min(|r.segs|, if animate then r.step else |r.segs|)
    ensures r.isDrawing == (animate && r.drawnCount < |r.segs|)
    ensures ctx.log == old(ctx.log) + EmitAll(DemoEmit(r.fit), r.segs[..r.drawnCount])
  {
    var all, fit;
    all, levels, baseCount, bbox, fit := Prepare(t, depth);
    r := new KochDemoRender(ctx, all, fit, animate, Step(|all|, speed, 20));
    r.Tick();
    assert all[0..r.drawnCount] == all[..r.drawnCount];
  }
}
