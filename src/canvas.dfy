/** `fitAndScale`: the uniform scale and offsets that fit a bounding box into
    a target rectangle, centred; and the bounding-box pass the generators'
    renderers run before calling it. */
module Canvas {
  import opened Wrappers
  import opened Geometry

  datatype Rect = Rect(x: real, y: real, w: real, h: real)

  datatype BBox = BBox(minX: real, minY: real, maxX: real, maxY: real)

  datatype Fit = Fit(scale: real, offsetX: real, offsetY: real)

  /** The value of a floating point quotient `a / b` of two non-negative
      numbers: finite, `Infinity` (`a > 0`, `b == 0`) or `NaN` (`0 / 0`). */
  datatype Quotient = Finite(v: real) | Infinity | NaN

  function Divide(a: real, b: real): Quotient
    requires a >= 0.0 && b >= 0.0
  {
    if b > 0.0 then Finite(a / b) else if a > 0.0 then Infinity else NaN
  }

  /** `Math.min` of two quotients: `NaN` wins, `Infinity` loses to anything. */
  function MinQuotient(p: Quotient, q: Quotient): Quotient
  {
    if p.NaN? || q.NaN? then NaN
    else if p.Infinity? then q
    else if q.Infinity? then p
    else if p.v <= q.v then p else q
  }

  ghost predicate IsBox(b: BBox)
  {
    b.minX <= b.maxX && b.minY <= b.maxY
  }

  function Width(b: BBox): real { b.maxX - b.minX }

  function Height(b: BBox): real { b.maxY - b.minY }

  /** `p * scale + offset`, the transform every renderer applies to a point. */
  function Apply(f: Fit, p: Point): Point
  {
    Point(p.x * f.scale + f.offsetX, p.y * f.scale + f.offsetY)
  }

  ghost predicate Inside(target: Rect, p: Point)
  {
    target.x <= p.x <= target.x + target.w && target.y <= p.y <= target.y + target.h
  }

  /** The box, scaled by `s`, fits the target in both directions. */
  ghost predicate ScaleFits(b: BBox, target: Rect, s: real)
  {
    Width(b) * s <= target.w && Height(b) * s <= target.h
  }

  /** The scaled box sits in the middle of the target: equal margins on the
      left and right, and on the top and bottom. */
  ghost predicate Centred(b: BBox, target: Rect, f: Fit)
  {
    && EqualMargins(b.minX, b.maxX, f.scale, f.offsetX, target.x, target.w)
    && EqualMargins(b.minY, b.maxY, f.scale, f.offsetY, target.y, target.h)
  }

  /** Along one axis, `[lo, hi]` scaled by `s` and moved by `off` leaves the
      same margin on both sides of `[t0, t0 + len]`. */
  ghost predicate EqualMargins(lo: real, hi: real, s: real, off: real, t0: real, len: real)
  {
    (lo * s + off) - t0 == (t0 + len) - (hi * s + off)
  }

  /** `fitAndScale`. The source has no guard for a degenerate box; in floating
      point a box that is flat in ONE direction still works (that ratio is
      `Infinity` and `Math.min` ignores it), while a box flat in both
      directions, or flat where the target is too, makes the scale or the
      offsets `NaN`, which is `None` here. */
  function FitAndScale(b: BBox, target: Rect): (r: Option<Fit>)
    requires IsBox(b) && target.w >= 0.0 && target.h >= 0.0
    ensures r.Some? <==>
      && (Width(b) > 0.0 || Height(b) > 0.0)
      && (Width(b) > 0.0 || target.w > 0.0)
      && (Height(b) > 0.0 || target.h > 0.0)
    ensures r.Some? ==> r.value.scale >= 0.0
    ensures r.Some? ==> ScaleFits(b, target, r.value.scale)
    ensures r.Some? ==> Width(b) * r.value.scale == target.w || Height(b) * r.value.scale == target.h
    ensures r.Some? ==> Centred(b, target, r.value)
  {
    var width := b.maxX - b.minX;
    var height := b.maxY - b.minY;
    match MinQuotient(Divide(target.w, width), Divide(target.h, height))
    case Finite(scale) =>
      QuotientFacts(target.w, width);
      QuotientFacts(target.h, height);
      var offsetX := target.x + (target.w - width * scale) / 2.0 - b.minX * scale;
      var offsetY := target.y + (target.h - height * scale) / 2.0 - b.minY * scale;
      Some(Fit(scale, offsetX, offsetY))
    case _ => None
  }

  lemma QuotientFacts(a: real, b: real)
    requires a >= 0.0 && b >= 0.0
    ensures Divide(a, b).Finite? ==> Divide(a, b).v >= 0.0 && b * Divide(a, b).v == a
  {
    if b > 0.0 {
      assert b * (a / b) == a;
    }
  }

  /** No larger uniform scale fits: `fitAndScale` picks the greatest. */
  lemma {:induction false} ScaleIsGreatest(b: BBox, target: Rect, s: real)
    requires IsBox(b) && target.w >= 0.0 && target.h >= 0.0
    requires FitAndScale(b, target).Some?
    requires s >= 0.0 && ScaleFits(b, target, s)
    ensures s <= FitAndScale(b, target).value.scale
  {
    var f := FitAndScale(b, target).value;
    if Width(b) * f.scale == target.w {
      assert Width(b) > 0.0;
      Cancel(Width(b), s, f.scale, target.w);
    } else {
      assert Height(b) * f.scale == target.h;
      assert Height(b) > 0.0;
      Cancel(Height(b), s, f.scale, target.h);
    }
  }

  /** A positive factor that takes `s` no further than it takes `f` to the
      same bound leaves `s <= f`. */
  lemma Cancel(k: real, s: real, f: real, bound: real)
    requires k > 0.0 && k * s <= bound && k * f == bound
    ensures s <= f
  {
    assert k * (s - f) == k * s - k * f <= 0.0;
  }

  /** Every point of the box lands inside the target; in particular its four
      corners do. */
  lemma BoxMapsInside(b: BBox, target: Rect, p: Point)
    requires IsBox(b) && target.w >= 0.0 && target.h >= 0.0
    requires FitAndScale(b, target).Some?
    requires b.minX <= p.x <= b.maxX && b.minY <= p.y <= b.maxY
    ensures Inside(target, Apply(FitAndScale(b, target).value, p))
  {
    CentredFitInside(b, target, FitAndScale(b, target).value, p);
  }

  /** Any non-negative scale that fits, with centring offsets, maps the box
      into the target. */
  lemma CentredFitInside(b: BBox, target: Rect, f: Fit, p: Point)
    requires f.scale >= 0.0 && ScaleFits(b, target, f.scale) && Centred(b, target, f)
    requires b.minX <= p.x <= b.maxX && b.minY <= p.y <= b.maxY
    ensures Inside(target, Apply(f, p))
  {
    AxisInside(b.minX, b.maxX, p.x, f.scale, f.offsetX, target.x, target.w);
    AxisInside(b.minY, b.maxY, p.y, f.scale, f.offsetY, target.y, target.h);
  }

  /** One axis of `CentredFitInside`: the two equal margins add up to the slack
      the scaled extent leaves, so both are non-negative. */
  lemma AxisInside(lo: real, hi: real, v: real, s: real, off: real, t0: real, len: real)
    requires lo <= v <= hi && s >= 0.0
    requires (hi - lo) * s <= len
    requires EqualMargins(lo, hi, s, off, t0, len)
    ensures t0 <= v * s + off <= t0 + len
  {
    assert (hi - lo) * s == hi * s - lo * s;
    MulMono(lo, v, s);
    MulMono(v, hi, s);
  }

  lemma MulMono(a: real, b: real, s: real)
    requires a <= b && s >= 0.0
    ensures a * s <= b * s
  {
  }

  ghost predicate Bounds(b: BBox, pts: seq<Point>)
  {
    forall i :: 0 <= i < |pts| ==> b.minX <= pts[i].x <= b.maxX && b.minY <= pts[i].y <= b.maxY
  }

  /** Each side of the box is attained by some point. */
  ghost predicate Tight(b: BBox, pts: seq<Point>)
  {
    && (exists i :: 0 <= i < |pts| && pts[i].x == b.minX)
    && (exists i :: 0 <= i < |pts| && pts[i].x == b.maxX)
    && (exists i :: 0 <= i < |pts| && pts[i].y == b.minY)
    && (exists i :: 0 <= i < |pts| && pts[i].y == b.maxY)
  }

  /** The bounding-box pass: `Math.min(...xs)` and friends over every
      coordinate pushed. With nothing pushed `Math.min()` is `Infinity`,
      which is `None` here. */
  method BoundingBox(pts: seq<Point>) returns (r: Option<BBox>)
    ensures r.None? <==> pts == []
    ensures r.Some? ==> IsBox(r.value) && Bounds(r.value, pts) && Tight(r.value, pts)
  {
    if pts == [] {
      return None;
    }
    var b := BBox(pts[0].x, pts[0].y, pts[0].x, pts[0].y);
    ghost var ix0, ix1, iy0, iy1 := 0, 0, 0, 0;
    var i := 1;
    while i < |pts|
      invariant 1 <= i <= |pts|
      invariant IsBox(b) && Bounds(b, pts[..i])
      invariant ix0 < i && pts[ix0].x == b.minX && ix1 < i && pts[ix1].x == b.maxX
      invariant iy0 < i && pts[iy0].y == b.minY && iy1 < i && pts[iy1].y == b.maxY
    {
      var p := pts[i];
      if p.x < b.minX { b := b.(minX := p.x); ix0 := i; }
      if p.x > b.maxX { b := b.(maxX := p.x); ix1 := i; }
      if p.y < b.minY { b := b.(minY := p.y); iy0 := i; }
      if p.y > b.maxY { b := b.(maxY := p.y); iy1 := i; }
      i := i + 1;
    }
    assert pts[..i] == pts;
    return Some(b);
  }

  /** The bounding-box pass followed by `fitAndScale`, for points spread
      out horizontally (two of them differ in x) and a target of positive
      height: the fit then always exists. */
  method BoxAndFit(pts: seq<Point>, target: Rect, lo: nat, hi: nat) returns (bbox: BBox, fit: Fit)
    requires lo < |pts| && hi < |pts| && pts[lo].x < pts[hi].x
    requires target.w >= 0.0 && target.h > 0.0
    ensures IsBox(bbox) && Bounds(bbox, pts) && Tight(bbox, pts)
    ensures FitAndScale(bbox, target) == Some(fit)
  {
    var ob := BoundingBox(pts);
    bbox := ob.value;
    assert bbox.minX <= pts[lo].x && pts[hi].x <= bbox.maxX;
    var of := FitAndScale(bbox, target);
    fit := of.value;
  }

  /** The same for points spread out vertically (two of them differ in y)
      and a target of positive width. */
  method BoxAndFitTall(pts: seq<Point>, target: Rect, lo: nat, hi: nat) returns (bbox: BBox, fit: Fit)
    requires lo < |pts| && hi < |pts| && pts[lo].y < pts[hi].y
    requires target.w > 0.0 && target.h >= 0.0
    ensures IsBox(bbox) && Bounds(bbox, pts) && Tight(bbox, pts)
    ensures FitAndScale(bbox, target) == Some(fit)
  {
    var ob := BoundingBox(pts);
    bbox := ob.value;
    assert bbox.minY <= pts[lo].y && pts[hi].y <= bbox.maxY;
    var of := FitAndScale(bbox, target);
    fit := of.value;
  }

  /** The coordinates pushed for a list of segments: both endpoints of each. */
  function SegmentPoints(s: seq<Segment>): (r: seq<Point>)
    ensures |r| == 2 * |s|
    ensures forall i :: 0 <= i < |s| ==> r[2 * i] == s[i].a && r[2 * i + 1] == s[i].b
  {
    if s == [] then [] else [s[0].a, s[0].b] + SegmentPoints(s[1..])
  }

  /** The coordinates pushed for a list of triangles: the three corners of each. */
  function TrianglePoints(s: seq<Triangle>): (r: seq<Point>)
    ensures |r| == 3 * |s|
    ensures forall i :: 0 <= i < |s| ==> r[3 * i] == s[i].a && r[3 * i + 1] == s[i].b && r[3 * i + 2] == s[i].c
  {
    if s == [] then [] else [s[0].a, s[0].b, s[0].c] + TrianglePoints(s[1..])
  }
}
