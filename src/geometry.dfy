/** Points, segments and triangles in the untransformed base space, the
    exact cut points the generators use, integer powers, and the floating
    point library functions the generators call, left abstract. */
module Geometry {

  datatype Point = Point(x: real, y: real)

  /** A segment `[x1, y1, x2, y2]` from `a` to `b`. */
  datatype Segment = Segment(a: Point, b: Point)

  /** A triangle `[a, b, c]` with its corners in drawing order. */
  datatype Triangle = Triangle(a: Point, b: Point, c: Point)

  /** `Math.cos`, `Math.sin`, `Math.atan2`, `Math.sqrt` (and `Math.hypot`,
      which is the square root of a sum of squares) and `Math.PI`. Every
      property proved here holds for every choice of these, so nothing
      depends on trigonometry. */
  datatype Trig = Trig(
    cos: real -> real,
    sin: real -> real,
    atan2: (real, real) -> real,
    sqrt: real -> real,
    pi: real)

  function Pow(b: nat, n: nat): (r: nat)
    ensures b >= 1 ==> r >= 1
  {
    if n == 0 then 1 else b * Pow(b, n - 1)
  }

  function RPow(b: real, n: nat): real
  {
    if n == 0 then 1.0 else b * RPow(b, n - 1)
  }

  /** `p + (q - p) / 3`, the first cut point of a Koch step. */
  function Third(p: Point, q: Point): Point
  {
    Point(p.x + (q.x - p.x) / 3.0, p.y + (q.y - p.y) / 3.0)
  }

  /** `p + 2 (q - p) / 3`, the second cut point of a Koch step. */
  function TwoThirds(p: Point, q: Point): Point
  {
    Point(p.x + (2.0 * (q.x - p.x)) / 3.0, p.y + (2.0 * (q.y - p.y)) / 3.0)
  }

  function Midpoint(p: Point, q: Point): Point
  {
    Point((p.x + q.x) / 2.0, (p.y + q.y) / 2.0)
  }

  /** Squared distance (`d2` in the Koch path renderer). */
  function D2(a: Point, b: Point): real
  {
    (a.x - b.x) * (a.x - b.x) + (a.y - b.y) * (a.y - b.y)
  }

  /** Twice the signed area of a triangle (the cross product of two sides). */
  function Area2(t: Triangle): real
  {
    (t.b.x - t.a.x) * (t.c.y - t.a.y) - (t.c.x - t.a.x) * (t.b.y - t.a.y)
  }

  /** `s` is a chain of segments from `p` to `q`: each one starts where the
      previous one ends. */
  ghost predicate Chain(s: seq<Segment>, p: Point, q: Point)
    decreases |s|
  {
    if s == [] then p == q else s[0].a == p && Chain(s[1..], s[0].b, q)
  }

  lemma {:induction false} ChainAppend(s: seq<Segment>, t: seq<Segment>, p: Point, q: Point, r: Point)
    requires Chain(s, p, q) && Chain(t, q, r)
    ensures Chain(s + t, p, r)
    decreases |s|
  {
    if s == [] {
      assert s + t == t;
    } else {
      assert (s + t)[1..] == s[1..] + t;
      ChainAppend(s[1..], t, s[0].b, q, r);
    }
  }

  /** The index form of a chain: it starts at `p`, ends at `q`, and each
      segment's end is the next one's start. */
  lemma {:induction false} ChainLinks(s: seq<Segment>, p: Point, q: Point)
    requires Chain(s, p, q) && s != []
    ensures s[0].a == p && s[|s| - 1].b == q
    ensures forall i :: 0 <= i < |s| - 1 ==> s[i].b == s[i + 1].a
    decreases |s|
  {
    if |s| == 1 {
      assert s[1..] == [];
    } else {
      ChainLinks(s[1..], s[0].b, q);
      forall i | 0 <= i < |s| - 1 ensures s[i].b == s[i + 1].a {
        if i > 0 { assert s[i] == s[1..][i - 1]; }
      }
    }
  }

  /** Splitting a chain at any index gives the point where the two halves meet. */
  lemma {:induction false} ChainSplit(s: seq<Segment>, p: Point, q: Point, k: nat)
    requires Chain(s, p, q) && k < |s|
    ensures Chain(s[..k], p, s[k].a) && Chain(s[k..], s[k].a, q)
    decreases k
  {
    if k > 0 {
      ChainSplit(s[1..], s[0].b, q, k - 1);
      assert s[1..][..k - 1] == s[..k][1..];
      assert s[1..][k - 1..] == s[k..];
    }
  }
}
