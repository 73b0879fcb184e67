/** The recursive subdivision shared by the Koch generators: a segment is
    replaced by four, through its first third, a peak point and its second
    third. The generators differ only in how the peak is computed, so the
    rule that places the peak is a parameter. */
module KochSubdivide {
  import opened Geometry

  /** `subdivide(x1, y1, x2, y2, n, out)`: the base-case segments pushed onto
      `out`, in order. */
  function Subdivide(peak: (Point, Point) -> Point, p: Point, q: Point, n: nat): (r: seq<Segment>)
    ensures |r| == Pow(4, n)
    decreases n
  {
    if n == 0 then [Segment(p, q)]
    else
      var a := Third(p, q);
      var c := peak(p, q);
      var b := TwoThirds(p, q);
      Subdivide(peak, p, a, n - 1) + Subdivide(peak, a, c, n - 1)
      + Subdivide(peak, c, b, n - 1) + Subdivide(peak, b, q, n - 1)
  }

  /** The peak of `kochSnowflake.ts`, `kochCurve.ts` and `kochLine`: from
      the first third, a third of the segment's length in the direction of
      the segment turned by minus 60 degrees. */
  function OutwardPeak(t: Trig, p: Point, q: Point): Point
  {
    var dx := q.x - p.x;
    var dy := q.y - p.y;
    var a := Third(p, q);
    var angle := t.atan2(dy, dx) - t.pi / 3.0;
    var len := t.sqrt(dx * dx + dy * dy) / 3.0;
    Point(a.x + t.cos(angle) * len, a.y + t.sin(angle) * len)
  }

  function Outward(t: Trig): (Point, Point) -> Point
  {
    (p, q) => OutwardPeak(t, p, q)
  }

  /** The peak of the demo page's `kochCurve`: from the first third, a third
      of the segment's length in the direction of the segment turned by plus
      60 degrees. */
  function TurnedPeak(t: Trig, p: Point, q: Point): Point
  {
    PeakFrom(t, Third(p, q), q.x - p.x, q.y - p.y)
  }

  /** The direction of a segment of extent `(dx, dy)` turned by 60 degrees. */
  function TurnedAngle(t: Trig, dx: real, dy: real): real
  {
    t.atan2(dy, dx) + t.pi / 3.0
  }

  /** A third of the length of a segment of extent `(dx, dy)`. */
  function ThirdLength(t: Trig, dx: real, dy: real): real
  {
    t.sqrt(dx * dx + dy * dy) / 3.0
  }

  /** The turned peak for a segment with first third `a` and extent `(dx, dy)`. */
  function PeakFrom(t: Trig, a: Point, dx: real, dy: real): Point
  {
    var angle := TurnedAngle(t, dx, dy);
    var length := ThirdLength(t, dx, dy);
    Point(a.x + t.cos(angle) * length, a.y + t.sin(angle) * length)
  }

  function Turned(t: Trig): (Point, Point) -> Point
  {
    (p, q) => TurnedPeak(t, p, q)
  }

  /** The subdivision's segments chain from `p` to `q`. */
  lemma {:induction false} SubdivideChains(peak: (Point, Point) -> Point, p: Point, q: Point, n: nat)
    ensures Chain(Subdivide(peak, p, q, n), p, q)
    decreases n
  {
    if n == 0 {
      assert Subdivide(peak, p, q, 0)[1..] == [];
    } else {
      var a, c, b := Third(p, q), peak(p, q), TwoThirds(p, q);
      SubdivideChains(peak, p, a, n - 1);
      SubdivideChains(peak, a, c, n - 1);
      SubdivideChains(peak, c, b, n - 1);
      SubdivideChains(peak, b, q, n - 1);
      ChainFour(Subdivide(peak, p, a, n - 1), Subdivide(peak, a, c, n - 1),
        Subdivide(peak, c, b, n - 1), Subdivide(peak, b, q, n - 1), p, a, c, b, q);
    }
  }

  /** Four chains meeting end to start make one chain. */
  lemma ChainFour(s1: seq<Segment>, s2: seq<Segment>, s3: seq<Segment>, s4: seq<Segment>,
                  p: Point, a: Point, c: Point, b: Point, q: Point)
    requires Chain(s1, p, a) && Chain(s2, a, c) && Chain(s3, c, b) && Chain(s4, b, q)
    ensures Chain(s1 + s2 + s3 + s4, p, q)
  {
    ChainAppend(s1, s2, p, a, c);
    ChainAppend(s1 + s2, s3, p, c, b);
    ChainAppend(s1 + s2 + s3, s4, p, b, q);
  }

  /** A step at level `n >= 1` splits the output into four equal quarters,
      the subdivisions of `p` to the first third, the first third to the
      peak, the peak to the second third and the second third to `q`; the
      quarters start exactly at those cut points. */
  lemma SubdivideQuarters(peak: (Point, Point) -> Point, p: Point, q: Point, n: nat)
    requires n >= 1
    ensures var r, k := Subdivide(peak, p, q, n), Pow(4, n - 1);
      && r[..k] == Subdivide(peak, p, Third(p, q), n - 1)
      && r[k..2 * k] == Subdivide(peak, Third(p, q), peak(p, q), n - 1)
      && r[2 * k..3 * k] == Subdivide(peak, peak(p, q), TwoThirds(p, q), n - 1)
      && r[3 * k..] == Subdivide(peak, TwoThirds(p, q), q, n - 1)
      && r[0].a == p && r[k].a == Third(p, q) && r[2 * k].a == peak(p, q)
      && r[3 * k].a == TwoThirds(p, q) && r[4 * k - 1].b == q
  {
    var a, c, b := Third(p, q), peak(p, q), TwoThirds(p, q);
    var s1, s2 := Subdivide(peak, p, a, n - 1), Subdivide(peak, a, c, n - 1);
    var s3, s4 := Subdivide(peak, c, b, n - 1), Subdivide(peak, b, q, n - 1);
    SubdivideChains(peak, p, a, n - 1);
    SubdivideChains(peak, a, c, n - 1);
    SubdivideChains(peak, c, b, n - 1);
    SubdivideChains(peak, b, q, n - 1);
    assert Subdivide(peak, p, q, n) == s1 + s2 + s3 + s4;
    Quarters(s1, s2, s3, s4, Pow(4, n - 1), p, a, c, b, q);
  }

  /** Four chains of `k >= 1` segments each, concatenated: each is a quarter,
      starting at its own start point. */
  lemma Quarters(s1: seq<Segment>, s2: seq<Segment>, s3: seq<Segment>, s4: seq<Segment>, k: nat,
                 p: Point, a: Point, c: Point, b: Point, q: Point)
    requires k >= 1 && |s1| == |s2| == |s3| == |s4| == k
    requires Chain(s1, p, a) && Chain(s2, a, c) && Chain(s3, c, b) && Chain(s4, b, q)
    ensures var r := s1 + s2 + s3 + s4;
      && r[..k] == s1 && r[k..2 * k] == s2 && r[2 * k..3 * k] == s3 && r[3 * k..] == s4
      && r[0].a == p && r[k].a == a && r[2 * k].a == c && r[3 * k].a == b && r[4 * k - 1].b == q
  {
    var r := s1 + s2 + s3 + s4;
    assert r[..k] == s1;
    assert r[k..2 * k] == s2;
    assert r[2 * k..3 * k] == s3;
    assert r[3 * k..] == s4;
    ChainLinks(s1, p, a);
    ChainLinks(s2, a, c);
    ChainLinks(s3, c, b);
    ChainLinks(s4, b, q);
    assert r[0] == s1[0] && r[k] == s2[0] && r[2 * k] == s3[0] && r[3 * k] == s4[0];
    assert r[4 * k - 1] == s4[k - 1];
  }

  /** Every segment of `edges` subdivided in turn, the outputs concatenated. */
  function SubdivideEach(peak: (Point, Point) -> Point, edges: seq<Segment>, n: nat): (r: seq<Segment>)
    ensures |r| == |edges| * Pow(4, n)
    decreases |edges|
  {
    if edges == [] then []
    else
      var e := edges[|edges| - 1];
      SubdivideEach(peak, edges[..|edges| - 1], n) + Subdivide(peak, e.a, e.b, n)
  }

  /** Three edges: the three subdivisions in turn. */
  lemma SubdivideEachThree(peak: (Point, Point) -> Point, edges: seq<Segment>, n: nat)
    requires |edges| == 3
    ensures SubdivideEach(peak, edges, n)
      == Subdivide(peak, edges[0].a, edges[0].b, n) + Subdivide(peak, edges[1].a, edges[1].b, n)
         + Subdivide(peak, edges[2].a, edges[2].b, n)
  {
    assert edges[..2][..1] == edges[..1] && edges[..1][..0] == [];
    assert SubdivideEach(peak, edges[..1], n) == Subdivide(peak, edges[0].a, edges[0].b, n);
  }

  /** Subdividing every edge of a chain gives a chain between the same ends. */
  lemma {:induction false} SubdivideEachChains(peak: (Point, Point) -> Point, edges: seq<Segment>, p: Point, q: Point, n: nat)
    requires Chain(edges, p, q)
    ensures Chain(SubdivideEach(peak, edges, n), p, q)
    decreases |edges|
  {
    if edges != [] {
      var init, e := edges[..|edges| - 1], edges[|edges| - 1];
      ChainSplit(edges, p, q, |edges| - 1);
      assert edges[|edges| - 1..] == [e];
      assert e.a == edges[|edges| - 1].a && e.b == q;
      SubdivideEachChains(peak, init, p, e.a, n);
      SubdivideChains(peak, e.a, q, n);
      ChainAppend(SubdivideEach(peak, init, n), Subdivide(peak, e.a, q, n), p, e.a, q);
    }
  }

  /** At level 0 nothing is subdivided. */
  lemma {:induction false} SubdivideEachZero(peak: (Point, Point) -> Point, edges: seq<Segment>)
    ensures SubdivideEach(peak, edges, 0) == edges
    decreases |edges|
  {
    if edges != [] {
      SubdivideEachZero(peak, edges[..|edges| - 1]);
      assert edges[..|edges| - 1] + [edges[|edges| - 1]] == edges;
    }
  }

  /** Edge `i`'s subdivision is the `i`-th block of `Pow(4, n)` segments. */
  lemma {:induction false} SubdivideEachBlock(peak: (Point, Point) -> Point, edges: seq<Segment>, n: nat, i: nat)
    requires i < |edges|
    ensures var k, r := Pow(4, n), SubdivideEach(peak, edges, n);
      (i + 1) * k <= |r| && r[i * k..(i + 1) * k] == Subdivide(peak, edges[i].a, edges[i].b, n)
    decreases |edges|
  {
    var k := Pow(4, n);
    var init, e := edges[..|edges| - 1], edges[|edges| - 1];
    var front, last := SubdivideEach(peak, init, n), Subdivide(peak, e.a, e.b, n);
    assert SubdivideEach(peak, edges, n) == front + last;
    MulSucc(i, k);
    if i == |edges| - 1 {
      BlockAtEnd(front, last, i * k);
    } else {
      SubdivideEachBlock(peak, init, n, i);
      BlockInFront(front, last, i * k, (i + 1) * k);
    }
  }

  lemma MulSucc(i: nat, k: nat)
    ensures (i + 1) * k == i * k + k
  {
  }

  lemma BlockAtEnd(front: seq<Segment>, last: seq<Segment>, lo: nat)
    requires lo == |front|
    ensures lo + |last| <= |front + last| && (front + last)[lo..lo + |last|] == last
  {
  }

  lemma BlockInFront(front: seq<Segment>, last: seq<Segment>, lo: nat, hi: nat)
    requires lo <= hi <= |front|
    ensures (front + last)[lo..hi] == front[lo..hi]
  {
  }
}
