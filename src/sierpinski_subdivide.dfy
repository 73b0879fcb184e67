/** The recursive subdivision shared by the Sierpinski renderers: a
    triangle is replaced by the three corner triangles cut off by its edge
    midpoints; the middle one is dropped. */
module SierpinskiSubdivide {
  import opened Geometry

  /** The three children in drawing order: at corner `a` (a, ab, ca), at
      corner `b` (ab, b, bc), at corner `c` (ca, bc, c). */
  function Children(t: Triangle): (r: seq<Triangle>)
    ensures |r| == 3
  {
    var ab := Midpoint(t.a, t.b);
    var bc := Midpoint(t.b, t.c);
    var ca := Midpoint(t.c, t.a);
    [Triangle(t.a, ab, ca), Triangle(ab, t.b, bc), Triangle(ca, bc, t.c)]
  }

  /** The leaf triangles `subdivide(a, b, c, n)` reaches, in order. */
  function Subdivide(t: Triangle, n: nat): (r: seq<Triangle>)
    ensures |r| == Pow(3, n)
    decreases n
  {
    if n == 0 then [t]
    else
      var c := Children(t);
      Subdivide(c[0], n - 1) + Subdivide(c[1], n - 1) + Subdivide(c[2], n - 1)
  }

  /** Each child has a quarter of its parent's (signed) area. */
  lemma ChildArea(t: Triangle, i: nat)
    requires i < 3
    ensures Area2(Children(t)[i]) == Area2(t) / 4.0
  {
    var ux, uy := t.b.x - t.a.x, t.b.y - t.a.y;
    var vx, vy := t.c.x - t.a.x, t.c.y - t.a.y;
    var k := Children(t)[i];
    assert k.b.x - k.a.x == ux / 2.0 && k.b.y - k.a.y == uy / 2.0;
    assert k.c.x - k.a.x == vx / 2.0 && k.c.y - k.a.y == vy / 2.0;
    assert (ux / 2.0) * (vy / 2.0) - (vx / 2.0) * (uy / 2.0) == (ux * vy - vx * uy) / 4.0;
  }

  /** A step at level `n >= 1` splits the leaves into three equal blocks,
      those of the children in order. */
  lemma SubdivideThirds(t: Triangle, n: nat)
    requires n >= 1
    ensures var r, k, c := Subdivide(t, n), Pow(3, n - 1), Children(t);
      && r[..k] == Subdivide(c[0], n - 1)
      && r[k..2 * k] == Subdivide(c[1], n - 1)
      && r[2 * k..] == Subdivide(c[2], n - 1)
  {
    var k, c := Pow(3, n - 1), Children(t);
    var r := Subdivide(c[0], n - 1) + Subdivide(c[1], n - 1) + Subdivide(c[2], n - 1);
    assert r[..k] == Subdivide(c[0], n - 1);
    assert r[k..2 * k] == Subdivide(c[1], n - 1);
    assert r[2 * k..] == Subdivide(c[2], n - 1);
  }

  /** Every triangle of `s` has (signed, doubled) area `v`. */
  ghost predicate AllArea(s: seq<Triangle>, v: real)
  {
    forall i :: 0 <= i < |s| ==> Area2(s[i]) == v
  }

  lemma AllAreaConcat(s0: seq<Triangle>, s1: seq<Triangle>, s2: seq<Triangle>, v: real)
    requires AllArea(s0, v) && AllArea(s1, v) && AllArea(s2, v)
    ensures AllArea(s0 + s1 + s2, v)
  {
  }

  /** A quarter of `x`, scaled by `(1/4)^(n-1)`, is `x` scaled by `(1/4)^n`. */
  lemma QuarterStep(x: real, q: real)
    ensures (x / 4.0) * q == x * (0.25 * q)
  {
  }

  /** Every leaf at level `n` has `1 / 4^n` of the base triangle's area. */
  lemma {:induction false} LeafArea(t: Triangle, n: nat)
    ensures AllArea(Subdivide(t, n), Area2(t) * RPow(0.25, n))
    decreases n
  {
    if n >= 1 {
      var c := Children(t);
      var v := Area2(t) * RPow(0.25, n);
      QuarterStep(Area2(t), RPow(0.25, n - 1));
      ChildArea(t, 0);
      ChildArea(t, 1);
      ChildArea(t, 2);
      LeafArea(c[0], n - 1);
      LeafArea(c[1], n - 1);
      LeafArea(c[2], n - 1);
      AllAreaConcat(Subdivide(c[0], n - 1), Subdivide(c[1], n - 1), Subdivide(c[2], n - 1), v);
    }
  }

  /** The total (signed, doubled) area of a list of triangles. */
  function SumArea(s: seq<Triangle>): real
    decreases |s|
  {
    if s == [] then 0.0 else SumArea(s[..|s| - 1]) + Area2(s[|s| - 1])
  }

  lemma {:induction false} SumAreaAppend(s: seq<Triangle>, u: seq<Triangle>)
    ensures SumArea(s + u) == SumArea(s) + SumArea(u)
    decreases |u|
  {
    if u == [] {
      assert s + u == s;
    } else {
      assert (s + u)[..|s + u| - 1] == s + u[..|u| - 1];
      SumAreaAppend(s, u[..|u| - 1]);
    }
  }

  /** `|s|` triangles of area `v` add up to `|s| * v`. */
  lemma {:induction false} SumAllArea(s: seq<Triangle>, v: real)
    requires AllArea(s, v)
    ensures SumArea(s) == |s| as real * v
    decreases |s|
  {
    if s != [] {
      var init := s[..|s| - 1];
      assert AllArea(init, v) by {
        forall i | 0 <= i < |init| ensures Area2(init[i]) == v {
          assert init[i] == s[i];
        }
      }
      SumAllArea(init, v);
      assert Area2(s[|s| - 1]) == v;
      assert |s| as real * v == (|s| - 1) as real * v + v;
    }
  }

  /** `3^n * (1/4)^n == (3/4)^n`. */
  lemma {:induction false} ThreeQuartersPow(n: nat)
    ensures Pow(3, n) as real * RPow(0.25, n) == RPow(0.75, n)
    decreases n
  {
    if n >= 1 {
      ThreeQuartersPow(n - 1);
      var p, q := Pow(3, n - 1) as real, RPow(0.25, n - 1);
      assert Pow(3, n) as real == 3.0 * p;
      assert (3.0 * p) * (0.25 * q) == 0.75 * (p * q);
    }
  }

  /** The leaves cover `(3/4)^n` of the base triangle's area: the
      `S0 * (3/4)^n` of the topic's formulas. */
  lemma TotalArea(t: Triangle, n: nat)
    ensures SumArea(Subdivide(t, n)) == Area2(t) * RPow(0.75, n)
  {
    LeafArea(t, n);
    SumOfLeaves(Subdivide(t, n), Area2(t), n);
  }

  /** `3^n` triangles, each with `1 / 4^n` of `x`, add up to `(3/4)^n` of it. */
  lemma SumOfLeaves(s: seq<Triangle>, x: real, n: nat)
    requires |s| == Pow(3, n) && AllArea(s, x * RPow(0.25, n))
    ensures SumArea(s) == x * RPow(0.75, n)
  {
    SumAllArea(s, x * RPow(0.25, n));
    ThreeQuartersPow(n);
    Reassociate(Pow(3, n) as real, x, RPow(0.25, n), RPow(0.75, n));
  }

  lemma Reassociate(k: real, x: real, q: real, r: real)
    requires k * q == r
    ensures k * (x * q) == x * r
  {
  }

  /** Where the base triangle's corner `b` ends up: in the second child's
      block at every level. */
  function CornerB(n: nat): nat
  {
    if n == 0 then 0 else Pow(3, n - 1) + CornerB(n - 1)
  }

  /** The base triangle's corners survive as leaf corners at every level:
      `a` as the first leaf's first corner, `b` as the second corner of leaf
      `CornerB(n)`, `c` as the last leaf's third corner. */
  lemma {:induction false} FirstCorner(t: Triangle, n: nat)
    ensures Subdivide(t, n)[0].a == t.a
    decreases n
  {
    if n >= 1 {
      var c := Children(t);
      FirstCorner(c[0], n - 1);
      assert Subdivide(t, n)[0] == Subdivide(c[0], n - 1)[0];
    }
  }

  lemma {:induction false} SecondCorner(t: Triangle, n: nat)
    ensures CornerB(n) < |Subdivide(t, n)| && Subdivide(t, n)[CornerB(n)].b == t.b
    decreases n
  {
    if n >= 1 {
      var c := Children(t);
      var s0, s1, s2 := Subdivide(c[0], n - 1), Subdivide(c[1], n - 1), Subdivide(c[2], n - 1);
      SecondCorner(c[1], n - 1);
      assert Subdivide(t, n) == s0 + s1 + s2;
      assert CornerB(n) == |s0| + CornerB(n - 1);
      MiddleIndex(s0, s1, s2, CornerB(n - 1));
    }
  }

  lemma MiddleIndex<A>(s0: seq<A>, s1: seq<A>, s2: seq<A>, j: nat)
    requires j < |s1|
    ensures (s0 + s1 + s2)[|s0| + j] == s1[j]
  {
  }

  lemma {:induction false} LastCorner(t: Triangle, n: nat)
    ensures Subdivide(t, n)[|Subdivide(t, n)| - 1].c == t.c
    decreases n
  {
    if n >= 1 {
      var c := Children(t);
      var s0, s1, s2 := Subdivide(c[0], n - 1), Subdivide(c[1], n - 1), Subdivide(c[2], n - 1);
      LastCorner(c[2], n - 1);
      assert Subdivide(t, n) == s0 + s1 + s2;
      assert (s0 + s1 + s2)[|s0 + s1 + s2| - 1] == s2[|s2| - 1];
    }
  }
}
