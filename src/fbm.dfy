/** `fbm.ts`: fractal Brownian motion summed from a sine hash, normalised by
    its own minimum and maximum into [0, 1], then shaded as terrain with a
    directional light and contour lines every 0.1 of height. */
module Fbm {
  import opened Wrappers
  import opened Geometry
  import opened Grid

  /** `noise2D`: the fractional part of a scaled sine of the sample
      position. `sin` is left abstract; the fractional part is exact. */
  function Hash(sin: real -> real, x: real, y: real, seed: real): (r: real)
    ensures 0.0 <= r < 1.0
  {
    var s := sin(x * 12.9898 + y * 78.233 + seed * 43758.5453) * 43758.5453;
    s - s.Floor as real
  }

  /** The parameters of `fbm` after the image size. */
  datatype Params = Params(octaves: nat, scale: real, persistence: real, lacunarity: real, seed: real)

  /** The defaults `scale = 0.008`, `persistence = 0.5`, `lacunarity = 2`,
      `seed = 42`. */
  function Defaults(octaves: nat): Params
  {
    Params(octaves, 0.008, 0.5, 2.0, 42.0)
  }

  /** One octave's contribution: a hash sample at `freq` times the scaled
      position, moved to [-1, 1) and weighted by `amp`. */
  function Term(sin: real -> real, p: Params, x: real, y: real, freq: real, amp: real): real
  {
    (Hash(sin, x * p.scale * freq, y * p.scale * freq, p.seed) * 2.0 - 1.0) * amp
  }

  /** Octave `o` samples at frequency `lacunarity^o` with weight
      `persistence^o`. */
  function Octave(sin: real -> real, p: Params, x: real, y: real, o: nat): real
  {
    Term(sin, p, x, y, RPow(p.lacunarity, o), RPow(p.persistence, o))
  }

  /** The raw value of a sample after its first `n` octaves. */
  function OctaveSum(sin: real -> real, p: Params, x: real, y: real, n: nat): real
  {
    if n == 0 then 0.0 else OctaveSum(sin, p, x, y, n - 1) + Octave(sin, p, x, y, n - 1)
  }

  /** The total weight of the first `n` octaves. */
  function Weight(persistence: real, n: nat): real
  {
    if n == 0 then 0.0 else Weight(persistence, n - 1) + RPow(persistence, n - 1)
  }

  lemma {:induction false} PowNonNegative(b: real, n: nat)
    requires b >= 0.0
    ensures RPow(b, n) >= 0.0
  {
    if n > 0 {
      PowNonNegative(b, n - 1);
    }
  }

  /** A non-negative weight bounds the octave's contribution. */
  lemma TermBound(sin: real -> real, p: Params, x: real, y: real, freq: real, amp: real)
    requires amp >= 0.0
    ensures -amp <= Term(sin, p, x, y, freq, amp) <= amp
  {
    Centred(Hash(sin, x * p.scale * freq, y * p.scale * freq, p.seed), amp);
  }

  lemma Centred(v: real, amp: real)
    requires 0.0 <= v < 1.0 && amp >= 0.0
    ensures -amp <= (v * 2.0 - 1.0) * amp <= amp
  {
    var c := v * 2.0 - 1.0;
    MulNonNegative(1.0 - c, amp);
    MulNonNegative(1.0 + c, amp);
    assert (1.0 - c) * amp == amp - c * amp;
    assert (1.0 + c) * amp == amp + c * amp;
  }

  /** With a non-negative persistence the raw sum never leaves
      [-Weight, Weight]: each octave contributes at most its weight. */
  lemma {:induction false} OctaveSumBound(sin: real -> real, p: Params, x: real, y: real, n: nat)
    requires p.persistence >= 0.0
    ensures -Weight(p.persistence, n) <= OctaveSum(sin, p, x, y, n) <= Weight(p.persistence, n)
  {
    if n > 0 {
      OctaveSumBound(sin, p, x, y, n - 1);
      PowNonNegative(p.persistence, n - 1);
      TermBound(sin, p, x, y, RPow(p.lacunarity, n - 1), RPow(p.persistence, n - 1));
    }
  }

  /** The octave loop for one pixel: `amp` and `freq` are the running powers
      of the persistence and the lacunarity. */
  method Octaves(sin: real -> real, p: Params, x: nat, y: nat) returns (val: real)
    ensures val == Raw(sin, p, x, y)
  {
    var amp, freq := 1.0, 1.0;
    val := 0.0;
    var o := 0;
    while o < p.octaves
      invariant o <= p.octaves
      invariant amp == RPow(p.persistence, o) && freq == RPow(p.lacunarity, o)
      invariant val == OctaveSum(sin, p, x as real, y as real, o)
    {
      val := val + Term(sin, p, x as real, y as real, freq, amp);
      amp := amp * p.persistence;
      freq := freq * p.lacunarity;
      o := o + 1;
    }
  }

  /** The raw value of pixel `(x, y)`: all its octaves. */
  function Raw(sin: real -> real, p: Params, x: nat, y: nat): real
  {
    OctaveSum(sin, p, x as real, y as real, p.octaves)
  }

  /** The raw field, row by row: entry `k` is column `k % w` of row `k / w`. */
  function Field(sin: real -> real, p: Params, w: nat, h: nat): (r: seq<real>)
    ensures |r| == w * h
  {
    if w == 0 then []
    else seq(w * h, k requires 0 <= k < w * h => Raw(sin, p, k % w, k / w))
  }

  /** The smallest and the largest entry of a non-empty sequence. */
  function SeqMin(s: seq<real>): real
    requires |s| > 0
  {
    if |s| == 1 then s[0] else MinR(SeqMin(s[..|s| - 1]), s[|s| - 1])
  }

  function SeqMax(s: seq<real>): real
    requires |s| > 0
  {
    if |s| == 1 then s[0] else MaxR(SeqMax(s[..|s| - 1]), s[|s| - 1])
  }

  /** `SeqMin` is a lower bound that some entry attains. */
  lemma {:induction false} SeqMinIsMinimum(s: seq<real>)
    requires |s| > 0
    ensures forall i :: 0 <= i < |s| ==> SeqMin(s) <= s[i]
    ensures exists i :: 0 <= i < |s| && s[i] == SeqMin(s)
  {
    if |s| > 1 {
      var t := s[..|s| - 1];
      SeqMinIsMinimum(t);
      assert forall i :: 0 <= i < |t| ==> s[i] == t[i];
      var j :| 0 <= j < |t| && t[j] == SeqMin(t);
      if SeqMin(t) <= s[|s| - 1] {
        assert s[j] == SeqMin(s);
      } else {
        assert s[|s| - 1] == SeqMin(s);
      }
    } else {
      assert s[0] == SeqMin(s);
    }
  }

  /** `SeqMax` is an upper bound that some entry attains. */
  lemma {:induction false} SeqMaxIsMaximum(s: seq<real>)
    requires |s| > 0
    ensures forall i :: 0 <= i < |s| ==> s[i] <= SeqMax(s)
    ensures exists i :: 0 <= i < |s| && s[i] == SeqMax(s)
  {
    if |s| > 1 {
      var t := s[..|s| - 1];
      SeqMaxIsMaximum(t);
      assert forall i :: 0 <= i < |t| ==> s[i] == t[i];
      var j :| 0 <= j < |t| && t[j] == SeqMax(t);
      if SeqMax(t) >= s[|s| - 1] {
        assert s[j] == SeqMax(s);
      } else {
        assert s[|s| - 1] == SeqMax(s);
      }
    } else {
      assert s[0] == SeqMax(s);
    }
  }

  /** The running `min` and `max` after the samples `s`: `None` stands for
      the initial `Infinity` and `-Infinity`. */
  function RunMin(s: seq<real>): Option<real>
  {
    if |s| == 0 then None else Some(SeqMin(s))
  }

  function RunMax(s: seq<real>): Option<real>
  {
    if |s| == 0 then None else Some(SeqMax(s))
  }

  /** `Math.min(min, val)` and `Math.max(max, val)`. */
  function MinWith(m: Option<real>, v: real): real
  {
    if m.None? then v else MinR(m.value, v)
  }

  function MaxWith(m: Option<real>, v: real): real
  {
    if m.None? then v else MaxR(m.value, v)
  }

  /** `Math.max(1e-6, max - min)`; before any sample `max - min` is
      `-Infinity`, so the range is `1e-6`. */
  function Range(lo: Option<real>, hi: Option<real>): (r: real)
    ensures r >= 0.000001
  {
    if lo.Some? && hi.Some? then MaxR(0.000001, hi.value - lo.value) else 0.000001
  }

  /** Min-max normalisation of a non-empty field. */
  function Normalized(s: seq<real>): (r: seq<real>)
    ensures |r| == |s|
  {
    if |s| == 0 then []
    else
      var range := Range(RunMin(s), RunMax(s));
      seq(|s|, i requires 0 <= i < |s| => (s[i] - SeqMin(s)) / range)
  }

  lemma RunStep(s: seq<real>, k: nat, lo: Option<real>, hi: Option<real>, v: real)
    requires k < |s| && s[k] == v
    requires lo == RunMin(s[..k]) && hi == RunMax(s[..k])
    ensures RunMin(s[..k + 1]) == Some(MinWith(lo, v))
    ensures RunMax(s[..k + 1]) == Some(MaxWith(hi, v))
  {
    assert s[..k + 1][..k] == s[..k];
  }

  /** Row `y` of the field occupies the `w` entries from `y * w`. */
  lemma FieldRow(sin: real -> real, p: Params, w: nat, h: nat, y: nat, base: nat)
    requires y < h && base == y * w
    ensures base + w <= w * h
    ensures Field(sin, p, w, h)[base..base + w] == RowValues(sin, p, w, y)
  {
    RowFits(y, w, h);
    forall k | base <= k < base + w
      ensures Field(sin, p, w, h)[k] == Raw(sin, p, k - base, y)
    {
      RowMajor(k - base, y, w, h);
    }
  }

  /** The `w` raw samples of row `y`. */
  function RowValues(sin: real -> real, p: Params, w: nat, y: nat): (r: seq<real>)
    ensures |r| == w
  {
    seq(w, x requires 0 <= x < w => Raw(sin, p, x, y))
  }

  /** One row of the sampling loop, writing from `base == y * w` on. */
  method Row(sin: real -> real, p: Params, out: array<real>, ghost f: seq<real>, w: nat, y: nat, base: nat,
             lo0: Option<real>, hi0: Option<real>)
      returns (lo: Option<real>, hi: Option<real>)
    requires out.Length == |f| && base + w <= |f|
    requires f[base..base + w] == RowValues(sin, p, w, y)
    requires lo0 == RunMin(f[..base]) && hi0 == RunMax(f[..base])
    modifies out
    ensures out[..base] == old(out[..base])
    ensures out[base..base + w] == f[base..base + w]
    ensures lo == RunMin(f[..base + w]) && hi == RunMax(f[..base + w])
  {
    lo, hi := lo0, hi0;
    var x := 0;
    while x < w
      invariant x <= w
      invariant out[..base] == old(out[..base])
      invariant out[base..base + x] == f[base..base + x]
      invariant lo == RunMin(f[..base + x]) && hi == RunMax(f[..base + x])
    {
      var val := Octaves(sin, p, x, y);
      out[base + x] := val;
      assert f[base + x] == f[base..base + w][x] == val;
      RunStep(f, base + x, lo, hi, val);
      lo := Some(MinWith(lo, val));
      hi := Some(MaxWith(hi, val));
      x := x + 1;
    }
  }

  /** `fbm`: sample every pixel row by row while tracking the minimum and
      maximum, then rescale every entry in place by them. */
  method Sample(sin: real -> real, w: nat, h: nat, p: Params) returns (out: array<real>)
    ensures fresh(out) && out[..] == Normalized(Field(sin, p, w, h))
  {
    out := new real[w * h](_ => 0.0);
    var lo, hi := SampleRows(sin, w, h, p, out);
    NormalizeInPlace(out, Field(sin, p, w, h), lo, hi);
  }

  /** The first pass of `fbm`: write every raw sample, row by row, and track
      the running minimum and maximum. */
  method SampleRows(sin: real -> real, w: nat, h: nat, p: Params, out: array<real>) returns (lo: Option<real>, hi: Option<real>)
    requires out.Length == w * h
    modifies out
    ensures out[..] == Field(sin, p, w, h)
    ensures lo == RunMin(Field(sin, p, w, h)) && hi == RunMax(Field(sin, p, w, h))
  {
    ghost var f := Field(sin, p, w, h);
    lo, hi := None, None;
    var y, base := 0, 0;
    while y < h
      invariant y <= h && base <= |f| == out.Length
      invariant base == y * w
      invariant out[..base] == f[..base]
      invariant lo == RunMin(f[..base]) && hi == RunMax(f[..base])
    {
      FieldRow(sin, p, w, h, y, base);
      lo, hi := Row(sin, p, out, f, w, y, base, lo, hi);
      assert out[..base + w] == out[..base] + out[base..base + w];
      assert f[..base + w] == f[..base] + f[base..base + w];
      NextRow(y, w);
      y, base := y + 1, base + w;
    }
    NextRow(h, w);
    assert f[..base] == f;
  }

  lemma NextRow(y: nat, w: nat)
    ensures y * w + w == (y + 1) * w && y * w == w * y
  {
  }

  /** The normalisation loop `out[i] = (out[i] - min) / range`. */
  method NormalizeInPlace(out: array<real>, ghost f: seq<real>, lo: Option<real>, hi: Option<real>)
    requires out[..] == f && lo == RunMin(f) && hi == RunMax(f)
    modifies out
    ensures out[..] == Normalized(f)
  {
    var range := Range(lo, hi);
    var i := 0;
    while i < out.Length
      invariant i <= out.Length
      invariant forall k :: 0 <= k < i ==> out[k] == Normalized(f)[k]
      invariant forall k :: i <= k < out.Length ==> out[k] == f[k]
    {
      out[i] := (out[i] - lo.value) / range;
      i := i + 1;
    }
    assert out[..] == Normalized(f);
  }

  /** The range is positive and covers the spread of the samples. */
  lemma RangeCovers(s: seq<real>)
    requires |s| > 0
    ensures Range(RunMin(s), RunMax(s)) > 0.0
    ensures Range(RunMin(s), RunMax(s)) >= SeqMax(s) - SeqMin(s)
    ensures SeqMax(s) - SeqMin(s) >= 0.000001 ==> Range(RunMin(s), RunMax(s)) == SeqMax(s) - SeqMin(s)
  {
  }

  /** Every normalised value lies in [0, 1]. */
  lemma NormalizedUnit(s: seq<real>)
    ensures forall i :: 0 <= i < |s| ==> 0.0 <= Normalized(s)[i] <= 1.0
  {
    if |s| > 0 {
      SeqMinIsMinimum(s);
      SeqMaxIsMaximum(s);
      var range := Range(RunMin(s), RunMax(s));
      forall i | 0 <= i < |s|
        ensures 0.0 <= Normalized(s)[i] <= 1.0
      {
        UnitQuotient(s[i] - SeqMin(s), range);
      }
    }
  }

  lemma UnitQuotient(a: real, range: real)
    requires 0.0 <= a <= range && range > 0.0
    ensures 0.0 <= a / range <= 1.0
  {
  }

  /** Normalisation keeps the order of the samples, in both directions. */
  lemma NormalizedMonotone(s: seq<real>, i: nat, j: nat)
    requires i < |s| && j < |s|
    ensures s[i] <= s[j] <==> Normalized(s)[i] <= Normalized(s)[j]
  {
    var range := Range(RunMin(s), RunMax(s));
    OrderQuotient(s[i] - SeqMin(s), s[j] - SeqMin(s), range);
  }

  lemma OrderQuotient(a: real, b: real, range: real)
    requires range > 0.0
    ensures a <= b <==> a / range <= b / range
  {
    if a <= b {
      assert b / range - a / range == (b - a) / range;
    } else {
      assert a / range - b / range == (a - b) / range;
    }
  }

  /** The smallest sample becomes 0. */
  lemma NormalizedMinZero(s: seq<real>)
    requires |s| > 0
    ensures exists i :: 0 <= i < |s| && Normalized(s)[i] == 0.0
  {
    SeqMinIsMinimum(s);
    var i :| 0 <= i < |s| && s[i] == SeqMin(s);
    assert Normalized(s)[i] == 0.0 / Range(RunMin(s), RunMax(s));
  }

  /** When the samples spread by at least `1e-6`, the largest becomes 1. */
  lemma NormalizedMaxOne(s: seq<real>)
    requires |s| > 0 && SeqMax(s) - SeqMin(s) >= 0.000001
    ensures exists i :: 0 <= i < |s| && Normalized(s)[i] == 1.0
  {
    SeqMaxIsMaximum(s);
    var j :| 0 <= j < |s| && s[j] == SeqMax(s);
    var range := SeqMax(s) - SeqMin(s);
    assert Range(RunMin(s), RunMax(s)) == range;
    assert Normalized(s)[j] == range / range;
    SelfQuotient(range);
  }

  lemma SelfQuotient(a: real)
    requires a > 0.0
    ensures a / a == 1.0
  {
  }

  /** `lerp(a, b, t) = a + (b - a) * t`. */
  function Lerp(a: real, b: real, t: real): real
  {
    a + (b - a) * t
  }

  /** `lerp` hits its ends at 0 and 1 and stays between them in between. */
  lemma LerpBetween(a: real, b: real, t: real)
    ensures t == 0.0 ==> Lerp(a, b, t) == a
    ensures t == 1.0 ==> Lerp(a, b, t) == b
    ensures 0.0 <= t <= 1.0 ==> MinR(a, b) <= Lerp(a, b, t) <= MaxR(a, b)
  {
    if 0.0 <= t <= 1.0 {
      if a <= b {
        Between(a, b, t);
      } else {
        Between(b, a, 1.0 - t);
        Flip(a, b, t);
      }
    }
  }

  lemma Between(a: real, b: real, t: real)
    requires a <= b && 0.0 <= t <= 1.0
    ensures a <= Lerp(a, b, t) <= b
  {
    var d := b - a;
    MulNonNegative(d, t);
    MulNonNegative(d, 1.0 - t);
    assert d * (1.0 - t) == d - d * t;
    assert d * t == (b - a) * t;
  }

  /** Interpolating backwards from the other end gives the same point. */
  lemma Flip(a: real, b: real, t: real)
    ensures Lerp(b, a, 1.0 - t) == Lerp(a, b, t)
  {
    assert (a - b) * (1.0 - t) == (a - b) - (a - b) * t;
    assert (a - b) * t == -((b - a) * t);
  }

  /** `smoothstep(a, b, x)`: the cubic `t * t * (3 - 2 * t)` of `x`'s
      position between `a` and `b`, clamped to [0, 1]. */
  function SmoothStep(a: real, b: real, x: real): (r: real)
    requires a != b
    ensures 0.0 <= r <= 1.0
  {
    var t := MinR(1.0, MaxR(0.0, (x - a) / (b - a)));
    CubicUnit(t);
    t * t * (3.0 - 2.0 * t)
  }

  lemma CubicUnit(t: real)
    requires 0.0 <= t <= 1.0
    ensures 0.0 <= t * t * (3.0 - 2.0 * t) <= 1.0
  {
    assert 1.0 - t * t * (3.0 - 2.0 * t) == (1.0 - t) * (1.0 - t) * (1.0 + 2.0 * t);
    MulNonNegative(1.0 - t, 1.0 - t);
    MulNonNegative((1.0 - t) * (1.0 - t), 1.0 + 2.0 * t);
    MulNonNegative(t, t);
    MulNonNegative(t * t, 3.0 - 2.0 * t);
  }

  lemma MulNonNegative(a: real, b: real)
    requires a >= 0.0 && b >= 0.0
    ensures a * b >= 0.0
  {
  }

  lemma ScaleUnit(c: real, t: real)
    requires c >= 0.0 && 0.0 <= t <= 1.0
    ensures 0.0 <= c * t <= c
  {
    assert c - c * t == c * (1.0 - t);
    MulNonNegative(c, 1.0 - t);
    MulNonNegative(c, t);
  }

  /** Below `a` the step is 0, above `b` it is 1 (for `a < b`). */
  lemma SmoothStepClamps(a: real, b: real, x: real)
    requires a < b
    ensures x <= a ==> SmoothStep(a, b, x) == 0.0
    ensures x >= b ==> SmoothStep(a, b, x) == 1.0
  {
    if x <= a {
      OrderQuotient(x - a, 0.0, b - a);
      assert (x - a) / (b - a) <= 0.0;
    }
    if x >= b {
      OrderQuotient(b - a, x - a, b - a);
      SelfQuotient(b - a);
      assert (x - a) / (b - a) >= 1.0;
    }
  }

  /** The step never decreases as `x` grows (for `a < b`). */
  lemma SmoothStepMonotone(a: real, b: real, x: real, z: real)
    requires a < b && x <= z
    ensures SmoothStep(a, b, x) <= SmoothStep(a, b, z)
  {
    OrderQuotient(x - a, z - a, b - a);
    var s := MinR(1.0, MaxR(0.0, (x - a) / (b - a)));
    var t := MinR(1.0, MaxR(0.0, (z - a) / (b - a)));
    CubicMonotone(s, t);
  }

  lemma CubicMonotone(s: real, t: real)
    requires 0.0 <= s <= t <= 1.0
    ensures s * s * (3.0 - 2.0 * s) <= t * t * (3.0 - 2.0 * t)
  {
    var d := t * t * (3.0 - 2.0 * t) - s * s * (3.0 - 2.0 * s);
    assert d == (t - s) * (3.0 * (s + t) - 2.0 * (s * s + s * t + t * t));
    ScaleUnit(s, s);
    ScaleUnit(t, t);
    ScaleUnit(s, t);
    ScaleUnit(t, s);
    var ss, st, tt := s * s, s * t, t * t;
    assert ss <= s;
    assert tt <= t;
    assert st <= s;
    assert t * s <= t;
    assert st == t * s;
    assert 2.0 * (ss + st + tt) <= 3.0 * (s + t);
    MulNonNegative(t - s, 3.0 * (s + t) - 2.0 * (s * s + s * t + t * t));
  }

  /** `idx(x, y)`: the index of pixel `(x, y)` with both coordinates
      clamped to the image, so that border pixels reuse their own height. */
  function Idx(x: int, y: int, w: nat, h: nat): int
  {
    MinI(w - 1, MaxI(0, x)) + MinI(h - 1, MaxI(0, y)) * w
  }

  /** For a non-empty image every clamped index is a valid sample. */
  lemma IdxInBounds(x: int, y: int, w: nat, h: nat)
    requires w >= 1 && h >= 1
    ensures 0 <= Idx(x, y, w, h) < w * h
  {
    RowMajor(MinI(w - 1, MaxI(0, x)), MinI(h - 1, MaxI(0, y)), w, h);
  }

  /** Inside the image the clamped index is the row-major index itself. */
  lemma IdxInside(x: int, y: int, w: nat, h: nat)
    requires 0 <= x < w && 0 <= y < h
    ensures Idx(x, y, w, h) == y * w + x
  {
  }

  datatype Vec3 = Vec3(x: real, y: real, z: real)

  /** `Math.hypot`, over an abstract square root. */
  function Hypot(sqrt: real -> real, v: Vec3): real
  {
    sqrt(v.x * v.x + v.y * v.y + v.z * v.z)
  }

  /** `v || 1`: a zero length is replaced by 1. */
  function OrOne(v: real): (r: real)
    ensures r != 0.0
  {
    if v == 0.0 then 1.0 else v
  }

  /** The light factor of a pixel from its four clamped neighbour heights:
      the cosine between the surface normal `((hL - hR) * 8, (hU - hD) * 8, 1)`
      and the light direction, floored at 0.2. */
  function Light(sqrt: real -> real, dir: Vec3, hL: real, hR: real, hU: real, hD: real): (r: real)
    ensures r >= 0.2
  {
    var len := OrOne(Hypot(sqrt, dir));
    var n := Vec3((hL - hR) * 8.0, (hU - hD) * 8.0, 1.0);
    var nLen := OrOne(Hypot(sqrt, n));
    MaxR(0.2, n.x / nLen * (dir.x / len) + n.y / nLen * (dir.y / len) + n.z / nLen * (dir.z / len))
  }

  /** On flat ground the normal points straight up, so the light factor is
      the vertical share of the light direction, floored at 0.2. */
  lemma FlatLight(sqrt: real -> real, dir: Vec3, hL: real, hU: real)
    requires sqrt(1.0) == 1.0
    ensures Light(sqrt, dir, hL, hL, hU, hU) == MaxR(0.2, dir.z / OrOne(Hypot(sqrt, dir)))
  {
    var n := Vec3((hL - hL) * 8.0, (hU - hU) * 8.0, 1.0);
    assert n.x * n.x + n.y * n.y + n.z * n.z == 1.0;
  }

  /** A terrain colour, one real per channel. */
  datatype Rgb = Rgb(r: real, g: real, b: real)

  /** `lerpRGB`: channel-wise `lerp`. */
  function LerpRgb(a: Rgb, b: Rgb, t: real): Rgb
  {
    Rgb(Lerp(a.r, b.r, t), Lerp(a.g, b.g, t), Lerp(a.b, b.b, t))
  }

  /** `terrainColor`: four height bands (water to sand, grass, rock, snow),
      each blending its two end colours by a smooth step of the position
      inside the band. */
  function TerrainColor(t: real): Rgb
  {
    if t < 0.35 then
      LerpRgb(Rgb(30.0, 60.0, 150.0), Rgb(220.0, 205.0, 160.0), SmoothStep(0.0, 1.0, t / 0.35))
    else if t < 0.6 then
      LerpRgb(Rgb(90.0, 160.0, 60.0), Rgb(40.0, 120.0, 40.0), SmoothStep(0.0, 1.0, (t - 0.35) / 0.25))
    else if t < 0.8 then
      LerpRgb(Rgb(110.0, 110.0, 110.0), Rgb(170.0, 170.0, 170.0), SmoothStep(0.0, 1.0, (t - 0.6) / 0.2))
    else
      LerpRgb(Rgb(200.0, 200.0, 210.0), Rgb(245.0, 245.0, 250.0), SmoothStep(0.0, 1.0, (t - 0.8) / 0.2))
  }

  /** Blending two colours stays between them, channel by channel. */
  lemma LerpRgbBetween(a: Rgb, b: Rgb, t: real)
    requires 0.0 <= t <= 1.0
    ensures var c := LerpRgb(a, b, t);
      && MinR(a.r, b.r) <= c.r <= MaxR(a.r, b.r)
      && MinR(a.g, b.g) <= c.g <= MaxR(a.g, b.g)
      && MinR(a.b, b.b) <= c.b <= MaxR(a.b, b.b)
  {
    LerpBetween(a.r, b.r, t);
    LerpBetween(a.g, b.g, t);
    LerpBetween(a.b, b.b, t);
  }

  /** Every terrain colour channel lies in [30, 250], so each is a byte
      before lighting, whatever the height. */
  lemma TerrainColorRange(t: real)
    ensures var c := TerrainColor(t);
      30.0 <= c.r <= 245.0 && 60.0 <= c.g <= 245.0 && 40.0 <= c.b <= 250.0
  {
    if t < 0.35 {
      LerpRgbBetween(Rgb(30.0, 60.0, 150.0), Rgb(220.0, 205.0, 160.0), SmoothStep(0.0, 1.0, t / 0.35));
    } else if t < 0.6 {
      LerpRgbBetween(Rgb(90.0, 160.0, 60.0), Rgb(40.0, 120.0, 40.0), SmoothStep(0.0, 1.0, (t - 0.35) / 0.25));
    } else if t < 0.8 {
      LerpRgbBetween(Rgb(110.0, 110.0, 110.0), Rgb(170.0, 170.0, 170.0), SmoothStep(0.0, 1.0, (t - 0.6) / 0.2));
    } else {
      LerpRgbBetween(Rgb(200.0, 200.0, 210.0), Rgb(245.0, 245.0, 250.0), SmoothStep(0.0, 1.0, (t - 0.8) / 0.2));
    }
  }

  /** Each band opens on its first colour: heights at or below 0 are deep
      water, and 0.35, 0.6 and 0.8 start grass, rock and snow. */
  lemma TerrainColorBands(t: real)
    ensures t <= 0.0 ==> TerrainColor(t) == Rgb(30.0, 60.0, 150.0)
    ensures TerrainColor(0.35) == Rgb(90.0, 160.0, 60.0)
    ensures TerrainColor(0.6) == Rgb(110.0, 110.0, 110.0)
    ensures TerrainColor(0.8) == Rgb(200.0, 200.0, 210.0)
  {
    if t <= 0.0 {
      DeepWater(t);
    }
    BandOpenings();
  }

  lemma DeepWater(t: real)
    requires t <= 0.0
    ensures TerrainColor(t) == Rgb(30.0, 60.0, 150.0)
  {
    var u := t / 0.35;
    assert u * 0.35 == t;
    assert u <= 0.0;
    BandStart(Rgb(30.0, 60.0, 150.0), Rgb(220.0, 205.0, 160.0), u);
    assert TerrainColor(t) == LerpRgb(Rgb(30.0, 60.0, 150.0), Rgb(220.0, 205.0, 160.0), SmoothStep(0.0, 1.0, u));
  }

  lemma BandOpenings()
    ensures TerrainColor(0.35) == Rgb(90.0, 160.0, 60.0)
    ensures TerrainColor(0.6) == Rgb(110.0, 110.0, 110.0)
    ensures TerrainColor(0.8) == Rgb(200.0, 200.0, 210.0)
  {
    var z := SmoothStep(0.0, 1.0, 0.0);
    BandStart(Rgb(90.0, 160.0, 60.0), Rgb(40.0, 120.0, 40.0), 0.0);
    BandStart(Rgb(110.0, 110.0, 110.0), Rgb(170.0, 170.0, 170.0), 0.0);
    BandStart(Rgb(200.0, 200.0, 210.0), Rgb(245.0, 245.0, 250.0), 0.0);
    assert TerrainColor(0.35) == LerpRgb(Rgb(90.0, 160.0, 60.0), Rgb(40.0, 120.0, 40.0), z);
    assert TerrainColor(0.6) == LerpRgb(Rgb(110.0, 110.0, 110.0), Rgb(170.0, 170.0, 170.0), z);
    assert TerrainColor(0.8) == LerpRgb(Rgb(200.0, 200.0, 210.0), Rgb(245.0, 245.0, 250.0), z);
  }

  /** A band blended at a position at or below its start is its first colour. */
  lemma BandStart(a: Rgb, b: Rgb, u: real)
    requires u <= 0.0
    ensures LerpRgb(a, b, SmoothStep(0.0, 1.0, u)) == a
  {
    SmoothStepClamps(0.0, 1.0, u);
  }

  /** What shading needs besides the heights: the square root behind
      `Math.hypot`, the `terrainColor` palette and the light direction. */
  datatype Shading = Shading(sqrt: real -> real, color: real -> Rgb, dir: Vec3)

  /** The default light direction `[-0.6, -0.7, 0.4]` and the `terrainColor`
      palette. */
  function DefaultShading(sqrt: real -> real): Shading
  {
    Shading(sqrt, TerrainColor, Vec3(-0.6, -0.7, 0.4))
  }

  /** The light factor of pixel `(x, y)` from its clamped neighbours. */
  function PixelLight(hf: seq<real>, w: nat, h: nat, env: Shading, x: nat, y: nat): real
    requires |hf| == w * h && x < w && y < h
  {
    IdxInBounds(x - 1, y, w, h);
    IdxInBounds(x + 1, y, w, h);
    IdxInBounds(x, y - 1, w, h);
    IdxInBounds(x, y + 1, w, h);
    Light(env.sqrt, env.dir, hf[Idx(x - 1, y, w, h)], hf[Idx(x + 1, y, w, h)],
          hf[Idx(x, y - 1, w, h)], hf[Idx(x, y + 1, w, h)])
  }

  /** Colour channel `k` (0 red, 1 green, 2 blue). */
  function Part(c: Rgb, k: nat): real
  {
    if k == 0 then c.r else if k == 1 then c.g else c.b
  }

  /** Channel `k` of a colour under a light factor: `Math.round(colour *
      light)` saturated to a byte, and an opaque alpha. */
  function Tint(c: Rgb, light: real, k: nat): int
  {
    if k == 3 then 255 else Byte(Round(Part(c, k) * light))
  }

  /** The byte the shading pass stores in channel `k` of pixel `p`. */
  function ShadeByte(hf: seq<real>, w: nat, h: nat, env: Shading, p: nat, k: nat): int
    requires |hf| == w * h && p < w * h
  {
    PixelCovers(p, w, h);
    Tint(env.color(hf[p]), PixelLight(hf, w, h, env, p % w, p / w), k)
  }

  /** Pixel `p` sits at column `p % w` of row `p / w`. */
  lemma PixelCovers(p: nat, w: nat, h: nat)
    requires p < w * h
    ensures w > 0 && p % w < w && p / w < h
  {
  }

  /** The image after the shading pass, four bytes per pixel, row by row. */
  function Shaded(hf: seq<real>, w: nat, h: nat, env: Shading): (r: seq<int>)
    requires |hf| == w * h
    ensures |r| == w * h * 4
  {
    if w == 0 then []
    else
      seq(w * h * 4, j requires 0 <= j < w * h * 4 => ShadeByte(hf, w, h, env, j / 4, j % 4))
  }

  /** The shading pass: every byte holds a channel value, and every pixel
      is opaque. */
  lemma ShadedBytes(hf: seq<real>, w: nat, h: nat, env: Shading)
    requires |hf| == w * h
    ensures forall j :: 0 <= j < |Shaded(hf, w, h, env)| ==> 0 <= Shaded(hf, w, h, env)[j] <= 255
    ensures forall j :: 0 <= j < |Shaded(hf, w, h, env)| && j % 4 == 3 ==> Shaded(hf, w, h, env)[j] == 255
  {
  }

  /** Byte `k` of pixel `i == y * w + x` in the shaded image. */
  lemma ShadedAt(hf: seq<real>, w: nat, h: nat, env: Shading, x: nat, y: nat, i: nat, k: nat)
    requires |hf| == w * h && x < w && y < h && i < w * h && i % w == x && i / w == y && k < 4
    ensures i * 4 + k < w * h * 4
    ensures Shaded(hf, w, h, env)[i * 4 + k] == Tint(env.color(hf[i]), PixelLight(hf, w, h, env, x, y), k)
  {
    Rgba(i, k, w * h);
  }


  /** The body of the shading loop for pixel `i`, at column `x` of row `y`. */
  method ShadePixel(img: array<int>, hf: seq<real>, w: nat, h: nat, env: Shading, x: nat, y: nat, i: nat)
    requires |hf| == w * h && x < w && y < h && i % w == x && i / w == y && i < w * h && img.Length == w * h * 4
    modifies img
    ensures forall j :: i * 4 <= j < i * 4 + 4 ==> img[j] == Shaded(hf, w, h, env)[j]
    ensures forall j :: 0 <= j < img.Length && !(i * 4 <= j < i * 4 + 4) ==> img[j] == old(img[j])
  {
    IdxInBounds(x - 1, y, w, h);
    IdxInBounds(x + 1, y, w, h);
    IdxInBounds(x, y - 1, w, h);
    IdxInBounds(x, y + 1, w, h);
    var hL := hf[Idx(x - 1, y, w, h)];
    var hR := hf[Idx(x + 1, y, w, h)];
    var hU := hf[Idx(x, y - 1, w, h)];
    var hD := hf[Idx(x, y + 1, w, h)];
    var light := Light(env.sqrt, env.dir, hL, hR, hU, hD);
    var c := env.color(hf[i]);
    var off := i * 4;
    img[off] := Tint(c, light, 0);
    img[off + 1] := Tint(c, light, 1);
    img[off + 2] := Tint(c, light, 2);
    img[off + 3] := Tint(c, light, 3);
    assert forall k :: 0 <= k < 4 ==> img[..][i * 4 + k] == Tint(c, light, k);
    PixelShaded(img[..], hf, w, h, env, x, y, i);
  }

  /** Four bytes that tint pixel `i` are that pixel's bytes of the shaded
      image. */
  lemma PixelShaded(s: seq<int>, hf: seq<real>, w: nat, h: nat, env: Shading, x: nat, y: nat, i: nat)
    requires |hf| == w * h && x < w && y < h && i < w * h && i % w == x && i / w == y && |s| == w * h * 4
    requires forall k :: 0 <= k < 4 ==> s[i * 4 + k] == Tint(env.color(hf[i]), PixelLight(hf, w, h, env, x, y), k)
    ensures forall j :: i * 4 <= j < i * 4 + 4 ==> s[j] == Shaded(hf, w, h, env)[j]
  {
    forall j | i * 4 <= j < i * 4 + 4
      ensures s[j] == Shaded(hf, w, h, env)[j]
    {
      ShadedAt(hf, w, h, env, x, y, i, j - i * 4);
    }
  }

  /** The shading loop over one row, whose pixels start at `base == y * w`. */
  method ShadeRow(img: array<int>, hf: seq<real>, w: nat, h: nat, env: Shading, y: nat, base: nat)
    requires |hf| == w * h && y < h && base + w <= w * h && img.Length == w * h * 4
    requires w > 0 ==> base % w == 0 && base / w == y
    modifies img
    ensures forall j :: 0 <= j < base * 4 ==> img[j] == old(img[j])
    ensures forall j :: base * 4 <= j < (base + w) * 4 ==> img[j] == Shaded(hf, w, h, env)[j]
  {
    var x := 0;
    while x < w
      invariant x <= w
      invariant forall j :: 0 <= j < base * 4 ==> img[j] == old(img[j])
      invariant forall j :: base * 4 <= j < (base + x) * 4 ==> img[j] == Shaded(hf, w, h, env)[j]
    {
      RowPixel(base, x, y, w);
      ShadePixel(img, hf, w, h, env, x, y, base + x);
      x := x + 1;
    }
  }

  /** The shading loop: every pixel's colour scaled by its light. */
  method Shade(hf: seq<real>, w: nat, h: nat, env: Shading) returns (img: array<int>)
    requires |hf| == w * h
    ensures fresh(img) && img[..] == Shaded(hf, w, h, env)
  {
    img := new int[w * h * 4](_ => 0);
    var y, base := 0, 0;
    while y < h
      invariant y <= h && base == y * w
      invariant forall j :: 0 <= j < base * 4 ==> img[j] == Shaded(hf, w, h, env)[j]
    {
      RowFits(y, w, h);
      if w > 0 {
        DivUnique(base, w, y, 0);
      }
      ShadeRow(img, hf, w, h, env, y, base);
      NextRow(y, w);
      y, base := y + 1, base + w;
    }
    NextRow(h, w);
    assert img[..] == Shaded(hf, w, h, env);
  }

  /** `Math.abs(t / 0.1 - Math.round(t / 0.1)) < 0.015`: the height lies
      within 0.0015 of a multiple of 0.1. */
  predicate OnContour(t: real)
  {
    var q := t / 0.1;
    var frac := q - Round(q) as real;
    (if frac < 0.0 then -frac else frac) < 0.015
  }

  /** Byte `j` is a colour channel of an interior pixel on a contour. */
  predicate Lifted(hf: seq<real>, w: nat, h: nat, j: nat)
  {
    var p := j / 4;
    w > 0 && j % 4 < 3 && p < |hf| && 1 <= p % w < w - 1 && 1 <= p / w < h - 1 && OnContour(hf[p])
  }

  /** The image after the contour pass: contour channels brightened by 18,
      capped at 255. */
  function Contoured(img: seq<int>, hf: seq<real>, w: nat, h: nat): (r: seq<int>)
    ensures |r| == |img|
  {
    seq(|img|, j requires 0 <= j < |img| => if Lifted(hf, w, h, j) then MinI(255, img[j] + 18) else img[j])
  }

  /** Pixel `p` comes before column `x` of row `y`. */
  predicate Before(p: nat, w: nat, y: int, x: int)
    requires w > 0
  {
    p / w < y || (p / w == y && p % w < x)
  }

  /** The contour loops have handled every pixel before `(x, y)`. */
  ghost predicate ContourDone(img0: seq<int>, img: seq<int>, hf: seq<real>, w: nat, h: nat, y: int, x: int)
  {
    |img| == |img0| &&
    forall j :: 0 <= j < |img| ==>
      img[j] == if Lifted(hf, w, h, j) && Before(j / 4, w, y, x) then MinI(255, img0[j] + 18) else img0[j]
  }

  /** Handling pixel `(x, y)` extends the handled region by one pixel. */
  lemma ContourStep(img0: seq<int>, img1: seq<int>, img2: seq<int>, hf: seq<real>, w: nat, h: nat, y: nat, x: nat)
    requires |hf| == w * h && 1 <= x < w - 1 && 1 <= y < h - 1
    requires ContourDone(img0, img1, hf, w, h, y, x)
    requires |img2| == |img1| == w * h * 4
    requires forall j :: 0 <= j < |img2| ==>
      img2[j] == if j / 4 == y * w + x && j % 4 < 3 && OnContour(hf[y * w + x]) then MinI(255, img1[j] + 18) else img1[j]
    ensures ContourDone(img0, img2, hf, w, h, y, x + 1)
  {
    RowMajor(x, y, w, h);
    forall j | 0 <= j < |img2|
      ensures img2[j] == if Lifted(hf, w, h, j) && Before(j / 4, w, y, x + 1) then MinI(255, img0[j] + 18) else img0[j]
    {
      var p := j / 4;
      if p == y * w + x {
        assert p / w == y && p % w == x;
      }
    }
  }

  /** At the end of a row the handled region is every earlier row. */
  lemma ContourNextRow(img0: seq<int>, img: seq<int>, hf: seq<real>, w: nat, h: nat, y: int, x: int)
    requires w > 0 && x >= w - 1
    requires ContourDone(img0, img, hf, w, h, y, x)
    ensures ContourDone(img0, img, hf, w, h, y + 1, 1)
  {
  }

  /** The contour lines: every interior pixel whose height is near a
      multiple of 0.1 gets its colour channels brightened. */
  method Contours(img: array<int>, hf: seq<real>, w: nat, h: nat)
    requires |hf| == w * h && img.Length == w * h * 4
    modifies img
    ensures img[..] == Contoured(old(img[..]), hf, w, h)
  {
    ghost var img0 := img[..];
    var y := 1;
    while y < h - 1
      invariant 1 <= y && (h >= 2 ==> y <= h - 1)
      invariant w > 0 ==> ContourDone(img0, img[..], hf, w, h, y, 1)
    {
      var x := 1;
      while x < w - 1
        invariant 1 <= x && (w >= 2 ==> x <= w - 1)
        invariant w > 0 ==> ContourDone(img0, img[..], hf, w, h, y, x)
      {
        ghost var img1 := img[..];
        RowMajor(x, y, w, h);
        ContourPixel(img, hf, w, h, y * w + x);
        ContourStep(img0, img1, img[..], hf, w, h, y, x);
        x := x + 1;
      }
      if w > 0 {
        ContourNextRow(img0, img[..], hf, w, h, y, x);
      }
      y := y + 1;
    }
    if w > 0 {
      assert forall j :: 0 <= j < img.Length && Lifted(hf, w, h, j) ==> Before(j / 4, w, y, 1);
    }
    assert img[..] == Contoured(img0, hf, w, h);
  }

  /** The body of the contour loops for pixel `i`. */
  method ContourPixel(img: array<int>, hf: seq<real>, w: nat, h: nat, i: nat)
    requires |hf| == w * h && i < w * h && img.Length == w * h * 4
    modifies img
    ensures forall j :: 0 <= j < img.Length ==>
      img[j] == if j / 4 == i && j % 4 < 3 && OnContour(hf[i]) then MinI(255, old(img[j]) + 18) else old(img[j])
  {
    var t := hf[i];
    var frac := t / 0.1 - Round(t / 0.1) as real;
    frac := if frac < 0.0 then -frac else frac;
    Pixel(i);
    if frac < 0.015 {
      var off := i * 4;
      Rgba(i, 2, w * h);
      img[off] := MinI(255, img[off] + 18);
      img[off + 1] := MinI(255, img[off + 1] + 18);
      img[off + 2] := MinI(255, img[off + 2] + 18);
    }
  }

  /** The bytes of pixel `p` are exactly those with `j / 4 == p`. */
  lemma Pixel(p: nat)
    ensures forall j: nat :: j / 4 == p <==> p * 4 <= j < p * 4 + 4
  {
  }

  /** The contour pass touches only the colour channels of interior
      pixels, never darkens, and keeps every byte within [0, 255]. */
  lemma ContouredBytes(img: seq<int>, hf: seq<real>, w: nat, h: nat, j: nat)
    requires j < |img| && 0 <= img[j] <= 255
    ensures Contoured(img, hf, w, h)[j] != img[j] ==> j % 4 < 3 && 1 <= (j / 4) % w < w - 1 && 1 <= (j / 4) / w < h - 1
    ensures img[j] <= Contoured(img, hf, w, h)[j] <= 255
  {
  }

  /** `shadeHeightfield`: the shading pass followed by the contour pass. */
  method ShadeHeightfield(hf: seq<real>, w: nat, h: nat, env: Shading) returns (img: array<int>)
    requires |hf| == w * h
    ensures fresh(img) && img[..] == Contoured(Shaded(hf, w, h, env), hf, w, h)
  {
    img := Shade(hf, w, h, env);
    Contours(img, hf, w, h);
  }

  /** Every byte of the shaded terrain is a byte and every pixel is opaque. */
  lemma TerrainBytes(hf: seq<real>, w: nat, h: nat, env: Shading, j: nat)
    requires |hf| == w * h && j < w * h * 4
    ensures 0 <= Contoured(Shaded(hf, w, h, env), hf, w, h)[j] <= 255
    ensures j % 4 == 3 ==> Contoured(Shaded(hf, w, h, env), hf, w, h)[j] == 255
  {
    ShadedBytes(hf, w, h, env);
    ContouredBytes(Shaded(hf, w, h, env), hf, w, h, j);
  }
}
