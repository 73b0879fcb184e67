/** `fbmMinecraft.ts`: fractal Brownian motion over a lattice gradient noise,
    summed over `depth` octaves of halving amplitude and doubling frequency
    and written as a grey 720 x 720 RGBA image. `lerp` is the one of
    `fbm.ts` (`Fbm.Lerp`), and the image layout the one of `mandelbrot.ts`. */
module FbmMinecraft {
  import opened Geometry
  import opened Grid
  import Fbm
  import Mandelbrot

  /** `hash(x, y)`: the fractional part of a scaled sine of a lattice
      point. `sin` is left abstract; the fractional part is exact. */
  function Hash(sin: real -> real, x: int, y: int): (r: real)
    ensures 0.0 <= r < 1.0
  {
    var s := sin(x as real * 374761393.0 + y as real * 668265263.0) * 43758.5453123;
    s - s.Floor as real
  }

  /** `smoothstep(t) = t * t * (3 - 2 * t)`, with no clamping: it fixes 0
      and 1 and maps [0, 1] into itself. */
  function SmoothStep(t: real): (r: real)
    ensures t == 0.0 ==> r == 0.0
    ensures t == 1.0 ==> r == 1.0
    ensures 0.0 <= t <= 1.0 ==> 0.0 <= r <= 1.0
  {
    if 0.0 <= t <= 1.0 then
      Fbm.CubicUnit(t);
      t * t * (3.0 - 2.0 * t)
    else
      t * t * (3.0 - 2.0 * t)
  }

  /** The offset of `x` inside its lattice cell, `x - Math.floor(x)`: it
      lies in [0, 1) and takes `x` back to a whole number. */
  function Offset(x: real): (f: real)
    ensures 0.0 <= f < 1.0
    ensures (x - f).Floor as real == x - f
  {
    FloorOffset(x);
    x - x.Floor as real
  }

  lemma FloorOffset(x: real)
    ensures 0.0 <= x - x.Floor as real < 1.0
    ensures (x - (x - x.Floor as real)).Floor == x.Floor
  {
    assert x - (x - x.Floor as real) == x.Floor as real;
  }

  /** The corner term `(n - 0.5) * gx + (n - 0.5) * gy`. */
  function Dot(n: real, gx: real, gy: real): real
  {
    (n - 0.5) * gx + (n - 0.5) * gy
  }

  /** `noise(x, y)`: the four corner terms of `x`'s cell blended by the
      smoothed offsets. */
  function Noise(sin: real -> real, x: real, y: real): real
  {
    var ix, iy := x.Floor, y.Floor;
    var fx, fy := Offset(x), Offset(y);
    var d00 := Dot(Hash(sin, ix, iy), fx, fy);
    var d01 := Dot(Hash(sin, ix, iy + 1), fx, fy - 1.0);
    var d10 := Dot(Hash(sin, ix + 1, iy), fx - 1.0, fy);
    var d11 := Dot(Hash(sin, ix + 1, iy + 1), fx - 1.0, fy - 1.0);
    var sx, sy := SmoothStep(fx), SmoothStep(fy);
    Fbm.Lerp(Fbm.Lerp(d00, d10, sx), Fbm.Lerp(d01, d11, sx), sy)
  }

  /** Every lattice point is a zero of the noise, whatever the hash. */
  lemma NoiseLattice(sin: real -> real, i: int, j: int)
    ensures Noise(sin, i as real, j as real) == 0.0
  {
    var d00 := Dot(Hash(sin, i, j), 0.0, 0.0);
    var d10 := Dot(Hash(sin, i + 1, j), -1.0, 0.0);
    var d01 := Dot(Hash(sin, i, j + 1), 0.0, -1.0);
    var d11 := Dot(Hash(sin, i + 1, j + 1), -1.0, -1.0);
    assert d00 == 0.0;
    Fbm.LerpBetween(d00, d10, 0.0);
    Fbm.LerpBetween(d01, d11, 0.0);
    Fbm.LerpBetween(Fbm.Lerp(d00, d10, 0.0), Fbm.Lerp(d01, d11, 0.0), 0.0);
  }

  /** The noise stays in [-1, 1]: each corner term does, and the blends
      stay between their ends. */
  lemma NoiseRange(sin: real -> real, x: real, y: real)
    ensures -1.0 <= Noise(sin, x, y) <= 1.0
  {
    var ix, iy := x.Floor, y.Floor;
    var fx, fy := Offset(x), Offset(y);
    var d00 := Dot(Hash(sin, ix, iy), fx, fy);
    var d01 := Dot(Hash(sin, ix, iy + 1), fx, fy - 1.0);
    var d10 := Dot(Hash(sin, ix + 1, iy), fx - 1.0, fy);
    var d11 := Dot(Hash(sin, ix + 1, iy + 1), fx - 1.0, fy - 1.0);
    DotBound(Hash(sin, ix, iy), fx, fy);
    DotBound(Hash(sin, ix, iy + 1), fx, fy - 1.0);
    DotBound(Hash(sin, ix + 1, iy), fx - 1.0, fy);
    DotBound(Hash(sin, ix + 1, iy + 1), fx - 1.0, fy - 1.0);
    var sx, sy := SmoothStep(fx), SmoothStep(fy);
    Fbm.LerpBetween(d00, d10, sx);
    Fbm.LerpBetween(d01, d11, sx);
    Fbm.LerpBetween(Fbm.Lerp(d00, d10, sx), Fbm.Lerp(d01, d11, sx), sy);
  }

  /** A corner term with a hash in [0, 1) and offsets in [-1, 1] is in
      [-1, 1]. */
  lemma DotBound(n: real, gx: real, gy: real)
    requires 0.0 <= n < 1.0 && -1.0 <= gx <= 1.0 && -1.0 <= gy <= 1.0
    ensures -1.0 <= Dot(n, gx, gy) <= 1.0
  {
    var c, s := n - 0.5, gx + gy;
    assert Dot(n, gx, gy) == c * s;
    ProductBound(c, s);
  }

  lemma ProductBound(c: real, s: real)
    requires -0.5 <= c <= 0.5 && -2.0 <= s <= 2.0
    ensures -1.0 <= c * s <= 1.0
  {
    Fbm.MulNonNegative(0.5 - c, 2.0 + s);
    Fbm.MulNonNegative(0.5 + c, 2.0 - s);
    Fbm.MulNonNegative(0.5 - c, 2.0 - s);
    Fbm.MulNonNegative(0.5 + c, 2.0 + s);
    var p := c * s;
    assert (0.5 - c) * (2.0 + s) == 1.0 + 0.5 * s - 2.0 * c - p;
    assert (0.5 + c) * (2.0 - s) == 1.0 - 0.5 * s + 2.0 * c - p;
    assert (0.5 - c) * (2.0 - s) == 1.0 - 0.5 * s - 2.0 * c + p;
    assert (0.5 + c) * (2.0 + s) == 1.0 + 0.5 * s + 2.0 * c + p;
    assert 1.0 + 0.5 * s - 2.0 * c - p >= 0.0;
    assert 1.0 - 0.5 * s + 2.0 * c - p >= 0.0;
    assert p <= 1.0;
  }

  const Scale: real := 0.02
  const OffsetX: real := 0.0
  const OffsetY: real := 0.0

  /** `noise` as a function of the sample position. */
  function NoiseOf(sin: real -> real): (real, real) -> real
  {
    (x, y) => Noise(sin, x, y)
  }

  /** A noise whose every value lies in [-1, 1]. */
  ghost predicate Ranged(noise: (real, real) -> real)
  {
    forall x, y :: -1.0 <= noise(x, y) <= 1.0
  }

  lemma NoiseRanged(sin: real -> real)
    ensures Ranged(NoiseOf(sin))
  {
    forall x, y ensures -1.0 <= NoiseOf(sin)(x, y) <= 1.0 {
      NoiseRange(sin, x, y);
    }
  }

  /** One octave's contribution to pixel `(px, py)` at frequency `freq`
      and amplitude `amp`. */
  function Term(noise: (real, real) -> real, px: nat, py: nat, freq: real, amp: real): real
  {
    noise(px as real * Scale * freq + OffsetX, py as real * Scale * freq + OffsetY) * amp
  }

  /** The value after `n` octaves: octave `i` at frequency `2^i` and
      amplitude `0.5^i`. */
  function OctaveSum(noise: (real, real) -> real, px: nat, py: nat, n: nat): real
  {
    if n == 0 then 0.0 else OctaveSum(noise, px, py, n - 1) + Term(noise, px, py, RPow(2.0, n - 1), RPow(0.5, n - 1))
  }

  /** The octave loop of one pixel: after `i` rounds the amplitude is
      `0.5^i` and the frequency `2^i`. */
  method Value(noise: (real, real) -> real, px: nat, py: nat, octaves: nat) returns (value: real)
    ensures value == OctaveSum(noise, px, py, octaves)
  {
    value := 0.0;
    var amplitude, frequency := 1.0, 1.0;
    var i := 0;
    while i < octaves
      invariant i <= octaves
      invariant amplitude == RPow(0.5, i) && frequency == RPow(2.0, i)
      invariant value == OctaveSum(noise, px, py, i)
    {
      value := value + Term(noise, px, py, frequency, amplitude);
      amplitude := amplitude * 0.5;
      frequency := frequency * 2.0;
      i := i + 1;
    }
  }

  /** The halving weights of `n` octaves sum to `2 - 2 * 0.5^n`, below 2,
      and the last amplitude stays positive. */
  lemma {:induction false} HalvingWeight(n: nat)
    ensures Fbm.Weight(0.5, n) == 2.0 - 2.0 * RPow(0.5, n)
    ensures 0.0 < RPow(0.5, n) <= 1.0 && Fbm.Weight(0.5, n) < 2.0
  {
    if n > 0 {
      HalvingWeight(n - 1);
    }
  }

  /** Each octave moves the value by at most its amplitude, so after `n`
      octaves it lies within the total weight. */
  lemma {:induction false} OctaveSumBound(noise: (real, real) -> real, px: nat, py: nat, n: nat)
    requires Ranged(noise)
    ensures -Fbm.Weight(0.5, n) <= OctaveSum(noise, px, py, n) <= Fbm.Weight(0.5, n)
    decreases n
  {
    if n > 0 {
      OctaveSumBound(noise, px, py, n - 1);
      Fbm.PowNonNegative(0.5, n - 1);
      TermBound(noise, px, py, RPow(2.0, n - 1), RPow(0.5, n - 1));
      assert OctaveSum(noise, px, py, n) == OctaveSum(noise, px, py, n - 1) + Term(noise, px, py, RPow(2.0, n - 1), RPow(0.5, n - 1));
      assert Fbm.Weight(0.5, n) == Fbm.Weight(0.5, n - 1) + RPow(0.5, n - 1);
    }
  }

  lemma TermBound(noise: (real, real) -> real, px: nat, py: nat, freq: real, amp: real)
    requires Ranged(noise) && amp >= 0.0
    ensures -amp <= Term(noise, px, py, freq, amp) <= amp
  {
    AmplitudeBound(noise(px as real * Scale * freq + OffsetX, py as real * Scale * freq + OffsetY), amp);
  }

  lemma AmplitudeBound(v: real, amp: real)
    requires -1.0 <= v <= 1.0 && amp >= 0.0
    ensures -amp <= v * amp <= amp
  {
    Fbm.MulNonNegative(1.0 - v, amp);
    Fbm.MulNonNegative(1.0 + v, amp);
    assert (1.0 - v) * amp == amp - v * amp;
    assert (1.0 + v) * amp == amp + v * amp;
  }

  /** `((value + 1) / 2) * 255` clamped to [0, 255]. */
  function Gray(value: real): (g: real)
    ensures 0.0 <= g <= 255.0
    ensures var n := (value + 1.0) / 2.0 * 255.0; 0.0 <= n <= 255.0 ==> g == n
  {
    MaxR(0.0, MinR(255.0, (value + 1.0) / 2.0 * 255.0))
  }

  /** With a single octave the value is already in [-1, 1], so the clamp
      changes nothing; from two octaves on the value can reach past it. */
  lemma SingleOctaveUnclamped(sin: real -> real, px: nat, py: nat)
    ensures Gray(OctaveSum(NoiseOf(sin), px, py, 1)) == (OctaveSum(NoiseOf(sin), px, py, 1) + 1.0) / 2.0 * 255.0
  {
    NoiseRanged(sin);
    OctaveSumBound(NoiseOf(sin), px, py, 1);
  }

  /** The value stored in channel `k` of pixel `(px, py)`. */
  function Channel(sin: real -> real, px: nat, py: nat, k: nat, octaves: nat): real
  {
    if k == 3 then 255.0 else Gray(OctaveSum(NoiseOf(sin), px, py, octaves))
  }

  /** Pixel `(px, py)` of buffer `s` holds its four channels. */
  ghost predicate Done(sin: real -> real, s: seq<real>, px: nat, py: nat, octaves: nat)
    requires px < Mandelbrot.Width && py < Mandelbrot.Height && |s| == Mandelbrot.Width * Mandelbrot.Height * 4
  {
    forall k :: 0 <= k < 4 ==> s[Mandelbrot.Idx(px, py) + k] == Channel(sin, px, py, k, octaves)
  }

  /** Writing one pixel leaves every other finished pixel finished. */
  lemma DoneKept(sin: real -> real, s: seq<real>, t: seq<real>, px: nat, py: nat, p: nat, q: nat, octaves: nat)
    requires px < Mandelbrot.Width && py < Mandelbrot.Height && p < Mandelbrot.Width && q < Mandelbrot.Height
    requires |s| == Mandelbrot.Width * Mandelbrot.Height * 4
    requires Mandelbrot.SameOutside(s, t, px, py) && (p, q) != (px, py) && Done(sin, s, p, q, octaves)
    ensures Done(sin, t, p, q, octaves)
  {
    forall k | 0 <= k < 4 ensures t[Mandelbrot.Idx(p, q) + k] == Channel(sin, p, q, k, octaves) {
      Mandelbrot.IndexInBounds(p, q, k);
      Mandelbrot.PixelsDisjoint(p, q, px, py, k);
    }
  }

  /** The body of the inner loop: the pixel's value, its grey level and the
      four writes. */
  method DrawPixel(sin: real -> real, data: array<real>, px: nat, py: nat, octaves: nat)
    requires px < Mandelbrot.Width && py < Mandelbrot.Height && data.Length == Mandelbrot.Width * Mandelbrot.Height * 4
    modifies data
    ensures Done(sin, data[..], px, py, octaves)
    ensures Mandelbrot.SameOutside(old(data[..]), data[..], px, py)
  {
    var value := Value(NoiseOf(sin), px, py, octaves);
    var gray := Gray(value);
    var idx := (py * Mandelbrot.Width + px) * 4;
    Mandelbrot.IndexInBounds(px, py, 3);
    data[idx] := gray;
    data[idx + 1] := gray;
    data[idx + 2] := gray;
    data[idx + 3] := 255.0;
  }

  /** `render`: columns left to right, each top to bottom, with `depth`
      octaves; every pixel ends up holding its grey level and full alpha. */
  method Render(sin: real -> real, data: array<real>, depth: nat)
    requires data.Length == Mandelbrot.Width * Mandelbrot.Height * 4
    modifies data
    ensures forall px, py :: 0 <= px < Mandelbrot.Width && 0 <= py < Mandelbrot.Height ==> Done(sin, data[..], px, py, depth)
  {
    var octaves := depth;
    var px := 0;
    while px < Mandelbrot.Width
      invariant 0 <= px <= Mandelbrot.Width
      invariant forall p, q :: 0 <= p < px && 0 <= q < Mandelbrot.Height ==> Done(sin, data[..], p, q, octaves)
    {
      var py := 0;
      while py < Mandelbrot.Height
        invariant 0 <= py <= Mandelbrot.Height
        invariant forall p, q :: 0 <= p < px && 0 <= q < Mandelbrot.Height ==> Done(sin, data[..], p, q, octaves)
        invariant forall q :: 0 <= q < py ==> Done(sin, data[..], px, q, octaves)
      {
        ghost var before := data[..];
        DrawPixel(sin, data, px, py, octaves);
        forall p, q | (0 <= p < px && 0 <= q < Mandelbrot.Height) || (p == px && 0 <= q < py)
          ensures Done(sin, data[..], p, q, octaves)
        {
          DoneKept(sin, before, data[..], px, py, p, q, octaves);
        }
        py := py + 1;
      }
      px := px + 1;
    }
  }
}
