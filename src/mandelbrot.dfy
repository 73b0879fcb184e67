/** `mandelbrot.ts`: a 720 x 720 greyscale image of the escape counts over
    the rectangle [-2.5, 1.5) x [-2, 2) of the complex plane, written into an
    RGBA pixel buffer. */
module Mandelbrot {
  import opened Escape

  const Width: nat := 720
  const Height: nat := 720
  const MinX: real := -2.5
  const MaxX: real := 1.5
  const MinY: real := -2.0
  const MaxY: real := 2.0

  /** The point of the plane a pixel column and row stand for. */
  function X0(px: nat): real
  {
    MinX + (MaxX - MinX) * (px as real / Width as real)
  }

  function Y0(py: nat): real
  {
    MinY + (MaxY - MinY) * (py as real / Height as real)
  }

  lemma PixelRange(px: nat, py: nat)
    requires px < Width && py < Height
    ensures MinX <= X0(px) < MaxX && MinY <= Y0(py) < MaxY
  {
    assert px as real / 720.0 < 1.0;
    assert py as real / 720.0 < 1.0;
  }

  /** `(iter / maxIter) * 255`. */
  function Intensity(iter: nat, maxIter: nat): real
    requires maxIter >= 1
  {
    iter as real / maxIter as real * 255.0
  }

  /** The grey level lies in [0, 255] and is 255 exactly for the points
      that use up the whole budget. */
  lemma IntensityRange(iter: nat, maxIter: nat)
    requires maxIter >= 1 && iter <= maxIter
    ensures 0.0 <= Intensity(iter, maxIter) <= 255.0
    ensures Intensity(iter, maxIter) == 255.0 <==> iter == maxIter
  {
    var q := iter as real / maxIter as real;
    assert q <= 1.0;
    assert q == 1.0 <==> iter == maxIter;
  }

  /** The first byte of pixel `(px, py)`: four bytes per pixel, row by row. */
  function Idx(px: nat, py: nat): nat
  {
    (py * Width + px) * 4
  }

  /** The value the render stores in channel `k` of a pixel. */
  function Channel(px: nat, py: nat, k: nat, maxIter: nat): real
    requires maxIter >= 1
  {
    if k == 3 then 255.0 else Intensity(EscapeCount(Inclusive, X0(px), Y0(py), maxIter), maxIter)
  }

  /** Every pixel's four bytes lie inside the buffer, and distinct pixels
      have disjoint bytes. */
  lemma IndexInBounds(px: nat, py: nat, k: nat)
    requires px < Width && py < Height && k < 4
    ensures Idx(px, py) + k < Width * Height * 4
  {
  }

  lemma PixelsDisjoint(p: nat, q: nat, px: nat, py: nat, k: nat)
    requires p < Width && px < Width && k < 4 && (p, q) != (px, py)
    ensures !(Idx(px, py) <= Idx(p, q) + k < Idx(px, py) + 4)
  {
  }

  /** Each byte of the buffer belongs to exactly one pixel's channel. */
  lemma IndexCovers(i: nat)
    requires i < Width * Height * 4
    ensures var px, py := (i / 4) % Width, (i / 4) / Width;
      px < Width && py < Height && i == Idx(px, py) + i % 4
  {
  }

  /** The `while` loop: `iter` counts the steps taken from `z = 0`. */
  method Iterate(x0: real, y0: real, maxIter: nat) returns (iter: nat)
    ensures iter == EscapeCount(Inclusive, x0, y0, maxIter)
  {
    var x, y := 0.0, 0.0;
    iter := 0;
    while x * x + y * y <= 4.0 && iter < maxIter
      invariant iter <= maxIter
      invariant Orbit(Inclusive, x, y, x0, y0, iter, maxIter) == EscapeCount(Inclusive, x0, y0, maxIter)
      decreases maxIter - iter
    {
      var xtemp := x * x - y * y + x0;
      y := 2.0 * x * y + y0;
      x := xtemp;
      iter := iter + 1;
    }
  }

  /** `t` is `s` with at most pixel `(px, py)`'s four bytes changed. */
  ghost predicate SameOutside(s: seq<real>, t: seq<real>, px: nat, py: nat)
  {
    |s| == |t| && forall i :: 0 <= i < |s| && !(Idx(px, py) <= i < Idx(px, py) + 4) ==> s[i] == t[i]
  }

  /** One pass of the inner loop body: the pixel's count, its grey level,
      and the four writes. */
  method DrawPixel(data: array<real>, px: nat, py: nat, maxIter: nat)
    requires px < Width && py < Height && data.Length == Width * Height * 4 && maxIter >= 1
    modifies data
    ensures Done(data[..], px, py, maxIter)
    ensures SameOutside(old(data[..]), data[..], px, py)
  {
    var x0 := MinX + (MaxX - MinX) * (px as real / Width as real);
    var y0 := MinY + (MaxY - MinY) * (py as real / Height as real);
    var iter := Iterate(x0, y0, maxIter);
    var idx := (py * Width + px) * 4;
    var intensity := (iter as real / maxIter as real) * 255.0;
    IndexInBounds(px, py, 3);
    data[idx] := intensity;
    data[idx + 1] := intensity;
    data[idx + 2] := intensity;
    data[idx + 3] := 255.0;
  }

  /** Pixel `(px, py)` of buffer `s` holds its four channels. */
  ghost predicate Done(s: seq<real>, px: nat, py: nat, maxIter: nat)
    requires maxIter >= 1 && px < Width && py < Height && |s| == Width * Height * 4
  {
    forall k :: 0 <= k < 4 ==> s[Idx(px, py) + k] == Channel(px, py, k, maxIter)
  }

  /** Writing one pixel leaves every other finished pixel finished. */
  lemma DoneKept(s: seq<real>, t: seq<real>, px: nat, py: nat, p: nat, q: nat, maxIter: nat)
    requires maxIter >= 1 && px < Width && py < Height && p < Width && q < Height && |s| == Width * Height * 4
    requires SameOutside(s, t, px, py) && (p, q) != (px, py) && Done(s, p, q, maxIter)
    ensures Done(t, p, q, maxIter)
  {
    forall k | 0 <= k < 4 ensures t[Idx(p, q) + k] == Channel(p, q, k, maxIter) {
      IndexInBounds(p, q, k);
      PixelsDisjoint(p, q, px, py, k);
    }
  }

  /** `render`: columns left to right, each top to bottom; `maxIter` is the
      depth slider, whose range starts at 50. */
  method Render(data: array<real>, maxIter: nat)
    requires data.Length == Width * Height * 4 && maxIter >= 1
    modifies data
    ensures forall px, py :: 0 <= px < Width && 0 <= py < Height ==> Done(data[..], px, py, maxIter)
  {
    var px := 0;
    while px < Width
      invariant 0 <= px <= Width
      invariant forall p, q :: 0 <= p < px && 0 <= q < Height ==> Done(data[..], p, q, maxIter)
    {
      var py := 0;
      while py < Height
        invariant 0 <= py <= Height
        invariant forall p, q :: 0 <= p < px && 0 <= q < Height ==> Done(data[..], p, q, maxIter)
        invariant forall q :: 0 <= q < py ==> Done(data[..], px, q, maxIter)
      {
        ghost var before := data[..];
        DrawPixel(data, px, py, maxIter);
        forall p, q | (0 <= p < px && 0 <= q < Height) || (p == px && 0 <= q < py)
          ensures Done(data[..], p, q, maxIter)
        {
          DoneKept(before, data[..], px, py, p, q, maxIter);
        }
        py := py + 1;
      }
      px := px + 1;
    }
  }
}
