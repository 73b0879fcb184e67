/** The escape-time iteration `z := z^2 + c` from `z = 0` shared by the two
    Mandelbrot renderers, counted until `|z|^2` leaves the radius-2 disc or
    the iteration budget is spent. */
module Escape {
  /** The two bail-out tests: `mandelbrot.ts` keeps iterating while
      `x*x + y*y <= 4`, the demo in `FractalDemo.tsx` while `< 4`. */
  datatype Bailout = Inclusive | Strict

  predicate Continues(b: Bailout, x: real, y: real)
  {
    if b == Inclusive then x * x + y * y <= 4.0 else x * x + y * y < 4.0
  }

  /** The real and imaginary parts of `z^2 + c`, both from the old `z`. */
  function NextX(x: real, y: real, cx: real): real { x * x - y * y + cx }

  function NextY(x: real, y: real, cy: real): real { 2.0 * x * y + cy }

  /** The count reached from `z = (x, y)` after `iter` steps. */
  function Orbit(b: Bailout, x: real, y: real, cx: real, cy: real, iter: nat, maxIter: nat): (r: nat)
    requires iter <= maxIter
    ensures iter <= r <= maxIter
    decreases maxIter - iter
  {
    if iter < maxIter && Continues(b, x, y) then Orbit(b, NextX(x, y, cx), NextY(x, y, cy), cx, cy, iter + 1, maxIter)
    else iter
  }

  /** The iteration count of `c = (cx, cy)`. */
  function EscapeCount(b: Bailout, cx: real, cy: real, maxIter: nat): (r: nat)
    ensures r <= maxIter
  {
    Orbit(b, 0.0, 0.0, cx, cy, 0, maxIter)
  }

  /** The orbit stops short of the budget only where the test fails. */
  lemma {:induction false} StopsOnlyOutside(b: Bailout, x: real, y: real, cx: real, cy: real, iter: nat, maxIter: nat)
    requires iter <= maxIter
    requires Orbit(b, x, y, cx, cy, iter, maxIter) == iter && iter < maxIter
    ensures !Continues(b, x, y)
  {
  }

  /** `c = 0` never escapes: `z` stays at 0. */
  lemma {:induction false} OriginStays(b: Bailout, x: real, y: real, cx: real, cy: real, iter: nat, maxIter: nat)
    requires x == 0.0 && y == 0.0 && cx == 0.0 && cy == 0.0 && iter <= maxIter
    ensures Orbit(b, x, y, cx, cy, iter, maxIter) == maxIter
    decreases maxIter - iter
  {
    if iter < maxIter {
      assert Continues(b, x, y);
      OriginStays(b, NextX(x, y, cx), NextY(x, y, cy), cx, cy, iter + 1, maxIter);
    }
  }

  lemma OriginNeverEscapes(b: Bailout, maxIter: nat)
    ensures EscapeCount(b, 0.0, 0.0, maxIter) == maxIter
  {
    OriginStays(b, 0.0, 0.0, 0.0, 0.0, 0, maxIter);
  }

  /** A point outside the radius-2 disc stops after one step, with either test. */
  lemma FarEscapesAtOnce(b: Bailout, cx: real, cy: real, maxIter: nat)
    requires cx * cx + cy * cy > 4.0 && maxIter >= 1
    ensures EscapeCount(b, cx, cy, maxIter) == 1
  {
    assert NextX(0.0, 0.0, cx) == cx && NextY(0.0, 0.0, cy) == cy;
    assert !Continues(b, cx, cy);
    assert Orbit(b, cx, cy, cx, cy, 1, maxIter) == 1;
  }

  /** The two tests differ on the circle `|z| = 2`: at `c = -2` the orbit
      0, -2, 2, 2, ... stays on it, so the inclusive test uses the whole
      budget while the strict one stops after the first step. */
  lemma BoundaryDiffers()
    ensures EscapeCount(Inclusive, -2.0, 0.0, 3) == 3
    ensures EscapeCount(Strict, -2.0, 0.0, 3) == 1
  {
    assert NextX(0.0, 0.0, -2.0) == -2.0 && NextY(0.0, 0.0, 0.0) == 0.0;
    assert NextX(-2.0, 0.0, -2.0) == 2.0 && NextY(-2.0, 0.0, 0.0) == 0.0;
    assert NextX(2.0, 0.0, -2.0) == 2.0 && NextY(2.0, 0.0, 0.0) == 0.0;
    assert Orbit(Inclusive, 2.0, 0.0, -2.0, 0.0, 3, 3) == 3;
    assert Orbit(Inclusive, 2.0, 0.0, -2.0, 0.0, 2, 3) == 3;
    assert Orbit(Inclusive, -2.0, 0.0, -2.0, 0.0, 1, 3) == 3;
    assert Orbit(Strict, -2.0, 0.0, -2.0, 0.0, 1, 3) == 1;
  }
}
