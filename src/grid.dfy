/** Row-major pixel grids and the number conversions the image code relies
    on: `Math.min`/`Math.max`, `Math.round`, and the clamping store of a
    `Uint8ClampedArray`. */
module Grid {
  function MinI(a: int, b: int): int { if a <= b then a else b }

  function MaxI(a: int, b: int): int { if a >= b then a else b }

  function MinR(a: real, b: real): real { if a <= b then a else b }

  function MaxR(a: real, b: real): real { if a >= b then a else b }

  /** `Math.round`: the nearest integer, halves rounded up. */
  function Round(v: real): (r: int)
    ensures v - 0.5 < r as real <= v + 0.5
  {
    (v + 0.5).Floor
  }

  /** Storing an integer into a `Uint8ClampedArray` saturates it to a byte. */
  function Byte(v: int): (r: int)
    ensures 0 <= r <= 255
    ensures 0 <= v <= 255 ==> r == v
    ensures v < 0 ==> r == 0
    ensures v > 255 ==> r == 255
  {
    if v < 0 then 0 else if v > 255 then 255 else v
  }

  /** Column `x` of row `y` sits at `y * w + x`, and that index gives the
      column and row back. */
  lemma RowMajor(x: nat, y: nat, w: nat, h: nat)
    requires x < w && y < h
    ensures y * w + x < w * h
    ensures (y * w + x) % w == x && (y * w + x) / w == y
  {
    assert y * w + x < (y + 1) * w <= h * w by {
      MulMono(y + 1, h, w);
    }
    DivUnique(y * w + x, w, y, x);
  }

  /** Column `x` of the row that starts at `base`. */
  lemma RowPixel(base: nat, x: nat, y: nat, w: nat)
    requires x < w && base % w == 0 && base / w == y
    ensures (base + x) % w == x && (base + x) / w == y
  {
    assert base == y * w;
    DivUnique(base + x, w, y, x);
  }

  /** A whole row fits below the end of the grid. */
  lemma RowFits(y: nat, w: nat, h: nat)
    requires y < h
    ensures y * w + w <= w * h
  {
    assert y * w + w == (y + 1) * w;
    MulMono(y + 1, h, w);
  }

  lemma MulMono(a: nat, b: nat, w: nat)
    requires a <= b
    ensures a * w <= b * w
  {
  }

  lemma AtLeastOnce(k: int, w: int)
    requires k >= 1 && w > 0
    ensures k * w >= w
  {
    assert k * w == (k - 1) * w + w;
    assert (k - 1) * w >= 0;
  }

  /** The quotient and remainder of `n` by `w` are the only pair with
      `n == q * w + r` and `0 <= r < w`. */
  lemma DivUnique(n: int, w: int, q: int, r: int)
    requires 0 < w && 0 <= r < w && n == q * w + r
    ensures n / w == q && n % w == r
  {
    var q0, r0 := n / w, n % w;
    assert q0 * w + r0 == n;
    assert (q0 - q) * w == q0 * w - q * w;
    if q0 > q {
      AtLeastOnce(q0 - q, w);
    } else if q0 < q {
      assert (q - q0) * w == q * w - q0 * w;
      AtLeastOnce(q - q0, w);
    }
  }

  /** The four bytes of pixel `p` start at `p * 4`. */
  lemma Rgba(p: nat, k: nat, n: nat)
    requires p < n && k < 4
    ensures p * 4 + k < n * 4
    ensures (p * 4 + k) / 4 == p && (p * 4 + k) % 4 == k
  {
  }
}
