/** `noise2d.ts`: two-dimensional gradient noise over a lookup table that
    a 32-bit xorshift generator fills from a seed. */
module Noise {
  import Fbm

  /** The seed the constructor uses when none is given. */
  const DefaultSeed := 1337

  /** `seed >>> 0` for an integer seed: the seed modulo `2^32`. */
  function SeedWord(seed: int): bv32
  {
    (seed % 0x1_0000_0000) as bv32
  }

  /** One xorshift step: `x ^= x << 13; x ^= x >>> 17; x ^= x << 5`. The
      shifts and exclusive-ors act on the 32-bit word whatever sign
      JavaScript gives it in between. */
  function XorShift(x: bv32): bv32
  {
    var a := x ^ (x << 13);
    var b := a ^ (a >> 17);
    b ^ (b << 5)
  }

  /** The generator's state after `i` steps from `seed >>> 0`. */
  function State(seed: int, i: nat): bv32
  {
    if i == 0 then SeedWord(seed) else XorShift(State(seed, i - 1))
  }

  /** `p[i] = x & 255`, taken after the `i + 1`-th step. */
  function Entry(seed: int, i: nat): int
  {
    (State(seed, i + 1) & 255) as int
  }

  lemma EntryRange(seed: int, i: nat)
    ensures 0 <= Entry(seed, i) < 256
  {
    var w := State(seed, i + 1);
    assert w & 255 <= 255;
  }

  /** The 512-entry table `perm`: the 256 entries `p` twice over. */
  function Table(seed: int): seq<int>
  {
    seq(512, i requires 0 <= i < 512 => Entry(seed, i % 256))
  }

  /** The table has 512 bytes and repeats with period 256. */
  lemma TableShape(seed: int)
    ensures var t := Table(seed);
      |t| == 512 && forall i :: 0 <= i < 512 ==> 0 <= t[i] < 256 && t[i] == t[i % 256]
  {
    var t := Table(seed);
    forall i | 0 <= i < 512
      ensures 0 <= t[i] < 256 && t[i] == t[i % 256]
    {
      EntryRange(seed, i % 256);
    }
  }

  /** The table depends only on the seed modulo `2^32`. */
  lemma TableSeed(seed: int)
    ensures Table(seed + 0x1_0000_0000) == Table(seed)
  {
    assert (seed + 0x1_0000_0000) % 0x1_0000_0000 == seed % 0x1_0000_0000;
    SameWordSameStates(seed, seed + 0x1_0000_0000);
  }

  lemma SameWordSameStates(s1: int, s2: int)
    requires SeedWord(s1) == SeedWord(s2)
    ensures forall i: nat :: State(s1, i) == State(s2, i)
  {
    forall i: nat
      ensures State(s1, i) == State(s2, i)
    {
      SameStates(s1, s2, i);
    }
  }

  lemma {:induction false} SameStates(s1: int, s2: int, i: nat)
    requires SeedWord(s1) == SeedWord(s2)
    ensures State(s1, i) == State(s2, i)
  {
    if i > 0 {
      SameStates(s1, s2, i - 1);
    }
  }

  /** `fade(t)`: `6t^5 - 15t^4 + 10t^3`. */
  function Fade(t: real): real
  {
    t * t * t * (t * (t * 6.0 - 15.0) + 10.0)
  }

  /** `grad(h, x, y)`: bit 0 of `h` (`h & 1`) negates `x`, bit 1
      (`h & 2`) negates `y`; `h` is a table byte, so its bits are its
      binary digits. */
  function Grad(h: int, x: real, y: real): real
    requires 0 <= h < 256
  {
    var u := if h % 2 == 1 then -x else x;
    var v := if (h / 2) % 2 == 1 then -y else y;
    u + v
  }

  /** Fade and lerp meet their end points: `fade(0) = 0`, `fade(1) = 1`,
      `lerp(a, b, 0) = a`, `lerp(a, b, 1) = b`. */
  lemma Ends(a: real, b: real, t: real)
    ensures t == 0.0 ==> Fade(t) == 0.0 && Fbm.Lerp(a, b, t) == a
    ensures t == 1.0 ==> Fade(t) == 1.0 && Fbm.Lerp(a, b, t) == b
  {
  }

  /** The four gradient directions `(1,1)`, `(-1,1)`, `(1,-1)`, `(-1,-1)`,
      picked by `h` modulo 4. */
  lemma GradDirections(h: int, x: real, y: real)
    requires 0 <= h < 256
    ensures Grad(h, x, y) == [x + y, -x + y, x - y, -x - y][h % 4]
  {
  }

  /** `Math.floor(v) & 255`: the lattice cell modulo 256. For every integer
      the two's complement `& 255` equals the non-negative remainder. */
  function Cell(v: real): int
  {
    v.Floor % 256
  }

  /** `v - Math.floor(v)`. */
  function Frac(v: real): real
  {
    v - v.Floor as real
  }

  /** The cell is a byte and the offset inside it lies in `[0, 1)`. */
  lemma CellAndFrac(v: real)
    ensures 0 <= Cell(v) < 256
    ensures 0.0 <= Frac(v) < 1.0
    ensures v == v.Floor as real ==> Frac(v) == 0.0
  {
  }

  /** The constructor's first loop: 256 xorshift steps from `seed >>> 0`,
      keeping the low byte of each state. */
  method Bytes(seed: int) returns (p: array<int>)
    ensures fresh(p) && p.Length == 256
    ensures forall j :: 0 <= j < 256 ==> p[j] == Entry(seed, j)
  {
    p := new int[256];
    var x := SeedWord(seed);
    for i := 0 to 256
      invariant x == State(seed, i)
      invariant forall j :: 0 <= j < i ==> p[j] == Entry(seed, j)
    {
      x := XorShift(x);
      p[i] := (x & 255) as int;
    }
  }

  /** The constructor's second loop: `perm[i] = p[i & 255]`, where
      `i & 255` is `i % 256` for `0 <= i < 512`. */
  method Repeat(p: array<int>) returns (q: array<int>)
    requires p.Length == 256
    ensures fresh(q) && q.Length == 512
    ensures forall j :: 0 <= j < 512 ==> q[j] == p[j % 256]
  {
    q := new int[512];
    for i := 0 to 512
      invariant forall j :: 0 <= j < i ==> q[j] == p[j % 256]
    {
      q[i] := p[i % 256];
    }
  }

  /** `new Noise2D(seed)`, holding the table `perm`. */
  class Noise2D {
    var perm: array<int>

    ghost predicate Valid()
      reads this, perm
    {
      perm.Length == 512 && forall i :: 0 <= i < 512 ==> 0 <= perm[i] < 256
    }

    constructor(seed: int)
      ensures Valid() && fresh(perm)
      ensures perm[..] == Table(seed)
    {
      var p := Bytes(seed);
      var q := Repeat(p);
      perm := q;
      TableShape(seed);
      assert forall j :: 0 <= j < 512 ==> q[..][j] == Table(seed)[j];
    }

    /** The four nested lookups of `noise` stay inside the table: every
        entry is a byte, so `p[X] + Y + 1 <= 511`. */
    lemma LookupsInBounds(x: real, y: real)
      requires Valid()
      ensures var X, Y := Cell(x), Cell(y);
        && 0 <= perm[X] + Y && perm[X] + Y + 1 < 512
        && 0 <= perm[X + 1] + Y && perm[X + 1] + Y + 1 < 512
    {
      CellAndFrac(x);
      CellAndFrac(y);
    }

    /** `noise(x, y)`, rescaled by `(value + 1) * 0.5`. */
    function NoiseAt(x: real, y: real): real
      requires Valid()
      reads this, perm
    {
      var X, Y := Cell(x), Cell(y);
      var xf, yf := Frac(x), Frac(y);
      var u, v := Fade(xf), Fade(yf);
      var aa := perm[perm[X] + Y];
      var ab := perm[perm[X] + Y + 1];
      var ba := perm[perm[X + 1] + Y];
      var bb := perm[perm[X + 1] + Y + 1];
      var x1 := Fbm.Lerp(Grad(aa, xf, yf), Grad(ba, xf - 1.0, yf), u);
      var x2 := Fbm.Lerp(Grad(ab, xf, yf - 1.0), Grad(bb, xf - 1.0, yf - 1.0), u);
      (Fbm.Lerp(x1, x2, v) + 1.0) * 0.5
    }

    /** At integer coordinates every weight is zero and the gradient at the
        cell's own corner is zero, so the noise is exactly `0.5`. */
    lemma LatticeHalf(x: real, y: real)
      requires Valid()
      requires x == x.Floor as real && y == y.Floor as real
      ensures NoiseAt(x, y) == 0.5
    {
      CellAndFrac(x);
      CellAndFrac(y);
      var X, Y := Cell(x), Cell(y);
      var aa := perm[perm[X] + Y];
      GradDirections(aa, 0.0, 0.0);
    }
  }
}
