/** The 2D drawing context, reduced to the log of calls made on it. */
module DrawLog {
  import opened Geometry

  /** A `fillStyle` value: the Mandelbrot demo's `#000` and
      `hsl(hue, 100%, 50%)`, or a fixed CSS colour. */
  datatype FillStyle = Black | Hsl(hue: real) | Css(color: string)

  datatype Cmd =
    | BeginPath
    | MoveTo(p: Point)
    | LineTo(p: Point)
    | ClosePath
    | Stroke
    | Fill
    | SetFill(style: FillStyle)
    /** `fillRect(px, py, 1, 1)`: one pixel. */
    | FillRect(px: int, py: int)
    /** `strokeStyle`/`lineWidth` chosen from a segment's base-case flag. */
    | LineStyle(base: bool)

  /** A canvas rendering context: every call appends to `log`. */
  class Context {
    var log: seq<Cmd>

    constructor ()
      ensures log == []
    {
      log := [];
    }
  }

  /** `window.devicePixelRatio || 1`: a missing or zero ratio counts as 1.
      The canvas' backing store is `devicePixelRatio` times its CSS size. */
  function PixelRatio(dpr: real): (r: real)
    ensures r != 0.0
    ensures dpr != 0.0 ==> r == dpr
  {
    if dpr == 0.0 then 1.0 else dpr
  }

  /** The number of times `c` occurs in `s`. */
  function Count(s: seq<Cmd>, c: Cmd): nat
  {
    if s == [] then 0 else (if s[0] == c then 1 else 0) + Count(s[1..], c)
  }

  lemma {:induction false} CountAppend(s: seq<Cmd>, t: seq<Cmd>, c: Cmd)
    ensures Count(s + t, c) == Count(s, c) + Count(t, c)
    decreases |s|
  {
    if s == [] {
      assert s + t == t;
    } else {
      assert (s + t)[1..] == s[1..] + t;
      CountAppend(s[1..], t, c);
    }
  }

  lemma CountThree(a: seq<Cmd>, b: seq<Cmd>, d: seq<Cmd>, c: Cmd)
    ensures Count(a + b + d, c) == Count(a, c) + Count(b, c) + Count(d, c)
  {
    CountAppend(a + b, d, c);
    CountAppend(a, b, c);
  }

  /** The calls made for a run of items, in order. */
  function EmitAll<T>(emit: T -> seq<Cmd>, s: seq<T>): seq<Cmd>
    decreases |s|
  {
    if s == [] then [] else EmitAll(emit, s[..|s| - 1]) + emit(s[|s| - 1])
  }

  lemma {:induction false} EmitAllAppend<T>(emit: T -> seq<Cmd>, s: seq<T>, t: seq<T>)
    ensures EmitAll(emit, s + t) == EmitAll(emit, s) + EmitAll(emit, t)
    decreases |t|
  {
    if t == [] {
      assert s + t == s;
    } else {
      assert (s + t)[..|s + t| - 1] == s + t[..|t| - 1];
      EmitAllAppend(emit, s, t[..|t| - 1]);
    }
  }

  /** Three runs of items emit their calls one run after another. */
  lemma EmitAllAppend3<T>(emit: T -> seq<Cmd>, s0: seq<T>, s1: seq<T>, s2: seq<T>)
    ensures EmitAll(emit, s0 + s1 + s2) == EmitAll(emit, s0) + EmitAll(emit, s1) + EmitAll(emit, s2)
  {
    EmitAllAppend(emit, s0, s1);
    EmitAllAppend(emit, s0 + s1, s2);
  }

  /** Four runs of items emit their calls one run after another. */
  lemma EmitAllAppend4<T>(emit: T -> seq<Cmd>, s0: seq<T>, s1: seq<T>, s2: seq<T>, s3: seq<T>)
    ensures EmitAll(emit, s0 + s1 + s2 + s3)
      == EmitAll(emit, s0) + EmitAll(emit, s1) + EmitAll(emit, s2) + EmitAll(emit, s3)
  {
    EmitAllAppend3(emit, s0, s1, s2);
    EmitAllAppend(emit, s0 + s1 + s2, s3);
  }

  /** When each item makes `k` calls of kind `c`, a run of items makes `k`
      per item. */
  lemma {:induction false} EmitAllCount<T>(emit: T -> seq<Cmd>, s: seq<T>, c: Cmd, k: nat)
    requires forall x :: Count(emit(x), c) == k
    ensures Count(EmitAll(emit, s), c) == k * |s|
    decreases |s|
  {
    if s != [] {
      EmitAllCount(emit, s[..|s| - 1], c, k);
      CountAppend(EmitAll(emit, s[..|s| - 1]), emit(s[|s| - 1]), c);
      assert EmitAll(emit, s) == EmitAll(emit, s[..|s| - 1]) + emit(s[|s| - 1]);
      assert k * |s| == k * (|s| - 1) + k;
    }
  }

  /** Four appends in a row append the four parts' concatenation. */
  lemma ThreeAppends(l0: seq<Cmd>, l1: seq<Cmd>, l2: seq<Cmd>, l3: seq<Cmd>,
                     f0: seq<Cmd>, f1: seq<Cmd>, f2: seq<Cmd>)
    requires l1 == l0 + f0 && l2 == l1 + f1 && l3 == l2 + f2
    ensures l3 == l0 + (f0 + f1 + f2)
  {
  }

  lemma FourAppends(l0: seq<Cmd>, l1: seq<Cmd>, l2: seq<Cmd>, l3: seq<Cmd>, l4: seq<Cmd>,
                    f0: seq<Cmd>, f1: seq<Cmd>, f2: seq<Cmd>, f3: seq<Cmd>)
    requires l1 == l0 + f0 && l2 == l1 + f1 && l3 == l2 + f2 && l4 == l3 + f3
    ensures l4 == l0 + (f0 + f1 + f2 + f3)
  {
  }

  /** Two appends in a row append the two parts' concatenation. */
  lemma AppendStep(start: seq<Cmd>, done: seq<Cmd>, next: seq<Cmd>, l1: seq<Cmd>, l2: seq<Cmd>)
    requires l1 == start + done && l2 == l1 + next
    ensures l2 == start + (done + next)
  {
  }
}
