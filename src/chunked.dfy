/** The `drawChunk` closures of the four renderers: a cursor over a finished
    list of items, advanced by `step` items per animation frame (or all of
    them at once when not animating), appending drawing calls to the context.
    A tick is rescheduled only while items remain; nothing cancels a chain. */
module Chunked {
  import opened Geometry
  import opened DrawLog
  import opened Canvas

  /** How a renderer groups its calls into paths:
      - SharedPath: one `beginPath` before the first tick, `stroke` after each
        tick, so every stroke repaints everything added so far (Koch snowflake);
      - PathPerTick: `beginPath` ... `stroke` around each tick (Koch curve, tree);
      - PathPerItem: each item draws its own closed path (Sierpinski triangles). */
  datatype PathMode = SharedPath | PathPerTick | PathPerItem

  /** `Math.max(1, Math.floor(len / Math.max(1, speed * perSpeed)))`. */
  function Step(len: nat, speed: int, perSpeed: nat): (r: nat)
    ensures r >= 1
    ensures len >= 1 ==> r <= len
    ensures speed * perSpeed <= 1 ==> r == (if len >= 1 then len else 1)
  {
    var d := if speed * perSpeed >= 1 then speed * perSpeed else 1;
    var q := len / d;
    if q >= 1 then q else 1
  }

  function Min(a: int, b: int): int { if a <= b then a else b }

  /** The calls for one segment in the Koch and tree renderers:
      `moveTo` its mapped start, `lineTo` its mapped end. */
  function SegmentCalls(f: Fit, s: Segment): (r: seq<Cmd>)
    ensures PlainCalls(r)
  {
    [MoveTo(Apply(f, s.a)), LineTo(Apply(f, s.b))]
  }

  function Prelude(mode: PathMode): seq<Cmd>
  {
    if mode == SharedPath then [BeginPath] else []
  }

  /** The calls one tick makes for the chunk it draws. */
  function TickLog<T>(emit: T -> seq<Cmd>, mode: PathMode, chunk: seq<T>): seq<Cmd>
  {
    match mode
    case SharedPath => EmitAll(emit, chunk) + [Stroke]
    case PathPerTick => [BeginPath] + EmitAll(emit, chunk) + [Stroke]
    case PathPerItem => EmitAll(emit, chunk)
  }

  function TicksLog<T>(emit: T -> seq<Cmd>, mode: PathMode, chunks: seq<seq<T>>): seq<Cmd>
    decreases |chunks|
  {
    if chunks == [] then []
    else TicksLog(emit, mode, chunks[..|chunks| - 1]) + TickLog(emit, mode, chunks[|chunks| - 1])
  }

  function Flatten<T>(chunks: seq<seq<T>>): seq<T>
    decreases |chunks|
  {
    if chunks == [] then [] else Flatten(chunks[..|chunks| - 1]) + chunks[|chunks| - 1]
  }

  ghost predicate PlainCalls(s: seq<Cmd>)
  {
    BeginPath !in s && Stroke !in s
  }

  /** The path a `stroke()` paints: the calls since the last `beginPath`,
      strokes left out. */
  function OpenPath(log: seq<Cmd>): seq<Cmd>
    decreases |log|
  {
    if log == [] then []
    else if log[|log| - 1] == BeginPath then []
    else OpenPath(log[..|log| - 1]) + (if log[|log| - 1] == Stroke then [] else [log[|log| - 1]])
  }

  lemma {:induction false} OpenPathAppend(s: seq<Cmd>, t: seq<Cmd>)
    requires BeginPath !in t
    ensures OpenPath(s + t) == OpenPath(s) + OpenPath(t)
    decreases |t|
  {
    if t == [] {
      assert s + t == s;
    } else {
      assert (s + t)[..|s + t| - 1] == s + t[..|t| - 1];
      OpenPathAppend(s, t[..|t| - 1]);
    }
  }

  lemma {:induction false} OpenPathPlain(t: seq<Cmd>)
    requires PlainCalls(t)
    ensures OpenPath(t) == t
    decreases |t|
  {
    if t != [] {
      OpenPathPlain(t[..|t| - 1]);
      assert t[..|t| - 1] + [t[|t| - 1]] == t;
    }
  }

  lemma {:induction false} EmitAllPlain<T>(emit: T -> seq<Cmd>, s: seq<T>)
    requires forall x :: PlainCalls(emit(x))
    ensures PlainCalls(EmitAll(emit, s))
    decreases |s|
  {
    if s != [] {
      EmitAllPlain(emit, s[..|s| - 1]);
    }
  }

  /** With one shared path, each `stroke()` repaints every item drawn so far,
      in order, each once. */
  lemma {:induction false} SharedPathIsCumulative<T>(emit: T -> seq<Cmd>, chunks: seq<seq<T>>)
    requires forall x :: PlainCalls(emit(x))
    ensures OpenPath([BeginPath] + TicksLog(emit, SharedPath, chunks)) == EmitAll(emit, Flatten(chunks))
    decreases |chunks|
  {
    if chunks == [] {
      assert [BeginPath] + TicksLog(emit, SharedPath, chunks) == [BeginPath];
    } else {
      var init, last := chunks[..|chunks| - 1], chunks[|chunks| - 1];
      var e := EmitAll(emit, last);
      SharedPathIsCumulative(emit, init);
      EmitAllPlain(emit, last);
      assert TicksLog(emit, SharedPath, chunks) == TicksLog(emit, SharedPath, init) + (e + [Stroke]);
      SharedStep(TicksLog(emit, SharedPath, init), e);
      assert Flatten(chunks) == Flatten(init) + last;
      EmitAllAppend(emit, Flatten(init), last);
    }
  }

  /** On the shared path, a tick's stroke paints what was there plus the
      tick's own calls. */
  lemma SharedStep(ticks: seq<Cmd>, e: seq<Cmd>)
    requires PlainCalls(e)
    ensures OpenPath([BeginPath] + (ticks + (e + [Stroke]))) == OpenPath([BeginPath] + ticks) + e
  {
    var before := [BeginPath] + ticks;
    assert [BeginPath] + (ticks + (e + [Stroke])) == before + (e + [Stroke]);
    StrokedChunkPath(e);
    OpenPathAppend(before, e + [Stroke]);
  }

  /** A chunk's calls followed by `stroke()` leave exactly those calls on the path. */
  lemma StrokedChunkPath(s: seq<Cmd>)
    requires PlainCalls(s)
    ensures BeginPath !in s + [Stroke]
    ensures OpenPath(s + [Stroke]) == s
  {
    OpenPathPlain(s);
    assert (s + [Stroke])[..|s|] == s;
  }

  /** With a path per tick, each `stroke()` paints only that tick's chunk. */
  lemma {:induction false} PerTickPathIsLastChunk<T>(emit: T -> seq<Cmd>, chunks: seq<seq<T>>)
    requires forall x :: PlainCalls(emit(x))
    requires chunks != []
    ensures OpenPath(TicksLog(emit, PathPerTick, chunks)) == EmitAll(emit, chunks[|chunks| - 1])
  {
    var init, last := chunks[..|chunks| - 1], chunks[|chunks| - 1];
    EmitAllPlain(emit, last);
    OpenAfterBegin(TicksLog(emit, PathPerTick, init), EmitAll(emit, last));
  }

  /** After a `beginPath`, a stroke paints only the plain calls since. */
  lemma OpenAfterBegin(before: seq<Cmd>, e: seq<Cmd>)
    requires PlainCalls(e)
    ensures OpenPath(before + ([BeginPath] + e + [Stroke])) == e
  {
    var begun := before + [BeginPath];
    assert before + ([BeginPath] + e + [Stroke]) == begun + (e + [Stroke]);
    assert OpenPath(begun) == [];
    StrokedChunkPath(e);
    OpenPathAppend(begun, e + [Stroke]);
  }

  /** One `stroke()` per tick in the two stroke-per-tick modes. */
  lemma {:induction false} StrokePerTick<T>(emit: T -> seq<Cmd>, mode: PathMode, chunks: seq<seq<T>>)
    requires forall x :: PlainCalls(emit(x))
    requires mode != PathPerItem
    ensures Count(TicksLog(emit, mode, chunks), Stroke) == |chunks|
    decreases |chunks|
  {
    if chunks != [] {
      var init, last := chunks[..|chunks| - 1], chunks[|chunks| - 1];
      StrokePerTick(emit, mode, init);
      EmitAllPlain(emit, last);
      NoStrokeCount(EmitAll(emit, last));
      CountAppend(TicksLog(emit, mode, init), TickLog(emit, mode, last), Stroke);
      if mode == SharedPath {
        CountAppend(EmitAll(emit, last), [Stroke], Stroke);
      } else {
        CountAppend([BeginPath] + EmitAll(emit, last), [Stroke], Stroke);
        CountAppend([BeginPath], EmitAll(emit, last), Stroke);
      }
    }
  }

  lemma {:induction false} NoStrokeCount(s: seq<Cmd>)
    requires Stroke !in s
    ensures Count(s, Stroke) == 0
    decreases |s|
  {
    if s != [] {
      assert s[0] in s;
      assert forall c :: c in s[1..] ==> c in s;
      NoStrokeCount(s[1..]);
    }
  }

  lemma FlattenSnoc<T>(chunks: seq<seq<T>>, c: seq<T>)
    ensures Flatten(chunks + [c]) == Flatten(chunks) + c
  {
    assert (chunks + [c])[..|chunks|] == chunks;
  }

  lemma TicksLogSnoc<T>(emit: T -> seq<Cmd>, mode: PathMode, chunks: seq<seq<T>>, c: seq<T>)
    ensures TicksLog(emit, mode, chunks + [c]) == TicksLog(emit, mode, chunks) + TickLog(emit, mode, c)
  {
    assert (chunks + [c])[..|chunks|] == chunks;
  }

  /** The render's invariant, over plain values: the ticks so far drew
      `items[..cursor]` in order, chunk by chunk; the context holds exactly
      their calls; a tick is due until the last one found nothing left; a
      non-animated render draws everything in its one tick; an animated one
      draws `step` items per tick (fewer only in the last). */
  ghost predicate Consistent<T>(items: seq<T>, emit: T -> seq<Cmd>, mode: PathMode, animate: bool, step: nat,
                               cursor: nat, pending: bool, start: seq<Cmd>, chunks: seq<seq<T>>, log: seq<Cmd>)
  {
    && step >= 1
    && cursor <= |items|
    && Flatten(chunks) == items[..cursor]
    && log == start + Prelude(mode) + TicksLog(emit, mode, chunks)
    && (pending <==> chunks == [] || (animate && cursor < |items|))
    && (!animate && chunks != [] ==> cursor == |items| && |chunks| == 1)
    && (animate ==> forall k :: 0 <= k < |chunks| ==> |chunks[k]| <= step)
    && (animate ==> forall k :: 0 <= k < |chunks| - 1 ==> |chunks[k]| == step)
    && (animate && chunks != [] && cursor < |items| ==> |chunks[|chunks| - 1]| == step)
  }

  /** A tick that draws `items[cursor..next]` keeps the invariant. */
  lemma TickKeepsConsistent<T>(items: seq<T>, emit: T -> seq<Cmd>, mode: PathMode, animate: bool, step: nat,
                              cursor: nat, pending: bool, start: seq<Cmd>, chunks: seq<seq<T>>, log: seq<Cmd>, next: nat)
    requires Consistent(items, emit, mode, animate, step, cursor, pending, start, chunks, log) && pending
    requires next == Min(|items|, cursor + (if animate then step else |items|))
    ensures Consistent(items, emit, mode, animate, step, next, animate && next < |items|, start,
                       chunks + [items[cursor..next]], log + TickLog(emit, mode, items[cursor..next]))
  {
    var chunk := items[cursor..next];
    DrawnKept(items, chunks, cursor, next);
    LoggedKept(emit, mode, start, chunks, chunk, log);
    if animate {
      ChunkSizesKept(chunks, chunk, step, cursor < |items|);
    }
  }

  /** The next chunk continues where the drawn items stop. */
  lemma DrawnKept<T>(items: seq<T>, chunks: seq<seq<T>>, cursor: nat, next: nat)
    requires cursor <= next <= |items| && Flatten(chunks) == items[..cursor]
    ensures Flatten(chunks + [items[cursor..next]]) == items[..next]
  {
    FlattenSnoc(chunks, items[cursor..next]);
    assert items[..next] == items[..cursor] + items[cursor..next];
  }

  /** The tick's calls follow the earlier ticks' calls. */
  lemma LoggedKept<T>(emit: T -> seq<Cmd>, mode: PathMode, start: seq<Cmd>, chunks: seq<seq<T>>, chunk: seq<T>, log: seq<Cmd>)
    requires log == start + Prelude(mode) + TicksLog(emit, mode, chunks)
    ensures log + TickLog(emit, mode, chunk) == start + Prelude(mode) + TicksLog(emit, mode, chunks + [chunk])
  {
    TicksLogSnoc(emit, mode, chunks, chunk);
    AppendAssoc(start + Prelude(mode), TicksLog(emit, mode, chunks), TickLog(emit, mode, chunk));
  }

  lemma AppendAssoc<A>(a: seq<A>, b: seq<A>, c: seq<A>)
    ensures a + b + c == a + (b + c)
  {
  }

  /** Appending a chunk of at most `step` items after full chunks keeps
      every chunk but the last full. */
  lemma ChunkSizesKept<T>(chunks: seq<seq<T>>, chunk: seq<T>, step: nat, lastFull: bool)
    requires forall k :: 0 <= k < |chunks| ==> |chunks[k]| <= step
    requires forall k :: 0 <= k < |chunks| - 1 ==> |chunks[k]| == step
    requires chunks != [] && lastFull ==> |chunks[|chunks| - 1]| == step
    requires chunks != [] ==> lastFull
    requires |chunk| <= step
    ensures forall k :: 0 <= k < |chunks + [chunk]| ==> |(chunks + [chunk])[k]| <= step
    ensures forall k :: 0 <= k < |chunks + [chunk]| - 1 ==> |(chunks + [chunk])[k]| == step
  {
    var chunks' := chunks + [chunk];
    forall k | 0 <= k < |chunks'| - 1 ensures |chunks'[k]| == step {
      assert chunks'[k] == chunks[k];
    }
  }

  /** A tick's prelude, items and closing stroke, appended in turn, make
      its log. */
  lemma TickSplice<T>(log0: seq<Cmd>, log1: seq<Cmd>, log2: seq<Cmd>, log3: seq<Cmd>,
                      emit: T -> seq<Cmd>, mode: PathMode, chunk: seq<T>)
    requires log1 == log0 + (if mode == PathPerTick then [BeginPath] else [])
    requires log2 == log1 + EmitAll(emit, chunk)
    requires log3 == log2 + (if mode != PathPerItem then [Stroke] else [])
    ensures log3 == log0 + TickLog(emit, mode, chunk)
  {
    var e := EmitAll(emit, chunk);
    match mode
    case SharedPath =>
      assert log0 + [] == log0;
      assert log0 + (e + [Stroke]) == log0 + e + [Stroke];
    case PathPerTick =>
      assert log0 + ([BeginPath] + e + [Stroke]) == log0 + [BeginPath] + e + [Stroke];
    case PathPerItem =>
      assert log0 + [] == log0;
      assert log2 + [] == log2;
  }

  class ChunkedRender<T> {
    const ctx: Context
    const items: seq<T>
    /** The calls for one item, its points already mapped to the surface. */
    const emit: T -> seq<Cmd>
    const mode: PathMode
    const animate: bool
    const step: nat
    /** The closure's cursor `i` (`drawnCount` in the Koch demo). */
    var cursor: nat
    /** A `drawChunk` call is due: the first, direct one, or a requested frame. */
    var pending: bool
    /** The context's calls from before this render. */
    ghost var start: seq<Cmd>
    /** The items each tick drew, tick by tick. */
    ghost var chunks: seq<seq<T>>

    ghost predicate Valid()
      reads this, ctx
    {
      Consistent(items, emit, mode, animate, step, cursor, pending, start, chunks, ctx.log)
    }

    /** The state just before the renderer's first, direct `drawChunk()` call;
        in the shared-path mode the renderer has already called `beginPath`. */
    constructor (ctx: Context, items: seq<T>, emit: T -> seq<Cmd>, mode: PathMode, animate: bool, step: nat)
      requires step >= 1
      modifies ctx
      ensures Valid()
      ensures this.ctx == ctx && this.items == items && this.emit == emit
      ensures this.mode == mode && this.animate == animate && this.step == step
      ensures cursor == 0 && pending && chunks == [] && start == old(ctx.log)
      ensures ctx.log == old(ctx.log) + Prelude(mode)
    {
      this.ctx := ctx;
      this.items := items;
      this.emit := emit;
      this.mode := mode;
      this.animate := animate;
      this.step := step;
      cursor := 0;
      pending := true;
      start := ctx.log;
      chunks := [];
      new;
      ctx.log := ctx.log + Prelude(mode);
    }

    /** The drawing calls of one tick for `items[from..to]`. */
    method DrawItems(from: nat, to: nat)
      requires from <= to <= |items|
      modifies ctx
      ensures ctx.log == old(ctx.log) + TickLog(emit, mode, items[from..to])
    {
      ghost var log0 := ctx.log;
      if mode == PathPerTick {
        ctx.log := ctx.log + [BeginPath];
      }
      ghost var log1 := ctx.log;
      var i := from;
      while i < to
        invariant from <= i <= to
        invariant ctx.log == log1 + EmitAll(emit, items[from..i])
      {
        assert items[from..i + 1] == items[from..i] + [items[i]];
        ctx.log := ctx.log + emit(items[i]);
        i := i + 1;
      }
      ghost var log2 := ctx.log;
      if mode != PathPerItem {
        ctx.log := ctx.log + [Stroke];
      }
      TickSplice(log0, log1, log2, ctx.log, emit, mode, items[from..to]);
    }

    /** One `drawChunk()` call. */
    method Tick()
      requires Valid() && pending
      modifies this, ctx
      ensures Valid()
      ensures start == old(start)
      ensures cursor == Min(|items|, old(cursor) + (if animate then step else |items|))
      ensures chunks == old(chunks) + [items[old(cursor)..cursor]]
      ensures ctx.log == old(ctx.log) + TickLog(emit, mode, items[old(cursor)..cursor])
      ensures pending == (animate && cursor < |items|)
    {
      ghost var log0 := ctx.log;
      ghost var c0 := chunks;
      var from := cursor;
      var to := Min(|items|, from + (if animate then step else |items|));
      DrawItems(from, to);
      TickKeepsConsistent(items, emit, mode, animate, step, from, pending, start, c0, log0, to);
      chunks := c0 + [items[from..to]];
      cursor := to;
      pending := animate && to < |items|;
    }

    /** The chain of animation frames, run until no further tick is requested:
        every item has then been drawn once, in order. */
    method Finish()
      requires Valid()
      modifies this, ctx
      ensures Valid() && !pending && cursor == |items|
      ensures Flatten(chunks) == items
      ensures start == old(start)
    {
      while pending
        invariant Valid() && start == old(start)
        decreases |items| - cursor + (if pending then 1 else 0)
      {
        Tick();
      }
      assert items[..cursor] == items;
    }
  }

  /** A renderer's closure created, its path prelude issued, and its first,
      direct `drawChunk()` call made. */
  method Start<T>(ctx: Context, items: seq<T>, emit: T -> seq<Cmd>, mode: PathMode, animate: bool, step: nat)
    returns (r: ChunkedRender<T>)
    requires step >= 1
    modifies ctx
    ensures fresh(r) && r.Valid() && r.ctx == ctx && r.items == items && r.emit == emit
    ensures r.mode == mode && r.animate == animate && r.step == step
    ensures r.cursor == Min(|items|, if animate then step else |items|)
    ensures r.chunks == [items[..r.cursor]] && r.pending == (animate && r.cursor < |items|)
    ensures ctx.log == old(ctx.log) + Prelude(mode) + TickLog(emit, mode, items[..r.cursor])
  {
    r := new ChunkedRender(ctx, items, emit, mode, animate, step);
    r.Tick();
    assert items[0..r.cursor] == items[..r.cursor];
  }
}
