# Fractal web app: a verified model of its drawing and search core

The web app teaches fractals. Each fractal has a renderer that builds its
geometry recursively and draws it on a 2D canvas. The Koch snowflake and
curve, the Sierpinski triangle and the fractal tree are drawn chunk by
chunk, one chunk per animation frame. The two Koch variants of `koch.ts`
and the demo pages, the Sierpinski fill, the Pythagoras tree and the
Mandelbrot set are drawn in one go. There are also three noise and fBm
terrain images, and a case-insensitive search over the learning topics.

This project models that core in Dafny. It has one module per source file
and a few shared modules:

- `Geometry`: points, segments, triangles, exact thirds and midpoints,
  integer powers, and `Trig`. `Trig` is a record holding `Math.cos`, `sin`,
  `atan2`, `sqrt` and `PI`. It is a parameter, so every property proved
  here holds for every choice of these functions.
- `DrawLog`: the canvas context. It is a class whose only state is the log
  of calls made on it (`beginPath`, `moveTo`, `lineTo`, `closePath`,
  `stroke`, `fill`, `fillStyle`, one-pixel `fillRect`, the line style).
- `Canvas`: `fitAndScale` and the bounding-box pass that the renderers run
  before calling it.
- `Chunked`: the `drawChunk` closures as one class, `ChunkedRender`. It
  holds the finished item list, the cursor, the step and the `animate`
  flag. `Tick` stands for one `requestAnimationFrame` callback and `Finish`
  for the whole chain of callbacks. The shared-path drawing of
  `kochSnowflake.ts` and the fresh-path-per-tick drawing of `kochCurve.ts`,
  `sierpinskiTriangle.ts` and `fractalTree.ts` are modes of this class.
- `KochSubdivide` and `SierpinskiSubdivide`: the recursive subdivisions
  that the generators share. The Koch peak rule is a parameter.
- `Escape`: the escape-time iteration shared by the two Mandelbrot
  renderers.
- `Grid`: `Math.min`/`Math.max`, `Math.round`, `Uint8ClampedArray` stores
  and row-major indices.
- `Wrappers`: `Option`.

Generators that push results onto an output array are modelled as
functions returning sequences. Drawing recursions, cursor loops and pixel
loops are methods. Their `ensures` clauses tie the new log or buffer to a
specification function, and lemmas prove what the source promises about
that function: counts, chaining, order, exact cut points, areas, bounds,
normalisation, classification bands and search results.

Numbers are Dafny `real`, so arithmetic is exact. Integer widths are
written out where the source depends on them, as in the 32-bit xorshift of
`noise2d.ts`.

## Model

| member | source | states |
|---|---|---|
| Geometry.Pow | src/fractals/kochSnowflake.ts:21-43 | a power of a base of at least 1 is at least 1: a subdivision of any depth pushes at least one segment |
| Geometry.ChainAppend | src/fractals/kochSnowflake.ts:39-42 | a chain from p to a followed by a chain from a to q is a chain from p to q: the four recursive `subdivide` calls meet end to start |
| Geometry.ChainLinks | src/fractals/kochSnowflake.ts:39-42 | a non-empty chain from p to q starts at p, ends at q, and each segment starts where the previous one ends |
| Geometry.ChainSplit | src/fractals/kochSnowflake.ts:45-46 | a chain split at any index is two chains meeting at the split point |
| DrawLog.Context.constructor | src/lib/canvas.ts:3-5 | a fresh 2D context has made no calls yet |
| DrawLog.PixelRatio | src/lib/canvas.ts:7 | `window.devicePixelRatio \|\| 1` is never 0 and keeps any non-zero ratio |
| DrawLog.CountAppend | src/fractals/kochSnowflake.ts:90 | the number of `stroke()` calls in two logs appended is the sum of their counts |
| DrawLog.EmitAllAppend | src/fractals/kochSnowflake.ts:81-89 | the calls for the items of `a + b` are the calls for `a` followed by those for `b` |
| DrawLog.EmitAllCount | src/fractals/sierpinskiTriangle.ts:42-55 | when each item makes exactly k calls of a kind, the calls for n items contain k * n of them |
| Canvas.FitAndScale | src/lib/canvas.ts:29-39 | a fit exists exactly when no `0 / 0` quotient arises (an `Infinity` quotient on a flat axis loses to the other axis); its scale is non-negative, the scaled box fits the target in both directions, touches it along at least one of them, and leaves equal margins on both sides of each axis |
| Canvas.ScaleIsGreatest | src/lib/canvas.ts:35 | no larger uniform scale fits the target: `Math.min` of the two ratios is the greatest scale that fits |
| Canvas.BoxMapsInside | src/lib/canvas.ts:33-38 | every point of the box, transformed by the fit, lands inside the target rectangle |
| Canvas.CentredFitInside | src/lib/canvas.ts:36-37 | any fitting non-negative scale with centring offsets maps the box into the target |
| Canvas.AxisInside | src/lib/canvas.ts:36-37 | along one axis, equal margins and a scaled extent no longer than the target put every scaled coordinate inside it |
| Canvas.BoundingBox | src/fractals/kochSnowflake.ts:59-70 | `Math.min(...xs)` and friends: no box for no points, otherwise a box that bounds every point and whose four sides are each attained by a point |
| Canvas.BoxAndFit | src/fractals/kochSnowflake.ts:59-72 | for points with two different x values, the box bounds and is attained by the points and `fitAndScale` of it succeeds |
| Canvas.BoxAndFitTall | src/fractals/fractalTree.ts:32-43 | the same for points with two different y values (the tree's trunk is vertical) |
| Canvas.SegmentPoints | src/fractals/kochSnowflake.ts:61-64 | the points pushed for the segments are both endpoints of each, in order: twice as many points as segments |
| Canvas.TrianglePoints | src/fractals/sierpinskiTriangle.ts:38-40 | the points pushed for the triangles are the three corners of each, in order |
| Chunked.Step | src/fractals/kochSnowflake.ts:77 | the step is at least 1, at most the number of items when there are any, and the whole list when `speed * perSpeed <= 1` |
| Chunked.SegmentCalls | src/fractals/kochSnowflake.ts:82-88 | one segment draws `moveTo` of its mapped start then `lineTo` of its mapped end; no path is begun or stroked |
| Chunked.SharedPathIsCumulative | src/fractals/kochSnowflake.ts:75-93 | with one `beginPath` before the first tick, the path each `stroke()` paints is every item drawn so far, in order |
| Chunked.PerTickPathIsLastChunk | src/fractals/kochCurve.ts:51-61 | with a `beginPath` per tick, the last `stroke()` paints only the last tick's chunk |
| Chunked.StrokePerTick | src/fractals/kochSnowflake.ts:90 | in both stroke-per-tick modes the log holds exactly one `stroke()` per tick |
| Chunked.TickKeepsConsistent | src/fractals/kochSnowflake.ts:79-94 | a tick that draws `items[cursor..end]`, `end` as line 80 computes it, keeps the renderer's invariant: the drawn items are a prefix in order, the log holds exactly their calls, chunks are `step` long except the last, a frame is requested only while items remain |
| Chunked.ChunkedRender.constructor | src/fractals/kochSnowflake.ts:75-76 | the closure's state before its first call: cursor 0, one call due, the path prelude issued |
| Chunked.ChunkedRender.DrawItems | src/fractals/kochSnowflake.ts:81-89 | the loop appends the calls for `items[from..to]` in order, and nothing else |
| Chunked.ChunkedRender.Tick | src/fractals/kochSnowflake.ts:79-94 | one `drawChunk()`: the cursor moves to `min(len, i + step)` (all items when not animating), the log grows by exactly that chunk's calls, and a further frame is requested exactly when animating and items remain |
| Chunked.ChunkedRender.Finish | src/fractals/kochSnowflake.ts:91-93 | the chain of requested frames ends, and then every item has been drawn exactly once, in order |
| Chunked.Start | src/fractals/kochSnowflake.ts:75-95 | the direct `drawChunk()` call: the first chunk drawn and the log extended by the prelude and that chunk's calls |
| KochSubdivide.Subdivide | src/fractals/kochSnowflake.ts:21-43 | `subdivide(x1, y1, x2, y2, n, out)` pushes `4^n` segments |
| KochSubdivide.SubdivideChains | src/fractals/kochSnowflake.ts:21-43 | the pushed segments form one unbroken chain from (x1, y1) to (x2, y2) |
| KochSubdivide.SubdivideQuarters | src/fractals/kochSnowflake.ts:26-42 | for n >= 1 the output is four equal quarters, the subdivisions of start to first third, first third to peak, peak to second third and second third to end, each starting exactly at its cut point |
| KochSubdivide.Quarters | src/fractals/kochSnowflake.ts:39-42 | four chains of equal length, concatenated, are the four quarters and start at the four cut points |
| KochSubdivide.SubdivideEach | src/fractals/kochSnowflake.ts:45-46 | subdividing every edge in turn gives `4^n` segments per edge |
| KochSubdivide.SubdivideEachThree | src/fractals/kochSnowflake.ts:45-46 | for three edges, the output is the three subdivisions in order |
| KochSubdivide.SubdivideEachChains | src/fractals/kochSnowflake.ts:45-46 | subdividing every edge of a chain gives a chain between the same end points |
| KochSubdivide.SubdivideEachZero | src/fractals/kochSnowflake.ts:22-25 | at depth 0 every edge is pushed unchanged |
| KochSubdivide.SubdivideEachBlock | src/fractals/kochSnowflake.ts:45-46 | edge i's subdivision is exactly the i-th block of `4^n` output segments |
| KochSnowflake.Edges | src/fractals/kochSnowflake.ts:9-19 | the sides A to B, B to C, C to A form a closed chain from A back to A |
| KochSnowflake.GenerateKochSegments | src/fractals/kochSnowflake.ts:7-48 | the loop over the edges returns each edge's subdivision, in edge order |
| KochSnowflake.Shape | src/fractals/kochSnowflake.ts:7-48 | the snowflake has `3 * 4^depth` segments forming a closed chain from A round to A that passes B and C where the sides' blocks meet; at depth 0 it is the triangle's three sides |
| KochSnowflake.Corners | src/fractals/kochSnowflake.ts:15-19 | B and C open the second and third sides' blocks of segments |
| KochSnowflake.Draw | src/fractals/kochSnowflake.ts:50-96 | the segments, a tight bounding box, the fit of that box, one shared path begun, and the first chunk drawn with a step of `max(1, floor(len / max(1, speed * 15)))` |
| KochCurve.Shape | src/fractals/kochCurve.ts:6-35 | the curve has `4^depth` segments chaining from (0, 0) to (1, 0); at depth 0 the single segment; above it the quarters start at (1/3, 0), at the peak and at (2/3, 0) |
| KochCurve.Ends | src/fractals/kochCurve.ts:32-34 | the curve is a non-empty chain starting at A and ending at B |
| KochCurve.PointEnds | src/fractals/kochCurve.ts:44-47 | the first pushed x is 0 and the last is 1, so the box has width 1 |
| KochCurve.Draw | src/fractals/kochCurve.ts:37-63 | the segments, a tight bounding box, its fit, and the first chunk drawn on its own path (`beginPath` ... `stroke` per tick) |
| KochDemo.Tag | src/components/KochDemo.tsx:9-10 | plain segments as the generator's base-case segments: same length, same ends, each at level 0 with `base: true` |
| KochDemo.Untag | src/components/KochDemo.tsx:5 | the ends of the yielded segments, in order, one per segment |
| KochDemo.TagAppend | src/components/KochDemo.tsx:27-30 | tagging distributes over concatenation, as `yield*` of the recursive generators does |
| KochDemo.KochLineIsSubdivision | src/components/KochDemo.tsx:8-31 | `kochLine(p1, p2, level)` yields exactly the Koch generators' subdivision of p1 to p2, every segment tagged as a level-0 base case |
| KochDemo.KochLineStep | src/components/KochDemo.tsx:14-30 | the recursive step: cut points, peak and the four delegated generators give the subdivision of the step |
| KochDemo.KochLineShape | src/components/KochDemo.tsx:8-31 | `kochLine` yields `4^level` segments chaining from p1 to p2, and every one has level 0 and `base: true` (the `level` field never shows a higher level) |
| KochDemo.PushAll | src/components/KochDemo.tsx:83-85 | the `for ... of` loop appends the generator's segments to `allSegments`, in order |
| KochDemo.Sides | src/components/KochDemo.tsx:74-78 | the sides left corner to top, top to right corner, right corner back to left form a closed chain |
| KochDemo.CollectSegments | src/components/KochDemo.tsx:81-91 | `allSegments` is the three sides' generators' output in order |
| KochDemo.AllSegmentsShape | src/components/KochDemo.tsx:81-91 | `allSegments` has `3 * 4^depth` segments, a closed chain from the left corner round to it, all level-0 base cases |
| KochDemo.AllIsTagged | src/components/KochDemo.tsx:81-91 | the three generators together yield the tagged subdivision of the three sides |
| KochDemo.TaggedShape | src/components/KochDemo.tsx:81-91 | tagging keeps the count and the chain of a closed chain of segments |
| KochDemo.Stats | src/components/KochDemo.tsx:121-126 | `levels` has a key exactly for each level that occurs, with that level's count, and `baseCount` counts the base segments |
| KochDemo.AllBaseCounts | src/components/KochDemo.tsx:121-132 | when every segment is a level-0 base case, all of them count as base and the only level with segments is 0 |
| KochDemo.DemoLogStep | src/components/KochDemo.tsx:146-172 | drawing one more segment extends the calls by exactly that segment's calls |
| KochDemo.OneStrokeEach | src/components/KochDemo.tsx:156-169 | each segment makes its own path and exactly one `stroke()` |
| KochDemo.DrawOneKeeps | src/components/KochDemo.tsx:146-172 | one loop iteration keeps the closure's state consistent: segments drawn in order, the base-case message set once, at the first base segment |
| KochDemo.KochDemoRender.constructor | src/components/KochDemo.tsx:135-139 | `isDrawing` set, nothing drawn, no message shown yet |
| KochDemo.KochDemoRender.DrawOne | src/components/KochDemo.tsx:147-171 | the loop body draws segment `drawnCount` and advances it by one |
| KochDemo.KochDemoRender.DrawTo | src/components/KochDemo.tsx:146-172 | the loop draws the segments up to `end` in order and nothing else |
| KochDemo.KochDemoRender.Tick | src/components/KochDemo.tsx:141-179 | one `drawChunk()`: `drawnCount` moves to `min(len, drawnCount + step)` (all when not animating), the log grows by those segments' calls, and `isDrawing` stays set exactly when another frame is requested |
| KochDemo.KochDemoRender.Finish | src/components/KochDemo.tsx:174-178 | the requested frames end with every segment drawn once in order, one stroke per segment, `isDrawing` cleared, and the base-case message set exactly once, at segment 0 |
| KochDemo.SideCorners | src/components/KochDemo.tsx:76-91 | the left corner opens the first side's block and the right corner the third's |
| KochDemo.PointCorners | src/components/KochDemo.tsx:94-99 | the pushed x values include 0 and 1, so the box has width 1 |
| KochDemo.TaggedEnds | src/components/KochDemo.tsx:94-99 | tagging and untagging keeps the segments, so the pushed points are their ends |
| KochDemo.BaseStats | src/components/KochDemo.tsx:121-132 | for the generator's segments, `baseSegments` is the total and `levels` is `{0: total}` |
| KochDemo.Prepare | src/components/KochDemo.tsx:73-132 | the segments, their statistics, a tight bounding box and the fit of the box into the 720-pixel canvas less 48 pixels of padding |
| KochDemo.Draw | src/components/KochDemo.tsx:50-182 | `draw` up to its direct `drawChunk()`: `3 * 4^depth` segments, statistics, fit, a step of `max(1, floor(len / max(1, speed * 20)))`, and the first chunk drawn |
| FractalDemo.Tally.constructor | src/components/FractalDemo.tsx:50 | a closure counter (`segmentCount`, `triangleCount`) starts at 0 |
| FractalDemo.LeafStrokesInOrder | src/components/FractalDemo.tsx:52-78 | the calls `kochCurve` makes are the demo subdivision's segments (peak turned by plus 60 degrees) each stroked on its own path, in order |
| FractalDemo.LeafStrokesStep | src/components/FractalDemo.tsx:62-77 | the recursive step: thirds, peak and four recursive calls give the calls of the step's subdivision |
| FractalDemo.KochCurve | src/components/FractalDemo.tsx:52-78 | `kochCurve` appends its leaves' strokes and adds `4^depth` to `segmentCount`, one per base case |
| FractalDemo.KochSides | src/components/FractalDemo.tsx:80-90 | the demo snowflake has three sides, corner 1 to 2, 2 to 3, 3 to 1 |
| FractalDemo.SidesCalls | src/components/FractalDemo.tsx:88-90 | the calls for three subdivided sides are the calls for each side in turn |
| FractalDemo.DrawKoch | src/components/FractalDemo.tsx:49-93 | `drawKoch` strokes each segment of the three subdivided sides once, in order, and returns `3 * 4^depth`, the number of segments stroked |
| FractalDemo.KochSidesInOrder | src/components/FractalDemo.tsx:88-90 | the three `kochCurve` calls in turn stroke the snowflake's segments in order |
| FractalDemo.StrokesCounted | src/components/FractalDemo.tsx:53-59 | one `stroke()` per segment drawn, so the count returned is the number of strokes |
| FractalDemo.SierpinskiCounted | src/components/FractalDemo.tsx:98-120 | `sierpinski` fills its leaves in order and adds `3^depth` to `triangleCount`, one per base case |
| FractalDemo.DrawSierpinski | src/components/FractalDemo.tsx:95-135 | `drawSierpinski` sets the fill colour, then fills each of the `3^depth` leaves of the outline's midpoint subdivision once, in order, and returns their number |
| FractalDemo.DemoPixelRange | src/components/FractalDemo.tsx:144-145 | pixels map to `cx` in [-2, 1) and `cy` in [-1.5, 1.5) |
| FractalDemo.PixelStyleRange | src/components/FractalDemo.tsx:159-160 | a pixel is `#000` exactly when its count reached `maxIter`; otherwise its hue lies in [0, 360) |
| FractalDemo.PixelIters | src/components/FractalDemo.tsx:147-157 | a pixel's count is at most `maxIter` |
| FractalDemo.DrawMandelbrot | src/components/FractalDemo.tsx:137-166 | every pixel is painted once, row by row, in its escape colour, and the count returned is the sum of the per-pixel iteration counts |
| FractalDemo.EscapeLoop | src/components/FractalDemo.tsx:147-157 | the `while` loop computes the escape count with the strict `x * x + y * y < 4` test |
| FractalDemo.RowItersBound | src/components/FractalDemo.tsx:143-163 | a row of n pixels costs at most `n * maxIter` iterations |
| FractalDemo.ImageItersBound | src/components/FractalDemo.tsx:142-165 | the returned count is at most `720 * 720 * maxIter` |
| FractalDemo.RowLayout | src/components/FractalDemo.tsx:143-162 | within a row, pixel `px` owns calls `2 * px` and `2 * px + 1`: its colour and its `fillRect` |
| FractalDemo.RowLength | src/components/FractalDemo.tsx:143-162 | a row of n pixels makes `2 * n` calls |
| FractalDemo.ImageLayout | src/components/FractalDemo.tsx:142-163 | pixel `(px, py)` owns the two calls at `2 * (py * 720 + px)`: every pixel is painted exactly once |
| FractalDemo.ImageLength | src/components/FractalDemo.tsx:142-163 | m rows make `2 * 720 * m` calls |
| FractalTree.BranchCount | src/fractals/fractalTree.ts:8-15 | `branch(x, y, len, dir, n)` pushes `2^(n+1) - 1` segments |
| FractalTree.PreOrder | src/fractals/fractalTree.ts:11-14 | pre-order: the branch is pushed first, then the whole `dir + angle` subtree, then the whole `dir - angle` subtree, both from the branch's tip with length `len * shrink` |
| FractalTree.Connected | src/fractals/fractalTree.ts:9-14 | every pushed segment but the first starts where an earlier one ends: the tree is connected |
| FractalTree.ConnectedJoin | src/fractals/fractalTree.ts:11-14 | a branch followed by two connected subtrees that start at its tip is connected |
| FractalTree.Lengths | src/fractals/fractalTree.ts:9-14 | every pushed segment is a branch of length `len * shrink^k` for a level k no deeper than n |
| FractalTree.GrownStep | src/fractals/fractalTree.ts:13-14 | a branch of a subtree one level down, started with `len * shrink`, is a branch of the tree one level deeper |
| FractalTree.Shape | src/fractals/fractalTree.ts:6-18 | `generateTree(depth)` has `2^(depth+1) - 1` segments, the trunk from the origin first; at depth 0 the trunk alone; above it the trunk's two children start at its tip, the `+angle` one right after the trunk and the `-angle` one after the whole `+angle` subtree |
| FractalTree.Children | src/fractals/fractalTree.ts:13-14 | the two subtrees' first segments sit at index 1 and `2^n` and start at the tip |
| FractalTree.PointsTall | src/fractals/fractalTree.ts:9-10 | the trunk's end lies above its start, so the box has height |
| FractalTree.Draw | src/fractals/fractalTree.ts:20-45 | the segments, a tight box, its fit, and the first chunk drawn on its own path (`beginPath` ... `stroke` per tick) |
| KochPath.Rot | src/fractals/koch.ts:10-13 | `rot` by an angle whose cosine is 1 and sine 0 leaves the vector unchanged |
| KochPath.RotKeepsLength | src/fractals/koch.ts:10-13 | with a cosine and sine on the unit circle, `rot` keeps a vector's squared length |
| KochPath.D2IsSquaredDistance | src/fractals/koch.ts:15-18 | `d2` is never negative, symmetric, and 0 for a point and itself |
| KochPath.ChooseApexFarther | src/fractals/koch.ts:70 | the chosen apex is one of the two candidates and never nearer the centre than the other; `s1` only when strictly farther, so a tie goes to `s2` |
| KochPath.PathLinesBase | src/fractals/koch.ts:54-57 | at depth 0 `kochSegment` makes the single call `lineTo(p2)` |
| KochPath.PathLinesSplit | src/fractals/koch.ts:72-75 | a step's calls are those of its four parts in turn, the same `center` passed to each |
| KochPath.LineToEnds | src/fractals/koch.ts:55 | continuing the path along segments makes one `lineTo` per segment, to its end |
| KochPath.PathWalksCurve | src/fractals/koch.ts:47-76 | `kochSegment` makes `4^depth` `lineTo` calls; the i-th reaches the end of the i-th segment of the Koch subdivision of p1 to p2 whose peaks lie away from `center`, and those segments chain from p1 to p2, so the last call targets p2 |
| KochPath.KochSegment | src/fractals/koch.ts:47-76 | the recursion appends exactly the subdivision's `lineTo` calls to the context |
| KochPath.StepPoints | src/fractals/koch.ts:59-70 | q and r are the exact thirds of p1 to p2, and s is the candidate chosen by the strict tie-break |
| KochPath.Size | src/fractals/koch.ts:25-27 | `size = max(usable, 0)` is never negative: 84% of the smaller dimension when that is non-negative, 0 otherwise |
| KochPath.CornersEquilateral | src/fractals/koch.ts:30-35 | with a square root of 3 that squares to 3, `pLeft`, `pRight`, `pTop` form an equilateral triangle of side `size` with a horizontal base and the apex above its middle |
| KochPath.HeightSquared | src/fractals/koch.ts:30 | `height = size * sqrt(3) / 2` squares to three quarters of `size^2` |
| KochPath.Equilateral | src/fractals/koch.ts:33-35 | a base of `size` centred under an apex `height` above it, with `height^2 = 3/4 size^2`, gives three sides of length `size` |
| KochPath.Render | src/fractals/koch.ts:20-45 | `render` appends `RenderCalls` of the CSS size, the backing store divided by `devicePixelRatio \|\| 1` |
| KochPath.RenderCallsAt | src/fractals/koch.ts:38-44 | the calls are `beginPath`, `moveTo(pLeft)`, the three sides' `lineTo` calls, `closePath`, `stroke` |
| KochPath.RenderTracesSnowflake | src/fractals/koch.ts:38-44 | the outline is one closed path: `beginPath`, `moveTo(pLeft)`, then `3 * 4^depth` `lineTo` calls, the i-th to the end of the i-th segment of the three subdivided sides, which chain from `pLeft` back to `pLeft`, then `closePath` and one `stroke` |
| KochPath.OutlineParts | src/fractals/koch.ts:38-44 | the three sides' calls, between the two-call head and tail, put the i-th `lineTo` at position `i + 2` |
| SierpinskiSubdivide.Children | src/fractals/sierpinskiTriangle.ts:19-24 | three children from the exact edge midpoints, in the fixed order (a, ab, ca), (ab, b, bc), (ca, bc, c); the middle triangle is not among them |
| SierpinskiSubdivide.Subdivide | src/fractals/sierpinskiTriangle.ts:14-25 | `subdivide(a, b, c, n)` reaches `3^n` leaf triangles |
| SierpinskiSubdivide.ChildArea | src/fractals/sierpinskiTriangle.ts:19-24 | each child has a quarter of its parent's area |
| SierpinskiSubdivide.SubdivideThirds | src/fractals/sierpinskiTriangle.ts:22-24 | for n >= 1 the leaves are three equal blocks, those of the three children in order |
| SierpinskiSubdivide.LeafArea | src/fractals/sierpinskiTriangle.ts:14-25 | every leaf at depth n has `1/4^n` of the base triangle's area |
| SierpinskiSubdivide.SumAreaAppend | src/fractals/sierpinskiTriangle.ts:22-24 | the total area of two lists of leaves appended is the sum of their totals |
| SierpinskiSubdivide.SumAllArea | src/fractals/sierpinskiTriangle.ts:14-25 | k leaves of area v have total area `k * v` |
| SierpinskiSubdivide.TotalArea | src/fractals/sierpinskiTriangle.ts:14-25 | the leaves together cover `(3/4)^n` of the base triangle's area |
| SierpinskiSubdivide.SumOfLeaves | src/fractals/sierpinskiTriangle.ts:14-25 | `3^n` leaves, each with `1/4^n` of an area, total `(3/4)^n` of it |
| SierpinskiSubdivide.FirstCorner | src/fractals/sierpinskiTriangle.ts:22 | corner a survives as the first corner of the first leaf at every depth |
| SierpinskiSubdivide.SecondCorner | src/fractals/sierpinskiTriangle.ts:23 | corner b survives as the second corner of a leaf at every depth |
| SierpinskiSubdivide.LastCorner | src/fractals/sierpinskiTriangle.ts:24 | corner c survives as the third corner of the last leaf at every depth |
| SierpinskiTriangle.Shape | src/fractals/sierpinskiTriangle.ts:6-28 | `generateTriangles(depth)` has `3^depth` leaves; depth 0 gives the base triangle (A, B, C) alone; above it the leaves are the three children's blocks in order |
| SierpinskiTriangle.LeafAreas | src/fractals/sierpinskiTriangle.ts:14-26 | each leaf has `1/4^depth` of the base triangle's area |
| SierpinskiTriangle.LeavesArea | src/fractals/sierpinskiTriangle.ts:14-26 | the leaves together have `(3/4)^depth` of the base triangle's area |
| SierpinskiTriangle.CornerA | src/fractals/sierpinskiTriangle.ts:22-26 | A is a corner of the first leaf at every depth |
| SierpinskiTriangle.CornerBSurvives | src/fractals/sierpinskiTriangle.ts:22-26 | B is a corner of a leaf at every depth |
| SierpinskiTriangle.CornerC | src/fractals/sierpinskiTriangle.ts:22-26 | C is a corner of the last leaf at every depth |
| SierpinskiTriangle.PointCorners | src/fractals/sierpinskiTriangle.ts:38-39 | the pushed points include x = 0 and x = 1, so the box is never flat horizontally |
| SierpinskiTriangle.OnePathEach | src/fractals/sierpinskiTriangle.ts:45-53 | each tick opens, closes and strokes exactly one path per triangle it draws |
| SierpinskiTriangle.CallCounts | src/fractals/sierpinskiTriangle.ts:47-52 | one triangle makes one `beginPath`, one `closePath` and one `stroke()` |
| SierpinskiTriangle.BoxAndFitLeaves | src/fractals/sierpinskiTriangle.ts:37-40 | the leaves' corners give a tight box and `fitAndScale` of it succeeds |
| SierpinskiTriangle.Draw | src/fractals/sierpinskiTriangle.ts:30-57 | the leaves, a tight box, its fit, and the first chunk drawn, each triangle as its own closed, stroked path |
| SierpinskiFill.FillLogAppends | src/fractals/sierpinski.ts:21-56 | the recursion appends exactly its leaves' fill calls to the log |
| SierpinskiFill.LeafFillsInOrder | src/fractals/sierpinski.ts:38-54 | those calls are the subdivision's leaves filled in order, children (p1, mid1, mid3), (mid1, p2, mid2), (mid3, mid2, p3) |
| SierpinskiFill.FillLogIsLeaves | src/fractals/sierpinski.ts:21-56 | `sierpinski` fills exactly the leaves of the subdivision, in order, and touches the context nowhere else |
| SierpinskiFill.Sierpinski | src/fractals/sierpinski.ts:21-56 | only base cases touch the context: the recursion's log is the leaves' fills |
| SierpinskiFill.FillLogLeaf | src/fractals/sierpinski.ts:28-35 | at depth 0 the single triangle (p1, p2, p3) is filled |
| SierpinskiFill.FillCount | src/fractals/sierpinski.ts:28-35 | exactly `3^depth` `fill()` calls are made |
| SierpinskiFill.OneFill | src/fractals/sierpinski.ts:29-35 | a base case makes one `fill()` |
| SierpinskiFill.OutlineShape | src/fractals/sierpinski.ts:8-19 | `render`'s triangle has its centroid at the canvas centre and a horizontal base 650 wide |
| SierpinskiFill.Render | src/fractals/sierpinski.ts:8-19 | `render` fills the `3^depth` leaves of the outline's subdivision, in order |
| SierpinskiFill.FilledAreas | src/fractals/sierpinski.ts:38-54 | each filled triangle has `1/4^depth` of the outline's area |
| Pythagoras.IsSquare | src/fractals/pythagoras.ts:37-53 | `perp = (-dy, dx)` makes p1, p2, p3, p4 a square: the sides at p1 and p2 are the same vector, orthogonal to the base, and all sides are as long as the base |
| Pythagoras.HalfSide | src/fractals/pythagoras.ts:61-78 | `leftTop - p4 == rightTop - p3`: both children's bases leave the top by the same offset, of length `length * 0.5` when cosine and sine lie on the unit circle and `sqrt` is exact |
| Pythagoras.OnCircle | src/fractals/pythagoras.ts:70-78 | an offset `height * (cos, sin)` with cosine and sine on the unit circle has length `height` |
| Pythagoras.SquareCounts | src/fractals/pythagoras.ts:33-58 | one square makes one `beginPath` and one `stroke()` |
| Pythagoras.TreeCount | src/fractals/pythagoras.ts:29-83 | `drawSquare` at depth n strokes `2^n - 1` squares, each on its own path; depth 0 draws nothing |
| Pythagoras.TreeLength | src/fractals/pythagoras.ts:29-83 | every square takes seven calls, so depth n makes `7 * (2^n - 1)` calls |
| Pythagoras.Children | src/fractals/pythagoras.ts:33-82 | the closed path p1, p2, p3, p4 comes first, then the whole left subtree on the base from p4 to `leftTop`, then the whole right subtree on the base from `rightTop` to p3 |
| Pythagoras.Corners | src/fractals/pythagoras.ts:37-78 | the corners the method computes are the placing rule's: p3, p4 from the perpendicular, `leftTop`, `rightTop` from the shared offset |
| Pythagoras.DrawSquare | src/fractals/pythagoras.ts:29-83 | the recursion appends exactly the tree's calls for its base and depth |
| Pythagoras.BaseLevel | src/fractals/pythagoras.ts:15-23 | the first base is level, centred on the canvas, runs left to right, is `max(0.22 * min(w, h), 10)` long, and sits a 6% margin above the bottom edge |
| Pythagoras.Render | src/fractals/pythagoras.ts:8-27 | `render` draws the tree on the first base; depth 0 draws nothing |
| Escape.Orbit | src/fractals/mandelbrot.ts:26-31 | the count reached from step `iter` never goes below it nor above `maxIter`; each step is `Re = x^2 - y^2 + cx`, `Im = 2xy + cy`, both from the old z |
| Escape.EscapeCount | src/fractals/mandelbrot.ts:22-31 | every pixel's count satisfies `0 <= iter <= maxIter` |
| Escape.StopsOnlyOutside | src/fractals/mandelbrot.ts:26 | an orbit stops short of the budget only where the bail-out test fails |
| Escape.OriginStays | src/fractals/mandelbrot.ts:26-31 | from z = 0 with c = 0 the orbit stays at 0 and uses the whole budget |
| Escape.OriginNeverEscapes | src/fractals/mandelbrot.ts:22-31 | c = 0 never escapes: its count is `maxIter`, under either test |
| Escape.FarEscapesAtOnce | src/fractals/mandelbrot.ts:26-31 | a c with `\|c\|^2 > 4` and `maxIter >= 1` stops after exactly one step, under either test |
| Escape.BoundaryDiffers | src/fractals/mandelbrot.ts:26 | the inclusive `<= 4` test keeps iterating on the circle `\|z\| = 2` while the demo's strict `< 4` stops: at c = -2 with a budget of 3 the counts are 3 and 1 |
| Mandelbrot.PixelRange | src/fractals/mandelbrot.ts:10-19 | pixels map to `x0` in [-2.5, 1.5) and `y0` in [-2, 2) |
| Mandelbrot.IntensityRange | src/fractals/mandelbrot.ts:35 | the grey level lies in [0, 255] and is 255 exactly for the pixels that use the whole budget |
| Mandelbrot.IndexInBounds | src/fractals/mandelbrot.ts:34-40 | every write index `(py * 720 + px) * 4 + k` lies below `720 * 720 * 4` |
| Mandelbrot.PixelsDisjoint | src/fractals/mandelbrot.ts:34-40 | distinct pixels write disjoint bytes |
| Mandelbrot.IndexCovers | src/fractals/mandelbrot.ts:34-40 | every byte of the buffer is channel `i % 4` of exactly one pixel |
| Mandelbrot.Iterate | src/fractals/mandelbrot.ts:22-31 | the `while` loop computes the escape count with the inclusive `x * x + y * y <= 4` test |
| Mandelbrot.DrawPixel | src/fractals/mandelbrot.ts:18-40 | one inner-loop pass writes the pixel's grey level to R, G, B and 255 to A, and no other byte |
| Mandelbrot.DoneKept | src/fractals/mandelbrot.ts:34-40 | writing one pixel leaves every other finished pixel as it was |
| Mandelbrot.Render | src/fractals/mandelbrot.ts:3-45 | after the two loops every pixel holds its grey level in R, G, B and 255 in A |
| Noise.EntryRange | src/fractals/noise2d.ts:10 | `p[i] = x & 255` is a byte |
| Noise.TableShape | src/fractals/noise2d.ts:12-13 | `perm` has 512 entries, each a byte, with `perm[i] == perm[i mod 256]` |
| Noise.TableSeed | src/fractals/noise2d.ts:7-11 | the table is a function of `seed >>> 0`: seeds equal modulo `2^32` give the same table |
| Noise.SameWordSameStates | src/fractals/noise2d.ts:7-9 | two seeds with the same 32-bit word give the same xorshift states at every step |
| Noise.SameStates | src/fractals/noise2d.ts:8-9 | the same, step by step |
| Noise.Ends | src/fractals/noise2d.ts:15-16 | `fade(0) = 0`, `fade(1) = 1`, `lerp(a, b, 0) = a`, `lerp(a, b, 1) = b` |
| Noise.GradDirections | src/fractals/noise2d.ts:17-22 | `grad(h, x, y)` is `x + y`, `-x + y`, `x - y` or `-x - y`, selected by bits 0 and 1 of h |
| Noise.CellAndFrac | src/fractals/noise2d.ts:24-27 | `X` and `Y` are bytes, `xf` and `yf` lie in [0, 1), and are 0 at integer coordinates |
| Noise.Bytes | src/fractals/noise2d.ts:6-11 | the first loop fills `p[i]` with the low byte of the state after `i + 1` xorshift 13/17/5 steps from `seed >>> 0` |
| Noise.Repeat | src/fractals/noise2d.ts:12-13 | the second loop fills 512 entries with `p[i & 255]` |
| Noise.Noise2D.constructor | src/fractals/noise2d.ts:4-14 | the new object's `perm` is exactly the seed's table, 512 bytes |
| Noise.Noise2D.LookupsInBounds | src/fractals/noise2d.ts:24-35 | all four nested lookups `p[p[X] + Y]` ... `p[p[X + 1] + Y + 1]` index inside 0..511 |
| Noise.Noise2D.LatticeHalf | src/fractals/noise2d.ts:26-40 | at integer coordinates `noise` returns exactly 0.5 |
| FbmMinecraft.Hash | src/fractals/fbmMinecraft.ts:4-8 | `hash` is a fraction: its value lies in [0, 1) whatever the sine returns |
| FbmMinecraft.SmoothStep | src/fractals/fbmMinecraft.ts:16-18 | `smoothstep` fixes 0 and 1 and maps [0, 1] into [0, 1] |
| FbmMinecraft.Offset | src/fractals/fbmMinecraft.ts:22-25 | `x - Math.floor(x)` lies in [0, 1) and `x` minus it is the integer `Math.floor(x)` |
| FbmMinecraft.FloorOffset | src/fractals/fbmMinecraft.ts:22-25 | the cell offset lies in [0, 1) and removing it leaves the cell's floor unchanged |
| FbmMinecraft.NoiseLattice | src/fractals/fbmMinecraft.ts:21-46 | at every lattice point the noise is exactly 0, whatever the hash |
| FbmMinecraft.NoiseRange | src/fractals/fbmMinecraft.ts:21-46 | the noise stays in [-1, 1] everywhere |
| FbmMinecraft.DotBound | src/fractals/fbmMinecraft.ts:34-37 | a corner term with a hash in [0, 1) and offsets in [-1, 1] lies in [-1, 1] |
| FbmMinecraft.NoiseRanged | src/fractals/fbmMinecraft.ts:21-46 | the noise as a function of the sample position is bounded by 1 in absolute value |
| FbmMinecraft.Value | src/fractals/fbmMinecraft.ts:62-75 | the octave loop computes the sum of `noise(px * 0.02 * 2^i, py * 0.02 * 2^i) * 0.5^i` over the octaves |
| FbmMinecraft.HalvingWeight | src/fractals/fbmMinecraft.ts:63-73 | the amplitudes of `n` octaves sum to `2 - 2 * 0.5^n`, which is below 2 |
| FbmMinecraft.OctaveSumBound | src/fractals/fbmMinecraft.ts:62-75 | after `n` octaves the value lies within the total amplitude `2 - 2 * 0.5^n` of 0 |
| FbmMinecraft.TermBound | src/fractals/fbmMinecraft.ts:71 | one octave moves the value by at most its amplitude |
| FbmMinecraft.Gray | src/fractals/fbmMinecraft.ts:78-79 | the grey level lies in [0, 255] and equals `((value + 1) / 2) * 255` whenever that is in range |
| FbmMinecraft.SingleOctaveUnclamped | src/fractals/fbmMinecraft.ts:54-79 | with one octave the clamp never acts |
| FbmMinecraft.DoneKept | src/fractals/fbmMinecraft.ts:81-85 | writing one pixel's four channels leaves every other finished pixel as it was |
| FbmMinecraft.DrawPixel | src/fractals/fbmMinecraft.ts:62-85 | the pixel's R, G and B hold its grey level and A holds 255; nothing outside its four channels changes |
| FbmMinecraft.Render | src/fractals/fbmMinecraft.ts:48-90 | every pixel of the 720 by 720 image holds its grey level for `depth` octaves and an opaque alpha |
| Fbm.Hash | src/fractals/fbm.ts:4-7 | `noise2D` is a fraction in [0, 1) whatever the sine returns |
| Fbm.TermBound | src/fractals/fbm.ts:26 | one octave, `(noise2D * 2 - 1) * amp`, moves the value by at most its non-negative amplitude |
| Fbm.OctaveSumBound | src/fractals/fbm.ts:22-29 | with a non-negative persistence the raw sum of `n` octaves lies within the total weight `1 + p + ... + p^(n-1)` of 0 |
| Fbm.Octaves | src/fractals/fbm.ts:22-29 | the octave loop returns the pixel's raw value: octave `o` samples at frequency `lacunarity^o` with weight `persistence^o` |
| Fbm.SeqMinIsMinimum | src/fractals/fbm.ts:18-31 | the minimum is a lower bound of the samples that some sample attains |
| Fbm.SeqMaxIsMaximum | src/fractals/fbm.ts:18-32 | the maximum is an upper bound of the samples that some sample attains |
| Fbm.Range | src/fractals/fbm.ts:35 | `Math.max(1e-6, max - min)` is at least `1e-6`, so the division never divides by zero |
| Fbm.RunStep | src/fractals/fbm.ts:31-32 | `Math.min(min, val)` and `Math.max(max, val)` extend the running minimum and maximum by one sample |
| Fbm.Row | src/fractals/fbm.ts:21-33 | one row of the sampling loop writes the row's raw values at `y * w` on, leaves earlier entries alone and extends the running minimum and maximum |
| Fbm.SampleRows | src/fractals/fbm.ts:17-34 | the first pass writes every raw value at `y * w + x` and ends with the true minimum and maximum of the field (`Infinity`/`-Infinity` for an empty field) |
| Fbm.NormalizeInPlace | src/fractals/fbm.ts:36 | the second pass replaces every sample by `(sample - min) / range` |
| Fbm.Sample | src/fractals/fbm.ts:9-38 | `fbm` returns the min-max normalisation of the raw field, `w * h` entries row by row |
| Fbm.Field | src/fractals/fbm.ts:17-30 | the raw field has `w * h` entries |
| Fbm.Normalized | src/fractals/fbm.ts:36 | normalisation keeps the length of the field |
| Fbm.RangeCovers | src/fractals/fbm.ts:35 | the range is positive, covers the spread `max - min` and equals it when the spread is at least `1e-6` |
| Fbm.NormalizedUnit | src/fractals/fbm.ts:35-36 | every normalised value lies in [0, 1] |
| Fbm.NormalizedMonotone | src/fractals/fbm.ts:36 | normalisation keeps the order of any two samples, in both directions |
| Fbm.NormalizedMinZero | src/fractals/fbm.ts:36 | some sample (the smallest) becomes exactly 0 |
| Fbm.NormalizedMaxOne | src/fractals/fbm.ts:35-36 | when the samples spread by at least `1e-6`, some sample (the largest) becomes exactly 1 |
| Fbm.LerpBetween | src/fractals/fbm.ts:40 | `lerp` returns `a` at 0, `b` at 1 and stays between `a` and `b` in between |
| Fbm.SmoothStep | src/fractals/fbm.ts:41-44 | `smoothstep` returns a value in [0, 1] for every `x` |
| Fbm.SmoothStepClamps | src/fractals/fbm.ts:42-43 | for `a < b` the step is 0 at and below `a` and 1 at and above `b` |
| Fbm.SmoothStepMonotone | src/fractals/fbm.ts:41-44 | for `a < b` the step never decreases as `x` grows |
| Fbm.LerpRgbBetween | src/fractals/fbm.ts:45-47 | `lerpRGB` keeps each channel between the two colours' channels |
| Fbm.TerrainColorRange | src/fractals/fbm.ts:49-63 | every terrain colour has red in [30, 245], green in [60, 245] and blue in [40, 250] |
| Fbm.TerrainColorBands | src/fractals/fbm.ts:49-63 | heights at or below 0 are deep water `(30, 60, 150)`; 0.35, 0.6 and 0.8 open the grass, rock and snow bands on their first colours |
| Fbm.IdxInBounds | src/fractals/fbm.ts:70 | for a non-empty image every clamped `idx(x, y)` is a valid sample index |
| Fbm.IdxInside | src/fractals/fbm.ts:70 | inside the image `idx(x, y)` is the row-major index `y * w + x` |
| Fbm.OrOne | src/fractals/fbm.ts:66-83 | `v \|\| 1` is never 0, so the normalising divisions are defined |
| Fbm.Light | src/fractals/fbm.ts:75-86 | the light factor is at least 0.2 |
| Fbm.FlatLight | src/fractals/fbm.ts:80-86 | on flat ground the normal is straight up and the light factor is the light's vertical share, floored at 0.2 |
| Fbm.Shaded | src/fractals/fbm.ts:72-96 | the shaded image has four bytes for each of the `w * h` pixels |
| Fbm.ShadedBytes | src/fractals/fbm.ts:91-94 | every shaded byte lies in [0, 255] and every alpha byte is 255 |
| Fbm.ShadedAt | src/fractals/fbm.ts:74-93 | byte `k` of pixel `y * w + x` is the terrain colour's channel `k` scaled by the pixel's light and rounded |
| Fbm.ShadePixel | src/fractals/fbm.ts:74-94 | the loop body writes exactly pixel `i`'s four bytes, as the shaded image has them |
| Fbm.ShadeRow | src/fractals/fbm.ts:73-95 | one row of the shading loop writes that row's bytes and leaves earlier rows alone |
| Fbm.Shade | src/fractals/fbm.ts:68-96 | the shading loops produce the shaded image |
| Fbm.Contoured | src/fractals/fbm.ts:99-111 | the contour pass keeps the length of the image |
| Fbm.ContourPixel | src/fractals/fbm.ts:102-109 | pixel `i`'s colour bytes are raised by 18, capped at 255, when its height is within 0.015 of a multiple of 0.1; nothing else changes |
| Fbm.Contours | src/fractals/fbm.ts:99-111 | the contour loops over the interior pixels produce the contoured image |
| Fbm.ContouredBytes | src/fractals/fbm.ts:99-111 | the contour pass changes only colour bytes of interior pixels, never lowers a byte and never exceeds 255 |
| Fbm.ShadeHeightfield | src/fractals/fbm.ts:65-114 | `shadeHeightfield` returns the shaded image with its contours lifted |
| Fbm.TerrainBytes | src/fractals/fbm.ts:65-114 | every byte of the final terrain image lies in [0, 255] and every pixel is opaque |
| MinecraftMap.Clamp01 | src/fractals/minecraftMap.ts:8 | `clamp01` returns a value in [0, 1], `x` itself inside [0, 1], 0 below and 1 above |
| MinecraftMap.Mix | src/fractals/minecraftMap.ts:9-11 | `mix` returns `a` at 0 and `b` at 1 |
| MinecraftMap.MixWithin | src/fractals/minecraftMap.ts:9-11 | for `t` in [0, 1] every channel of the mix lies between the two colours' channels |
| MinecraftMap.WeightAtLeastOne | src/fractals/minecraftMap.ts:33-38 | with at least one octave and a non-negative persistence the total weight `sum` is at least 1, so `v /= sum` is defined |
| MinecraftMap.Layered | src/fractals/minecraftMap.ts:32-42 | the octave loop of `fbm` returns `(v / sum + 1) * 0.5`, with octave `i` at frequency `lac^i` and weight `pers^i` |
| MinecraftMap.LayerSumBound | src/fractals/minecraftMap.ts:34-39 | with noise in [0, 1] the weighted sum `v` stays between minus and plus the total weight |
| MinecraftMap.AverageUnit | src/fractals/minecraftMap.ts:32-42 | with noise in [0, 1] and at least one octave, `fbm` returns a value in [0, 1] |
| MinecraftMap.AverageOfConstant | src/fractals/minecraftMap.ts:32-42 | a constant noise `c` gives back `c`: `fbm` is a weighted average |
| MinecraftMap.ConstantSum | src/fractals/minecraftMap.ts:34-39 | a constant noise `c` makes the sum `(2c - 1)` times the total weight |
| MinecraftMap.WaterBands | src/fractals/minecraftMap.ts:52-54 | deep ocean exactly below 0.28, ocean exactly on [0.28, 0.35), beach exactly on [0.35, 0.38), whatever the climate |
| MinecraftMap.HighGround | src/fractals/minecraftMap.ts:57-62 | snow exactly above 0.80 when `temp < 0.35`, stone exactly above 0.80 otherwise, and on (0.65, 0.80] a grey between stone and mountain, darker as the height grows |
| MinecraftMap.LowLand | src/fractals/minecraftMap.ts:65-75 | on [0.38, 0.65] each of taiga, snowy taiga, forest, plains, desert and savanna is chosen exactly in its temperature and moisture band |
| MinecraftMap.RiverOnLand | src/fractals/minecraftMap.ts:90-93 | a river pixel is never deep ocean, ocean, snow or stone |
| MinecraftMap.RiverBlend | src/fractals/minecraftMap.ts:139-142 | a river pixel lies between the river colour and its biome colour; any other pixel is its biome colour |
| MinecraftMap.LightFactor | src/fractals/minecraftMap.ts:80-85 | the light factor of `shade` lies in [0.35, 1] |
| MinecraftMap.ShadeDarkens | src/fractals/minecraftMap.ts:78-87 | `shade` never brightens a channel and keeps at least 35% of it |
| MinecraftMap.FlatShade | src/fractals/minecraftMap.ts:80-85 | on flat ground the light factor is `0.4 * 0.9 + 0.1 = 0.46` |
| MinecraftMap.GridSize | src/fractals/minecraftMap.ts:104-106 | the block grid has at least 32 blocks a side, and a quarter of the CSS size when that is larger |
| MinecraftMap.ShadingNeighbours | src/fractals/minecraftMap.ts:154-160 | for the interior pixels of the shading loop the clamped `idx` of each neighbour is its own row-major index, inside the height field |
| Grid.Round | src/fractals/fbm.ts:91-93 | `Math.round` returns the integer within half a unit of its argument, halves rounded up |
| Grid.Byte | src/fractals/fbm.ts:68 | a `Uint8ClampedArray` store saturates to [0, 255] and keeps every byte as it is |
| MinecraftMap.HeightOctaves | src/fractals/minecraftMap.ts:132 | the height field gets `floor(octaves)` octaves, and at least one |
| MinecraftMap.ClimateOctavesRange | src/fractals/minecraftMap.ts:133-134 | temperature and moisture get at least one octave exactly when `octaves >= -4`, and at least three for a non-negative slider value |
| MinecraftMap.WholeOctaves | src/fractals/minecraftMap.ts:132-134 | a whole slider value `k` gives `max(1, k)` height octaves and `3 + k / 2` climate octaves |
| MinecraftMap.SamplesUnit | src/fractals/minecraftMap.ts:132-134 | with noise in [0, 1] the height, temperature and moisture of a block, each with its own offsets, scale, lacunarity and gain, lie in [0, 1] |
| MinecraftMap.Slope | src/fractals/minecraftMap.ts:161-162 | a normal component is positive exactly when the first neighbour is higher, and zero exactly on level ground |
| MinecraftMap.ClampedByte | src/fractals/minecraftMap.ts:146-148 | a store into the image saturates to [0, 255] and rounds to within half a unit |
| MinecraftMap.ClampedByteOfWhole | src/fractals/minecraftMap.ts:146-148 | on whole numbers the store is the byte saturation; a half rounds to even (2.5 is stored as 2, where `Math.round` gives 3) |
| MinecraftMap.StoredColor | src/fractals/minecraftMap.ts:146-148 | the stored colour of a block is made of bytes |
| MinecraftMap.StoredBytesStay | src/fractals/minecraftMap.ts:165-168 | storing a colour already read back as bytes changes nothing |
| MinecraftMap.ShadePassDarkens | src/fractals/minecraftMap.ts:155-170 | the shading pass never brightens a stored byte and keeps at least 35% of it, up to half a unit of rounding |
| MinecraftMap.StoreShadedDarkens | src/fractals/minecraftMap.ts:165-168 | `shade` on stored bytes, stored back, is no brighter and keeps at least 35% of each byte up to rounding, whatever the slopes |
| MinecraftMap.LevelShadePass | src/fractals/minecraftMap.ts:157-168 | where the height field is level around a block, the pass stores the colour dimmed to 46% |
| Search.Lower | src/lib/search.ts:15 | `toLowerCase` keeps the length of the string |
| Search.LowerIdempotent | src/lib/search.ts:15 | lower-casing twice is lower-casing once, and leaves no capital letter |
| Search.TrimStart | src/lib/search.ts:11 | leading white space is removed: the rest is a suffix that starts with a non-space, and everything cut was white space |
| Search.TrimEnd | src/lib/search.ts:11 | trailing white space is removed: the rest is a prefix that ends with a non-space, and everything cut was white space |
| Search.TrimEmpty | src/lib/search.ts:11-13 | `trim` yields the empty string exactly when the query is all white space |
| Search.NormalizedNonEmpty | src/lib/search.ts:11-15 | a query that is not blank normalises to a non-empty string |
| Search.LowerSpace | src/lib/search.ts:15 | lower-casing maps white space to white space and nothing else to it |
| Search.NormalizedIgnoresCase | src/lib/search.ts:11-15 | queries that differ only in letter case are blank together and normalise to the same string |
| Search.BlankIgnoresCase | src/lib/search.ts:11-15 | a query is blank exactly when its lower-cased form is |
| Search.IndexFrom | src/lib/search.ts:82 | the search from position `i` returns -1 or a position at or after `i` where the query fits inside the text |
| Search.IndexOf | src/lib/search.ts:82 | `indexOf` returns -1 or a position where the query fits inside the text |
| Search.IndexOfFirst | src/lib/search.ts:82-83 | `indexOf` returns -1 exactly when the query does not occur, and otherwise its leftmost occurrence |
| Search.HighlightMiss | src/lib/search.ts:81-83 | `highlight` returns the text unchanged exactly when the text does not contain the query, ignoring case |
| Search.HighlightHit | src/lib/search.ts:81-90 | otherwise the text is cut at the leftmost case-insensitive occurrence and the occurrence, in its original case, is wrapped in the `<mark>` tags; the three parts rejoin to the text |
| Search.MatchSteps | src/lib/search.ts:41-49 | the step loop yields one `step-i` match per step that contains the query, in order, and 2 points for each |
| Search.MatchPair | src/lib/search.ts:53-66 | one question/answer pair yields its question match before its answer match, with 3 points for a question and 1 for an answer |
| Search.MatchQa | src/lib/search.ts:52-67 | the pair loop yields the matches of every pair in order and 3 points per question and 1 per answer that contains the query |
| Search.QaStep | src/lib/search.ts:52-67 | one more pair appends its matches and adds its hits |
| Search.MatchTopic | src/lib/search.ts:19-67 | the field checks of one topic yield its matches in field order and the score 10 / 5 / 2 per step / 3 per question / 1 per answer |
| Search.StepMatchesSound | src/lib/search.ts:41-49 | every step match names a step that contains the query and carries its highlighted text |
| Search.StepMatchesCount | src/lib/search.ts:41-49 | there is one step match per step that contains the query |
| Search.QaMatchesSound | src/lib/search.ts:52-67 | every question or answer match names a field that contains the query and carries its highlighted text |
| Search.PairSound | src/lib/search.ts:53-66 | the same for a single pair |
| Search.QaMatchesCount | src/lib/search.ts:52-67 | there is one match per question and per answer that contains the query |
| Search.TopicMatchesSpec | src/lib/search.ts:19-69 | every match of a topic is genuine, there is one per matching field, and the score is positive exactly when there is a match |
| Search.TopicMatchesSound | src/lib/search.ts:19-67 | every match of a topic names a field that contains the query and carries that field's highlighted text |
| Search.InsertPermutes | src/lib/search.ts:78 | inserting an entry into the sorted prefix keeps every entry, and adds only the new one |
| Search.InsertSorted | src/lib/search.ts:78 | inserting into a sequence ordered by descending score keeps it ordered |
| Search.InsertStable | src/lib/search.ts:78 | the inserted entry goes after every entry of the same score |
| Search.SortByScoreSpec | src/lib/search.ts:78 | the sort orders by non-increasing score, is a permutation of its input, and keeps the input order among equal scores (`Array.prototype.sort` is stable) |
| Search.Entries | src/lib/search.ts:18-76 | the loop over the first `n` topics considers `n` entries |
| Search.EntriesAt | src/lib/search.ts:18-76 | the `i`-th entry considered is topic `i`'s |
| Search.KeptSnoc | src/lib/search.ts:69-75 | an entry is pushed after the earlier ones exactly when it has a match |
| Search.KeptMembers | src/lib/search.ts:69-75 | an entry is pushed exactly when it is among those considered and has a match |
| Search.CollectMembers | src/lib/search.ts:18-76 | a result is collected exactly when it is the entry of some topic and has a match |
| Search.CollectCount | src/lib/search.ts:18-76 | there is one collected result per topic with a match |
| Search.MatchedStep | src/lib/search.ts:18-76 | the matching positions among `n` topics are those among `n - 1` plus topic `n - 1` when it matches |
| Search.KeptEntriesCount | src/lib/search.ts:18-76 | the pushed entries of the first `n` topics are as many as the matching topics among them |
| Search.EntryOfSpec | src/lib/search.ts:70-74 | a topic's entry carries its id, its matches and its score |
| Search.SearchTopics | src/lib/search.ts:10-79 | a blank query gives no results; otherwise the results are the entries of the topics with a match for the normalised query, sorted stably by descending score |

## Left out

- User interface: the React components and pages, keyboard and theme handling, export timers, the `draw` dispatcher of `FractalDemo.tsx`, background fills and colour strings other than the iteration-limit black. They hold no logic beyond what the modelled functions compute.
- Canvas plumbing: `withHiDPICanvas`, `exportCanvasAsPng`, canvas resizing, `setTransform`, `createImageData`/`putImageData`/`drawImage`, `imageSmoothingEnabled` and the chunk-grid overlay of `minecraftMap.ts`. Drawing calls are entries in a log, and image buffers are arrays passed in by the caller. `devicePixelRatio` is a parameter.
- Floating point: `real` arithmetic is exact, and `Float32Array` precision is not modelled. `Math.cos`, `sin`, `atan2`, `sqrt`, `PI` and the sine behind the hashes of `fbm.ts` and `fbmMinecraft.ts` are arbitrary functions passed as parameters. `Math.hypot` is the square root of a sum of squares. So nothing says that the Koch peak points outward or that an angle is exactly 60 degrees.
- Timing: `requestAnimationFrame` is the caller invoking `Tick`. `performance.now` and the measurement helpers are not part of this model.
- Cancellation: the code never cancels a frame chain. A new render does not stop the ticks of an earlier one, and the model does not either.
- Canvas.FitAndScale: the code has no guard against a degenerate box, and neither has the model. A box flat in one direction still fits, because that ratio is `Infinity` and `Math.min` ignores it. The result is `None` exactly where the code would compute `NaN`. The function requires an ordered box and a non-negative target size; every caller passes a box from the bounding-box pass and a drawing area of CSS sizes.
- Recursion depth: every recursive generator takes a `nat` depth. The code stops only on `depth === 0` or `n === 0`, so a negative or fractional depth would recurse without end. That case is not modelled; the sliders supply non-negative integers.
- KochSnowflake.Draw: requires a drawing area of positive height. The box of the snowflake has width 1, but with abstract trigonometry it may be flat, and the code would then divide 0 by 0.
- KochCurve.Draw: requires a drawing area of positive height, for the same reason. At depth 0 the curve is one flat segment.
- SierpinskiTriangle.Draw: requires a drawing area of positive height, for the same reason.
- FractalTree.Draw: requires a drawing area of positive width and `sin(PI / 2) > 0`, which holds for `Math.sin`. The trunk is vertical, so only the box's height is known to be positive.
- Mandelbrot.Render: requires `maxIter >= 1`. The slider starts at 50. The buffer holds `real` channel values, without the rounding that `Uint8ClampedArray` applies.
- FbmMinecraft.Render: the buffer is passed in, 720 x 720 x 4 entries long, and holds `real` values without `Uint8ClampedArray` rounding.
- Noise.TableSeed: a seed is an integer. `seed >>> 0` applied to a fractional or non-finite number is not modelled.
- Noise.Noise2D.NoiseAt: only the value at lattice points and the table lookups are proved. The range of the noise is not. The inverse of the xorshift step is not proved, and the table is 256 pseudo-random bytes, not a permutation.
- MinecraftMap.TempSample, MinecraftMap.MoistSample: require `octaves >= -4`. Below that the climate fields get no octave and the code divides 0 by 0. The caller of `renderMinecraftMap` is not part of this model.
- MinecraftMap.AverageUnit: assumes the noise lies in [0, 1]. That range of `Noise2D.noise` is not proved.
- MinecraftMap: `domainWarp` (`minecraftMap.ts:45-49`) is left out, because its source text at line 46 is corrupted and does not compile. Line 53 is also corrupted and is read as `height < 0.35`. The river mask's octave count at line 135 is corrupted too, so `fbm`'s properties are stated for any octave count of at least 1.
- MinecraftMap: the nested loops of `renderMinecraftMap` that fill the height field and the image are not modelled as methods. Their per-pixel parts are modelled: the octave counts and the three `fbm` samples, `chooseBiome`, `isRiver`, the river blend, the clamped byte store, the slopes, `shade` on the stored bytes, the grid size and the interior-pixel `idx` clamps. The height field is a `Float32Array`; the model keeps its values as `real`.
- Fbm: `renderMinecraftFBM` (`fbm.ts:116-132`) is only canvas sizing around `fbm` followed by `shadeHeightfield`. Both of those are modelled.
- Search.Lower: `toLowerCase` maps only the ASCII letters A to Z. Unicode case mapping, which can change a string's length, is not modelled.
- Search.IsSpace: `trim` removes space, tab, line feed, vertical tab, form feed and carriage return. The other Unicode white space it removes is not modelled.
- Search: a topic is a record with id, title, summary, steps and question/answer pairs. The static topic content is not part of this model.
- Pythagoras: `midTop` and `halfLength` are computed in the source but never used, and are not modelled.
