/** `minecraftMap.ts`: a block map coloured by biome. Height, temperature
    and moisture are layered noise averaged into [0, 1]; `chooseBiome` turns
    them into a palette colour, thin rivers are blended in, and the land is
    shaded by the slope of the height field. Each `Noise2D` instance enters
    as a function of the sample position. */
module MinecraftMap {
  import opened Geometry
  import opened Grid
  import Fbm
  import FbmMinecraft

  type Rgb = Fbm.Rgb
  type Vec3 = Fbm.Vec3

  /** `clamp01`: the nearest point of [0, 1]. */
  function Clamp01(x: real): (r: real)
    ensures 0.0 <= r <= 1.0
    ensures 0.0 <= x <= 1.0 ==> r == x
    ensures x < 0.0 ==> r == 0.0
    ensures x > 1.0 ==> r == 1.0
  {
    MinR(1.0, MaxR(0.0, x))
  }

  /** `mix`: `lerp` channel by channel; it starts at `a` and ends at `b`. */
  function Mix(a: Rgb, b: Rgb, t: real): (c: Rgb)
    ensures t == 0.0 ==> c == a
    ensures t == 1.0 ==> c == b
  {
    Fbm.LerpRgb(a, b, t)
  }

  /** `c` lies channel by channel between `a` and `b`. */
  ghost predicate Within(c: Rgb, a: Rgb, b: Rgb)
  {
    MinR(a.r, b.r) <= c.r <= MaxR(a.r, b.r) &&
    MinR(a.g, b.g) <= c.g <= MaxR(a.g, b.g) &&
    MinR(a.b, b.b) <= c.b <= MaxR(a.b, b.b)
  }

  /** For `t` in [0, 1] a mix stays between its two colours. */
  lemma MixWithin(a: Rgb, b: Rgb, t: real)
    requires 0.0 <= t <= 1.0
    ensures Within(Mix(a, b, t), a, b)
  {
    Fbm.LerpRgbBetween(a, b, t);
  }

  /** `dot` of two triples. */
  function Dot(a: Vec3, b: Vec3): real
  {
    a.x * b.x + a.y * b.y + a.z * b.z
  }

  const DeepOcean: Rgb := Fbm.Rgb(12.0, 38.0, 112.0)
  const Ocean: Rgb := Fbm.Rgb(24.0, 78.0, 171.0)
  const Beach: Rgb := Fbm.Rgb(238.0, 214.0, 175.0)
  const River: Rgb := Fbm.Rgb(30.0, 110.0, 200.0)
  const Plains: Rgb := Fbm.Rgb(141.0, 179.0, 96.0)
  const Forest: Rgb := Fbm.Rgb(79.0, 120.0, 66.0)
  const Taiga: Rgb := Fbm.Rgb(97.0, 142.0, 97.0)
  const JungleSav: Rgb := Fbm.Rgb(98.0, 151.0, 64.0)
  const Desert: Rgb := Fbm.Rgb(210.0, 202.0, 140.0)
  const Mountain: Rgb := Fbm.Rgb(150.0, 150.0, 150.0)
  const Stone: Rgb := Fbm.Rgb(110.0, 110.0, 110.0)
  const Snow: Rgb := Fbm.Rgb(240.0, 240.0, 245.0)

  /** A noise whose every value lies in [0, 1], as `Noise2D.noise`'s
      `* 2 - 1` in `fbm` presumes. */
  ghost predicate Unit(noise: (real, real) -> real)
  {
    forall x, y :: 0.0 <= noise(x, y) <= 1.0
  }

  /** One layer of `fbm`: a noise sample at `f` times the scaled position,
      moved to [-1, 1] and weighted by `a`. */
  function Layer(noise: (real, real) -> real, x: real, y: real, scale: real, f: real, a: real): real
  {
    (noise(x * scale * f, y * scale * f) * 2.0 - 1.0) * a
  }

  /** The weighted sum `v` after `n` layers: layer `i` at frequency `lac^i`
      with weight `pers^i`. */
  function LayerSum(noise: (real, real) -> real, x: real, y: real, scale: real, lac: real, pers: real, n: nat): real
  {
    if n == 0 then 0.0
    else LayerSum(noise, x, y, scale, lac, pers, n - 1) + Layer(noise, x, y, scale, RPow(lac, n - 1), RPow(pers, n - 1))
  }

  /** The first weight is 1 and the others are not negative, so the total
      weight of at least one layer is at least 1. */
  lemma {:induction false} WeightAtLeastOne(pers: real, n: nat)
    requires n >= 1 && pers >= 0.0
    ensures Fbm.Weight(pers, n) >= 1.0
  {
    if n > 1 {
      WeightAtLeastOne(pers, n - 1);
      Fbm.PowNonNegative(pers, n - 1);
    }
  }

  /** What `fbm` returns: the weighted sum divided by the total weight,
      moved from [-1, 1] to [0, 1]. */
  function Average(noise: (real, real) -> real, x: real, y: real, oct: nat, scale: real, lac: real, pers: real): real
    requires oct >= 1 && pers >= 0.0
  {
    WeightAtLeastOne(pers, oct);
    (LayerSum(noise, x, y, scale, lac, pers, oct) / Fbm.Weight(pers, oct) + 1.0) * 0.5
  }

  /** `fbm`: the loop keeps `f = lac^i`, `a = pers^i`, the weighted sum `v`
      and the total weight `sum`, then divides. */
  method Layered(noise: (real, real) -> real, x: real, y: real, oct: nat, scale: real, lac: real, pers: real)
      returns (r: real)
    requires oct >= 1 && pers >= 0.0
    ensures r == Average(noise, x, y, oct, scale, lac, pers)
  {
    var f, a, v, sum := 1.0, 1.0, 0.0, 0.0;
    var i := 0;
    while i < oct
      invariant i <= oct
      invariant f == RPow(lac, i) && a == RPow(pers, i)
      invariant v == LayerSum(noise, x, y, scale, lac, pers, i) && sum == Fbm.Weight(pers, i)
    {
      v := v + Layer(noise, x, y, scale, f, a);
      sum := sum + a;
      a := a * pers;
      f := f * lac;
      i := i + 1;
    }
    WeightAtLeastOne(pers, oct);
    v := v / sum;
    r := (v + 1.0) * 0.5;
  }

  /** With noise in [0, 1] each layer moves the sum by at most its weight. */
  lemma {:induction false} LayerSumBound(noise: (real, real) -> real, x: real, y: real, scale: real, lac: real, pers: real, n: nat)
    requires Unit(noise) && pers >= 0.0
    ensures -Fbm.Weight(pers, n) <= LayerSum(noise, x, y, scale, lac, pers, n) <= Fbm.Weight(pers, n)
    decreases n
  {
    if n > 0 {
      LayerSumBound(noise, x, y, scale, lac, pers, n - 1);
      Fbm.PowNonNegative(pers, n - 1);
      LayerBound(noise, x, y, scale, RPow(lac, n - 1), RPow(pers, n - 1));
    }
  }

  lemma LayerBound(noise: (real, real) -> real, x: real, y: real, scale: real, f: real, a: real)
    requires Unit(noise) && a >= 0.0
    ensures -a <= Layer(noise, x, y, scale, f, a) <= a
  {
    FbmMinecraft.AmplitudeBound(noise(x * scale * f, y * scale * f) * 2.0 - 1.0, a);
  }

  /** With noise in [0, 1] the result of `fbm` is in [0, 1]: a weighted
      average of values in [-1, 1], moved to [0, 1]. */
  lemma AverageUnit(noise: (real, real) -> real, x: real, y: real, oct: nat, scale: real, lac: real, pers: real)
    requires Unit(noise) && oct >= 1 && pers >= 0.0
    ensures 0.0 <= Average(noise, x, y, oct, scale, lac, pers) <= 1.0
  {
    var s, w := LayerSum(noise, x, y, scale, lac, pers, oct), Fbm.Weight(pers, oct);
    LayerSumBound(noise, x, y, scale, lac, pers, oct);
    WeightAtLeastOne(pers, oct);
    QuotientUnit(s, w);
  }

  /** A sum bounded by a positive weight, divided by it, lies in [-1, 1]. */
  lemma QuotientUnit(s: real, w: real)
    requires w > 0.0 && -w <= s <= w
    ensures -1.0 <= s / w <= 1.0
  {
    var q := s / w;
    assert q * w == s;
    assert (1.0 - q) * w == w - s;
    assert (1.0 + q) * w == w + s;
    FactorSign(1.0 - q, w);
    FactorSign(1.0 + q, w);
  }

  lemma FactorSign(a: real, w: real)
    requires w > 0.0 && a * w >= 0.0
    ensures a >= 0.0
  {
  }

  /** A noise that is constant everywhere gives back that constant: `fbm`
      is an average, not a sum. */
  lemma AverageOfConstant(noise: (real, real) -> real, c: real, x: real, y: real, oct: nat, scale: real, lac: real, pers: real)
    requires forall u, v :: noise(u, v) == c
    requires oct >= 1 && pers >= 0.0
    ensures Average(noise, x, y, oct, scale, lac, pers) == c
  {
    var k, w := c * 2.0 - 1.0, Fbm.Weight(pers, oct);
    ConstantSum(noise, c, x, y, scale, lac, pers, oct);
    WeightAtLeastOne(pers, oct);
    assert (k * w) / w == k;
  }

  lemma {:induction false} ConstantSum(noise: (real, real) -> real, c: real, x: real, y: real, scale: real, lac: real, pers: real, n: nat)
    requires forall u, v :: noise(u, v) == c
    ensures LayerSum(noise, x, y, scale, lac, pers, n) == (c * 2.0 - 1.0) * Fbm.Weight(pers, n)
    decreases n
  {
    if n > 0 {
      ConstantSum(noise, c, x, y, scale, lac, pers, n - 1);
      var k, w, a := c * 2.0 - 1.0, Fbm.Weight(pers, n - 1), RPow(pers, n - 1);
      assert k * w + k * a == k * (w + a);
    }
  }

  /** `chooseBiome`: water and beach by height, high ground by height and
      temperature, low land by temperature and moisture. */
  function ChooseBiome(height: real, temp: real, moist: real): Rgb
  {
    if height < 0.28 then DeepOcean
    else if height < 0.35 then Ocean
    else if height < 0.38 then Beach
    else if height > 0.80 then (if temp < 0.35 then Snow else Stone)
    else if height > 0.65 then Mix(Mountain, Stone, Clamp01((height - 0.65) / 0.2))
    else if temp < 0.25 then (if moist > 0.55 then Taiga else Mix(Taiga, Snow, 0.25))
    else if temp < 0.55 then (if moist > 0.6 then Forest else Plains)
    else if moist < 0.35 then Desert
    else JungleSav
  }

  /** The water and beach colours come from the height alone, in three
      bands below 0.38. */
  lemma WaterBands(height: real, temp: real, moist: real)
    ensures ChooseBiome(height, temp, moist) == DeepOcean <==> height < 0.28
    ensures ChooseBiome(height, temp, moist) == Ocean <==> 0.28 <= height < 0.35
    ensures ChooseBiome(height, temp, moist) == Beach <==> 0.35 <= height < 0.38
  {
  }

  /** Above 0.80 the ground is snow when cold and stone otherwise; between
      0.65 and 0.80 it is a grey that darkens from mountain towards stone as
      the height rises, never reaching stone. */
  lemma HighGround(height: real, temp: real, moist: real)
    ensures ChooseBiome(height, temp, moist) == Snow <==> height > 0.80 && temp < 0.35
    ensures ChooseBiome(height, temp, moist) == Stone <==> height > 0.80 && temp >= 0.35
    ensures 0.65 < height <= 0.80 ==>
      var g := 150.0 - 200.0 * (height - 0.65);
      ChooseBiome(height, temp, moist) == Fbm.Rgb(g, g, g) && 120.0 <= g < 150.0
  {
    if 0.65 < height <= 0.80 {
      var t := (height - 0.65) / 0.2;
      assert Clamp01(t) == t;
    }
  }

  /** Between 0.38 and 0.65 the colour depends on temperature and moisture
      only; each palette colour marks exactly its region. */
  lemma LowLand(height: real, temp: real, moist: real)
    ensures ChooseBiome(height, temp, moist) == Taiga <==> 0.38 <= height <= 0.65 && temp < 0.25 && moist > 0.55
    ensures ChooseBiome(height, temp, moist) == Mix(Taiga, Snow, 0.25) <==> 0.38 <= height <= 0.65 && temp < 0.25 && moist <= 0.55
    ensures ChooseBiome(height, temp, moist) == Forest <==> 0.38 <= height <= 0.65 && 0.25 <= temp < 0.55 && moist > 0.6
    ensures ChooseBiome(height, temp, moist) == Plains <==> 0.38 <= height <= 0.65 && 0.25 <= temp < 0.55 && moist <= 0.6
    ensures ChooseBiome(height, temp, moist) == Desert <==> 0.38 <= height <= 0.65 && temp >= 0.55 && moist < 0.35
    ensures ChooseBiome(height, temp, moist) == JungleSav <==> 0.38 <= height <= 0.65 && temp >= 0.55 && moist >= 0.35
  {
    if 0.65 < height <= 0.80 {
      HighGround(height, temp, moist);
    }
  }

  /** `isRiver`: a narrow corridor of the river noise around 0.5, on
      ground between 0.35 and 0.75. */
  predicate IsRiver(rivNoise: real, height: real)
  {
    (if rivNoise - 0.5 < 0.0 then 0.5 - rivNoise else rivNoise - 0.5) < 0.02 && height > 0.35 && height < 0.75
  }

  /** Rivers never run through open water or the snow and stone peaks. */
  lemma RiverOnLand(rivNoise: real, height: real, temp: real, moist: real)
    requires IsRiver(rivNoise, height)
    ensures ChooseBiome(height, temp, moist) !in {DeepOcean, Ocean, Snow, Stone}
  {
    WaterBands(height, temp, moist);
    HighGround(height, temp, moist);
  }

  /** The colour written for a pixel before shading (lines 139-142 of the
      render loop): the biome, blended towards the river colour on a river. */
  function PixelColor(height: real, temp: real, moist: real, rivers: real): Rgb
  {
    var color := ChooseBiome(height, temp, moist);
    if IsRiver(rivers, height) then Mix(River, color, 0.35) else color
  }

  /** A river pixel lies between the river colour and its biome colour;
      every other pixel keeps its biome colour. */
  lemma RiverBlend(height: real, temp: real, moist: real, rivers: real)
    ensures IsRiver(rivers, height) ==> Within(PixelColor(height, temp, moist, rivers), River, ChooseBiome(height, temp, moist))
    ensures !IsRiver(rivers, height) ==> PixelColor(height, temp, moist, rivers) == ChooseBiome(height, temp, moist)
  {
    MixWithin(River, ChooseBiome(height, temp, moist), 0.35);
  }

  /** The light factor of `shade`: the cosine between the normal
      `(nx, ny, 1)` and the light direction `[-0.6, -0.7, 0.4]`, scaled by
      0.9 and lifted by 0.1, clamped to [0, 1] and floored at 0.35. */
  function LightFactor(sqrt: real -> real, nx: real, ny: real): (l: real)
    ensures 0.35 <= l <= 1.0
  {
    var lightDir := Fbm.Vec3(-0.6, -0.7, 0.4);
    var nlen := Fbm.OrOne(Fbm.Hypot(sqrt, Fbm.Vec3(nx, ny, 1.0)));
    var n := Fbm.Vec3(nx / nlen, ny / nlen, 1.0 / nlen);
    MaxR(0.35, Clamp01(Dot(n, lightDir) * 0.9 + 0.1))
  }

  /** `shade`: every channel scaled by the light factor. */
  function Shade(sqrt: real -> real, color: Rgb, height: real, nx: real, ny: real): Rgb
  {
    Scaled(color, LightFactor(sqrt, nx, ny))
  }

  function Scaled(c: Rgb, l: real): Rgb
  {
    Fbm.Rgb(c.r * l, c.g * l, c.b * l)
  }

  /** Shading never brightens a colour and keeps at least 35% of it. */
  lemma ShadeDarkens(sqrt: real -> real, color: Rgb, height: real, nx: real, ny: real)
    requires color.r >= 0.0 && color.g >= 0.0 && color.b >= 0.0
    ensures Darker(Shade(sqrt, color, height, nx, ny), color)
  {
    ScaledDarker(color, LightFactor(sqrt, nx, ny));
  }

  /** Every channel of `s` lies between 35% and 100% of that of `c`. */
  ghost predicate Darker(s: Rgb, c: Rgb)
  {
    Keeps(s.r, c.r) && Keeps(s.g, c.g) && Keeps(s.b, c.b)
  }

  /** The channel value `s` lies between 35% and 100% of `c`. */
  ghost predicate Keeps(s: real, c: real)
  {
    0.35 * c <= s <= c
  }

  lemma ScaledDarker(c: Rgb, l: real)
    requires c.r >= 0.0 && c.g >= 0.0 && c.b >= 0.0 && 0.35 <= l <= 1.0
    ensures Darker(Scaled(c, l), c)
  {
    Dim(c.r, l);
    Dim(c.g, l);
    Dim(c.b, l);
  }

  lemma Dim(c: real, l: real)
    requires c >= 0.0 && 0.35 <= l <= 1.0
    ensures Keeps(c * l, c)
  {
    Fbm.ScaleUnit(c, l);
    Fbm.MulNonNegative(c, l - 0.35);
    assert c * (l - 0.35) == c * l - 0.35 * c;
  }

  /** On flat ground the normal points straight up and the light factor is
      `0.4 * 0.9 + 0.1 = 0.46`. */
  lemma FlatShade(sqrt: real -> real)
    requires sqrt(1.0) == 1.0
    ensures LightFactor(sqrt, 0.0, 0.0) == 0.46
  {
    assert Fbm.Hypot(sqrt, Fbm.Vec3(0.0, 0.0, 1.0)) == 1.0;
  }

  /** The block grid: a quarter of the CSS size, but at least 32 blocks. */
  function GridSize(css: real): (n: int)
    ensures n >= 32
    ensures (css / 4.0).Floor >= 32 ==> n == (css / 4.0).Floor
  {
    MaxI(32, (css / 4.0).Floor)
  }

  /** In the shading loop the pixel is an interior one, so the clamps of
      `idx` never bite: the four neighbours are the plain row-major indices,
      all inside the height field. */
  lemma ShadingNeighbours(x: int, y: int, w: nat, h: nat)
    requires 1 <= x < w - 1 && 1 <= y < h - 1
    ensures Fbm.Idx(x - 1, y, w, h) == y * w + x - 1 && Fbm.Idx(x + 1, y, w, h) == y * w + x + 1
    ensures Fbm.Idx(x, y - 1, w, h) == (y - 1) * w + x && Fbm.Idx(x, y + 1, w, h) == (y + 1) * w + x
    ensures 0 <= (y - 1) * w + x && (y + 1) * w + x < w * h
  {
    RowMajor(x, y + 1, w, h);
    RowMajor(x, y - 1, w, h);
  }

  /** The octave count of the height field: `Math.max(1, Math.floor(octaves))`. */
  function HeightOctaves(octaves: real): (n: int)
    ensures n >= 1
    ensures octaves.Floor >= 1 ==> n == octaves.Floor
    ensures octaves < 1.0 ==> n == 1
  {
    MaxI(1, octaves.Floor)
  }

  /** The octave count of temperature and moisture:
      `3 + Math.floor(octaves / 2)`. */
  function ClimateOctaves(octaves: real): int
  {
    3 + (octaves / 2.0).Floor
  }

  /** The climate fields get at least one octave exactly when the slider
      value is at least -4; for a whole slider value `k >= 0` the count is
      `3 + k / 2`, so the slider's range gives three octaves or more. */
  lemma ClimateOctavesRange(octaves: real)
    ensures ClimateOctaves(octaves) >= 1 <==> octaves >= -4.0
    ensures octaves >= 0.0 ==> ClimateOctaves(octaves) >= 3
  {
    if octaves >= -4.0 {
      assert octaves / 2.0 >= -2.0;
    } else {
      assert octaves / 2.0 < -2.0;
    }
  }

  /** A whole, non-negative slider value `k` gives `max(1, k)` height octaves
      and `3 + k / 2` climate octaves. */
  lemma {:induction false} WholeOctaves(k: nat)
    ensures HeightOctaves(k as real) == MaxI(1, k)
    ensures ClimateOctaves(k as real) == 3 + k / 2
  {
    var q := k / 2;
    assert k == 2 * q + k % 2;
    assert q as real <= (k as real) / 2.0 < q as real + 1.0;
  }

  /** The height of the block at warped position `(wx, wy)`. */
  function HeightSample(nH: (real, real) -> real, wx: real, wy: real, octaves: real): real
  {
    Average(nH, wx, wy, HeightOctaves(octaves), 0.007, 2.0, 0.5)
  }

  /** The temperature of the block at warped position `(wx, wy)`. */
  function TempSample(nT: (real, real) -> real, wx: real, wy: real, octaves: real): real
    requires octaves >= -4.0
  {
    ClimateOctavesRange(octaves);
    Average(nT, wx + 1000.0, wy - 500.0, ClimateOctaves(octaves), 0.004, 2.2, 0.55)
  }

  /** The moisture of the block at warped position `(wx, wy)`. */
  function MoistSample(nM: (real, real) -> real, wx: real, wy: real, octaves: real): real
    requires octaves >= -4.0
  {
    ClimateOctavesRange(octaves);
    Average(nM, wx - 700.0, wy + 1300.0, ClimateOctaves(octaves), 0.004, 2.0, 0.6)
  }

  /** With noise in [0, 1], the three fields a block is coloured by all lie
      in [0, 1], the range `chooseBiome` is written for. */
  lemma SamplesUnit(nH: (real, real) -> real, nT: (real, real) -> real, nM: (real, real) -> real,
                    wx: real, wy: real, octaves: real)
    requires Unit(nH) && Unit(nT) && Unit(nM) && octaves >= -4.0
    ensures 0.0 <= HeightSample(nH, wx, wy, octaves) <= 1.0
    ensures 0.0 <= TempSample(nT, wx, wy, octaves) <= 1.0
    ensures 0.0 <= MoistSample(nM, wx, wy, octaves) <= 1.0
  {
    ClimateOctavesRange(octaves);
    AverageUnit(nH, wx, wy, HeightOctaves(octaves), 0.007, 2.0, 0.5);
    AverageUnit(nT, wx + 1000.0, wy - 500.0, ClimateOctaves(octaves), 0.004, 2.2, 0.55);
    AverageUnit(nM, wx - 700.0, wy + 1300.0, ClimateOctaves(octaves), 0.004, 2.0, 0.6);
  }

  /** A component of the shading normal: the height difference of two
      opposite neighbours, magnified ten times. It is positive exactly when
      the first neighbour is higher, and zero on level ground. */
  function Slope(hA: real, hB: real): (s: real)
    ensures s > 0.0 <==> hA > hB
    ensures s == 0.0 <==> hA == hB
  {
    (hA - hB) * 10.0
  }

  /** Storing a number into a `Uint8ClampedArray`: 0 below 0, 255 above
      255, otherwise the nearest integer with halves rounded to even. */
  function ClampedByte(v: real): (b: int)
    ensures 0 <= b <= 255
    ensures v <= 0.0 ==> b == 0
    ensures v >= 255.0 ==> b == 255
    ensures 0.0 <= v <= 255.0 ==> v - 0.5 <= b as real <= v + 0.5
  {
    if v <= 0.0 then 0
    else if v >= 255.0 then 255
    else
      var f := v.Floor;
      var d := v - f as real;
      if d < 0.5 then f
      else if d > 0.5 then f + 1
      else if f % 2 == 0 then f
      else f + 1
  }

  /** On whole numbers the clamped store is the saturation of `Byte`; on
      halves it rounds to even, unlike `Math.round`. */
  lemma ClampedByteOfWhole(k: int)
    ensures ClampedByte(k as real) == Byte(k)
    ensures ClampedByte(2.5) == 2 && Round(2.5) == 3
  {
    assert (2.5).Floor == 2;
  }

  /** A colour as the image stores it: each channel through the clamped
      byte store. */
  function StoredColor(c: Rgb): (s: Rgb)
    ensures IsByteColor(s)
  {
    Fbm.Rgb(ClampedByte(c.r) as real, ClampedByte(c.g) as real, ClampedByte(c.b) as real)
  }

  /** Every channel is a whole number in [0, 255], as read back from a
      `Uint8ClampedArray`. */
  predicate IsByteColor(c: Rgb)
  {
    IsByte(c.r) && IsByte(c.g) && IsByte(c.b)
  }

  predicate IsByte(v: real)
  {
    0.0 <= v <= 255.0 && v == v.Floor as real
  }

  /** Storing a colour that is already made of bytes changes nothing. */
  lemma StoredBytesStay(c: Rgb)
    requires IsByteColor(c)
    ensures StoredColor(c) == c
  {
    ClampedByteOfWhole(c.r.Floor);
    ClampedByteOfWhole(c.g.Floor);
    ClampedByteOfWhole(c.b.Floor);
  }

  /** One interior block of the shading pass: the stored colour is read
      back, shaded with the slopes of its four neighbours in the height
      field, and stored again. */
  function ShadePass(sqrt: real -> real, stored: Rgb, hf: seq<real>, w: nat, h: nat, x: int, y: int): Rgb
    requires 1 <= x < w - 1 && 1 <= y < h - 1 && |hf| == w * h
  {
    ShadingNeighbours(x, y, w, h);
    RowMajor(x, y, w, h);
    var nx := Slope(hf[Fbm.Idx(x - 1, y, w, h)], hf[Fbm.Idx(x + 1, y, w, h)]);
    var ny := Slope(hf[Fbm.Idx(x, y - 1, w, h)], hf[Fbm.Idx(x, y + 1, w, h)]);
    StoreShaded(sqrt, stored, hf[y * w + x], nx, ny)
  }

  /** `shade` applied to the stored bytes, its result stored again. */
  function StoreShaded(sqrt: real -> real, stored: Rgb, height: real, nx: real, ny: real): Rgb
  {
    StoredColor(Shade(sqrt, stored, height, nx, ny))
  }

  /** The shading pass never brightens a stored byte, and keeps at least
      35% of it up to the rounding of the store. */
  lemma ShadePassDarkens(sqrt: real -> real, stored: Rgb, hf: seq<real>, w: nat, h: nat, x: int, y: int)
    requires 1 <= x < w - 1 && 1 <= y < h - 1 && |hf| == w * h
    requires IsByteColor(stored)
    ensures var s := ShadePass(sqrt, stored, hf, w, h, x, y);
      && Dimmed(s.r, stored.r) && Dimmed(s.g, stored.g) && Dimmed(s.b, stored.b)
  {
    ShadingNeighbours(x, y, w, h);
    RowMajor(x, y, w, h);
    var nx := Slope(hf[Fbm.Idx(x - 1, y, w, h)], hf[Fbm.Idx(x + 1, y, w, h)]);
    var ny := Slope(hf[Fbm.Idx(x, y - 1, w, h)], hf[Fbm.Idx(x, y + 1, w, h)]);
    assert ShadePass(sqrt, stored, hf, w, h, x, y) == StoreShaded(sqrt, stored, hf[y * w + x], nx, ny);
    StoreShadedDarkens(sqrt, stored, hf[y * w + x], nx, ny);
  }

  lemma StoreShadedDarkens(sqrt: real -> real, stored: Rgb, height: real, nx: real, ny: real)
    requires IsByteColor(stored)
    ensures var s := StoreShaded(sqrt, stored, height, nx, ny);
      && Dimmed(s.r, stored.r) && Dimmed(s.g, stored.g) && Dimmed(s.b, stored.b)
  {
    StoreScaledDimmed(stored, LightFactor(sqrt, nx, ny));
  }

  lemma StoreScaledDimmed(c: Rgb, l: real)
    requires IsByteColor(c) && 0.35 <= l <= 1.0
    ensures var s := StoredColor(Scaled(c, l));
      && Dimmed(s.r, c.r) && Dimmed(s.g, c.g) && Dimmed(s.b, c.b)
  {
    var s := Scaled(c, l);
    ScaledDarker(c, l);
    StoreDimmed(c.r, s.r);
    StoreDimmed(c.g, s.g);
    StoreDimmed(c.b, s.b);
  }

  /** `s` is at most `c` and at least 35% of `c` less half a unit. */
  ghost predicate Dimmed(s: real, c: real)
  {
    0.35 * c - 0.5 <= s <= c
  }

  /** Storing a value between 35% and 100% of a byte gives a byte no
      larger. */
  lemma StoreDimmed(c: real, v: real)
    requires IsByte(c) && Keeps(v, c)
    ensures Dimmed(ClampedByte(v) as real, c)
  {
    var b := ClampedByte(v);
    assert b as real <= v + 0.5 <= c + 0.5;
    assert b <= c.Floor;
  }

  /** The height field is level across the block at `(x, y)`: its left
      and right neighbours agree, and so do the ones above and below. */
  ghost predicate LevelAround(hf: seq<real>, w: nat, h: nat, x: int, y: int)
    requires w >= 1 && h >= 1 && |hf| == w * h
  {
    Fbm.IdxInBounds(x - 1, y, w, h);
    Fbm.IdxInBounds(x + 1, y, w, h);
    Fbm.IdxInBounds(x, y - 1, w, h);
    Fbm.IdxInBounds(x, y + 1, w, h);
    hf[Fbm.Idx(x - 1, y, w, h)] == hf[Fbm.Idx(x + 1, y, w, h)] &&
    hf[Fbm.Idx(x, y - 1, w, h)] == hf[Fbm.Idx(x, y + 1, w, h)]
  }

  /** Where the height field is level around a block, the shading pass
      stores the colour dimmed to 46%. */
  lemma LevelShadePass(sqrt: real -> real, stored: Rgb, hf: seq<real>, w: nat, h: nat, x: int, y: int)
    requires 1 <= x < w - 1 && 1 <= y < h - 1 && |hf| == w * h
    requires sqrt(1.0) == 1.0 && LevelAround(hf, w, h, x, y)
    ensures ShadePass(sqrt, stored, hf, w, h, x, y) == StoredColor(Scaled(stored, 0.46))
  {
    ShadingNeighbours(x, y, w, h);
    RowMajor(x, y, w, h);
    assert ShadePass(sqrt, stored, hf, w, h, x, y) == StoreShaded(sqrt, stored, hf[y * w + x], 0.0, 0.0);
    FlatShade(sqrt);
    assert Shade(sqrt, stored, hf[y * w + x], 0.0, 0.0) == Scaled(stored, 0.46);
  }
}
