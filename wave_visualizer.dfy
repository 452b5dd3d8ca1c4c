/** The 32-bar visualizer of `audio_visualizer.h`.

    The component owns three parallel vectors: the LVGL bar objects, the
    displayed heights and the target heights. Each animation step writes a
    new target per bar (a travelling sine wave plus jitter) and then moves
    every displayed height 30% of the way toward its target, repositions the
    bar so that it grows upward from y = 220 and recolours it: tall bars
    (height above 100) are brightened, the others take their positional
    colour (blue, violet or pink by index).

    An LVGL bar object is modelled by the attributes the component sets on
    it (`Widget`); the sine term, `millis()` and `esp_random()` are inputs. */
module WaveVisualizer {
  import CInt

  const BarCount := 32
  const BarWidth := 10
  const BarGap := 2
  const LeftMargin := 20
  /** The y coordinate bars are placed at on creation and grow up from. */
  const BaseY := 220
  const MinHeight := 5
  const MaxHeight := 180
  const SmoothFactor: real := 0.3
  const BrightThreshold := 100

  datatype Color = Rgb(r: int, g: int, b: int)

  const Blue := Rgb(0x00, 0x88, 0xFF)
  const Violet := Rgb(0x88, 0x44, 0xFF)
  const Pink := Rgb(0xFF, 0x44, 0x88)

  /** An LVGL bar object, as far as the component configures it. */
  datatype Widget = Widget(x: int, y: int, width: int, height: int, color: Color)

  function Min(a: int, b: int): int { if a <= b then a else b }
  function Max(a: int, b: int): int { if a <= b then b else a }

  // ---------------------------------------------------------------------
  // Colour

  /** Positional colour of bar `i` among `n` bars. The source compares the
      index with the floating products `n * 0.7` and `n * 0.9`; here the
      comparison is exact. */
  function BucketColor(i: nat, n: nat): (c: Color)
    ensures c == Blue <==> 10 * i < 7 * n
    ensures c == Violet <==> 7 * n <= 10 * i < 9 * n
    ensures c == Pink <==> 9 * n <= 10 * i
  {
    if (i as real) < (n as real) * 0.7 then Blue
    else if (i as real) < (n as real) * 0.9 then Violet
    else Pink
  }

  /** Order of the three buckets along the bar row. */
  function BucketRank(c: Color): nat
  {
    if c == Blue then 0 else if c == Violet then 1 else 2
  }

  /** With 32 bars the buckets are the indices 0..22, 23..28 and 29..31. */
  lemma BucketsOf32(i: nat)
    requires i < BarCount
    ensures BucketColor(i, BarCount) == Blue <==> i <= 22
    ensures BucketColor(i, BarCount) == Violet <==> 23 <= i <= 28
    ensures BucketColor(i, BarCount) == Pink <==> 29 <= i
  {
  }

  /** The buckets partition the row into contiguous runs: moving right never
      moves back to an earlier bucket. */
  lemma BucketMonotone(i: nat, j: nat, n: nat)
    requires i <= j
    ensures BucketRank(BucketColor(i, n)) <= BucketRank(BucketColor(j, n))
  {
  }

  /** Brightness of a tall bar: twice its excess over 100, capped at 255. */
  function BrightIntensity(h: int): (v: int)
    requires h > BrightThreshold
    ensures 0 < v <= 255
    ensures v == 255 <==> h >= BrightThreshold + 128
    ensures v < 255 ==> v == 2 * (h - BrightThreshold)
  {
    var raw := (h - BrightThreshold) * 2;
    if raw > 255 then 255 else raw
  }

  /** Brighter bars are never dimmer. */
  lemma BrightIntensityMonotone(h: int, k: int)
    requires BrightThreshold < h <= k
    ensures BrightIntensity(h) <= BrightIntensity(k)
  {
  }

  /** The colour `update_bars` gives bar `i` of `n` at height `h`. */
  function BarColor(i: nat, n: nat, h: int): (c: Color)
    ensures h <= BrightThreshold <==> c == BucketColor(i, n)
    ensures h > BrightThreshold ==> c.r == c.g && 0 < c.r <= 255 && c.b == 255
    ensures h > BrightThreshold ==> c == Rgb(BrightIntensity(h), BrightIntensity(h), 255)
  {
    if h > BrightThreshold then
      var v := BrightIntensity(h);
      Rgb(v, v, 255)
    else
      BucketColor(i, n)
  }

  // ---------------------------------------------------------------------
  // Targets

  /** `base * 0.7 + (rnd % 100) / 100 * 0.3`, where `base` stands for the
      wave term `sin(...) * 0.5 + 0.5` and `rnd` for `esp_random()`. */
  function HeightFactor(base: real, rnd: nat): (f: real)
    ensures 0.0 <= base <= 1.0 ==> 0.0 <= f <= 0.997
  {
    base * 0.7 + ((rnd % 100) as real / 100.0) * 0.3
  }

  /** `MIN_HEIGHT + int(f * (MAX_HEIGHT - MIN_HEIGHT))`. */
  function TargetHeight(f: real): (t: int)
    ensures 0.0 <= f <= 1.0 ==> MinHeight <= t <= MaxHeight
    ensures 0.0 <= f < 1.0 ==> t < MaxHeight
  {
    MinHeight + CInt.ToInt(f * (MaxHeight - MinHeight) as real)
  }

  /** A larger height factor never gives a lower target. */
  lemma TargetHeightMonotone(f: real, g: real)
    requires 0.0 <= f <= g
    ensures TargetHeight(f) <= TargetHeight(g)
  {
  }

  /** Every target the generator can produce lies in [5, 179]. */
  lemma GeneratedTargetInRange(base: real, rnd: nat)
    requires 0.0 <= base <= 1.0
    ensures MinHeight <= TargetHeight(HeightFactor(base, rnd)) < MaxHeight
  {
  }

  // ---------------------------------------------------------------------
  // Smoothing

  /** One smoothing step, `int(h + (t - h) * 0.3)`: never overshoots. */
  function Smooth(h: int, t: int): (r: int)
    ensures Min(h, t) <= r <= Max(h, t)
  {
    CInt.ToInt(h as real + (t - h) as real * SmoothFactor)
  }

  /** On non-negative heights the step is the integer `(7h + 3t) / 10`. */
  lemma SmoothIntegerForm(h: int, t: int)
    requires 0 <= h && 0 <= t
    ensures Smooth(h, t) == (7 * h + 3 * t) / 10
  {
    var v := h as real + (t - h) as real * SmoothFactor;
    assert v == (7 * h + 3 * t) as real / 10.0;
    var q := (7 * h + 3 * t) / 10;
    assert 10 * q <= 7 * h + 3 * t < 10 * q + 10;
    assert q as real <= v < q as real + 1.0;
  }

  /** A step toward a lower target always moves; a step toward a target at
      most 3 higher never moves (truncation eats it); a larger upward gap
      always moves. */
  lemma SmoothStep(h: int, t: int)
    requires 0 <= h && 0 <= t
    ensures t < h ==> Smooth(h, t) < h
    ensures h <= t <= h + 3 ==> Smooth(h, t) == h
    ensures t >= h + 4 ==> Smooth(h, t) > h
  {
    SmoothIntegerForm(h, t);
  }

  /** `k` smoothing steps toward a fixed target; they stay between the
      start and the target. */
  function Iterate(h: int, t: int, k: nat): (r: int)
    ensures Min(h, t) <= r <= Max(h, t)
    decreases k
  {
    if k == 0 then h else Iterate(Smooth(h, t), t, k - 1)
  }

  /** Falling toward a target: after `h - t` steps the bar sits on it. */
  lemma {:induction false} IterateReachesLowerTarget(h: int, t: int, k: nat)
    requires 0 <= t <= h && h - t <= k
    ensures Iterate(h, t, k) == t
    decreases k
  {
    if k > 0 {
      var h' := Smooth(h, t);
      SmoothStep(h, t);
      if h == t {
        SmoothIntegerForm(h, t);
      }
      IterateReachesLowerTarget(h', t, k - 1);
    }
  }

  /** Rising toward a target: after `t - h` steps the bar is within 3 of it
      and stays below or on it. */
  lemma {:induction false} IterateApproachesUpperTarget(h: int, t: int, k: nat)
    requires 0 <= h <= t && t - h <= k
    ensures t - 3 <= Iterate(h, t, k) <= t
    decreases k
  {
    if k > 0 {
      var h' := Smooth(h, t);
      SmoothStep(h, t);
      if t - h > 3 {
        IterateApproachesUpperTarget(h', t, k - 1);
      }
    }
  }

  /** From 0 toward 100 the heights go 30, 51, 65. */
  lemma RiseFromZero()
    ensures Iterate(0, 100, 1) == 30
    ensures Iterate(0, 100, 2) == 51
    ensures Iterate(0, 100, 3) == 65
  {
    SmoothIntegerForm(0, 100);
    SmoothIntegerForm(30, 100);
    SmoothIntegerForm(51, 100);
  }

  // ---------------------------------------------------------------------
  // Bar objects

  /** Bar `i` as `set_parent_screen` creates it: 10 wide, 1 high, at
      x = 20 + 12 i, y = 220, in its positional colour for 32 bars. */
  function InitialBar(i: nat): (w: Widget)
    ensures w.x == LeftMargin + i * (BarWidth + BarGap)
    ensures w.width == BarWidth && w.height == 1 && w.y == BaseY
    ensures w.color == BucketColor(i, BarCount)
  {
    Widget(LeftMargin + i * (BarWidth + BarGap), BaseY, BarWidth, 1, BucketColor(i, BarCount))
  }

  /** Bars created by one `set_parent_screen` never overlap: left to right,
      each after the previous one's right edge plus the 2-pixel gap, and
      adjacent bars exactly that far apart. */
  lemma InitialBarsApart(i: nat, j: nat)
    requires i < j
    ensures InitialBar(i).x + BarWidth + BarGap <= InitialBar(j).x
    ensures j == i + 1 ==> InitialBar(i).x + BarWidth + BarGap == InitialBar(j).x
  {
  }

  /** What `update_bars` does to bar object `i` of `n` at new height `h`:
      resize it, place its bottom edge at y = 220 and recolour it. */
  function Refreshed(w: Widget, i: nat, n: nat, h: int): (w': Widget)
    ensures w'.y + w'.height == BaseY
    ensures w'.x == w.x && w'.width == w.width
    ensures w'.height == h
    ensures w'.color == BarColor(i, n, h)
  {
    w.(height := h, y := BaseY - h, color := BarColor(i, n, h))
  }

  /** All heights and targets lie in [1, 179]. */
  ghost predicate AllBounded(s: seq<int>)
  {
    forall k :: 0 <= k < |s| ==> 1 <= s[k] < MaxHeight
  }

  /** Because heights never exceed 179, the 255 cap on the brightness is
      never reached: the brightness is exactly twice the excess over 100. */
  lemma BrightCapUnreached(h: int)
    requires BrightThreshold < h < MaxHeight
    ensures BrightIntensity(h) == 2 * (h - BrightThreshold) < 255
  {
  }

  /** The component (`class AudioVisualizer` of `audio_visualizer.h`). */
  class AudioVisualizer {
    var bars: seq<Widget>
    var heights: seq<int>
    var targetHeights: seq<int>

    /** The three vectors run in parallel. */
    ghost predicate Valid()
      reads this
    {
      |heights| == |bars| && |targetHeights| == |bars|
    }

    /** Every height and target is in [1, 179]. */
    ghost predicate Bounded()
      reads this
    {
      AllBounded(heights) && AllBounded(targetHeights)
    }

    constructor ()
      ensures Valid() && Bounded()
      ensures bars == [] && heights == [] && targetHeights == []
    {
      bars, heights, targetHeights := [], [], [];
    }

    /** `set_parent_screen`: appends 32 bars, each with height and target 1. */
    method SetParentScreen()
      requires Valid()
      modifies this
      ensures Valid()
      ensures bars == old(bars) + seq(BarCount, (k: int) requires 0 <= k => InitialBar(k))
      ensures heights == old(heights) + seq(BarCount, i => 1)
      ensures targetHeights == old(targetHeights) + seq(BarCount, i => 1)
      ensures old(Bounded()) ==> Bounded()
    {
      var i := 0;
      while i < BarCount
        invariant 0 <= i <= BarCount
        invariant bars == old(bars) + seq(i, (k: int) requires 0 <= k => InitialBar(k))
        invariant heights == old(heights) + seq(i, k => 1)
        invariant targetHeights == old(targetHeights) + seq(i, k => 1)
      {
        bars := bars + [InitialBar(i)];
        heights := heights + [1];
        targetHeights := targetHeights + [1];
        i := i + 1;
      }
    }

    /** `generate_random_heights`: a new target for every bar, from its wave
        value `bases[i]` (in [0, 1]) and random draw `rnds[i]`. */
    method GenerateRandomHeights(bases: seq<real>, rnds: seq<nat>)
      requires Valid()
      requires |bases| == |targetHeights| && |rnds| == |targetHeights|
      requires forall k :: 0 <= k < |bases| ==> 0.0 <= bases[k] <= 1.0
      modifies this
      ensures Valid()
      ensures bars == old(bars) && heights == old(heights)
      ensures targetHeights == seq(|bases|, k requires 0 <= k < |bases| => TargetHeight(HeightFactor(bases[k], rnds[k])))
      ensures forall k :: 0 <= k < |targetHeights| ==> MinHeight <= targetHeights[k] < MaxHeight
      ensures old(Bounded()) ==> Bounded()
    {
      var i := 0;
      while i < |targetHeights|
        invariant 0 <= i <= |targetHeights| == |bases|
        invariant bars == old(bars) && heights == old(heights)
        invariant forall k :: 0 <= k < i ==> targetHeights[k] == TargetHeight(HeightFactor(bases[k], rnds[k]))
        invariant forall k :: i <= k < |targetHeights| ==> targetHeights[k] == old(targetHeights)[k]
      {
        targetHeights := targetHeights[i := TargetHeight(HeightFactor(bases[i], rnds[i]))];
        i := i + 1;
      }
    }

    /** `update_bars`: smooths every height toward its target and refreshes
        the bar object; the targets are left as they are. */
    method UpdateBars()
      requires Valid()
      modifies this
      ensures Valid()
      ensures targetHeights == old(targetHeights)
      ensures |bars| == old(|bars|)
      ensures forall k :: 0 <= k < |heights| ==> heights[k] == Smooth(old(heights)[k], targetHeights[k])
      ensures forall k :: 0 <= k < |bars| ==> bars[k] == Refreshed(old(bars)[k], k, |bars|, heights[k])
      ensures old(Bounded()) ==> Bounded()
    {
      var n := |bars|;
      var i := 0;
      while i < n
        invariant 0 <= i <= n
        invariant |bars| == n && Valid()
        invariant targetHeights == old(targetHeights)
        invariant forall k :: 0 <= k < i ==> heights[k] == Smooth(old(heights)[k], targetHeights[k])
        invariant forall k :: i <= k < n ==> heights[k] == old(heights)[k]
        invariant forall k :: 0 <= k < i ==> bars[k] == Refreshed(old(bars)[k], k, n, heights[k])
        invariant forall k :: i <= k < n ==> bars[k] == old(bars)[k]
      {
        heights := heights[i := Smooth(heights[i], targetHeights[i])];
        bars := bars[i := Refreshed(bars[i], i, n, heights[i])];
        i := i + 1;
      }
    }

    /** `update_animation`: new targets, then one smoothing step. */
    method UpdateAnimation(bases: seq<real>, rnds: seq<nat>)
      requires Valid()
      requires |bases| == |targetHeights| && |rnds| == |targetHeights|
      requires forall k :: 0 <= k < |bases| ==> 0.0 <= bases[k] <= 1.0
      modifies this
      ensures Valid()
      ensures |bars| == old(|bars|) && |heights| == old(|heights|)
      ensures forall k :: 0 <= k < |targetHeights| ==> targetHeights[k] == TargetHeight(HeightFactor(bases[k], rnds[k]))
      ensures forall k :: 0 <= k < |heights| ==> heights[k] == Smooth(old(heights)[k], targetHeights[k])
      ensures forall k :: 0 <= k < |bars| ==> bars[k] == Refreshed(old(bars)[k], k, |bars|, heights[k])
      ensures old(Bounded()) ==> Bounded()
    {
      GenerateRandomHeights(bases, rnds);
      UpdateBars();
    }
  }
}
