/** The 64-bar visualizer of `audio_visualizer.cpp`.

    The component keeps 64 bar levels in a fixed array `data`. `setup` fills
    it with random levels in the upper half of the canvas; every poll
    (`update`, every 20 ms) moves each level by a random step of at most 5
    and clamps it to [height / 2, height]; `draw` emits one rectangle per
    bar, growing up from the bottom edge of the canvas and coloured by a
    three-segment gradient, and now and then a small white point just above
    a bar.

    `width` and `height` are the canvas size, `rand()` is a stream of input
    values, and a draw call is recorded as a `DrawCmd`. All `/` and `%` are
    C's (module `CInt`). */
module WalkVisualizer {
  import CInt

  const NumBars := 64
  const Spacing := 1
  const MaxStep := 5
  /** One bar in `SparkleOdds` (on average) gets a sparkle point. */
  const SparkleOdds := 15
  const PointSize := 2
  /** Index where the second and the third gradient segments start. */
  const Third := NumBars / 3

  /** `height / 2`, the lowest level a bar is clamped to. */
  function Half(height: int): int
  {
    CInt.Div(height, 2)
  }

  /** Every level lies in [height / 2, height]. */
  ghost predicate InRange(d: seq<int>, height: int)
  {
    forall k :: 0 <= k < |d| ==> Half(height) <= d[k] <= height
  }

  // ---------------------------------------------------------------------
  // setup

  /** `rand() % (height / 2) + height / 2`. */
  function InitialLevel(r: int, height: int): (v: int)
    requires Half(height) != 0
    ensures r >= 0 && height >= 2 ==> Half(height) <= v <= 2 * Half(height) - 1 < height
  {
    CInt.Mod(r, Half(height)) + Half(height)
  }

  /** The levels `setup` writes, from 64 draws of `rand()`. */
  function InitialData(rands: seq<int>, height: int): (d: seq<int>)
    requires Half(height) != 0
    ensures |d| == |rands|
    ensures forall k :: 0 <= k < |d| ==> d[k] == InitialLevel(rands[k], height)
  {
    seq(|rands|, k requires 0 <= k < |rands| => InitialLevel(rands[k], height))
  }

  /** A fresh table is in range, and strictly below the canvas height. */
  lemma InitialDataInRange(rands: seq<int>, height: int)
    requires height >= 2
    requires forall k :: 0 <= k < |rands| ==> rands[k] >= 0
    ensures InRange(InitialData(rands, height), height)
    ensures forall k :: 0 <= k < |rands| ==> InitialData(rands, height)[k] < height
  {
    forall k | 0 <= k < |rands|
      ensures Half(height) <= InitialData(rands, height)[k] < height
    {
      assert InitialData(rands, height)[k] == InitialLevel(rands[k], height);
    }
  }

  // ---------------------------------------------------------------------
  // update

  /** `rand() % 11 - 5`. */
  function Step(r: int): (c: int)
    ensures r >= 0 ==> -MaxStep <= c <= MaxStep
  {
    CInt.Mod(r, 2 * MaxStep + 1) - MaxStep
  }

  /** Every step in [-5, 5] is drawn by some non-negative `rand()` value. */
  lemma StepCoversRange(c: int)
    requires -MaxStep <= c <= MaxStep
    ensures Step(c + MaxStep) == c
  {
  }

  /** The two clamps of `update`, lower first. */
  function Clamp(v: int, height: int): (r: int)
    ensures height >= 0 ==> Half(height) <= r <= height
    ensures Half(height) <= v <= height ==> r == v
    ensures height < 0 ==> r == height
    ensures height >= 0 && v < Half(height) ==> r == Half(height)
    ensures v > height ==> r == height
  {
    var low := if v < Half(height) then Half(height) else v;
    if low > height then height else low
  }

  /** The table after one `update`: each level moves by its own step and is
      clamped; no level depends on another. */
  function Tick(d: seq<int>, height: int, rands: seq<int>): (d': seq<int>)
    requires |rands| == |d|
    ensures |d'| == |d|
    ensures forall k :: 0 <= k < |d| ==> d'[k] == Clamp(d[k] + Step(rands[k]), height)
  {
    seq(|d|, k requires 0 <= k < |d| => Clamp(d[k] + Step(rands[k]), height))
  }

  /** One `update` brings every level into range, whatever the table held
      and whatever steps were drawn. */
  lemma TickInRange(d: seq<int>, height: int, rands: seq<int>)
    requires |rands| == |d| && height >= 0
    ensures InRange(Tick(d, height, rands), height)
  {
  }

  /** One `update` moves an in-range level by at most the step it drew. */
  lemma TickMovesAtMostStep(d: seq<int>, height: int, rands: seq<int>, k: nat)
    requires |rands| == |d| && k < |d| && InRange(d, height)
    requires rands[k] >= 0
    ensures -MaxStep <= Tick(d, height, rands)[k] - d[k] <= MaxStep
  {
  }

  /** The table after a sequence of polls, one list of draws per poll. */
  function Run(d: seq<int>, height: int, polls: seq<seq<int>>): (r: seq<int>)
    requires forall p :: 0 <= p < |polls| ==> |polls[p]| == |d|
    ensures |r| == |d|
    decreases |polls|
  {
    if polls == [] then d else Run(Tick(d, height, polls[0]), height, polls[1..])
  }

  /** The range holds after any number of polls, from a table in range or
      after at least one poll. */
  lemma {:induction false} RunInRange(d: seq<int>, height: int, polls: seq<seq<int>>)
    requires height >= 0
    requires forall p :: 0 <= p < |polls| ==> |polls[p]| == |d|
    requires InRange(d, height) || |polls| > 0
    ensures |Run(d, height, polls)| == |d|
    ensures InRange(Run(d, height, polls), height)
    decreases |polls|
  {
    if polls != [] {
      TickInRange(d, height, polls[0]);
      RunInRange(Tick(d, height, polls[0]), height, polls[1..]);
    }
  }

  // ---------------------------------------------------------------------
  // draw

  /** An LVGL area: inclusive corner coordinates. */
  datatype Area = Area(x1: int, y1: int, x2: int, y2: int)

  datatype NamedColor = Blue | Purple | Red | White

  /** `lv_color_mix(c1, c2, ratio)`, kept as its arguments. LVGL defines
      the mix so that ratio 0 gives `c2` and ratio 255 gives `c1`. */
  datatype Shade = Mix(c1: NamedColor, c2: NamedColor, ratio: int)

  /** What `draw` hands to `lv_draw_rect`: a square-cornered bar, or a round
      white point. */
  datatype DrawCmd = Bar(area: Area, shade: Shade) | Point(spot: Area)

  /** The commands of a frame, and whether the frame stopped at a `% 0`
      (undefined in C) while placing a point. */
  datatype Frame = Frame(cmds: seq<DrawCmd>, fault: bool)

  /** `(width - num_bars + 1) / num_bars`: 0 on canvases narrower than
      127, negative only on a negative width. */
  function BarWidth(width: int): (bw: int)
    ensures width >= NumBars - 1 ==> bw == (width - NumBars + 1) / NumBars
    ensures 0 <= width < 2 * NumBars - 1 ==> bw == 0
    ensures bw < 0 <==> width < 0
  {
    CInt.Div(width - NumBars + 1, NumBars)
  }

  /** The rectangle of bar `i` at level `v`. */
  function BarArea(i: int, v: int, width: int, height: int): (a: Area)
    ensures a.x1 == i * (BarWidth(width) + Spacing)
    ensures a.x2 - a.x1 == BarWidth(width)
    ensures a.y2 == height && a.y2 - a.y1 == v
  {
    var x1 := i * (BarWidth(width) + Spacing);
    Area(x1, height - v, x1 + BarWidth(width), height)
  }

  /** Each bar starts one past the previous bar's right edge. */
  lemma BarsAdjacent(i: int, v: int, w: int, width: int, height: int)
    ensures BarArea(i + 1, w, width, height).x1 == BarArea(i, v, width, height).x2 + 1
  {
    var bw := BarWidth(width);
    assert (i + 1) * (bw + Spacing) == i * (bw + Spacing) + bw + Spacing;
  }

  /** The last bar ends at x2 = `64 * bw + 63`, at most `width` and more
      than `width - 64`. As LVGL areas include x2, that last column is one
      past the canvas (whose columns are 0..width-1) exactly when
      `width - 63` is a multiple of 64. */
  lemma BarsFitCanvas(v: int, width: int, height: int)
    requires width >= NumBars - 1
    ensures BarArea(NumBars - 1, v, width, height).x2 == NumBars * BarWidth(width) + NumBars - 1
    ensures width - NumBars < BarArea(NumBars - 1, v, width, height).x2 <= width
    ensures BarArea(NumBars - 1, v, width, height).x2 == width <==> (width - NumBars + 1) % NumBars == 0
  {
    var bw := BarWidth(width);
    assert bw == (width - NumBars + 1) / NumBars;
    assert NumBars * bw <= width - NumBars + 1 < NumBars * bw + NumBars;
  }

  /** A bar whose level is in range has its top in [0, height - height / 2]
      and its top above or on its bottom. */
  lemma BarTopInCanvas(i: int, v: int, width: int, height: int)
    requires height >= 0 && Half(height) <= v <= height
    ensures 0 <= BarArea(i, v, width, height).y1 <= height - Half(height)
    ensures BarArea(i, v, width, height).y1 <= BarArea(i, v, width, height).y2
  {
  }

  /** The gradient segment of bar `i`: 0 below 21, 1 below 42, 2 above. */
  function Segment(i: int): (s: nat)
    ensures s <= 2
    ensures s == 0 <==> i < Third
    ensures s == 2 <==> 2 * NumBars / 3 <= i
  {
    if i < Third then 0 else if i < 2 * NumBars / 3 then 1 else 2
  }

  /** The colour `draw` gives bar `i`. */
  function BarShade(i: int): (c: Shade)
    requires 0 <= i < NumBars
    ensures 0 <= c.ratio <= 255
    ensures c.ratio == 0 <==> i == 0 || i == 21 || i == 42
    ensures c.ratio == 255 <==> i == NumBars - 1
    ensures Segment(i) == 0 ==> c.c1 == Blue && c.c2 == Purple
    ensures Segment(i) == 1 ==> c.c1 == Purple && c.c2 == Red
    ensures Segment(i) == 2 ==> c.c1 == Red && c.c2 == White
  {
    var ratio := CInt.Div((i - Segment(i) * Third) * 255, Third);
    RatioBounds(i - Segment(i) * Third);
    if Segment(i) == 0 then Mix(Blue, Purple, ratio)
    else if Segment(i) == 1 then Mix(Purple, Red, ratio)
    else Mix(Red, White, ratio)
  }

  /** `(j * 255) / 21` for an offset `j` into a segment. */
  lemma RatioBounds(j: int)
    requires 0 <= j <= Third
    ensures 0 <= CInt.Div(j * 255, Third) <= 255
    ensures CInt.Div(j * 255, Third) == 0 <==> j == 0
    ensures CInt.Div(j * 255, Third) == 255 <==> j == Third
  {
    assert Third == 21;
    var q := (j * 255) / 21;
    assert CInt.Div(j * 255, Third) == q;
    assert 21 * q <= 255 * j < 21 * q + 21;
  }

  /** Within a segment the ratio never decreases from left to right. */
  lemma RatioMonotone(i: int, j: int)
    requires 0 <= i <= j < NumBars && Segment(i) == Segment(j)
    ensures BarShade(i).ratio <= BarShade(j).ratio
  {
    var a, b := i - Segment(i) * Third, j - Segment(j) * Third;
    assert CInt.Div(a * 255, Third) == (a * 255) / Third;
    assert CInt.Div(b * 255, Third) == (b * 255) / Third;
    assert a * 255 <= b * 255;
  }

  /** The point drawn above a bar: `x1 + rand() % bw`,
      `y1 - (rand() % (height / 10) + 3)`, 2 by 2. */
  function SparkleArea(bar: Area, rx: int, ry: int, bw: int, height: int): (p: Area)
    requires bw != 0 && CInt.Div(height, 10) != 0
    ensures p.x2 == p.x1 + PointSize && p.y2 == p.y1 + PointSize
    ensures rx >= 0 && bw > 0 ==> bar.x1 <= p.x1 < bar.x1 + bw
    ensures ry >= 0 && height >= 10 ==> bar.y1 - (height / 10 + 2) <= p.y1 <= bar.y1 - 3
    ensures ry >= 0 ==> p.y2 < bar.y1
  {
    var x1 := bar.x1 + CInt.Mod(rx, bw);
    var y1 := bar.y1 - (CInt.Mod(ry, CInt.Div(height, 10)) + 3);
    Area(x1, y1, x1 + PointSize, y1 + PointSize)
  }

  /** The rectangle command of bar `i` at level `v`, in its colour. */
  function BarCmd(i: int, v: int, width: int, height: int): DrawCmd
    requires 0 <= i < NumBars
  {
    Bar(BarArea(i, v, width, height), BarShade(i))
  }

  /** `rand() % 15 == 0`: this bar gets a point. */
  predicate SparkleDue(r: int)
  {
    CInt.Mod(r, SparkleOdds) == 0
  }

  /** One of the divisors of the point placement, the bar width or
      `height / 10`, is 0. */
  predicate ZeroDivisor(width: int, height: int)
  {
    BarWidth(width) == 0 || CInt.Div(height, 10) == 0
  }

  /** The point over the rectangle command `bar`, placed with the draws
      `rx` and `ry`. */
  function SparklePoint(bar: DrawCmd, rx: int, ry: int, width: int, height: int): DrawCmd
    requires bar.Bar? && !ZeroDivisor(width, height)
  {
    Point(SparkleArea(bar.area, rx, ry, BarWidth(width), height))
  }

  /** What `draw` emits for one bar, how many `rand()` draws it used, and
      whether it stopped at a `% 0`. */
  datatype Emission = Emission(cmds: seq<DrawCmd>, used: nat, fault: bool)

  /** Bar `i` at level `v`: the bar, then, when the first draw is a multiple
      of 15, a point placed with the next two draws. */
  function EmitBar(i: int, v: int, width: int, height: int, rng: seq<int>): (e: Emission)
    requires 0 <= i < NumBars && |rng| >= 3
    ensures 1 <= e.used <= 3
  {
    var bar := BarCmd(i, v, width, height);
    if !SparkleDue(rng[0]) then
      Emission([bar], 1, false)
    else if ZeroDivisor(width, height) then
      Emission([bar], 1, true)
    else
      Emission([bar, SparklePoint(bar, rng[1], rng[2], width, height)], 3, false)
  }

  /** What one bar emits: its rectangle, then a point exactly when the first
      draw is a multiple of 15 and neither divisor is 0, placed with the next
      two draws; it stops at a `% 0` exactly when a point is due and a
      divisor is 0. */
  lemma EmitBarShape(i: int, v: int, width: int, height: int, rng: seq<int>)
    requires 0 <= i < NumBars && |rng| >= 3
    ensures var e := EmitBar(i, v, width, height, rng);
      && (e.used == 1 || e.used == 3) && 1 <= |e.cmds| <= 2
      && e.cmds[0] == Bar(BarArea(i, v, width, height), BarShade(i))
      && (|e.cmds| == 2 <==> e.used == 3)
      && (|e.cmds| == 2 <==> CInt.Mod(rng[0], SparkleOdds) == 0 && !e.fault)
      && (e.fault <==> CInt.Mod(rng[0], SparkleOdds) == 0 && (BarWidth(width) == 0 || CInt.Div(height, 10) == 0))
      && (|e.cmds| == 2 ==>
            e.cmds[1] == Point(SparkleArea(e.cmds[0].area, rng[1], rng[2], BarWidth(width), height)))
  {
  }

  /** The first `n` bars of a frame as `draw` emits them from the `rand()`
      draws `rng`: the commands so far, the draws used so far, and whether
      the frame has stopped at a `% 0`. */
  function RenderFirst(d: seq<int>, width: int, height: int, rng: seq<int>, n: nat): (p: Emission)
    requires |d| == NumBars && n <= NumBars && |rng| >= 3 * n
    ensures p.used <= 3 * n
    decreases n
  {
    if n == 0 then Emission([], 0, false)
    else
      var p := RenderFirst(d, width, height, rng, n - 1);
      if p.fault then p
      else
        var e := EmitBar(n - 1, d[n - 1], width, height, rng[p.used..]);
        Emission(p.cmds + e.cmds, p.used + e.used, e.fault)
  }

  /** The frame `draw` produces: all 64 bars, or those up to the `% 0`.
      It faults only on a zero divisor; without a fault its bars are bars
      0..63 in order; with non-negative draws on a non-negative canvas every
      point sits over the bar before it. */
  function RenderFrame(d: seq<int>, width: int, height: int, rng: seq<int>): (f: Frame)
    requires |d| == NumBars && |rng| >= 3 * NumBars
    ensures f.fault ==> BarWidth(width) == 0 || CInt.Div(height, 10) == 0
    ensures !f.fault ==> BarsOf(f.cmds) == ExpectedBars(d, width, height, NumBars)
    ensures width >= 0 && height >= 0 && (forall k :: 0 <= k < |rng| ==> rng[k] >= 0) ==>
      PointsAboveBars(f.cmds, width, height)
  {
    var p := RenderFirst(d, width, height, rng, NumBars);
    assert BarWidth(width) != 0 && CInt.Div(height, 10) != 0 ==> !p.fault by {
      if BarWidth(width) != 0 && CInt.Div(height, 10) != 0 {
        RenderFaultOnlyOnZeroDivisor(d, width, height, rng, NumBars);
      }
    }
    assert !p.fault ==> BarsOf(p.cmds) == ExpectedBars(d, width, height, NumBars) by {
      if !p.fault {
        RenderDrawsEveryBar(d, width, height, rng, NumBars);
      }
    }
    assert width >= 0 && height >= 0 && (forall k :: 0 <= k < |rng| ==> rng[k] >= 0) ==>
      PointsAboveBars(p.cmds, width, height) by {
      if width >= 0 && height >= 0 && (forall k :: 0 <= k < |rng| ==> rng[k] >= 0) {
        RenderPointsAboveBars(d, width, height, rng, NumBars);
      }
    }
    Frame(p.cmds, p.fault)
  }

  /** One more bar of an unstopped frame, written out draw by draw as the
      loop of `draw` takes them. */
  lemma RenderNext(d: seq<int>, width: int, height: int, rng: seq<int>, n: nat)
    requires |d| == NumBars && n < NumBars && |rng| >= 3 * (n + 1)
    requires !RenderFirst(d, width, height, rng, n).fault
    ensures var p := RenderFirst(d, width, height, rng, n);
      var bar := BarCmd(n, d[n], width, height);
      RenderFirst(d, width, height, rng, n + 1)
        == if !SparkleDue(rng[p.used]) then Emission(p.cmds + [bar], p.used + 1, false)
           else if ZeroDivisor(width, height) then Emission(p.cmds + [bar], p.used + 1, true)
           else Emission(p.cmds + [bar] + [SparklePoint(bar, rng[p.used + 1], rng[p.used + 2], width, height)],
                         p.used + 3, false)
  {
    var p := RenderFirst(d, width, height, rng, n);
    var r := rng[p.used..];
    assert r[0] == rng[p.used] && r[1] == rng[p.used + 1] && r[2] == rng[p.used + 2];
    var bar := BarCmd(n, d[n], width, height);
    var e := EmitBar(n, d[n], width, height, r);
    if |e.cmds| == 2 {
      assert e.cmds == [bar] + [e.cmds[1]];
    }
  }

  /** Once the frame has stopped, later bars add nothing. */
  lemma {:induction false} FaultStops(d: seq<int>, width: int, height: int, rng: seq<int>, n: nat, m: nat)
    requires |d| == NumBars && n <= m <= NumBars && |rng| >= 3 * m
    requires RenderFirst(d, width, height, rng, n).fault
    ensures RenderFirst(d, width, height, rng, m) == RenderFirst(d, width, height, rng, n)
    decreases m
  {
    if m > n {
      FaultStops(d, width, height, rng, n, m - 1);
    }
  }

  /** The bars of a list of commands, in order. */
  function BarsOf(cmds: seq<DrawCmd>): seq<DrawCmd>
  {
    if cmds == [] then []
    else (if cmds[0].Bar? then [cmds[0]] else []) + BarsOf(cmds[1..])
  }

  lemma BarsOfAppend(a: seq<DrawCmd>, b: seq<DrawCmd>)
    ensures BarsOf(a + b) == BarsOf(a) + BarsOf(b)
  {
    if a != [] {
      var head := if a[0].Bar? then [a[0]] else [];
      assert (a + b)[0] == a[0];
      assert (a + b)[1..] == a[1..] + b;
      assert BarsOf(a + b) == head + BarsOf(a[1..] + b);
      assert BarsOf(a) == head + BarsOf(a[1..]);
      BarsOfAppend(a[1..], b);
    } else {
      assert a + b == b;
    }
  }

  /** The bars of one emission: exactly its bar. */
  lemma EmissionBars(e: Emission, bar: DrawCmd)
    requires 1 <= |e.cmds| <= 2 && e.cmds[0] == bar && bar.Bar?
    requires |e.cmds| == 2 ==> e.cmds[1].Point?
    ensures BarsOf(e.cmds) == [bar]
  {
    if |e.cmds| == 2 {
      assert e.cmds == [e.cmds[0]] + [e.cmds[1]];
      BarsOfAppend([e.cmds[0]], [e.cmds[1]]);
    } else {
      assert e.cmds == [e.cmds[0]];
    }
  }

  /** Bar `k` as `draw` should emit it: at its own level, in its own colour. */
  function ExpectedBar(d: seq<int>, width: int, height: int, k: int): DrawCmd
    requires |d| == NumBars && 0 <= k < NumBars
  {
    BarCmd(k, d[k], width, height)
  }

  /** Bars 0..n-1 as `draw` should emit them, in order. */
  function ExpectedBars(d: seq<int>, width: int, height: int, n: nat): (bars: seq<DrawCmd>)
    requires |d| == NumBars && n <= NumBars
    ensures |bars| == n && forall k :: 0 <= k < n ==> bars[k] == ExpectedBar(d, width, height, k)
  {
    seq(n, (k: int) requires 0 <= k < n => ExpectedBar(d, width, height, k))
  }

  lemma ExpectedBarsSnoc(d: seq<int>, width: int, height: int, n: nat)
    requires |d| == NumBars && 0 < n <= NumBars
    ensures ExpectedBars(d, width, height, n)
      == ExpectedBars(d, width, height, n - 1) + [ExpectedBar(d, width, height, n - 1)]
  {
  }

  /** The bars of the first `n` bars' commands of a frame that has not
      stopped are bars 0..n-1 in order, whatever points lie between them. */
  lemma {:induction false} RenderDrawsEveryBar(d: seq<int>, width: int, height: int, rng: seq<int>, n: nat)
    requires |d| == NumBars && n <= NumBars && |rng| >= 3 * n
    requires !RenderFirst(d, width, height, rng, n).fault
    ensures BarsOf(RenderFirst(d, width, height, rng, n).cmds) == ExpectedBars(d, width, height, n)
    decreases n
  {
    if n > 0 {
      var p := RenderFirst(d, width, height, rng, n - 1);
      assert !p.fault;
      RenderDrawsEveryBar(d, width, height, rng, n - 1);
      var e := EmitBar(n - 1, d[n - 1], width, height, rng[p.used..]);
      assert RenderFirst(d, width, height, rng, n).cmds == p.cmds + e.cmds;
      EmissionBars(e, ExpectedBar(d, width, height, n - 1));
      BarsOfAppend(p.cmds, e.cmds);
      ExpectedBarsSnoc(d, width, height, n);
    }
  }

  /** A point placed over `bar`: starts within its width and sits strictly
      above its top, by at most `height / 10 + 2` rows. */
  ghost predicate PointOver(bar: Area, spot: Area, width: int, height: int)
  {
    bar.x1 <= spot.x1 < bar.x1 + BarWidth(width) &&
    bar.y1 - (height / 10 + 2) <= spot.y1 &&
    spot.y2 < bar.y1
  }

  /** Every point of a frame directly follows the bar it belongs to and is
      placed over it. */
  ghost predicate PointsAboveBars(cmds: seq<DrawCmd>, width: int, height: int)
  {
    forall k :: 0 <= k < |cmds| && cmds[k].Point? ==>
      k > 0 && cmds[k - 1].Bar? && PointOver(cmds[k - 1].area, cmds[k].spot, width, height)
  }

  lemma PointsAboveBarsAppend(front: seq<DrawCmd>, rest: seq<DrawCmd>, width: int, height: int)
    requires PointsAboveBars(front, width, height) && PointsAboveBars(rest, width, height)
    requires rest != [] ==> rest[0].Bar?
    ensures PointsAboveBars(front + rest, width, height)
  {
    var all := front + rest;
    forall k | 0 <= k < |all| && all[k].Point?
      ensures k > 0 && all[k - 1].Bar? && PointOver(all[k - 1].area, all[k].spot, width, height)
    {
      if k < |front| {
        assert front[k] == all[k] && front[k - 1] == all[k - 1];
      } else {
        assert rest[k - |front|] == all[k];
        assert k - |front| > 0;
        assert rest[k - |front| - 1] == all[k - 1];
      }
    }
  }

  /** The points of a frame with non-negative draws on a non-negative canvas
      each sit over the bar drawn just before them. */
  lemma {:induction false} RenderPointsAboveBars(d: seq<int>, width: int, height: int, rng: seq<int>, n: nat)
    requires |d| == NumBars && n <= NumBars && |rng| >= 3 * n
    requires width >= 0 && height >= 0
    requires forall k :: 0 <= k < |rng| ==> rng[k] >= 0
    ensures PointsAboveBars(RenderFirst(d, width, height, rng, n).cmds, width, height)
    decreases n
  {
    if n > 0 {
      var p := RenderFirst(d, width, height, rng, n - 1);
      RenderPointsAboveBars(d, width, height, rng, n - 1);
      if !p.fault {
        var r := rng[p.used..];
        var e := EmitBar(n - 1, d[n - 1], width, height, r);
        if |e.cmds| == 2 {
          assert r[1] >= 0 && r[2] >= 0;
          DivTenSign(height);
          assert PointOver(e.cmds[0].area, e.cmds[1].spot, width, height);
        }
        assert PointsAboveBars(e.cmds, width, height);
        PointsAboveBarsAppend(p.cmds, e.cmds, width, height);
      }
    }
  }

  lemma DivTenSign(height: int)
    requires CInt.Div(height, 10) != 0
    ensures height >= 10 || height <= -10
  {
  }

  /** A frame stops at a `% 0` only if a point was due and the bar width or
      `height / 10` is zero; with both non-zero it never stops. */
  lemma {:induction false} RenderFaultOnlyOnZeroDivisor(d: seq<int>, width: int, height: int, rng: seq<int>, n: nat)
    requires |d| == NumBars && n <= NumBars && |rng| >= 3 * n
    requires BarWidth(width) != 0 && CInt.Div(height, 10) != 0
    ensures !RenderFirst(d, width, height, rng, n).fault
    decreases n
  {
    if n > 0 {
      RenderFaultOnlyOnZeroDivisor(d, width, height, rng, n - 1);
    }
  }

  /** A canvas at least 127 wide and 10 high has both divisors non-zero. */
  lemma WideTallCanvasIsSafe(width: int, height: int)
    requires width >= 2 * NumBars - 1 && height >= 10
    ensures BarWidth(width) >= 1 && CInt.Div(height, 10) >= 1
  {
  }

  /** The component (`class AudioVisualizer` of `audio_visualizer.cpp`). */
  class AudioVisualizer {
    const width: int
    const height: int
    const data: array<int>

    constructor (width: int, height: int)
      ensures this.width == width && this.height == height
      ensures data.Length == NumBars && fresh(data)
    {
      this.width := width;
      this.height := height;
      data := new int[NumBars];
    }

    /** `setup`: fills the table from 64 draws of `rand()`. */
    method Setup(rands: seq<int>)
      requires data.Length == NumBars && |rands| == NumBars
      requires Half(height) != 0
      modifies data
      ensures data[..] == InitialData(rands, height)
      ensures height >= 2 && (forall k :: 0 <= k < NumBars ==> rands[k] >= 0) ==> InRange(data[..], height)
    {
      var i := 0;
      while i < NumBars
        invariant 0 <= i <= NumBars
        invariant forall k :: 0 <= k < i ==> data[k] == InitialLevel(rands[k], height)
      {
        data[i] := CInt.Mod(rands[i], Half(height)) + Half(height);
        i := i + 1;
      }
      if height >= 2 && forall k :: 0 <= k < NumBars ==> rands[k] >= 0 {
        InitialDataInRange(rands, height);
      }
    }

    /** `update`: one clamped random step per bar, from 64 draws of `rand()`. */
    method Update(rands: seq<int>)
      requires data.Length == NumBars && |rands| == NumBars
      modifies data
      ensures data[..] == Tick(old(data[..]), height, rands)
      ensures height >= 0 ==> InRange(data[..], height)
    {
      var i := 0;
      while i < NumBars
        invariant 0 <= i <= NumBars
        invariant forall k :: 0 <= k < i ==> data[k] == Clamp(old(data[k]) + Step(rands[k]), height)
        invariant forall k :: i <= k < NumBars ==> data[k] == old(data[k])
      {
        var change := CInt.Mod(rands[i], 11) - 5;
        data[i] := data[i] + change;
        if data[i] < Half(height) {
          data[i] := Half(height);
        }
        if data[i] > height {
          data[i] := height;
        }
        i := i + 1;
      }
      if height >= 0 {
        TickInRange(old(data[..]), height, rands);
      }
    }

    /** `draw`: the commands of one frame, from the `rand()` draws `rng`;
        the table is only read. The loop stops at the first `% 0`, after
        which C leaves the behaviour undefined; `fault` records it. */
    method Draw(rng: seq<int>) returns (frame: Frame)
      requires data.Length == NumBars && |rng| >= 3 * NumBars
      ensures frame == RenderFrame(data[..], width, height, rng)
    {
      ghost var d := data[..];
      var cmds: seq<DrawCmd> := [];
      var pos: nat := 0;
      var fault := false;
      var i := 0;
      while i < NumBars && !fault
        invariant 0 <= i <= NumBars
        invariant Emission(cmds, pos, fault) == RenderFirst(d, width, height, rng, i)
      {
        RenderNext(d, width, height, rng, i);
        var bar := BarCmd(i, data[i], width, height);
        cmds := cmds + [bar];
        if !SparkleDue(rng[pos]) {
          pos := pos + 1;
        } else if ZeroDivisor(width, height) {
          pos := pos + 1;
          fault := true;
        } else {
          cmds := cmds + [SparklePoint(bar, rng[pos + 1], rng[pos + 2], width, height)];
          pos := pos + 3;
        }
        i := i + 1;
      }
      if fault {
        FaultStops(d, width, height, rng, i, NumBars);
      }
      frame := Frame(cmds, fault);
    }
  }
}
