# Audio visualizer, modelled in Dafny

This ESPHome/LVGL component draws a fake audio spectrum: bars whose heights
are animated from synthetic values. No audio is read. The repository holds
two unrelated versions of it, and this project models each one in its own
module:

- `WaveVisualizer` (`wave_visualizer.dfy`) models the 32-bar component of
  `audio_visualizer.h`.
  - It creates 32 LVGL bar objects, 10 pixels wide and 2 apart, with three
    parallel vectors: bars, displayed heights and target heights.
  - On each animation step, every bar gets a new target from a travelling
    sine wave plus jitter, taken in [5, 180].
  - Each displayed height then moves 30% of the way to its target, truncated
    to an integer.
  - The bar is set so that it grows upward from y = 220.
  - The bar is recoloured: a bar above height 100 is brightened, any other
    bar gets its positional colour (blue, violet, or pink by index).
- `WalkVisualizer` (`walk_visualizer.dfy`) models the 64-bar component of
  `audio_visualizer.cpp`.
  - It keeps 64 levels in a fixed array.
  - `setup` fills the array with random levels in the upper half of the
    canvas.
  - Each 20 ms poll (`update`) moves every level by a random step in
    [-5, 5] and clamps it to [height / 2, height].
  - `draw` emits one rectangle per bar, from the bottom edge of the canvas,
    coloured by a three-segment gradient: `lv_color_mix` of blue and purple,
    of purple and red, and of red and white, with a ratio rising along each
    segment.
  - About one bar in fifteen also gets a small white point just above it,
    whose corners are 2 apart.
- `CInt` (`cint.dfy`) defines C's integer semantics for both modules:
  - `/` truncates toward zero, and `%` takes the sign of the dividend;
  - `static_cast<int>` of a floating value drops the fraction.

Conventions:

- Each component is a class whose fields its methods update in place.
  - The `.h` vectors are `seq` fields.
  - The `.cpp` table is an `array<int>`.
- Every loop of the source is a `while` loop. Its contract ties the new state
  to a specification function, and separate lemmas prove the component's
  promises about that function.
- Random numbers are passed in as arguments:
  - `esp_random()` and `rand()` become sequences of draws;
  - the sine wave term of the `.h` becomes a per-bar value in [0, 1].
- Floating-point arithmetic is modelled with exact reals.
- An LVGL bar object becomes a `Widget` with the attributes the component
  sets on it.
- Each `lv_draw_rect` call becomes a `DrawCmd`.
- An `lv_color_mix` call becomes a `Shade` that keeps its three arguments
  `c1`, `c2` and the ratio. LVGL defines the mix so that ratio 0 gives `c2`
  and ratio 255 gives `c1`.
- An LVGL area has inclusive corners. A rectangle from x1 to x2 therefore
  covers `x2 - x1 + 1` columns. The model states coordinates, not pixel
  counts.

## Model

| member | source | states |
|---|---|---|
| `CInt.Div` | components/audio_visualizer/audio_visualizer.cpp:39 | C division: for each sign combination the quotient is the exact quotient rounded toward zero |
| `CInt.Mod` | components/audio_visualizer/audio_visualizer.cpp:17 | C remainder: it has the dividend's sign and is smaller in magnitude than the divisor; for non-negative operands it is the usual remainder |
| `CInt.DivMod` | components/audio_visualizer/audio_visualizer.cpp:78-79 | C's division identity `(a / b) * b + a % b == a` holds for the modelled operators |
| `CInt.ToInt` | components/audio_visualizer/audio_visualizer.h:100 | `static_cast<int>` of a floating value is the integer within 1 of it on the side of 0 |
| `WaveVisualizer.BucketColor` | components/audio_visualizer/audio_visualizer.h:50-56 | bar i of n is blue iff 10i < 7n, violet iff 7n <= 10i < 9n, pink iff 9n <= 10i: every index has exactly one colour |
| `WaveVisualizer.BucketsOf32` | components/audio_visualizer/audio_visualizer.h:50-56 | with 32 bars the buckets are exactly the indices 0..22 (blue), 23..28 (violet) and 29..31 (pink) |
| `WaveVisualizer.BucketMonotone` | components/audio_visualizer/audio_visualizer.h:133-139 | moving right never returns to an earlier bucket, so each colour is one contiguous run |
| `WaveVisualizer.BrightIntensity` | components/audio_visualizer/audio_visualizer.h:122-124 | for height above 100 the intensity is in (0, 255]; it is 255 exactly when the height is at least 228 and is otherwise twice the excess over 100 |
| `WaveVisualizer.BrightIntensityMonotone` | components/audio_visualizer/audio_visualizer.h:123-124 | a taller bar is never dimmer |
| `WaveVisualizer.BarColor` | components/audio_visualizer/audio_visualizer.h:122-141 | a bar reverts to its positional colour exactly when its height is at most 100; above that its colour is (v, v, 255) with v the brightness intensity of its height, in (0, 255] |
| `WaveVisualizer.HeightFactor` | components/audio_visualizer/audio_visualizer.h:96-97 | for a wave value in [0, 1] the height factor lies in [0, 0.997] |
| `WaveVisualizer.TargetHeight` | components/audio_visualizer/audio_visualizer.h:86-100 | a factor in [0, 1] gives a target in [5, 180], and a factor below 1 gives a target below 180 |
| `WaveVisualizer.TargetHeightMonotone` | components/audio_visualizer/audio_visualizer.h:100 | a larger height factor never gives a lower target |
| `WaveVisualizer.GeneratedTargetInRange` | components/audio_visualizer/audio_visualizer.h:93-103 | every target the generator can produce, for any random draw, lies in [5, 179] |
| `WaveVisualizer.Smooth` | components/audio_visualizer/audio_visualizer.h:109-113 | one smoothing step never overshoots: the new height lies between the old height and the target |
| `WaveVisualizer.SmoothIntegerForm` | components/audio_visualizer/audio_visualizer.h:113 | on non-negative values the truncated step equals the integer `(7h + 3t) / 10` |
| `WaveVisualizer.SmoothStep` | components/audio_visualizer/audio_visualizer.h:113 | a lower target always lowers the height; a target at most 3 above leaves it unchanged; a target 4 or more above raises it |
| `WaveVisualizer.Iterate` | components/audio_visualizer/audio_visualizer.h:113 | any number of smoothing steps toward a fixed target stays between the start and the target |
| `WaveVisualizer.IterateReachesLowerTarget` | components/audio_visualizer/audio_visualizer.h:113 | falling toward a target, the bar sits exactly on it after at most `h - t` steps |
| `WaveVisualizer.IterateApproachesUpperTarget` | components/audio_visualizer/audio_visualizer.h:113 | rising toward a target, after `t - h` steps the bar is within 3 below it and never above it |
| `WaveVisualizer.RiseFromZero` | components/audio_visualizer/audio_visualizer.h:113 | from 0 toward 100 the displayed heights are 30, 51 and 65 |
| `WaveVisualizer.InitialBar` | components/audio_visualizer/audio_visualizer.h:41-58 | new bar i is at x = 20 + 12 i and y = 220, 10 wide and 1 high, in its positional colour for 32 bars |
| `WaveVisualizer.InitialBarsApart` | components/audio_visualizer/audio_visualizer.h:34-44 | new bars never overlap: each starts at least width plus the 2-pixel gap after an earlier one, and adjacent bars are exactly that far apart |
| `WaveVisualizer.Refreshed` | components/audio_visualizer/audio_visualizer.h:116-141 | after an update a bar's height is the new height, y + height is 220, its colour is its bar colour at that height, and its x and width are unchanged |
| `WaveVisualizer.BrightCapUnreached` | components/audio_visualizer/audio_visualizer.h:122-124 | heights below 180 never reach the 255 cap, so a bright bar's intensity is exactly twice its excess over 100 |
| `WaveVisualizer.AudioVisualizer.constructor` | components/audio_visualizer/audio_visualizer.h:15 | a new component has three empty vectors |
| `WaveVisualizer.AudioVisualizer.SetParentScreen` | components/audio_visualizer/audio_visualizer.h:39-65 | appends the 32 initial bars to the bar vector and 32 ones to the height and target vectors; the three stay parallel and the heights stay in range |
| `WaveVisualizer.AudioVisualizer.GenerateRandomHeights` | components/audio_visualizer/audio_visualizer.h:85-105 | overwrites every target with the target for its wave value and draw, all in [5, 179]; bars and heights are unchanged |
| `WaveVisualizer.AudioVisualizer.UpdateBars` | components/audio_visualizer/audio_visualizer.h:108-143 | height i becomes one smoothing step of old height i toward target i, and bar i is refreshed at that height; the targets are unchanged and the range [1, 179] is preserved |
| `WaveVisualizer.AudioVisualizer.UpdateAnimation` | components/audio_visualizer/audio_visualizer.h:73-76 | new targets, then one smoothing step toward them, for every bar |
| `WalkVisualizer.InitialLevel` | components/audio_visualizer/audio_visualizer.cpp:17 | for a non-negative draw and height at least 2, an initial level lies in [height/2, 2 (height/2) - 1], strictly below the height |
| `WalkVisualizer.InitialDataInRange` | components/audio_visualizer/audio_visualizer.cpp:16-18 | the whole fresh table is in [height/2, height) |
| `WalkVisualizer.InitialData` | components/audio_visualizer/audio_visualizer.cpp:16-18 | entry k of the fresh table is the initial level of draw k, for every k |
| `WalkVisualizer.Step` | components/audio_visualizer/audio_visualizer.cpp:28 | a non-negative draw gives a change in [-5, 5] |
| `WalkVisualizer.StepCoversRange` | components/audio_visualizer/audio_visualizer.cpp:28 | every change in [-5, 5] is produced by some draw |
| `WalkVisualizer.Clamp` | components/audio_visualizer/audio_visualizer.cpp:31-32 | for height >= 0 a value below height/2 becomes height/2, and any height gives height for a value above it; an in-range value is left alone; the result is in [height/2, height] for height >= 0, and is the height itself for a negative height |
| `WalkVisualizer.Tick` | components/audio_visualizer/audio_visualizer.cpp:27-33 | one update keeps the table's length, and entry k becomes old entry k plus step k, clamped; it depends on no other entry |
| `WalkVisualizer.TickInRange` | components/audio_visualizer/audio_visualizer.cpp:27-33 | after one update every level is in [height/2, height], whatever the table held and whatever was drawn |
| `WalkVisualizer.TickMovesAtMostStep` | components/audio_visualizer/audio_visualizer.cpp:28-32 | one update moves an in-range level by at most 5 |
| `WalkVisualizer.Run` | components/audio_visualizer/audio_visualizer.cpp:25-35 | any number of polls keeps the table's length |
| `WalkVisualizer.RunInRange` | components/audio_visualizer/audio_visualizer.cpp:25-35 | after any number of polls the table is in range, provided it started in range or at least one poll ran |
| `WalkVisualizer.BarWidth` | components/audio_visualizer/audio_visualizer.cpp:39 | for width >= 63 the bar width is `(width - 63) / 64` rounded down; it is 0 for widths 0..126 and negative exactly for a negative width |
| `WalkVisualizer.BarArea` | components/audio_visualizer/audio_visualizer.cpp:43-46 | bar i has x1 = i (bw + 1) and x2 - x1 = bw; its y2 is the canvas height and y2 - y1 is its level |
| `WalkVisualizer.BarsAdjacent` | components/audio_visualizer/audio_visualizer.cpp:40-45 | bar i+1 starts exactly one pixel after bar i ends |
| `WalkVisualizer.BarsFitCanvas` | components/audio_visualizer/audio_visualizer.cpp:39-45 | for width >= 63 the last bar's x2 is `64 bw + 63`, at most the width and more than `width - 64`; it equals the width, one column past the canvas's last column, exactly when `width - 63` is a multiple of 64 |
| `WalkVisualizer.BarTopInCanvas` | components/audio_visualizer/audio_visualizer.cpp:44-46 | for an in-range level, a bar's top is in [0, height - height/2] and not below its bottom |
| `WalkVisualizer.Segment` | components/audio_visualizer/audio_visualizer.cpp:53-58 | the three gradient segments split at 21 and 42 and cover every index |
| `WalkVisualizer.BarShade` | components/audio_visualizer/audio_visualizer.cpp:52-59 | the mix ratio is in [0, 255], is 0 exactly at the segment starts 0, 21 and 42, and is 255 exactly at bar 63; each segment mixes its own pair of colours (blue and purple, purple and red, red and white) |
| `WalkVisualizer.RatioBounds` | components/audio_visualizer/audio_visualizer.cpp:54-58 | for an offset j in [0, 21] the ratio `(j * 255) / 21` is in [0, 255], 0 only at 0 and 255 only at 21 |
| `WalkVisualizer.RatioMonotone` | components/audio_visualizer/audio_visualizer.cpp:54-58 | within a segment the ratio never decreases from left to right |
| `WalkVisualizer.SparkleArea` | components/audio_visualizer/audio_visualizer.cpp:78-81 | a point's x2 - x1 and y2 - y1 are 2; for non-negative draws its x1 is in [bar x1, bar x1 + bw), its y1 is between `height/10 + 2` and 3 rows above the bar's top, and its y2 is above that top |
| `WalkVisualizer.EmitBarShape` | components/audio_visualizer/audio_visualizer.cpp:69-83 | a bar emits its rectangle first; it adds a point, using 3 draws, exactly when the first draw is a multiple of 15 and neither divisor is 0, and that point is the sparkle placed with the next two draws; otherwise it uses 1 draw; it faults exactly when a point is due and the bar width or `height / 10` is 0 |
| `WalkVisualizer.RenderFirst` | components/audio_visualizer/audio_visualizer.cpp:42-84 | the first n bars of a frame use at most 3n draws |
| `WalkVisualizer.RenderNext` | components/audio_visualizer/audio_visualizer.cpp:42-83 | one more bar of an unstopped frame is its rectangle; then, with the next draw, either nothing, or a stop when a divisor is 0, or a point placed with the two draws after it |
| `WalkVisualizer.RenderFrame` | components/audio_visualizer/audio_visualizer.cpp:37-85 | a whole frame faults only on a zero divisor; without a fault its rectangles are bars 0..63 in order; for non-negative draws on a non-negative canvas each point sits over the bar before it |
| `WalkVisualizer.FaultStops` | components/audio_visualizer/audio_visualizer.cpp:78-79 | once a frame has reached a `% 0`, later bars add nothing to it |
| `WalkVisualizer.RenderDrawsEveryBar` | components/audio_visualizer/audio_visualizer.cpp:42-69 | the rectangles of a frame without a fault are bars 0..n-1 in order, each at its own level and in its own colour |
| `WalkVisualizer.RenderPointsAboveBars` | components/audio_visualizer/audio_visualizer.cpp:71-83 | for non-negative draws on a non-negative canvas, every point directly follows its bar, starts within its width and sits strictly above its top |
| `WalkVisualizer.RenderFaultOnlyOnZeroDivisor` | components/audio_visualizer/audio_visualizer.cpp:78-79 | with a non-zero bar width and a non-zero `height / 10` a frame never faults |
| `WalkVisualizer.WideTallCanvasIsSafe` | components/audio_visualizer/audio_visualizer.cpp:39-79 | a canvas at least 127 wide and 10 high makes both divisors at least 1 |
| `WalkVisualizer.AudioVisualizer.constructor` | components/audio_visualizer/audio_visualizer.cpp:6 | a new component has the given canvas size and a fresh 64-entry table |
| `WalkVisualizer.AudioVisualizer.Setup` | components/audio_visualizer/audio_visualizer.cpp:8-19 | the table becomes the initial levels from the 64 draws, in [height/2, height) for height >= 2 and non-negative draws |
| `WalkVisualizer.AudioVisualizer.Update` | components/audio_visualizer/audio_visualizer.cpp:25-35 | each level becomes its old value plus its own step, clamped; afterwards the table is in range for every height >= 0 |
| `WalkVisualizer.AudioVisualizer.Draw` | components/audio_visualizer/audio_visualizer.cpp:37-85 | the loop's frame is `RenderFrame` of the table, the canvas size and the draws, stopping at the first `% 0` if any; the table is only read |

The definitions `WalkVisualizer.Half`, `WalkVisualizer.BarCmd`,
`WalkVisualizer.SparkleDue`, `WalkVisualizer.ZeroDivisor`,
`WalkVisualizer.SparklePoint`, `WalkVisualizer.ExpectedBar` and
`WalkVisualizer.BarsOf` have no contract of their own. They spell out source
expressions that the rows above use. `WalkVisualizer.EmitBar` states only
that one bar uses 1 to 3 draws; its full behaviour is the row of
`WalkVisualizer.EmitBarShape`.

## Left out

- LVGL and ESPHome plumbing is not modelled, because it is foreign UI and
  framework code. This covers:
  - creating containers, screen objects and widgets (`create_widget`);
  - styling, `lv_obj_invalidate`, logging, `loop`, and the empty `setup` of
    the `.h`;
  - the `PollingComponent` scheduler;
  - the internals of `lv_color_hex`, `lv_color_make` and `lv_color_mix`.
  Colours are RGB triples or the arguments of the mix.
- `sinf` and `millis()` in the `.h` wave term are not computed.
  `GenerateRandomHeights` takes each bar's value of
  `sin(...) * 0.5 + 0.5` as an input assumed to be in [0, 1].
- Random numbers (`esp_random()` and `rand()`) are arguments.
  - The `.cpp` draw takes a stream of at least 192 draws (3 per bar at most).
  - The model does not capture that `rand()` is one global stream shared by
    `setup`, `update` and `draw`.
- `WaveVisualizer.Smooth`, `WaveVisualizer.HeightFactor`,
  `WaveVisualizer.TargetHeight` and `WaveVisualizer.BucketColor` use exact
  reals. They do not model the rounding of `float` and `double`: `0.3f` is
  slightly above 0.3, and a product such as `32 * 0.7` is not exactly 22.4.
  For 32 bars the bucket boundaries are the same either way.
- `lv_coord_t` and `int` overflow are not modelled: all arithmetic is
  unbounded.
- A setup with a height of -1, 0 or 1 computes `% 0`, because `height / 2`
  is 0. That is undefined in C.
  `WalkVisualizer.AudioVisualizer.Setup` therefore requires `height / 2 != 0`.
- A frame that faults (a point due while the bar width or `height / 10` is 0)
  is only half modelled. The model marks the frame as faulted and stops there.
  In C the program's behaviour is undefined from that point on.
- The `.h` and the `.cpp` contradict each other. The `.cpp` uses `data`,
  `width_`, `height_`, `update` and `draw`, and none of these is declared in
  the `.h`. Each file is therefore modelled on its own. The stray first line
  of the `.h` is ignored.
- The model follows the code where the description of the component differs
  from it. The code has:
  - no minimum bar width: the bar width is 0 for every width from 0 to 126
    (so a point there computes `% 0`), and negative only for a negative
    width;
  - no configuration options and no state machine;
  - bars created 1 pixel high at y = 220 (covering row 220), which are then
    placed so that they end just above row 220.
