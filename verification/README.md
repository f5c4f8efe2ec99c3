# pasa: per-frame spectrum aggregation, modelled in Dafny

pasa is a terminal spectrum analyser. Every frame it reads `size` mono
samples from PulseAudio, multiplies them by a Hann window, runs a real FFT,
and draws the spectrum as vertical bars with ncurses. This project models the
integer and real skeleton of one frame:

- the frame size `44100 / framesPerSecond` and the scale `2 / size`
  (module `Config`);
- the elementwise windowing loop that fills the transform input
  (module `Windowing`);
- the bin-to-column loop in `main` (module `Aggregation`). It walks the
  transform output in consecutive groups of `barWidth` bins. It sums each
  group's scaled power and multiplies the sum by `1 / barWidth`. It raises
  the result to `1e-15` and turns its decibel level into a bar height
  `LINES + level`, clamped below at 0. It then emits
  `move(LINES - dB, col); vline(glyph, dB)` and advances `col` by one;
- the cells those draws cover (module `Render`), and the composition of the
  bar-width computation with the loop (module `Pipeline`).

Power is a `real`. The transform output is a given sequence of `Bin(re, im)`
pairs, one per entry of the `size`-element output buffer. The decibel level
`(int)(10 * log10(power))` is a given function `level: real -> int`. A draw is
the triple `Draw(row, col, height)`. The methods `Aggregate` and `SumGroup`
also return `visited`, the list of bin indices in the order they are read.
`ApplyWindow` returns `written`, the list of indices it stores to.

The model follows the code where it behaves in ways a reader might not
expect:

- Nothing clamps the bar width from below. The code computes
  `(int)ceil((upperFrequency / framesPerSecond) / COLS)` as is, so the model
  requires `barWidth >= 1`. With a width of 0 or less no bin is read, so the
  column loop never ends (`GroupEndProgress`). Computed on exact reals, the
  width is at least 1 exactly when the upper frequency is positive
  (`BarWidthPositive`); in `double` arithmetic a positive upper frequency
  small enough to underflow also gives width 0 (see "Left out").
- The `(int)` cast of the width is undefined once the width leaves the
  32-bit range, so the model requires the real width to fit it
  (`WidthFitsInt`). At 30 frames per second on 80 columns that means an
  upper frequency of at most 5153960752800 Hz (`DefaultWidthFitsInt`).
- A group's sum is multiplied by `1 / barWidth`, not divided by the number
  of bins in the group, so a short final group is under-weighted
  (`ShortFinalGroupUnderweighted`).
- The height is not clamped to at most `LINES`, so a positive level gives a
  negative start row (`LoudColumnStartsOffscreen`).
- A zero-width terminal is not treated specially. The code divides by
  `COLS`, so the model requires `cols > 0`.
- The number of columns is `ceil(size / barWidth)` whatever the terminal
  width: 735 columns for the defaults on an 80-column terminal
  (`DefaultFrameColumns`).
- The transform writes only `size / 2 + 1` outputs, yet the loop reads all
  `size` entries of the output buffer (pasa.c:104-105, pasa.c:150). The
  model takes all `size` entries as given values and does not say what the
  entries past `size / 2` hold.

## Model

| member | source | states |
|---|---|---|
| Config.FrameSize | pasa.c:93 | the frame size is the integer quotient of 44100 by the frame rate: the largest `size` with `size * fps <= 44100`; the rate must be positive |
| Config.DefaultFrameSize | pasa.c:93 | the default 30 frames per second gives 1470 samples per frame |
| Config.Scale | pasa.c:94 | the scale is positive and `scale * size == 2` |
| Config.Ceil | pasa.c:144 | the result is the least integer not below its argument, as `ceil` is |
| Config.BarWidth | pasa.c:143-144 | the bar width is the ceiling of `(upperFrequency / framesPerSecond) / cols` and lies in the 32-bit `int` range the cast demands |
| Config.DefaultWidthFitsInt | pasa.c:143-144 | at 30 frames per second and 80 columns, a positive upper frequency keeps the width castable to `int` exactly when it is at most 5153960752800 Hz |
| Config.BarWidthPositive | pasa.c:143-144 | the bar width is at least 1 exactly when the upper frequency is positive |
| Config.DefaultBarWidth | pasa.c:143-144 | 3520 Hz at 30 frames per second on 80 columns gives two bins per column |
| Windowing.ApplyWindow | pasa.c:132-134 | the transform input has `size` entries, entry `i` is `window[i] * buffer[i]` whatever the buffer held before, and the stores hit indices `0 .. size-1` once each, in order |
| Aggregation.BinPower | pasa.c:156-158 | a bin's scaled power is non-negative and zero for a zero bin |
| Aggregation.RangePower | pasa.c:153-159 | a group's power sum is non-negative |
| Aggregation.GroupEnd | pasa.c:154 | the inner loop of a group starting at `lo` stops within `[lo, size]`: after exactly `barWidth` bins or at `size`, never later; with `barWidth <= 0` it stops at once |
| Aggregation.AveragePower | pasa.c:160 | the averaged power times `barWidth` gives back the group's sum, whatever the group's length; a non-negative sum averages to a value between 0 and the sum |
| Aggregation.GroupEndProgress | pasa.c:154 | a group that starts before the end reads at least one bin exactly when `barWidth >= 1`, and never reads past the end |
| Aggregation.FloorPower | pasa.c:161 | the floored power is the larger of the power and `1e-15` |
| Aggregation.Height | pasa.c:164-165 | the height is the least non-negative value not below `LINES + level`: a negative raw value becomes 0, and there is no upper clamp |
| Aggregation.Column | pasa.c:160-169 | a group's draw lies in its column, has a non-negative height not below `LINES` plus the level of the floored average power, and ends on row `LINES - 1` |
| Aggregation.Frame | pasa.c:148-172 | the reference frame has `ceil(size / barWidth)` draws, numbered `0, 1, ...` whatever the bar width, each with a non-negative height starting at row `LINES - height` |
| Aggregation.ColumnCountIsCeiling | pasa.c:148-150 | the number of columns `c` satisfies `(c - 1) * barWidth < size <= c * barWidth` |
| Aggregation.SumGroup | pasa.c:153-159 | the inner loop stops after `barWidth` bins or at the end, sums exactly the bins it passes, and reads each index once, in order |
| Aggregation.DrawGroup | pasa.c:160-172 | a column's draw is the averaged, floored and clamped group power, drawn in that column as a run ending on row `LINES - 1` |
| Aggregation.Aggregate | pasa.c:148-173 | the loop emits exactly the reference frame (group `k` covers bins `k * barWidth` up to `(k + 1) * barWidth`, cut at `size`, and is drawn in column `k`) and reads every bin index in `[0, size)` exactly once, in order |
| FrameProperties.GroupShape | pasa.c:148-159 | groups are consecutive and non-empty; every group but the last has exactly `barWidth` bins; the last ends at `size` and has at most `barWidth` bins |
| FrameProperties.IndexInOneGroup | pasa.c:150-157 | every bin index lies in exactly one group, the group `i / barWidth` |
| FrameProperties.SilentFrame | pasa.c:153-169 | on all-zero input every bar has the height of the floor's level, and is empty when that level is at most `-LINES` |
| FrameProperties.GroupFull | pasa.c:150-154 | a group holds 1 to `barWidth` bins, and fewer than `barWidth` only when it is the final group and `barWidth` does not divide `size` |
| FrameProperties.ShortFinalGroupUnderweighted | pasa.c:153-160 | on uniform power `p > 0` a group averages to `p` exactly when it is not a short final group: the division is by `barWidth`, not by the group's length |
| Render.Run | pasa.c:168-169 | the run a draw triple `(row, col, h)` describes is exactly the `h` cells `row .. row + h - 1` of column `col` |
| Render.ColumnCells | pasa.c:164-169 | column `k` of a frame covers exactly `height` cells of column `k`, ending on the bottom row |
| Render.LoudColumnStartsOffscreen | pasa.c:164-168 | on a terminal with `LINES >= 0`, a column is taller than the screen exactly when its level is positive, and then its run starts at a negative row |
| Pipeline.DrawFrame | pasa.c:143-173 | with a positive upper frequency whose width fits an `int`, the bar width is at least 1 and the frame drawn from the `size` bins is the reference frame at scale `2 / size` |
| Pipeline.DefaultFrameColumns | pasa.c:143-150 | with the defaults on an 80-column terminal, 1470 bins become 735 columns |

## Left out

- PulseAudio device open, read and free (pasa.c:83-90, 124-129, 185): external audio service. The read-failure exit is not modelled.
- FFTW allocation, planning, execution and release (pasa.c:103-105, 137, 180-182): a foreign library. Its output is a given sequence of bins.
- ncurses `initscr`, `curs_set`, `erase`, `refresh` and `endwin` (pasa.c:116-118, 140, 176, 188): UI surface. Drawing is modelled only as the emitted `Draw` triples and the cells they cover. What ncurses does with a negative or off-screen position is not modelled.
- The SIGINT handler and the `run` flag (pasa.c:20-30, 107-113, 121): asynchronous signal handling. The record loop is modelled one frame at a time.
- `getopt`, `atoi` and `atof` argument parsing and the empty `printUsage` (pasa.c:38-41, 58-79): CLI glue. Their results enter as parameters.
- The Hann `windowFunction` and the loop that fills the window table (pasa.c:33-36, 99-100): `cosf` numerics. The coefficients enter `ApplyWindow` as a given sequence.
- `log10` and the `(int)` cast of the decibel value (pasa.c:164): floating point. They are the given function `level`.
- Config.FrameSize: requires a positive frame rate. A rate of 0 (what `atoi` returns for a non-numeric `-r`) divides by zero. A negative rate gives a negative array size.
- Config.Scale: requires `size > 0`. A frame rate above 44100 gives `size == 0`, and `2.0 / size` is an infinite double.
- Config.BarWidth: requires `cols > 0`. With `COLS == 0` the width is an infinite double and the `(int)` cast is undefined. It also requires the width to fit a 32-bit `int`; beyond that the cast is undefined behaviour (on x86-64 it typically yields `INT_MIN`, and the column loop then never ends).
- Config.Ceil: rounds an exact real up. The source rounds the `double` quotient, which may differ from the exact quotient in its last bits.
- Config.BarWidthPositive: the equivalence holds for exact reals only. In `double` arithmetic, a positive upper frequency below about 6e-321 makes `(upperFrequency / 30) / 80` underflow to 0, so the source's width is 0 and its column loop never ends, while the model gives width 1.
- Pipeline.DrawFrame: computes the width on exact reals, so for a positive upper frequency small enough to underflow in `double` (about 6e-321 at the defaults) it draws a frame where the source hangs. Out-of-range widths are excluded by `WidthFitsInt`.
- Aggregation.Aggregate: requires `barWidth >= 1`. Otherwise the source loop never ends, which the model shows only through `GroupEndProgress`.
- Aggregation.BinPower: the powers are exact reals, with no `double` rounding or overflow.
- Windowing.ApplyWindow: the product is exact, not a `float` product widened to `double`.
