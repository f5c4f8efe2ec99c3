/** Per-frame aggregation of transform bins into terminal columns: the bins
    are walked left to right in consecutive groups of `barWidth`, each
    group's power is averaged, floored, turned into a bar height and emitted
    as one vertical run in the next column. */
module Aggregation {

  import opened Indexing

  /** One complex transform output: real and imaginary part. */
  datatype Bin = Bin(re: real, im: real)

  /** The arguments of one column's `move(row, col); vline(glyph, height)`. */
  datatype Draw = Draw(row: int, col: int, height: int)

  /** The floor the averaged power is raised to before its logarithm is
      taken (`1e-15`). */
  const PowerFloor: real := 0.000000000000001

  /** Power of one bin after both components are scaled. */
  function BinPower(b: Bin, scale: real): (p: real)
    ensures p >= 0.0
    ensures b.re == 0.0 && b.im == 0.0 ==> p == 0.0
  {
    var re := b.re * scale;
    var im := b.im * scale;
    re * re + im * im
  }

  /** Sum of the bin powers of `bins[lo..hi]`, accumulated left to right. */
  function RangePower(bins: seq<Bin>, lo: int, hi: int, scale: real): (sum: real)
    requires 0 <= lo <= hi <= |bins|
    ensures sum >= 0.0
    decreases hi - lo
  {
    if lo == hi then 0.0 else RangePower(bins, lo, hi - 1, scale) + BinPower(bins[hi - 1], scale)
  }

  /** Where the inner loop of a group that starts at `lo` stops: after
      `barWidth` bins or at the end of the bins, whichever comes first. */
  function GroupEnd(lo: int, n: int, barWidth: int): (hi: int)
    requires 0 <= lo <= n
    ensures lo <= hi <= n
    ensures barWidth >= 1 ==> hi - lo <= barWidth && (hi - lo == barWidth || hi == n)
    ensures barWidth <= 0 ==> hi == lo
  {
    if barWidth <= 0 then lo else Min(lo + barWidth, n)
  }

  /** A group that starts before the end consumes at least one bin exactly
      when the bar width is at least 1; otherwise the column loop would emit
      columns forever without advancing. */
  lemma GroupEndProgress(lo: int, n: int, barWidth: int)
    requires 0 <= lo < n
    ensures GroupEnd(lo, n, barWidth) > lo <==> barWidth >= 1
    ensures GroupEnd(lo, n, barWidth) <= n
  {
  }

  /** The averaged power of a group: its sum multiplied by `1 / barWidth`,
      whatever the group's real length. */
  function AveragePower(sum: real, barWidth: int): (avg: real)
    requires barWidth >= 1
    ensures avg * barWidth as real == sum
    ensures sum >= 0.0 ==> 0.0 <= avg <= sum
  {
    sum * (1.0 / barWidth as real)
  }

  /** The power raised to the floor. */
  function FloorPower(p: real): (r: real)
    ensures r >= PowerFloor && r >= p
    ensures r == p || r == PowerFloor
  {
    if p < PowerFloor then PowerFloor else p
  }

  /** Bar height from the terminal height and the decibel level of the
      floored power: the least non-negative value not below `lines + level`.
      There is no clamp from above. */
  function Height(lines: int, level: int): (dB: int)
    ensures dB >= 0 && dB >= lines + level
    ensures dB == 0 || dB == lines + level
  {
    var dB := lines + level;
    if dB < 0 then 0 else dB
  }

  /** The draw emitted for the group `bins[lo..hi]` in column `col`.
      `level` stands for `(int)(10 * log10(power))`. */
  function Column(bins: seq<Bin>, scale: real, barWidth: int, lines: int, level: real -> int,
                  col: int, lo: int, hi: int): (d: Draw)
    requires barWidth >= 1 && 0 <= lo <= hi <= |bins|
    ensures d.col == col && d.height >= 0 && d.row + d.height == lines
    ensures d.height >= lines + level(FloorPower(AveragePower(RangePower(bins, lo, hi, scale), barWidth)))
  {
    var power := FloorPower(AveragePower(RangePower(bins, lo, hi, scale), barWidth));
    var dB := Height(lines, level(power));
    Draw(lines - dB, col, dB)
  }

  /** Number of columns: `n / barWidth` rounded up. */
  function ColumnCount(n: nat, barWidth: int): nat
    requires barWidth >= 1
  {
    (n + barWidth - 1) / barWidth
  }

  /** First bin of group `k`. */
  function GroupLo(k: nat, n: nat, barWidth: int): int
    requires barWidth >= 1
  {
    Min(k * barWidth, n)
  }

  /** One past the last bin of group `k`. */
  function GroupHi(k: nat, n: nat, barWidth: int): int
    requires barWidth >= 1
  {
    Min(k * barWidth + barWidth, n)
  }

  /** Reference definition of a frame: column `k` is drawn from the bins
      `[k * barWidth, (k + 1) * barWidth)`, cut off at the end of the bins. */
  function Frame(bins: seq<Bin>, scale: real, barWidth: int, lines: int, level: real -> int): (f: seq<Draw>)
    requires barWidth >= 1
    ensures (|f| - 1) * barWidth < |bins| <= |f| * barWidth
    ensures forall k :: 0 <= k < |f| ==> f[k].col == k && f[k].height >= 0 && f[k].row + f[k].height == lines
  {
    ColumnCountIsCeiling(|bins|, barWidth);
    seq(ColumnCount(|bins|, barWidth), k requires 0 <= k =>
      Column(bins, scale, barWidth, lines, level, k,
             GroupLo(k, |bins|, barWidth), GroupHi(k, |bins|, barWidth)))
  }

  /** The column count is the ceiling of `n / barWidth`: the least `c` with
      `c * barWidth >= n`. */
  lemma ColumnCountIsCeiling(n: nat, barWidth: int)
    requires barWidth >= 1
    ensures (ColumnCount(n, barWidth) - 1) * barWidth < n <= ColumnCount(n, barWidth) * barWidth
  {
    var c := ColumnCount(n, barWidth);
    var r := (n + barWidth - 1) % barWidth;
    assert c * barWidth + r == n + barWidth - 1;
    assert 0 <= r < barWidth;
    assert (c - 1) * barWidth == c * barWidth - barWidth;
  }

  /** Any `c` bracketing `n` as the ceiling does is the column count. */
  lemma ColumnCountUnique(n: nat, barWidth: int, c: int)
    requires barWidth >= 1
    requires (c - 1) * barWidth < n <= c * barWidth
    ensures ColumnCount(n, barWidth) == c
  {
    var c' := ColumnCount(n, barWidth);
    ColumnCountIsCeiling(n, barWidth);
    assert (c - 1) * barWidth < c' * barWidth;
    MulStrictMonotone(c - 1, c', barWidth);
    assert (c' - 1) * barWidth < c * barWidth;
    MulStrictMonotone(c' - 1, c, barWidth);
  }

  /** The inner loop: reads the bins of one group starting at `lo`,
      appending each index read to `visited`, and returns the group's power
      sum and where the group ends. */
  method SumGroup(bins: seq<Bin>, scale: real, barWidth: int, lo: int, visitedBefore: seq<int>)
    returns (sum: real, hi: int, visited: seq<int>)
    requires 0 <= lo <= |bins| && visitedBefore == Indices(lo)
    ensures hi == GroupEnd(lo, |bins|, barWidth)
    ensures sum == RangePower(bins, lo, hi, scale)
    ensures visited == Indices(hi)
  {
    sum := 0.0;
    hi := lo;
    visited := visitedBefore;
    var j := 0;
    while j < barWidth && hi < |bins|
      invariant lo <= hi <= |bins| && j == hi - lo
      invariant barWidth >= 1 ==> j <= barWidth
      invariant barWidth <= 0 ==> hi == lo
      invariant sum == RangePower(bins, lo, hi, scale)
      invariant visited == Indices(hi)
    {
      var re := bins[hi].re * scale;
      var im := bins[hi].im * scale;
      sum := sum + (re * re + im * im);
      visited := visited + [hi];
      hi := hi + 1;
      j := j + 1;
    }
  }

  /** The rest of one column's iteration: averages the group's power sum
      over `barWidth`, floors it, clamps the height and emits the draw. */
  method DrawGroup(bins: seq<Bin>, scale: real, barWidth: int, lines: int, level: real -> int,
                   col: int, lo: int, hi: int, sum: real)
    returns (d: Draw)
    requires barWidth >= 1 && 0 <= lo <= hi <= |bins|
    requires sum == RangePower(bins, lo, hi, scale)
    ensures d == Column(bins, scale, barWidth, lines, level, col, lo, hi)
    ensures d.col == col && d.height >= 0 && d.row + d.height == lines
  {
    var power := sum * (1.0 / barWidth as real);
    if power < PowerFloor {
      power := PowerFloor;
    }
    assert power == FloorPower(AveragePower(sum, barWidth));
    var dB := lines + level(power);
    if dB < 0 {
      dB := 0;
    }
    assert dB == Height(lines, level(power));
    d := Draw(lines - dB, col, dB);
  }

  /** The column loop: walks the bins in groups of `barWidth` and emits one
      draw per group. `visited` records every bin index read, in the order
      it is read. The loop only terminates because `barWidth >= 1`, which
      the source never checks. */
  method Aggregate(bins: seq<Bin>, scale: real, barWidth: int, lines: int, level: real -> int)
    returns (draws: seq<Draw>, visited: seq<int>)
    requires barWidth >= 1
    ensures draws == Frame(bins, scale, barWidth, lines, level)
    ensures visited == Indices(|bins|)
  {
    var n := |bins|;
    var i := 0;
    var col := 0;
    draws := [];
    visited := [];
    while i < n
      invariant 0 <= i <= n
      invariant i == n || i == col * barWidth
      invariant col == ColumnCount(i, barWidth)
      invariant col <= ColumnCount(n, barWidth)
      invariant draws == Frame(bins, scale, barWidth, lines, level)[..col]
      invariant visited == Indices(i)
      decreases n - i
    {
      var lo := i;
      var power;
      power, i, visited := SumGroup(bins, scale, barWidth, lo, visited);
      assert i == GroupHi(col, n, barWidth);
      var d := DrawGroup(bins, scale, barWidth, lines, level, col, lo, i, power);
      NextColumn(n, barWidth, col);
      FrameExtend(bins, scale, barWidth, lines, level, col, draws);
      draws := draws + [d];
      col := col + 1;
    }
  }

  /** A group that starts before the end of the bins has a column of its
      own, and once it is consumed the bins read so far fill `col + 1`
      columns. */
  lemma NextColumn(n: nat, barWidth: int, col: nat)
    requires barWidth >= 1 && col * barWidth < n
    ensures col < ColumnCount(n, barWidth)
    ensures col + 1 == ColumnCount(GroupHi(col, n, barWidth), barWidth)
    ensures GroupHi(col, n, barWidth) == n || GroupHi(col, n, barWidth) == (col + 1) * barWidth
  {
    ColumnCountIsCeiling(n, barWidth);
    MulStrictMonotone(col, ColumnCount(n, barWidth), barWidth);
    assert (col + 1) * barWidth == col * barWidth + barWidth;
    ColumnCountUnique(GroupHi(col, n, barWidth), barWidth, col + 1);
  }

  /** Appending the draw of group `col` to the first `col` columns of a
      frame gives its first `col + 1` columns. */
  lemma FrameExtend(bins: seq<Bin>, scale: real, barWidth: int, lines: int, level: real -> int,
                    col: nat, draws: seq<Draw>)
    requires barWidth >= 1 && col < ColumnCount(|bins|, barWidth) && col * barWidth < |bins|
    requires draws == Frame(bins, scale, barWidth, lines, level)[..col]
    ensures draws + [Column(bins, scale, barWidth, lines, level, col, col * barWidth, GroupHi(col, |bins|, barWidth))]
            == Frame(bins, scale, barWidth, lines, level)[..col + 1]
  {
    var f := Frame(bins, scale, barWidth, lines, level);
    assert f[col] == Column(bins, scale, barWidth, lines, level, col, col * barWidth, GroupHi(col, |bins|, barWidth));
    assert f[..col + 1] == f[..col] + [f[col]];
  }
}
