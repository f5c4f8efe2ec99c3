/** Properties of the per-frame aggregation: how the bins are partitioned
    into column groups, what the averaging does to a short final group, and
    what a silent frame draws. */
module FrameProperties {

  import opened Indexing
  import opened Aggregation

  /** Group `k` of a frame starts at `k * barWidth` and is never empty;
      every group but the last holds exactly `barWidth` bins and ends where
      the next begins; the last ends at the last bin and holds between 1
      and `barWidth` bins. */
  lemma GroupShape(n: nat, barWidth: int, k: nat)
    requires barWidth >= 1 && k < ColumnCount(n, barWidth)
    ensures GroupLo(k, n, barWidth) == k * barWidth
    ensures GroupLo(k, n, barWidth) < GroupHi(k, n, barWidth)
    ensures k + 1 < ColumnCount(n, barWidth) ==>
              GroupHi(k, n, barWidth) - GroupLo(k, n, barWidth) == barWidth
              && GroupHi(k, n, barWidth) == GroupLo(k + 1, n, barWidth)
    ensures k + 1 == ColumnCount(n, barWidth) ==>
              GroupHi(k, n, barWidth) == n
              && GroupHi(k, n, barWidth) - GroupLo(k, n, barWidth) <= barWidth
  {
    var c := ColumnCount(n, barWidth);
    ColumnCountIsCeiling(n, barWidth);
    MulMonotone(k, c - 1, barWidth);
    assert (k + 1) * barWidth == k * barWidth + barWidth;
    if k + 1 < c {
      MulMonotone(k + 1, c - 1, barWidth);
    } else {
      assert (c - 1) * barWidth + barWidth == c * barWidth;
    }
  }

  /** Every bin index of the frame lies in exactly one group: the group
      `i / barWidth`. */
  lemma IndexInOneGroup(n: nat, barWidth: int, i: int)
    requires barWidth >= 1 && 0 <= i < n
    ensures i / barWidth < ColumnCount(n, barWidth)
    ensures GroupLo(i / barWidth, n, barWidth) <= i < GroupHi(i / barWidth, n, barWidth)
    ensures forall k: nat :: k < ColumnCount(n, barWidth) && GroupLo(k, n, barWidth) <= i < GroupHi(k, n, barWidth)
              ==> k == i / barWidth
  {
    var q := i / barWidth;
    assert q * barWidth + i % barWidth == i;
    assert q * barWidth <= i < q * barWidth + barWidth;
    NextColumn(n, barWidth, q);
    forall k: nat | k < ColumnCount(n, barWidth) && GroupLo(k, n, barWidth) <= i < GroupHi(k, n, barWidth)
      ensures k == q
    {
      GroupShape(n, barWidth, k);
      DivUnique(i, barWidth, k);
    }
  }

  /** A run of zero-power bins sums to zero. */
  lemma {:induction false} SilentRangePower(bins: seq<Bin>, lo: int, hi: int, scale: real)
    requires 0 <= lo <= hi <= |bins|
    requires forall i :: lo <= i < hi ==> bins[i].re == 0.0 && bins[i].im == 0.0
    ensures RangePower(bins, lo, hi, scale) == 0.0
    decreases hi - lo
  {
    if lo < hi {
      SilentRangePower(bins, lo, hi - 1, scale);
    }
  }

  /** On silent input every column's power is raised to the floor, so every
      bar has the height the floor's level gives; when that level does not
      exceed `-lines` (about -150 dB for `1e-15`) every bar is empty. */
  lemma SilentFrame(bins: seq<Bin>, scale: real, barWidth: int, lines: int, level: real -> int)
    requires barWidth >= 1
    requires forall i :: 0 <= i < |bins| ==> bins[i].re == 0.0 && bins[i].im == 0.0
    ensures var f := Frame(bins, scale, barWidth, lines, level);
            forall k :: 0 <= k < |f| ==> f[k].height == Height(lines, level(PowerFloor))
    ensures lines + level(PowerFloor) <= 0 ==>
              var f := Frame(bins, scale, barWidth, lines, level);
              forall k :: 0 <= k < |f| ==> f[k].height == 0 && f[k].row == lines
  {
    var f := Frame(bins, scale, barWidth, lines, level);
    forall k | 0 <= k < |f|
      ensures f[k].height == Height(lines, level(PowerFloor))
    {
      SilentRangePower(bins, GroupLo(k, |bins|, barWidth), GroupHi(k, |bins|, barWidth), scale);
    }
  }

  /** A run of bins of equal power `p` sums to `p` times its length. */
  lemma {:induction false} UniformRangePower(bins: seq<Bin>, lo: int, hi: int, scale: real, p: real)
    requires 0 <= lo <= hi <= |bins|
    requires forall i :: lo <= i < hi ==> BinPower(bins[i], scale) == p
    ensures RangePower(bins, lo, hi, scale) == (hi - lo) as real * p
    decreases hi - lo
  {
    if lo < hi {
      UniformRangePower(bins, lo, hi - 1, scale, p);
    }
  }

  /** A group holds between 1 and `barWidth` bins, and it holds exactly
      `barWidth` unless it is the last group and `barWidth` does not divide
      the number of bins. */
  lemma GroupFull(n: nat, barWidth: int, k: nat)
    requires barWidth >= 1 && k < ColumnCount(n, barWidth)
    ensures 1 <= GroupHi(k, n, barWidth) - GroupLo(k, n, barWidth) <= barWidth
    ensures GroupHi(k, n, barWidth) - GroupLo(k, n, barWidth) == barWidth
            <==> k + 1 < ColumnCount(n, barWidth) || n % barWidth == 0
  {
    GroupShape(n, barWidth, k);
    if k + 1 == ColumnCount(n, barWidth) {
      var len := GroupHi(k, n, barWidth) - GroupLo(k, n, barWidth);
      assert n == k * barWidth + len;
      if len == barWidth {
        assert (k + 1) * barWidth == k * barWidth + barWidth;
        DivUnique(n, barWidth, k + 1);
      } else {
        DivUnique(n, barWidth, k);
      }
    }
  }

  /** Averaging `len` bins of power `p` over `barWidth` gives `p` when the
      group is full and less than `p` when it is short. */
  lemma UniformAverage(len: int, barWidth: int, p: real)
    requires 1 <= len <= barWidth && p > 0.0
    ensures AveragePower(len as real * p, barWidth) == p <==> len == barWidth
  {
    var w := barWidth as real;
    var avg := AveragePower(len as real * p, barWidth);
    assert avg == (len as real / w) * p;
    if len < barWidth {
      assert len as real / w < 1.0;
      assert avg < p;
    }
  }

  /** The average divides by `barWidth`, not by the group's length: on a
      spectrum of uniform power `p > 0`, a group averages to `p` exactly
      when it is full, and only the final group can be short, which happens
      exactly when `barWidth` does not divide the number of bins. */
  lemma ShortFinalGroupUnderweighted(bins: seq<Bin>, scale: real, barWidth: int, k: nat, p: real)
    requires barWidth >= 1 && k < ColumnCount(|bins|, barWidth) && p > 0.0
    requires forall i :: 0 <= i < |bins| ==> BinPower(bins[i], scale) == p
    ensures var avg := AveragePower(RangePower(bins, GroupLo(k, |bins|, barWidth), GroupHi(k, |bins|, barWidth), scale), barWidth);
            avg == p <==> k + 1 < ColumnCount(|bins|, barWidth) || |bins| % barWidth == 0
  {
    var n := |bins|;
    var lo := GroupLo(k, n, barWidth);
    var hi := GroupHi(k, n, barWidth);
    GroupFull(n, barWidth, k);
    UniformRangePower(bins, lo, hi, scale, p);
    UniformAverage(hi - lo, barWidth, p);
  }
}
