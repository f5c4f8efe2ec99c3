/** The drawing half of one record-loop iteration: the bar width is derived
    from the configuration and the terminal width queried for this frame,
    then the transform output is aggregated into one draw per column. */
module Pipeline {

  import opened Indexing
  import opened Config
  import opened Aggregation

  /** Draws one frame from the transform output `bins` (one entry per
      sample of the frame). The source computes the bar width without a
      lower bound, so the upper frequency must be positive for the column
      loop to end; a zero-width terminal would make the width division
      undefined, and a width beyond the 32-bit range the `(int)` cast. */
  method DrawFrame(upperFrequency: real, framesPerSecond: int, cols: int, lines: int,
                   bins: seq<Bin>, level: real -> int)
    returns (draws: seq<Draw>, visited: seq<int>)
    requires framesPerSecond > 0 && cols > 0 && upperFrequency > 0.0
    requires WidthFitsInt(upperFrequency, framesPerSecond, cols)
    requires |bins| == FrameSize(framesPerSecond) && |bins| > 0
    ensures BarWidth(upperFrequency, framesPerSecond, cols) >= 1
    ensures draws == Frame(bins, Scale(|bins|), BarWidth(upperFrequency, framesPerSecond, cols), lines, level)
    ensures visited == Indices(|bins|)
  {
    var scale := Scale(|bins|);
    BarWidthPositive(upperFrequency, framesPerSecond, cols);
    var barWidth := BarWidth(upperFrequency, framesPerSecond, cols);
    draws, visited := Aggregate(bins, scale, barWidth, lines, level);
  }

  /** The column count does not depend on the terminal width beyond the bar
      width: with the defaults on an 80-column terminal a frame of 1470 bins
      is drawn as 735 columns, most of them beyond the right edge. */
  lemma DefaultFrameColumns()
    ensures ColumnCount(FrameSize(30), BarWidth(3520.0, 30, 80)) == 735
  {
    DefaultFrameSize();
    DefaultBarWidth();
  }
}
