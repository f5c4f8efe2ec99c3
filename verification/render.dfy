/** The run of screen cells a draw triple describes: `height` cells of
    column `col`, downward from row `row`, on a terminal `lines` rows tall
    with rows numbered from 0 at the top. What the terminal library does
    with a run that starts off the screen is not described here. */
module Render {

  import opened Aggregation

  /** The cells `(row + i, col)` for `0 <= i < height`. */
  function Run(row: int, col: int, height: int): (cells: set<(int, int)>)
    ensures |cells| == if height <= 0 then 0 else height
    ensures forall c :: c in cells ==> c.1 == col && row <= c.0 < row + height
    ensures forall r :: row <= r < row + height ==> (r, col) in cells
    decreases height
  {
    if height <= 0 then {} else Run(row, col, height - 1) + {(row + height - 1, col)}
  }

  /** The cells one draw covers. */
  function Cells(d: Draw): set<(int, int)>
  {
    Run(d.row, d.col, d.height)
  }

  /** Every column of a frame is a run of exactly `height` cells in its own
      column that ends on the bottom row `lines - 1`. */
  lemma ColumnCells(bins: seq<Bin>, scale: real, barWidth: int, lines: int, level: real -> int, k: int)
    requires barWidth >= 1
    requires 0 <= k < |Frame(bins, scale, barWidth, lines, level)|
    ensures var d := Frame(bins, scale, barWidth, lines, level)[k];
            && |Cells(d)| == d.height
            && (forall c :: c in Cells(d) ==> c.1 == k && lines - d.height <= c.0 < lines)
            && (d.height > 0 ==> (lines - 1, k) in Cells(d))
  {
  }

  /** Only the lower clamp exists: on a terminal of `lines >= 0` rows a
      column is taller than the screen exactly when its decibel level is
      positive, and then its run starts above the top row. */
  lemma LoudColumnStartsOffscreen(lines: int, level: int)
    requires lines >= 0
    ensures Height(lines, level) > lines <==> level > 0
    ensures level > 0 ==> lines - Height(lines, level) < 0
                          && (lines - Height(lines, level), 0) in Run(lines - Height(lines, level), 0, Height(lines, level))
  {
  }
}
