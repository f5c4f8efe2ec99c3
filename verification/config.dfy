/** Per-run configuration derived once before the record loop: the frame
    size, the spectrum scale factor and the number of bins grouped into one
    terminal column. */
module Config {

  /** The capture rate of the record stream, in samples per second. */
  const SampleRate: int := 44100

  /** Number of samples read per frame. Both operands are positive, so C's
      truncating division and Dafny's Euclidean division agree. A frame rate
      of 0 (what `atoi` yields for a non-numeric `-r`) would divide by zero,
      hence the precondition. */
  function FrameSize(framesPerSecond: int): (size: nat)
    requires framesPerSecond > 0
    ensures size * framesPerSecond <= SampleRate < (size + 1) * framesPerSecond
  {
    SampleRate / framesPerSecond
  }

  /** The default rate of 30 frames per second reads 1470 samples a frame. */
  lemma DefaultFrameSize()
    ensures FrameSize(30) == 1470
  {
  }

  /** Factor applied to every transform output component: it makes the
      one-sided spectrum sum to the signal's amplitude. */
  function Scale(size: int): (scale: real)
    requires size > 0
    ensures scale > 0.0
    ensures scale * size as real == 2.0
  {
    2.0 / size as real
  }

  /** The range of the 32-bit `int` the bar width is cast to. */
  const IntMin: int := -0x8000_0000
  const IntMax: int := 0x7FFF_FFFF

  /** The least integer not below `x`: C's `ceil`, computed on an exact
      real rather than a `double`. */
  function Ceil(x: real): (c: int)
    ensures c as real - 1.0 < x <= c as real
  {
    -((-x).Floor)
  }

  /** The real bar width `(upperFrequency / framesPerSecond) / cols`. */
  function RealBarWidth(upperFrequency: real, framesPerSecond: int, cols: int): real
    requires framesPerSecond > 0 && cols > 0
  {
    (upperFrequency / framesPerSecond as real) / cols as real
  }

  /** The `(int)` cast of the rounded-up width is defined only when the
      result fits a 32-bit `int`; outside that range the cast is undefined
      behaviour. */
  predicate WidthFitsInt(upperFrequency: real, framesPerSecond: int, cols: int)
    requires framesPerSecond > 0 && cols > 0
  {
    (IntMin - 1) as real < RealBarWidth(upperFrequency, framesPerSecond, cols) <= IntMax as real
  }

  /** Number of bins averaged into one column: the bins up to the upper
      frequency (one bin every `framesPerSecond` hertz) spread over the
      terminal's columns, rounded up and cast to `int`. Nothing clamps the
      result from below. */
  function BarWidth(upperFrequency: real, framesPerSecond: int, cols: int): (w: int)
    requires framesPerSecond > 0 && cols > 0
    requires WidthFitsInt(upperFrequency, framesPerSecond, cols)
    ensures IntMin <= w <= IntMax
    ensures w as real - 1.0 < RealBarWidth(upperFrequency, framesPerSecond, cols) <= w as real
  {
    Ceil(RealBarWidth(upperFrequency, framesPerSecond, cols))
  }

  /** The bar width is at least one bin exactly when the upper frequency is
      positive; `-f 0` or a negative or non-numeric `-f` gives a width of 0 or
      less, for which the column loop makes no progress. */
  lemma BarWidthPositive(upperFrequency: real, framesPerSecond: int, cols: int)
    requires framesPerSecond > 0 && cols > 0
    requires WidthFitsInt(upperFrequency, framesPerSecond, cols)
    ensures BarWidth(upperFrequency, framesPerSecond, cols) >= 1 <==> upperFrequency > 0.0
  {
    var x := RealBarWidth(upperFrequency, framesPerSecond, cols);
    if upperFrequency > 0.0 {
      assert upperFrequency / framesPerSecond as real > 0.0;
      assert x > 0.0;
    } else {
      assert upperFrequency / framesPerSecond as real <= 0.0;
      assert x <= 0.0;
    }
  }

  /** At the defaults (30 frames per second, 80 columns) a positive upper
      frequency gives a width that fits the cast exactly when it is at most
      `IntMax * 2400`, about 5.15e12 Hz. */
  lemma DefaultWidthFitsInt(upperFrequency: real)
    requires upperFrequency > 0.0
    ensures WidthFitsInt(upperFrequency, 30, 80) <==> upperFrequency <= 5153960752800.0
  {
    assert RealBarWidth(upperFrequency, 30, 80) == upperFrequency / 2400.0;
  }

  /** With the defaults (30 frames per second, 3520 Hz) on an 80-column
      terminal two bins go into each column. */
  lemma DefaultBarWidth()
    ensures BarWidth(3520.0, 30, 80) == 2
  {
  }
}
