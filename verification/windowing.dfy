/** The elementwise windowing step of the record loop: each captured sample
    is multiplied by its window coefficient and stored into the transform's
    input buffer, which is reused from frame to frame. */
module Windowing {

  import opened Indexing

  /** Overwrites the previous contents `prev` of the transform input with the
      windowed frame. `written` records the index of every store, in the
      order the loop performs them. Samples and coefficients are `float` in
      the source and the product is widened to `double`; here all are reals. */
  method ApplyWindow(prev: seq<real>, window: seq<real>, buffer: seq<real>)
    returns (input: seq<real>, written: seq<int>)
    requires |window| == |prev| && |buffer| == |prev|
    ensures |input| == |prev|
    ensures forall i :: 0 <= i < |input| ==> input[i] == window[i] * buffer[i]
    ensures written == Indices(|prev|)
  {
    input := prev;
    written := [];
    var i := 0;
    while i < |prev|
      invariant 0 <= i <= |prev|
      invariant |input| == |prev|
      invariant forall k :: 0 <= k < i ==> input[k] == window[k] * buffer[k]
      invariant written == Indices(i)
    {
      input := input[i := window[i] * buffer[i]];
      written := written + [i];
      i := i + 1;
    }
  }
}
