/**
  Grid quantization of recorded offsets (app.js, quantizeMs).

  An offset in milliseconds is snapped to the nearest multiple of a grid
  (125 ms, a sixteenth note at 120 BPM) and never goes below zero.
  JavaScript's Math.round sends exact halves towards +infinity, so a
  half-way offset goes to the grid point above it, not to an even one.
 */
module Quantize {

  /** The grid: a sixteenth note at 120 BPM (the default of gridMs). */
  const GridMs: real := 125.0

  /** Math.round: the nearest integer, exact halves rounded up. */
  function Round(x: real): (k: int)
    ensures x - 0.5 < k as real <= x + 0.5
  {
    (x + 0.5).Floor
  }

  /** `x` is a whole multiple of the grid. */
  predicate OnGrid(x: real) {
    (x / GridMs).Floor as real * GridMs == x
  }

  /** quantizeMs(ms): Math.max(0, Math.round(ms / gridMs) * gridMs). */
  function QuantizeMs(ms: real): (r: real)
    ensures r >= 0.0 && OnGrid(r)
    ensures ms <= 0.0 ==> r == 0.0
    ensures ms >= 0.0 ==> ms - GridMs / 2.0 < r <= ms + GridMs / 2.0
  {
    var q := Round(ms / GridMs) as real * GridMs;
    if 0.0 >= q then 0.0 else q
  }

  /**
    The reference definition of the quantizer: for a non-negative offset the
    result is THE multiple of the grid in the half-open window
    (ms - GridMs/2, ms + GridMs/2], that is the nearest one, ties going up.
   */
  lemma {:induction false} QuantizeIsNearest(ms: real, k: int)
    requires ms >= 0.0
    requires ms - GridMs / 2.0 < k as real * GridMs <= ms + GridMs / 2.0
    ensures QuantizeMs(ms) == k as real * GridMs
  {
    var j := Round(ms / GridMs);
    assert ms - GridMs / 2.0 < j as real * GridMs <= ms + GridMs / 2.0;
    assert (j - k) as real * GridMs < GridMs && (k - j) as real * GridMs < GridMs;
  }

  /** An exact half-way offset goes to the grid point above (Math.round), not to the even one. */
  lemma {:induction false} QuantizeTieRoundsUp(n: nat)
    ensures QuantizeMs((n as real + 0.5) * GridMs) == (n + 1) as real * GridMs
  {
    QuantizeIsNearest((n as real + 0.5) * GridMs, n + 1);
  }

  /** Quantizing an already quantized offset changes nothing. */
  lemma {:induction false} QuantizeIdempotent(ms: real)
    ensures QuantizeMs(QuantizeMs(ms)) == QuantizeMs(ms)
  {
    var r := QuantizeMs(ms);
    if r != 0.0 {
      QuantizeIsNearest(r, Round(ms / GridMs));
    }
  }

  /** Later offsets never quantize to earlier grid points. */
  lemma {:induction false} QuantizeMonotone(a: real, b: real)
    requires a <= b
    ensures QuantizeMs(a) <= QuantizeMs(b)
  {
    assert Round(a / GridMs) <= Round(b / GridMs);
  }
}
