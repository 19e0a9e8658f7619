/**
 * spike_ref: the three-point spike test. The middle point of the trailing
 * three-value window is compared with the mean of its two neighbours.
 */
module Spike {
  import opened Flags

  /** How far the middle point b lies from the mean of its neighbours a and c. */
  function Deviation(a: real, b: real, c: real): (d: real)
    ensures d >= 0.0
    ensures d == 0.0 <==> 2.0 * b == a + c
  {
    Abs(b - (a + c) / 2.0)
  }

  /**
   * The spike test on a window of samples, oldest first. A window shorter
   * than three is NotEvaluated; a longer one is cut to its last three
   * values. The deviation is then graded: at least `high` fails, at least
   * `low` (and below `high`) is suspect, anything else passes.
   */
  function SpikeRef(window: seq<real>, low: real, high: real): (r: Flag)
    ensures r == NotEvaluated <==> |window| < 3
    ensures |window| >= 3 ==>
              var n := |window|;
              var d := Deviation(window[n - 3], window[n - 2], window[n - 1]);
              (r == Fail <==> d >= high) &&
              (r == Suspect <==> low <= d < high) &&
              (r == Pass <==> d < low && d < high)
  {
    var w := if |window| > 3 then window[|window| - 3..] else window;
    if |window| < 3 then NotEvaluated
    else
      var d := Deviation(w[0], w[1], w[2]);
      if d >= high then Fail
      else if d < high && d >= low then Suspect
      else Pass
  }

  /** Only the trailing three samples matter. */
  lemma TrailingWindow(window: seq<real>, low: real, high: real)
    requires |window| >= 3
    ensures SpikeRef(window, low, high) == SpikeRef(window[|window| - 3..], low, high)
  {
  }

  /** The test is symmetric in time: reversing the window keeps the flag. */
  lemma Reversible(a: real, b: real, c: real, low: real, high: real)
    ensures SpikeRef([a, b, c], low, high) == SpikeRef([c, b, a], low, high)
  {
  }

  /** Shifting every sample by the same offset keeps the flag. */
  lemma ShiftInvariant(a: real, b: real, c: real, k: real, low: real, high: real)
    ensures SpikeRef([a + k, b + k, c + k], low, high) == SpikeRef([a, b, c], low, high)
  {
  }

  /**
   * A steady linear trend is never a spike: with positive thresholds it
   * always passes, which is why only the middle point is tested.
   */
  lemma LinearTrendPasses(a: real, step: real, low: real, high: real)
    requires 0.0 < low && 0.0 < high
    ensures SpikeRef([a, a + step, a + 2.0 * step], low, high) == Pass
  {
  }

  /** A larger spike never receives a milder flag. */
  lemma MonotoneInDeviation(w1: seq<real>, w2: seq<real>, low: real, high: real)
    requires |w1| == 3 && |w2| == 3
    requires Deviation(w1[0], w1[1], w1[2]) <= Deviation(w2[0], w2[1], w2[2])
    ensures SpikeRef(w1, low, high).Code() <= SpikeRef(w2, low, high).Code()
  {
  }

  /** A single tall spike fails; a flat window passes. */
  lemma SpikeExamples()
    ensures SpikeRef([1.0, 10.0, 1.0], 2.0, 5.0) == Fail
    ensures SpikeRef([1.0, 1.0, 1.0], 2.0, 5.0) == Pass
    ensures SpikeRef([1.0, 4.0, 1.0], 2.0, 5.0) == Suspect
    ensures SpikeRef([1.0, 10.0], 2.0, 5.0) == NotEvaluated
  {
  }
}
