/**
 * The single-value QARTOD tests: syntax (message length), sensor range and
 * user range. None of them looks at history.
 */
module RangeTests {
  import opened Flags

  /** syntax: a received message fails unless it has exactly the expected length. */
  function Syntax(received: string, nchar: int): (r: Flag)
    ensures r == Fail <==> |received| != nchar
    ensures r == Pass <==> |received| == nchar
  {
    if |received| != nchar then Fail else Pass
  }

  /**
   * sensorRange: Fail when the value lies strictly outside [lo, hi],
   * NotEvaluated when it is NaN, Pass otherwise. The bounds check comes
   * first but can never fire for a NaN value, since Python's comparisons
   * with NaN are all false.
   */
  function SensorRange(value: Num, lo: Num, hi: Num): (r: Flag)
    ensures value.NaN? <==> r == NotEvaluated
    ensures value.Val? && lo.Val? && hi.Val? ==>
              (r == Pass <==> lo.x <= value.x <= hi.x) &&
              (r == Fail <==> value.x < lo.x || hi.x < value.x)
    ensures r != Suspect
  {
    if Less(value, lo) || Greater(value, hi) then Fail
    else if value.NaN? then NotEvaluated
    else Pass
  }

  /**
   * userRange: the same shape as sensorRange, but a value outside the
   * user's bounds is only Suspect.
   */
  function UserRange(value: Num, lo: Num, hi: Num): (r: Flag)
    ensures value.NaN? <==> r == NotEvaluated
    ensures value.Val? && lo.Val? && hi.Val? ==>
              (r == Pass <==> lo.x <= value.x <= hi.x) &&
              (r == Suspect <==> value.x < lo.x || hi.x < value.x)
    ensures r != Fail
  {
    if Less(value, lo) || Greater(value, hi) then Suspect
    else if value.NaN? then NotEvaluated
    else Pass
  }

  /** The two range tests differ only in the severity of a bounds violation. */
  lemma UserRangeMirrorsSensorRange(value: Num, lo: Num, hi: Num)
    ensures UserRange(value, lo, hi) ==
            (if SensorRange(value, lo, hi) == Fail then Suspect else SensorRange(value, lo, hi))
    ensures SensorRange(value, lo, hi) ==
            (if UserRange(value, lo, hi) == Suspect then Fail else UserRange(value, lo, hi))
  {
  }

  /** A NaN bound never trips: that side of the range is effectively open. */
  lemma NaNBoundIsOpen(value: Num, bound: Num)
    requires value.Val?
    ensures SensorRange(value, NaN, bound) == (if Greater(value, bound) then Fail else Pass)
    ensures SensorRange(value, bound, NaN) == (if Less(value, bound) then Fail else Pass)
  {
  }

  /** Both bounds themselves pass, provided lo <= hi. */
  lemma BoundsPass(lo: real, hi: real)
    requires lo <= hi
    ensures SensorRange(Val(lo), Val(lo), Val(hi)) == Pass
    ensures SensorRange(Val(hi), Val(lo), Val(hi)) == Pass
    ensures UserRange(Val(lo), Val(lo), Val(hi)) == Pass
    ensures UserRange(Val(hi), Val(lo), Val(hi)) == Pass
  {
  }

  /** A reading inside the sensor's range passes; one below it fails; NaN is not evaluated. */
  lemma RangeExamples()
    ensures SensorRange(Val(15.2), Val(0.0), Val(30.0)) == Pass
    ensures SensorRange(Val(-5.0), Val(0.0), Val(30.0)) == Fail
    ensures UserRange(Val(-5.0), Val(0.0), Val(30.0)) == Suspect
    ensures SensorRange(NaN, Val(0.0), Val(30.0)) == NotEvaluated
  {
  }
}
