/**
 * The quality-flag vocabulary shared by every QARTOD test, the numeric
 * values the tests read (with Python's NaN), and the configuration errors
 * that the tests raise instead of returning a flag.
 */
module Flags {

  /** A QARTOD quality flag; Code() gives the integer the tests return. */
  datatype Flag = Pass | Suspect | Fail | NotEvaluated {

    function Code(): (c: int)
      ensures c in {1, 3, 4, 9}
      ensures c == 1 <==> this == Pass
      ensures c == 3 <==> this == Suspect
      ensures c == 4 <==> this == Fail
      ensures c == 9 <==> this == NotEvaluated
    {
      match this
      case Pass => 1
      case Suspect => 3
      case Fail => 4
      case NotEvaluated => 9
    }
  }

  /** The ValueError conditions raised by the tests. */
  datatype ConfigError =
    | TooFewValues     // flatLine: fewer comparison values than rep_cnt_fail
    | ThresholdsUnset  // attenSig: both variation thresholds are zero
    | EmptyWindow      // attenSig: max() of an empty list

  /** Either a test's value or the error it raised. */
  datatype Result<T> = Ok(value: T) | Err(error: ConfigError)

  /**
   * The largest flag of a non-empty list, by integer code: Python's
   * max() over a list of flags.
   */
  function MaxFlag(flags: seq<Flag>): (m: Flag)
    requires |flags| > 0
    ensures m in flags
    ensures forall i :: 0 <= i < |flags| ==> flags[i].Code() <= m.Code()
  {
    if |flags| == 1 then flags[0]
    else
      var rest := MaxFlag(flags[1..]);
      if flags[0].Code() >= rest.Code() then flags[0] else rest
  }

  /** A sensor reading as Python sees it: a real number or NaN. */
  datatype Num = Val(x: real) | NaN

  /** Python's `a < b` on floats: false whenever either side is NaN. */
  predicate Less(a: Num, b: Num) {
    a.Val? && b.Val? && a.x < b.x
  }

  /** Python's `a > b` on floats: false whenever either side is NaN. */
  predicate Greater(a: Num, b: Num) {
    a.Val? && b.Val? && a.x > b.x
  }

  function Abs(x: real): (r: real)
    ensures r >= 0.0
    ensures r == x || r == -x
  {
    if x < 0.0 then -x else x
  }
}
