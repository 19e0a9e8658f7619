/**
 * flatLine: counts how many earlier samples repeat the current one within a
 * tolerance and maps that count to a flag through two thresholds.
 */
module FlatLine {
  import opened Flags

  /** A comparison value repeats the current value when it lies within eps of it. */
  predicate Within(value: real, x: real, eps: real) {
    Abs(value - x) <= eps
  }

  /** The number of comparison values that repeat `value` within `eps`. */
  function MatchCount(value: real, comp: seq<real>, eps: real): (n: nat)
    ensures n <= |comp|
  {
    if |comp| == 0 then 0
    else MatchCount(value, comp[..|comp| - 1], eps) + (if Within(value, comp[|comp| - 1], eps) then 1 else 0)
  }

  /** The positions of the repeating comparison values. */
  ghost function MatchIndices(value: real, comp: seq<real>, eps: real): set<int> {
    set i | 0 <= i < |comp| && Within(value, comp[i], eps)
  }

  /** MatchCount counts exactly the positions that repeat the current value. */
  lemma {:induction false} MatchCountIsIndexCount(value: real, comp: seq<real>, eps: real)
    ensures MatchCount(value, comp, eps) == |MatchIndices(value, comp, eps)|
  {
    if |comp| > 0 {
      var k := |comp| - 1;
      var front := comp[..k];
      MatchCountIsIndexCount(value, front, eps);
      var before := MatchIndices(value, front, eps);
      if Within(value, comp[k], eps) {
        assert MatchIndices(value, comp, eps) == before + {k};
        assert k !in before;
      } else {
        assert MatchIndices(value, comp, eps) == before;
      }
    }
  }

  /** When every comparison value repeats the current one, all of them are counted. */
  lemma {:induction false} AllRepeatsCounted(value: real, comp: seq<real>, eps: real)
    requires forall i :: 0 <= i < |comp| ==> Within(value, comp[i], eps)
    ensures MatchCount(value, comp, eps) == |comp|
  {
    if |comp| > 0 {
      AllRepeatsCounted(value, comp[..|comp| - 1], eps);
    }
  }

  /** When no comparison value repeats the current one, the count is zero. */
  lemma {:induction false} NoRepeatsCounted(value: real, comp: seq<real>, eps: real)
    requires forall i :: 0 <= i < |comp| ==> !Within(value, comp[i], eps)
    ensures MatchCount(value, comp, eps) == 0
  {
    if |comp| > 0 {
      NoRepeatsCounted(value, comp[..|comp| - 1], eps);
    }
  }

  /**
   * The flat-line test. It raises an error when there are fewer comparison
   * values than `repCntFail`. Otherwise it counts the repeats twice, once
   * for the suspect threshold and once for the fail threshold, collects the
   * flags that apply and returns the worst: Fail when the count reaches
   * `repCntFail`, else Suspect when it reaches `repCntSuspect`, else Pass.
   */
  method FlatLineTest(value: real, comp: seq<real>, eps: real, repCntFail: int := 6, repCntSuspect: int := 3)
    returns (r: Result<Flag>)
    ensures r.Err? <==> |comp| < repCntFail
    ensures r.Err? ==> r.error == TooFewValues
    ensures r.Ok? ==>
              var n := MatchCount(value, comp, eps);
              (r.value == Fail <==> n >= repCntFail) &&
              (r.value == Suspect <==> repCntSuspect <= n < repCntFail) &&
              (r.value == Pass <==> n < repCntSuspect && n < repCntFail)
  {
    var fail, suspect := repCntFail, repCntSuspect;
    if |comp| < fail {
      return Err(TooFewValues);
    }

    var count := 0;
    var flags: seq<Flag> := [];
    for i := 0 to |comp|
      invariant count == MatchCount(value, comp[..i], eps)
    {
      assert comp[..i + 1][..i] == comp[..i];
      if Abs(value - comp[i]) <= eps {
        count := count + 1;
      }
    }
    assert comp[..|comp|] == comp;
    if count >= suspect {
      flags := flags + [Suspect];
    }

    count := 0;
    for i := 0 to |comp|
      invariant count == MatchCount(value, comp[..i], eps)
    {
      assert comp[..i + 1][..i] == comp[..i];
      if Abs(value - comp[i]) <= eps {
        count := count + 1;
      }
    }
    if count >= fail {
      flags := flags + [Fail];
    } else {
      flags := flags + [Pass];
    }

    var worst := MaxFlag(flags);
    return Ok(worst);
  }
}
