/**
 * attenSig in range mode: the attenuated-signal test. The variation of a
 * whole window (its maximum minus its minimum) is compared with two
 * minimum-variation thresholds, and the one verdict is copied to every
 * sample of the window.
 */
module Attenuation {
  import opened Flags

  /** Python's max() of a non-empty list. */
  function SeqMax(s: seq<real>): (m: real)
    requires |s| > 0
    ensures m in s
    ensures forall i :: 0 <= i < |s| ==> s[i] <= m
  {
    if |s| == 1 then s[0]
    else
      var rest := SeqMax(s[1..]);
      if s[0] >= rest then s[0] else rest
  }

  /** Python's min() of a non-empty list. */
  function SeqMin(s: seq<real>): (m: real)
    requires |s| > 0
    ensures m in s
    ensures forall i :: 0 <= i < |s| ==> m <= s[i]
  {
    if |s| == 1 then s[0]
    else
      var rest := SeqMin(s[1..]);
      if s[0] <= rest then s[0] else rest
  }

  /**
   * The range variation |max - min| of a non-empty window: the largest
   * difference between any two of its samples.
   */
  function Variation(s: seq<real>): (v: real)
    requires |s| > 0
    ensures v >= 0.0
    ensures forall i, j :: 0 <= i < |s| && 0 <= j < |s| ==> s[i] - s[j] <= v
    ensures exists i, j :: 0 <= i < |s| && 0 <= j < |s| && s[i] - s[j] == v
  {
    Abs(SeqMax(s) - SeqMin(s))
  }

  /** The window-level verdict as written: the warn threshold is checked first. */
  function RangeVerdict(variation: real, minVarWarn: real, minVarFail: real): (f: Flag)
    ensures f == Suspect <==> variation <= minVarWarn
    ensures f == Fail <==> minVarWarn < variation <= minVarFail
    ensures f == Pass <==> minVarWarn < variation && minVarFail < variation
  {
    if variation <= minVarWarn then Suspect
    else if variation <= minVarFail then Fail
    else Pass
  }

  /**
   * attenSig with sd = False. Both thresholds zero is a configuration
   * error; an empty window is an error as well (Python's max() of an empty
   * list). Otherwise every sample gets the same flag: Suspect when the
   * variation is at most `minVarWarn`, else Fail when it is at most
   * `minVarFail`, else Pass.
   */
  function AttenSig(comp: seq<real>, minVarWarn: real := 0.0, minVarFail: real := 0.0): (r: Result<seq<Flag>>)
    ensures r.Err? <==> (minVarWarn == 0.0 && minVarFail == 0.0) || |comp| == 0
    ensures r.Err? ==> r.error == (if minVarWarn == 0.0 && minVarFail == 0.0 then ThresholdsUnset else EmptyWindow)
    ensures r.Ok? ==> |r.value| == |comp| && forall i :: 0 <= i < |r.value| ==> r.value[i] == r.value[0]
    ensures r.Ok? ==>
              var v := Variation(comp);
              (r.value[0] == Suspect <==> v <= minVarWarn) &&
              (r.value[0] == Fail <==> minVarWarn < v <= minVarFail) &&
              (r.value[0] == Pass <==> minVarWarn < v && minVarFail < v)
  {
    if minVarWarn == 0.0 && minVarFail == 0.0 then Err(ThresholdsUnset)
    else if |comp| == 0 then Err(EmptyWindow)
    else
      var flag := RangeVerdict(Variation(comp), minVarWarn, minVarFail);
      Ok(seq(|comp|, _ => flag))
  }

  /** A constant window has no variation, so it is Suspect for any warn threshold >= 0. */
  lemma ConstantWindowSuspect(x: real, n: nat, minVarWarn: real, minVarFail: real)
    requires n > 0 && minVarWarn >= 0.0 && !(minVarWarn == 0.0 && minVarFail == 0.0)
    ensures AttenSig(seq(n, _ => x), minVarWarn, minVarFail) == Ok(seq(n, _ => Suspect))
  {
    var s := seq(n, _ => x);
    assert SeqMax(s) == x && SeqMin(s) == x;
  }

  /** Reordering the window never changes the verdict. */
  lemma VariationPermutationInvariant(s: seq<real>, t: seq<real>)
    requires |s| > 0 && multiset(s) == multiset(t)
    ensures |t| > 0 && Variation(s) == Variation(t)
  {
    assert |t| == |multiset(t)| == |multiset(s)| == |s|;
    assert forall x :: x in s <==> x in t by {
      forall x ensures x in s <==> x in t {
        assert x in s <==> x in multiset(s);
        assert x in t <==> x in multiset(t);
      }
    }
    var ms, mt := SeqMax(s), SeqMax(t);
    assert ms in t && mt in s;
    var ns, nt := SeqMin(s), SeqMin(t);
    assert ns in t && nt in s;
  }

  // ---- The threshold order --------------------------------------------

  /**
   * As written, the Fail flag is out of reach under the conventional
   * configuration in which failing variation is smaller than warning
   * variation: any variation at most `minVarFail` is then already at most
   * `minVarWarn` and is flagged Suspect.
   */
  lemma FailUnreachableWhenFailBelowWarn(comp: seq<real>, minVarWarn: real, minVarFail: real)
    requires minVarFail <= minVarWarn
    ensures AttenSig(comp, minVarWarn, minVarFail).Ok? ==>
              forall i :: 0 <= i < |comp| ==> AttenSig(comp, minVarWarn, minVarFail).value[i] != Fail
  {
  }

  /**
   * As written, a flatter window can receive a milder flag than a livelier
   * one: with warn 1 and fail 2, a variation of 0.5 is only Suspect while a
   * variation of 1.5 Fails.
   */
  lemma FlatterWindowMilderAsWritten()
    ensures AttenSig([0.0, 0.5], 1.0, 2.0) == Ok([Suspect, Suspect])
    ensures AttenSig([0.0, 1.5], 1.0, 2.0) == Ok([Fail, Fail])
  {
    assert SeqMax([0.0, 0.5]) == 0.5 && SeqMin([0.0, 0.5]) == 0.0;
    assert Variation([0.0, 0.5]) == 0.5;
    assert seq(2, _ => Suspect) == [Suspect, Suspect];
    assert SeqMax([0.0, 1.5]) == 1.5 && SeqMin([0.0, 1.5]) == 0.0;
    assert Variation([0.0, 1.5]) == 1.5;
    assert seq(2, _ => Fail) == [Fail, Fail];
  }

  /**
   * As written, a single zero threshold is not treated as unset: it is still
   * compared, so a constant window is Suspect with warn 0 and fail 0.5.
   */
  lemma ZeroWarnStillComparedAsWritten()
    ensures AttenSig([5.0, 5.0, 5.0], 0.0, 0.5) == Ok([Suspect, Suspect, Suspect])
  {
    assert SeqMax([5.0, 5.0, 5.0]) == 5.0 && SeqMin([5.0, 5.0, 5.0]) == 5.0;
    assert seq(3, _ => Suspect) == [Suspect, Suspect, Suspect];
  }

  /**
   * The verdict with the fail threshold checked first. A threshold of zero
   * is the "unset" default of the parameter, so it never trips.
   */
  function IntendedVerdict(variation: real, minVarWarn: real, minVarFail: real): (f: Flag)
    ensures f == Fail <==> minVarFail != 0.0 && variation <= minVarFail
    ensures f == Suspect <==> !(minVarFail != 0.0 && variation <= minVarFail) && minVarWarn != 0.0 && variation <= minVarWarn
    ensures f == Pass <==> (minVarFail == 0.0 || minVarFail < variation) && (minVarWarn == 0.0 || minVarWarn < variation)
  {
    if minVarFail != 0.0 && variation <= minVarFail then Fail
    else if minVarWarn != 0.0 && variation <= minVarWarn then Suspect
    else Pass
  }

  /** The attenuated-signal test with the fail threshold checked first. */
  function AttenSigIntended(comp: seq<real>, minVarWarn: real := 0.0, minVarFail: real := 0.0): (r: Result<seq<Flag>>)
    ensures r.Err? <==> (minVarWarn == 0.0 && minVarFail == 0.0) || |comp| == 0
    ensures r.Err? ==> r.error == (if minVarWarn == 0.0 && minVarFail == 0.0 then ThresholdsUnset else EmptyWindow)
    ensures r.Ok? ==> |r.value| == |comp| && forall i :: 0 <= i < |r.value| ==> r.value[i] == r.value[0]
    ensures r.Ok? ==>
              var v := Variation(comp);
              (r.value[0] == Fail <==> minVarFail != 0.0 && v <= minVarFail) &&
              (r.value[0] == Suspect <==> !(minVarFail != 0.0 && v <= minVarFail) && minVarWarn != 0.0 && v <= minVarWarn) &&
              (r.value[0] == Pass <==> (minVarFail == 0.0 || minVarFail < v) && (minVarWarn == 0.0 || minVarWarn < v))
  {
    if minVarWarn == 0.0 && minVarFail == 0.0 then Err(ThresholdsUnset)
    else if |comp| == 0 then Err(EmptyWindow)
    else
      var flag := IntendedVerdict(Variation(comp), minVarWarn, minVarFail);
      Ok(seq(|comp|, _ => flag))
  }

  /** With the fail threshold first, less variation never earns a milder flag. */
  lemma IntendedMonotone(v1: real, v2: real, minVarWarn: real, minVarFail: real)
    requires v1 <= v2
    ensures IntendedVerdict(v2, minVarWarn, minVarFail).Code() <= IntendedVerdict(v1, minVarWarn, minVarFail).Code()
  {
  }

  /** With the fail threshold first, a zero (unset) fail threshold never fails a constant window. */
  lemma IntendedZeroFailUnset()
    ensures AttenSigIntended([5.0, 5.0, 5.0], 0.5, 0.0) == Ok([Suspect, Suspect, Suspect])
    ensures AttenSigIntended([5.0, 5.0, 5.0], 0.5, 0.2) == Ok([Fail, Fail, Fail])
  {
    assert SeqMax([5.0, 5.0, 5.0]) == 5.0 && SeqMin([5.0, 5.0, 5.0]) == 5.0;
    assert seq(3, _ => Suspect) == [Suspect, Suspect, Suspect];
    assert seq(3, _ => Fail) == [Fail, Fail, Fail];
  }
}
