# QARTOD real-time quality-control tests, modelled in Dafny

This project models `qartod.py`, a module of real-time quality-control tests
for in-situ temperature and salinity observations. The tests follow the U.S.
IOOS QARTOD manual (2013). Each test turns an observation, or a short window
of observations, into a quality flag: 1 pass, 3 suspect, 4 fail, 9 not
evaluated. The modelled tests are:

- `syntax`: a received message must have the expected number of characters.
- `sensorRange` and `userRange`: a reading must lie within bounds. The sensor
  bounds fail the reading, the user bounds only mark it suspect. A NaN
  reading is not evaluated.
- `spike_ref`: the middle of the last three samples is compared with the mean
  of its two neighbours, against a low and a high threshold.
- `flatLine`: counts earlier samples equal to the current one within a
  tolerance. The count is mapped to a flag by a fail and a suspect repeat count.
- `attenSig` in range mode: the window's max − min is compared with two
  minimum-variation thresholds. The one verdict is copied to every sample.

Files and modules:

- `flags.dfy` (`Flags`): the `Flag` enumeration and its integer `Code()`, the
  `ConfigError`/`Result` types for the `ValueError`s the tests raise, `MaxFlag`
  (Python's `max` over flags), and `Num`, a reading that is a real or NaN.
  `Less` and `Greater` are Python's float comparisons, false when NaN is involved.
- `range_tests.dfy` (`RangeTests`): `syntax`, `sensorRange`, `userRange`.
- `spike.dfy` (`Spike`): `spike_ref`.
- `flat_line.dfy` (`FlatLine`): `flatLine` as a method with its two counting
  loops, specified by the pure count `MatchCount`.
- `attenuation.dfy` (`Attenuation`): `attenSig` in range mode, plus the
  corrected threshold order described under Findings.

Readings are Dafny `real`s, so no floating-point rounding is modelled. Python's
keyword defaults become Dafny default parameters: `rep_cnt_fail=6`,
`rep_cnt_suspect=3`, and `min_var_warn=0`, `min_var_fail=0`.

The model follows `qartod.py` as written:

- The code has no composite evaluator that reduces several tests to one flag.
  The only max-of-flags reduction is inside `flatLine`, and `MaxFlag` models it.
- Thresholds are plain numbers, with no optional type and no enforced `fail <= warn`.
  `attenSig` treats zero as "unset" only when both variation thresholds are zero
  (an error). A single zero threshold is still compared like any other value.
- When the spike deviation is NaN, the code falls through to 1 (pass) rather
  than 9. Here, NaN is not modelled for the spike test at all.

## Model

| member | source | states |
|---|---|---|
| `Flags.MaxFlag` | qartod.py:193 | the result is one of the flags in the list, and no flag in the list has a higher code |
| `RangeTests.Syntax` | qartod.py:48-55 | Fail exactly when the message length differs from the expected count, Pass exactly when it equals it |
| `RangeTests.SensorRange` | qartod.py:61-71 | NotEvaluated exactly for a NaN reading; with real bounds, Pass iff lo <= value <= hi and Fail iff the value is strictly outside; never Suspect |
| `RangeTests.UserRange` | qartod.py:78-88 | NotEvaluated exactly for a NaN reading; with real bounds, Pass iff lo <= value <= hi and Suspect iff strictly outside; never Fail |
| `RangeTests.UserRangeMirrorsSensorRange` | qartod.py:82-87 | the user-range flag equals the sensor-range flag with Fail replaced by Suspect, and conversely |
| `RangeTests.NaNBoundIsOpen` | qartod.py:65-70 | a NaN bound never trips, since every comparison with NaN is false; only the other bound can fail the reading |
| `RangeTests.BoundsPass` | qartod.py:65-66 | the bounds lo and hi themselves pass both range tests |
| `RangeTests.RangeExamples` | qartod.py:61-71 | 15.2 in [0, 30] passes; -5 fails the sensor range and is suspect for the user range; NaN is not evaluated |
| `Spike.Deviation` | qartod.py:108-109 | the spike deviation is non-negative, and zero exactly when the middle point is the mean of its neighbours |
| `Spike.SpikeRef` | qartod.py:99-117 | NotEvaluated iff fewer than 3 samples; otherwise, over the last three samples, Fail iff deviation >= high, Suspect iff low <= deviation < high, Pass iff deviation is below both |
| `Spike.TrailingWindow` | qartod.py:103-104 | a window longer than three gives the same flag as its last three samples |
| `Spike.Reversible` | qartod.py:108-109 | reversing the three samples keeps the flag |
| `Spike.ShiftInvariant` | qartod.py:108-109 | adding one offset to all three samples keeps the flag |
| `Spike.LinearTrendPasses` | qartod.py:90-95 | with positive thresholds, three samples on a straight line always pass |
| `Spike.MonotoneInDeviation` | qartod.py:110-115 | a larger deviation never gets a flag with a lower code |
| `Spike.SpikeExamples` | qartod.py:99-117 | [1, 10, 1] fails with thresholds 2 and 5, [1, 4, 1] is suspect, [1, 1, 1] passes, and a two-sample window is not evaluated |
| `FlatLine.MatchCount` | qartod.py:173-178 | the number of repeats is at most the number of comparison values |
| `FlatLine.MatchCountIsIndexCount` | qartod.py:175-178 | the count equals the number of positions i with abs(val - comp[i]) <= eps |
| `FlatLine.AllRepeatsCounted` | qartod.py:175-178 | when every comparison value is within eps, the count is the full length |
| `FlatLine.NoRepeatsCounted` | qartod.py:183-186 | when no comparison value is within eps, the count is zero |
| `FlatLine.FlatLineTest` | qartod.py:160-193 | error exactly when fewer comparison values than rep_cnt_fail; otherwise, with both loops' count n, Fail iff n >= fail, Suspect iff suspect <= n < fail, Pass iff n is below both |
| `Attenuation.SeqMax` | qartod.py:218 | max(comp) is an element of the window and no element exceeds it |
| `Attenuation.SeqMin` | qartod.py:218 | min(comp) is an element of the window and no element is below it |
| `Attenuation.Variation` | qartod.py:218 | the range is non-negative, bounds every pairwise difference, and is attained by one pair |
| `Attenuation.RangeVerdict` | qartod.py:219-224 | Suspect iff range <= warn, Fail iff warn < range <= fail, Pass iff range exceeds both |
| `Attenuation.AttenSig` | qartod.py:199-228 | error iff both thresholds are zero (ThresholdsUnset, checked first) or the window is empty; otherwise one flag per sample, all equal; Suspect iff range <= warn, Fail iff warn < range <= fail, Pass iff range exceeds both |
| `Attenuation.ConstantWindowSuspect` | qartod.py:217-220 | a constant window with a warn threshold >= 0 is Suspect at every sample |
| `Attenuation.VariationPermutationInvariant` | qartod.py:218 | reordering the window does not change its range, so it does not change the verdict |
| `Attenuation.FailUnreachableWhenFailBelowWarn` | qartod.py:219-222 | when fail <= warn, no sample is ever flagged Fail |
| `Attenuation.FlatterWindowMilderAsWritten` | qartod.py:219-222 | with warn 1 and fail 2, a window of range 0.5 is Suspect while one of range 1.5 Fails |
| `Attenuation.ZeroWarnStillComparedAsWritten` | qartod.py:219-220 | a single zero warn threshold is still compared: a constant window is Suspect with warn 0 and fail 0.5 |
| `Attenuation.IntendedVerdict` | qartod.py:195-197 | with the fail threshold checked first and a zero threshold never tripping: Fail iff fail != 0 and range <= fail; otherwise Suspect iff warn != 0 and range <= warn; Pass iff each threshold is zero or below the range |
| `Attenuation.AttenSigIntended` | qartod.py:195-197 | the same errors as AttenSig (ThresholdsUnset when both thresholds are zero, else EmptyWindow for an empty window) and one equal flag per sample, graded as IntendedVerdict states |
| `Attenuation.IntendedMonotone` | qartod.py:195-197 | with the fail threshold first, a smaller range never gets a flag with a lower code |
| `Attenuation.IntendedZeroFailUnset` | qartod.py:199-204 | with the fail threshold first, a constant window with warn 0.5 is Suspect when fail is 0 (unset) and Fails when fail is 0.2 |

## Left out

- `gapTest` (qartod.py:25-40): it reads the wall clock and parses the timestamp with `strptime`, so it is not a function of its inputs. It also uses `timedelta.seconds`, which drops whole days.
- The standard-deviation branch of `attenSig` (`sd == True`, qartod.py:208-214): `np.nanstd` needs a floating-point square root. `AttenSig` models only the range branch, and has no `sd` parameter.
- NaN in `spike_ref`: the samples are reals. `np.nanmean`'s skipping of a NaN neighbour is not modelled, nor is a NaN deviation (which the code lets fall through to 1).
- NaN is modelled only for the range tests. In `flatLine` a NaN makes `abs(val - comp[i]) <= eps` false, and in `attenSig` the result of `max`/`min` over a list with a NaN depends on where the NaN sits; neither is modelled, since those samples are reals.
- Infinities: `Num` has no ±inf. Only finite readings and NaN are modelled for the range tests.
- The commented-out `spike_std` (qartod.py:120-152) is dead code.
- `attenSig` returns floats (`flag*(x/x)`). The model returns flags, which are integers.
- Floating-point rounding in `abs(val - comp[i]) <= eps` and in the mean: all arithmetic is exact on reals.
- The error messages of the `ValueError`s: each error is one `ConfigError` constructor.

## Findings

| source | as written | input that shows it | evidently intended | confidence | as-written member | corrected member |
|---|---|---|---|---|---|---|
| qartod.py:219-222 | the warn threshold is compared before the fail threshold | comp [0.0, 0.5] and [0.0, 1.5] with warn 1, fail 2: the flatter window is Suspect and the livelier one Fails. With fail <= warn, Fail is never returned. A single zero threshold is still compared, though zero is the parameters' "unset" default | a variation at or below the fail threshold fails, less variation is never milder, and a zero threshold never trips | medium, not executed | `Attenuation.FlatterWindowMilderAsWritten` | `Attenuation.AttenSigIntended` |

`Attenuation.AttenSig` still models the code as written. `AttenSigIntended` sits beside it with the corrected order. The property that motivates the correction, `IntendedMonotone`, is proved about that corrected order.
