/**
 * The timing rules of the query-optimisation tests, over real numbers:
 * the speedup logged after adding an index, and the tolerance rule that the
 * repeated-execution test applies to its three samples.
 */
module Timing {
  import opened Exceptions

  /** Each later sample may be at most this factor of the first. */
  const TOLERANCE: real := 1.2
  /** Largest accepted average slowdown, in percent. */
  const MAX_DEGRADATION: real := 20.0

  /** A speed ratio; `Infinite` is Python's `float('inf')`. */
  datatype Ratio = Finite(value: real) | Infinite

  /** Line 110: how many times faster the indexed run was; it divides only by a positive time. */
  function Speedup(timeNoIndex: real, timeWithIndex: real): (r: Ratio)
    ensures r.Finite? <==> timeWithIndex > 0.0
    ensures r.Finite? ==> r.value * timeWithIndex == timeNoIndex
    ensures r.Finite? ==> (r.value > 1.0 <==> timeWithIndex < timeNoIndex)
  {
    if timeWithIndex > 0.0 then Finite(timeNoIndex / timeWithIndex) else Infinite
  }

  /** Mean of the second and third samples (line 227). */
  function AverageSubsequent(second: real, third: real): (avg: real)
    ensures avg - second == third - avg
    ensures second <= third ==> second <= avg <= third
    ensures third <= second ==> third <= avg <= second
  {
    (second + third) / 2.0
  }

  /** Lines 232 and 235: relative change of `avg` against `first`, in percent. */
  function PercentChange(from: real, to: real): (pct: real)
    requires from != 0.0
    ensures pct * from == (to - from) * 100.0
    ensures from > 0.0 ==> (pct <= 0.0 <==> to <= from)
  {
    (to - from) / from * 100.0
  }

  /**
   * test_caching_performance, lines 222-237, as written: both later samples
   * within the tolerance, then the improvement (or the degradation) is
   * computed by dividing by the first sample, and a degradation must stay
   * within 20 percent. Python raises `ZeroDivisionError` for a zero divisor.
   */
  function CachingPerformanceCheck(first: real, second: real, third: real): (v: Verdict)
    ensures first == 0.0 && second == 0.0 && third == 0.0 ==> v == Raises(ZeroDivisionError)
  {
    var avg := AverageSubsequent(second, third);
    Then(Assert(second <= first * TOLERANCE),
    Then(Assert(third <= first * TOLERANCE),
      if first == 0.0 then Raises(ZeroDivisionError)
      else if avg <= first then Pass
      else Assert(PercentChange(first, avg) <= MAX_DEGRADATION)))
  }

  /** The per-sample checks imply the average-degradation bound, for a positive first sample. */
  lemma ToleranceImpliesDegradationBound(first: real, second: real, third: real)
    requires first > 0.0
    requires second <= first * TOLERANCE && third <= first * TOLERANCE
    ensures PercentChange(first, AverageSubsequent(second, third)) <= MAX_DEGRADATION
  {
  }

  /**
   * The test passes exactly when the first sample is non-zero and each later
   * sample is at most 1.2 times it: the degradation assertion never decides.
   */
  lemma CachingCheckPassesIffWithinTolerance(first: real, second: real, third: real)
    ensures CachingPerformanceCheck(first, second, third).Pass? <==>
      first != 0.0 && second <= first * TOLERANCE && third <= first * TOLERANCE
  {
  }

  /**
   * With a zero first sample and non-negative later ones, the degradation
   * branch is never reached: either a tolerance assertion fails, or every
   * sample is zero and the improvement branch divides by zero.
   */
  lemma ZeroFirstSampleNeverPasses(second: real, third: real)
    requires second >= 0.0 && third >= 0.0
    ensures CachingPerformanceCheck(0.0, second, third) ==
      if second == 0.0 && third == 0.0 then Raises(ZeroDivisionError) else Raises(AssertionError)
  {
  }

  /**
   * The same rule with the zero baseline special-cased, as evidently
   * intended: no percentage is computed when the first sample is zero.
   */
  function CachingPerformanceCheckGuarded(first: real, second: real, third: real): (v: Verdict)
    ensures v.Raises? ==> v.error == AssertionError
  {
    var avg := AverageSubsequent(second, third);
    Then(Assert(second <= first * TOLERANCE),
    Then(Assert(third <= first * TOLERANCE),
      if first == 0.0 || avg <= first then Pass
      else Assert(PercentChange(first, avg) <= MAX_DEGRADATION)))
  }

  /** The guarded rule passes exactly when each later sample is within the tolerance of the first. */
  lemma GuardedCheckPassesIffWithinTolerance(first: real, second: real, third: real)
    ensures CachingPerformanceCheckGuarded(first, second, third).Pass? <==>
      second <= first * TOLERANCE && third <= first * TOLERANCE
  {
  }
}
