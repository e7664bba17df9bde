/** TimedRetry.retryEverySecondUntil: a fixed-interval polling loop over a
    time provider. The clock and the predicate are the environment: `clock(k)`
    is the time provider's reading after the k-th sleep (`clock(0)` is the
    reading taken on entry) and `untilTrue(k)` is the predicate's answer at
    its k-th evaluation. An interrupted sleep is swallowed: it changes nothing
    but how far the clock has moved, which `clock` already accounts for. */
module Retry {

  /** Milliseconds slept between two evaluations of the predicate. */
  const OneSecond: int := 1000

  /** Every reading of the clock is later than the one before. */
  ghost predicate ClockAdvances(clock: nat -> int) {
    forall i: nat, j: nat :: i < j ==> clock(i) < clock(j)
  }

  /** The deadline: the entry reading plus one second per requested second. */
  function EndTime(startTime: int, durationInSeconds: int): (r: int)
    ensures durationInSeconds >= 0 ==> r >= startTime
    ensures r - startTime == OneSecond * durationInSeconds
  {
    startTime + OneSecond * durationInSeconds
  }

  /** What a run that evaluated the predicate `evaluations` times and
      returned `result` must have seen: every evaluation before the last
      was false, every reading taken after a sleep but before the last was
      short of the deadline, and the run ended either on a true evaluation
      or on a reading at or past the deadline. */
  ghost predicate RetryRun(durationInSeconds: int, untilTrue: nat -> bool, clock: nat -> int,
                           result: bool, evaluations: nat)
  {
    var endTime := EndTime(clock(0), durationInSeconds);
    && evaluations >= 1
    && (forall k: nat :: k < evaluations - 1 ==> !untilTrue(k))
    && (forall k: nat :: 1 <= k < evaluations ==> clock(k) < endTime)
    && (result <==> untilTrue(evaluations - 1))
    && (!result ==> clock(evaluations) >= endTime)
  }

  /** Polls `untilTrue` once per second until it holds or the deadline has
      passed; the predicate is always evaluated at least once. Besides the
      answer, reports how often the predicate was evaluated and the sleeps
      requested, in order. */
  method RetryEverySecondUntil(durationInSeconds: int, untilTrue: nat -> bool, clock: nat -> int)
    returns (result: bool, evaluations: nat, sleeps: seq<int>)
    requires ClockAdvances(clock)
    ensures RetryRun(durationInSeconds, untilTrue, clock, result, evaluations)
    ensures |sleeps| == (if result then evaluations - 1 else evaluations)
    ensures forall k :: 0 <= k < |sleeps| ==> sleeps[k] == OneSecond
  {
    var startTime := clock(0);
    var endTime := EndTime(startTime, durationInSeconds);
    evaluations := 0;
    sleeps := [];
    while true
      invariant |sleeps| == evaluations
      invariant forall k :: 0 <= k < |sleeps| ==> sleeps[k] == OneSecond
      invariant forall k: nat :: k < evaluations ==> !untilTrue(k)
      invariant forall k: nat :: 1 <= k <= evaluations ==> clock(k) < endTime
      decreases if evaluations == 0 then 1 else 0, endTime - clock(evaluations)
    {
      if untilTrue(evaluations) {
        return true, evaluations + 1, sleeps;
      }
      sleeps := sleeps + [OneSecond];
      evaluations := evaluations + 1;
      var currentTime := clock(evaluations);
      if currentTime >= endTime {
        return false, evaluations, sleeps;
      }
    }
  }

  /** A run's answer is true exactly when some evaluation was true. */
  lemma RunAnswersSomeEvaluation(durationInSeconds: int, untilTrue: nat -> bool, clock: nat -> int,
                                 result: bool, evaluations: nat)
    requires RetryRun(durationInSeconds, untilTrue, clock, result, evaluations)
    ensures result <==> exists k: nat :: k < evaluations && untilTrue(k)
  {
    if result {
      assert untilTrue(evaluations - 1);
    }
  }

  /** A false answer comes only once at least the requested duration has
      elapsed on the clock. */
  lemma FalseOnlyAfterDuration(durationInSeconds: int, untilTrue: nat -> bool, clock: nat -> int,
                               result: bool, evaluations: nat)
    requires RetryRun(durationInSeconds, untilTrue, clock, result, evaluations)
    requires !result
    ensures clock(evaluations) - clock(0) >= OneSecond * durationInSeconds
  {
  }

  /** A predicate that holds at once ends the run at its first evaluation,
      before any sleep. */
  lemma TrueAtOnceNeedsNoSleep(durationInSeconds: int, untilTrue: nat -> bool, clock: nat -> int,
                               result: bool, evaluations: nat)
    requires RetryRun(durationInSeconds, untilTrue, clock, result, evaluations)
    requires untilTrue(0)
    ensures result && evaluations == 1
  {
  }

  /** With no time to wait, the predicate is still evaluated, exactly once. */
  lemma NoDurationEvaluatesOnce(durationInSeconds: int, untilTrue: nat -> bool, clock: nat -> int,
                                result: bool, evaluations: nat)
    requires ClockAdvances(clock)
    requires durationInSeconds <= 0
    requires RetryRun(durationInSeconds, untilTrue, clock, result, evaluations)
    ensures evaluations == 1 && result == untilTrue(0)
  {
    // the first reading after a sleep is already past a deadline that
    // does not lie after the entry reading
    assert clock(0) < clock(1);
    assert EndTime(clock(0), durationInSeconds) <= clock(0);
  }

  /** The environment determines the run: two runs over the same clock and
      the same predicate answers agree on the answer and the evaluations. */
  lemma RunIsDetermined(durationInSeconds: int, untilTrue: nat -> bool, clock: nat -> int,
                          r1: bool, e1: nat, r2: bool, e2: nat)
    requires RetryRun(durationInSeconds, untilTrue, clock, r1, e1)
    requires RetryRun(durationInSeconds, untilTrue, clock, r2, e2)
    ensures r1 == r2 && e1 == e2
  {
  }
}
