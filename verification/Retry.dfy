/** The retry loop around one SEC request (app/sec/retry.py). Delays are in seconds. */
module Retry {
  import opened Wrappers

  /** The `Retry-After` header: absent or not a number, or a number of seconds. */
  type RetryAfter = Option<real>

  datatype Answer<T> =
    | Response(value: T)
    | HttpStatus(status: int, retryAfter: RetryAfter)
    | NetworkError
    | Uncaught

  datatype Failure = Permanent | Transient(retryAfter: RetryAfter)

  datatype Outcome<T> =
    | Returned(value: T)
    | RaisedPermanent
    | RaisedTransient(retryAfter: RetryAfter)
    | RaisedUncaught
    | AssertionFailed

  function ClassifyHttpError(status: int, retryAfter: RetryAfter): Failure {
    if status in {429, 500, 502, 503, 504} then Transient(retryAfter) else Permanent
  }

  /** The failure that makes the loop go round again. */
  function RetryableFailure<T>(a: Answer<T>): Option<RetryAfter> {
    match a
    case HttpStatus(status, retryAfter) =>
      if ClassifyHttpError(status, retryAfter).Transient? then Some(retryAfter) else None
    case NetworkError => Some(None)
    case _ => None
  }

  /** Rate limiting, a server error or a network error. */
  predicate MayPass<T>(a: Answer<T>) {
    a.NetworkError? || (a.HttpStatus? && (a.status == 429 || a.status == 500 || 502 <= a.status <= 504))
  }

  /** The calls of a loop that has ended, by their answers: all but the last may pass, the last one may
      not unless it was the last allowed, and it is what the loop returns or raises. */
  ghost predicate Ended<T>(maxAttempts: int, answers: seq<Answer<T>>, r: Outcome<T>) {
    && 1 <= |answers| <= maxAttempts
    && (forall i | 0 <= i < |answers| - 1 :: MayPass(answers[i]))
    && var last := answers[|answers| - 1];
       && (MayPass(last) ==> |answers| == maxAttempts)
       && match last
          case Response(v) => r == Returned(v)
          case HttpStatus(_, retryAfter) => r == if MayPass(last) then RaisedTransient(retryAfter) else RaisedPermanent
          case NetworkError => r == RaisedTransient(None)
          case Uncaught => r.RaisedUncaught?
  }

  /** The sleep after an answer: what a Retry-After asks for, but at most `maxDelay`; without one, from the
      capped backoff to half as much again, as the jitter goes from 0 to 1. */
  predicate SleepsAfter<T>(p: RetryPolicy, a: Answer<T>, backoff: real, jitter: real, sleep: real) {
    if a.HttpStatus? && a.retryAfter.Some? then
      sleep <= a.retryAfter.value && sleep <= p.maxDelay && (sleep == a.retryAfter.value || sleep == p.maxDelay)
    else
      var capped := if backoff <= p.maxDelay then backoff else p.maxDelay;
      && capped <= sleep <= 1.5 * capped
      && (jitter == 0.0 ==> sleep == capped) && (jitter == 1.0 ==> sleep == 1.5 * capped)
  }

  function Power2(n: nat): (r: real)
    ensures r >= 1.0
  {
    if n == 0 then 1.0 else 2.0 * Power2(n - 1)
  }

  function Times(a: real, b: real): real { a * b }

  function Min(a: real, b: real): real { if a <= b then a else b }

  datatype RetryPolicy = RetryPolicy(maxAttempts: int, baseDelay: real, maxDelay: real) {

    /** `jitter` is the position of the random draw in its range, from 0 to 1. */
    function DelayForAttempt(attempt: nat, retryAfter: RetryAfter, jitter: real): real
      requires attempt >= 1
    {
      match retryAfter
      case Some(seconds) => Min(seconds, maxDelay)
      case None =>
        var backoff := Min(Times(baseDelay, Power2(attempt - 1)), maxDelay);
        backoff + Times(jitter, backoff * 0.5)
    }

    /** What the loop raises or returns once the answer to its last call is in. */
    function Final<T>(a: Answer<T>): Outcome<T> {
      match a
      case Response(v) => Returned(v)
      case Uncaught => RaisedUncaught
      case _ => if RetryableFailure(a).Some? then RaisedTransient(RetryableFailure(a).value) else RaisedPermanent
    }

    /** How many calls the loop makes from the (k+1)-th on. */
    function Attempts<T>(answers: seq<Answer<T>>, k: nat): (n: nat)
      ensures k as int <= maxAttempts ==> k + n <= maxAttempts
      decreases maxAttempts - k
    {
      if k >= maxAttempts then 0
      else if k < |answers| && RetryableFailure(answers[k]).Some? then 1 + Attempts(answers, k + 1)
      else 1
    }

    /** `answers[i]` is what the wrapped call does the (i+1)-th time. The loop stops at the
        first answer that is not a retryable failure, or after `maxAttempts` calls; between
        two calls it sleeps once. */
    method Run<T>(answers: seq<Answer<T>>, jitters: seq<real>)
      returns (r: Outcome<T>, calls: nat, sleeps: seq<real>)
      requires |answers| >= maxAttempts && |jitters| >= maxAttempts
      ensures maxAttempts < 1 ==> r.AssertionFailed? && calls == 0 && sleeps == []
      ensures maxAttempts >= 1 ==> 1 <= calls <= maxAttempts && |sleeps| == calls - 1 && Ended(maxAttempts, answers[..calls], r)
      ensures calls == Attempts(answers, 0)
      ensures maxAttempts >= 1 ==> r == Final(answers[calls - 1])
      ensures Regular(this, jitters) ==>
                forall i | 0 <= i < |sleeps| :: SleepsAfter(this, answers[i], Times(baseDelay, Power2(i)), jitters[i], sleeps[i])
      ensures forall i | 0 <= i < |sleeps| ::
                RetryableFailure(answers[i]).Some?
                && sleeps[i] == DelayForAttempt(i + 1, RetryableFailure(answers[i]).value, jitters[i])
      ensures |sleeps| <= |answers| && SleepBounded(this, answers, jitters, sleeps)
    {
      hide Total, Times, Power2, Regular, DelayForAttempt, Ended, SleepsAfter, SleepBounded;
      NoSleep(this, answers, jitters);
      sleeps, calls := [], 0;
      var lastFailure: Option<RetryAfter> := None;
      var attempt := 1;
      while attempt <= maxAttempts
        invariant calls == attempt - 1
        invariant calls + Attempts(answers, calls) == Attempts(answers, 0)
        invariant if maxAttempts >= 1 then calls <= maxAttempts else calls == 0
        invariant |sleeps| == if 0 < calls == maxAttempts then calls - 1 else calls
        invariant forall i | 0 <= i < calls :: RetryableFailure(answers[i]).Some?
        invariant calls == 0 ==> lastFailure.None?
        invariant calls > 0 ==> lastFailure == RetryableFailure(answers[calls - 1])
        invariant 0 < calls == maxAttempts ==> Ended(maxAttempts, answers[..calls], RaisedTransient(lastFailure.value))
        invariant |sleeps| <= |answers| && SleepBounded(this, answers, jitters, sleeps)
        invariant forall i | 0 <= i < |sleeps| ::
            && sleeps[i] == DelayForAttempt(i + 1, RetryableFailure(answers[i]).value, jitters[i])
            && (Regular(this, jitters) ==> SleepsAfter(this, answers[i], Times(baseDelay, Power2(i)), jitters[i], sleeps[i]))
      {
        var answer := answers[attempt - 1];
        calls := calls + 1;
        EndsHere(this, answers[..calls]);
        match answer {
          case Response(v) => return Returned(v), calls, sleeps;
          case HttpStatus(status, retryAfter) =>
            if ClassifyHttpError(status, retryAfter).Permanent? {
              return RaisedPermanent, calls, sleeps;
            }
            lastFailure := Some(retryAfter);
          case NetworkError =>
            lastFailure := Some(None);
          case Uncaught => return RaisedUncaught, calls, sleeps;
        }
        if attempt < maxAttempts {
          sleeps := sleeps + [DelayForAttempt(attempt, lastFailure.value, jitters[attempt - 1])];
          DelayIsAsked(this, attempt, answer, jitters[attempt - 1], jitters);
          SleepsAreBounded(this, answers, jitters, sleeps);
        }
        attempt := attempt + 1;
      }
      if lastFailure.None? {
        return AssertionFailed, calls, sleeps;
      }
      return RaisedTransient(lastFailure.value), calls, sleeps;
    }
  }

  // ----- how long the loop may sleep ----------------------------------------------

  function Total(sleeps: seq<real>): real {
    if sleeps == [] then 0.0 else Total(sleeps[..|sleeps| - 1]) + sleeps[|sleeps| - 1]
  }

  /** The sleeps of a run: one delay for each retryable failure but the last. */
  ghost predicate SleepsOf<T>(p: RetryPolicy, answers: seq<Answer<T>>, jitters: seq<real>, sleeps: seq<real>) {
    && |sleeps| <= |answers| && |sleeps| <= |jitters|
    && forall i | 0 <= i < |sleeps| ::
      && 0.0 <= jitters[i] <= 1.0
      && RetryableFailure(answers[i]).Some?
      && sleeps[i] == p.DelayForAttempt(i + 1, RetryableFailure(answers[i]).value, jitters[i])
  }

  lemma JitterBound(backoff: real, jitter: real)
    requires 0.0 <= backoff && 0.0 <= jitter <= 1.0
    ensures backoff <= backoff + Times(jitter, backoff * 0.5) <= 1.5 * backoff
    ensures jitter == 0.0 ==> Times(jitter, backoff * 0.5) == 0.0
    ensures jitter == 1.0 ==> Times(jitter, backoff * 0.5) == backoff * 0.5
  {
    assert jitter * (backoff * 0.5) <= 1.0 * (backoff * 0.5);
  }

  lemma TimesNonNegative(a: real, b: real)
    requires a >= 0.0 && b >= 0.0
    ensures Times(a, b) >= 0.0
  {
  }

  lemma DelayBounds(p: RetryPolicy, attempt: nat, retryAfter: RetryAfter, jitter: real)
    requires attempt >= 1 && 0.0 <= p.baseDelay && 0.0 <= p.maxDelay && 0.0 <= jitter <= 1.0
    ensures p.DelayForAttempt(attempt, retryAfter, jitter) <= 1.5 * p.maxDelay
    ensures retryAfter.None? ==>
              p.DelayForAttempt(attempt, retryAfter, jitter) <= 1.5 * Times(p.baseDelay, Power2(attempt - 1))
  {
    TimesNonNegative(p.baseDelay, Power2(attempt - 1));
    hide Times, Power2;
    JitterBound(Min(Times(p.baseDelay, Power2(attempt - 1)), p.maxDelay), jitter);
  }

  /** Where the loop stops, `Final` is what it ends with. */
  lemma EndsHere<T>(p: RetryPolicy, answers: seq<Answer<T>>)
    requires 1 <= |answers| <= p.maxAttempts && forall i | 0 <= i < |answers| - 1 :: RetryableFailure(answers[i]).Some?
    ensures RetryableFailure(answers[|answers| - 1]).None? || |answers| == p.maxAttempts ==>
              Ended(p.maxAttempts, answers, p.Final(answers[|answers| - 1]))
  {
  }

  lemma DelayIsAsked<T>(p: RetryPolicy, attempt: nat, a: Answer<T>, jitter: real, jitters: seq<real>)
    requires attempt >= 1 && RetryableFailure(a).Some? && jitter in jitters
    ensures Regular(p, jitters) ==>
              SleepsAfter(p, a, Times(p.baseDelay, Power2(attempt - 1)), jitter, p.DelayForAttempt(attempt, RetryableFailure(a).value, jitter))
  {
    var backoff := Times(p.baseDelay, Power2(attempt - 1));
    if Regular(p, jitters) {
      TimesNonNegative(p.baseDelay, Power2(attempt - 1));
      hide Times, Power2;
      JitterBound(Min(backoff, p.maxDelay), jitter);
    }
  }

  lemma LastSleep<T>(p: RetryPolicy, answers: seq<Answer<T>>, jitters: seq<real>, sleeps: seq<real>)
    requires SleepsOf(p, answers, jitters, sleeps) && sleeps != [] && 0.0 <= p.baseDelay && 0.0 <= p.maxDelay
    ensures var k := |sleeps| - 1;
            && SleepsOf(p, answers, jitters, sleeps[..k]) && sleeps[k] <= 1.5 * p.maxDelay
            && (RetryableFailure(answers[k]) == Some(None) ==> sleeps[k] <= 1.5 * Times(p.baseDelay, Power2(k)))
  {
    hide RetryPolicy.DelayForAttempt, Times, Power2;
    var k := |sleeps| - 1;
    DelayBounds(p, k + 1, RetryableFailure(answers[k]).value, jitters[k]);
  }

  lemma OneMoreDelay(k: real, m: real)
    ensures Times(k + 1.0, m) == Times(k, m) + m
  {
  }

  /** After k calls the loop has slept at most 1.5 (k - 1) max_delay in all. */
  lemma {:induction false} TotalSleepBound<T>(p: RetryPolicy, answers: seq<Answer<T>>, jitters: seq<real>, sleeps: seq<real>)
    requires SleepsOf(p, answers, jitters, sleeps) && 0.0 <= p.baseDelay && 0.0 <= p.maxDelay
    ensures Total(sleeps) <= 1.5 * Times(|sleeps| as real, p.maxDelay)
  {
    if sleeps != [] {
      hide SleepsOf, Times;
      var k := |sleeps| - 1;
      LastSleep(p, answers, jitters, sleeps);
      TotalSleepBound(p, answers, jitters, sleeps[..k]);
      OneMoreDelay(k as real, p.maxDelay);
      assert |sleeps| as real == k as real + 1.0;
    }
  }

  lemma OneMoreDoubling(b: real, n: nat)
    ensures Times(b, Power2(n + 1) - 1.0) == Times(b, Power2(n) - 1.0) + Times(b, Power2(n))
  {
    var x := Power2(n);
    assert b * (2.0 * x - 1.0) == b * (x - 1.0) + b * x;
  }

  /** When no failure carries a Retry-After, the backoff doubles at most: the total is
      at most 1.5 base (2^(k - 1) - 1). */
  lemma {:induction false} ExponentialSleepBound<T>(p: RetryPolicy, answers: seq<Answer<T>>, jitters: seq<real>, sleeps: seq<real>)
    requires SleepsOf(p, answers, jitters, sleeps) && 0.0 <= p.baseDelay && 0.0 <= p.maxDelay
    requires forall i | 0 <= i < |sleeps| :: RetryableFailure(answers[i]) == Some(None)
    ensures Total(sleeps) <= 1.5 * Times(p.baseDelay, Power2(|sleeps|) - 1.0)
  {
    if sleeps != [] {
      hide SleepsOf, Times, Power2;
      var k := |sleeps| - 1;
      LastSleep(p, answers, jitters, sleeps);
      ExponentialSleepBound(p, answers, jitters, sleeps[..k]);
      OneMoreDoubling(p.baseDelay, k);
      assert |sleeps| == k + 1;
    }
  }

  /** Delays are not negative, and each jitter lies in its range. */
  predicate Regular(p: RetryPolicy, jitters: seq<real>) {
    0.0 <= p.baseDelay && 0.0 <= p.maxDelay && forall i | 0 <= i < |jitters| :: 0.0 <= jitters[i] <= 1.0
  }

  /** The bounds on the sum of the sleeps. */
  predicate SleepBounded<T>(p: RetryPolicy, answers: seq<Answer<T>>, jitters: seq<real>, sleeps: seq<real>)
    requires |sleeps| <= |answers|
  {
    Regular(p, jitters) ==>
      && Total(sleeps) <= 1.5 * Times(|sleeps| as real, p.maxDelay)
      && ((forall i | 0 <= i < |sleeps| :: RetryableFailure(answers[i]) == Some(None)) ==>
            Total(sleeps) <= 1.5 * Times(p.baseDelay, Power2(|sleeps|) - 1.0))
  }

  lemma NoSleep<T>(p: RetryPolicy, answers: seq<Answer<T>>, jitters: seq<real>)
    ensures SleepBounded(p, answers, jitters, [])
  {
  }

  lemma SleepsAreBounded<T>(p: RetryPolicy, answers: seq<Answer<T>>, jitters: seq<real>, sleeps: seq<real>)
    requires |sleeps| <= |answers| && |sleeps| <= |jitters|
    requires forall i | 0 <= i < |sleeps| ::
               RetryableFailure(answers[i]).Some?
               && sleeps[i] == p.DelayForAttempt(i + 1, RetryableFailure(answers[i]).value, jitters[i])
    ensures SleepBounded(p, answers, jitters, sleeps)
  {
    hide Total, Times, Power2, RetryPolicy.DelayForAttempt;
    if Regular(p, jitters) {
      TotalSleepBound(p, answers, jitters, sleeps);
      if forall i | 0 <= i < |sleeps| :: RetryableFailure(answers[i]) == Some(None) {
        ExponentialSleepBound(p, answers, jitters, sleeps);
      }
    }
  }
}
