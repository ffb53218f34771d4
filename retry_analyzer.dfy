/** RetryAnalyzer: TestNG asks it, after each failure of a test method, whether
    to run that method again. It keeps one counter and grants a retry while the
    counter is below the configured test.retry.count. */
module Retry {
  import opened JavaLang
  import opened Config

  /** The answer to one retry() call and the counter after it. */
  datatype Decision = Decision(retry: bool, count: int)

  /** One retry() call on counter `count` with maximum `max`. */
  function Decide(count: int, max: int): Decision {
    if count < max then Decision(true, count + 1) else Decision(false, count)
  }

  /** The answers of n consecutive calls, starting from `count`, with the
      maximum fixed at `max`. */
  function Answers(count: int, max: int, n: nat): seq<bool>
    decreases n
  {
    if n == 0 then []
    else
      var d := Decide(count, max);
      [d.retry] + Answers(d.count, max, n - 1)
  }

  /** The counter after n consecutive calls. */
  function CountAfter(count: int, max: int, n: nat): int
    decreases n
  {
    if n == 0 then count else CountAfter(Decide(count, max).count, max, n - 1)
  }

  /** How many retries are left to grant. */
  function Remaining(count: int, max: int): nat {
    if count < max then max - count else 0
  }

  function Min(a: int, b: int): int {
    if a <= b then a else b
  }

  /** The first Remaining(count, max) calls answer true and every later call
      answers false. */
  lemma {:induction false} AnswersGrantRemaining(count: int, max: int, n: nat)
    ensures |Answers(count, max, n)| == n
    ensures forall i :: 0 <= i < n ==> (Answers(count, max, n)[i] <==> i < Remaining(count, max))
    decreases n
  {
    if n > 0 {
      var d := Decide(count, max);
      AnswersGrantRemaining(d.count, max, n - 1);
      var rest := Answers(d.count, max, n - 1);
      assert Answers(count, max, n) == [d.retry] + rest;
      forall i | 0 <= i < n
        ensures Answers(count, max, n)[i] <==> i < Remaining(count, max)
      {
        if i > 0 {
          assert Answers(count, max, n)[i] == rest[i - 1];
        }
      }
    }
  }

  /** After n calls the counter has grown by exactly the retries granted. */
  lemma {:induction false} CountAfterGranted(count: int, max: int, n: nat)
    ensures CountAfter(count, max, n) == count + Min(n, Remaining(count, max))
    decreases n
  {
    if n > 0 {
      CountAfterGranted(Decide(count, max).count, max, n - 1);
    }
  }

  /** The counter never decreases, and once started at or below the maximum it
      never passes it. */
  lemma CountStaysInRange(count: int, max: int, n: nat)
    ensures count <= CountAfter(count, max, n)
    ensures count <= max ==> CountAfter(count, max, n) <= max
  {
    CountAfterGranted(count, max, n);
  }

  /** A fresh analyzer with maximum m >= 0 answers min(n, m) times true and then
      only false. */
  lemma FreshAnalyzerAnswers(max: int, n: nat)
    requires max >= 0
    ensures forall i :: 0 <= i < |Answers(0, max, n)| ==> (Answers(0, max, n)[i] <==> i < Min(n, max))
    ensures |Answers(0, max, n)| == n
    ensures CountAfter(0, max, n) == Min(n, max)
  {
    AnswersGrantRemaining(0, max, n);
    CountAfterGranted(0, max, n);
  }

  /** With test.retry.count = 2 a test that keeps failing is retried twice. */
  lemma TwoRetriesThenStop()
    ensures Answers(0, 2, 3) == [true, true, false]
  {
    AnswersGrantRemaining(0, 2, 3);
  }

  /** A maximum of zero or less never grants a retry to a fresh analyzer and
      leaves its counter at zero. */
  lemma NonPositiveMaxNeverRetries(max: int, n: nat)
    requires max <= 0
    ensures forall i :: 0 <= i < |Answers(0, max, n)| ==> !Answers(0, max, n)[i]
    ensures CountAfter(0, max, n) == 0
  {
    AnswersGrantRemaining(0, max, n);
    CountAfterGranted(0, max, n);
  }

  /** The counter only moves while it is below a maximum that is itself a Java
      int, so retryCount++ cannot wrap around. */
  lemma RetryCountNeverWraps(count: int, max: int)
    requires IsInt(count) && IsInt(max)
    ensures IsInt(Decide(count, max).count)
  {
  }

  class RetryAnalyzer {
    /** The ConfigManager instance taken when the analyzer is created. */
    const config: ConfigManager
    var retryCount: int

    constructor (config: ConfigManager)
      ensures this.config == config && retryCount == 0
    {
      this.config := config;
      retryCount := 0;
    }

    /** retry(result): reads test.retry.count at call time and grants a retry
        iff the counter is below it, counting the retry. */
    method Retry(sys: SystemProperties) returns (r: bool)
      modifies this
      ensures var max := RetryCount(View(sys.props, config.properties));
        (r <==> old(retryCount) < max) &&
        retryCount == (if r then old(retryCount) + 1 else old(retryCount)) &&
        Decision(r, retryCount) == Decide(old(retryCount), max)
    {
      var maxRetryCount := RetryCount(View(sys.props, config.properties));
      if retryCount < maxRetryCount {
        retryCount := retryCount + 1;
        return true;
      }
      return false;
    }
  }
}
