/**
 * The behaviours the repository's tests pin down (tests.py), stated about
 * every `Retry` object configured as the test configures it and every run
 * of its `call` loop.
 */
module RetrrryScenarios {
  import opened Wrappers
  import opened Outcomes
  import opened Retrrry

  /** The Python values the tests' units of work return. */
  datatype PyValue = PyNone | PyBool(b: bool) | PyInt(i: int)

  /** `retry_if_result_none`. */
  function IsNone(v: PyValue): bool { v == PyNone }

  /** `lambda x: x == 1`. */
  function IsOne(v: PyValue): bool { v == PyInt(1) }

  /** `IOError(...)`; in Python 3 `IOError` is another name for `OSError`. */
  const IOErrorRaised := PyException("OSError", {"Exception", "BaseException"}, "Hi there, I'm an IOError")

  /** `NameError(...)`. */
  const NameErrorRaised := PyException("NameError", {"Exception", "BaseException"}, "Hi there, I'm a NameError")

  /** `retry_on_exception=(IOError,)`. */
  const RetryOnIOError := Some(ExceptionTypes({"OSError"}))

  /** `retry_on_exception=retry_if_exception_of_type(IOError)`, a predicate given by the caller. */
  const RetryIfIOError := Some(ExceptionPredicate(RetryIfExceptionOfType({"OSError"})))

  // ---------------------------------------------------------------- waits

  /** `Retry(wait_incrementing_start=500, wait_incrementing_increment=100)` waits 500, 600, 700. */
  lemma IncrementingWaits(retry: Retry<PyValue>, draw: int)
    requires retry.ConfiguredBy(DefaultOptions().(waitIncrementingStart := Some(500), waitIncrementingIncrement := Some(100)))
    ensures retry.WaitWith(1, 6546, draw) == Ok(500)
    ensures retry.WaitWith(2, 6546, draw) == Ok(600)
    ensures retry.WaitWith(3, 6546, draw) == Ok(700)
  {
    var opts := DefaultOptions<PyValue>().(waitIncrementingStart := Some(500), waitIncrementingIncrement := Some(100));
    assert ConfiguredSleeps(opts) == [Incrementing];
    retry.SingleSleepWait(opts, Incrementing, 1, 6546, draw);
    retry.SingleSleepWait(opts, Incrementing, 2, 6546, draw);
    retry.SingleSleepWait(opts, Incrementing, 3, 6546, draw);
  }

  /** `Retry(wait_exponential_max=40)` waits 2, 4, 8, 16, 32, then 40 for good. */
  lemma ExponentialWaitsCappedAtForty(retry: Retry<PyValue>, draw: int, n: int)
    requires retry.ConfiguredBy(DefaultOptions().(waitExponentialMax := Some(40)))
    ensures retry.WaitWith(1, 0, draw) == Ok(2)
    ensures retry.WaitWith(2, 0, draw) == Ok(4)
    ensures retry.WaitWith(3, 0, draw) == Ok(8)
    ensures retry.WaitWith(4, 0, draw) == Ok(16)
    ensures retry.WaitWith(5, 0, draw) == Ok(32)
    ensures n >= 6 ==> retry.WaitWith(n, 0, draw) == Ok(40)
  {
    var opts := DefaultOptions<PyValue>().(waitExponentialMax := Some(40));
    assert ConfiguredSleeps(opts) == [Exponential];
    forall k | 1 <= k <= 5 || k == n
      ensures retry.WaitWith(k, 0, draw) == Ok(retry.ExponentialSleep(k, 0))
    {
      retry.SingleSleepWait(opts, Exponential, k, 0, draw);
    }
    assert TwoPow(5) == 32;
    if n >= 6 {
      assert TwoPow(6) == 64;
      TwoPowMonotone(6, n);
    }
  }

  /** `Retry(wait_exponential_max=50000, wait_exponential_multiplier=1000)` waits 2000, ..., 32000, then 50000. */
  lemma ExponentialWaitsWithMultiplier(retry: Retry<PyValue>, draw: int, n: int)
    requires retry.ConfiguredBy(DefaultOptions().(waitExponentialMax := Some(50000), waitExponentialMultiplier := Some(1000)))
    ensures retry.WaitWith(1, 0, draw) == Ok(2000)
    ensures retry.WaitWith(2, 0, draw) == Ok(4000)
    ensures retry.WaitWith(3, 0, draw) == Ok(8000)
    ensures retry.WaitWith(4, 0, draw) == Ok(16000)
    ensures retry.WaitWith(5, 0, draw) == Ok(32000)
    ensures n >= 6 ==> retry.WaitWith(n, 0, draw) == Ok(50000)
  {
    var opts := DefaultOptions<PyValue>().(waitExponentialMax := Some(50000), waitExponentialMultiplier := Some(1000));
    assert ConfiguredSleeps(opts) == [Exponential];
    forall k | 1 <= k <= 5 || k == n
      ensures retry.WaitWith(k, 0, draw) == Ok(retry.ExponentialSleep(k, 0))
    {
      retry.SingleSleepWait(opts, Exponential, k, 0, draw);
    }
    assert TwoPow(5) == 32;
    if n >= 6 {
      assert TwoPow(6) == 64;
      TwoPowMonotone(6, n);
    }
  }

  /** `Retry(wait_random_min=1000, wait_random_max=2000)` waits between 1000 and 2000 inclusive. */
  lemma RandomWaitsBetweenBounds(retry: Retry<PyValue>, draw: int)
    requires retry.ConfiguredBy(DefaultOptions().(waitRandomMin := Some(1000), waitRandomMax := Some(2000)))
    requires retry.RandomDrawOk(draw)
    ensures retry.WaitWith(1, 6546, draw).Ok?
    ensures 1000 <= retry.WaitWith(1, 6546, draw).value <= 2000
  {
    var opts := DefaultOptions<PyValue>().(waitRandomMin := Some(1000), waitRandomMax := Some(2000));
    assert ConfiguredSleeps(opts) == [Random];
    retry.RandomWaitInRange(opts, 1, 6546, draw);
  }

  /** `Retry(wait_random_min=2000)` keeps the default maximum 1000, so every wait raises `ValueError`. */
  lemma RandomMinAboveDefaultMax(retry: Retry<PyValue>, previousAttemptNumber: int, delay: int, draw: int)
    requires retry.ConfiguredBy(DefaultOptions().(waitRandomMin := Some(2000)))
    ensures retry.WaitWith(previousAttemptNumber, delay, draw) == Err(EmptyRangeError)
  {
    var opts := DefaultOptions<PyValue>().(waitRandomMin := Some(2000));
    assert ConfiguredSleeps(opts) == [Random];
    retry.SingleSleepWait(opts, Random, previousAttemptNumber, delay, draw);
  }

  /**
   * The source's `exponential_sleep` under `Retry(wait_exponential_max=40)`:
   * attempt 1023 waits the cap, attempt 1024 raises `OverflowError` from
   * `math.pow`, where the exact computation keeps waiting the cap.
   */
  lemma ExponentialOverflowCounterexample(retry: Retry<PyValue>, delay: int)
    requires retry.ConfiguredBy(DefaultOptions().(waitExponentialMax := Some(40)))
    ensures retry.ExponentialSleepAsWritten(1023, delay) == Ok(40)
    ensures retry.ExponentialSleepAsWritten(1024, delay) == Err(MathRangeError)
    ensures retry.ExponentialSleep(1024, delay) == 40
  {
    assert TwoPow(6) == 64;
    TwoPowMonotone(6, 1023);
    TwoPowMonotone(6, 1024);
  }

  // ---------------------------------------------------------------- calls

  /**
   * `_retryable_test_with_stop(NoneReturnUntilAfterCount(5))`: the value
   * `None` is retried, the third attempt hits `stop_max_attempt_number=3`, and
   * the `RetryError` carries attempt 3 holding `None`.
   */
  lemma StopOnReturnValue(retry: Retry<PyValue>, work: nat -> Outcome<PyValue>, clock: nat -> int,
                          r: CallResult<PyValue>, sleeps: seq<int>, draws: seq<Draw>)
    requires retry.ConfiguredBy(DefaultOptions().(stopMaxAttemptNumber := Some(3), retryOnResult := Some(IsNone)))
    requires forall n :: 1 <= n <= 5 ==> work(n) == Value(PyNone)
    requires retry.IsRunOf(work, clock, r, sleeps, draws)
    ensures r == RetryErrorRaised(RetryError(Attempt(Value(PyNone), 3)))
    ensures sleeps == [0, 0]
  {
    var opts := DefaultOptions<PyValue>().(stopMaxAttemptNumber := Some(3), retryOnResult := Some(IsNone));
    assert ConfiguredStops(opts) == [AfterAttempt];
    assert ConfiguredSleeps(opts) == [];
    assert retry.Settle(work, clock, 1).None?;
    assert retry.Settle(work, clock, 2).None?;
    forall k, draw | 1 <= k <= 2 && retry.DrawOk(draw)
      ensures retry.SleepFor(k, clock(k), draw) == Ok(0)
    {
      retry.NoWaitOptionsNeverSleep(opts, k, clock(k), draw.random);
    }
    retry.RunEndsAt(work, clock, r, sleeps, draws, 3);
  }

  /**
   * The same configuration with `lambda x: x == 1` and a unit of work that
   * returns 1: the `RetryError` carries attempt 3 holding 1.
   */
  lemma StopOnReturnValueLambda(retry: Retry<PyValue>, work: nat -> Outcome<PyValue>, clock: nat -> int,
                                r: CallResult<PyValue>, sleeps: seq<int>, draws: seq<Draw>)
    requires retry.ConfiguredBy(DefaultOptions().(stopMaxAttemptNumber := Some(3), retryOnResult := Some(IsOne)))
    requires forall n :: 1 <= n <= 5 ==> work(n) == Value(PyInt(1))
    requires retry.IsRunOf(work, clock, r, sleeps, draws)
    ensures r == RetryErrorRaised(RetryError(Attempt(Value(PyInt(1)), 3)))
    ensures |sleeps| == 2
  {
    var opts := DefaultOptions<PyValue>().(stopMaxAttemptNumber := Some(3), retryOnResult := Some(IsOne));
    assert ConfiguredStops(opts) == [AfterAttempt];
    assert ConfiguredSleeps(opts) == [];
    assert retry.Settle(work, clock, 1).None?;
    assert retry.Settle(work, clock, 2).None?;
    forall k, draw | 1 <= k <= 2 && retry.DrawOk(draw)
      ensures retry.SleepFor(k, clock(k), draw) == Ok(0)
    {
      retry.NoWaitOptionsNeverSleep(opts, k, clock(k), draw.random);
    }
    retry.RunEndsAt(work, clock, r, sleeps, draws, 3);
  }

  /**
   * `_retryable_test_with_stop(NoIOErrorAfterCount(5))`: every exception is
   * retried by default, and when the stop fires on attempt 3 the `IOError`
   * itself is raised, not a `RetryError`.
   */
  lemma StopOnException(retry: Retry<PyValue>, work: nat -> Outcome<PyValue>, clock: nat -> int,
                        r: CallResult<PyValue>, sleeps: seq<int>, draws: seq<Draw>)
    requires retry.ConfiguredBy(DefaultOptions().(stopMaxAttemptNumber := Some(3), retryOnResult := Some(IsNone)))
    requires forall n :: 1 <= n <= 5 ==> work(n) == Failure(IOErrorRaised)
    requires retry.IsRunOf(work, clock, r, sleeps, draws)
    ensures r == Raised(IOErrorRaised)
    ensures |sleeps| == 2
  {
    var opts := DefaultOptions<PyValue>().(stopMaxAttemptNumber := Some(3), retryOnResult := Some(IsNone));
    assert ConfiguredStops(opts) == [AfterAttempt];
    assert ConfiguredSleeps(opts) == [];
    assert retry.Settle(work, clock, 1).None?;
    assert retry.Settle(work, clock, 2).None?;
    forall k, draw | 1 <= k <= 2 && retry.DrawOk(draw)
      ensures retry.SleepFor(k, clock(k), draw) == Ok(0)
    {
      retry.NoWaitOptionsNeverSleep(opts, k, clock(k), draw.random);
    }
    retry.RunEndsAt(work, clock, r, sleeps, draws, 3);
  }

  /**
   * `_retryable_test_with_exception_type_io_attempt_limit_wrap`: with
   * `wrap_exception=True` the give-up raises a `RetryError` whose last attempt
   * is number 3 and holds the `IOError`.
   */
  lemma StopOnExceptionWrapped(retry: Retry<PyValue>, work: nat -> Outcome<PyValue>, clock: nat -> int,
                               r: CallResult<PyValue>, sleeps: seq<int>, draws: seq<Draw>)
    requires retry.ConfiguredBy(DefaultOptions().(stopMaxAttemptNumber := Some(3), retryOnException := RetryOnIOError, wrapException := true))
    requires forall n :: 1 <= n <= 5 ==> work(n) == Failure(IOErrorRaised)
    requires retry.IsRunOf(work, clock, r, sleeps, draws)
    ensures r == RetryErrorRaised(RetryError(Attempt(Failure(IOErrorRaised), 3)))
    ensures |sleeps| == 2
  {
    var opts := DefaultOptions<PyValue>().(stopMaxAttemptNumber := Some(3), retryOnException := RetryOnIOError, wrapException := true);
    assert ConfiguredStops(opts) == [AfterAttempt];
    assert ConfiguredSleeps(opts) == [];
    assert IOErrorRaised.IsInstanceOf({"OSError"});
    assert retry.Settle(work, clock, 1).None?;
    assert retry.Settle(work, clock, 2).None?;
    forall k, draw | 1 <= k <= 2 && retry.DrawOk(draw)
      ensures retry.SleepFor(k, clock(k), draw) == Ok(0)
    {
      retry.NoWaitOptionsNeverSleep(opts, k, clock(k), draw.random);
    }
    retry.RunEndsAt(work, clock, r, sleeps, draws, 3);
  }

  /**
   * `_retryable_test_with_exception_type_io(NoNameErrorAfterCount(5))`: a
   * `NameError` is not an `IOError`, so the first attempt is accepted and its
   * exception propagates without any retry.
   */
  lemma UnlistedExceptionPropagates(retry: Retry<PyValue>, work: nat -> Outcome<PyValue>, clock: nat -> int,
                                    r: CallResult<PyValue>, sleeps: seq<int>, draws: seq<Draw>)
    requires retry.ConfiguredBy(DefaultOptions().(retryOnException := RetryOnIOError))
    requires work(1) == Failure(NameErrorRaised)
    requires retry.IsRunOf(work, clock, r, sleeps, draws)
    ensures r == Raised(NameErrorRaised)
    ensures sleeps == []
  {
    assert !NameErrorRaised.IsInstanceOf({"OSError"});
    assert retry.Settle(work, clock, 1).Some?;
  }

  /**
   * `_retryable_test_with_exception_type_io_wrap(NoNameErrorAfterCount(5))`:
   * the accepted `NameError` is wrapped, so the call raises a `RetryError`
   * carrying attempt 1.
   */
  lemma UnlistedExceptionWrapped(retry: Retry<PyValue>, work: nat -> Outcome<PyValue>, clock: nat -> int,
                                 r: CallResult<PyValue>, sleeps: seq<int>, draws: seq<Draw>)
    requires retry.ConfiguredBy(DefaultOptions().(retryOnException := RetryIfIOError, wrapException := true))
    requires work(1) == Failure(NameErrorRaised)
    requires retry.IsRunOf(work, clock, r, sleeps, draws)
    ensures r == RetryErrorRaised(RetryError(Attempt(Failure(NameErrorRaised), 1)))
    ensures sleeps == []
  {
    assert !NameErrorRaised.IsInstanceOf({"OSError"});
    assert retry.Settle(work, clock, 1).Some?;
  }

  /**
   * `_retryable_test_with_wait(NoneReturnUntilAfterCount(5))`: five `None`
   * results, each followed by a 50 ms sleep, then `True`; the sleeps add up
   * to 250 ms.
   */
  lemma FixedWaitBetweenAttempts(retry: Retry<PyValue>, work: nat -> Outcome<PyValue>, clock: nat -> int,
                                 r: CallResult<PyValue>, sleeps: seq<int>, draws: seq<Draw>)
    requires retry.ConfiguredBy(DefaultOptions().(waitFixed := Some(50), retryOnResult := Some(IsNone)))
    requires forall n :: 1 <= n <= 5 ==> work(n) == Value(PyNone)
    requires work(6) == Value(PyBool(true))
    requires retry.IsRunOf(work, clock, r, sleeps, draws)
    ensures r == Returned(PyBool(true))
    ensures sleeps == [50, 50, 50, 50, 50]
  {
    var opts := DefaultOptions<PyValue>().(waitFixed := Some(50), retryOnResult := Some(IsNone));
    assert ConfiguredStops(opts) == [];
    assert ConfiguredSleeps(opts) == [Fixed];
    forall k | 1 <= k <= 5
      ensures retry.Settle(work, clock, k).None?
    {
      retry.NoStopOptionsNeverStop(opts, k, clock(k));
    }
    forall k, draw | 1 <= k <= 5 && retry.DrawOk(draw)
      ensures retry.SleepFor(k, clock(k), draw) == Ok(50)
    {
      retry.FixedWaitAlone(opts, k, clock(k), draw.random);
    }
    retry.RunEndsAt(work, clock, r, sleeps, draws, 6);
    retry.RunSleepsAre(work, clock, r, sleeps, draws, 50);
  }

  /**
   * `_retryable_default(NoNameErrorAfterCount(5))`: `Retry()` retries every
   * exception, never stops and never sleeps, so the sixth attempt's `True`
   * is returned after five zero-length sleeps.
   */
  lemma DefaultsRetryUntilSuccess(retry: Retry<PyValue>, work: nat -> Outcome<PyValue>, clock: nat -> int,
                                  r: CallResult<PyValue>, sleeps: seq<int>, draws: seq<Draw>)
    requires retry.ConfiguredBy(DefaultOptions())
    requires forall n :: 1 <= n <= 5 ==> work(n) == Failure(NameErrorRaised)
    requires work(6) == Value(PyBool(true))
    requires retry.IsRunOf(work, clock, r, sleeps, draws)
    ensures r == Returned(PyBool(true))
    ensures sleeps == [0, 0, 0, 0, 0]
  {
    var opts := DefaultOptions<PyValue>();
    assert ConfiguredStops(opts) == [];
    assert ConfiguredSleeps(opts) == [];
    forall k | 1 <= k <= 5
      ensures retry.Settle(work, clock, k).None?
    {
      retry.NoStopOptionsNeverStop(opts, k, clock(k));
    }
    forall k, draw | 1 <= k <= 5 && retry.DrawOk(draw)
      ensures retry.SleepFor(k, clock(k), draw) == Ok(0)
    {
      retry.NoWaitOptionsNeverSleep(opts, k, clock(k), draw.random);
    }
    retry.RunEndsAt(work, clock, r, sleeps, draws, 6);
    retry.RunSleepsAre(work, clock, r, sleeps, draws, 0);
  }
}
