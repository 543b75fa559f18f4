/**
 * The retry engine: the stop, wait and rejection policies of a `Retry`
 * object, the option resolution that builds them, and the `call` loop.
 *
 * Time is in milliseconds. The clock and the unit of work are oracles handed
 * to `Call`; the values that `random.randint` and `random.random` produce
 * are chosen nondeterministically within their bounds and reported back as
 * ghost draws, so that the specification functions can take them as
 * parameters.
 */
module Retrrry {
  import opened Wrappers
  import opened Outcomes

  /** The cap used when no wait maximum is configured. */
  const MaxWait := 1073741823

  /** `ValueError` raised by `random.randint(a, b)` when `a > b`. */
  const EmptyRangeError := PyException("ValueError", {"Exception", "BaseException"}, "empty range for randrange()")

  /** `ValueError` raised by `time.sleep` for a negative duration. */
  const NegativeSleepError := PyException("ValueError", {"Exception", "BaseException"}, "sleep length must be non-negative")

  /** `OverflowError` raised by `math.pow` when the result exceeds the double range. */
  const MathRangeError := PyException("OverflowError", {"ArithmeticError", "Exception", "BaseException"}, "math range error")

  function Max(a: int, b: int): int { if a < b then b else a }
  function Min(a: int, b: int): int { if a < b then a else b }

  /** The built-in stop checks: `stop_after_attempt` and `stop_after_delay`. */
  datatype StopCheck = AfterAttempt | AfterDelay

  /** The built-in sleeps: `fixed_sleep`, `random_sleep`, `incrementing_sleep`, `exponential_sleep`. */
  datatype Sleep = Fixed | Random | Incrementing | Exponential

  /**
   * What `self.stop` is bound to: a caller's `stop_func`, the OR over the
   * configured checks, or a built-in check named by the legacy `stop` option.
   */
  datatype StopPolicy =
    | CustomStop(stopFunc: (int, int) -> bool)
    | AnyOfStops(checks: seq<StopCheck>)
    | NamedStop(check: StopCheck)

  /**
   * What `self.wait` is bound to: a caller's `wait_func`, the MAX over the
   * implicit zero wait and the configured sleeps, or a built-in sleep named by
   * the legacy `wait` option.
   */
  datatype WaitPolicy =
    | CustomWait(waitFunc: (int, int) -> int)
    | MaxOfWaits(sleeps: seq<Sleep>)
    | NamedWait(sleep: Sleep)

  /** The `retry_on_exception` option: a predicate, or a tuple of exception classes. */
  datatype ExceptionFilter =
    | ExceptionPredicate(test: PyException -> bool)
    | ExceptionTypes(types: set<string>)

  /** The keyword arguments of `Retry.__init__`; `None` means "not given". */
  datatype RetryOptions<!V> = RetryOptions(
    stop: Option<StopCheck>,
    wait: Option<Sleep>,
    stopMaxAttemptNumber: Option<int>,
    stopMaxDelay: Option<int>,
    waitFixed: Option<int>,
    waitRandomMin: Option<int>,
    waitRandomMax: Option<int>,
    waitIncrementingStart: Option<int>,
    waitIncrementingIncrement: Option<int>,
    waitIncrementingMax: Option<int>,
    waitExponentialMultiplier: Option<int>,
    waitExponentialMax: Option<int>,
    retryOnException: Option<ExceptionFilter>,
    retryOnResult: Option<V -> bool>,
    wrapException: bool,
    stopFunc: Option<(int, int) -> bool>,
    waitFunc: Option<(int, int) -> int>,
    waitJitterMax: Option<int>)

  /** `Retry()` with every keyword left at its default. */
  function DefaultOptions<V>(): RetryOptions<V> {
    RetryOptions(None, None, None, None, None, None, None, None, None, None, None, None,
                 None, None, false, None, None, None)
  }

  /** The stop checks `__init__` appends to `stop_funcs`, in order. */
  function ConfiguredStops<V>(opts: RetryOptions<V>): (checks: seq<StopCheck>)
    ensures AfterAttempt in checks <==> opts.stopMaxAttemptNumber.Some?
    ensures AfterDelay in checks <==> opts.stopMaxDelay.Some?
    ensures forall i, j :: 0 <= i < j < |checks| ==> checks[i] == AfterAttempt && checks[j] == AfterDelay
  {
    (if opts.stopMaxAttemptNumber.Some? then [AfterAttempt] else [])
    + (if opts.stopMaxDelay.Some? then [AfterDelay] else [])
  }

  /** The sleeps `__init__` appends to `wait_funcs` after the zero wait, in order. */
  function ConfiguredSleeps<V>(opts: RetryOptions<V>): (sleeps: seq<Sleep>)
    ensures Fixed in sleeps <==> opts.waitFixed.Some?
    ensures Random in sleeps <==> opts.waitRandomMin.Some? || opts.waitRandomMax.Some?
    ensures Incrementing in sleeps <==> opts.waitIncrementingStart.Some? || opts.waitIncrementingIncrement.Some?
    ensures Exponential in sleeps <==> opts.waitExponentialMultiplier.Some? || opts.waitExponentialMax.Some?
    ensures |sleeps| <= 4
  {
    (if opts.waitFixed.Some? then [Fixed] else [])
    + (if opts.waitRandomMin.Some? || opts.waitRandomMax.Some? then [Random] else [])
    + (if opts.waitIncrementingStart.Some? || opts.waitIncrementingIncrement.Some? then [Incrementing] else [])
    + (if opts.waitExponentialMultiplier.Some? || opts.waitExponentialMax.Some? then [Exponential] else [])
  }

  /** `__init__`'s appends to `stop_funcs`. */
  method CollectStopChecks<V>(opts: RetryOptions<V>) returns (stopFuncs: seq<StopCheck>)
    ensures stopFuncs == ConfiguredStops(opts)
  {
    stopFuncs := [];
    if opts.stopMaxAttemptNumber.Some? {
      stopFuncs := stopFuncs + [AfterAttempt];
    }
    if opts.stopMaxDelay.Some? {
      stopFuncs := stopFuncs + [AfterDelay];
    }
  }

  /** `__init__`'s appends to `wait_funcs`, after the zero wait. */
  method CollectSleeps<V>(opts: RetryOptions<V>) returns (waitFuncs: seq<Sleep>)
    ensures waitFuncs == ConfiguredSleeps(opts)
  {
    waitFuncs := [];
    if opts.waitFixed.Some? {
      waitFuncs := waitFuncs + [Fixed];
    }
    if opts.waitRandomMin.Some? || opts.waitRandomMax.Some? {
      waitFuncs := waitFuncs + [Random];
    }
    if opts.waitIncrementingStart.Some? || opts.waitIncrementingIncrement.Some? {
      waitFuncs := waitFuncs + [Incrementing];
    }
    if opts.waitExponentialMultiplier.Some? || opts.waitExponentialMax.Some? {
      waitFuncs := waitFuncs + [Exponential];
    }
  }

  /** The default exception filter: every exception is retried. */
  function AlwaysReject(exception: PyException): bool { true }

  /** The default result filter: no returned value is retried. */
  function NeverReject<V>(result: V): bool { false }

  /** `_retry_if_exception_of_type`: the predicate a tuple of exception classes stands for. */
  function RetryIfExceptionOfType(types: set<string>): (p: PyException -> bool)
    ensures forall e :: p(e) == e.IsInstanceOf(types)
  {
    (e: PyException) => e.IsInstanceOf(types)
  }

  /**
   * `int(math.pow(2, n))` for the exponents `math.pow` can represent: powers of
   * two up to 2^1023 are exact doubles, and a negative exponent gives a
   * fraction below one that `int` truncates to 0.
   */
  function TwoPow(n: int): nat
    decreases n
  {
    if n < 0 then 0 else if n == 0 then 1 else 2 * TwoPow(n - 1)
  }

  lemma {:induction false} TwoPowMonotone(m: int, n: int)
    requires m <= n
    ensures TwoPow(m) <= TwoPow(n)
    decreases n - m
  {
    if m < n {
      TwoPowMonotone(m, n - 1);
    }
  }

  /** Clamp a computed wait to `[0, cap]` the way `incrementing_sleep` and `exponential_sleep` do. */
  function ClampWait(result: int, cap: int): (r: int)
    ensures 0 <= r <= Max(cap, 0)
    ensures 0 <= result <= cap ==> r == result
    ensures cap <= result ==> r == Max(cap, 0)
    ensures result <= 0 ==> r == 0
  {
    var capped := Min(result, cap);
    if capped > 0 then capped else 0
  }

  /** Clamping preserves order. */
  lemma ClampWaitMonotone(a: int, b: int, cap: int)
    requires a <= b
    ensures ClampWait(a, cap) <= ClampWait(b, cap)
  {
  }

  /** Scaling by a non-negative factor preserves order. */
  lemma ScaleMonotone(k: int, x: int, y: int)
    requires 0 <= k && x <= y
    ensures k * x <= k * y
  {
    assert k * y - k * x == k * (y - x);
  }

  /** A negative factor times a natural number is not positive. */
  lemma ScaleNonPositive(k: int, x: nat)
    requires k < 0
    ensures k * x <= 0
  {
  }

  /** No stop-related keyword was given: `Retry()` as far as stopping goes. */
  ghost predicate NoStopOptions<V>(opts: RetryOptions<V>) {
    opts.stop.None? && opts.stopFunc.None? && opts.stopMaxAttemptNumber.None? && opts.stopMaxDelay.None?
  }

  /** Neither a `wait_func` nor a legacy `wait` name was given, so the composite wait is used. */
  ghost predicate CompositeWaitOptions<V>(opts: RetryOptions<V>) {
    opts.wait.None? && opts.waitFunc.None?
  }

  /** The random and jitter values one wait consumed. */
  datatype Draw = Draw(random: int, jitter: int)

  class Retry<V> {
    const stopMaxAttemptNumber: int
    const stopMaxDelay: int
    const waitFixed: int
    const waitRandomMin: int
    const waitRandomMax: int
    const waitIncrementingStart: int
    const waitIncrementingIncrement: int
    const waitIncrementingMax: int
    const waitExponentialMultiplier: int
    const waitExponentialMax: int
    const waitJitterMax: int
    const stop: StopPolicy
    const wait: WaitPolicy
    const retryOnException: PyException -> bool
    const retryOnResult: V -> bool
    const wrapException: bool

    /** The configuration `Retry(**opts)` resolves to. */
    ghost predicate ConfiguredBy(opts: RetryOptions<V>) {
      && stopMaxAttemptNumber == opts.stopMaxAttemptNumber.GetOr(5)
      && stopMaxDelay == opts.stopMaxDelay.GetOr(100)
      && waitFixed == opts.waitFixed.GetOr(1000)
      && waitRandomMin == opts.waitRandomMin.GetOr(0)
      && waitRandomMax == opts.waitRandomMax.GetOr(1000)
      && waitIncrementingStart == opts.waitIncrementingStart.GetOr(0)
      && waitIncrementingIncrement == opts.waitIncrementingIncrement.GetOr(100)
      && waitIncrementingMax == opts.waitIncrementingMax.GetOr(MaxWait)
      && waitExponentialMultiplier == opts.waitExponentialMultiplier.GetOr(1)
      && waitExponentialMax == opts.waitExponentialMax.GetOr(MaxWait)
      && waitJitterMax == opts.waitJitterMax.GetOr(0)
      && stop == (if opts.stopFunc.Some? then CustomStop(opts.stopFunc.value)
                  else if opts.stop.None? then AnyOfStops(ConfiguredStops(opts))
                  else NamedStop(opts.stop.value))
      && wait == (if opts.waitFunc.Some? then CustomWait(opts.waitFunc.value)
                  else if opts.wait.None? then MaxOfWaits(ConfiguredSleeps(opts))
                  else NamedWait(opts.wait.value))
      && retryOnException == (match opts.retryOnException
                              case None => AlwaysReject
                              case Some(ExceptionTypes(types)) => RetryIfExceptionOfType(types)
                              case Some(ExceptionPredicate(p)) => p)
      && retryOnResult == (if opts.retryOnResult.None? then NeverReject<V> else opts.retryOnResult.value)
      && wrapException == opts.wrapException
    }

    /** `Retry.__init__`: resolve defaults and build the composite stop and wait. */
    constructor (opts: RetryOptions<V>)
      ensures ConfiguredBy(opts)
    {
      stopMaxAttemptNumber := opts.stopMaxAttemptNumber.GetOr(5);
      stopMaxDelay := opts.stopMaxDelay.GetOr(100);
      waitFixed := opts.waitFixed.GetOr(1000);
      waitRandomMin := opts.waitRandomMin.GetOr(0);
      waitRandomMax := opts.waitRandomMax.GetOr(1000);
      waitIncrementingStart := opts.waitIncrementingStart.GetOr(0);
      waitIncrementingIncrement := opts.waitIncrementingIncrement.GetOr(100);
      waitExponentialMultiplier := opts.waitExponentialMultiplier.GetOr(1);
      waitExponentialMax := opts.waitExponentialMax.GetOr(MaxWait);
      waitIncrementingMax := opts.waitIncrementingMax.GetOr(MaxWait);
      waitJitterMax := opts.waitJitterMax.GetOr(0);

      var stopFuncs := CollectStopChecks(opts);
      if opts.stopFunc.Some? {
        stop := CustomStop(opts.stopFunc.value);
      } else if opts.stop.None? {
        stop := AnyOfStops(stopFuncs);
      } else {
        stop := NamedStop(opts.stop.value);
      }

      var waitFuncs := CollectSleeps(opts);
      if opts.waitFunc.Some? {
        wait := CustomWait(opts.waitFunc.value);
      } else if opts.wait.None? {
        wait := MaxOfWaits(waitFuncs);
      } else {
        wait := NamedWait(opts.wait.value);
      }

      var onException: PyException -> bool := match opts.retryOnException
        case None => AlwaysReject
        case Some(ExceptionTypes(types)) => RetryIfExceptionOfType(types)
        case Some(ExceptionPredicate(p)) => p;
      retryOnException := onException;
      if opts.retryOnResult.None? {
        retryOnResult := NeverReject<V>;
      } else {
        retryOnResult := opts.retryOnResult.value;
      }
      wrapException := opts.wrapException;
    }

    // ---------------------------------------------------------------- stop

    /** `stop_after_attempt`: the previous attempt number has reached the maximum. */
    function StopAfterAttempt(previousAttemptNumber: int, delaySinceFirstAttemptMs: int): bool {
      previousAttemptNumber >= stopMaxAttemptNumber
    }

    /** `stop_after_delay`: the time since the first attempt has reached the maximum. */
    function StopAfterDelay(previousAttemptNumber: int, delaySinceFirstAttemptMs: int): bool {
      delaySinceFirstAttemptMs >= stopMaxDelay
    }

    function StopCheckHolds(check: StopCheck, previousAttemptNumber: int, delaySinceFirstAttemptMs: int): bool {
      match check
      case AfterAttempt => StopAfterAttempt(previousAttemptNumber, delaySinceFirstAttemptMs)
      case AfterDelay => StopAfterDelay(previousAttemptNumber, delaySinceFirstAttemptMs)
    }

    /** `any(f(attempts, delay) for f in stop_funcs)`. */
    function AnyStop(checks: seq<StopCheck>, previousAttemptNumber: int, delaySinceFirstAttemptMs: int): (r: bool)
      ensures r <==> exists i :: 0 <= i < |checks| && StopCheckHolds(checks[i], previousAttemptNumber, delaySinceFirstAttemptMs)
    {
      if checks == [] then false
      else
        var rest := AnyStop(checks[1..], previousAttemptNumber, delaySinceFirstAttemptMs);
        assert forall i :: 1 <= i < |checks| ==> checks[i] == checks[1..][i - 1];
        StopCheckHolds(checks[0], previousAttemptNumber, delaySinceFirstAttemptMs) || rest
    }

    /** `self.stop(attempts, delay)`. */
    function Stop(previousAttemptNumber: int, delaySinceFirstAttemptMs: int): bool {
      match stop
      case CustomStop(f) => f(previousAttemptNumber, delaySinceFirstAttemptMs)
      case AnyOfStops(checks) => AnyStop(checks, previousAttemptNumber, delaySinceFirstAttemptMs)
      case NamedStop(check) => StopCheckHolds(check, previousAttemptNumber, delaySinceFirstAttemptMs)
    }

    // ---------------------------------------------------------------- wait

    /** `fixed_sleep`: the configured constant. */
    function FixedSleep(previousAttemptNumber: int, delaySinceFirstAttemptMs: int): int {
      waitFixed
    }

    /**
     * `random_sleep`: `random.randint(min, max)`, where `draw` is the value
     * the generator picks; an empty range raises `ValueError`.
     */
    function RandomSleep(previousAttemptNumber: int, delaySinceFirstAttemptMs: int, draw: int): (r: Result<int, PyException>)
      ensures r.Err? <==> waitRandomMin > waitRandomMax
      ensures r.Err? ==> r.error == EmptyRangeError
      ensures r.Ok? ==> r.value == draw
      ensures r.Ok? && RandomDrawOk(draw) ==> waitRandomMin <= r.value <= waitRandomMax
    {
      if waitRandomMin <= waitRandomMax then Ok(draw) else Err(EmptyRangeError)
    }

    /** `incrementing_sleep`: `start + increment * (n - 1)`, clamped to `[0, wait_incrementing_max]`. */
    function IncrementingSleep(previousAttemptNumber: int, delaySinceFirstAttemptMs: int): (r: int)
      ensures 0 <= r <= Max(waitIncrementingMax, 0)
      ensures var linear := waitIncrementingStart + waitIncrementingIncrement * (previousAttemptNumber - 1);
              0 <= linear <= waitIncrementingMax ==> r == linear
    {
      ClampWait(waitIncrementingStart + waitIncrementingIncrement * (previousAttemptNumber - 1), waitIncrementingMax)
    }

    /**
     * `exponential_sleep` with exact integer powers: `multiplier * 2^n`,
     * clamped to `[0, wait_exponential_max]`. The exponent is `n` itself, so
     * attempt 1 already waits twice the multiplier.
     */
    function ExponentialSleep(previousAttemptNumber: int, delaySinceFirstAttemptMs: int): (r: int)
      ensures 0 <= r <= Max(waitExponentialMax, 0)
      ensures var exact := waitExponentialMultiplier * TwoPow(previousAttemptNumber);
              0 <= exact <= waitExponentialMax ==> r == exact
    {
      ClampWait(waitExponentialMultiplier * TwoPow(previousAttemptNumber), waitExponentialMax)
    }

    /**
     * `exponential_sleep` as the source computes it, with `math.pow`, which
     * raises `OverflowError` once `2^n` exceeds the largest double (n >= 1024).
     */
    function ExponentialSleepAsWritten(previousAttemptNumber: int, delaySinceFirstAttemptMs: int): (r: Result<int, PyException>)
      ensures r.Err? <==> previousAttemptNumber >= 1024
      ensures r.Ok? ==> r.value == ExponentialSleep(previousAttemptNumber, delaySinceFirstAttemptMs)
    {
      if previousAttemptNumber >= 1024 then Err(MathRangeError)
      else Ok(ClampWait(waitExponentialMultiplier * TwoPow(previousAttemptNumber), waitExponentialMax))
    }

    /** The value of one built-in sleep, given the random draw. */
    function SleepWith(sleep: Sleep, previousAttemptNumber: int, delaySinceFirstAttemptMs: int, draw: int): (r: Result<int, PyException>)
      ensures r.Err? <==> sleep == Random && waitRandomMin > waitRandomMax
    {
      match sleep
      case Fixed => Ok(FixedSleep(previousAttemptNumber, delaySinceFirstAttemptMs))
      case Random => RandomSleep(previousAttemptNumber, delaySinceFirstAttemptMs, draw)
      case Incrementing => Ok(IncrementingSleep(previousAttemptNumber, delaySinceFirstAttemptMs))
      case Exponential => Ok(ExponentialSleep(previousAttemptNumber, delaySinceFirstAttemptMs))
    }

    /**
     * `max(f(attempts, delay) for f in wait_funcs)`, where `wait_funcs` starts
     * with the zero wait and continues with `sleeps`; the first sleep that
     * raises ends the evaluation.
     */
    function MaxOfSleeps(sleeps: seq<Sleep>, previousAttemptNumber: int, delaySinceFirstAttemptMs: int, draw: int): (r: Result<int, PyException>)
      ensures r.Err? <==> exists i :: 0 <= i < |sleeps| && SleepWith(sleeps[i], previousAttemptNumber, delaySinceFirstAttemptMs, draw).Err?
      ensures r.Err? ==> exists i :: 0 <= i < |sleeps| && SleepWith(sleeps[i], previousAttemptNumber, delaySinceFirstAttemptMs, draw) == r
      ensures r.Ok? ==> 0 <= r.value
      ensures r.Ok? ==> forall i :: 0 <= i < |sleeps| ==>
                SleepWith(sleeps[i], previousAttemptNumber, delaySinceFirstAttemptMs, draw).value <= r.value
      ensures r.Ok? && r.value != 0 ==>
                exists i :: 0 <= i < |sleeps| && SleepWith(sleeps[i], previousAttemptNumber, delaySinceFirstAttemptMs, draw) == r
    {
      if sleeps == [] then Ok(0)
      else
        assert forall i :: 1 <= i < |sleeps| ==> sleeps[i] == sleeps[1..][i - 1];
        match SleepWith(sleeps[0], previousAttemptNumber, delaySinceFirstAttemptMs, draw)
        case Err(e) => Err(e)
        case Ok(w) =>
          match MaxOfSleeps(sleeps[1..], previousAttemptNumber, delaySinceFirstAttemptMs, draw)
          case Err(e) => Err(e)
          case Ok(m) => Ok(Max(w, m))
    }

    /** `self.wait(attempts, delay)`, given the value `random.randint` would pick. */
    function WaitWith(previousAttemptNumber: int, delaySinceFirstAttemptMs: int, draw: int): Result<int, PyException> {
      match wait
      case CustomWait(f) => Ok(f(previousAttemptNumber, delaySinceFirstAttemptMs))
      case MaxOfWaits(sleeps) => MaxOfSleeps(sleeps, previousAttemptNumber, delaySinceFirstAttemptMs, draw)
      case NamedWait(sleep) => SleepWith(sleep, previousAttemptNumber, delaySinceFirstAttemptMs, draw)
    }

    /** A value `random.randint(wait_random_min, wait_random_max)` can return. */
    ghost predicate RandomDrawOk(draw: int) {
      waitRandomMin <= waitRandomMax ==> waitRandomMin <= draw <= waitRandomMax
    }

    /** The jitter added to a sleep: `max(0, random.random() * wait_jitter_max)`, in whole milliseconds. */
    ghost predicate JitterOk(jitter: int) {
      if waitJitterMax > 0 then 0 <= jitter < waitJitterMax else jitter == 0
    }

    ghost predicate DrawOk(draw: Draw) {
      RandomDrawOk(draw.random) && JitterOk(draw.jitter)
    }

    /** `self.wait(attempts, delay)`: one random draw, then the policy's value. */
    method Wait(previousAttemptNumber: int, delaySinceFirstAttemptMs: int) returns (r: Result<int, PyException>, ghost draw: int)
      ensures RandomDrawOk(draw)
      ensures r == WaitWith(previousAttemptNumber, delaySinceFirstAttemptMs, draw)
    {
      var x := waitRandomMin;
      if waitRandomMin <= waitRandomMax {
        x :| waitRandomMin <= x <= waitRandomMax;
      }
      r := WaitWith(previousAttemptNumber, delaySinceFirstAttemptMs, x);
      draw := x;
    }

    /**
     * What the loop hands to `time.sleep` after attempt `n` (in milliseconds):
     * the wait plus the jitter, or the exception raised on the way, either by
     * the wait itself or by `time.sleep` refusing a negative duration.
     */
    function SleepFor(previousAttemptNumber: int, delaySinceFirstAttemptMs: int, draw: Draw): (r: Result<int, PyException>)
      ensures r.Err? <==> (var w := WaitWith(previousAttemptNumber, delaySinceFirstAttemptMs, draw.random);
                           w.Err? || w.value + draw.jitter < 0)
      ensures r.Ok? ==> 0 <= r.value
      ensures r.Ok? ==> WaitWith(previousAttemptNumber, delaySinceFirstAttemptMs, draw.random) == Ok(r.value - draw.jitter)
    {
      match WaitWith(previousAttemptNumber, delaySinceFirstAttemptMs, draw.random)
      case Err(e) => Err(e)
      case Ok(w) => if w + draw.jitter < 0 then Err(NegativeSleepError) else Ok(w + draw.jitter)
    }

    // ---------------------------------------------------------------- properties of the policies

    /** With no stop keyword at all, the composite stop is `any([])`: it never fires. */
    lemma NoStopOptionsNeverStop(opts: RetryOptions<V>, previousAttemptNumber: int, delaySinceFirstAttemptMs: int)
      requires ConfiguredBy(opts) && NoStopOptions(opts)
      ensures !Stop(previousAttemptNumber, delaySinceFirstAttemptMs)
    {
    }

    /** `stop_max_attempt_number` alone: stop exactly when the attempt number reaches it, whatever the delay. */
    lemma AttemptLimitStop(opts: RetryOptions<V>, previousAttemptNumber: int, delaySinceFirstAttemptMs: int)
      requires ConfiguredBy(opts)
      requires opts.stop.None? && opts.stopFunc.None? && opts.stopMaxAttemptNumber.Some? && opts.stopMaxDelay.None?
      ensures Stop(previousAttemptNumber, delaySinceFirstAttemptMs) <==> previousAttemptNumber >= opts.stopMaxAttemptNumber.value
    {
      assert ConfiguredStops(opts) == [AfterAttempt];
    }

    /** `stop_max_delay` alone: stop exactly when the delay reaches it, whatever the attempt number. */
    lemma DelayLimitStop(opts: RetryOptions<V>, previousAttemptNumber: int, delaySinceFirstAttemptMs: int)
      requires ConfiguredBy(opts)
      requires opts.stop.None? && opts.stopFunc.None? && opts.stopMaxAttemptNumber.None? && opts.stopMaxDelay.Some?
      ensures Stop(previousAttemptNumber, delaySinceFirstAttemptMs) <==> delaySinceFirstAttemptMs >= opts.stopMaxDelay.value
    {
      assert ConfiguredStops(opts) == [AfterDelay];
    }

    /** Both limits: whichever is reached first stops the loop. */
    lemma BothLimitsStop(opts: RetryOptions<V>, previousAttemptNumber: int, delaySinceFirstAttemptMs: int)
      requires ConfiguredBy(opts)
      requires opts.stop.None? && opts.stopFunc.None? && opts.stopMaxAttemptNumber.Some? && opts.stopMaxDelay.Some?
      ensures Stop(previousAttemptNumber, delaySinceFirstAttemptMs) <==>
                previousAttemptNumber >= opts.stopMaxAttemptNumber.value || delaySinceFirstAttemptMs >= opts.stopMaxDelay.value
    {
      assert ConfiguredStops(opts) == [AfterAttempt, AfterDelay];
    }

    /** A legacy `stop` name selects that built-in check, which then uses the default limits unless given. */
    lemma NamedStopUsesResolvedLimits(opts: RetryOptions<V>, previousAttemptNumber: int, delaySinceFirstAttemptMs: int)
      requires ConfiguredBy(opts) && opts.stopFunc.None? && opts.stop.Some?
      ensures opts.stop.value == AfterAttempt ==>
                (Stop(previousAttemptNumber, delaySinceFirstAttemptMs) <==> previousAttemptNumber >= opts.stopMaxAttemptNumber.GetOr(5))
      ensures opts.stop.value == AfterDelay ==>
                (Stop(previousAttemptNumber, delaySinceFirstAttemptMs) <==> delaySinceFirstAttemptMs >= opts.stopMaxDelay.GetOr(100))
    {
    }

    /** A `stop_func` replaces every other stop option. */
    lemma StopFuncOverrides(opts: RetryOptions<V>, previousAttemptNumber: int, delaySinceFirstAttemptMs: int)
      requires ConfiguredBy(opts) && opts.stopFunc.Some?
      ensures Stop(previousAttemptNumber, delaySinceFirstAttemptMs) == opts.stopFunc.value(previousAttemptNumber, delaySinceFirstAttemptMs)
    {
    }

    /** With no wait keyword, the wait is the implicit zero wait alone. */
    lemma NoWaitOptionsNeverSleep(opts: RetryOptions<V>, previousAttemptNumber: int, delaySinceFirstAttemptMs: int, draw: int)
      requires ConfiguredBy(opts) && CompositeWaitOptions(opts) && ConfiguredSleeps(opts) == []
      ensures WaitWith(previousAttemptNumber, delaySinceFirstAttemptMs, draw) == Ok(0)
    {
    }

    /**
     * One configured sleep: the wait is that sleep's value, raised to 0 by the
     * implicit zero wait, or the exception that sleep raises.
     */
    lemma SingleSleepWait(opts: RetryOptions<V>, sleep: Sleep, previousAttemptNumber: int, delaySinceFirstAttemptMs: int, draw: int)
      requires ConfiguredBy(opts) && CompositeWaitOptions(opts) && ConfiguredSleeps(opts) == [sleep]
      ensures var one := SleepWith(sleep, previousAttemptNumber, delaySinceFirstAttemptMs, draw);
              WaitWith(previousAttemptNumber, delaySinceFirstAttemptMs, draw) ==
                (if one.Err? then one else Ok(Max(one.value, 0)))
    {
      assert [sleep][1..] == [];
    }

    /** `wait_random_min`/`wait_random_max` alone, with a non-empty range whose maximum is not negative: the wait lies in that range. */
    lemma RandomWaitInRange(opts: RetryOptions<V>, previousAttemptNumber: int, delaySinceFirstAttemptMs: int, draw: int)
      requires ConfiguredBy(opts) && CompositeWaitOptions(opts) && ConfiguredSleeps(opts) == [Random]
      requires waitRandomMin <= waitRandomMax && 0 <= waitRandomMax && RandomDrawOk(draw)
      ensures WaitWith(previousAttemptNumber, delaySinceFirstAttemptMs, draw).Ok?
      ensures waitRandomMin <= WaitWith(previousAttemptNumber, delaySinceFirstAttemptMs, draw).value <= waitRandomMax
    {
      SingleSleepWait(opts, Random, previousAttemptNumber, delaySinceFirstAttemptMs, draw);
    }

    /** A `wait_func` replaces every other wait option. */
    lemma WaitFuncOverrides(opts: RetryOptions<V>, previousAttemptNumber: int, delaySinceFirstAttemptMs: int, draw: int)
      requires ConfiguredBy(opts) && opts.waitFunc.Some?
      ensures WaitWith(previousAttemptNumber, delaySinceFirstAttemptMs, draw) == Ok(opts.waitFunc.value(previousAttemptNumber, delaySinceFirstAttemptMs))
    {
    }

    /** A wait built from the composite is never negative and never below any configured sleep. */
    lemma CompositeWaitBounds(sleep: Sleep, previousAttemptNumber: int, delaySinceFirstAttemptMs: int, draw: int)
      requires wait.MaxOfWaits? && sleep in wait.sleeps
      requires WaitWith(previousAttemptNumber, delaySinceFirstAttemptMs, draw).Ok?
      ensures var w := WaitWith(previousAttemptNumber, delaySinceFirstAttemptMs, draw).value;
              0 <= w && SleepWith(sleep, previousAttemptNumber, delaySinceFirstAttemptMs, draw).value <= w
    {
      var i :| 0 <= i < |wait.sleeps| && wait.sleeps[i] == sleep;
    }

    /** `incrementing_sleep` never decreases from one attempt to the next when the increment is not negative. */
    lemma IncrementingSleepMonotone(m: int, n: int, delayM: int, delayN: int)
      requires m <= n && 0 <= waitIncrementingIncrement
      ensures IncrementingSleep(m, delayM) <= IncrementingSleep(n, delayN)
    {
      assert waitIncrementingIncrement * (m - 1) <= waitIncrementingIncrement * (n - 1) by {
        assert waitIncrementingIncrement * (n - 1) - waitIncrementingIncrement * (m - 1) == waitIncrementingIncrement * (n - m);
      }
    }

    /** `exponential_sleep` never decreases from one attempt to the next, whatever the multiplier. */
    lemma ExponentialSleepMonotone(m: int, n: int, delayM: int, delayN: int)
      requires m <= n
      ensures ExponentialSleep(m, delayM) <= ExponentialSleep(n, delayN)
    {
      var k, low, high := waitExponentialMultiplier, TwoPow(m), TwoPow(n);
      TwoPowMonotone(m, n);
      if k >= 0 {
        ScaleMonotone(k, low, high);
        ClampWaitMonotone(k * low, k * high, waitExponentialMax);
      } else {
        ScaleNonPositive(k, low);
        ScaleNonPositive(k, high);
      }
    }

    /** `wait` given by name selects that one built-in sleep, with the resolved settings and no zero floor. */
    lemma NamedWaitUsesResolvedSleep(opts: RetryOptions<V>, previousAttemptNumber: int, delaySinceFirstAttemptMs: int, draw: int)
      requires ConfiguredBy(opts) && opts.waitFunc.None? && opts.wait.Some?
      ensures WaitWith(previousAttemptNumber, delaySinceFirstAttemptMs, draw) ==
                SleepWith(opts.wait.value, previousAttemptNumber, delaySinceFirstAttemptMs, draw)
      ensures opts.wait.value == Fixed ==>
                WaitWith(previousAttemptNumber, delaySinceFirstAttemptMs, draw) == Ok(opts.waitFixed.GetOr(1000))
    {
    }

    /** `wait_fixed` alone: every wait is the fixed value, or 0 when that value is negative. */
    lemma FixedWaitAlone(opts: RetryOptions<V>, previousAttemptNumber: int, delaySinceFirstAttemptMs: int, draw: int)
      requires ConfiguredBy(opts) && CompositeWaitOptions(opts) && ConfiguredSleeps(opts) == [Fixed]
      ensures WaitWith(previousAttemptNumber, delaySinceFirstAttemptMs, draw) == Ok(Max(opts.waitFixed.value, 0))
    {
      SingleSleepWait(opts, Fixed, previousAttemptNumber, delaySinceFirstAttemptMs, draw);
    }

    /** The default filters: retry every exception, accept every returned value. */
    lemma DefaultFilters(opts: RetryOptions<V>, attempt: Attempt<V>)
      requires ConfiguredBy(opts) && opts.retryOnException.None? && opts.retryOnResult.None?
      ensures ShouldReject(attempt) <==> attempt.HasException()
    {
    }

    /** A tuple of exception classes retries exactly the exceptions that are instances of one of them. */
    lemma ExceptionTypesFilter(opts: RetryOptions<V>, types: set<string>, attempt: Attempt<V>)
      requires ConfiguredBy(opts) && opts.retryOnException == Some(ExceptionTypes(types))
      requires attempt.HasException()
      ensures ShouldReject(attempt) <==> attempt.outcome.exception.IsInstanceOf(types)
    {
    }

    /** An attempt that raised is judged by the exception filter alone: the result filter does not matter. */
    lemma ExceptionJudgedByExceptionFilterOnly(other: Retry<V>, attempt: Attempt<V>)
      requires other.retryOnException == retryOnException && attempt.HasException()
      ensures other.ShouldReject(attempt) == ShouldReject(attempt)
    {
    }

    /** An attempt that returned is judged by the result filter alone: the exception filter does not matter. */
    lemma ValueJudgedByResultFilterOnly(other: Retry<V>, attempt: Attempt<V>)
      requires other.retryOnResult == retryOnResult && !attempt.HasException()
      ensures other.ShouldReject(attempt) == ShouldReject(attempt)
    {
    }

    /** The jitter lengthens a sleep by less than `wait_jitter_max`, and not at all when that is not positive. */
    lemma JitterBounds(previousAttemptNumber: int, delaySinceFirstAttemptMs: int, draw: Draw)
      requires DrawOk(draw) && SleepFor(previousAttemptNumber, delaySinceFirstAttemptMs, draw).Ok?
      ensures var w := WaitWith(previousAttemptNumber, delaySinceFirstAttemptMs, draw.random);
              var slept := SleepFor(previousAttemptNumber, delaySinceFirstAttemptMs, draw).value;
              && w.Ok?
              && w.value <= slept
              && (waitJitterMax > 0 ==> slept < w.value + waitJitterMax)
              && (waitJitterMax <= 0 ==> slept == w.value)
    {
    }

    /** A composite wait whose random range is not empty never makes the loop raise while sleeping. */
    lemma CompositeWaitNeverRaises(previousAttemptNumber: int, delaySinceFirstAttemptMs: int, draw: Draw)
      requires wait.MaxOfWaits? && (Random in wait.sleeps ==> waitRandomMin <= waitRandomMax)
      requires DrawOk(draw)
      ensures SleepFor(previousAttemptNumber, delaySinceFirstAttemptMs, draw).Ok?
    {
    }


    // ---------------------------------------------------------------- reject

    /** `should_reject`: consult the exception filter or the result filter, depending on the attempt. */
    function ShouldReject(attempt: Attempt<V>): bool {
      match attempt.outcome
      case Failure(e) => retryOnException(e)
      case Value(v) => retryOnResult(v)
    }

    // ---------------------------------------------------------------- call

    /** How the loop gives up after a rejected attempt once the stop fires. */
    function GiveUp(attempt: Attempt<V>): (r: CallResult<V>)
      ensures !r.Returned?
      ensures r.Raised? <==> !wrapException && attempt.HasException()
      ensures r.Raised? ==> attempt.outcome == Failure(r.exception)
      ensures r.RetryErrorRaised? ==> r.error.lastAttempt == attempt
    {
      if !wrapException && attempt.HasException() then attempt.Get(false)
      else RetryErrorRaised(RetryError(attempt))
    }

    /**
     * What the loop does with attempt `n`, whose work produced `work(n)` and
     * after which the clock reads `clock(n)`: `Some` of the call's result when
     * it returns or raises, `None` when it goes on to wait and try again.
     */
    function Settle(work: nat -> Outcome<V>, clock: nat -> int, n: nat): (r: Option<CallResult<V>>)
      ensures r.None? <==> ShouldReject(Attempt(work(n), n)) && !Stop(n, clock(n))
      ensures r.Some? && !ShouldReject(Attempt(work(n), n)) ==> r.value == Attempt(work(n), n).Get(wrapException)
      ensures r.Some? && ShouldReject(Attempt(work(n), n)) ==> r.value == GiveUp(Attempt(work(n), n))
    {
      var attempt := Attempt(work(n), n);
      if !ShouldReject(attempt) then Some(attempt.Get(wrapException))
      else if Stop(n, clock(n)) then Some(GiveUp(attempt))
      else None
    }

    /**
     * The runs of `call`: attempts 1, 2, ... are made in order; each attempt
     * before the last was rejected without the stop firing and was followed
     * by a sleep; the last one either settles the call or its wait raises.
     */
    ghost predicate IsRunOf(work: nat -> Outcome<V>, clock: nat -> int, r: CallResult<V>, sleeps: seq<int>, draws: seq<Draw>) {
      var last := |sleeps| + 1;
      && |sleeps| <= |draws| <= last
      && (forall k :: 1 <= k < last ==> Settle(work, clock, k).None?)
      && (forall i :: 0 <= i < |sleeps| ==>
            DrawOk(draws[i]) && SleepFor(i + 1, clock(i + 1), draws[i]) == Ok(sleeps[i]))
      && (Settle(work, clock, last).Some? ==>
            |draws| == |sleeps| && r == Settle(work, clock, last).value)
      && (Settle(work, clock, last).None? ==>
            && |draws| == last
            && DrawOk(draws[last - 1])
            && SleepFor(last, clock(last), draws[last - 1]).Err?
            && r == Raised(SleepFor(last, clock(last), draws[last - 1]).error))
    }

    /**
     * `Retry.call`: attempt, then accept, or give up, or wait and try again.
     * `work(n)` is what the n-th call of the unit of work does and `clock(n)`
     * the milliseconds elapsed since the first attempt when attempt n is
     * checked against the stop; `sleeps` records the arguments of `time.sleep`.
     * The precondition (some attempt settles the call) makes the loop finite.
     */
    method Call(work: nat -> Outcome<V>, clock: nat -> int) returns (r: CallResult<V>, sleeps: seq<int>, ghost draws: seq<Draw>)
      requires exists n: nat :: 1 <= n && Settle(work, clock, n).Some?
      ensures IsRunOf(work, clock, r, sleeps, draws)
    {
      ghost var bound: nat :| 1 <= bound && Settle(work, clock, bound).Some?;
      var attemptNumber: nat := 1;
      sleeps, draws := [], [];
      while true
        invariant 1 <= attemptNumber <= bound
        invariant |sleeps| == |draws| == attemptNumber - 1
        invariant forall k :: 1 <= k < attemptNumber ==> Settle(work, clock, k).None?
        invariant forall i :: 0 <= i < |sleeps| ==>
                    DrawOk(draws[i]) && SleepFor(i + 1, clock(i + 1), draws[i]) == Ok(sleeps[i])
        decreases bound - attemptNumber
      {
        var attempt := Attempt(work(attemptNumber), attemptNumber);
        if !ShouldReject(attempt) {
          r := attempt.Get(wrapException);
          return;
        }

        var delaySinceFirstAttemptMs := clock(attemptNumber);
        if Stop(attemptNumber, delaySinceFirstAttemptMs) {
          r := GiveUp(attempt);
          return;
        }

        var waited;
        ghost var randomDraw;
        waited, randomDraw := Wait(attemptNumber, delaySinceFirstAttemptMs);
        if waited.Err? {
          r := Raised(waited.error);
          draws := draws + [Draw(randomDraw, 0)];
          return;
        }
        var jitter := 0;
        if waitJitterMax != 0 {
          var raw: int;
          if waitJitterMax > 0 {
            raw :| 0 <= raw < waitJitterMax;
          } else {
            raw :| waitJitterMax < raw <= 0;
          }
          jitter := Max(0, raw);
        }
        var sleepMs := waited.value + jitter;
        draws := draws + [Draw(randomDraw, jitter)];
        if sleepMs < 0 {
          r := Raised(NegativeSleepError);
          return;
        }
        sleeps := sleeps + [sleepMs];
        attemptNumber := attemptNumber + 1;
      }
    }

    // ---------------------------------------------------------------- properties of the loop

    /**
     * Reading a run backwards: every attempt before the last was rejected with
     * the stop not firing; a returned value is the last attempt's value and that
     * attempt was accepted; a `RetryError` carries the last attempt, numbered
     * one more than the sleeps taken.
     */
    lemma RunEndsWithLastAttempt(work: nat -> Outcome<V>, clock: nat -> int, r: CallResult<V>, sleeps: seq<int>, draws: seq<Draw>)
      requires IsRunOf(work, clock, r, sleeps, draws)
      ensures forall k :: 1 <= k <= |sleeps| ==> ShouldReject(Attempt(work(k), k)) && !Stop(k, clock(k))
      ensures r.Returned? ==> work(|sleeps| + 1) == Value(r.value) && !ShouldReject(Attempt(work(|sleeps| + 1), |sleeps| + 1))
      ensures r.RetryErrorRaised? ==>
                && r.error.lastAttempt == Attempt(work(|sleeps| + 1), |sleeps| + 1)
                && r.error.lastAttempt.attemptNumber == |sleeps| + 1
                && (Stop(|sleeps| + 1, clock(|sleeps| + 1)) || (wrapException && r.error.lastAttempt.HasException()))
      ensures r.Raised? ==>
                || (!wrapException && work(|sleeps| + 1) == Failure(r.exception))
                || (|draws| == |sleeps| + 1 && SleepFor(|sleeps| + 1, clock(|sleeps| + 1), draws[|sleeps|]) == Err(r.exception))
    {
      var last := |sleeps| + 1;
      forall k | 1 <= k <= |sleeps|
        ensures ShouldReject(Attempt(work(k), k)) && !Stop(k, clock(k))
      {
        assert Settle(work, clock, k).None?;
      }
      if r.RetryErrorRaised? || r.Returned? {
        assert Settle(work, clock, last).Some?;
      }
    }

    /** When every sleep the loop could take after the first attempts is `c`, every sleep of the run is `c`. */
    lemma RunSleepsAre(work: nat -> Outcome<V>, clock: nat -> int, r: CallResult<V>, sleeps: seq<int>, draws: seq<Draw>, c: int)
      requires IsRunOf(work, clock, r, sleeps, draws)
      requires forall k, draw :: 1 <= k <= |sleeps| && DrawOk(draw) ==> SleepFor(k, clock(k), draw) == Ok(c)
      ensures forall i :: 0 <= i < |sleeps| ==> sleeps[i] == c
    {
    }

    /**
     * When attempt `n` is the first to settle and no wait before it can raise,
     * the run made exactly `n` attempts and ended as attempt `n` dictates.
     */
    lemma RunEndsAt(work: nat -> Outcome<V>, clock: nat -> int, r: CallResult<V>, sleeps: seq<int>, draws: seq<Draw>, n: nat)
      requires IsRunOf(work, clock, r, sleeps, draws)
      requires 1 <= n
      requires forall k :: 1 <= k < n ==> Settle(work, clock, k).None?
      requires Settle(work, clock, n).Some?
      requires forall k, draw :: 1 <= k < n && DrawOk(draw) ==> SleepFor(k, clock(k), draw).Ok?
      ensures |sleeps| + 1 == n
      ensures r == Settle(work, clock, n).value
    {
    }
  }
}
