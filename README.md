# retrrry: the retry engine, modelled in Dafny

`retrrry` wraps a unit of work in a retry loop. A `Retry` object is built from keyword
options. From them it resolves:

- a **stop** policy, which decides when to give up;
- a **wait** policy, which decides how long to sleep between attempts;
- two **rejection filters**: one for exceptions, one for return values;
- whether a final exception is wrapped in a `RetryError`.

`Retry.call` runs the work as attempt 1, 2, 3, …. After each attempt:

- an attempt the filters accept ends the call (`Attempt.get`);
- a rejected attempt either gives up, if the stop fires, or sleeps the wait plus an optional jitter and tries again.

The model has four modules:

- `Wrappers` (`wrappers.dfy`): `Option` and `Result`.
- `Outcomes` (`outcomes.dfy`):
  - Python exceptions, described by their type name and base classes;
  - the outcome of one attempt;
  - `Attempt` with its `get`;
  - `RetryError`;
  - `CallResult`, which is how `call` ends: it returns a value, re-raises an exception, or raises a `RetryError`.
- `Retrrry` (`retry.dfy`):
  - the keyword options as the datatype `RetryOptions`;
  - the policy functions;
  - the class `Retry`. Its constructor performs `__init__`'s option resolution, and it has the `Wait` and `Call` methods.
- `RetrrryScenarios` (`scenarios.dfy`): the behaviours the repository's tests pin down. Each is stated for every `Retry` configured as the test configures it, and for every run of its loop.

Choices made in the model:

- **Configuration is immutable.** `__init__` is the only code that writes a `Retry`'s attributes. They are therefore `const` fields. The constructor builds the lists of stop checks and sleeps by appending, as the source does.
- **Option resolution has a specification.** The ghost predicate `Retry.ConfiguredBy(opts)` states what `__init__` resolves the options to.
- **Stop and wait policies are data.** The composite stop is `AnyOfStops` (a logical OR over the configured checks). The composite wait is `MaxOfWaits` (the largest configured sleep, and never below the implicit zero wait). A `stop`/`wait` given by name selects a built-in method; a `stop_func`/`wait_func` is a Dafny function value.
- **The outside world is passed in.**
  - The unit of work is an oracle `work(n)`: what the n-th invocation returns or raises.
  - The wall clock is an oracle `clock(n)`: the milliseconds since the first attempt, read when attempt n is checked against the stop.
- **Randomness is nondeterministic.** The values of `random.randint` and `random.random` are chosen within their bounds. They are returned as ghost `Draw`s, so the specification functions can take them as parameters.
- **`time.sleep` is recorded.** Its arguments (in milliseconds) form the `sleeps` output of `Call`.
- **Error paths are explicit results:**
  - `random.randint` with an empty range raises `ValueError`;
  - `time.sleep` of a negative duration raises `ValueError`;
  - `exponential_sleep` as written raises `OverflowError` from `math.pow`. That behaviour is `ExponentialSleepAsWritten`. The loop itself uses the corrected exact power (see Findings), so no run of `Call` raises it.

**The code differs from a plain reading of the defaults.** `stop_max_attempt_number` and `stop_max_delay` default to 5 and 100. Those defaults are used only when a stop is selected by name. The composite stop includes a check only for an option that was actually passed. So `Retry()` with no stop option never stops on its own and retries until an attempt is accepted (`tests.py:30-32`). The model follows the code: `NoStopOptionsNeverStop` and `DefaultsRetryUntilSuccess`.

## Model

| member | source | states |
|---|---|---|
| `Retrrry.Retry.constructor` | src/retrrry/__init__.py:97-210 | The new object is `ConfiguredBy(opts)`: the documented default for each numeric option that is absent; `stop_func` overrides `stop`, which overrides the composite; `wait_func` overrides `wait`, which overrides the composite; a tuple of exception types becomes an `isinstance` filter; the filters default to `always_reject`/`never_reject`; `wrap_exception` is copied |
| `Retrrry.ConfiguredStops` | src/retrrry/__init__.py:149-154 | `stop_after_attempt` is in the composite iff `stop_max_attempt_number` was passed, `stop_after_delay` iff `stop_max_delay` was passed, in that order and without duplicates |
| `Retrrry.ConfiguredSleeps` | src/retrrry/__init__.py:168-183 | Each sleep is in the composite iff one of its own options was passed: fixed for `wait_fixed`; random for either random bound; incrementing for start or increment (not for its max); exponential for multiplier or max |
| `Retrrry.CollectStopChecks` | src/retrrry/__init__.py:149-154 | The list `__init__` builds by appending is exactly the composite's stop checks, `ConfiguredStops(opts)` |
| `Retrrry.CollectSleeps` | src/retrrry/__init__.py:168-183 | The list `__init__` builds by appending after the zero wait is exactly the composite's sleeps, `ConfiguredSleeps(opts)` |
| `Retrrry.TwoPowMonotone` | src/retrrry/__init__.py:246-248 | The exact power of two used for the exponential wait never decreases as the exponent grows |
| `Retrrry.ClampWait` | src/retrrry/__init__.py:240-241 | Clamping to `[0, cap]`: never negative, never above a non-negative cap, equal to the input when it is in range, 0 when cap or input is not positive |
| `Retrrry.Retry.AnyStop` | src/retrrry/__init__.py:159-161 | The composite stop fires iff some configured check fires; with no checks it never fires |
| `Retrrry.Retry.NoStopOptionsNeverStop` | src/retrrry/__init__.py:149-161 | With no stop option at all, the stop never fires, whatever the attempt number and delay |
| `Retrrry.Retry.AttemptLimitStop` | src/retrrry/__init__.py:212-216 | `StopAfterAttempt` as the only stop: with only `stop_max_attempt_number`, the stop fires iff the previous attempt number has reached it |
| `Retrrry.Retry.DelayLimitStop` | src/retrrry/__init__.py:218-222 | `StopAfterDelay` as the only stop: with only `stop_max_delay`, the stop fires iff the delay since the first attempt has reached it |
| `Retrrry.Retry.BothLimitsStop` | src/retrrry/__init__.py:150-161 | With both limits, the stop fires iff either limit is reached |
| `Retrrry.Retry.NamedStopUsesResolvedLimits` | src/retrrry/__init__.py:162-163 | `Stop` for `stop` given by name: `stop_after_attempt` fires iff the attempt number reaches the resolved limit (default 5), and `stop_after_delay` fires iff the delay reaches the resolved limit (default 100) |
| `Retrrry.Retry.StopFuncOverrides` | src/retrrry/__init__.py:156-157 | A `stop_func` decides alone, whatever other stop options are given |
| `Retrrry.Retry.RandomSleep` | src/retrrry/__init__.py:229-232 | `randint(min, max)` raises `ValueError` iff `min > max`, otherwise returns the draw, which lies in `[min, max]` |
| `Retrrry.Retry.IncrementingSleep` | src/retrrry/__init__.py:234-241 | The incrementing wait is never negative, never above a non-negative max, and is exactly `start + increment * (n - 1)` when that lies in range |
| `Retrrry.Retry.ExponentialSleep` | src/retrrry/__init__.py:243-250 | The exponential wait (with the exact power `2^n`) is never negative, never above a non-negative max, and is exactly `multiplier * 2^n` when that lies in range |
| `Retrrry.Retry.ExponentialSleepAsWritten` | src/retrrry/__init__.py:243-250 | The code as written raises `OverflowError` iff the previous attempt number is at least 1024; otherwise it agrees with `ExponentialSleep` |
| `Retrrry.Retry.SleepWith` | src/retrrry/__init__.py:224-250 | A single built-in sleep, with the corrected exponential wait, raises iff it is the random sleep with an empty range |
| `Retrrry.Retry.MaxOfSleeps` | src/retrrry/__init__.py:165-169 | The composite wait raises iff some configured sleep raises; otherwise it is non-negative (the implicit zero wait), at least every configured sleep, and, when positive, equal to one of them |
| `Retrrry.Retry.NoWaitOptionsNeverSleep` | src/retrrry/__init__.py:165-169 | With no wait option at all, the wait is 0 |
| `Retrrry.Retry.SingleSleepWait` | src/retrrry/__init__.py:187-190 | With exactly one configured sleep, a non-negative result of that sleep is the wait |
| `Retrrry.Retry.RandomWaitInRange` | src/retrrry/__init__.py:173-174 | With only the random sleep, a non-empty range whose maximum is not negative bounds the wait: it lies in `[min, max]` |
| `Retrrry.Retry.WaitFuncOverrides` | src/retrrry/__init__.py:185-186 | A `wait_func` decides the wait alone |
| `Retrrry.Retry.NamedWaitUsesResolvedSleep` | src/retrrry/__init__.py:191-192 | `wait` given by name is that one built-in sleep with the resolved settings, with no zero floor; `fixed_sleep` by name waits `wait_fixed`, default 1000 |
| `Retrrry.Retry.FixedWaitAlone` | src/retrrry/__init__.py:224-227 | `FixedSleep` as the only sleep: every wait is `wait_fixed`, whatever the attempt and delay, or 0 when that value is negative |
| `Retrrry.Retry.CompositeWaitBounds` | src/retrrry/__init__.py:188-190 | A successful composite wait is at least every configured sleep and never negative |
| `Retrrry.Retry.CompositeWaitNeverRaises` | src/retrrry/__init__.py:298-303 | With the composite wait, and a non-empty range whenever the random sleep is configured, the sleep after an attempt never raises |
| `Retrrry.Retry.IncrementingSleepMonotone` | src/retrrry/__init__.py:234-241 | With a non-negative increment, later attempts never wait less |
| `Retrrry.Retry.ExponentialSleepMonotone` | src/retrrry/__init__.py:243-250 | Later attempts never wait less, whatever the multiplier |
| `Retrrry.Retry.Wait` | src/retrrry/__init__.py:299 | `self.wait(n, delay)` under a `randint` draw within its bounds: the result is the policy's wait `WaitWith` for that draw |
| `Retrrry.Retry.SleepFor` | src/retrrry/__init__.py:299-303 | The duration passed to `time.sleep` is the wait plus the jitter. It raises iff the wait raises or the duration is negative; a successful duration is never negative |
| `Retrrry.Retry.JitterBounds` | src/retrrry/__init__.py:300-302 | Jitter lengthens the sleep by less than `wait_jitter_max`, and by nothing when that is zero or negative |
| `Retrrry.Retry.DefaultFilters` | src/retrrry/__init__.py:252-258 | `AlwaysReject` and `NeverReject` as the default filters: with no filters, `ShouldReject` rejects (retries) every exception and accepts every value |
| `Retrrry.Retry.ExceptionTypesFilter` | src/retrrry/__init__.py:198-202 | With a tuple of types (turned into `RetryIfExceptionOfType`), an exception is rejected iff it is an instance of one of them, by its own type or a base class |
| `Retrrry.Retry.ExceptionJudgedByExceptionFilterOnly` | src/retrrry/__init__.py:260-265 | `ShouldReject` judges an exception by the exception filter alone: two objects with the same exception filter agree on it |
| `Retrrry.Retry.ValueJudgedByResultFilterOnly` | src/retrrry/__init__.py:260-265 | `ShouldReject` judges a returned value by the result filter alone: two objects with the same result filter agree on it |
| `Retrrry.Retry.GiveUp` | src/retrrry/__init__.py:291-297 | Giving up never returns. It re-raises the attempt's own exception iff `wrap_exception` is false and the attempt raised; otherwise it raises a `RetryError` holding that attempt |
| `Retrrry.Retry.Settle` | src/retrrry/__init__.py:285-297 | Attempt n continues the loop iff it is rejected and the stop does not fire. An accepted attempt ends with `Attempt.get(wrap_exception)`; a rejected one ends by giving up |
| `Retrrry.Retry.Call` | src/retrrry/__init__.py:267-305 | The result and the sleeps form a run of the loop: attempts numbered from 1 in steps of 1; every attempt before the last rejected with the stop not firing and followed by a sleep of wait plus jitter; the call ends as the last attempt settles it, or with the exception raised while computing or taking its sleep |
| `Retrrry.Retry.RunEndsWithLastAttempt` | src/retrrry/__init__.py:285-297 | In any run, a returned value is the accepted value of the last attempt, and a `RetryError` carries the last attempt, numbered one more than the sleeps taken, raised because the stop fired or because the accepted exception was wrapped; a raised exception is either the last attempt's own exception, with `wrap_exception` false, or the error of the sleep after the last attempt |
| `Retrrry.Retry.RunSleepsAre` | src/retrrry/__init__.py:298-303 | When the sleep after each taken attempt can only be `c`, every recorded `time.sleep` argument is `c` |
| `Retrrry.Retry.RunEndsAt` | src/retrrry/__init__.py:275-305 | When attempt n is the first to settle and no sleep before it can raise, the run makes exactly n attempts and ends as attempt n dictates |
| `Outcomes.Attempt.Get` | src/retrrry/__init__.py:327-338 | `get` returns the value iff the attempt returned, re-raises the exception iff it raised and is not wrapped, and otherwise raises a `RetryError` holding this attempt |
| `RetrrryScenarios.IncrementingWaits` | tests.py:73-77 | `wait_incrementing_start=500, wait_incrementing_increment=100` waits 500, 600, 700 |
| `RetrrryScenarios.ExponentialWaitsCappedAtForty` | tests.py:120-129 | `wait_exponential_max=40` waits 2, 4, 8, 16, 32 and then 40 for every later attempt |
| `RetrrryScenarios.ExponentialWaitsWithMultiplier` | tests.py:132-141 | With multiplier 1000 and max 50000: 2000, 4000, 8000, 16000, 32000 after attempts 1 to 5, then 50000 from attempt 6 on |
| `RetrrryScenarios.RandomWaitsBetweenBounds` | tests.py:80-92 | `wait_random_min=1000, wait_random_max=2000` waits between 1000 and 2000 |
| `RetrrryScenarios.RandomMinAboveDefaultMax` | src/retrrry/__init__.py:127-128 | `wait_random_min=2000` alone keeps the default maximum 1000, so the wait raises `ValueError` |
| `RetrrryScenarios.ExponentialOverflowCounterexample` | src/retrrry/__init__.py:246-248 | Under `wait_exponential_max=40`, attempt 1023 waits 40 but the as-written wait after attempt 1024 raises `OverflowError`; the exact wait is 40 |
| `RetrrryScenarios.StopOnReturnValue` | tests.py:367-375 | A work returning `None` under `stop_max_attempt_number=3` and `retry_if_result_none` ends with a `RetryError` holding attempt 3 and its `None`, after two zero sleeps |
| `RetrrryScenarios.StopOnReturnValueLambda` | tests.py:378-386 | The same, with `lambda x: x == 1` and a work returning 1 |
| `RetrrryScenarios.StopOnException` | tests.py:389-395 | An `IOError`, retried by default under `stop_max_attempt_number=3`, is re-raised as itself |
| `RetrrryScenarios.StopOnExceptionWrapped` | tests.py:408-419 | With `wrap_exception=True` the same run ends with a `RetryError` holding attempt 3 and the `IOError` |
| `RetrrryScenarios.UnlistedExceptionPropagates` | tests.py:398-406 | A `NameError` not in the retried types is raised at once, from attempt 1 |
| `RetrrryScenarios.UnlistedExceptionWrapped` | tests.py:449-454 | With `wrap_exception=True` it ends at once with a `RetryError` holding attempt 1 |
| `RetrrryScenarios.FixedWaitBetweenAttempts` | tests.py:359-364 | `wait_fixed=50` with a work that fails five times sleeps 50 five times and returns `True` from attempt 6 |
| `RetrrryScenarios.DefaultsRetryUntilSuccess` | tests.py:495-496 | `Retry()` with a work that fails five times never stops early: five zero sleeps, then the value of attempt 6 |

## Left out

- The `retry` decorator (src/retrrry/__init__.py:76-93) and its `functools.wraps`: it only builds a `Retry` and calls `call`. Positional and keyword arguments of the unit of work are folded into the oracle `work`.
- `_reraise` and tracebacks: re-raising is modelled as the call ending with the same exception value.
- `Attempt.__repr__` and `RetryError.__str__`: these are string formatting only.
- The `before_attempts` and `after_attempts` hooks: they are caller code with no effect on the loop's decisions, so they are treated as no-ops.
- The wall clock `_current_time_ms` and the real duration of `time.sleep`: the clock is the oracle `clock(n)`, with no constraint relating it to the sleeps taken.
- Floating point: the jitter is a whole number of milliseconds in `[0, wait_jitter_max)`, not the float `random.random() * wait_jitter_max`. A `wait_func` returns an integer, not a float. `time.sleep`'s argument is recorded in milliseconds rather than divided by 1000.0.
- The distribution of `random.randint`: only the range of a draw is modelled. Hence the test that successive random waits differ is not stated.
- Unknown names passed as `stop` or `wait` raise `AttributeError` at construction in the source. The named policies are an enumeration here, so such names cannot be written.
- Exceptions raised by a `stop_func`, a `wait_func` or a filter: these are modelled as total functions.
- The `value` and `has_exception` properties of `Attempt`: `value` is the datatype's `outcome` field. `has_exception` is `Attempt.HasException`, which has no contract of its own and is used by `Get` and `GiveUp`.
- Retrrry.Retry.Call: requires that some attempt settles the call (is accepted or makes the stop fire). Runs that retry forever are outside its contract. So is a run that ends only through a raising sleep with no later attempt settling, although `IsRunOf` describes that ending.
- Retrrry.Retry.CompositeWaitNeverRaises: the composite wait uses the corrected `ExponentialSleep`, so the lemma does not exclude previous attempt numbers of 1024 and above with an exponential option, where the source raises `OverflowError` (see Findings).
- Retrrry.Retry.SleepWith: the `Exponential` case uses the corrected `ExponentialSleep`, so the source's `OverflowError` from attempt 1024 on is not captured (see Findings).
- Retrrry.Retry.Call: the loop's waits use the corrected `ExponentialSleep`, so no run raises the `OverflowError` that `math.pow` raises in the source from attempt 1024 on (see Findings).
- Retrrry.Retry.ExponentialSleep: computes `2^n` exactly. It does not raise `OverflowError` for attempt numbers of 1024 and above as the source does. The as-written behaviour is `ExponentialSleepAsWritten` (see Findings).

## Findings

| source | as written | input that shows it | evidently intended | confidence | as-written member | corrected member |
|---|---|---|---|---|---|---|
| src/retrrry/__init__.py:246-248 | The exponential wait computes `int(pow(2, n))` with `math.pow`. `math.pow` raises `OverflowError` once `2^n` exceeds the double range, before the cap is applied | `Retry(wait_exponential_max=40)` at previous attempt number 1024, reached by a call with no stop that keeps failing; `RetrrryScenarios.ExponentialOverflowCounterexample` shows 1023 gives 40 and 1024 raises | The wait stays at the cap for every later attempt (tests.py:120-129 expects 40 from attempt 6 on), so the loop keeps retrying | not executed; high | `Retrrry.Retry.ExponentialSleepAsWritten` | `Retrrry.Retry.ExponentialSleep` |
