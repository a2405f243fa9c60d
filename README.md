# resolvable, modelled in Dafny

`resolvable` wraps a Go resolver, a function `func(ctx) (T, error)`, in stacked decorators:

- an **expiring cache** with one slot (`cache.Resolve`), and its two named configurations `Once` and `Retry`;
- **graceful fallback** (`Graceful`), which pairs the last good value with a fresh error;
- a **mutex guard** (`Safe`);
- `Static`, a resolver that always succeeds with a fixed value.

`New` assembles these decorators from a list of option setters. The retrying cache asks a **back-off policy** (backoff.go) how long to wait after a failure.

This project models all of the above and proves what each decorator does on one call and over sequences of calls.

Files:

- `backoff.dfy` (module `BackOff`): the `BackOff` contract, `BackOffStop` and `zeroBackoff`. It also defines `Scripted`, an abstract stateful policy that hands out a fixed list of delays and then signals stop. A policy is a value. `NextBackOff` returns the delay together with the policy's next state.
- `resolvable.dfy` (module `Resolvable`): the cache, graceful fallback, `Static`, `Once`, `Retry` and the composed pipeline.
  - `CacheResolve`, `GracefulResolve` and `PipelineResolve` are pure transition functions.
  - The classes `Cache` and `Graceful` hold the same state in fields. Their methods update those fields in place and are proved to follow the transition functions.
- `builder.dfy` (module `Builder`): the option setters, the options loop of `New`, the precedence between the cache configurations, and the `Pipeline` class that `New` returns.
- `traces.dfy` (module `Traces`): behaviour over sequences of calls.
- `scenarios.dfy` (module `Scenarios`): the call sequences of resolvable_test.go, replayed on the model.
- `wrappers.dfy`: `Option`.

Modelling choices:

- **Time.** A call takes the clock reading `now` as an integer number of nanoseconds. `time.Duration` is likewise an `int`. "Before" is strict `<`.
- **The wrapped resolver.** Each call is also given the outcome the wrapped resolver would return if it were invoked on that call. Each resolve reports whether the wrapped resolver actually ran (`invoked`), and a run counts these invocations. The tests' counting resolvers are replayed this way.
- **Errors.** A Go `error` is `Option<Error>`. `None` stands for `nil`.

## Where the comments, tests and code disagree

The model follows the code in each of these cases.

- **Zero expiry.** The comment at resolvable.go:206 says that zero means "cache forever", but `cache.Resolve` does not implement that. With `Expiry == 0` it sets `nextResolve = now`, and `now < nextResolve` then fails for every later reading of a clock that does not go back. So `Once`, and `Retry` after a success, call the wrapped resolver again on every call. `Traces.InvokedOnEveryCall`, `Traces.OnceInvokesOnEveryCall`, `Traces.RetryInvokesOnEveryCall`, `Scenarios.OnceRunsAgain` and `Scenarios.RetryRunsAgainAfterSuccess` prove this. The assertions at resolvable_test.go:46-49, 132-134 and 255-258 expect the opposite.
- **Back-off stop.** `BackOffStop` (-1) gets no special treatment. A stop sets `nextResolve = now - 1`, so the next call is due at once (`Resolvable.StopIsImmediatelyDue`). The cache is not pinned as a permanent failure.
- **Retry options in `CacheOpts`.** `Retry` (resolvable.go:171) and `cache.backoff` (resolvable.go:233) use a `RetryOpts` field that the `CacheOpts` declaration lacks. The model gives `CacheOpts` that field.
- **TTL branch of `New`.** The TTL branch builds its `CacheOpts` without retry options (resolvable.go:121-125). A TTL cache built by `New` therefore retries on the zero policy even when `WithRetryOpts` was given (`Builder.Build`, `Builder.NewLayers`).

## Model

| member | source | states |
|---|---|---|
| `BackOff.NextBackOff` | backoff.go:8-20 | A well-formed policy answers either a wait of zero or more nanoseconds or `BackOffStop`, and stays well-formed. A policy that never asks for a positive wait keeps that property. |
| `BackOff.ResetForgetsHistory` | backoff.go:22-23 | `Reset` after any number of `NextBackOff` calls gives the same state as `Reset` before them, so it restores the initial state. `Reset` is idempotent. |
| `BackOff.ZeroBackOffIsStateless` | backoff.go:29-33 | `zeroBackoff` answers 0 however often it is asked, and `Reset` does not change it. |
| `BackOff.ScriptedYieldsDelaysInOrder` | backoff.go:7-27 | After a reset, the abstract policy hands out its k-th delay on the k-th request and `BackOffStop` once the script is used up. |
| `Resolvable.EffectivePolicy` | resolvable.go:232-238 | `cache.backoff()` is the configured policy, or, when none is configured, a policy that never waits and answers 0. |
| `Resolvable.CacheResolve` | resolvable.go:205-230 | The wrapped resolver runs iff the slot is not fresh, meaning no value is stored or `now` is not strictly before `nextResolve`. A hit returns the stored pair and changes nothing. A miss stores the inner pair verbatim and returns it. A success, or a failure without retry, sets `nextResolve = now + Expiry`, so errors are held for the TTL like values. A retried failure sets `nextResolve = now + NextBackOff()`, asking a freshly reset policy on the first call. A success leaves the policy reset. A failure without retry leaves the policy as it was, apart from the first-call reset. |
| `Resolvable.StopIsImmediatelyDue` | resolvable.go:223-227 | A retried failure whose policy answers `BackOffStop` sets `nextResolve = now - 1`, and the cache is due again at the same instant. |
| `Resolvable.Cache.constructor` | resolvable.go:192-195 | A new cache keeps its options, holds no value and uses `cache.backoff()`'s policy. |
| `Resolvable.Cache.Lookup` | resolvable.go:209-213 | A fresh slot is served unchanged. Otherwise a cache that has never resolved resets its policy before the inner call. |
| `Resolvable.Cache.Record` | resolvable.go:215-227 | Stores the inner value and error and schedules `nextResolve` as `CacheResolve` does. |
| `Resolvable.Cache.Resolve` | resolvable.go:205-230 | The in-place update of `value`, `err`, `nextResolve` and the policy follows `CacheResolve` exactly, and so does the returned pair. |
| `Resolvable.GracefulResolve` | resolvable.go:142-155 | The error slot is never altered. On a failure with a remembered value, that value is returned with the new error and kept. Otherwise the inner pair passes through and its value is remembered, including on a first failing call. |
| `Resolvable.Graceful.constructor` | resolvable.go:143 | The remembered value starts absent. |
| `Resolvable.Graceful.Resolve` | resolvable.go:144-154 | The closure's update of `lastGood` and its result follow `GracefulResolve`. |
| `Resolvable.PipelineResolve` | resolvable.go:114-137 | Composition in `New`'s order. Without a cache the base resolver always runs. Behind a cache it runs iff the cache is not fresh, and a hit serves the stored pair and leaves every layer's state untouched. When the base runs, its error reaches the caller unaltered, and its value is replaced only by graceful fallback's remembered value. Graceful fallback's slot then moves as `GracefulResolve` says. The cache, being outside graceful fallback, records the substituted pair and schedules its next resolve as `CacheResolve` says. |
| `Resolvable.SafeIsTransparent` | resolvable.go:241-248 | For one caller at a time, the mutex guard changes neither the result nor any state. |
| `Builder.ApplyOptions` | resolvable.go:107-112 | The loop applies the setters in order to the defaults, where only `safe` is on. |
| `Builder.ConfigureFlags` | resolvable.go:42-70 | `once`, `retry` and `graceful` are set iff `WithOnce`, `WithRetry` and `WithGraceful` occur among the setters. |
| `Builder.ConfigureSafe` | resolvable.go:89-109 | The guard is on by default. It is off iff some `WithUnsafe` is not followed by a `WithSafe`, so the later setter wins. |
| `Builder.ConfigureExpiry` | resolvable.go:72-80 | The expiry is the last `WithCacheTTL`'s duration, or 0 when no such setter occurs. |
| `Builder.ConfigureRetryOpts` | resolvable.go:57-62 | The retry options are the last `WithRetryOpts`'s, or the zero value when no such setter occurs. |
| `Builder.Build` | resolvable.go:116-135 | Graceful fallback iff `graceful`, and the guard iff `safe`. At most one cache, chosen with precedence: `expiry > 0` (a TTL cache with the `retry` flag and no retry options), then `retry` (`Retry` with the configured options), then `once` (`Once`). |
| `Builder.NewLayers` | resolvable.go:106-137 | The layers stated directly on the setter list. A last `WithCacheTTL` with a positive duration wins over retry and once. When there is no TTL setter, or the last one is zero or negative, `WithRetry` wins over `WithOnce`. With neither, there is no cache. |
| `Builder.Pipeline.constructor` | resolvable.go:106-138 | `New` holds the configuration `Build(Configure(opts))` and starts with empty decorator state. |
| `Builder.Pipeline.Resolve` | resolvable.go:114-137 | A call through the decorator objects updates them in place as `PipelineResolve` says and returns its result. |
| `Traces.HitsWhileFresh` | resolvable.go:209-210 | While every call comes before `nextResolve`, a cache holding a pair replays it verbatim, a cached error included. The resolver never runs and no state changes. |
| `Traces.InvokedOnEveryCall` | resolvable.go:219-227 | The clock never goes back, and on each call either the expiry is zero or a retrying cache meets a failure. When a retrying cache meets some failure, its policy must also never ask for a positive wait. Under these conditions the wrapped resolver runs on every call. Successes, and failures without retry, never consult the policy. |
| `Traces.OnceInvokesOnEveryCall` | resolvable.go:157-160 | As written, `Once` runs its resolver on every call. |
| `Traces.RetryInvokesOnEveryCall` | resolvable.go:167-173 | As written, `Retry` runs its resolver on every call, after a success too. This holds for any policy while calls succeed. Once a call fails, it holds for a policy that never waits, such as the default one. |
| `Traces.ZeroPolicyRetriesAtOnce` | backoff.go:33 | A retrying cache on the zero policy re-attempts every failure on the next call, whatever its TTL and even with a frozen clock. The policy stays in the zero state. |
| `Traces.ZeroPolicyStaysZero` | backoff.go:29-33 | A cache on the zero policy still holds the zero policy after any calls, because `Reset` and `NextBackOff` leave it unchanged. |
| `Traces.StaticAlwaysAnswers` | resolvable.go:250-255 | Any pipeline around `Static(v)` answers `(v, nil)` on every call, whatever the options and the clock. |
| `Traces.GracefulRemembers` | resolvable.go:147-153 | After any calls, graceful fallback remembers the value of the last successful call. If no call succeeded, it keeps what it had, or, if it had nothing, the first failing call's value. |
| `Scenarios.CacheHoldsErrorsForTtl` | resolvable_test.go:141-187 | A cached error is replayed until the TTL runs out, and then a success is cached. |
| `Scenarios.CacheRetriesErrorsAtOnce` | resolvable_test.go:189-224 | With retry and a frozen clock, failures are re-attempted at once and the success is then held. |
| `Scenarios.GracefulServesLastGood` | resolvable_test.go:93-116 | The results are (1, nil), then (1, err), then (3, nil). |
| `Scenarios.GracefulBehindTtl` | resolvable_test.go:261-309 | With TTL, graceful fallback, no guard and retry, the failure after expiry shows the last good value and the following calls resolve again. |
| `Scenarios.NewTtlWithRetry` | resolvable_test.go:52-90 | With a TTL and retry, the value is held before expiry, a failure after it is returned once, and the next call resolves again. |
| `Scenarios.OnceRunsAgain` | resolvable_test.go:118-135 | As written, a second call of `New(fn, WithOnce())` at the same instant returns the second invocation's value. |
| `Scenarios.RetryRunsAgainAfterSuccess` | resolvable_test.go:227-258 | As written, for `Retry(fn, RetryOpts{})` without a guard, the call after the success runs the resolver again. |
| `Scenarios.ZeroTtlFallsBackToOnce` | resolvable.go:120-129 | For `[WithCacheTTL(5), WithCacheTTL(0), WithOnce]` the last TTL is zero, so `New` builds `Once`. |

## Left out

- The debug `fmt.Printf` in `cache.Resolve` (resolvable.go:208) is console output with no effect on state.
- The mutex in `Safe` (resolvable.go:241-248) only matters for concurrent callers, and the model is sequential. The guard is a pass-through (`SafeIsTransparent`).
- `WithContext` and `WithBackgroundContext` (resolvable.go:17-28) are left out. They only bind a context, and the model's resolvers take no context.
- `WithNow`, `CacheOpts.Now` and the wall clock `time.Now` (resolvable.go:82-87, 184-189) are not modelled. Each call carries its own clock reading instead. One Go call reads the clock three times: in the debug `Printf` (line 208), in the freshness test (line 209) and when scheduling (line 227). The model treats all three as one instant, which matters only for a clock whose readings change within a call. The model also does not show that the `Retry` and `Once` branches of `New` drop the custom clock (resolvable.go:126-130).
- `RetryOpts.MaxTries` (resolvable.go:164) is carried but never read, as in the source.
- Back-off policies from outside the package, such as the cenkalti/backoff library, are not part of this model. The model has only `zeroBackoff` and the abstract scripted policy.
- Every cache holds its own copy of its policy's state. Sharing one configured `BackOff` object between several caches is not modelled, because it aliases state across pipelines.
- A `Pipeline` always holds a graceful fallback object and a cache object, and its configuration decides which of them take part. Go allocates only the layers in use. This makes no observable difference.
- Durations and times are unbounded integers. The int64 overflow of `time.Time.Add` is not modelled.
