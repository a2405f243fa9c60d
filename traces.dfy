/**
 * Sequences of calls through a pipeline: what resolvable.go's decorators do over time.
 *
 * Each call carries its clock reading and the outcome the base resolver gives if it is
 * reached during that call (`Call`). `RunCalls` threads the pipeline state through the
 * calls and counts how often the base resolver actually ran.
 */
module Traces {
  import opened Wrappers
  import opened BackOff
  import opened Resolvable

  datatype Call<T> = Call(now: int, base: Outcome<T>)

  datatype Run<T> = Run(outs: seq<Outcome<T>>, final: PipelineState<T>, invocations: nat)

  function RunCalls<T>(cfg: Config, st: PipelineState<T>, calls: seq<Call<T>>): (r: Run<T>)
    ensures |r.outs| == |calls| && r.invocations <= |calls|
    decreases |calls|
  {
    if |calls| == 0 then
      Run([], st, 0)
    else
      var t := PipelineResolve(cfg, st, calls[0].now, calls[0].base);
      var rest := RunCalls(cfg, t.next, calls[1..]);
      Run([t.out] + rest.outs, rest.final, (if t.invoked then 1 else 0) + rest.invocations)
  }

  /** The first call of a run, then the rest from the state it leaves. */
  lemma RunFirst<T>(cfg: Config, st: PipelineState<T>, calls: seq<Call<T>>)
    requires |calls| > 0
    ensures var t := PipelineResolve(cfg, st, calls[0].now, calls[0].base);
      var rest := RunCalls(cfg, t.next, calls[1..]);
      RunCalls(cfg, st, calls).outs == [t.out] + rest.outs &&
      RunCalls(cfg, st, calls).invocations == (if t.invoked then 1 else 0) + rest.invocations
  {
  }

  /**
   * While every call comes strictly before `nextResolve`, a cache that holds a pair replays
   * it verbatim, a cached error included, and nothing below it runs.
   */
  lemma {:induction false} HitsWhileFresh<T>(cfg: Config, st: PipelineState<T>, calls: seq<Call<T>>)
    requires cfg.cache.Some? && st.cache.value.Some?
    requires forall k :: 0 <= k < |calls| ==> calls[k].now < st.cache.nextResolve
    ensures RunCalls(cfg, st, calls).invocations == 0
    ensures RunCalls(cfg, st, calls).final == st
    ensures forall k :: 0 <= k < |calls| ==> RunCalls(cfg, st, calls).outs[k] == Stored(st.cache)
    decreases |calls|
  {
    if |calls| > 0 {
      HitsWhileFresh(cfg, st, calls[1..]);
    }
  }

  predicate NonDecreasing<T>(calls: seq<Call<T>>)
  {
    forall j, k :: 0 <= j < k < |calls| ==> calls[j].now <= calls[k].now
  }

  /** A cache configuration that, for this call, schedules its next resolve no later than now. */
  predicate DueAgainAfter<T>(co: CacheOpts, c: Call<T>)
  {
    co.expiry <= 0 || (co.retry && c.base.err.Some?)
  }

  predicate AnyFails<T>(calls: seq<Call<T>>)
  {
    exists k :: 0 <= k < |calls| && calls[k].base.err.Some?
  }

  /**
   * A cache whose expiry is zero, or which retries a failure on a policy that never waits,
   * does not hold what it stored: with a clock that never goes back, the base resolver runs
   * on every call. This is the code's rule for `Once` and `Retry` (their expiry is zero, which
   * the comment on `cache.Resolve` calls "cache forever"), and for a retried failure on the
   * default policy. The policy matters only when a retrying cache meets a failure.
   */
  lemma {:induction false} InvokedOnEveryCall<T>(cfg: Config, st: PipelineState<T>, calls: seq<Call<T>>)
    requires cfg.cache.Some? && cfg.cache.value.retry && AnyFails(calls) ==> NeverWaits(st.cache.policy)
    requires cfg.cache.Some? ==> forall k :: 0 <= k < |calls| ==> DueAgainAfter(cfg.cache.value, calls[k])
    requires cfg.cache.Some? && st.cache.value.Some? && |calls| > 0 ==> st.cache.nextResolve <= calls[0].now
    requires NonDecreasing(calls)
    ensures RunCalls(cfg, st, calls).invocations == |calls|
    decreases |calls|
  {
    if |calls| > 0 {
      var t := PipelineResolve(cfg, st, calls[0].now, calls[0].base);
      assert t.invoked;
      var rest := calls[1..];
      if cfg.cache.Some? {
        assert DueAgainAfter(cfg.cache.value, calls[0]);
        if cfg.cache.value.retry && calls[0].base.err.Some? {
          assert AnyFails(calls);
          ResetForgetsHistory(st.cache.policy, 0);
        }
        assert t.next.cache.nextResolve <= calls[0].now;
        if cfg.cache.value.retry && AnyFails(rest) {
          var k :| 0 <= k < |rest| && rest[k].base.err.Some?;
          assert calls[k + 1] == rest[k];
          assert NeverWaits(t.next.cache.policy);
        }
      }
      InvokedOnEveryCall(cfg, t.next, rest);
    }
  }

  /** `New(fn, WithOnce())` runs `fn` on every call, not once. */
  lemma OnceInvokesOnEveryCall<T>(safe: bool, calls: seq<Call<T>>)
    requires NonDecreasing(calls)
    ensures var cfg := Config(false, Some(OnceOpts()), safe);
      RunCalls(cfg, InitialPipeline(cfg), calls).invocations == |calls|
  {
    var cfg := Config(false, Some(OnceOpts()), safe);
    InvokedOnEveryCall(cfg, InitialPipeline(cfg), calls);
  }

  /**
   * `Retry` runs the resolver on every call, after a success too, whatever its policy; only
   * when a call fails does it matter that the policy never asks for a positive wait.
   */
  lemma RetryInvokesOnEveryCall<T>(opts: RetryOpts, safe: bool, calls: seq<Call<T>>)
    requires NonDecreasing(calls)
    requires AnyFails(calls) ==> NeverWaits(EffectivePolicy(opts))
    ensures var cfg := Config(false, Some(RetryCacheOpts(opts)), safe);
      RunCalls(cfg, InitialPipeline(cfg), calls).invocations == |calls|
  {
    var cfg := Config(false, Some(RetryCacheOpts(opts)), safe);
    InvokedOnEveryCall(cfg, InitialPipeline(cfg), calls);
  }

  /** A cache on the zero policy keeps it in the zero state through any calls. */
  lemma {:induction false} ZeroPolicyStaysZero<T>(cfg: Config, st: PipelineState<T>, calls: seq<Call<T>>)
    requires st.cache.policy == ZeroBackOff
    ensures RunCalls(cfg, st, calls).final.cache.policy == ZeroBackOff
    decreases |calls|
  {
    if |calls| > 0 {
      var t := PipelineResolve(cfg, st, calls[0].now, calls[0].base);
      if cfg.cache.Some? && t.invoked {
        ZeroBackOffIsStateless(0);
      }
      ZeroPolicyStaysZero(cfg, t.next, calls[1..]);
    }
  }

  /**
   * A retrying cache on the default policy, whatever its TTL, re-attempts a failure on the
   * very next call even with a frozen clock, and keeps its policy in the zero state.
   */
  lemma ZeroPolicyRetriesAtOnce<T>(cfg: Config, st: PipelineState<T>, calls: seq<Call<T>>)
    requires cfg.cache.Some? && cfg.cache.value.retry && st.cache.policy == ZeroBackOff
    requires st.cache.value.Some? && |calls| > 0 ==> st.cache.nextResolve <= calls[0].now
    requires forall k :: 0 <= k < |calls| ==> calls[k].base.err.Some?
    requires NonDecreasing(calls)
    ensures RunCalls(cfg, st, calls).invocations == |calls|
    ensures RunCalls(cfg, st, calls).final.cache.policy == ZeroBackOff
  {
    assert NeverWaits(st.cache.policy);
    ZeroPolicyStaysZero(cfg, st, calls);
    InvokedOnEveryCall(cfg, st, calls);
  }

  /** The state a pipeline can be in when its base resolver is `Static(v)`. */
  ghost predicate HoldsOnly<T>(st: PipelineState<T>, v: T)
  {
    (st.cache.value.Some? ==> st.cache.value.value == v && st.cache.err.None?) &&
    (st.lastGood.Some? ==> st.lastGood.value == v)
  }

  /** Any pipeline around `Static(v)` answers `(v, nil)` on every call, whatever the clock. */
  lemma {:induction false} StaticAlwaysAnswers<T>(cfg: Config, st: PipelineState<T>, v: T, calls: seq<Call<T>>)
    requires HoldsOnly(st, v)
    requires forall k :: 0 <= k < |calls| ==> calls[k].base == Static(v)
    ensures HoldsOnly(RunCalls(cfg, st, calls).final, v)
    ensures forall k :: 0 <= k < |calls| ==> RunCalls(cfg, st, calls).outs[k] == Static(v)
    decreases |calls|
  {
    if |calls| > 0 {
      var t := PipelineResolve(cfg, st, calls[0].now, calls[0].base);
      assert t.out == Static(v);
      StaticAlwaysAnswers(cfg, t.next, v, calls[1..]);
    }
  }

  predicate IsLastSuccess<T>(calls: seq<Call<T>>, k: int)
  {
    0 <= k < |calls| && calls[k].base.err.None? && forall j :: k < j < |calls| ==> calls[j].base.err.Some?
  }

  /**
   * Graceful fallback remembers the value of the last successful call; if no call has
   * succeeded, it keeps what it had, and a first failing call is remembered as well.
   */
  lemma {:induction false} GracefulRemembers<T>(safe: bool, st: PipelineState<T>, calls: seq<Call<T>>)
    ensures var fin := RunCalls(Config(true, None, safe), st, calls).final;
      (forall k :: IsLastSuccess(calls, k) ==> fin.lastGood == Some(calls[k].base.value)) &&
      ((forall k :: 0 <= k < |calls| ==> calls[k].base.err.Some?) ==>
        fin.lastGood == if st.lastGood.Some? || |calls| == 0 then st.lastGood else Some(calls[0].base.value))
    decreases |calls|
  {
    if |calls| > 0 {
      var cfg := Config(true, None, safe);
      var t := PipelineResolve(cfg, st, calls[0].now, calls[0].base);
      var rest := calls[1..];
      GracefulRemembers(safe, t.next, rest);
      assert RunCalls(cfg, st, calls).final == RunCalls(cfg, t.next, rest).final;
      forall k | IsLastSuccess(calls, k)
        ensures RunCalls(cfg, st, calls).final.lastGood == Some(calls[k].base.value)
      {
        if k > 0 {
          assert IsLastSuccess(rest, k - 1);
        } else {
          assert forall j :: 0 <= j < |rest| ==> rest[j].base.err.Some?;
        }
      }
    }
  }
}
