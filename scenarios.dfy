/**
 * The call sequences of resolvable_test.go, replayed on the model. The test resolvers
 * count their invocations and return the count; a call's `base` is what that resolver
 * would return if reached on that call. Clock readings are nanoseconds from `t`.
 */
module Scenarios {
  import opened Wrappers
  import opened Resolvable
  import opened Traces
  import opened Builder

  const Second := 1_000_000_000
  const Failure: Option<Error> := Some(Error("resolve error"))

  function Ok(n: int): Outcome<int> { Outcome(n, None) }
  function Failed(n: int): Outcome<int> { Outcome(n, Failure) }

  /** A TTL cache without retry holds an error for the whole TTL, exactly like a value. */
  lemma CacheHoldsErrorsForTtl(t: int)
    ensures var cfg := Config(false, Some(CacheOpts(2 * Second, false, NoRetryOpts)), false);
      var r := RunCalls(cfg, InitialPipeline(cfg), [Call(t, Ok(1)), Call(t + Second, Ok(2)), Call(t + 3 * Second, Failed(2)), Call(t + 3 * Second, Ok(3)), Call(t + 5 * Second, Ok(3)), Call(t + 5 * Second, Ok(4))]);
      r.outs == [Ok(1), Ok(1), Failed(2), Failed(2), Ok(3), Ok(3)] && r.invocations == 3
  {
    var cfg := Config(false, Some(CacheOpts(2 * Second, false, NoRetryOpts)), false);
    var calls := [Call(t, Ok(1)), Call(t + Second, Ok(2)), Call(t + 3 * Second, Failed(2)), Call(t + 3 * Second, Ok(3)), Call(t + 5 * Second, Ok(3)), Call(t + 5 * Second, Ok(4))];
    var s := InitialPipeline(cfg);
    var t1 := PipelineResolve(cfg, s, calls[0].now, calls[0].base);
    var t2 := PipelineResolve(cfg, t1.next, calls[1].now, calls[1].base);
    var t3 := PipelineResolve(cfg, t2.next, calls[2].now, calls[2].base);
    var t4 := PipelineResolve(cfg, t3.next, calls[3].now, calls[3].base);
    var t5 := PipelineResolve(cfg, t4.next, calls[4].now, calls[4].base);
    var t6 := PipelineResolve(cfg, t5.next, calls[5].now, calls[5].base);
    assert t1.out == Ok(1) && t1.invoked;
    assert t2.out == Ok(1) && !t2.invoked;
    assert t3.out == Failed(2) && t3.invoked;
    assert t4.out == Failed(2) && !t4.invoked;
    assert t5.out == Ok(3) && t5.invoked;
    assert t6.out == Ok(3) && !t6.invoked;
    RunFirst(cfg, t5.next, calls[5..]);
    assert calls[5..][1..] == [];
    RunFirst(cfg, t4.next, calls[4..]);
    assert calls[4..][1..] == calls[5..];
    RunFirst(cfg, t3.next, calls[3..]);
    assert calls[3..][1..] == calls[4..];
    RunFirst(cfg, t2.next, calls[2..]);
    assert calls[2..][1..] == calls[3..];
    RunFirst(cfg, t1.next, calls[1..]);
    assert calls[1..][1..] == calls[2..];
    RunFirst(cfg, s, calls);
  }

  /** A retrying TTL cache on the default policy retries failures with a frozen clock, then holds the success. */
  lemma CacheRetriesErrorsAtOnce(t: int)
    ensures var cfg := Config(false, Some(CacheOpts(2 * Second, true, NoRetryOpts)), false);
      var r := RunCalls(cfg, InitialPipeline(cfg), [Call(t, Failed(1)), Call(t, Failed(2)), Call(t, Ok(3)), Call(t, Ok(4))]);
      r.outs == [Failed(1), Failed(2), Ok(3), Ok(3)] && r.invocations == 3
  {
    var cfg := Config(false, Some(CacheOpts(2 * Second, true, NoRetryOpts)), false);
    var calls := [Call(t, Failed(1)), Call(t, Failed(2)), Call(t, Ok(3)), Call(t, Ok(4))];
    var s := InitialPipeline(cfg);
    var t1 := PipelineResolve(cfg, s, calls[0].now, calls[0].base);
    var t2 := PipelineResolve(cfg, t1.next, calls[1].now, calls[1].base);
    var t3 := PipelineResolve(cfg, t2.next, calls[2].now, calls[2].base);
    var t4 := PipelineResolve(cfg, t3.next, calls[3].now, calls[3].base);
    assert t1.out == Failed(1) && t1.invoked;
    assert t2.out == Failed(2) && t2.invoked;
    assert t3.out == Ok(3) && t3.invoked;
    assert t4.out == Ok(3) && !t4.invoked;
    RunFirst(cfg, t3.next, calls[3..]);
    assert calls[3..][1..] == [];
    RunFirst(cfg, t2.next, calls[2..]);
    assert calls[2..][1..] == calls[3..];
    RunFirst(cfg, t1.next, calls[1..]);
    assert calls[1..][1..] == calls[2..];
    RunFirst(cfg, s, calls);
  }

  /** Graceful fallback pairs the last good value with the new error, and a success replaces it. */
  lemma GracefulServesLastGood(t: int)
    ensures var cfg := Config(true, None, false);
      var r := RunCalls(cfg, InitialPipeline(cfg), [Call(t, Ok(1)), Call(t, Failed(2)), Call(t, Ok(3))]);
      r.outs == [Ok(1), Outcome(1, Failure), Ok(3)] && r.invocations == 3
  {
    var cfg := Config(true, None, false);
    var calls := [Call(t, Ok(1)), Call(t, Failed(2)), Call(t, Ok(3))];
    var s := InitialPipeline(cfg);
    var t1 := PipelineResolve(cfg, s, calls[0].now, calls[0].base);
    var t2 := PipelineResolve(cfg, t1.next, calls[1].now, calls[1].base);
    var t3 := PipelineResolve(cfg, t2.next, calls[2].now, calls[2].base);
    assert t1.out == Ok(1) && t1.invoked;
    assert t2.out == Outcome(1, Failure) && t2.invoked;
    assert t3.out == Ok(3) && t3.invoked;
    RunFirst(cfg, t2.next, calls[2..]);
    assert calls[2..][1..] == [];
    RunFirst(cfg, t1.next, calls[1..]);
    assert calls[1..][1..] == calls[2..];
    RunFirst(cfg, s, calls);
  }

  /** Graceful fallback behind a retrying TTL cache: the failure after expiry shows the last good value. */
  lemma GracefulBehindTtlTrace(t: int)
    ensures var cfg := Config(true, Some(CacheOpts(2 * Second, true, NoRetryOpts)), false);
      var r := RunCalls(cfg, InitialPipeline(cfg), [Call(t, Ok(1)), Call(t, Ok(2)), Call(t + 2 * Second, Failed(2)), Call(t + 2 * Second, Ok(3)), Call(t + 4 * Second, Ok(4))]);
      r.outs == [Ok(1), Ok(1), Outcome(1, Failure), Ok(3), Ok(4)] && r.invocations == 4
  {
    var cfg := Config(true, Some(CacheOpts(2 * Second, true, NoRetryOpts)), false);
    var calls := [Call(t, Ok(1)), Call(t, Ok(2)), Call(t + 2 * Second, Failed(2)), Call(t + 2 * Second, Ok(3)), Call(t + 4 * Second, Ok(4))];
    var s := InitialPipeline(cfg);
    var t1 := PipelineResolve(cfg, s, calls[0].now, calls[0].base);
    var t2 := PipelineResolve(cfg, t1.next, calls[1].now, calls[1].base);
    var t3 := PipelineResolve(cfg, t2.next, calls[2].now, calls[2].base);
    var t4 := PipelineResolve(cfg, t3.next, calls[3].now, calls[3].base);
    var t5 := PipelineResolve(cfg, t4.next, calls[4].now, calls[4].base);
    assert t1.out == Ok(1) && t1.invoked;
    assert t2.out == Ok(1) && !t2.invoked;
    assert t3.out == Outcome(1, Failure) && t3.invoked;
    assert t4.out == Ok(3) && t4.invoked;
    assert t5.out == Ok(4) && t5.invoked;
    RunFirst(cfg, t4.next, calls[4..]);
    assert calls[4..][1..] == [];
    RunFirst(cfg, t3.next, calls[3..]);
    assert calls[3..][1..] == calls[4..];
    RunFirst(cfg, t2.next, calls[2..]);
    assert calls[2..][1..] == calls[3..];
    RunFirst(cfg, t1.next, calls[1..]);
    assert calls[1..][1..] == calls[2..];
    RunFirst(cfg, s, calls);
  }

  /** `New` with a TTL, graceful fallback, no guard and retry: as resolvable_test.go builds it. */
  lemma GracefulBehindTtl(t: int)
    ensures var cfg := Build(Configure([WithCacheTTL(2 * Second), WithGraceful, WithUnsafe, WithRetry]));
      var r := RunCalls(cfg, InitialPipeline(cfg), [Call(t, Ok(1)), Call(t, Ok(2)), Call(t + 2 * Second, Failed(2)), Call(t + 2 * Second, Ok(3)), Call(t + 4 * Second, Ok(4))]);
      r.outs == [Ok(1), Ok(1), Outcome(1, Failure), Ok(3), Ok(4)] && r.invocations == 4
  {
    var opts := [WithCacheTTL(2 * Second), WithGraceful, WithUnsafe, WithRetry];
    NewLayers(opts);
    assert IsLastTtl(opts, 0) && opts[1].WithGraceful? && opts[2].WithUnsafe? && opts[3].WithRetry?;
    assert Build(Configure(opts)) == Config(true, Some(CacheOpts(2 * Second, true, NoRetryOpts)), false);
    GracefulBehindTtlTrace(t);
  }

  /** `New` with a TTL and retry: a failure after expiry is served once, then retried at once. */
  lemma NewTtlWithRetry(t: int)
    ensures var cfg := Build(Configure([WithCacheTTL(2 * Second), WithRetry]));
      var r := RunCalls(cfg, InitialPipeline(cfg), [Call(t, Ok(1)), Call(t + Second, Ok(2)), Call(t + 3 * Second, Failed(2)), Call(t + 3 * Second, Ok(3))]);
      r.outs == [Ok(1), Ok(1), Failed(2), Ok(3)] && r.invocations == 3
  {
    var cfg := Build(Configure([WithCacheTTL(2 * Second), WithRetry]));
    var calls := [Call(t, Ok(1)), Call(t + Second, Ok(2)), Call(t + 3 * Second, Failed(2)), Call(t + 3 * Second, Ok(3))];
    var opts := [WithCacheTTL(2 * Second), WithRetry];
    NewLayers(opts);
    assert IsLastTtl(opts, 0) && opts[1].WithRetry?;
    assert cfg == Config(false, Some(CacheOpts(2 * Second, true, NoRetryOpts)), true);
    var s := InitialPipeline(cfg);
    var t1 := PipelineResolve(cfg, s, calls[0].now, calls[0].base);
    var t2 := PipelineResolve(cfg, t1.next, calls[1].now, calls[1].base);
    var t3 := PipelineResolve(cfg, t2.next, calls[2].now, calls[2].base);
    var t4 := PipelineResolve(cfg, t3.next, calls[3].now, calls[3].base);
    assert t1.out == Ok(1) && t1.invoked;
    assert t2.out == Ok(1) && !t2.invoked;
    assert t3.out == Failed(2) && t3.invoked;
    assert t4.out == Ok(3) && t4.invoked;
    RunFirst(cfg, t3.next, calls[3..]);
    assert calls[3..][1..] == [];
    RunFirst(cfg, t2.next, calls[2..]);
    assert calls[2..][1..] == calls[3..];
    RunFirst(cfg, t1.next, calls[1..]);
    assert calls[1..][1..] == calls[2..];
    RunFirst(cfg, s, calls);
  }

  /** As written, `New(fn, WithOnce())` runs `fn` again on a second call at the same instant. */
  lemma OnceRunsAgain(t: int)
    ensures var cfg := Build(Configure([WithOnce]));
      var r := RunCalls(cfg, InitialPipeline(cfg), [Call(t, Ok(1)), Call(t, Ok(2))]);
      r.outs == [Ok(1), Ok(2)] && r.invocations == 2
  {
    var cfg := Build(Configure([WithOnce]));
    var calls := [Call(t, Ok(1)), Call(t, Ok(2))];
    var s := InitialPipeline(cfg);
    var t1 := PipelineResolve(cfg, s, calls[0].now, calls[0].base);
    var t2 := PipelineResolve(cfg, t1.next, calls[1].now, calls[1].base);
    assert t1.out == Ok(1) && t1.invoked;
    assert t2.out == Ok(2) && t2.invoked;
    RunFirst(cfg, t1.next, calls[1..]);
    assert calls[1..][1..] == [];
    RunFirst(cfg, s, calls);
  }

  /** As written, `Retry(fn, RetryOpts{})` runs `fn` again after it succeeded. */
  lemma RetryRunsAgainAfterSuccess(t: int)
    ensures var cfg := Config(false, Some(RetryCacheOpts(NoRetryOpts)), false);
      var r := RunCalls(cfg, InitialPipeline(cfg), [Call(t, Failed(1)), Call(t, Failed(2)), Call(t, Ok(3)), Call(t, Ok(4))]);
      r.outs == [Failed(1), Failed(2), Ok(3), Ok(4)] && r.invocations == 4
  {
    var cfg := Config(false, Some(RetryCacheOpts(NoRetryOpts)), false);
    var calls := [Call(t, Failed(1)), Call(t, Failed(2)), Call(t, Ok(3)), Call(t, Ok(4))];
    var s := InitialPipeline(cfg);
    var t1 := PipelineResolve(cfg, s, calls[0].now, calls[0].base);
    var t2 := PipelineResolve(cfg, t1.next, calls[1].now, calls[1].base);
    var t3 := PipelineResolve(cfg, t2.next, calls[2].now, calls[2].base);
    var t4 := PipelineResolve(cfg, t3.next, calls[3].now, calls[3].base);
    assert t1.out == Failed(1) && t1.invoked;
    assert t2.out == Failed(2) && t2.invoked;
    assert t3.out == Ok(3) && t3.invoked;
    assert t4.out == Ok(4) && t4.invoked;
    RunFirst(cfg, t3.next, calls[3..]);
    assert calls[3..][1..] == [];
    RunFirst(cfg, t2.next, calls[2..]);
    assert calls[2..][1..] == calls[3..];
    RunFirst(cfg, t1.next, calls[1..]);
    assert calls[1..][1..] == calls[2..];
    RunFirst(cfg, s, calls);
  }

  /** A last `WithCacheTTL` of zero switches the TTL cache off, and `WithOnce` then takes effect. */
  lemma ZeroTtlFallsBackToOnce()
    ensures Build(Configure([WithCacheTTL(5), WithCacheTTL(0), WithOnce])).cache == Some(OnceOpts())
  {
    var opts := [WithCacheTTL(5), WithCacheTTL(0), WithOnce];
    NewLayers(opts);
    assert IsLastTtl(opts, 1) && opts[2].WithOnce?;
    forall i | IsLastTtl(opts, i)
      ensures opts[i].ttl <= 0
    {
      assert i == 1;
    }
    assert !SetsRetry(opts);
  }
}
