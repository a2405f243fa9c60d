/**
 * The decorators of resolvable.go: the expiring cache (with its Once and Retry
 * configurations), graceful fallback, the mutex guard and Static.
 *
 * A resolver is called with a clock reading `now` (nanoseconds) and, as `inner`, the
 * outcome the wrapped resolver produces if it is invoked during this call. Each decorator
 * is specified by a pure transition function on its state (`CacheResolve`,
 * `GracefulResolve`); the classes `Cache` and `Graceful` keep that state in fields and
 * update it in place, and their methods are proved to follow the transition functions.
 */
module Resolvable {
  import opened Wrappers
  import opened BackOff

  /** A Go `error` value; `None` in an `Option<Error>` stands for `nil`. */
  datatype Error = Error(message: string)

  /** What one call of a resolver yields: a value and an error-or-nil, side by side. */
  datatype Outcome<T> = Outcome(value: T, err: Option<Error>)

  /** The outcome of every call of `Static(v)`. */
  function Static<T>(v: T): Outcome<T>
  {
    Outcome(v, None)
  }

  /** `MaxTries` is carried but, as in the source, never read. */
  datatype RetryOpts = RetryOpts(backoff: Option<Policy>, maxTries: int)

  /** The zero `RetryOpts`: no policy configured. */
  const NoRetryOpts := RetryOpts(None, 0)

  /** Configuration of one expiring cache; `expiry` is a duration in nanoseconds. */
  datatype CacheOpts = CacheOpts(expiry: int, retry: bool, retryOpts: RetryOpts)

  /** `Once` is a cache with zero options. */
  function OnceOpts(): CacheOpts
  {
    CacheOpts(0, false, NoRetryOpts)
  }

  /** `Retry` is a cache that retries on error, with no expiry. */
  function RetryCacheOpts(opts: RetryOpts): CacheOpts
  {
    CacheOpts(0, true, opts)
  }

  /** `cache.backoff()`: the configured policy, or the stateless zero policy when none is. */
  function EffectivePolicy(opts: RetryOpts): (b: Policy)
    ensures opts.backoff.None? ==> NeverWaits(b) && WellFormed(b) && NextBackOff(b) == Next(0, b)
    ensures opts.backoff.Some? ==> b == opts.backoff.value
  {
    match opts.backoff
    case None => ZeroBackOff
    case Some(b) => b
  }

  /*****************************************************************************
   * Expiring cache
   *****************************************************************************/

  /** The cache's single slot: `value == None` means it has never resolved. */
  datatype CacheState<T> = CacheState(value: Option<T>, err: Option<Error>, nextResolve: int, policy: Policy)

  function InitialCache<T>(opts: CacheOpts): CacheState<T>
  {
    CacheState(None, None, 0, EffectivePolicy(opts.retryOpts))
  }

  /** The stored pair is served iff a value is present and `now` is strictly before `nextResolve`. */
  predicate IsFresh<T>(s: CacheState<T>, now: int)
  {
    s.value.Some? && now < s.nextResolve
  }

  function Stored<T>(s: CacheState<T>): Outcome<T>
    requires s.value.Some?
  {
    Outcome(s.value.value, s.err)
  }

  /** On a miss, before the inner resolver runs: a cache that has never resolved resets its policy. */
  function BeforeInvoke<T>(s: CacheState<T>): CacheState<T>
  {
    if s.value.None? then s.(policy := Reset(s.policy)) else s
  }

  /** On a miss, after the inner resolver returned `o`: store it and schedule the next resolve. */
  function AfterInvoke<T>(opts: CacheOpts, s: CacheState<T>, now: int, o: Outcome<T>): CacheState<T>
  {
    if o.err.None? then
      CacheState(Some(o.value), o.err, now + opts.expiry, Reset(s.policy))
    else if opts.retry then
      var n := NextBackOff(s.policy);
      CacheState(Some(o.value), o.err, now + n.delay, n.policy)
    else
      CacheState(Some(o.value), o.err, now + opts.expiry, s.policy)
  }

  datatype CacheTransition<T> = CacheTransition(out: Outcome<T>, next: CacheState<T>, invoked: bool)

  /** One call of `cache.Resolve`. */
  function CacheResolve<T>(opts: CacheOpts, s: CacheState<T>, now: int, inner: Outcome<T>): (r: CacheTransition<T>)
    // the inner resolver runs exactly when the slot is not fresh
    ensures r.invoked <==> !IsFresh(s, now)
    // a hit replays the stored pair and changes nothing
    ensures !r.invoked ==> r.out == Stored(s) && r.next == s
    // a miss stores the inner pair verbatim and returns that same pair
    ensures r.invoked ==> r.out == inner && r.next.value == Some(inner.value) && r.next.err == inner.err
    // successes, and failures when not retrying, are held for the full expiry
    ensures r.invoked && (inner.err.None? || !opts.retry) ==> r.next.nextResolve == now + opts.expiry
    // a retried failure waits for the policy's next delay; a first call asks a freshly reset policy
    ensures r.invoked && inner.err.Some? && opts.retry ==>
      var p := if s.value.None? then Reset(s.policy) else s.policy;
      r.next.nextResolve == now + NextBackOff(p).delay && r.next.policy == NextBackOff(p).policy
    // a success leaves the policy reset
    ensures r.invoked && inner.err.None? ==> r.next.policy == Reset(s.policy)
    // a failure without retry does not consult the policy beyond the first-call reset
    ensures r.invoked && inner.err.Some? && !opts.retry ==> r.next.policy == BeforeInvoke(s).policy
    ensures WellFormed(s.policy) ==> WellFormed(r.next.policy)
    ensures NeverWaits(s.policy) ==> NeverWaits(r.next.policy)
  {
    if IsFresh(s, now) then
      CacheTransition(Stored(s), s, false)
    else
      ResetIdempotent(s.policy);
      CacheTransition(inner, AfterInvoke(opts, BeforeInvoke(s), now, inner), true)
  }

  /** A cache that retries with a policy that has signalled stop is due again at once. */
  lemma StopIsImmediatelyDue<T>(opts: CacheOpts, s: CacheState<T>, now: int, inner: Outcome<T>)
    requires s.value.Some? && !IsFresh(s, now)
    requires opts.retry && inner.err.Some? && NextBackOff(s.policy).delay == BackOffStop
    ensures CacheResolve(opts, s, now, inner).next.nextResolve == now - 1
    ensures !IsFresh(CacheResolve(opts, s, now, inner).next, now)
  {
  }

  class Cache<T> {
    const opts: CacheOpts
    var value: Option<T>
    var err: Option<Error>
    var nextResolve: int
    var policy: Policy

    function State(): CacheState<T>
      reads this
    {
      CacheState(value, err, nextResolve, policy)
    }

    /** `Cache(resolvable, opts)`: a cache that has never resolved. */
    constructor (opts: CacheOpts)
      ensures this.opts == opts && State() == InitialCache(opts)
    {
      this.opts := opts;
      value, err, nextResolve := None, None, 0;
      policy := EffectivePolicy(opts.retryOpts);
    }

    /** The first half of `Resolve`: serve a fresh slot, or prepare to invoke the inner resolver. */
    method Lookup(now: int) returns (hit: Option<Outcome<T>>)
      modifies this
      ensures hit == if IsFresh(old(State()), now) then Some(Stored(old(State()))) else None
      ensures State() == if hit.Some? then old(State()) else BeforeInvoke(old(State()))
    {
      if value.Some? && now < nextResolve {
        hit := Some(Outcome(value.value, err));
      } else {
        hit := None;
        if value.None? {
          policy := Reset(policy);
        }
      }
    }

    /** The second half of `Resolve`: record what the inner resolver returned. */
    method Record(now: int, o: Outcome<T>)
      modifies this
      ensures State() == AfterInvoke(opts, old(State()), now, o)
    {
      value := Some(o.value);
      err := o.err;
      var next := opts.expiry;
      if o.err.None? {
        policy := Reset(policy);
      } else if opts.retry {
        var n := NextBackOff(policy);
        next := n.delay;
        policy := n.policy;
      }
      nextResolve := now + next;
    }

    /** `cache.Resolve`; `invoked` tells whether the inner resolver ran. */
    method Resolve(now: int, inner: Outcome<T>) returns (r: Outcome<T>, invoked: bool)
      modifies this
      ensures var t := CacheResolve(opts, old(State()), now, inner);
        r == t.out && invoked == t.invoked && State() == t.next
    {
      var hit := Lookup(now);
      if hit.Some? {
        r, invoked := hit.value, false;
      } else {
        Record(now, inner);
        r, invoked := inner, true;
      }
    }
  }

  /*****************************************************************************
   * Graceful fallback
   *****************************************************************************/

  datatype GracefulTransition<T> = GracefulTransition(out: Outcome<T>, lastGood: Option<T>)

  /** One call of the closure returned by `Graceful`. */
  function GracefulResolve<T>(lastGood: Option<T>, inner: Outcome<T>): (r: GracefulTransition<T>)
    // the error slot is never altered
    ensures r.out.err == inner.err
    // a failure with a remembered value serves that value and keeps it
    ensures inner.err.Some? && lastGood.Some? ==> r.out.value == lastGood.value && r.lastGood == lastGood
    // any other call, a first failing one included, passes through and is remembered
    ensures inner.err.None? || lastGood.None? ==> r.out == inner && r.lastGood == Some(inner.value)
  {
    if inner.err.Some? && lastGood.Some? then
      GracefulTransition(Outcome(lastGood.value, inner.err), lastGood)
    else
      GracefulTransition(inner, Some(inner.value))
  }

  class Graceful<T> {
    var lastGood: Option<T>

    constructor ()
      ensures lastGood == None
    {
      lastGood := None;
    }

    method Resolve(inner: Outcome<T>) returns (r: Outcome<T>)
      modifies this
      ensures var t := GracefulResolve(old(lastGood), inner);
        r == t.out && lastGood == t.lastGood
    {
      if inner.err.Some? && lastGood.Some? {
        r := Outcome(lastGood.value, inner.err);
      } else {
        lastGood := Some(inner.value);
        r := inner;
      }
    }
  }

  /*****************************************************************************
   * Composition
   *****************************************************************************/

  /**
   * Which decorators a pipeline applies, innermost first: graceful fallback, then at most
   * one cache, then the mutex guard.
   */
  datatype Config = Config(graceful: bool, cache: Option<CacheOpts>, safe: bool)

  /** The options of the cache a configuration holds; a configuration without one keeps an unused slot. */
  function SlotOpts(cfg: Config): CacheOpts
  {
    match cfg.cache
    case Some(co) => co
    case None => OnceOpts()
  }

  datatype PipelineState<T> = PipelineState(lastGood: Option<T>, cache: CacheState<T>)

  function InitialPipeline<T>(cfg: Config): PipelineState<T>
  {
    PipelineState(None, InitialCache(SlotOpts(cfg)))
  }

  datatype PipelineTransition<T> = PipelineTransition(out: Outcome<T>, next: PipelineState<T>, invoked: bool)

  /**
   * One call through a whole pipeline, given what the base resolver returns if invoked.
   * The mutex guard is outermost and, for one caller at a time, passes the call through.
   */
  function PipelineResolve<T>(cfg: Config, st: PipelineState<T>, now: int, base: Outcome<T>): (r: PipelineTransition<T>)
    // without a cache the base resolver runs on every call
    ensures cfg.cache.None? ==> r.invoked
    // a cache hit answers from the cache and leaves every layer's state as it was
    ensures !r.invoked ==> IsFresh(st.cache, now) && r.out == Stored(st.cache) && r.next == st
    // whenever the base resolver runs, its error reaches the caller unaltered
    ensures r.invoked ==> r.out.err == base.err
    // and the value is the base's own unless graceful fallback substitutes the remembered one
    ensures r.invoked ==>
      r.out.value == if cfg.graceful && base.err.Some? && st.lastGood.Some? then st.lastGood.value else base.value
    // the cache sits outside graceful fallback, so it records the pair after substitution
    ensures r.invoked && cfg.cache.Some? ==> r.next.cache.value == Some(r.out.value) && r.next.cache.err == r.out.err
    ensures !cfg.graceful ==> r.next.lastGood == st.lastGood
    // behind a cache, the base runs exactly when the cache is not fresh, so a fresh cache is served
    ensures cfg.cache.Some? ==> (r.invoked <==> !IsFresh(st.cache, now))
    // when the base runs, graceful fallback's slot moves as it does on its own
    ensures r.invoked && cfg.graceful ==> r.next.lastGood == GracefulResolve(st.lastGood, base).lastGood
    // and the cache records the pair it passes out, scheduling its next resolve as on its own
    ensures r.invoked && cfg.cache.Some? ==> r.next.cache == CacheResolve(cfg.cache.value, st.cache, now, r.out).next
  {
    var g := if cfg.graceful then GracefulResolve(st.lastGood, base) else GracefulTransition(base, st.lastGood);
    match cfg.cache
    case None =>
      PipelineTransition(g.out, st.(lastGood := g.lastGood), true)
    case Some(co) =>
      var c := CacheResolve(co, st.cache, now, g.out);
      PipelineTransition(c.out, PipelineState(if c.invoked then g.lastGood else st.lastGood, c.next), c.invoked)
  }

  /** `Safe` takes a mutex around the call and otherwise changes nothing. */
  lemma SafeIsTransparent<T>(cfg: Config, st: PipelineState<T>, now: int, base: Outcome<T>)
    ensures PipelineResolve(cfg.(safe := true), st, now, base) == PipelineResolve(cfg.(safe := false), st, now, base)
  {
  }
}
