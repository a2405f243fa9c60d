/**
 * `New` of resolvable.go: the option setters, the options record they update in order,
 * and the pipeline that wraps a base resolver in graceful fallback, then at most one
 * cache, then the mutex guard.
 */
module Builder {
  import opened Wrappers
  import opened Resolvable

  /** The `options` record; the clock override is not part of it (see `Pipeline.Resolve`). */
  datatype Options = Options(once: bool, retry: bool, graceful: bool, expiry: int, safe: bool, retryOpts: RetryOpts)

  /** The options before any setter has run: everything off except the mutex guard. */
  const Defaults := Options(false, false, false, 0, true, NoRetryOpts)

  /** The `Option` setters. */
  datatype Setter =
    | WithOnce
    | WithRetry
    | WithRetryOpts(opts: RetryOpts)
    | WithGraceful
    | WithCacheTTL(ttl: int)
    | WithUnsafe
    | WithSafe

  function ApplySetter(o: Options, s: Setter): Options
  {
    match s
    case WithOnce => o.(once := true)
    case WithRetry => o.(retry := true)
    case WithRetryOpts(ro) => o.(retryOpts := ro)
    case WithGraceful => o.(graceful := true)
    case WithCacheTTL(ttl) => o.(expiry := ttl)
    case WithUnsafe => o.(safe := false)
    case WithSafe => o.(safe := true)
  }

  /** The options after applying `opts` to the defaults, first to last. */
  function Configure(opts: seq<Setter>): Options
    decreases |opts|
  {
    if |opts| == 0 then Defaults else ApplySetter(Configure(opts[..|opts| - 1]), opts[|opts| - 1])
  }

  /** The loop at the start of `New`, which runs each setter on one options record. */
  method ApplyOptions(opts: seq<Setter>) returns (o: Options)
    ensures o == Configure(opts)
  {
    o := Defaults;
    var i := 0;
    while i < |opts|
      invariant 0 <= i <= |opts|
      invariant o == Configure(opts[..i])
    {
      assert opts[..i + 1][..i] == opts[..i];
      o := ApplySetter(o, opts[i]);
      i := i + 1;
    }
    assert opts[..i] == opts;
  }

  predicate SetsOnce(opts: seq<Setter>) { exists i :: 0 <= i < |opts| && opts[i].WithOnce? }
  predicate SetsRetry(opts: seq<Setter>) { exists i :: 0 <= i < |opts| && opts[i].WithRetry? }
  predicate SetsGraceful(opts: seq<Setter>) { exists i :: 0 <= i < |opts| && opts[i].WithGraceful? }

  /** `WithOnce`, `WithRetry` and `WithGraceful` only switch on: each flag is set iff its setter occurs. */
  lemma {:induction false} ConfigureFlags(opts: seq<Setter>)
    ensures Configure(opts).once <==> SetsOnce(opts)
    ensures Configure(opts).retry <==> SetsRetry(opts)
    ensures Configure(opts).graceful <==> SetsGraceful(opts)
    decreases |opts|
  {
    if |opts| > 0 {
      var init := opts[..|opts| - 1];
      ConfigureFlags(init);
      assert forall i :: 0 <= i < |init| ==> init[i] == opts[i];
    }
  }

  /** The guard is on by default; it is off iff some `WithUnsafe` is not followed by a `WithSafe`. */
  lemma {:induction false} ConfigureSafe(opts: seq<Setter>)
    ensures !Configure(opts).safe <==>
      exists i :: 0 <= i < |opts| && opts[i].WithUnsafe? && forall j :: i < j < |opts| ==> !opts[j].WithSafe?
    decreases |opts|
  {
    if |opts| > 0 {
      var n := |opts| - 1;
      var init := opts[..n];
      ConfigureSafe(init);
      assert forall i :: 0 <= i < |init| ==> init[i] == opts[i];
      if !Configure(opts).safe && !opts[n].WithUnsafe? {
        var i :| 0 <= i < |init| && init[i].WithUnsafe? && forall j :: i < j < |init| ==> !init[j].WithSafe?;
        assert opts[i].WithUnsafe? && forall j :: i < j < |opts| ==> !opts[j].WithSafe?;
      }
    }
  }

  predicate IsLastTtl(opts: seq<Setter>, i: int)
  {
    0 <= i < |opts| && opts[i].WithCacheTTL? && forall j :: i < j < |opts| ==> !opts[j].WithCacheTTL?
  }

  /** The expiry is the last `WithCacheTTL`'s, or 0 when there is none. */
  lemma {:induction false} ConfigureExpiry(opts: seq<Setter>)
    ensures (forall i :: 0 <= i < |opts| ==> !opts[i].WithCacheTTL?) ==> Configure(opts).expiry == 0
    ensures forall i :: IsLastTtl(opts, i) ==> Configure(opts).expiry == opts[i].ttl
    decreases |opts|
  {
    if |opts| > 0 {
      var n := |opts| - 1;
      var init := opts[..n];
      ConfigureExpiry(init);
      if opts[n].WithCacheTTL? {
        assert Configure(opts).expiry == opts[n].ttl;
        forall i | IsLastTtl(opts, i)
          ensures i == n
        {
        }
      } else {
        assert Configure(opts).expiry == Configure(init).expiry;
        forall i | IsLastTtl(opts, i)
          ensures Configure(opts).expiry == opts[i].ttl
        {
          assert init[i] == opts[i];
          assert IsLastTtl(init, i);
        }
        if forall i :: 0 <= i < |opts| ==> !opts[i].WithCacheTTL? {
          assert forall i :: 0 <= i < |init| ==> init[i] == opts[i];
        }
      }
    }
  }

  predicate IsLastRetryOpts(opts: seq<Setter>, i: int)
  {
    0 <= i < |opts| && opts[i].WithRetryOpts? && forall j :: i < j < |opts| ==> !opts[j].WithRetryOpts?
  }

  /** The retry options are the last `WithRetryOpts`'s, or the zero value when there is none. */
  lemma {:induction false} ConfigureRetryOpts(opts: seq<Setter>)
    ensures (forall i :: 0 <= i < |opts| ==> !opts[i].WithRetryOpts?) ==> Configure(opts).retryOpts == NoRetryOpts
    ensures forall i :: IsLastRetryOpts(opts, i) ==> Configure(opts).retryOpts == opts[i].opts
    decreases |opts|
  {
    if |opts| > 0 {
      var n := |opts| - 1;
      var init := opts[..n];
      ConfigureRetryOpts(init);
      if opts[n].WithRetryOpts? {
        assert Configure(opts).retryOpts == opts[n].opts;
        forall i | IsLastRetryOpts(opts, i)
          ensures i == n
        {
        }
      } else {
        assert Configure(opts).retryOpts == Configure(init).retryOpts;
        forall i | IsLastRetryOpts(opts, i)
          ensures Configure(opts).retryOpts == opts[i].opts
        {
          assert init[i] == opts[i];
          assert IsLastRetryOpts(init, i);
        }
        if forall i :: 0 <= i < |opts| ==> !opts[i].WithRetryOpts? {
          assert forall i :: 0 <= i < |init| ==> init[i] == opts[i];
        }
      }
    }
  }

  /** The decorators `New` applies for a set of options, innermost first. */
  function Build(o: Options): (cfg: Config)
    ensures cfg.graceful == o.graceful && cfg.safe == o.safe
    // at most one cache, chosen by precedence: a positive TTL, then retry, then once
    ensures cfg.cache.Some? <==> o.expiry > 0 || o.retry || o.once
    // the TTL cache is given no retry options, so it retries with the zero policy
    ensures o.expiry > 0 ==> cfg.cache == Some(CacheOpts(o.expiry, o.retry, NoRetryOpts))
    ensures o.expiry <= 0 && o.retry ==> cfg.cache == Some(RetryCacheOpts(o.retryOpts))
    ensures o.expiry <= 0 && !o.retry && o.once ==> cfg.cache == Some(OnceOpts())
  {
    var cache :=
      if o.expiry > 0 then Some(CacheOpts(o.expiry, o.retry, NoRetryOpts))
      else if o.retry then Some(RetryCacheOpts(o.retryOpts))
      else if o.once then Some(OnceOpts())
      else None;
    Config(o.graceful, cache, o.safe)
  }

  /**
   * What `New` builds for a list of setters, stated on the list itself: later setters
   * override earlier ones, and a positive TTL takes precedence over retry and once.
   */
  lemma NewLayers(opts: seq<Setter>)
    ensures Build(Configure(opts)).graceful <==> SetsGraceful(opts)
    ensures !Build(Configure(opts)).safe <==>
      exists i :: 0 <= i < |opts| && opts[i].WithUnsafe? && forall j :: i < j < |opts| ==> !opts[j].WithSafe?
    ensures forall i :: IsLastTtl(opts, i) && opts[i].ttl > 0 ==>
      Build(Configure(opts)).cache == Some(CacheOpts(opts[i].ttl, SetsRetry(opts), NoRetryOpts))
    ensures (forall i :: IsLastTtl(opts, i) ==> opts[i].ttl <= 0) ==>
      if SetsRetry(opts) then Build(Configure(opts)).cache == Some(RetryCacheOpts(Configure(opts).retryOpts))
      else if SetsOnce(opts) then Build(Configure(opts)).cache == Some(OnceOpts())
      else Build(Configure(opts)).cache.None?
  {
    ConfigureFlags(opts);
    ConfigureSafe(opts);
    ConfigureExpiry(opts);
    if exists i :: 0 <= i < |opts| && opts[i].WithCacheTTL? {
      var i := LastTtl(opts);
      assert IsLastTtl(opts, i);
    }
  }

  /** The position of the last `WithCacheTTL`, when there is one. */
  lemma {:induction false} LastTtl(opts: seq<Setter>) returns (i: int)
    requires exists k :: 0 <= k < |opts| && opts[k].WithCacheTTL?
    ensures IsLastTtl(opts, i)
    decreases |opts|
  {
    var n := |opts| - 1;
    if opts[n].WithCacheTTL? {
      i := n;
    } else {
      var init := opts[..n];
      var k :| 0 <= k < |opts| && opts[k].WithCacheTTL?;
      assert init[k] == opts[k];
      i := LastTtl(init);
      assert forall j :: i < j < n ==> init[j] == opts[j];
    }
  }

  /** The pipeline `New` returns: the decorator objects it allocated and its configuration. */
  class Pipeline<T> {
    const cfg: Config
    const graceful: Graceful<T>
    const cache: Cache<T>

    predicate Valid()
    {
      cache.opts == SlotOpts(cfg)
    }

    function State(): PipelineState<T>
      reads this, graceful, cache
    {
      PipelineState(graceful.lastGood, cache.State())
    }

    /** `New(fn, opts...)`. */
    constructor (opts: seq<Setter>)
      ensures Valid() && cfg == Build(Configure(opts))
      ensures State() == InitialPipeline(cfg)
      ensures fresh(graceful) && fresh(cache)
    {
      var o := ApplyOptions(opts);
      cfg := Build(o);
      graceful := new Graceful();
      cache := new Cache(SlotOpts(Build(o)));
    }

    /**
     * One call of the pipeline at clock reading `now`; `base` is what the wrapped resolver
     * returns if it is reached. The mutex guard, applied outermost when `cfg.safe`, holds a
     * lock for the duration of the call and otherwise passes it through.
     */
    method Resolve(now: int, base: Outcome<T>) returns (r: Outcome<T>, invoked: bool)
      requires Valid()
      modifies graceful, cache
      ensures var t := PipelineResolve(cfg, old(State()), now, base);
        r == t.out && invoked == t.invoked && State() == t.next
    {
      var hit: Option<Outcome<T>> := None;
      if cfg.cache.Some? {
        hit := cache.Lookup(now);
      }
      if hit.Some? {
        r, invoked := hit.value, false;
      } else {
        r := base;
        if cfg.graceful {
          r := graceful.Resolve(r);
        }
        if cfg.cache.Some? {
          cache.Record(now, r);
        }
        invoked := true;
      }
    }
  }
}
