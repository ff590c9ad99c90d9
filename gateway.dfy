/**
 * `PokemonGateway` of src/gateway/app.ts: one response cache and one metrics registry,
 * updated in place by the route handlers. Every handler performs exactly the step that
 * GatewayRoutes defines for it, so the lemmas proved there hold of the object.
 */
module Gateway {
  import opened Wrappers
  import opened JsonValues
  import opened Types
  import opened ResponseCache
  import opened MetricsRegistry
  import opened GatewayPolicy
  import opened BatchAggregation
  import opened FallbackTemplate
  import opened GatewayRoutes

  class PokemonGateway {
    const cache: TtlCache<Payload>
    const metrics: Metrics

    /** The cache was built with `stdTTL: 3600`. */
    predicate Valid()
    {
      cache.stdTTL == StdTtl
    }

    /** The cache contents, the clock and the counters, as GatewayRoutes sees them. */
    ghost function State(): GatewayState
      reads cache, metrics
    {
      GatewayState(cache.entries, cache.now, metrics.counters)
    }

    /** A gateway starting at `now` with an empty cache and zeroed counters. */
    constructor (now: int)
      ensures Valid()
      ensures State() == GatewayState(map[], now, Zero)
      ensures fresh(cache) && fresh(metrics)
    {
      cache := new TtlCache(StdTtl, now);
      metrics := new Metrics();
    }

    /** `GET /metrics`: the current counters; nothing changes. */
    method MetricsRoute() returns (snapshot: ServiceMetrics)
      ensures snapshot == metrics.counters
    {
      snapshot := metrics.GetMetrics();
    }

    /** `GET /pokemon`. */
    method ListRoute(limit: Option<string>, offset: Option<string>, listing: (string, string) -> Fetch<Json>) returns (r: Reply<Payload>)
      requires Valid()
      modifies cache
      ensures (State(), r) == ListStep(old(State()), limit, offset, listing)
    {
      var key := ListKey(limit, offset);
      var cached := cache.Get(key);
      if cached.Some? && PayloadTruthy(cached.value) {
        return Success(cached.value);
      }
      match listing(limit.GetOr("151"), offset.GetOr("0"))
      case Ok(d) =>
        cache.Set(key, Raw(d), LongTtl);
        r := Success(Raw(d));
      case _ =>
        r := Failure(500, ListErrorMessage);
    }

    /** `GET /pokemon/:nameOrId/details`. */
    method DetailsRoute(nameOrId: string, upstream: string -> Fetch<Json>) returns (r: Reply<Payload>)
      requires Valid()
      modifies cache, metrics
      ensures (State(), r) == DetailsStep(old(State()), nameOrId, upstream)
    {
      metrics.Increment(TotalRequests);
      var key := DetailsKey(nameOrId);
      var cached := cache.Get(key);
      if cached.Some? && PayloadTruthy(cached.value) {
        metrics.Increment(CacheHits);
        return Success(cached.value);
      }
      metrics.Increment(CacheMisses);
      match upstream(Lower(nameOrId))
      case Ok(d) =>
        cache.Set(key, Raw(d), LongTtl);
        r := Success(Raw(d));
      case NotFound =>
        r := Failure(404, NotFoundMessage);
      case OtherError =>
        r := Failure(500, DetailsErrorMessage);
    }

    /**
     * The analysis step of the insight route: the AI text, or, when the AI call fails,
     * the fallback template, counting one AI error and one fallback.
     */
    method Analysis(pokemon: PokemonDetails, lang: Lang, ai: AiOutcome) returns (response: AnalysisResponse)
      modifies metrics
      ensures response == Analyse(pokemon, lang, ai)
      ensures metrics.counters == if ai.AiOk? then old(metrics.counters)
                                  else Bump(Bump(old(metrics.counters), AiErrors), FallbacksUsed)
    {
      var text: string;
      var source := Ai;
      var modelUsed := "gemini";
      match ai {
        case AiOk(t) =>
          text := t;
        case AiFail =>
          metrics.Increment(AiErrors);
          metrics.Increment(FallbacksUsed);
          text := FallbackAnalysis(pokemon, lang);
          source := Fallback;
          modelUsed := "fallback-template";
      }
      response := AnalysisResponse(pokemon.name, text, None, source, modelUsed, lang);
    }

    /** `GET /pokemon/:nameOrId/insight`. */
    method InsightRoute(nameOrId: string, lang: Option<Lang>, entity: string -> Fetch<PokemonDetails>, ai: AiOutcome)
      returns (r: Reply<Payload>)
      requires Valid()
      modifies cache, metrics
      ensures (State(), r) == InsightStep(old(State()), nameOrId, lang, entity, ai)
    {
      metrics.Increment(TotalRequests);
      var l := LangOrDefault(lang);
      var key := InsightKey(nameOrId, l);
      var cached := cache.Get(key);
      if cached.Some? && PayloadTruthy(cached.value) {
        metrics.Increment(CacheHits);
        return Success(cached.value);
      }
      metrics.Increment(CacheMisses);
      var found := entity(nameOrId);
      if !found.Ok? {
        return Failure(404, NotFoundMessage);
      }
      var response := Analysis(found.data, l, ai);
      cache.Set(key, Insight(response));
      r := Success(Insight(response));
    }

    /** One name of a batch looked up in the cache and, on a miss, fetched: the `names.map` callback. */
    method ResolveOne(name: Json, upstream: string -> Fetch<Json>) returns (settled: Settled)
      ensures settled == ResolveItem(cache.entries, cache.now, name, upstream)
    {
      if !name.JStr? {
        return Failed;
      }
      var cached := cache.Get(DetailsKey(name.s));
      if cached.Some? && PayloadTruthy(cached.value) {
        return Fulfilled(BatchItem(name.s, cached.value, FromCache));
      }
      match upstream(Lower(name.s)) {
        case Ok(d) => settled := Fulfilled(BatchItem(name.s, Raw(d), FromApi));
        case _ => settled := Failed;
      }
    }

    /** Every name of a batch resolved against the cache as it stands; nothing changes. */
    method ResolveNames(items: seq<Json>, upstream: string -> Fetch<Json>) returns (results: seq<Settled>)
      ensures results == ResolveAll(cache.entries, cache.now, items, upstream)
    {
      results := [];
      var i := 0;
      while i < |items|
        invariant 0 <= i <= |items|
        invariant |results| == i
        invariant forall j :: 0 <= j < i ==> results[j] == ResolveItem(cache.entries, cache.now, items[j], upstream)
      {
        var settled := ResolveOne(items[i], upstream);
        results := results + [settled];
        i := i + 1;
      }
    }

    /** The fetched items of a batch written to the cache in input order, under the default TTL. */
    method WriteBackResults(results: seq<Settled>)
      requires Valid()
      modifies cache
      ensures cache.now == old(cache.now)
      ensures cache.entries == WriteBack(old(cache.entries), results, ExpiresAt(cache.now, StdTtl))
    {
      var k := 0;
      while k < |results|
        invariant 0 <= k <= |results|
        invariant cache.now == old(cache.now)
        invariant cache.entries == WriteBack(old(cache.entries), results[..k], ExpiresAt(cache.now, StdTtl))
      {
        assert results[..k + 1][..k] == results[..k];
        if results[k].Fulfilled? && results[k].item.source == FromApi {
          cache.Set(DetailsKey(results[k].item.name), results[k].item.data);
        }
        k := k + 1;
      }
      assert results[..k] == results;
    }

    /**
     * `POST /pokemon/batch`: every name is first resolved against the cache as it stands,
     * then the fetched items are written back in input order under the default TTL.
     */
    method BatchRoute(names: Option<Json>, upstream: string -> Fetch<Json>) returns (r: Reply<BatchOutcome>)
      requires Valid()
      modifies cache
      ensures (State(), r) == BatchStep(old(State()), names, upstream)
    {
      var check := CheckBody(names);
      if check.Rejected? {
        return Failure(400, check.message);
      }
      var items := check.names;
      var results := ResolveNames(items, upstream);
      WriteBackResults(results);
      var success := Successes(results);
      r := Success(BatchOutcome(success, Failures(results, items), |items|, |success|));
    }

    /** The wall clock moves on by `ms` milliseconds. */
    method Tick(ms: nat)
      modifies cache
      ensures State() == old(State()).(now := old(State()).now + ms)
    {
      cache.Advance(ms);
    }
  }

  /** A gateway object serving a sequence of requests ends in the state GatewayRoutes.Run predicts. */
  method Serve(g: PokemonGateway, rs: seq<Request>)
    requires g.Valid()
    modifies g.cache, g.metrics
    ensures g.State() == Run(old(g.State()), rs)
  {
    var i := 0;
    while i < |rs|
      decreases |rs| - i
      invariant 0 <= i <= |rs|
      invariant g.Valid()
      invariant Run(old(g.State()), rs) == Run(g.State(), rs[i..])
    {
      assert rs[i..][1..] == rs[i + 1..];
      ghost var before := g.State();
      match rs[i] {
        case ListRequest(limit, offset, listing) =>
          var _ := g.ListRoute(limit, offset, listing);
        case DetailsRequest(name, upstream) =>
          var _ := g.DetailsRoute(name, upstream);
        case InsightRequest(name, lang, entity, ai) =>
          var _ := g.InsightRoute(name, lang, entity, ai);
        case BatchRequest(names, upstream) =>
          var _ := g.BatchRoute(names, upstream);
        case MetricsRequest =>
          var _ := g.MetricsRoute();
        case HealthRequest =>
        case ClockTick(ms) =>
          g.Tick(ms);
      }
      assert g.State() == Apply(before, rs[i]);
      i := i + 1;
    }
  }
}
