/**
 * The route handlers of src/gateway/app.ts as steps on the gateway's state: the cache
 * entries, the clock and the metrics counters. Upstream answers and the generative
 * call are inputs. The class in gateway.dfy performs exactly these steps in place.
 */
module GatewayRoutes {
  import opened Wrappers
  import opened JsonValues
  import opened Types
  import opened ResponseCache
  import opened MetricsRegistry
  import opened GatewayPolicy
  import opened BatchAggregation
  import opened FallbackTemplate

  datatype GatewayState = GatewayState(entries: map<string, Entry<Payload>>, now: int, counters: ServiceMetrics)

  /** The default language of the Insight route: `(req.query.lang) || 'pt'`. */
  function LangOrDefault(lang: Option<Lang>): Lang
  {
    lang.GetOr(Pt)
  }

  // ---------------------------------------------------------------------------
  // GET /pokemon

  /** The list route: a cache hit answers at once; a miss asks upstream and caches a success under the long TTL. */
  function ListStep(s: GatewayState, limit: Option<string>, offset: Option<string>,
                    listing: (string, string) -> Fetch<Json>): (out: (GatewayState, Reply<Payload>))
    ensures out.0.counters == s.counters && out.0.now == s.now
    ensures var hit := CachedHit(s.entries, s.now, ListKey(limit, offset));
            hit.Some? ==> out == (s, Success(hit.value))
    ensures var hit := CachedHit(s.entries, s.now, ListKey(limit, offset));
            var answer := listing(limit.GetOr("151"), offset.GetOr("0"));
            hit.None? ==>
              (answer.Ok? ==> out == (s.(entries := Store(s.entries, s.now, ListKey(limit, offset), Raw(answer.data), LongTtl)),
                                      Success(Raw(answer.data)))) &&
              (!answer.Ok? ==> out == (s, Failure(500, ListErrorMessage)))
  {
    var key := ListKey(limit, offset);
    var hit := CachedHit(s.entries, s.now, key);
    if hit.Some? then (s, Success(hit.value))
    else
      match listing(limit.GetOr("151"), offset.GetOr("0"))
      case Ok(d) => (s.(entries := Store(s.entries, s.now, key, Raw(d), LongTtl)), Success(Raw(d)))
      case _ => (s, Failure(500, ListErrorMessage))
  }

  // ---------------------------------------------------------------------------
  // GET /pokemon/:nameOrId/details

  /**
   * The details route: `totalRequests` and then exactly one of `cacheHits` and `cacheMisses`
   * go up; a miss asks upstream for the lower-cased name; a 404 gives a 404, any other
   * failure a 500, and neither is cached; a success is cached under the long TTL.
   */
  function DetailsStep(s: GatewayState, nameOrId: string, upstream: string -> Fetch<Json>): (out: (GatewayState, Reply<Payload>))
    ensures out.0.now == s.now
    ensures var hit := CachedHit(s.entries, s.now, DetailsKey(nameOrId));
            hit.Some? ==> out == (s.(counters := Bump(Bump(s.counters, TotalRequests), CacheHits)), Success(hit.value))
    ensures var hit := CachedHit(s.entries, s.now, DetailsKey(nameOrId));
            var answer := upstream(Lower(nameOrId));
            hit.None? ==>
              && out.0.counters == Bump(Bump(s.counters, TotalRequests), CacheMisses)
              && (answer.Ok? ==> out.1 == Success(Raw(answer.data)) &&
                                 out.0.entries == Store(s.entries, s.now, DetailsKey(nameOrId), Raw(answer.data), LongTtl))
              && (answer.NotFound? ==> out.1 == Failure(404, NotFoundMessage) && out.0.entries == s.entries)
              && (answer.OtherError? ==> out.1 == Failure(500, DetailsErrorMessage) && out.0.entries == s.entries)
  {
    var counted := Bump(s.counters, TotalRequests);
    var key := DetailsKey(nameOrId);
    var hit := CachedHit(s.entries, s.now, key);
    if hit.Some? then (s.(counters := Bump(counted, CacheHits)), Success(hit.value))
    else
      var missed := s.(counters := Bump(counted, CacheMisses));
      match upstream(Lower(nameOrId))
      case Ok(d) => (missed.(entries := Store(s.entries, s.now, key, Raw(d), LongTtl)), Success(Raw(d)))
      case NotFound => (missed, Failure(404, NotFoundMessage))
      case OtherError => (missed, Failure(500, DetailsErrorMessage))
  }

  // ---------------------------------------------------------------------------
  // GET /pokemon/:nameOrId/insight

  /** The analysis built for `pokemon`: the AI text when the call succeeds, the fallback template otherwise. */
  function Analyse(pokemon: PokemonDetails, lang: Lang, ai: AiOutcome): (a: AnalysisResponse)
    ensures a.pokemonName == pokemon.name && a.lang == lang && a.audioBase64.None?
    ensures ai.AiOk? ==> a.source == Ai && a.modelUsed == "gemini" && a.text == ai.text
    ensures ai.AiFail? ==> a.source == Fallback && a.modelUsed == "fallback-template" && a.text == FallbackAnalysis(pokemon, lang)
  {
    match ai
    case AiOk(text) => AnalysisResponse(pokemon.name, text, None, Ai, "gemini", lang)
    case AiFail => AnalysisResponse(pokemon.name, FallbackAnalysis(pokemon, lang), None, Fallback, "fallback-template", lang)
  }

  /**
   * The insight route. A hit counts and answers from the cache. On a miss, any failure of
   * the entity lookup (which asks for `nameOrId` as given) is a 404 and caches nothing.
   * Otherwise the analysis is built and cached under the default TTL whatever its source,
   * and a failed AI call raises `aiErrors` and `fallbacksUsed`. It never answers with a
   * server error, and the clock does not move.
   */
  function InsightStep(s: GatewayState, nameOrId: string, lang: Option<Lang>,
                       entity: string -> Fetch<PokemonDetails>, ai: AiOutcome): (out: (GatewayState, Reply<Payload>))
    ensures out.0.now == s.now
    ensures out.1.Success? || out.1 == Failure(404, NotFoundMessage)
    ensures var hit := CachedHit(s.entries, s.now, InsightKey(nameOrId, LangOrDefault(lang)));
            hit.Some? ==> out == (s.(counters := Bump(Bump(s.counters, TotalRequests), CacheHits)), Success(hit.value))
    ensures var hit := CachedHit(s.entries, s.now, InsightKey(nameOrId, LangOrDefault(lang)));
            hit.None? && !entity(nameOrId).Ok? ==>
              out == (s.(counters := Bump(Bump(s.counters, TotalRequests), CacheMisses)), Failure(404, NotFoundMessage))
    ensures var key := InsightKey(nameOrId, LangOrDefault(lang));
            var missed := Bump(Bump(s.counters, TotalRequests), CacheMisses);
            CachedHit(s.entries, s.now, key).None? && entity(nameOrId).Ok? ==>
              var a := Analyse(entity(nameOrId).data, LangOrDefault(lang), ai);
              var counters := if ai.AiOk? then missed else Bump(Bump(missed, AiErrors), FallbacksUsed);
              out == (GatewayState(Store(s.entries, s.now, key, Insight(a), StdTtl), s.now, counters), Success(Insight(a)))
  {
    var l := LangOrDefault(lang);
    var key := InsightKey(nameOrId, l);
    var counted := Bump(s.counters, TotalRequests);
    var hit := CachedHit(s.entries, s.now, key);
    if hit.Some? then (s.(counters := Bump(counted, CacheHits)), Success(hit.value))
    else
      var missed := Bump(counted, CacheMisses);
      match entity(nameOrId)
      case Ok(pokemon) =>
        var a := Analyse(pokemon, l, ai);
        var counters := if ai.AiOk? then missed else Bump(Bump(missed, AiErrors), FallbacksUsed);
        (GatewayState(Store(s.entries, s.now, key, Insight(a), StdTtl), s.now, counters), Success(Insight(a)))
      case _ => (s.(counters := missed), Failure(404, NotFoundMessage))
  }

  // ---------------------------------------------------------------------------
  // POST /pokemon/batch

  /**
   * The batch route: a body that fails the checks is a 400 that reads and writes nothing;
   * otherwise every name is resolved against the cache as it stood at the start, the
   * fetched items are written back under the default TTL, and the reply reports
   * `success`, `failed`, `total` and `successCount`. Metrics are not touched.
   */
  function BatchStep(s: GatewayState, names: Option<Json>, upstream: string -> Fetch<Json>): (out: (GatewayState, Reply<BatchOutcome>))
    ensures out.0.counters == s.counters && out.0.now == s.now
    ensures CheckBody(names).Rejected? ==> out == (s, Failure(400, CheckBody(names).message))
    ensures CheckBody(names).Accepted? ==>
              var items := CheckBody(names).names;
              var rs := ResolveAll(s.entries, s.now, items, upstream);
              && out.1 == Success(BatchOutcome(Successes(rs), Failures(rs, items), |items|, |Successes(rs)|))
              && out.0.entries == WriteBack(s.entries, rs, ExpiresAt(s.now, StdTtl))
  {
    match CheckBody(names)
    case Rejected(message) => (s, Failure(400, message))
    case Accepted(items) =>
      var rs := ResolveAll(s.entries, s.now, items, upstream);
      var success := Successes(rs);
      (s.(entries := WriteBack(s.entries, rs, ExpiresAt(s.now, StdTtl))),
       Success(BatchOutcome(success, Failures(rs, items), |items|, |success|)))
  }

  // ---------------------------------------------------------------------------
  // Sequences of requests

  /** A request to the gateway, with the answers its collaborators give; or the clock moving on. */
  datatype Request =
    | ListRequest(limit: Option<string>, offset: Option<string>, listing: (string, string) -> Fetch<Json>)
    | DetailsRequest(nameOrId: string, upstream: string -> Fetch<Json>)
    | InsightRequest(insightName: string, lang: Option<Lang>, entity: string -> Fetch<PokemonDetails>, ai: AiOutcome)
    | BatchRequest(names: Option<Json>, batchUpstream: string -> Fetch<Json>)
    | MetricsRequest
    | HealthRequest
    | ClockTick(ms: nat)

  function Apply(s: GatewayState, r: Request): GatewayState
  {
    match r
    case ListRequest(limit, offset, listing) => ListStep(s, limit, offset, listing).0
    case DetailsRequest(name, upstream) => DetailsStep(s, name, upstream).0
    case InsightRequest(name, lang, entity, ai) => InsightStep(s, name, lang, entity, ai).0
    case BatchRequest(names, upstream) => BatchStep(s, names, upstream).0
    case MetricsRequest => s
    case HealthRequest => s
    case ClockTick(ms) => s.(now := s.now + ms)
  }

  function Run(s: GatewayState, rs: seq<Request>): GatewayState
    decreases |rs|
  {
    if rs == [] then s else Run(Apply(s, rs[0]), rs[1..])
  }

  /** Every counted request is a hit or a miss, and every AI error is answered by a fallback. */
  predicate Consistent(m: ServiceMetrics)
  {
    m.cacheHits + m.cacheMisses == m.totalRequests && m.aiErrors == m.fallbacksUsed
  }

  /** Counters compared field by field. */
  lemma FieldsNotDecreased(a: ServiceMetrics, b: ServiceMetrics)
    requires a.totalRequests <= b.totalRequests && a.cacheHits <= b.cacheHits && a.cacheMisses <= b.cacheMisses
    requires a.aiErrors <= b.aiErrors && a.fallbacksUsed <= b.fallbacksUsed
    ensures NoneDecreased(a, b)
  {
  }

  lemma ApplyPreservesConsistency(s: GatewayState, r: Request)
    requires Consistent(s.counters)
    ensures Consistent(Apply(s, r).counters)
    ensures NoneDecreased(s.counters, Apply(s, r).counters)
  {
    match r
    case DetailsRequest(name, upstream) =>
      var hit := CachedHit(s.entries, s.now, DetailsKey(name));
      CountedRequest(s.counters, hit.Some?);
      FieldsNotDecreased(s.counters, Apply(s, r).counters);
    case InsightRequest(name, lang, entity, ai) =>
      var hit := CachedHit(s.entries, s.now, InsightKey(name, LangOrDefault(lang)));
      CountedRequest(s.counters, hit.Some?);
      CountedFallback(Bump(Bump(s.counters, TotalRequests), CacheMisses));
      FieldsNotDecreased(s.counters, Apply(s, r).counters);
    case _ =>
      FieldsNotDecreased(s.counters, Apply(s, r).counters);
  }

  /** Starting from consistent counters, every sequence of requests keeps them consistent and never lowers one. */
  lemma {:induction false} RunPreservesConsistency(s: GatewayState, rs: seq<Request>)
    requires Consistent(s.counters)
    ensures Consistent(Run(s, rs).counters)
    ensures NoneDecreased(s.counters, Run(s, rs).counters)
    decreases |rs|
  {
    if rs != [] {
      ApplyPreservesConsistency(s, rs[0]);
      RunPreservesConsistency(Apply(s, rs[0]), rs[1..]);
    }
  }

  /** From fresh metrics, `cacheHits + cacheMisses == totalRequests` and `aiErrors == fallbacksUsed` after any requests. */
  lemma FreshGatewayStaysConsistent(entries: map<string, Entry<Payload>>, now: int, rs: seq<Request>)
    ensures Consistent(Run(GatewayState(entries, now, Zero), rs).counters)
  {
    RunPreservesConsistency(GatewayState(entries, now, Zero), rs);
  }

  // ---------------------------------------------------------------------------
  // Properties relating several requests

  /** The counters after a counted request that hit or missed, field by field. */
  lemma CountedRequest(m: ServiceMetrics, hit: bool)
    ensures var r := Bump(Bump(m, TotalRequests), if hit then CacheHits else CacheMisses);
            r == if hit then m.(totalRequests := m.totalRequests + 1, cacheHits := m.cacheHits + 1)
                 else m.(totalRequests := m.totalRequests + 1, cacheMisses := m.cacheMisses + 1)
  {
  }

  /** The counters after a failed AI call, field by field. */
  lemma CountedFallback(m: ServiceMetrics)
    ensures Bump(Bump(m, AiErrors), FallbacksUsed) == m.(aiErrors := m.aiErrors + 1, fallbacksUsed := m.fallbacksUsed + 1)
  {
  }

  /** An Insight request whose key holds a live analysis is a hit that answers with it. */
  lemma InsightHitAnswers(t: GatewayState, name: string, lang: Option<Lang>, entity: string -> Fetch<PokemonDetails>,
                          ai: AiOutcome, a: AnalysisResponse)
    requires Lookup(t.entries, t.now, InsightKey(name, LangOrDefault(lang))) == Some(Insight(a))
    ensures InsightStep(t, name, lang, entity, ai) == (t.(counters := Bump(Bump(t.counters, TotalRequests), CacheHits)), Success(Insight(a)))
  {
  }

  /**
   * A miss followed by the same Insight request (or one for the same name in another
   * letter case) before the TTL has run out: the second is a hit with the same reply, and
   * the two together count two requests, one miss and one hit.
   */
  lemma InsightMissThenHit(s: GatewayState, name: string, name': string, lang: Option<Lang>,
                           entity: string -> Fetch<PokemonDetails>, ai: AiOutcome,
                           entity': string -> Fetch<PokemonDetails>, ai': AiOutcome, ms: nat)
    requires CachedHit(s.entries, s.now, InsightKey(name, LangOrDefault(lang))).None?
    requires entity(name).Ok?
    requires EqualIgnoringCase(name, name')
    requires ms < StdTtl * 1000
    ensures var first := InsightStep(s, name, lang, entity, ai);
            var second := InsightStep(first.0.(now := s.now + ms), name', lang, entity', ai');
            && second.1 == first.1
            && second.0.counters.totalRequests == s.counters.totalRequests + 2
            && second.0.counters.cacheMisses == s.counters.cacheMisses + 1
            && second.0.counters.cacheHits == s.counters.cacheHits + 1
  {
    var l := LangOrDefault(lang);
    var key := InsightKey(name, l);
    InsightKeyNormalises(name, name', l, l);
    var first := InsightStep(s, name, lang, entity, ai);
    var a := Analyse(entity(name).data, l, ai);
    var t := first.0.(now := s.now + ms);
    assert first.1 == Success(Insight(a));
    assert t.entries == Store(s.entries, s.now, key, Insight(a), StdTtl);
    LookupAfterStore(s.entries, s.now, key, Insight(a), StdTtl, s.now + ms);
    InsightHitAnswers(t, name', lang, entity', ai', a);
    CountedRequest(s.counters, false);
    CountedFallback(Bump(Bump(s.counters, TotalRequests), CacheMisses));
    CountedRequest(t.counters, true);
  }

  /**
   * Once a Details miss has cached truthy data, every Details request for that name in any
   * letter case, before the long TTL runs out, returns the identical payload, whatever the
   * upstream would now answer.
   */
  lemma DetailsRepeatsUntilExpiry(s: GatewayState, name: string, name': string, upstream: string -> Fetch<Json>,
                                  upstream': string -> Fetch<Json>, ms: nat)
    requires CachedHit(s.entries, s.now, DetailsKey(name)).None?
    requires upstream(Lower(name)).Ok? && Truthy(upstream(Lower(name)).data)
    requires EqualIgnoringCase(name, name')
    ensures var first := DetailsStep(s, name, upstream);
            var second := DetailsStep(first.0.(now := s.now + ms), name', upstream');
            (ms < LongTtl * 1000 ==> second.1 == first.1 && second.0.entries == first.0.entries)
            && (ms >= LongTtl * 1000 ==> second.1 == (match upstream'(Lower(name')) case Ok(d) => Success(Raw(d))
                                                       case NotFound => Failure(404, NotFoundMessage)
                                                       case OtherError => Failure(500, DetailsErrorMessage)))
  {
    DetailsKeyNormalises(name, name');
    var d := upstream(Lower(name)).data;
    LookupAfterStore(s.entries, s.now, DetailsKey(name), Raw(d), LongTtl, s.now + ms);
  }

  /** An Insight request never answers with a server error: a failing AI call degrades to the fallback. */
  lemma InsightNeverFailsOnAi(s: GatewayState, name: string, lang: Option<Lang>,
                              entity: string -> Fetch<PokemonDetails>, ai: AiOutcome)
    requires ai.AiFail? && entity(name).Ok?
    requires CachedHit(s.entries, s.now, InsightKey(name, LangOrDefault(lang))).None?
    ensures var r := InsightStep(s, name, lang, entity, ai).1;
            r.Success? && r.body.Insight? && r.body.analysis.source == Fallback && |r.body.analysis.text| > 0
  {
    FallbackStartsWithHeading(entity(name).data, LangOrDefault(lang));
  }

  /**
   * A batch that fetched a name warms the Details route: right after it, a Details request
   * for that name in any letter case is a hit that returns the fetched data.
   */
  lemma BatchWarmsDetails(s: GatewayState, names: Option<Json>, upstream: string -> Fetch<Json>, i: nat, name': string,
                          upstream': string -> Fetch<Json>)
    requires CheckBody(names).Accepted?
    requires i < |CheckBody(names).names|
    requires CheckBody(names).names[i].JStr?
    requires var n := CheckBody(names).names[i].s;
             CachedHit(s.entries, s.now, DetailsKey(n)).None? && upstream(Lower(n)).Ok? && Truthy(upstream(Lower(n)).data)
    requires EqualIgnoringCase(CheckBody(names).names[i].s, name')
    ensures var after := BatchStep(s, names, upstream).0;
            var n := CheckBody(names).names[i].s;
            DetailsStep(after, name', upstream').1 == Success(Raw(upstream(Lower(n)).data))
            && CachedHit(after.entries, after.now, DetailsKey(name')).Some?
  {
    var items := CheckBody(names).names;
    var n := items[i].s;
    var rs := ResolveAll(s.entries, s.now, items, upstream);
    var key := DetailsKey(n);
    var v := Raw(upstream(Lower(n)).data);
    assert WritesKey(rs, i, key);
    forall j | WritesKey(rs, j, key)
      ensures rs[j].item.data == v
    {
      WritesAgree(s.entries, s.now, items, upstream, i, j, key);
    }
    WriteBackAt(s.entries, rs, ExpiresAt(s.now, StdTtl), key, v);
    DetailsKeyNormalises(n, name');
  }

  /** The split of a three-item batch, item by item. */
  lemma SplitOfThree(x: Settled, y: Settled, z: Settled, nx: Json, ny: Json, nz: Json)
    ensures Successes([x, y, z]) == Successes([x]) + Successes([y]) + Successes([z])
    ensures Failures([x, y, z], [nx, ny, nz]) == Failures([x], [nx]) + Failures([y], [ny]) + Failures([z], [nz])
  {
    var yz, nyz := [y] + [z], [ny] + [nz];
    SplitDistributes([y], [z], [ny], [nz]);
    SplitDistributes([x], yz, [nx], nyz);
    assert [x, y, z] == [x] + yz;
    assert [nx, ny, nz] == [nx] + nyz;
  }

  /**
   * A batch of three names whose middle one fails upstream, against an empty cache: the
   * reply counts three, two successes in input order, and reports the middle name as failed.
   */
  lemma {:induction false} BatchPartialFailure(s: GatewayState, a: string, b: string, c: string, upstream: string -> Fetch<Json>)
    requires s.entries == map[]
    requires upstream(Lower(a)).Ok? && upstream(Lower(c)).Ok?
    requires !upstream(Lower(b)).Ok? && b != ""
    ensures var r := BatchStep(s, Some(JArr([JStr(a), JStr(b), JStr(c)])), upstream).1;
            && r.Success?
            && r.body.total == 3
            && r.body.successCount == 2
            && r.body.failed == [JStr(b)]
            && r.body.success[0].name == a && r.body.success[1].name == c
  {
    var names := [JStr(a), JStr(b), JStr(c)];
    var rs := ResolveAll(s.entries, s.now, names, upstream);
    var x, y, z := rs[0], rs[1], rs[2];
    assert rs == [x, y, z];
    assert x.Fulfilled? && x.item.name == a;
    assert y.Failed?;
    assert z.Fulfilled? && z.item.name == c;
    SplitOfThree(x, y, z, names[0], names[1], names[2]);
    assert Successes([x]) == [x.item];
    assert Successes([y]) == [];
    assert Successes([z]) == [z.item];
    assert Failures([x], [names[0]]) == [];
    assert Failures([y], [names[1]]) == [names[1]];
    assert Failures([z], [names[2]]) == [];
  }
}
