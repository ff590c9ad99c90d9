# Pokédex gateway — a Dafny model

This project models the API gateway of a Pokédex backend. The gateway is `PokemonGateway` in
`src/gateway/app.ts`. It holds one in-memory response cache and one metrics registry, and serves
six routes:

- `GET /pokemon` (the list);
- `GET /pokemon/:nameOrId/details`;
- `GET /pokemon/:nameOrId/insight` (an AI analysis with a template fallback);
- `POST /pokemon/batch`;
- `GET /metrics`;
- `GET /health`.

A fixed-window rate limiter sits in front of the routes. Its `skip` predicate exempts some paths.
The project also models the helpers those routes rely on: the fallback templates
(`src/utils/fallback.ts`), the metrics registry (`src/utils/metrics.ts`), the error helpers
(`src/utils/errors.ts`) and the record types of `src/types.ts`.

Modules, in dependency order:

- `Wrappers`: an `Option` type.
- `JsonValues`: JSON values and JavaScript truthiness.
- `Types`: the records of `src/types.ts`.
- `Errors`: `getErrorMessage` and `getErrorStack`.
- `FallbackTemplate`: `getTemplate` and `getFallbackAnalysis`.
- `MetricsRegistry`: class `Metrics`, over a pure counter algebra.
- `ResponseCache`: a TTL cache. This is class `TtlCache`, over a pure `Lookup`/`Store` algebra.
- `GatewayPolicy`: lower-casing, cache keys, TTLs, the limiter's `skip` predicate and the upstream outcomes.
- `BatchAggregation`: the per-item resolution of the batch route, plus the split into `success` and `failed`.
- `RateLimiter`: the fixed-window limiter with the gateway's options.
- `GatewayRoutes`: every route as a step function on the state (cache entries, clock, counters), sequences of requests, and the properties that relate several requests.
- `Gateway`: class `PokemonGateway`. Its route methods update the cache and the metrics objects in place. Each method's postcondition says it performs exactly its route's step function.

Conventions:

- Upstream HTTP calls are function parameters. A parameter maps the path parameter sent to the
  pokemon service onto the outcome: data, a 404, or any other failure.
- The generative-AI call is an outcome parameter: a text, or a failure.
- The clock counts milliseconds. A cache entry stored at `now` with a TTL of `ttl` seconds lives
  while the clock is below `now + ttl * 1000`.
- As in JavaScript, a cached value that is falsy (`null`, `false`, `0`, `""`) counts as a miss.

## Model

| member | source | states |
|---|---|---|
| Wrappers.Option.GetOr | src/gateway/app.ts:117 | a missing value is replaced by the default; a present one is kept |
| Types.LangCode | src/types.ts:36 | every supported language has a two-letter code |
| Types.LangCodeInjective | src/types.ts:36 | two languages have the same code exactly when they are the same language |
| JsonValues.Truthy | src/gateway/app.ts:83-99 | JavaScript truthiness of a JSON value, as in `if (cached)` and `filter(Boolean)`: `null`, `false`, `0` and `""` are falsy, every other value is truthy |
| Errors.GetErrorMessage | src/utils/errors.ts:1-5 | an Error yields its message; a thrown string yields itself; any other value yields "Erro desconhecido" |
| Errors.GetErrorStack | src/utils/errors.ts:7-10 | there is a stack only for an Error, and it is that Error's stack |
| Errors.StackImpliesErrorMessage | src/utils/errors.ts:1-10 | when a stack is reported, the message is the Error's own message |
| Errors.UnknownOnlyForForeignValues | src/utils/errors.ts:1-5 | any other text means the value was an Error or a string; a thrown string other than the unknown-error text never yields it |
| FallbackTemplate.Template | src/utils/fallback.ts:3-10 | the text is the language's heading, the name, the type line, the type and the closing, in that order (length identity) |
| FallbackTemplate.PrimaryType | src/utils/fallback.ts:13 | the first type's name when it exists and is non-empty, otherwise "unknown"; never empty |
| FallbackTemplate.FallbackAnalysis | src/utils/fallback.ts:12-15 | the fallback text is strictly longer than its heading plus the pokemon's name |
| FallbackTemplate.DefaultLanguageIsPortuguese | src/utils/fallback.ts:12 | omitting the language gives the Portuguese text |
| FallbackTemplate.HeadingMarker | src/utils/fallback.ts:5-7 | every language's heading starts with "### " |
| FallbackTemplate.FallbackStartsWithHeading | src/utils/fallback.ts:5-7 | every fallback text starts with a level-3 markdown heading |
| FallbackTemplate.FallbackName | src/utils/fallback.ts:5-7 | the pokemon's name appears verbatim right after the heading |
| FallbackTemplate.FallbackType | src/utils/fallback.ts:5-7 | the primary type appears verbatim right after the type line |
| FallbackTemplate.LanguageDeterminesText | src/utils/fallback.ts:4-9 | texts in two different languages always differ, whatever the pokemon |
| FallbackTemplate.TextDeterminesName | src/utils/fallback.ts:5-7 | in one language and with the same primary type, equal texts imply equal pokemon names |
| MetricsRegistry.Bump | src/utils/metrics.ts:12-14 | incrementing raises that counter by one and leaves the other four unchanged |
| MetricsRegistry.ZeroIsAllZero | src/utils/metrics.ts:4-10 | the initial registry has all five counters at zero |
| MetricsRegistry.BumpNeverDecreases | src/utils/metrics.ts:12-14 | an increment lowers no counter and always changes the registry |
| MetricsRegistry.BumpsCommute | src/utils/metrics.ts:12-14 | increments in either order give the same counters |
| MetricsRegistry.Metrics.constructor | src/utils/metrics.ts:4-10 | a new registry starts at zero |
| MetricsRegistry.Metrics.Increment | src/utils/metrics.ts:12-14 | the named counter goes up by one in place; the others stay |
| MetricsRegistry.Metrics.GetMetrics | src/utils/metrics.ts:16-18 | returns a copy equal to the current counters, changing nothing |
| MetricsRegistry.Metrics.Reset | src/utils/metrics.ts:20-24 | every counter returns to zero |
| ResponseCache.Lookup | src/gateway/app.ts:81 | `cache.get(key)` at a time: the stored value while the clock is below its expiry, nothing once it has expired or was never set (the TTL behaviour assumed of NodeCache) |
| ResponseCache.Store | src/gateway/app.ts:23 | setting a key adds exactly that key and leaves every other entry as it was |
| ResponseCache.Swept | src/gateway/app.ts:23 | the periodic sweep keeps exactly the live entries, unchanged |
| ResponseCache.LookupAfterStore | src/gateway/app.ts:23 | a stored value is returned until its TTL (in seconds) runs out, and not after |
| ResponseCache.LookupOtherKey | src/gateway/app.ts:23 | storing one key does not change what any other key returns |
| ResponseCache.LookupMonotoneInTime | src/gateway/app.ts:23 | a value visible at a later time was visible, and the same, at every earlier time |
| ResponseCache.SweepUnobservable | src/gateway/app.ts:23 | the sweep never changes the result of a lookup, now or later |
| ResponseCache.TtlCache.constructor | src/gateway/app.ts:23 | a new cache is empty and carries its default TTL |
| ResponseCache.TtlCache.Get | src/gateway/app.ts:23 | returns the stored value while it is live, and nothing otherwise |
| ResponseCache.TtlCache.Set | src/gateway/app.ts:23 | the entry for the key is replaced; the other entries are kept |
| ResponseCache.TtlCache.Sweep | src/gateway/app.ts:23 | expired entries are dropped in place |
| ResponseCache.TtlCache.Advance | src/gateway/app.ts:23 | the clock moves forward by the given milliseconds |
| GatewayPolicy.Lower | src/gateway/app.ts:79 | lower-casing preserves length |
| GatewayPolicy.LowerAt | src/gateway/app.ts:79 | lower-casing acts character by character |
| GatewayPolicy.LowerIdentifiesCaseVariants | src/gateway/app.ts:79 | two names lower-case alike exactly when they differ only in letter case |
| GatewayPolicy.LowerIdempotent | src/gateway/app.ts:79 | lower-casing twice is lower-casing once |
| GatewayPolicy.PayloadTruthy | src/gateway/app.ts:121-183 | the `if (cached…)` tests of the list, details and insight routes: a cached analysis object is always truthy, cached raw data follows JavaScript truthiness |
| GatewayPolicy.DetailsKey | src/gateway/app.ts:144-145 | the details and batch cache key: `details-` followed by the lower-cased name (also at app.ts:79-80) |
| GatewayPolicy.InsightKey | src/gateway/app.ts:181 | the insight cache key: `insight-`, the lower-cased name, `-` and the language code |
| GatewayPolicy.ListKey | src/gateway/app.ts:117-119 | the list cache key: `list-`, the limit (default 151), `-` and the offset (default 0), as given in the query |
| GatewayPolicy.DetailsKeyNormalises | src/gateway/app.ts:144-145 | two names share a details cache key exactly when they differ only in letter case |
| GatewayPolicy.InsightKeyNormalises | src/gateway/app.ts:181 | two insight requests share a key exactly when their names differ only in case and their languages agree |
| GatewayPolicy.KeyFamiliesDisjoint | src/gateway/app.ts:119-181 | details keys, insight keys and list keys never collide |
| GatewayPolicy.ListKeyDefaults | src/gateway/app.ts:117-119 | without query parameters the key is "list-151-0", the same as for explicit 151 and 0 |
| GatewayPolicy.Contains | src/gateway/app.ts:46 | `includes`: the text occurs at some position of the path |
| GatewayPolicy.Skip | src/gateway/app.ts:45-49 | the limiter's `skip`: the path contains `/details`, or is exactly `/pokemon` or `/health` |
| GatewayPolicy.SkippedPaths | src/gateway/app.ts:45-49 | "/pokemon", "/health" and every details path bypass the limiter |
| GatewayPolicy.LimitedWithoutD | src/gateway/app.ts:45-49 | a path with no 'd' bypasses the limiter only if it is "/pokemon" or "/health" |
| GatewayPolicy.BatchIsLimited | src/gateway/app.ts:45-49 | the batch route is rate-limited |
| GatewayPolicy.InsightPathSkip | src/gateway/app.ts:45-49 | an insight path for a name without '/' bypasses the limiter exactly when the name starts with "details" |
| GatewayPolicy.InsightPathSlashes | src/gateway/app.ts:45-49 | in an insight path for a name without '/', `/details` can only occur right after `/pokemon`, and only when the name has at least seven characters |
| BatchAggregation.CheckBody | src/gateway/app.ts:69-75 | a body is accepted exactly when names is an array of 1 to 50 entries; otherwise the matching 400 message |
| BatchAggregation.CachedHit | src/gateway/app.ts:81-83 | a hit is a live entry that is truthy, and it returns that entry |
| BatchAggregation.ResolveItem | src/gateway/app.ts:78-89 | a non-string name fails; a hit answers from the cache; a miss succeeds exactly when the upstream answers for the lower-cased name |
| BatchAggregation.ResolveAll | src/gateway/app.ts:77-91 | one settled result per name, in order, all against the same cache snapshot |
| BatchAggregation.CaseVariantsResolveAlike | src/gateway/app.ts:78-89 | names differing only in case resolve to the same data and source |
| BatchAggregation.Successes | src/gateway/app.ts:93-95 | the success list is no longer than the results |
| BatchAggregation.Failures | src/gateway/app.ts:97-99 | the failed list is no longer than the results |
| BatchAggregation.SplitDistributes | src/gateway/app.ts:93-99 | both lists respect concatenation, so they keep input order |
| BatchAggregation.SuccessMembership | src/gateway/app.ts:93-95 | an item is a success exactly when some result fulfilled with it |
| BatchAggregation.PartitionSizes | src/gateway/app.ts:93-99 | successes, reported failures and failures with falsy names add up to the total |
| BatchAggregation.NothingDropped | src/gateway/app.ts:97-99 | no failure is dropped exactly when every failed name is truthy |
| BatchAggregation.AllAccountedFor | src/gateway/app.ts:93-105 | successCount plus the failed count equals total exactly when no failed name is falsy |
| BatchAggregation.AllFulfilled | src/gateway/app.ts:93-105 | when every item succeeds, success lists every name in order and failed is empty |
| BatchAggregation.WriteBack | src/gateway/app.ts:88 | the batch's `cache.set` for every item fetched upstream, applied in input order, each under the details key of its name with the batch expiry; cache hits and failures write nothing |
| BatchAggregation.WriteBackAt | src/gateway/app.ts:88 | a key no item writes keeps its entry; a key whose writes all carry one value ends up holding it |
| BatchAggregation.WritesAgree | src/gateway/app.ts:78-89 | all items of one batch that write the same key write the same value |
| RateLimiter.Admit | src/gateway/app.ts:39-50 | a skipped path is admitted and not counted; otherwise the client's count goes up by one, the request is admitted iff the count is within 200, and other clients are untouched |
| RateLimiter.Limit | src/gateway/app.ts:39-50 | a skipped path passes; a counted request is refused exactly when the client already used its 200 requests in the window, and the refusal is a 429 with "Muitas requisições. Aguarde um momento." |
| RateLimiter.AdmitAll | src/gateway/app.ts:39-50 | one verdict per request |
| RateLimiter.SkippedAlwaysAdmitted | src/gateway/app.ts:45-49 | requests to a skipped path are all admitted and leave the limiter unchanged |
| RateLimiter.AdmissionInOneWindow | src/gateway/app.ts:39-41 | within one 60-second window, the k-th request of a client is admitted exactly when its earlier count plus k stays within 200 |
| RateLimiter.QuotaPlusOneRejected | src/gateway/app.ts:39-44 | from a fresh window, 200 requests are admitted and the next one is rejected |
| RateLimiter.FreshLimiterQuota | src/gateway/app.ts:39-44 | a limiter that has seen no request admits 200 requests of a client within one window and refuses the 201st |
| GatewayRoutes.LangOrDefault | src/gateway/app.ts:176 | the insight language: the one given in the query, else `pt` |
| GatewayRoutes.ListStep | src/gateway/app.ts:115-136 | a live truthy entry answers without calling upstream; a miss that succeeds is cached for 7200 s; any upstream failure is a 500 that caches nothing; metrics untouched |
| GatewayRoutes.DetailsStep | src/gateway/app.ts:139-169 | total and then exactly one of hits and misses go up; a miss fetches the lower-cased name; success is cached for 7200 s; 404 gives 404 and another failure gives 500, neither cached |
| GatewayRoutes.Analyse | src/gateway/app.ts:200-222 | the AI text with source ai and model gemini, or the fallback text with source fallback and model fallback-template |
| GatewayRoutes.InsightStep | src/gateway/app.ts:173-231 | the insight route answers with an analysis or a 404, never with a server error, and does not move the clock; a hit counts and answers from the cache; on a miss a failed lookup is a 404 caching nothing; otherwise the analysis is cached under the default TTL whatever its source, and a failed AI call raises aiErrors and fallbacksUsed by one each |
| GatewayRoutes.BatchStep | src/gateway/app.ts:65-107 | a rejected body is a 400 that reads and writes nothing; otherwise the reply is the split of the per-item results and the fetched items are written back under the default TTL; metrics untouched |
| GatewayRoutes.ApplyPreservesConsistency | src/gateway/app.ts:139-231 | one request keeps hits + misses = total and aiErrors = fallbacksUsed, and lowers no counter |
| GatewayRoutes.RunPreservesConsistency | src/gateway/app.ts:56-231 | any sequence of requests keeps both equations and never lowers a counter |
| GatewayRoutes.FreshGatewayStaysConsistent | src/utils/metrics.ts:4-10 | from zeroed metrics, both equations hold after any sequence of requests |
| GatewayRoutes.InsightHitAnswers | src/gateway/app.ts:181-187 | a live cached analysis is returned as a hit |
| GatewayRoutes.InsightMissThenHit | src/gateway/app.ts:181-225 | a successful miss followed, within the TTL, by the same request in any letter case hits and returns the same reply; total +2, misses +1, hits +1 |
| GatewayRoutes.DetailsRepeatsUntilExpiry | src/gateway/app.ts:144-159 | after a miss cached truthy data, repeats in any case return identical data until 7200 s pass, and ask upstream again after that |
| GatewayRoutes.InsightNeverFailsOnAi | src/gateway/app.ts:204-214 | a failed AI call on a miss whose lookup succeeded still answers with a non-empty analysis marked as fallback |
| GatewayRoutes.BatchWarmsDetails | src/gateway/app.ts:80-88 | after a batch fetched a name, a details request for it in any case is a hit returning the fetched data |
| GatewayRoutes.BatchPartialFailure | src/gateway/app.ts:93-105 | three names with the middle one failing: total 3, successCount 2, failed lists the middle name, successes keep input order |
| Gateway.PokemonGateway.constructor | src/gateway/app.ts:19-26 | a new gateway has an empty cache with default TTL 3600 and zeroed metrics |
| Gateway.PokemonGateway.MetricsRoute | src/gateway/app.ts:60-62 | returns the current counters and changes nothing |
| Gateway.PokemonGateway.ListRoute | src/gateway/app.ts:115-136 | the new cache, clock and counters, and the reply, are those of ListStep |
| Gateway.PokemonGateway.DetailsRoute | src/gateway/app.ts:139-169 | the new state and the reply are those of DetailsStep |
| Gateway.PokemonGateway.Analysis | src/gateway/app.ts:200-214 | the analysis built is Analyse's; the counters are unchanged after an AI success and gain one AI error and one fallback after a failure |
| Gateway.PokemonGateway.InsightRoute | src/gateway/app.ts:173-231 | the new state and the reply are those of InsightStep |
| Gateway.PokemonGateway.ResolveOne | src/gateway/app.ts:78-89 | the settled result of one name is ResolveItem's, against the cache as it stands; nothing changes |
| Gateway.PokemonGateway.ResolveNames | src/gateway/app.ts:77-91 | the results of all names, in order, are ResolveAll's; nothing changes |
| Gateway.PokemonGateway.WriteBackResults | src/gateway/app.ts:88 | the fetched items are written in input order under the default TTL, giving WriteBack's cache; the clock does not move |
| Gateway.PokemonGateway.BatchRoute | src/gateway/app.ts:65-112 | looks every name up first and then writes back in input order; the new state and reply are those of BatchStep |
| Gateway.PokemonGateway.Tick | src/gateway/app.ts:23 | only the clock moves |
| Gateway.Serve | src/gateway/app.ts:56-231 | serving requests one after another on the object ends in the state that Run predicts |

## Left out

- HTTP plumbing is not modelled: express, CORS, JSON body parsing, `trust proxy`, response headers and `start()`/`listen`. The `getInstance` singleton is not modelled either; the model builds one gateway object. It owns its metrics registry, where the source uses one module-level `metrics` instance.
- `GET /health` returns a status and an ISO timestamp. It is a `HealthRequest` that changes no state; the timestamp text is not modelled.
- The rate limiter is `express-rate-limit`, a library that is not part of this model. `RateLimiter` is taken to be a fixed window: per client, reset every 60000 ms, at most 200 requests. A refusal is taken to carry the library's default status 429 with the configured message. Its `standardHeaders` and store details are not modelled. `Request`/`Run` do not pass through it: admission is modelled next to the routes, not inside them.
- NodeCache internals: clones, `checkperiod` timing and statistics are not modelled. The sweep is `TtlCache.Sweep`, which the project proves invisible to lookups.
- ResponseCache.TtlCache.Set: requires a TTL above zero. NodeCache reads 0 as "never expires", and the gateway never passes 0.
- GatewayPolicy.Lower: maps the ASCII letters only. JavaScript's `toLowerCase` also maps non-ASCII letters.
- JSON numbers are integers. Their floating-point behaviour is not modelled.
- GatewayRoutes.BatchStep: the outer `catch` of the batch route (500 "Erro no carregamento em lote") is not modelled. In the model nothing outside the per-item promises can throw.
- GatewayRoutes.InsightStep: the outer `catch` of the insight route (500 "Falha ao gerar análise") is not modelled. The entity lookup is typed as `PokemonDetails`, so malformed upstream data cannot make the template throw.
- The `lang` query parameter is one of the three supported languages, or absent (which means `pt`). Unsupported strings are not modelled; TypeScript's cast does not check them.
- The insight route fetches the entity with `nameOrId` exactly as given (src/gateway/app.ts:194), while its cache key is lower-cased. The model keeps this; `entity` receives the raw name.
- `logError` only prints. It is not modelled beyond the two helpers it calls.
- Concurrency is not modelled. In the source, the batch route's lookups and writes interleave with other requests through promises. The model runs every route atomically: all batch lookups first, then all writes in input order. The upstream is a function of the name, so a batch gets one answer per lower-cased name. Under that assumption, writes to one key provably agree and the order of writes does not change the final cache. A provider that answered two requests for one name differently is not modelled.
- The AI service and its model name are an abstract outcome (a text, or a failure). `audioBase64` is always absent.
- The microservices and `src/services/*` are not part of this model. They are reached only through the upstream parameters.
- `LimitedWithoutD`/`InsightPathSkip`/`InsightPathSlashes`: the `skip` predicate sees `req.path`, the raw percent-encoded path, while the route reads its decoded parameter `nameOrId`. `InsightPath(name)` is the raw path segment. Percent-decoding is not modelled. When letters are percent-encoded, the route's decoded name can differ from the segment: `/pokemon/%64etails/insight` does not contain `/details`, yet its parameter decodes to `details`.
- `Skip`/`SkippedPaths`: Express matches routes case-insensitively and accepts a trailing slash, while `skip` compares `req.path` exactly. So `/pokemon/x/DETAILS`, `/Pokemon` and `/pokemon/` reach the details and list handlers but are counted by the limiter. Route matching is not modelled: "every details path" means the lower-case `DetailsPath(name)`, not every request the details handler serves.
