/** The data shapes of src/types.ts. */
module Types {
  import opened Wrappers

  /** `SupportedLanguage`: 'pt' | 'en' | 'es'. */
  datatype Lang = Pt | En | Es

  /** The language as it appears in query strings and cache keys. */
  function LangCode(lang: Lang): (code: string)
    ensures |code| == 2
  {
    match lang
    case Pt => "pt"
    case En => "en"
    case Es => "es"
  }

  lemma LangCodeInjective(a: Lang, b: Lang)
    ensures LangCode(a) == LangCode(b) <==> a == b
  {
  }

  /** A `{ name, url }` reference of the reference API. */
  datatype NamedResource = NamedResource(name: string, url: string)

  datatype Stat = Stat(baseStat: int, effort: int, stat: NamedResource)

  datatype Ability = Ability(ability: NamedResource, isHidden: bool, slot: int)

  /** An entry of `types`: its slot and the type it names (the `type` field of the source). */
  datatype TypeSlot = TypeSlot(slot: int, pokemonType: NamedResource)

  datatype Sprites = Sprites(frontDefault: string)

  datatype PokemonDetails = PokemonDetails(
    id: int,
    name: string,
    stats: seq<Stat>,
    types: seq<TypeSlot>,
    abilities: seq<Ability>,
    height: int,
    weight: int,
    sprites: Sprites)

  /** Provenance of an analysis: 'ai' | 'cache' | 'fallback'. */
  datatype Source = Ai | Cached | Fallback

  datatype AnalysisResponse = AnalysisResponse(
    pokemonName: string,
    text: string,
    audioBase64: Option<string>,
    source: Source,
    modelUsed: string,
    lang: Lang)

  /** The keys of `ServiceMetrics`. */
  datatype MetricKind = TotalRequests | CacheHits | CacheMisses | AiErrors | FallbacksUsed

  datatype ServiceMetrics = ServiceMetrics(
    totalRequests: nat,
    cacheHits: nat,
    cacheMisses: nat,
    aiErrors: nat,
    fallbacksUsed: nat)
}
