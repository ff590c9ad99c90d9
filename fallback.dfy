/**
 * The templated substitute of src/utils/fallback.ts: used when the generative
 * provider fails, it names the pokemon and its primary type in a fixed text.
 */
module FallbackTemplate {
  import opened Types

  /** The type reported when the record has no usable first type. */
  const UnknownType: string := "unknown"

  // The texts of the three templates of src/utils/fallback.ts, split around the name and the type.
  const PtHeading: string := "### Análise de Emergência: "
  const EnHeading: string := "### Emergency Analysis: "
  const EsHeading: string := "### Análisis de Emergência: "
  const PtTypeLine: string := "\n\nOs sistemas do Professor estão instáveis. Dados básicos:\n- **Tipo:** "
  const EnTypeLine: string := "\n\nProfessor's systems unstable. Basic data:\n- **Type:** "
  const EsTypeLine: string := "\n\nSistemas del Profesor inestables. Datos básicos:\n- **Tipo:** "
  const PtClosing: string := "\n- **Estratégia:** Monitore os atributos básicos.\n- **Lore:** Sem dados de lore disponíveis no momento offline."
  const EnClosing: string := "\n- **Strategy:** Watch base stats closely.\n- **Lore:** No lore data available offline."
  const EsClosing: string := "\n- **Estrategia:** Monitorea los atributos básicos.\n- **Lore:** Sin datos de historia disponibles offline."

  /** The per-language template is `Heading + name + TypeLine + type + Closing`. */
  function Heading(lang: Lang): string
  {
    match lang
    case Pt => PtHeading
    case En => EnHeading
    case Es => EsHeading
  }

  function TypeLine(lang: Lang): string
  {
    match lang
    case Pt => PtTypeLine
    case En => EnTypeLine
    case Es => EsTypeLine
  }

  function Closing(lang: Lang): string
  {
    match lang
    case Pt => PtClosing
    case En => EnClosing
    case Es => EsClosing
  }

  /** `getTemplate`: the language's template with `name` and `type` inserted. */
  function Template(lang: Lang, name: string, typ: string): (r: string)
    ensures |r| == |Heading(lang)| + |name| + |TypeLine(lang)| + |typ| + |Closing(lang)|
  {
    Heading(lang) + name + TypeLine(lang) + typ + Closing(lang)
  }

  /** `types[0]?.type.name || 'unknown'`. */
  function PrimaryType(pokemon: PokemonDetails): (t: string)
    ensures t != ""
    ensures |pokemon.types| > 0 && pokemon.types[0].pokemonType.name != "" ==> t == pokemon.types[0].pokemonType.name
    ensures |pokemon.types| == 0 || pokemon.types[0].pokemonType.name == "" ==> t == UnknownType
  {
    if |pokemon.types| > 0 && pokemon.types[0].pokemonType.name != "" then pokemon.types[0].pokemonType.name
    else UnknownType
  }

  /** `getFallbackAnalysis`; the language defaults to Portuguese. */
  function FallbackAnalysis(pokemon: PokemonDetails, lang: Lang := Pt): (r: string)
    ensures |r| > |Heading(lang)| + |pokemon.name|
  {
    Template(lang, pokemon.name, PrimaryType(pokemon))
  }

  /** Omitting the language is the same as asking for Portuguese. */
  lemma DefaultLanguageIsPortuguese(pokemon: PokemonDetails)
    ensures FallbackAnalysis(pokemon) == FallbackAnalysis(pokemon, Pt)
  {
  }

  /** Where the parts of a five-part concatenation sit. */
  lemma ConcatParts(h: string, name: string, line: string, t: string, c: string)
    ensures var r := h + name + line + t + c;
            var n := |h|;
            var m := n + |name| + |line|;
            && r[..n] == h
            && r[n..n + |name|] == name
            && r[m..m + |t|] == t
  {
    var r := h + name + line + t + c;
    var n := |h|;
    var m := n + |name| + |line|;
    assert r[..n] == h;
    assert r[n..n + |name|] == name;
    assert r[m..m + |t|] == t;
  }

  /** `s` begins with `prefix`. */
  predicate StartsWith(s: string, prefix: string)
  {
    |prefix| <= |s| && s[..|prefix|] == prefix
  }

  /** Every heading starts with a level-3 markdown heading marker. */
  lemma HeadingMarker(lang: Lang)
    ensures StartsWith(Heading(lang), "### ")
  {
  }

  /** The headings of two languages differ at position 4 (English against the others) or 10. */
  lemma HeadingsDiffer(a: Lang, b: Lang) returns (k: nat)
    requires a != b
    ensures k < |Heading(a)| && k < |Heading(b)| && Heading(a)[k] != Heading(b)[k]
  {
    k := if a == En || b == En then 4 else 10;
  }

  /** A five-part concatenation starts with its first part. */
  lemma ConcatStart(h: string, name: string, line: string, t: string, c: string, prefix: string)
    requires StartsWith(h, prefix)
    ensures StartsWith(h + name + line + t + c, prefix)
  {
    ConcatParts(h, name, line, t, c);
    var r := h + name + line + t + c;
    assert r[..|prefix|] == r[..|h|][..|prefix|];
  }

  /** Two five-part concatenations whose first parts differ at a position differ. */
  lemma ConcatHeadsDiffer(h: string, name: string, line: string, t: string, c: string,
                          h': string, name': string, line': string, t': string, c': string, k: nat)
    requires k < |h| && k < |h'| && h[k] != h'[k]
    ensures h + name + line + t + c != h' + name' + line' + t' + c'
  {
    assert (h + name + line + t + c)[k] == h[k];
    assert (h' + name' + line' + t' + c')[k] == h'[k];
  }

  /** Two five-part concatenations with the same frame differ exactly where their names differ. */
  lemma ConcatDeterminesName(h: string, name: string, name': string, line: string, t: string, c: string)
    requires h + name + line + t + c == h + name' + line + t + c
    ensures name == name'
  {
    ConcatParts(h, name, line, t, c);
    ConcatParts(h, name', line, t, c);
  }

  /** Every fallback text starts with a level-3 markdown heading. */
  lemma FallbackStartsWithHeading(pokemon: PokemonDetails, lang: Lang)
    ensures StartsWith(FallbackAnalysis(pokemon, lang), "### ")
  {
    HeadingMarker(lang);
    ConcatStart(Heading(lang), pokemon.name, TypeLine(lang), PrimaryType(pokemon), Closing(lang), "### ");
  }

  /** The name is inserted right after the heading. */
  lemma FallbackName(pokemon: PokemonDetails, lang: Lang)
    ensures var n := |Heading(lang)|;
            n + |pokemon.name| <= |FallbackAnalysis(pokemon, lang)|
            && FallbackAnalysis(pokemon, lang)[n..n + |pokemon.name|] == pokemon.name
  {
    ConcatParts(Heading(lang), pokemon.name, TypeLine(lang), PrimaryType(pokemon), Closing(lang));
  }

  /** The primary type is inserted right after the type line. */
  lemma FallbackType(pokemon: PokemonDetails, lang: Lang)
    ensures var m := |Heading(lang)| + |pokemon.name| + |TypeLine(lang)|;
            var t := PrimaryType(pokemon);
            m + |t| <= |FallbackAnalysis(pokemon, lang)|
            && FallbackAnalysis(pokemon, lang)[m..m + |t|] == t
  {
    ConcatParts(Heading(lang), pokemon.name, TypeLine(lang), PrimaryType(pokemon), Closing(lang));
  }

  /** The language of a fallback text can be read off it: different languages never give the same text. */
  lemma LanguageDeterminesText(p: PokemonDetails, q: PokemonDetails, a: Lang, b: Lang)
    requires a != b
    ensures FallbackAnalysis(p, a) != FallbackAnalysis(q, b)
  {
    var k := HeadingsDiffer(a, b);
    ConcatHeadsDiffer(Heading(a), p.name, TypeLine(a), PrimaryType(p), Closing(a),
                      Heading(b), q.name, TypeLine(b), PrimaryType(q), Closing(b), k);
  }

  /** For one language and one primary type, the text determines the name. */
  lemma TextDeterminesName(p: PokemonDetails, q: PokemonDetails, lang: Lang)
    requires PrimaryType(p) == PrimaryType(q)
    requires FallbackAnalysis(p, lang) == FallbackAnalysis(q, lang)
    ensures p.name == q.name
  {
    ConcatDeterminesName(Heading(lang), p.name, q.name, TypeLine(lang), PrimaryType(p), Closing(lang));
  }
}
