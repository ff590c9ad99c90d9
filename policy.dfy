/**
 * The pure decisions of src/gateway/app.ts: the rate-limit bypass, the cache keys,
 * the TTLs, and the shapes of upstream outcomes, cached values and replies.
 */
module GatewayPolicy {
  import opened Wrappers
  import opened JsonValues
  import opened Types

  /** The default TTL of the cache (`stdTTL`), used by Batch and Insight. */
  const StdTtl: nat := 3600
  /** The TTL List and Details pass explicitly. */
  const LongTtl: nat := 7200

  const NotFoundMessage: string := "Pokémon não encontrado na PokeAPI"
  const DetailsErrorMessage: string := "Erro ao buscar detalhes do Pokémon"
  const ListErrorMessage: string := "Erro ao buscar lista de Pokémon"

  /** What an upstream GET settles to: its data, a 404, or any other failure. */
  datatype Fetch<T> = Ok(data: T) | NotFound | OtherError

  /** What the generative call settles to. */
  datatype AiOutcome = AiOk(text: string) | AiFail

  /** A value the gateway stores in its cache: raw upstream data or a built analysis. */
  datatype Payload = Raw(json: Json) | Insight(analysis: AnalysisResponse)

  /** The `if (cached)` test: an analysis object is always truthy, raw data by JavaScript's rules. */
  predicate PayloadTruthy(p: Payload)
  {
    match p
    case Raw(j) => Truthy(j)
    case Insight(_) => true
  }

  /** An HTTP reply: a 200 with its body, or an error status with its message. */
  datatype Reply<T> = Success(body: T) | Failure(status: nat, message: string)

  // ---------------------------------------------------------------------------
  // Lower-case normalisation (`toLowerCase`, on the ASCII letters)

  function LowerChar(c: char): char
  {
    if 'A' <= c <= 'Z' then (c as int + 32) as char else c
  }

  function Lower(s: string): (r: string)
    ensures |r| == |s|
  {
    if s == [] then [] else [LowerChar(s[0])] + Lower(s[1..])
  }

  /** Two names are the same name up to letter case. */
  predicate EqualIgnoringCase(a: string, b: string)
  {
    |a| == |b| && forall i :: 0 <= i < |a| ==> LowerChar(a[i]) == LowerChar(b[i])
  }

  lemma {:induction false} LowerAt(s: string, i: nat)
    requires i < |s|
    ensures Lower(s)[i] == LowerChar(s[i])
  {
    if i > 0 {
      LowerAt(s[1..], i - 1);
    }
  }

  /** Lower-casing identifies exactly the names that are equal up to case. */
  lemma LowerIdentifiesCaseVariants(a: string, b: string)
    ensures Lower(a) == Lower(b) <==> EqualIgnoringCase(a, b)
  {
    if Lower(a) == Lower(b) {
      forall i | 0 <= i < |a|
        ensures LowerChar(a[i]) == LowerChar(b[i])
      {
        LowerAt(a, i);
        LowerAt(b, i);
      }
    }
    if EqualIgnoringCase(a, b) {
      forall i | 0 <= i < |a|
        ensures Lower(a)[i] == Lower(b)[i]
      {
        LowerAt(a, i);
        LowerAt(b, i);
      }
    }
  }

  /** Normalising twice is normalising once. */
  lemma LowerIdempotent(s: string)
    ensures Lower(Lower(s)) == Lower(s)
  {
    forall i | 0 <= i < |s|
      ensures Lower(Lower(s))[i] == Lower(s)[i]
    {
      LowerAt(s, i);
      LowerAt(Lower(s), i);
    }
  }

  // ---------------------------------------------------------------------------
  // Cache keys

  /** `details-${lower}`, shared by Details and Batch. */
  function DetailsKey(name: string): string
  {
    "details-" + Lower(name)
  }

  /** `insight-${lower}-${lang}`. */
  function InsightKey(name: string, lang: Lang): string
  {
    "insight-" + Lower(name) + "-" + LangCode(lang)
  }

  /** `list-${limit}-${offset}`, with the defaults 151 and 0 for missing query parameters. */
  function ListKey(limit: Option<string>, offset: Option<string>): string
  {
    "list-" + limit.GetOr("151") + "-" + offset.GetOr("0")
  }

  /** Two names give the same Details key exactly when they are equal up to case. */
  lemma DetailsKeyNormalises(a: string, b: string)
    ensures DetailsKey(a) == DetailsKey(b) <==> EqualIgnoringCase(a, b)
  {
    LowerIdentifiesCaseVariants(a, b);
    if DetailsKey(a) == DetailsKey(b) {
      assert Lower(a) == DetailsKey(a)[8..];
      assert Lower(b) == DetailsKey(b)[8..];
    }
  }

  /** Two Insight keys agree exactly when the names are equal up to case and the languages agree. */
  lemma InsightKeyNormalises(a: string, b: string, la: Lang, lb: Lang)
    ensures InsightKey(a, la) == InsightKey(b, lb) <==> EqualIgnoringCase(a, b) && la == lb
  {
    LowerIdentifiesCaseVariants(a, b);
    LangCodeInjective(la, lb);
    var ka, kb := InsightKey(a, la), InsightKey(b, lb);
    if ka == kb {
      assert |a| == |b|;
      var n := 8 + |a|;
      assert Lower(a) == ka[8..n];
      assert Lower(b) == kb[8..n];
      assert LangCode(la) == ka[n + 1..];
      assert LangCode(lb) == kb[n + 1..];
    }
  }

  /** The three key families never collide, so no route reads another route's entry. */
  lemma KeyFamiliesDisjoint(name: string, other: string, lang: Lang, limit: Option<string>, offset: Option<string>)
    ensures DetailsKey(name) != InsightKey(other, lang)
    ensures DetailsKey(name) != ListKey(limit, offset)
    ensures InsightKey(other, lang) != ListKey(limit, offset)
  {
    assert DetailsKey(name)[0] == 'd';
    assert InsightKey(other, lang)[0] == 'i';
    assert ListKey(limit, offset)[0] == 'l';
  }

  /** With no query parameters, List reads the key of the first 151 entries. */
  lemma ListKeyDefaults()
    ensures ListKey(None, None) == "list-151-0"
    ensures ListKey(Some("151"), Some("0")) == ListKey(None, None)
  {
  }

  // ---------------------------------------------------------------------------
  // Rate-limit bypass (the `skip` option of the limiter)

  /** `t` occurs in `s` starting at position `i`. */
  predicate OccursAt(s: string, t: string, i: int)
  {
    0 <= i && i + |t| <= |s| && s[i..i + |t|] == t
  }

  /** `s.includes(t)`. */
  predicate Contains(s: string, t: string)
  {
    exists i :: 0 <= i <= |s| - |t| && OccursAt(s, t, i)
  }

  const DetailsSegment: string := "/details"
  const ListPath: string := "/pokemon"
  const HealthPath: string := "/health"

  /** Requests whose path passes this predicate are never counted by the limiter. */
  predicate Skip(path: string)
  {
    Contains(path, DetailsSegment) || path == ListPath || path == HealthPath
  }

  /** The request path of the Insight route for `name`. */
  function InsightPath(name: string): string
  {
    ListPath + "/" + name + "/insight"
  }

  /** The request path of the Details route for `name`. */
  function DetailsPath(name: string): string
  {
    ListPath + "/" + name + DetailsSegment
  }

  /** The plain list, the health check and every Details path bypass the limiter. */
  lemma SkippedPaths(name: string)
    ensures Skip("/pokemon") && Skip("/health") && Skip(DetailsPath(name))
  {
    var p := DetailsPath(name);
    assert p[9 + |name|..] == "/details";
    assert OccursAt(p, "/details", 9 + |name|);
  }

  /** A path without the letter `d` that is neither `/pokemon` nor `/health` is subject to the limiter. */
  lemma {:induction false} LimitedWithoutD(path: string)
    requires 'd' !in path
    requires path != "/pokemon" && path != "/health"
    ensures !Skip(path)
  {
    var t := DetailsSegment;
    assert |t| == 8 && t[1] == 'd';
    forall i | 0 <= i <= |path| - |t|
      ensures !OccursAt(path, t, i)
    {
      assert path[i + 1] in path;
      assert path[i..i + |t|][1] == path[i + 1] != t[1];
    }
  }

  /** The batch route is subject to the limiter. */
  lemma BatchIsLimited()
    ensures !Skip("/pokemon/batch")
  {
    LimitedWithoutD("/pokemon/batch");
  }

  /**
   * An Insight path bypasses the limiter exactly when the name (a single path segment)
   * starts with `details`: `includes('/details')` also matches `/pokemon/details…/insight`.
   */
  lemma InsightPathSkip(name: string)
    requires '/' !in name
    ensures Skip(InsightPath(name)) <==> |name| >= 7 && name[..7] == "details"
  {
    var p := InsightPath(name);
    var t := DetailsSegment;
    var n := |name|;
    assert |p| == 17 + n;
    assert p != ListPath && p != HealthPath;
    if |name| >= 7 && name[..7] == "details" {
      assert p[8..16] == "/" + name[..7];
      assert OccursAt(p, t, 8);
    }
    if Contains(p, t) {
      var i :| 0 <= i <= |p| - |t| && OccursAt(p, t, i);
      InsightPathSlashes(name, i);
      assert name[..7] == p[9..16] == t[1..];
    }
  }

  /**
   * The only slashes of an Insight path are at 0, 8 and 9 + |name|, and a 'd' follows
   * none but the one at 8, so `/details` can only occur right after the prefix.
   */
  lemma InsightPathSlashes(name: string, i: int)
    requires '/' !in name
    requires OccursAt(InsightPath(name), DetailsSegment, i)
    ensures i == 8 && |name| >= 7
  {
    var p := InsightPath(name);
    var t := DetailsSegment;
    var n := |name|;
    assert |p| == 17 + n;
    assert |t| == 8 && t[0] == '/' && t[1] == 'd';
    assert p[i] == p[i..i + 8][0] == '/';
    assert p[i + 1] == p[i..i + 8][1] == 'd';
    forall k | 0 <= k < |p| && p[k] == '/'
      ensures k == 0 || k == 8 || k == 9 + n
    {
    }
    assert p[1] == 'p' && p[10 + n] == 'i';
    assert i == 8;
    forall j | 9 <= j < 16
      ensures p[j] != '/'
    {
      assert p[j] == p[8..16][j - 8] == t[j - 8];
    }
    assert p[9 + n] == '/';
  }
}
