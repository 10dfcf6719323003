/** Per-token normalization with a silent fallback when no stemmer exists, and entity pseudo-token names. */
module Normalizer {
  import opened Domain
  import Strings

  /**
   * `_normalize_stem`: normalize, then stem; when the stemmer raises
   * `UnknownResource` the normalized text is returned and nothing is raised.
   */
  function NormalizeStem(res: Resources, text: string, language: string): (r: string)
    ensures res.stem(res.normalize(text), language).Stemmed? ==> r == res.stem(res.normalize(text), language).text
    ensures res.stem(res.normalize(text), language).UnknownResource? ==> r == res.normalize(text)
  {
    var normalized := res.normalize(text);
    match res.stem(normalized, language)
    case Stemmed(s) => s
    case UnknownResource => normalized
  }

  /** `[_normalize_stem(t, language) for t in tokens]`. */
  function NormalizeStemAll(res: Resources, tokens: seq<string>, language: string): (r: seq<string>)
    ensures |r| == |tokens|
    ensures forall i :: 0 <= i < |tokens| ==> r[i] == NormalizeStem(res, tokens[i], language)
  {
    seq(|tokens|, i requires 0 <= i < |tokens| => NormalizeStem(res, tokens[i], language))
  }

  /** The marker that keeps entity pseudo-tokens apart from real words. */
  const EntityFeaturePrefix: string := "entityfeature"

  /** A string that starts with the entity marker. */
  predicate IsEntityFeature(f: string)
  {
    |f| >= |EntityFeaturePrefix| && f[..|EntityFeaturePrefix|] == EntityFeaturePrefix
  }

  /** `_entity_name_to_feature`: the marker followed by the entity name's tokens, concatenated. */
  function EntityNameToFeature(res: Resources, entityName: string, language: string): (r: string)
    ensures IsEntityFeature(r)
    ensures r[|EntityFeaturePrefix|..] == Strings.Concat(res.tokenizeLight(entityName, language))
  {
    EntityFeaturePrefix + Strings.Concat(res.tokenizeLight(entityName, language))
  }

  /** Two entity names share a pseudo-token exactly when their tokens concatenate to the same text. */
  lemma EntityFeatureCollision(res: Resources, a: string, b: string, language: string)
    ensures (EntityNameToFeature(res, a, language) == EntityNameToFeature(res, b, language))
        <==> Strings.Concat(res.tokenizeLight(a, language)) == Strings.Concat(res.tokenizeLight(b, language))
  {
    var fa, fb := EntityNameToFeature(res, a, language), EntityNameToFeature(res, b, language);
    if fa == fb {
      assert fa[|EntityFeaturePrefix|..] == fb[|EntityFeaturePrefix|..];
    }
  }
}
