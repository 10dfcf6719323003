/**
 * The entity lexicon built at fit time: every literal example of a
 * non-built-in entity, normalized and stemmed, mapped to the pseudo-tokens of
 * the entities it exemplifies; the unknown-word sentinel is never a key.
 */
module EntityLexicon {
  import opened Wrappers
  import opened Domain
  import opened Normalizer

  /** The pseudo-tokens that the non-built-in entities among `names` give to the example `u`. */
  function FeaturesOf(res: Resources, dataset: Dataset, language: string, names: set<string>, u: string): set<string>
  {
    set e | e in names && e in dataset && !res.isBuiltinEntity(e) && u in dataset[e] :: EntityNameToFeature(res, e, language)
  }

  /** Every example utterance of a non-built-in entity. */
  function ExampleUtterances(res: Resources, dataset: Dataset): set<string>
  {
    set e, u | e in dataset && !res.isBuiltinEntity(e) && u in dataset[e] :: u
  }

  /** What `_get_utterances_to_features_names` returns. */
  ghost function UtterancesToFeatureNames(res: Resources, dataset: Dataset, language: string): Lexicon
  {
    map u | u in ExampleUtterances(res, dataset) :: FeaturesOf(res, dataset, language, dataset.Keys, u)
  }

  lemma FeaturesOfAdd(res: Resources, dataset: Dataset, language: string, done: set<string>, e: string, u: string)
    requires e in dataset
    ensures FeaturesOf(res, dataset, language, done + {e}, u)
         == FeaturesOf(res, dataset, language, done, u)
          + (if !res.isBuiltinEntity(e) && u in dataset[e] then {EntityNameToFeature(res, e, language)} else {})
  {
  }

  lemma FeaturesOfNonEmpty(res: Resources, dataset: Dataset, language: string, u: string)
    ensures FeaturesOf(res, dataset, language, dataset.Keys, u) != {} <==> u in ExampleUtterances(res, dataset)
  {
    if u in ExampleUtterances(res, dataset) {
      var e :| e in dataset && !res.isBuiltinEntity(e) && u in dataset[e];
      assert EntityNameToFeature(res, e, language) in FeaturesOf(res, dataset, language, dataset.Keys, u);
    }
  }

  /** The inner loop of `_get_utterances_to_features_names`: `utterances_to_features[u].add(feature)` for each example. */
  method AddFeatureToExamples(acc: Lexicon, examples: set<string>, feature: string) returns (r: Lexicon)
    ensures r.Keys == acc.Keys + examples
    ensures forall u :: u in r ==> r[u] == (if u in acc then acc[u] else {}) + (if u in examples then {feature} else {})
  {
    r := acc;
    var todo := examples;
    while todo != {}
      invariant todo <= examples
      invariant r.Keys == acc.Keys + (examples - todo)
      invariant forall u :: u in r ==> r[u] == (if u in acc then acc[u] else {}) + (if u in examples - todo then {feature} else {})
      decreases todo
    {
      var u :| u in todo;
      r := r[u := (if u in r then r[u] else {}) + {feature}];
      todo := todo - {u};
    }
  }

  /** One entity of the loop of `_get_utterances_to_features_names` extends the map from `done` to `done + {e}`. */
  lemma EntityStep(res: Resources, dataset: Dataset, language: string, done: set<string>, e: string, r: Lexicon, r': Lexicon)
    requires e in dataset
    requires forall u :: u in r <==> FeaturesOf(res, dataset, language, done, u) != {}
    requires forall u :: u in r ==> r[u] == FeaturesOf(res, dataset, language, done, u)
    requires res.isBuiltinEntity(e) ==> r' == r
    requires !res.isBuiltinEntity(e) ==>
               && r'.Keys == r.Keys + dataset[e]
               && forall u :: u in r' ==> r'[u] == (if u in r then r[u] else {}) + (if u in dataset[e] then {EntityNameToFeature(res, e, language)} else {})
    ensures forall u :: u in r' <==> FeaturesOf(res, dataset, language, done + {e}, u) != {}
    ensures forall u :: u in r' ==> r'[u] == FeaturesOf(res, dataset, language, done + {e}, u)
  {
    forall u
      ensures u in r' <==> FeaturesOf(res, dataset, language, done + {e}, u) != {}
      ensures u in r' ==> r'[u] == FeaturesOf(res, dataset, language, done + {e}, u)
    {
      FeaturesOfAdd(res, dataset, language, done, e, u);
      var feature := EntityNameToFeature(res, e, language);
      if !res.isBuiltinEntity(e) && u in dataset[e] {
        assert feature in FeaturesOf(res, dataset, language, done + {e}, u);
        assert u in r';
      }
    }
  }

  /** `_get_utterances_to_features_names`: a `defaultdict(set)` filled entity by entity, skipping built-in entities. */
  method GetUtterancesToFeatureNames(res: Resources, dataset: Dataset, language: string) returns (r: Lexicon)
    ensures r == UtterancesToFeatureNames(res, dataset, language)
  {
    r := map[];
    var todo := dataset.Keys;
    ghost var done: set<string> := {};
    while todo != {}
      invariant todo + done == dataset.Keys && todo !! done
      invariant forall u :: u in r <==> FeaturesOf(res, dataset, language, done, u) != {}
      invariant forall u :: u in r ==> r[u] == FeaturesOf(res, dataset, language, done, u)
      decreases todo
    {
      var e :| e in todo;
      ghost var before := r;
      if !res.isBuiltinEntity(e) {
        r := AddFeatureToExamples(r, dataset[e], EntityNameToFeature(res, e, language));
      }
      EntityStep(res, dataset, language, done, e, before, r);
      todo := todo - {e};
      done := done + {e};
    }
    forall u
      ensures u in r <==> u in ExampleUtterances(res, dataset)
    {
      FeaturesOfNonEmpty(res, dataset, language, u);
    }
  }

  /** The normalized-and-stemmed forms of `keys`. */
  function NormalizedKeys(res: Resources, language: string, keys: set<string>): set<string>
  {
    set k | k in keys :: NormalizeStem(res, k, language)
  }

  /** The union of the values of every key among `keys` that normalizes to `n`. */
  function Gathered(res: Resources, language: string, lex: Lexicon, keys: set<string>, n: string): set<string>
  {
    set k, x | k in keys && k in lex && x in lex[k] && NormalizeStem(res, k, language) == n :: x
  }

  /** `lex` with its keys normalized and stemmed, values of colliding keys united. */
  ghost function Regrouped(res: Resources, language: string, lex: Lexicon): Lexicon
  {
    map n | n in NormalizedKeys(res, language, lex.Keys) :: Gathered(res, language, lex, lex.Keys, n)
  }

  /** One key of the re-keying loop extends the regrouped map from `done` to `done + {k}`. */
  lemma RegroupStep(res: Resources, language: string, lex: Lexicon, done: set<string>, k: string, r: Lexicon, r': Lexicon)
    requires k in lex
    requires r.Keys == NormalizedKeys(res, language, done)
    requires forall n :: n in r ==> r[n] == Gathered(res, language, lex, done, n)
    requires var n := NormalizeStem(res, k, language);
             r' == r[n := (if n in r then r[n] else {}) + lex[k]]
    ensures r'.Keys == NormalizedKeys(res, language, done + {k})
    ensures forall n :: n in r' ==> r'[n] == Gathered(res, language, lex, done + {k}, n)
  {
    var n := NormalizeStem(res, k, language);
    assert NormalizedKeys(res, language, done + {k}) == NormalizedKeys(res, language, done) + {n};
    forall m | m in r'
      ensures r'[m] == Gathered(res, language, lex, done + {k}, m)
    {
      assert Gathered(res, language, lex, done + {k}, m)
          == Gathered(res, language, lex, done, m) + (if m == n then lex[k] else {});
    }
  }

  /** The `defaultdict(set)` loop of `fit` (lines 51-54) that re-keys the lexicon by `_normalize_stem`. */
  method NormalizeLexiconKeys(res: Resources, language: string, lex: Lexicon) returns (r: Lexicon)
    ensures r == Regrouped(res, language, lex)
  {
    r := map[];
    var todo := lex.Keys;
    ghost var done: set<string> := {};
    while todo != {}
      invariant todo + done == lex.Keys && todo !! done
      invariant r.Keys == NormalizedKeys(res, language, done)
      invariant forall n :: n in r ==> r[n] == Gathered(res, language, lex, done, n)
      decreases todo
    {
      var k :| k in todo;
      var n := NormalizeStem(res, k, language);
      ghost var before := r;
      r := r[n := (if n in r then r[n] else {}) + lex[k]];
      RegroupStep(res, language, lex, done, k, before, r);
      todo := todo - {k};
      done := done + {k};
    }
  }

  /** The lexicon `fit` stores (lines 49-61): re-keyed entity examples, minus the unknown-word sentinel. */
  ghost function BuildLexicon(res: Resources, dataset: Dataset, language: string, sentinel: Option<string>): (r: Lexicon)
    ensures sentinel.Some? ==> sentinel.value !in r
  {
    var m := Regrouped(res, language, UtterancesToFeatureNames(res, dataset, language));
    if sentinel.Some? then m - {sentinel.value} else m
  }

  /** Lines 49-61 of `fit`, which assign `entity_utterances_to_feature_names`. */
  method FitLexicon(res: Resources, dataset: Dataset, language: string, sentinel: Option<string>) returns (r: Lexicon)
    ensures r == BuildLexicon(res, dataset, language, sentinel)
  {
    var utterancesToFeatures := GetUtterancesToFeatureNames(res, dataset, language);
    r := NormalizeLexiconKeys(res, language, utterancesToFeatures);
    if sentinel.Some? && sentinel.value in r {
      r := r - {sentinel.value};
    }
  }

  /** Every pseudo-token in the lexicon comes from a non-built-in entity having an example that normalizes to the key. */
  lemma LexiconSound(res: Resources, dataset: Dataset, language: string, sentinel: Option<string>, key: string, f: string)
    requires key in BuildLexicon(res, dataset, language, sentinel)
    requires f in BuildLexicon(res, dataset, language, sentinel)[key]
    ensures IsEntityFeature(f)
    ensures exists e, u :: e in dataset && !res.isBuiltinEntity(e) && u in dataset[e]
                        && NormalizeStem(res, u, language) == key && f == EntityNameToFeature(res, e, language)
  {
    var lex := UtterancesToFeatureNames(res, dataset, language);
    assert f in Gathered(res, language, lex, lex.Keys, key);
    var u :| u in lex && f in lex[u] && NormalizeStem(res, u, language) == key;
    var e :| e in dataset && !res.isBuiltinEntity(e) && u in dataset[e] && f == EntityNameToFeature(res, e, language);
  }

  /** Every example of every non-built-in entity contributes that entity's pseudo-token under its normalized form, unless that form is the sentinel. */
  lemma LexiconComplete(res: Resources, dataset: Dataset, language: string, sentinel: Option<string>, e: string, u: string)
    requires e in dataset && !res.isBuiltinEntity(e) && u in dataset[e]
    requires sentinel != Some(NormalizeStem(res, u, language))
    ensures NormalizeStem(res, u, language) in BuildLexicon(res, dataset, language, sentinel)
    ensures EntityNameToFeature(res, e, language) in BuildLexicon(res, dataset, language, sentinel)[NormalizeStem(res, u, language)]
  {
    var lex := UtterancesToFeatureNames(res, dataset, language);
    assert u in ExampleUtterances(res, dataset);
    assert u in lex;
    assert EntityNameToFeature(res, e, language) in lex[u];
    var n := NormalizeStem(res, u, language);
    assert n in NormalizedKeys(res, language, lex.Keys);
    assert EntityNameToFeature(res, e, language) in Gathered(res, language, lex, lex.Keys, n);
  }
}
