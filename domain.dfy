/**
 * The values the featurizer works on and the collaborators it calls.
 *
 * Everything the featurizer calls but does not define (the light tokenizer,
 * the normalizer, the stemmer, the stop-word and word-cluster resources, the
 * built-in entity test, the n-gram enumerator, `str.lower`, and the sklearn /
 * scipy numerics) is a field of `Resources` or `Numeric`: a total function
 * whose behaviour the model does not constrain.
 */
module Domain {
  import opened Wrappers

  /** Entity name -> its literal example utterances (`dataset[ENTITIES][name][UTTERANCES]`). */
  type Dataset = map<string, set<string>>

  /** Normalized and stemmed utterance fragment -> entity pseudo-tokens (`entity_utterances_to_feature_names`). */
  type Lexicon = map<string, set<string>>

  /** A dense feature matrix, one row per query. */
  type Matrix = seq<seq<real>>

  /** One row of a scipy sparse term matrix: column -> weight; an absent column holds 0. */
  type SparseRow = map<nat, real>

  /** `FeaturizerConfig`, threaded through untouched; only its dict form is kept. */
  datatype FeaturizerConfig = FeaturizerConfig(options: map<string, string>)

  /** The keyword arguments `TfidfVectorizer` hands on to the `TfidfTransformer` it keeps as `_tfidf`. */
  const TransformerOptionNames: set<string> := {"norm", "use_idf", "smooth_idf", "sublinear_tf"}

  /** The transformer options `TfidfVectorizer(**config.to_dict())` receives; a plain `TfidfTransformer()` has none. */
  function TransformerOptions(config: FeaturizerConfig): map<string, string>
  {
    map k | k in config.options && k in TransformerOptionNames :: config.options[k]
  }

  /** A config gives the vectorizer the default transformer exactly when it sets none of the transformer options. */
  lemma NoTransformerOptions(config: FeaturizerConfig)
    ensures TransformerOptions(config) == map[] <==> forall k :: k in config.options ==> k !in TransformerOptionNames
  {
    forall k | k in config.options && k in TransformerOptionNames
      ensures k in TransformerOptions(config)
    {
    }
  }

  /** What a fitted `TfidfVectorizer` holds: `vocabulary_` and the diagonal of `_tfidf._idf_diag`. */
  datatype FittedTfidf = FittedTfidf(vocabulary: map<string, int>, idfDiag: seq<real>)

  /**
   * A `TfidfVectorizer` object: the options its `_tfidf` transformer was built
   * with, and what fitting it learnt (`None` while it has no `vocabulary_`).
   */
  datatype TfidfVectorizer = TfidfVectorizer(transformerOptions: map<string, string>, fitted: Option<FittedTfidf>)

  /** `stem` either returns a stem or raises `UnknownResource` for a language without a stemmer. */
  datatype StemOutcome = Stemmed(text: string) | UnknownResource

  datatype Resources = Resources(
    tokenizeLight: (string, string) -> seq<string>,                 // tokenize_light(text, language)
    normalize: string -> string,                                    // normalize(text)
    stem: (string, string) -> StemOutcome,                          // stem(text, language)
    stopWords: string -> set<string>,                               // get_stop_words(language)
    wordClusters: string -> map<string, map<string, string>>,       // get_word_clusters(language)
    clusterUsedPerLanguage: map<string, string>,                    // CLUSTER_USED_PER_LANGUAGES
    defaultSep: string -> string,                                   // get_default_sep(language)
    isBuiltinEntity: string -> bool,                                // is_builtin_entity(name)
    allNgrams: seq<string> -> seq<string>,                          // [g[NGRAM] for g in get_all_ngrams(tokens)]
    lower: string -> string                                         // str.lower
  )

  /** The sklearn / scipy numerics, taken as given. */
  datatype Numeric = Numeric(
    // TfidfVectorizer.fit on the preprocessed queries, with the given transformer options
    fitTransform: (map<string, string>, seq<string>) -> FittedTfidf,
    // chi2(fit_transform(queries), y)[1]
    chi2PValues: (map<string, string>, seq<string>, seq<int>) -> seq<real>,
    // TfidfVectorizer.transform, all columns, weighted by a transformer with the given options
    transform: (map<string, string>, FittedTfidf, seq<string>) -> seq<SparseRow>
  )

  /** The cluster name configured for a language; `""` (falsy) when there is none. */
  function ClusterName(res: Resources, language: string): string
  {
    if language in res.clusterUsedPerLanguage then res.clusterUsedPerLanguage[language] else ""
  }

  /** `get_word_clusters(language)[cluster_name]` succeeds whenever a cluster is configured. */
  predicate ClusterResourcePresent(res: Resources, language: string)
  {
    ClusterName(res, language) != "" ==> ClusterName(res, language) in res.wordClusters(language)
  }
}
