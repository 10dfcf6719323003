/**
 * The intent featurizer: a `Featurizer` object whose `Fit` learns the entity
 * lexicon, the TF-IDF vectorizer and the selected columns, whose `Transform`
 * maps queries to the selected columns of their TF-IDF rows, and which can be
 * saved to and restored from a `Snapshot`.
 */
module IntentFeaturizer {
  import opened Wrappers
  import opened Domain
  import opened Strings
  import opened EntityLexicon
  import opened Preprocessing
  import opened Selection
  import opened Persistence

  const DefaultPValueThreshold: real := 0.4

  /**
   * How `fit` ends: `self` returned; `None` returned because every query is
   * blank; or a `KeyError` because a selected column has no word.
   */
  datatype FitOutcome = Fitted | NoOp | MissingColumn

  /**
   * Why `transform` raises: a part of the fitted state is missing, a selected
   * column lies outside the term matrix, or the `fit` before it did not return `self`.
   */
  datatype TransformError = NotFitted | ColumnOutOfRange | FitIncomplete

  /** `all(not "".join(tokenize_light(q, language)) for q in queries)`. */
  predicate AllQueriesBlank(res: Resources, language: string, queries: seq<string>)
  {
    forall i :: 0 <= i < |queries| ==> Concat(res.tokenizeLight(queries[i], language)) == ""
  }

  /** The value of column `c` in a sparse row. */
  function Entry(row: SparseRow, c: nat): real
  {
    if c in row then row[c] else 0.0
  }

  /** `X[:, columns]` on a term matrix `width` columns wide: `IndexError` when a column is out of range. */
  function SliceColumns(rows: seq<SparseRow>, width: nat, columns: seq<nat>): (r: Result<Matrix, TransformError>)
    ensures r.Success? <==> forall j :: 0 <= j < |columns| ==> columns[j] < width
    ensures r.Failure? ==> r.error == ColumnOutOfRange
    ensures r.Success? ==>
              && |r.value| == |rows|
              && forall k :: 0 <= k < |rows| ==>
                   |r.value[k]| == |columns| && forall j :: 0 <= j < |columns| ==> r.value[k][j] == Entry(rows[k], columns[j])
  {
    if forall j :: 0 <= j < |columns| ==> columns[j] < width then
      Success(seq(|rows|, k requires 0 <= k < |rows| => seq(|columns|, j requires 0 <= j < |columns| => Entry(rows[k], columns[j]))))
    else
      Failure(ColumnOutOfRange)
  }

  /** What `transform(queries)` returns, or why it raises, for a featurizer whose fields are `st`. */
  ghost function TransformOf(st: FeaturizerState, res: Resources, numeric: Numeric, queries: seq<string>): (r: Result<Matrix, TransformError>)
    requires ClusterResourcePresent(res, st.language)
    ensures r.Success? <==>
              && st.entityUtterancesToFeatureNames.Some? && st.tfidfVectorizer.fitted.Some? && st.bestFeatures.Some?
              && forall j :: 0 <= j < |st.bestFeatures.value| ==>
                   st.bestFeatures.value[j] < |st.tfidfVectorizer.fitted.value.vocabulary|
  {
    if st.entityUtterancesToFeatureNames.None? || st.tfidfVectorizer.fitted.None? || st.bestFeatures.None? then
      Failure(NotFitted)
    else
      var preprocessed := PreprocessedQueries(res, st.language, st.entityUtterancesToFeatureNames.value, queries);
      var fitted := st.tfidfVectorizer.fitted.value;
      var rows := numeric.transform(st.tfidfVectorizer.transformerOptions, fitted, preprocessed);
      SliceColumns(rows, |fitted.vocabulary|, st.bestFeatures.value)
  }

  /**
   * The state a `fit` that returns `self` leaves: the lexicon built from the
   * dataset, the vectorizer fitted on the preprocessed queries, and the
   * columns whose p-value passes the threshold (or ties the minimum), less
   * the stop words whose p-value exceeds half the threshold.
   */
  ghost predicate FittedBy(st: FeaturizerState, res: Resources, numeric: Numeric, dataset: Dataset, queries: seq<string>, y: seq<int>)
    requires ClusterResourcePresent(res, st.language)
  {
    && st.entityUtterancesToFeatureNames == Some(BuildLexicon(res, dataset, st.language, st.unknownWordsReplacementString))
    && var preprocessed := PreprocessedQueries(res, st.language, st.entityUtterancesToFeatureNames.value, queries);
       var options := st.tfidfVectorizer.transformerOptions;
       var fitted := numeric.fitTransform(options, preprocessed);
       && st.tfidfVectorizer.fitted == Some(fitted)
       && st.bestFeatures.Some?
       && ChosenColumns(fitted.vocabulary, numeric.chi2PValues(options, preprocessed, y), st.pvalueThreshold,
                        res.stopWords(st.language), st.bestFeatures.value)
  }

  /**
   * The columns lines 70-89 of `fit` keep, for some inverse of the
   * vocabulary: the selection less its demoted stop words.
   */
  ghost predicate ChosenColumns(vocabulary: map<string, int>, pval: seq<real>, threshold: real, stopWords: set<string>, best: seq<nat>)
  {
    var selected := SelectFeatures(pval, threshold);
    exists featuresIdx ::
      && IsInverse(vocabulary, featuresIdx)
      && Covered(selected, pval, featuresIdx)
      && best == KeptAfterDemotion(selected, pval, threshold, featuresIdx, stopWords)
  }

  /**
   * Lines 70-89 of `fit`: invert the vocabulary, select by p-value, then
   * demote stop words; `complete` is false when a selected column has no
   * word (the `KeyError`), and `best` is then the selection as it stood.
   */
  method SelectColumns(vocabulary: map<string, int>, pval: seq<real>, threshold: real, stopWords: set<string>)
    returns (best: seq<nat>, complete: bool)
    ensures !complete <==> exists i :: i in SelectFeatures(pval, threshold) && i !in vocabulary.Values
    ensures !complete ==> best == SelectFeatures(pval, threshold)
    ensures complete ==> ChosenColumns(vocabulary, pval, threshold, stopWords, best)
    ensures complete ==> StrictlyAscending(best) && forall i :: i in best ==> i in vocabulary.Values
  {
    var featuresIdx := InvertVocabulary(vocabulary);
    var selected := SelectFeatures(pval, threshold);
    if exists i :: i in selected && i !in featuresIdx {
      return selected, false;
    }
    CoveredIntro(selected, pval, featuresIdx);
    best := DemoteStopWords(selected, pval, threshold, featuresIdx, stopWords);
    complete := true;
    KeptAscending(selected, pval, threshold, featuresIdx, stopWords);
    forall i | i in best
      ensures i in vocabulary.Values
    {
      KeptMember(selected, i, pval, threshold, featuresIdx, stopWords);
    }
  }

  /** The state a `fit` that raises `KeyError` at a selected column without a word leaves. */
  ghost predicate StoppedAtMissingColumn(st: FeaturizerState, res: Resources, numeric: Numeric, dataset: Dataset, queries: seq<string>, y: seq<int>)
    requires ClusterResourcePresent(res, st.language)
  {
    && st.entityUtterancesToFeatureNames == Some(BuildLexicon(res, dataset, st.language, st.unknownWordsReplacementString))
    && var preprocessed := PreprocessedQueries(res, st.language, st.entityUtterancesToFeatureNames.value, queries);
       var options := st.tfidfVectorizer.transformerOptions;
       var fitted := numeric.fitTransform(options, preprocessed);
       var selected := SelectFeatures(numeric.chi2PValues(options, preprocessed, y), st.pvalueThreshold);
       && st.tfidfVectorizer.fitted == Some(fitted)
       && st.bestFeatures == Some(selected)
       && exists i :: i in selected && i !in fitted.vocabulary.Values
  }

  /** Columns in range that all have a word are covered. */
  lemma CoveredIntro(selected: seq<nat>, pval: seq<real>, featuresIdx: map<int, string>)
    requires forall i: nat :: i in selected ==> i < |pval|
    requires !exists i :: i in selected && i !in featuresIdx
    ensures Covered(selected, pval, featuresIdx)
  {
    forall j | 0 <= j < |selected|
      ensures selected[j] < |pval| && selected[j] in featuresIdx
    {
      assert selected[j] in selected;
    }
  }

  /**
   * After a fit that returns `self`, transform raises only if the chi-squared
   * test gave more p-values than the vocabulary has columns.
   */
  lemma TransformAfterFit(st: FeaturizerState, res: Resources, numeric: Numeric, dataset: Dataset, queries: seq<string>, y: seq<int>, later: seq<string>)
    requires ClusterResourcePresent(res, st.language)
    requires FittedBy(st, res, numeric, dataset, queries, y)
    requires var preprocessed := PreprocessedQueries(res, st.language, st.entityUtterancesToFeatureNames.value, queries);
             var options := st.tfidfVectorizer.transformerOptions;
             |numeric.chi2PValues(options, preprocessed, y)| <= |numeric.fitTransform(options, preprocessed).vocabulary|
    ensures TransformOf(st, res, numeric, later).Success?
  {
    var preprocessed := PreprocessedQueries(res, st.language, st.entityUtterancesToFeatureNames.value, queries);
    var options := st.tfidfVectorizer.transformerOptions;
    var fitted := numeric.fitTransform(options, preprocessed);
    var pval := numeric.chi2PValues(options, preprocessed, y);
    var selected := SelectFeatures(pval, st.pvalueThreshold);
    var featuresIdx :| && IsInverse(fitted.vocabulary, featuresIdx)
                       && Covered(selected, pval, featuresIdx)
                       && st.bestFeatures.value == KeptAfterDemotion(selected, pval, st.pvalueThreshold, featuresIdx, res.stopWords(st.language));
    var best := st.bestFeatures.value;
    forall j | 0 <= j < |best|
      ensures best[j] < |fitted.vocabulary|
    {
      KeptMember(selected, best[j], pval, st.pvalueThreshold, featuresIdx, res.stopWords(st.language));
    }
  }

  /**
   * A featurizer restored from a snapshot transforms every query batch as the
   * one that was saved, provided the saved vectorizer's transformer was a
   * default one (as for a config that sets no transformer option).
   */
  lemma TransformAfterRestore(st: FeaturizerState, snap: Snapshot, res: Resources, numeric: Numeric, queries: seq<string>)
    requires Exports(st, snap) && ClusterResourcePresent(res, st.language)
    requires st.tfidfVectorizer.transformerOptions == map[]
    ensures FromSnapshot(snap).Success?
    ensures TransformOf(FromSnapshot(snap).value, res, numeric, queries) == TransformOf(st, res, numeric, queries)
  {
    RoundTrip(st, snap);
  }

  class Featurizer {
    var language: string
    var config: FeaturizerConfig
    var tfidfVectorizer: TfidfVectorizer
    var bestFeatures: Option<seq<nat>>
    var pvalueThreshold: real
    var entityUtterancesToFeatureNames: Option<Lexicon>
    var unknownWordsReplacementString: Option<string>

    function State(): FeaturizerState
      reads this
    {
      FeaturizerState(language, config, tfidfVectorizer, bestFeatures, pvalueThreshold,
                      entityUtterancesToFeatureNames, unknownWordsReplacementString)
    }

    /**
     * `Featurizer(...)` with every field given; a `None` vectorizer is replaced
     * by a fresh, unfitted one built from the config.
     */
    constructor (language: string, unknownWordsReplacementString: Option<string>, config: FeaturizerConfig,
                 tfidfVectorizer: Option<TfidfVectorizer>, bestFeatures: Option<seq<nat>>,
                 entityUtterancesToFeatureNames: Option<Lexicon>, pvalueThreshold: real)
      ensures State() == FeaturizerState(language, config,
                                         if tfidfVectorizer.Some? then tfidfVectorizer.value
                                         else TfidfVectorizer(TransformerOptions(config), None),
                                         bestFeatures, pvalueThreshold,
                                         entityUtterancesToFeatureNames, unknownWordsReplacementString)
    {
      this.language := language;
      this.config := config;
      if tfidfVectorizer.None? {
        this.tfidfVectorizer := TfidfVectorizer(TransformerOptions(config), None);
      } else {
        this.tfidfVectorizer := tfidfVectorizer.value;
      }
      this.bestFeatures := bestFeatures;
      this.pvalueThreshold := pvalueThreshold;
      this.entityUtterancesToFeatureNames := entityUtterancesToFeatureNames;
      this.unknownWordsReplacementString := unknownWordsReplacementString;
    }

    /** `Featurizer(language, unknown_words_replacement_string, config)` with the remaining defaults. */
    constructor Unfitted(language: string, unknownWordsReplacementString: Option<string>, config: FeaturizerConfig)
      ensures State() == FeaturizerState(language, config, TfidfVectorizer(TransformerOptions(config), None), None,
                                         DefaultPValueThreshold, None, unknownWordsReplacementString)
    {
      this.language := language;
      this.config := config;
      this.tfidfVectorizer := TfidfVectorizer(TransformerOptions(config), None);
      this.bestFeatures := None;
      this.pvalueThreshold := DefaultPValueThreshold;
      this.entityUtterancesToFeatureNames := None;
      this.unknownWordsReplacementString := unknownWordsReplacementString;
    }

    /** `preprocess_queries`: each query preprocessed with the current lexicon, in order. */
    method PreprocessQueries(res: Resources, queries: seq<string>) returns (preprocessedQueries: seq<string>)
      requires ClusterResourcePresent(res, language) && entityUtterancesToFeatureNames.Some?
      ensures preprocessedQueries == PreprocessedQueries(res, language, entityUtterancesToFeatureNames.value, queries)
    {
      var lexicon := entityUtterancesToFeatureNames.value;
      preprocessedQueries := [];
      for i := 0 to |queries|
        invariant preprocessedQueries == PreprocessedQueries(res, language, lexicon, queries[..i])
      {
        var processedQuery := PreprocessQuery(res, language, lexicon, queries[i]);
        PreprocessedQueriesSnoc(res, language, lexicon, queries, i);
        preprocessedQueries := preprocessedQueries + [processedQuery];
      }
      assert queries[..|queries|] == queries;
    }

    /**
     * `fit`: always rebuilds the lexicon; leaves the vectorizer and the
     * selected columns alone when every query is blank; otherwise refits the
     * vectorizer and selects the columns, unless a selected column has no word.
     */
    method Fit(res: Resources, numeric: Numeric, dataset: Dataset, queries: seq<string>, y: seq<int>) returns (outcome: FitOutcome)
      requires ClusterResourcePresent(res, language)
      modifies this
      ensures language == old(language) && config == old(config) && pvalueThreshold == old(pvalueThreshold)
      ensures unknownWordsReplacementString == old(unknownWordsReplacementString)
      ensures tfidfVectorizer.transformerOptions == old(tfidfVectorizer.transformerOptions)
      ensures entityUtterancesToFeatureNames == Some(BuildLexicon(res, dataset, language, unknownWordsReplacementString))
      ensures outcome.NoOp? <==> AllQueriesBlank(res, language, queries)
      ensures outcome.NoOp? ==> tfidfVectorizer == old(tfidfVectorizer) && bestFeatures == old(bestFeatures)
      ensures outcome.Fitted? ==> FittedBy(State(), res, numeric, dataset, queries, y)
      ensures outcome.MissingColumn? ==> StoppedAtMissingColumn(State(), res, numeric, dataset, queries, y)
    {
      var lexicon := FitLexicon(res, dataset, language, unknownWordsReplacementString);
      entityUtterancesToFeatureNames := Some(lexicon);
      if AllQueriesBlank(res, language, queries) {
        return NoOp;
      }
      var preprocessedQueries := PreprocessQueries(res, queries);
      var fitted := numeric.fitTransform(tfidfVectorizer.transformerOptions, preprocessedQueries);
      tfidfVectorizer := tfidfVectorizer.(fitted := Some(fitted));
      var pval := numeric.chi2PValues(tfidfVectorizer.transformerOptions, preprocessedQueries, y);
      var best, complete := SelectColumns(fitted.vocabulary, pval, pvalueThreshold, res.stopWords(language));
      bestFeatures := Some(best);
      if !complete {
        return MissingColumn;
      }
      return Fitted;
    }

    /** `transform`: the selected columns of the TF-IDF rows of the preprocessed queries. */
    method Transform(res: Resources, numeric: Numeric, queries: seq<string>) returns (x: Result<Matrix, TransformError>)
      requires ClusterResourcePresent(res, language)
      ensures x == TransformOf(State(), res, numeric, queries)
    {
      if entityUtterancesToFeatureNames.None? || tfidfVectorizer.fitted.None? || bestFeatures.None? {
        return Failure(NotFitted);
      }
      var preprocessedQueries := PreprocessQueries(res, queries);
      var fitted := tfidfVectorizer.fitted.value;
      var rows := numeric.transform(tfidfVectorizer.transformerOptions, fitted, preprocessedQueries);
      x := SliceColumns(rows, |fitted.vocabulary|, bestFeatures.value);
    }

    /** `fit_transform`: a fit that does not return `self` makes the chained `transform` raise. */
    method FitTransform(res: Resources, numeric: Numeric, dataset: Dataset, queries: seq<string>, y: seq<int>)
      returns (outcome: FitOutcome, x: Result<Matrix, TransformError>)
      requires ClusterResourcePresent(res, language)
      modifies this
      ensures language == old(language) && config == old(config) && pvalueThreshold == old(pvalueThreshold)
      ensures unknownWordsReplacementString == old(unknownWordsReplacementString)
      ensures tfidfVectorizer.transformerOptions == old(tfidfVectorizer.transformerOptions)
      ensures entityUtterancesToFeatureNames == Some(BuildLexicon(res, dataset, language, unknownWordsReplacementString))
      ensures outcome.NoOp? <==> AllQueriesBlank(res, language, queries)
      ensures outcome.NoOp? ==> tfidfVectorizer == old(tfidfVectorizer) && bestFeatures == old(bestFeatures)
      ensures outcome.Fitted? ==> FittedBy(State(), res, numeric, dataset, queries, y)
      ensures outcome.MissingColumn? ==> StoppedAtMissingColumn(State(), res, numeric, dataset, queries, y)
      ensures outcome.Fitted? ==> x == TransformOf(State(), res, numeric, queries)
      ensures !outcome.Fitted? ==> x == Failure(FitIncomplete)
    {
      outcome := Fit(res, numeric, dataset, queries, y);
      if outcome != Fitted {
        return outcome, Failure(FitIncomplete);
      }
      x := Transform(res, numeric, queries);
    }

    /**
     * `to_dict`: `None` stands for the `AttributeError` raised when the vectorizer
     * is fitted but there is no lexicon to list.
     */
    method ToDict() returns (snap: Option<Snapshot>)
      ensures snap.None? <==> tfidfVectorizer.fitted.Some? && entityUtterancesToFeatureNames.None?
      ensures snap.Some? ==> Exports(State(), snap.value)
    {
      var vectorizerSnapshot: VectorizerSnapshot;
      var lists: map<string, seq<string>>;
      if tfidfVectorizer.fitted.Some? {
        if entityUtterancesToFeatureNames.None? {
          return None;
        }
        var fitted := tfidfVectorizer.fitted.value;
        vectorizerSnapshot := VectorizerSnapshot(Some(fitted.vocabulary), Some(fitted.idfDiag));
        lists := ListLexicon(entityUtterancesToFeatureNames.value);
      } else {
        vectorizerSnapshot := VectorizerSnapshot(None, None);
        lists := map[];
      }
      snap := Some(Snapshot(language, vectorizerSnapshot, bestFeatures, pvalueThreshold, lists, config,
                            unknownWordsReplacementString));
    }

    /** `from_dict`: a new featurizer holding the snapshot's fields, or the error restoring the vectorizer raises. */
    static method FromDict(snap: Snapshot) returns (r: Result<Featurizer, SnapshotError>)
      ensures FromSnapshot(snap).Failure? ==> r == Failure(FromSnapshot(snap).error)
      ensures FromSnapshot(snap).Success? ==> r.Success? && fresh(r.value) && r.value.State() == FromSnapshot(snap).value
    {
      var vectorizer := DeserializeTfidfVectorizer(snap.tfidfVectorizer);
      if vectorizer.Failure? {
        return Failure(vectorizer.error);
      }
      var lexicon := LexiconOf(snap.entityUtterancesToFeatureNames);
      var f := new Featurizer(snap.languageCode, snap.unknownWordsReplacementString, snap.config, Some(vectorizer.value),
                              snap.bestFeatures, Some(lexicon), snap.pvalueThreshold);
      r := Success(f);
    }
  }
}
