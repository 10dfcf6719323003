/**
 * The plain-data snapshot of a featurizer (`to_dict` / `from_dict`): the
 * vocabulary and IDF weights, the selected columns, the threshold, the
 * language, the sentinel and the entity lexicon with its sets as lists.
 */
module Persistence {
  import opened Wrappers
  import opened Domain

  /** The `tfidf_vectorizer` entry: both `None` for a vectorizer that was never fitted. */
  datatype VectorizerSnapshot = VectorizerSnapshot(vocab: Option<map<string, int>>, idfDiag: Option<seq<real>>)

  datatype Snapshot = Snapshot(
    languageCode: string,
    tfidfVectorizer: VectorizerSnapshot,
    bestFeatures: Option<seq<nat>>,
    pvalueThreshold: real,
    entityUtterancesToFeatureNames: map<string, seq<string>>,
    config: FeaturizerConfig,
    unknownWordsReplacementString: Option<string>)

  /** The fields of a `Featurizer`, as one value. */
  datatype FeaturizerState = FeaturizerState(
    language: string,
    config: FeaturizerConfig,
    tfidfVectorizer: TfidfVectorizer,
    bestFeatures: Option<seq<nat>>,
    pvalueThreshold: real,
    entityUtterancesToFeatureNames: Option<Lexicon>,
    unknownWordsReplacementString: Option<string>)

  /** `set(l)`. */
  function Elements(l: seq<string>): set<string>
  {
    set x | x in l
  }

  predicate NoDuplicates(l: seq<string>)
  {
    forall i, j :: 0 <= i < j < |l| ==> l[i] != l[j]
  }

  /** `list(s)` for a set `s`: its elements, each once, in some order. */
  method SetToList(s: set<string>) returns (l: seq<string>)
    ensures Elements(l) == s && NoDuplicates(l) && |l| == |s|
  {
    l := [];
    var todo := s;
    while todo != {}
      invariant todo <= s
      invariant Elements(l) == s - todo && NoDuplicates(l) && |l| == |s - todo|
      decreases todo
    {
      var x :| x in todo;
      ListStep(s, todo, l, x);
      l := l + [x];
      todo := todo - {x};
    }
  }

  /** Listing one more pending element keeps the list duplicate-free and in step with the done part. */
  lemma ListStep(s: set<string>, todo: set<string>, l: seq<string>, x: string)
    requires todo <= s && x in todo
    requires Elements(l) == s - todo && NoDuplicates(l)
    ensures Elements(l + [x]) == s - (todo - {x}) && NoDuplicates(l + [x])
    ensures |s - (todo - {x})| == |s - todo| + 1
  {
    assert x !in Elements(l);
    assert s - (todo - {x}) == (s - todo) + {x};
    assert Elements(l + [x]) == Elements(l) + {x};
  }

  /** Every lexicon entry listed once per key, with its set as a duplicate-free list. */
  predicate ListsLexicon(lists: map<string, seq<string>>, lex: Lexicon)
  {
    && lists.Keys == lex.Keys
    && forall k :: k in lists ==> Elements(lists[k]) == lex[k] && NoDuplicates(lists[k])
  }

  /** `{k: list(v) for k, v in iteritems(lexicon)}`. */
  method ListLexicon(lex: Lexicon) returns (lists: map<string, seq<string>>)
    ensures ListsLexicon(lists, lex)
  {
    lists := map[];
    var todo := lex.Keys;
    while todo != {}
      invariant todo <= lex.Keys
      invariant lists.Keys == lex.Keys - todo
      invariant forall k :: k in lists ==> Elements(lists[k]) == lex[k] && NoDuplicates(lists[k])
      decreases todo
    {
      var k :| k in todo;
      var l := SetToList(lex[k]);
      lists := lists[k := l];
      todo := todo - {k};
    }
  }

  /**
   * The snapshots `to_dict` may produce for a featurizer whose fields are `st`:
   * a never-fitted vectorizer exports `None` twice and an empty lexicon.
   */
  ghost predicate Exports(st: FeaturizerState, snap: Snapshot)
  {
    && snap.languageCode == st.language
    && snap.config == st.config
    && snap.bestFeatures == st.bestFeatures
    && snap.pvalueThreshold == st.pvalueThreshold
    && snap.unknownWordsReplacementString == st.unknownWordsReplacementString
    && match st.tfidfVectorizer.fitted
       case None =>
         snap.tfidfVectorizer == VectorizerSnapshot(None, None) && snap.entityUtterancesToFeatureNames == map[]
       case Some(v) =>
         && snap.tfidfVectorizer == VectorizerSnapshot(Some(v.vocabulary), Some(v.idfDiag))
         && st.entityUtterancesToFeatureNames.Some?
         && ListsLexicon(snap.entityUtterancesToFeatureNames, st.entityUtterancesToFeatureNames.value)
  }

  /** `len(np.array(None))` raises `TypeError` when a vocabulary comes without IDF weights. */
  datatype SnapshotError = IdfWeightsMissing

  /**
   * `_deserialize_tfidf_vectorizer`: a vectorizer whose `_tfidf` is a plain
   * `TfidfTransformer()`, whatever the config, holding the stored vocabulary
   * and weights as they are, without a length check.
   */
  function DeserializeTfidfVectorizer(vs: VectorizerSnapshot): (r: Result<TfidfVectorizer, SnapshotError>)
    ensures r.Success? ==> r.value.transformerOptions == map[]
    ensures vs.vocab.None? ==> r.Success? && r.value.fitted.None?
    ensures vs.vocab.Some? && vs.idfDiag.None? ==> r == Failure(IdfWeightsMissing)
    ensures vs.vocab.Some? && vs.idfDiag.Some? ==>
              r.Success? && r.value.fitted == Some(FittedTfidf(vs.vocab.value, vs.idfDiag.value))
  {
    match vs.vocab
    case None => Success(TfidfVectorizer(map[], None))
    case Some(vocab) =>
      match vs.idfDiag
      case None => Failure(IdfWeightsMissing)
      case Some(idf) => Success(TfidfVectorizer(map[], Some(FittedTfidf(vocab, idf))))
  }

  /** `{k: set(v) for k, v in iteritems(lists)}`. */
  function LexiconOf(lists: map<string, seq<string>>): (r: Lexicon)
    ensures r.Keys == lists.Keys
  {
    map k | k in lists :: Elements(lists[k])
  }

  /** The fields `from_dict` gives the featurizer it builds. */
  function FromSnapshot(snap: Snapshot): Result<FeaturizerState, SnapshotError>
  {
    match DeserializeTfidfVectorizer(snap.tfidfVectorizer)
    case Failure(e) => Failure(e)
    case Success(vectorizer) =>
      Success(FeaturizerState(
        snap.languageCode, snap.config, vectorizer, snap.bestFeatures, snap.pvalueThreshold,
        Some(LexiconOf(snap.entityUtterancesToFeatureNames)), snap.unknownWordsReplacementString))
  }

  /**
   * `from_dict(to_dict(F))` restores every field of `F` but two: the
   * vectorizer's transformer loses the options the config gave it, and the
   * lexicon of a featurizer whose vectorizer was never fitted comes back empty.
   */
  lemma RoundTrip(st: FeaturizerState, snap: Snapshot)
    requires Exports(st, snap)
    ensures FromSnapshot(snap) == Success(st.(
              tfidfVectorizer := st.tfidfVectorizer.(transformerOptions := map[]),
              entityUtterancesToFeatureNames :=
                if st.tfidfVectorizer.fitted.None? then Some(map[]) else st.entityUtterancesToFeatureNames))
  {
    if st.tfidfVectorizer.fitted.Some? {
      var lex := st.entityUtterancesToFeatureNames.value;
      assert LexiconOf(snap.entityUtterancesToFeatureNames) == lex;
    }
  }
}
