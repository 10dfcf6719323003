# Intent featurizer model

This project models the featurizer of an intent classifier. The featurizer turns
natural-language queries into TF-IDF feature rows. It keeps only the columns that
a chi-squared test finds relevant to the intent labels. The modelled code is
`snips_nlu/intent_classifier/featurizer.py`.

- **Fit** builds an entity lexicon from the dataset. The lexicon maps each
  normalized and stemmed example of a non-built-in entity to the
  `entityfeature…` pseudo-tokens of the entities it exemplifies. The
  unknown-word sentinel is never a key.
- **Query preprocessing.** Each query becomes its normalized and stemmed tokens,
  joined by the language's separator. Then come the sorted entity pseudo-tokens
  of its n-grams, and then the sorted word-cluster labels of its raw n-grams.
  Each of those two blocks starts with a space and is present only when it is
  non-empty.
- **Blank corpus.** If every query tokenizes to nothing, `fit` stops after
  building the lexicon.
- **Refit and column selection.** Otherwise `fit` refits the vectorizer. It
  selects the columns whose p-value is below the threshold. When there are none,
  it selects every column whose p-value equals the minimum. It then drops each
  selected stop word whose p-value exceeds half the threshold.
- **Transform** preprocesses queries and keeps the selected columns of their
  TF-IDF rows.
- **Snapshot.** `to_dict` / `from_dict` save and restore the featurizer. Sets
  are stored as lists, and the vectorizer as its vocabulary and IDF weights.
  Restoring gives the vectorizer a default `TfidfTransformer()`, so transformer
  options the config set are lost. A featurizer whose vectorizer was never
  fitted exports an empty lexicon and gets an empty one back.

Modules:

| module | file | contents |
|---|---|---|
| `Strings` | `strings.dfy` | `str.join`, code-point order, `sorted` (insertion sort) |
| `Domain` | `domain.dfy` | the dataset, the lexicon and matrices; the vectorizer object and its transformer options; `Resources` and `Numeric`, the collaborators as function-valued fields |
| `Normalizer` | `normalizer.dfy` | `_normalize_stem`, `_entity_name_to_feature` |
| `EntityLexicon` | `lexicon.dfy` | the lexicon built by `fit` |
| `Preprocessing` | `preprocessing.dfy` | `_preprocess_query` and its helpers |
| `Selection` | `selection.dfy` | p-value selection, the stop-word pass, the inverse vocabulary |
| `Persistence` | `persistence.dfy` | the snapshot format, `_deserialize_tfidf_vectorizer`, the round trip |
| `IntentFeaturizer` | `featurizer.dfy` | the `Featurizer` class |

Some collaborators are not part of this model, so each is a field of `Resources`
or `Numeric` and its behaviour is left unconstrained:

- `tokenize_light`, `normalize`, `stem`;
- `get_stop_words`, `get_word_clusters`, `get_default_sep`;
- `is_builtin_entity`, `get_all_ngrams`, `str.lower`;
- sklearn's `TfidfVectorizer` and `chi2`.

The process-wide `CLUSTER_USED_PER_LANGUAGES` map is a field of `Resources`.

## Model

| member | source | states |
|---|---|---|
| `Strings.ConcatEmpty` | snips_nlu/intent_classifier/featurizer.py:63 | `"".join(tokens)` is empty exactly when every token is empty, so the blank-corpus test looks at token text |
| `Strings.Sort` | snips_nlu/intent_classifier/featurizer.py:234 | `sorted` keeps the same elements with the same multiplicities |
| `Strings.SortSorted` | snips_nlu/intent_classifier/featurizer.py:234 | the result of `Sort` is in code-point order |
| `Strings.SortedUnique` | snips_nlu/intent_classifier/featurizer.py:234 | two ordered sequences with the same elements are equal, so the sorted block does not depend on set iteration order |
| `Strings.SortDependsOnlyOnElements` | snips_nlu/intent_classifier/featurizer.py:219-234 | sorting two sequences with the same multiset of elements gives the same result |
| `Strings.LeTotal` | snips_nlu/intent_classifier/featurizer.py:234 | any two strings are comparable in the order `sorted` uses |
| `Strings.LeTransitive` | snips_nlu/intent_classifier/featurizer.py:234 | that order is transitive |
| `Strings.LeAntisymmetric` | snips_nlu/intent_classifier/featurizer.py:234 | that order is antisymmetric |
| `Normalizer.NormalizeStem` | snips_nlu/intent_classifier/featurizer.py:191-197 | the result is the stem of the normalized text; when the stemmer reports `UnknownResource`, it is the normalized text and nothing is raised |
| `Normalizer.NormalizeStemAll` | snips_nlu/intent_classifier/featurizer.py:227-228 | one normalized stem per token, in token order |
| `Normalizer.EntityNameToFeature` | snips_nlu/intent_classifier/featurizer.py:186-188 | the pseudo-token starts with `entityfeature`, and the rest is the entity name's tokens concatenated |
| `Normalizer.EntityFeatureCollision` | snips_nlu/intent_classifier/featurizer.py:186-188 | two entities share a pseudo-token exactly when their tokens concatenate to the same text |
| `EntityLexicon.FeaturesOfNonEmpty` | snips_nlu/intent_classifier/featurizer.py:242-247 | an utterance gets some pseudo-token exactly when it is an example of some non-built-in entity |
| `EntityLexicon.AddFeatureToExamples` | snips_nlu/intent_classifier/featurizer.py:245-247 | the new map adds the entity's pseudo-token to the set of each of its examples and leaves every other key as it was |
| `EntityLexicon.EntityStep` | snips_nlu/intent_classifier/featurizer.py:242-247 | one entity of the outer loop extends the map to that entity's examples and keeps every other entry |
| `EntityLexicon.GetUtterancesToFeatureNames` | snips_nlu/intent_classifier/featurizer.py:240-248 | the result maps each example utterance to exactly the pseudo-tokens of the non-built-in entities that list it |
| `EntityLexicon.RegroupStep` | snips_nlu/intent_classifier/featurizer.py:52-54 | one key of the re-keying loop adds its set under its normalized stem |
| `EntityLexicon.NormalizeLexiconKeys` | snips_nlu/intent_classifier/featurizer.py:51-54 | keys are replaced by their normalized stems, and keys that collide have their sets merged |
| `EntityLexicon.BuildLexicon` | snips_nlu/intent_classifier/featurizer.py:49-61 | the unknown-word sentinel is never a key of the lexicon |
| `EntityLexicon.FitLexicon` | snips_nlu/intent_classifier/featurizer.py:49-61 | the two loops and the sentinel removal compute `BuildLexicon` |
| `EntityLexicon.LexiconSound` | snips_nlu/intent_classifier/featurizer.py:49-61 | each lexicon entry is an entity pseudo-token coming from a non-built-in entity's example whose normalized stem is the key |
| `EntityLexicon.LexiconComplete` | snips_nlu/intent_classifier/featurizer.py:49-61 | each example of a non-built-in entity, under its normalized stem, maps to that entity's pseudo-token, unless the stem is the sentinel |
| `Preprocessing.ClusterLabels` | snips_nlu/intent_classifier/featurizer.py:204-211 | there is at most one label per n-gram |
| `Preprocessing.ClusterLabelsMembers` | snips_nlu/intent_classifier/featurizer.py:206-210 | a label occurs exactly when some lower-cased n-gram is in the cluster map with that label |
| `Preprocessing.WordClusterFeatures` | snips_nlu/intent_classifier/featurizer.py:200-211 | a language without a configured cluster contributes nothing; otherwise there is at most one label per n-gram |
| `Preprocessing.GetWordClusterFeatures` | snips_nlu/intent_classifier/featurizer.py:200-211 | the loop computes `WordClusterFeatures` |
| `Preprocessing.EntityFeatureBagMembers` | snips_nlu/intent_classifier/featurizer.py:214-221 | a pseudo-token is gathered exactly when some n-gram of the stemmed tokens is a lexicon key whose set holds it |
| `Preprocessing.AppendSet` | snips_nlu/intent_classifier/featurizer.py:219-220 | `+=` of a set keeps the list as a prefix and adds each element of the set once |
| `Preprocessing.GetDatasetEntitiesFeatures` | snips_nlu/intent_classifier/featurizer.py:214-221 | the gathered list holds each pseudo-token once per n-gram that yields it |
| `Preprocessing.SortedBag` | snips_nlu/intent_classifier/featurizer.py:233-236 | the arrangement the blocks are specified by is ordered and holds exactly the given elements |
| `Preprocessing.SortIsSortedBag` | snips_nlu/intent_classifier/featurizer.py:234 | `sorted` of a list is that ordered arrangement of its elements, whatever order the list was built in |
| `Preprocessing.AppendBlock` | snips_nlu/intent_classifier/featurizer.py:233-236 | `if s: features += " " + " ".join(sorted(s))` appends the block of the ordered arrangement of `s` |
| `Preprocessing.PreprocessedQueriesSnoc` | snips_nlu/intent_classifier/featurizer.py:104-110 | preprocessing one more query appends its preprocessed form |
| `Preprocessing.PreprocessQuery` | snips_nlu/intent_classifier/featurizer.py:224-237 | the method produces the joined stems, then the sorted entity block, then the sorted cluster block, each block present only when non-empty |
| `Preprocessing.EntityInjection` | snips_nlu/intent_classifier/featurizer.py:224-237 | every pseudo-token of a lexicon key matched by an n-gram of the query appears in the query's entity block |
| `Selection.IndicesWhere` | snips_nlu/intent_classifier/featurizer.py:76-80 | the indices are strictly ascending and are exactly those whose p-value passes the test |
| `Selection.MinPValue` | snips_nlu/intent_classifier/featurizer.py:80 | `pval.min()` is a p-value no larger than any other |
| `Selection.SelectFeatures` | snips_nlu/intent_classifier/featurizer.py:76-80 | the result is ascending and in range. It is the columns below the threshold when there are any. Otherwise it is the columns tied at the minimum, and it is non-empty whenever there is a p-value |
| `Selection.BelowThresholdMonotone` | snips_nlu/intent_classifier/featurizer.py:76-77 | raising the threshold never drops a selected column |
| `Selection.KeptAfterDemotion` | snips_nlu/intent_classifier/featurizer.py:82-89 | the stop-word pass never lengthens the selection; that it keeps only selected columns is proved by `KeptMember` |
| `Selection.KeptMember` | snips_nlu/intent_classifier/featurizer.py:82-89 | a column is kept exactly when it was selected and is not a stop word whose p-value exceeds half the threshold |
| `Selection.KeptAscending` | snips_nlu/intent_classifier/featurizer.py:82-89 | an ascending selection stays ascending after the stop-word pass |
| `Selection.NotBefore` | snips_nlu/intent_classifier/featurizer.py:89 | in an ascending selection a column does not occur before its own position, so `list.remove` finds that position |
| `Selection.RemoveFirst` | snips_nlu/intent_classifier/featurizer.py:89 | `list.remove` makes the list one element shorter |
| `Selection.RemoveFirstAfter` | snips_nlu/intent_classifier/featurizer.py:89 | `list.remove` of a value first found at position k deletes exactly position k |
| `Selection.KeptSnoc` | snips_nlu/intent_classifier/featurizer.py:86-89 | filtering one more column appends it unless it is demoted |
| `Selection.DemotionStep` | snips_nlu/intent_classifier/featurizer.py:86-89 | one pass of the loop takes the list from "first k columns filtered" to "first k+1 columns filtered" |
| `Selection.DemoteStopWords` | snips_nlu/intent_classifier/featurizer.py:82-89 | removing items in place while looping gives `KeptAfterDemotion` of the selection. The loop visits the selection in list order, where the code visits the dict's keys; the columns are distinct, so the removals commute (not proved) |
| `Selection.InvertVocabulary` | snips_nlu/intent_classifier/featurizer.py:70-71 | the result maps each column of the vocabulary back to a word that has that column |
| `Selection.InverseUnique` | snips_nlu/intent_classifier/featurizer.py:70-71 | for a vocabulary with one word per column, the inverse is the same whatever the iteration order |
| `Persistence.SetToList` | snips_nlu/intent_classifier/featurizer.py:121 | `list(s)` holds each element of `s` exactly once |
| `Persistence.ListLexicon` | snips_nlu/intent_classifier/featurizer.py:120-123 | every lexicon key is listed, and each list has the key's set as its elements, without duplicates |
| `Persistence.DeserializeTfidfVectorizer` | snips_nlu/intent_classifier/featurizer.py:251-267 | the restored vectorizer's transformer has no options, whatever the config. A null vocabulary gives an unfitted vectorizer. A vocabulary without IDF weights fails. Otherwise the stored vocabulary and weights are taken unchanged |
| `Persistence.LexiconOf` | snips_nlu/intent_classifier/featurizer.py:156-159 | the restored lexicon has the snapshot's keys |
| `Persistence.RoundTrip` | snips_nlu/intent_classifier/featurizer.py:112-171 | `from_dict(to_dict(F))` restores every field of `F`, except that the vectorizer's transformer options are dropped and an unfitted featurizer comes back with an empty lexicon |
| `IntentFeaturizer.SliceColumns` | snips_nlu/intent_classifier/featurizer.py:97 | `X[:, best]` fails exactly when a column is out of range; otherwise row k, entry j is column `best[j]` of row k |
| `IntentFeaturizer.SelectColumns` | snips_nlu/intent_classifier/featurizer.py:70-89 | the method reports the `KeyError` exactly when a selected column has no word, and then leaves the raw selection. Otherwise its columns are the selection less the demoted stop words, for some inverse of the vocabulary, still ascending, and each with a word |
| `IntentFeaturizer.CoveredIntro` | snips_nlu/intent_classifier/featurizer.py:83-84 | when every selected column is in range and has a word, the lookups of line 84 all succeed |
| `IntentFeaturizer.TransformOf` | snips_nlu/intent_classifier/featurizer.py:93-99 | leaving aside errors raised inside sklearn, transform succeeds when and only when the lexicon, the vectorizer and the selection exist and every selected column is inside the vocabulary |
| `IntentFeaturizer.TransformAfterFit` | snips_nlu/intent_classifier/featurizer.py:48-99 | after a fit that returns `self`, transform cannot fail, provided chi2 gave at most one p-value per vocabulary column |
| `Domain.NoTransformerOptions` | snips_nlu/intent_classifier/featurizer.py:174-178 | the vectorizer built from a config has a default transformer exactly when the config sets none of `norm`, `use_idf`, `smooth_idf`, `sublinear_tf` |
| `IntentFeaturizer.TransformAfterRestore` | snips_nlu/intent_classifier/featurizer.py:93-171 | a featurizer restored from its own snapshot transforms every batch of queries to the same matrix, or the same error, when the saved vectorizer's transformer had default options |
| `IntentFeaturizer.Featurizer.constructor` | snips_nlu/intent_classifier/featurizer.py:29-46 | every field is set to its argument; a missing vectorizer is replaced by an unfitted one built from the config |
| `IntentFeaturizer.Featurizer.Unfitted` | snips_nlu/intent_classifier/featurizer.py:29-46 | the defaults are an unfitted vectorizer built from the config, no selection, no lexicon and a threshold of 0.4 |
| `IntentFeaturizer.Featurizer.PreprocessQueries` | snips_nlu/intent_classifier/featurizer.py:104-110 | each query is preprocessed with the current lexicon, in order |
| `IntentFeaturizer.Featurizer.Fit` | snips_nlu/intent_classifier/featurizer.py:48-91 | fit keeps the vectorizer's transformer options and the other configured fields, always rebuilds the lexicon, and returns the no-op outcome exactly when every query is blank, with the vectorizer and selection untouched. Otherwise it refits and either leaves the state of a `KeyError` at a column without a word, with the raw selection, or the demoted selection |
| `IntentFeaturizer.Featurizer.Transform` | snips_nlu/intent_classifier/featurizer.py:93-99 | the method computes `TransformOf` of the current fields |
| `IntentFeaturizer.Featurizer.FitTransform` | snips_nlu/intent_classifier/featurizer.py:101-102 | the new state is that of `fit` in each of its three outcomes; transform runs on the freshly fitted state, and a fit that does not return `self` makes the chained call fail |
| `IntentFeaturizer.Featurizer.ToDict` | snips_nlu/intent_classifier/featurizer.py:112-144 | leaving aside errors raised inside sklearn, the snapshot fails when and only when the vectorizer is fitted but there is no lexicon; otherwise it exports every field but the transformer options |
| `IntentFeaturizer.Featurizer.FromDict` | snips_nlu/intent_classifier/featurizer.py:146-171 | the result is a new featurizer whose fields are those the snapshot describes, or the deserialization error |

## Left out

Numerics:
- TF-IDF fitting, the IDF formula, the sparse term matrix, the chi-squared statistic and its p-values are sklearn/scipy code. They are the `Numeric` parameter. Only how the featurizer uses their results is modelled.
- `chi2` p-values can be NaN. A NaN compares false everywhere, so it would not be selected. A NaN also makes `pval.min()` NaN, so the fallback of lines 79-80 then selects nothing. P-values are `real` here, with no NaN.

Resources and collaborators:
- The language resources and helper functions are the `Resources` parameter: the tokenizer, normalizer, stemmer, stop words, clusters, separator, built-in entity test and n-gram enumerator. Their own behaviour is not part of this model.
- `CLUSTER_USED_PER_LANGUAGES` is a field of `Resources`, not process-wide mutable state.
- `get_word_clusters(language)[cluster_name]` raises `KeyError` when the configured cluster does not exist. The model requires the configured cluster to exist (`ClusterResourcePresent`) rather than modelling that exception. The lookup runs only inside the n-gram loop of line 207, so this requires also excludes runs the code completes: a blank corpus in `fit`, or a batch with no n-grams. With the shipped `CLUSTER_USED_PER_LANGUAGES = {}`, no language has a cluster and the requires always holds.
- `FeaturizerConfig` and its `to_dict`/`from_dict` are taken as an opaque value that survives a round trip unchanged. Of `_get_tfidf_vectorizer` only two things are kept: its result is unfitted, and its transformer gets the config's `norm`, `use_idf`, `smooth_idf` and `sublinear_tf` options. The tokenizer it installs and the other vectorizer options are not modelled.
- A refit keeps the vectorizer's transformer and its options. This follows the sklearn versions in which `TfidfVectorizer.fit` fits the `_tfidf` built by the constructor in place. So a restored featurizer that is fitted again keeps the default transformer.
- `IntentFeaturizer.TransformAfterRestore`: requires the saved transformer to have no options at all. An option set explicitly to its default value restores the same behaviour too, but the model holds options as text and cannot tell.

Snapshot format:
- A snapshot missing one of its keys cannot be expressed in the `Snapshot` datatype. Neither can fields of the wrong JSON type.
- Negative entries in `best_features` (Python negative indexing) are not modelled: selected columns are `nat`.

Fields that are `None` where a value is used:
- `IntentFeaturizer.TransformOf`, and so `Featurizer.Transform`: a featurizer with a fitted vectorizer but no lexicon or no selection is reported as `NotFitted`. The code looks at the lexicon only inside the n-gram loop of lines 218-220. So without a lexicon it transforms a batch with no n-grams, such as the empty batch, without error, and raises `AttributeError` only once a query has an n-gram. Without a selection, the failure comes from scipy's indexing.
- `Featurizer.PreprocessQueries`: requires a lexicon. The code fails on a `None` lexicon as soon as a query has an n-gram.

Errors raised inside sklearn (the `Numeric` functions are total):
- `IntentFeaturizer.TransformOf`: does not model the `ValueError` that the transformer of line 96 raises when the input width differs from the length of its IDF weights. This happens for a restored snapshot whose IDF list does not match its vocabulary, which `_deserialize_tfidf_vectorizer` accepts. It also does not model the "Vocabulary is empty" error for a restored empty vocabulary. The model reports success in both cases.
- `IntentFeaturizer.Featurizer.Transform`: inherits both gaps from `TransformOf`. It also collapses a missing lexicon or selection into `NotFitted`, as the `TransformOf` line under "Fields that are `None` where a value is used" says.
- `IntentFeaturizer.Featurizer.ToDict`: does not model the `AttributeError` that line 118 raises for a fitted vectorizer whose transformer was built with `use_idf` false, because such a transformer never sets `_idf_diag`. The model exports a snapshot. Its transformer options are text, and the model does not interpret them.

Behaviour of the code that the model keeps as it is:
- `_deserialize_tfidf_vectorizer` does not compare the lengths of the vocabulary and the IDF weights. It fails only when the weights are `None` (`DeserializeTfidfVectorizer`).
- A configured but missing cluster resource raises `KeyError` (see `ClusterResourcePresent`).
- A missing stemmer falls back to the normalized text (`NormalizeStem`).
