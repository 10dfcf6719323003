/**
 * Query preprocessing: the normalized and stemmed tokens joined by the
 * language's separator, then the sorted entity pseudo-tokens, then the sorted
 * word-cluster labels, each block preceded by a space and present only when
 * non-empty.
 */
module Preprocessing {
  import opened Domain
  import opened Normalizer
  import Strings

  /** The labels of the n-grams that, lower-cased, are in `clusters`, in n-gram order. */
  function ClusterLabels(ngrams: seq<string>, clusters: map<string, string>, lower: string -> string): (r: seq<string>)
    ensures |r| <= |ngrams|
  {
    if ngrams == [] then []
    else
      var last := ngrams[|ngrams| - 1];
      ClusterLabels(ngrams[..|ngrams| - 1], clusters, lower) + (if lower(last) in clusters then [clusters[lower(last)]] else [])
  }

  /** A label is produced exactly when some n-gram, lower-cased, maps to it. */
  lemma {:induction false} ClusterLabelsMembers(ngrams: seq<string>, clusters: map<string, string>, lower: string -> string, l: string)
    ensures l in ClusterLabels(ngrams, clusters, lower)
        <==> exists j :: 0 <= j < |ngrams| && lower(ngrams[j]) in clusters && clusters[lower(ngrams[j])] == l
  {
    if ngrams != [] {
      var n := |ngrams| - 1;
      ClusterLabelsMembers(ngrams[..n], clusters, lower, l);
      if exists j :: 0 <= j < |ngrams| && lower(ngrams[j]) in clusters && clusters[lower(ngrams[j])] == l {
        var j :| 0 <= j < |ngrams| && lower(ngrams[j]) in clusters && clusters[lower(ngrams[j])] == l;
        if j < n {
          assert ngrams[..n][j] == ngrams[j];
        }
      }
    }
  }

  /** What `_get_word_cluster_features` returns: nothing for a language with no configured cluster. */
  function WordClusterFeatures(res: Resources, tokens: seq<string>, language: string): (r: seq<string>)
    requires ClusterResourcePresent(res, language)
    ensures ClusterName(res, language) == "" ==> r == []
    ensures ClusterName(res, language) != "" ==> |r| <= |res.allNgrams(tokens)|
  {
    var name := ClusterName(res, language);
    if name == "" then []
    else ClusterLabels(res.allNgrams(tokens), res.wordClusters(language)[name], res.lower)
  }

  /** `_get_word_cluster_features`: looks every n-gram of the raw tokens up, lower-cased, in the language's cluster. */
  method GetWordClusterFeatures(res: Resources, queryTokens: seq<string>, language: string) returns (clusterFeatures: seq<string>)
    requires ClusterResourcePresent(res, language)
    ensures clusterFeatures == WordClusterFeatures(res, queryTokens, language)
  {
    var clusterName := ClusterName(res, language);
    if clusterName == "" {
      return [];
    }
    var ngrams := res.allNgrams(queryTokens);
    clusterFeatures := [];
    for i := 0 to |ngrams|
      invariant clusterFeatures == ClusterLabels(ngrams[..i], res.wordClusters(language)[clusterName], res.lower)
    {
      var clusters := res.wordClusters(language)[clusterName];
      var key := res.lower(ngrams[i]);
      if key in clusters {
        clusterFeatures := clusterFeatures + [clusters[key]];
      }
      assert ngrams[..i + 1][..i] == ngrams[..i];
    }
    assert ngrams[..|ngrams|] == ngrams;
  }

  /** The pseudo-tokens of every n-gram found in the lexicon, with repetitions. */
  function EntityFeatureBag(ngrams: seq<string>, lex: Lexicon): multiset<string>
  {
    if ngrams == [] then multiset{}
    else
      var last := ngrams[|ngrams| - 1];
      EntityFeatureBag(ngrams[..|ngrams| - 1], lex) + (if last in lex then multiset(lex[last]) else multiset{})
  }

  /** A pseudo-token is injected exactly when some n-gram of the query is a lexicon key holding it. */
  lemma {:induction false} EntityFeatureBagMembers(ngrams: seq<string>, lex: Lexicon, f: string)
    ensures f in EntityFeatureBag(ngrams, lex) <==> exists j :: 0 <= j < |ngrams| && ngrams[j] in lex && f in lex[ngrams[j]]
  {
    if ngrams != [] {
      var n := |ngrams| - 1;
      EntityFeatureBagMembers(ngrams[..n], lex, f);
      if exists j :: 0 <= j < |ngrams| && ngrams[j] in lex && f in lex[ngrams[j]] {
        var j :| 0 <= j < |ngrams| && ngrams[j] in lex && f in lex[ngrams[j]];
        if j < n {
          assert ngrams[..n][j] == ngrams[j];
        }
      }
    }
  }

  /** `acc += s` for a set `s`: the elements of `s` appended in some order. */
  method AppendSet(acc: seq<string>, s: set<string>) returns (r: seq<string>)
    ensures multiset(r) == multiset(acc) + multiset(s)
    ensures |r| == |acc| + |s| && r[..|acc|] == acc
  {
    r := acc;
    var todo := s;
    while todo != {}
      invariant todo <= s
      invariant multiset(r) == multiset(acc) + multiset(s - todo)
      invariant |r| == |acc| + |s - todo| && r[..|acc|] == acc
      decreases todo
    {
      var x :| x in todo;
      MoveOne(s, todo, x);
      assert (r + [x])[..|acc|] == r[..|acc|];
      r := r + [x];
      todo := todo - {x};
    }
  }

  /** Moving `x` from the pending part of `s` to the done part adds it once. */
  lemma MoveOne(s: set<string>, todo: set<string>, x: string)
    requires todo <= s && x in todo
    ensures multiset(s - (todo - {x})) == multiset(s - todo) + multiset{x}
    ensures |s - (todo - {x})| == |s - todo| + 1
  {
    assert x !in s - todo;
    assert s - (todo - {x}) == (s - todo) + {x};
  }

  /** `_get_dataset_entities_features`: appends the lexicon entry of every n-gram of the normalized tokens. */
  method GetDatasetEntitiesFeatures(res: Resources, normalizedStemmedTokens: seq<string>, lex: Lexicon) returns (entityFeatures: seq<string>)
    ensures multiset(entityFeatures) == EntityFeatureBag(res.allNgrams(normalizedStemmedTokens), lex)
  {
    var ngrams := res.allNgrams(normalizedStemmedTokens);
    entityFeatures := [];
    for i := 0 to |ngrams|
      invariant multiset(entityFeatures) == EntityFeatureBag(ngrams[..i], lex)
    {
      if ngrams[i] in lex {
        entityFeatures := AppendSet(entityFeatures, lex[ngrams[i]]);
      }
      assert ngrams[..i + 1][..i] == ngrams[..i];
    }
    assert ngrams[..|ngrams|] == ngrams;
  }

  /** Some list holding exactly the multiset `b`. */
  ghost function BagToSeq(b: multiset<string>): (s: seq<string>)
    ensures multiset(s) == b
    decreases |b|
  {
    if b == multiset{} then []
    else
      var x :| x in b;
      [x] + BagToSeq(b - multiset{x})
  }

  /** `sorted(l)` for any list `l` holding exactly the multiset `b`. */
  ghost function SortedBag(b: multiset<string>): (r: seq<string>)
    ensures Strings.Sorted(r) && multiset(r) == b
  {
    Strings.SortSorted(BagToSeq(b));
    var r :| Strings.Sorted(r) && multiset(r) == b; r
  }

  /** A feature block: nothing when empty, otherwise a space and the features joined by spaces. */
  function Block(features: seq<string>): string
  {
    if features == [] then "" else " " + Strings.Join(" ", features)
  }

  /** What `_preprocess_query` returns. */
  ghost function PreprocessedQuery(res: Resources, language: string, lex: Lexicon, query: string): string
    requires ClusterResourcePresent(res, language)
  {
    var tokens := res.tokenizeLight(query, language);
    var normalized := NormalizeStemAll(res, tokens, language);
    Strings.Join(res.defaultSep(language), normalized)
      + Block(SortedBag(EntityFeatureBag(res.allNgrams(normalized), lex)))
      + Block(SortedBag(multiset(WordClusterFeatures(res, tokens, language))))
  }

  /** `_preprocess_query`: builds the string with `+=`; the entity block does not depend on set iteration order. */
  method PreprocessQuery(res: Resources, language: string, lex: Lexicon, query: string) returns (features: string)
    requires ClusterResourcePresent(res, language)
    ensures features == PreprocessedQuery(res, language, lex, query)
  {
    var queryTokens := res.tokenizeLight(query, language);
    var wordClustersFeatures := GetWordClusterFeatures(res, queryTokens, language);
    var normalizedStemmedTokens := NormalizeStemAll(res, queryTokens, language);
    var entitiesFeatures := GetDatasetEntitiesFeatures(res, normalizedStemmedTokens, lex);

    features := Strings.Join(res.defaultSep(language), normalizedStemmedTokens);
    ghost var joined := features;
    if entitiesFeatures != [] {
      features := features + (" " + Strings.Join(" ", Strings.Sort(entitiesFeatures)));
    }
    AppendBlock(joined, entitiesFeatures);
    ghost var withEntities := features;
    if wordClustersFeatures != [] {
      features := features + (" " + Strings.Join(" ", Strings.Sort(wordClustersFeatures)));
    }
    AppendBlock(withEntities, wordClustersFeatures);
  }

  /** `if s: prefix += " " + " ".join(sorted(s))` appends the block of the ordered arrangement of `s`. */
  lemma AppendBlock(prefix: string, s: seq<string>)
    ensures (if s != [] then prefix + (" " + Strings.Join(" ", Strings.Sort(s))) else prefix)
            == prefix + Block(SortedBag(multiset(s)))
  {
    SortIsSortedBag(s);
    SortedBlock(s);
    if s == [] {
      assert prefix + "" == prefix;
    }
  }

  /** `sorted` of a list is the ordered arrangement of its elements. */
  lemma SortIsSortedBag(s: seq<string>)
    ensures Strings.Sort(s) == SortedBag(multiset(s))
  {
    Strings.SortSorted(s);
    Strings.SortedUnique(Strings.Sort(s), SortedBag(multiset(s)));
  }

  lemma SortedBlock(s: seq<string>)
    ensures s == [] ==> Block(Strings.Sort(s)) == ""
    ensures s != [] ==> Block(Strings.Sort(s)) == " " + Strings.Join(" ", Strings.Sort(s))
  {
  }

  /** What `preprocess_queries` returns. */
  ghost function PreprocessedQueries(res: Resources, language: string, lex: Lexicon, queries: seq<string>): (r: seq<string>)
    requires ClusterResourcePresent(res, language)
  {
    seq(|queries|, i requires 0 <= i < |queries| => PreprocessedQuery(res, language, lex, queries[i]))
  }

  /** Preprocessing one more query appends its preprocessed form. */
  lemma PreprocessedQueriesSnoc(res: Resources, language: string, lex: Lexicon, queries: seq<string>, i: nat)
    requires ClusterResourcePresent(res, language) && i < |queries|
    ensures PreprocessedQueries(res, language, lex, queries[..i + 1])
            == PreprocessedQueries(res, language, lex, queries[..i]) + [PreprocessedQuery(res, language, lex, queries[i])]
  {
  }

  /** Entity injection: every pseudo-token of every n-gram of the normalized query found in the lexicon is in the entity block. */
  lemma EntityInjection(res: Resources, language: string, lex: Lexicon, query: string, j: nat, f: string)
    requires ClusterResourcePresent(res, language)
    requires var ngrams := res.allNgrams(NormalizeStemAll(res, res.tokenizeLight(query, language), language));
             j < |ngrams| && ngrams[j] in lex && f in lex[ngrams[j]]
    ensures f in SortedBag(EntityFeatureBag(res.allNgrams(NormalizeStemAll(res, res.tokenizeLight(query, language), language)), lex))
  {
    var ngrams := res.allNgrams(NormalizeStemAll(res, res.tokenizeLight(query, language), language));
    EntityFeatureBagMembers(ngrams, lex, f);
    assert f in multiset(SortedBag(EntityFeatureBag(ngrams, lex)));
  }
}
