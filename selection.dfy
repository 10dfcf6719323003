/**
 * Feature selection from the chi-squared p-values: the columns below the
 * threshold, or failing that every column tied at the minimum p-value, then
 * minus the stop words whose p-value exceeds half the threshold.
 */
module Selection {

  predicate StrictlyAscending(s: seq<nat>)
  {
    forall i, j :: 0 <= i < j < |s| ==> s[i] < s[j]
  }

  /** The two filters the selection comprehensions apply to a p-value. */
  datatype Test = LessThan(threshold: real) | EqualTo(target: real)

  predicate Passes(test: Test, v: real)
  {
    match test
    case LessThan(t) => v < t
    case EqualTo(m) => v == m
  }

  /** `[i for i, v in enumerate(pval) if test(v)]`. */
  function IndicesWhere(pval: seq<real>, test: Test): (r: seq<nat>)
    ensures StrictlyAscending(r)
    ensures forall i: nat :: i in r <==> i < |pval| && Passes(test, pval[i])
  {
    if pval == [] then []
    else
      var n := |pval| - 1;
      assert forall i :: 0 <= i < n ==> pval[..n][i] == pval[i];
      var prefix := IndicesWhere(pval[..n], test);
      forall k | 0 <= k < |prefix|
        ensures prefix[k] < n
      {
        assert prefix[k] in prefix;
      }
      prefix + (if Passes(test, pval[n]) then [n] else [])
  }

  /** `pval.min()`. */
  function MinPValue(pval: seq<real>): (m: real)
    requires |pval| > 0
    ensures m in pval
    ensures forall i :: 0 <= i < |pval| ==> m <= pval[i]
  {
    if |pval| == 1 then pval[0]
    else
      var rest := MinPValue(pval[1..]);
      assert forall i :: 1 <= i < |pval| ==> pval[i] == pval[1..][i - 1];
      if pval[0] <= rest then pval[0] else rest
  }

  /**
   * Lines 76-80 of `fit`: the columns whose p-value is below the threshold;
   * when there is none, every column whose p-value equals the minimum. For no
   * columns at all the fallback comprehension never evaluates `pval.min()`.
   */
  function SelectFeatures(pval: seq<real>, threshold: real): (r: seq<nat>)
    ensures StrictlyAscending(r)
    ensures forall i: nat :: i in r ==> i < |pval|
    ensures (exists i :: 0 <= i < |pval| && pval[i] < threshold) ==>
              forall i: nat :: i in r <==> i < |pval| && pval[i] < threshold
    ensures |pval| > 0 && (forall i :: 0 <= i < |pval| ==> pval[i] >= threshold) ==>
              forall i: nat :: i in r <==> i < |pval| && pval[i] == MinPValue(pval)
    ensures |pval| > 0 ==> r != []
  {
    var below := IndicesWhere(pval, LessThan(threshold));
    if below != [] then
      assert below[0] in below;
      below
    else if |pval| == 0 then []
    else
      var m := MinPValue(pval);
      var i :| 0 <= i < |pval| && pval[i] == m;
      assert i in IndicesWhere(pval, EqualTo(m));
      IndicesWhere(pval, EqualTo(m))
  }

  /** Lowering the threshold never selects more columns below it. */
  lemma {:induction false} BelowThresholdMonotone(pval: seq<real>, lower: real, higher: real)
    requires lower <= higher
    ensures |IndicesWhere(pval, LessThan(lower))| <= |IndicesWhere(pval, LessThan(higher))|
    ensures forall i: nat :: i in IndicesWhere(pval, LessThan(lower)) ==> i in IndicesWhere(pval, LessThan(higher))
  {
    if pval != [] {
      BelowThresholdMonotone(pval[..|pval| - 1], lower, higher);
    }
  }

  /** Whether the stop-word pass (lines 86-89) removes column `i`, whose word is `featuresIdx[i]`. */
  predicate Demoted(i: nat, pval: seq<real>, threshold: real, featuresIdx: map<int, string>, stopWords: set<string>)
    requires i < |pval| && i in featuresIdx
  {
    featuresIdx[i] in stopWords && pval[i] > threshold / 2.0
  }

  /** Every selected column has a p-value and a word, so the stop-word pass can look both up. */
  predicate Covered(selected: seq<nat>, pval: seq<real>, featuresIdx: map<int, string>)
  {
    forall j :: 0 <= j < |selected| ==> selected[j] < |pval| && selected[j] in featuresIdx
  }

  /** The selected columns that the stop-word pass keeps, in their order. */
  function KeptAfterDemotion(selected: seq<nat>, pval: seq<real>, threshold: real, featuresIdx: map<int, string>, stopWords: set<string>): (r: seq<nat>)
    requires Covered(selected, pval, featuresIdx)
    ensures |r| <= |selected|
  {
    if selected == [] then []
    else
      var n := |selected| - 1;
      var x := selected[n];
      KeptAfterDemotion(selected[..n], pval, threshold, featuresIdx, stopWords)
        + (if Demoted(x, pval, threshold, featuresIdx, stopWords) then [] else [x])
  }

  /** A column survives the stop-word pass exactly when it was selected and is not a demoted stop word. */
  lemma {:induction false} KeptMember(selected: seq<nat>, i: nat, pval: seq<real>, threshold: real, featuresIdx: map<int, string>, stopWords: set<string>)
    requires Covered(selected, pval, featuresIdx)
    ensures i in KeptAfterDemotion(selected, pval, threshold, featuresIdx, stopWords)
            <==> i in selected && !Demoted(i, pval, threshold, featuresIdx, stopWords)
  {
    if selected != [] {
      var n := |selected| - 1;
      var x := selected[n];
      assert selected == selected[..n] + [x];
      KeptMember(selected[..n], i, pval, threshold, featuresIdx, stopWords);
    }
  }

  /** Filtering one more column appends it unless it is demoted. */
  lemma KeptSnoc(s: seq<nat>, x: nat, pval: seq<real>, threshold: real, featuresIdx: map<int, string>, stopWords: set<string>)
    requires Covered(s, pval, featuresIdx) && x < |pval| && x in featuresIdx
    ensures Covered(s + [x], pval, featuresIdx)
    ensures KeptAfterDemotion(s + [x], pval, threshold, featuresIdx, stopWords)
            == KeptAfterDemotion(s, pval, threshold, featuresIdx, stopWords)
               + (if Demoted(x, pval, threshold, featuresIdx, stopWords) then [] else [x])
  {
    assert (s + [x])[..|s|] == s;
  }

  /** The stop-word pass keeps an ascending selection ascending. */
  lemma {:induction false} KeptAscending(selected: seq<nat>, pval: seq<real>, threshold: real, featuresIdx: map<int, string>, stopWords: set<string>)
    requires Covered(selected, pval, featuresIdx) && StrictlyAscending(selected)
    ensures StrictlyAscending(KeptAfterDemotion(selected, pval, threshold, featuresIdx, stopWords))
  {
    if selected != [] {
      var n := |selected| - 1;
      var x := selected[n];
      var prefix := KeptAfterDemotion(selected[..n], pval, threshold, featuresIdx, stopWords);
      KeptAscending(selected[..n], pval, threshold, featuresIdx, stopWords);
      forall k | 0 <= k < |prefix|
        ensures prefix[k] < x
      {
        KeptMember(selected[..n], prefix[k], pval, threshold, featuresIdx, stopWords);
        BeforeLast(selected, prefix[k]);
      }
      AscendingSnoc(prefix, x);
    }
  }

  /** In a strictly ascending selection every column before the last is smaller than it. */
  lemma BeforeLast(selected: seq<nat>, v: nat)
    requires StrictlyAscending(selected) && |selected| > 0 && v in selected[..|selected| - 1]
    ensures v < selected[|selected| - 1]
  {
    var j :| 0 <= j < |selected| - 1 && selected[..|selected| - 1][j] == v;
    assert selected[j] == v;
  }

  lemma AscendingSnoc(s: seq<nat>, x: nat)
    requires StrictlyAscending(s) && forall k :: 0 <= k < |s| ==> s[k] < x
    ensures StrictlyAscending(s + [x]) && StrictlyAscending(s)
  {
  }

  /** In a strictly ascending selection a column does not occur before its own position. */
  lemma NotBefore(selected: seq<nat>, k: nat)
    requires StrictlyAscending(selected) && k < |selected|
    ensures selected[k] !in selected[..k]
  {
    forall j | 0 <= j < k
      ensures selected[..k][j] != selected[k]
    {
      assert selected[..k][j] == selected[j];
    }
  }

  /** Python's `list.remove(x)`: drops the first occurrence. */
  function RemoveFirst(s: seq<nat>, x: nat): (r: seq<nat>)
    requires x in s
    ensures |r| == |s| - 1
  {
    if s[0] == x then s[1..] else [s[0]] + RemoveFirst(s[1..], x)
  }

  lemma {:induction false} RemoveFirstAfter(a: seq<nat>, x: nat, b: seq<nat>)
    requires x !in a
    ensures RemoveFirst(a + ([x] + b), x) == a + b
  {
    var s := a + ([x] + b);
    if a == [] {
      assert s == [x] + b;
    } else {
      assert s[0] == a[0] != x;
      assert s[1..] == a[1..] + ([x] + b);
      RemoveFirstAfter(a[1..], x, b);
      assert a + b == [a[0]] + (a[1..] + b);
    }
  }

  /** The list after the stop-word pass has visited the first `k` selected columns. */
  function Pending(selected: seq<nat>, k: nat, pval: seq<real>, threshold: real, featuresIdx: map<int, string>, stopWords: set<string>): seq<nat>
    requires k <= |selected| && Covered(selected, pval, featuresIdx)
  {
    assert Covered(selected[..k], pval, featuresIdx);
    KeptAfterDemotion(selected[..k], pval, threshold, featuresIdx, stopWords) + selected[k..]
  }

  /** One step of the stop-word pass over an ascending selection: the invariant of the loop below is kept. */
  lemma DemotionStep(selected: seq<nat>, k: nat, kept: seq<nat>, pval: seq<real>, threshold: real, featuresIdx: map<int, string>, stopWords: set<string>)
    requires StrictlyAscending(selected) && k < |selected| && Covered(selected, pval, featuresIdx)
    requires kept == Pending(selected, k, pval, threshold, featuresIdx, stopWords)
    ensures selected[k] in kept
    ensures (if Demoted(selected[k], pval, threshold, featuresIdx, stopWords) then RemoveFirst(kept, selected[k]) else kept)
         == Pending(selected, k + 1, pval, threshold, featuresIdx, stopWords)
  {
    assert Covered(selected[..k], pval, featuresIdx);
    var x := selected[k];
    var done := KeptAfterDemotion(selected[..k], pval, threshold, featuresIdx, stopWords);
    var rest := selected[k + 1..];
    assert selected[..k + 1] == selected[..k] + [x];
    KeptSnoc(selected[..k], x, pval, threshold, featuresIdx, stopWords);
    NotBefore(selected, k);
    KeptMember(selected[..k], x, pval, threshold, featuresIdx, stopWords);
    assert x !in done;
    assert selected[k..] == [x] + rest;
    if Demoted(x, pval, threshold, featuresIdx, stopWords) {
      RemoveFirstAfter(done, x, rest);
      assert done + [] == done;
    } else {
      assert done + ([x] + rest) == (done + [x]) + rest;
    }
  }

  /**
   * The loop of lines 86-89: removes, one at a time, every selected stop word
   * above half the threshold. The code visits the keys of `feature_names` in
   * that dict's order; this method visits the selection in list order. The
   * columns are distinct, so each removal takes out its own column whatever the
   * order, and both orders leave the same list. That commutation is argued
   * here, not proved.
   */
  method DemoteStopWords(bestFeatures: seq<nat>, pval: seq<real>, threshold: real, featuresIdx: map<int, string>, stopWords: set<string>)
    returns (kept: seq<nat>)
    requires StrictlyAscending(bestFeatures) && Covered(bestFeatures, pval, featuresIdx)
    ensures kept == KeptAfterDemotion(bestFeatures, pval, threshold, featuresIdx, stopWords)
  {
    kept := bestFeatures;
    var k := 0;
    while k < |bestFeatures|
      invariant k <= |bestFeatures|
      invariant kept == Pending(bestFeatures, k, pval, threshold, featuresIdx, stopWords)
    {
      var feat := bestFeatures[k];
      DemotionStep(bestFeatures, k, kept, pval, threshold, featuresIdx, stopWords);
      ghost var before := kept;
      if featuresIdx[feat] in stopWords {
        if pval[feat] > threshold / 2.0 {
          kept := RemoveFirst(kept, feat);
        }
      }
      assert kept == if Demoted(feat, pval, threshold, featuresIdx, stopWords) then RemoveFirst(before, feat) else before;
      k := k + 1;
    }
    assert bestFeatures[..k] == bestFeatures;
    assert bestFeatures[k..] == [];
  }

  /** `{vocabulary[x]: x for x in vocabulary}`: column index -> word. */
  predicate IsInverse(vocabulary: map<string, int>, featuresIdx: map<int, string>)
  {
    && featuresIdx.Keys == vocabulary.Values
    && forall i :: i in featuresIdx ==> featuresIdx[i] in vocabulary && vocabulary[featuresIdx[i]] == i
  }

  predicate Injective(vocabulary: map<string, int>)
  {
    forall w, w' :: w in vocabulary && w' in vocabulary && vocabulary[w] == vocabulary[w'] ==> w == w'
  }

  /** The dict comprehension of lines 70-71; which word wins a shared index depends on iteration order. */
  method InvertVocabulary(vocabulary: map<string, int>) returns (featuresIdx: map<int, string>)
    ensures IsInverse(vocabulary, featuresIdx)
  {
    featuresIdx := map[];
    var todo := vocabulary.Keys;
    while todo != {}
      invariant todo <= vocabulary.Keys
      invariant featuresIdx.Keys == set w | w in vocabulary.Keys - todo :: vocabulary[w]
      invariant forall i :: i in featuresIdx ==> featuresIdx[i] in vocabulary && vocabulary[featuresIdx[i]] == i
      decreases todo
    {
      var w :| w in todo;
      featuresIdx := featuresIdx[vocabulary[w] := w];
      todo := todo - {w};
    }
  }

  /** For a vocabulary with one word per column, as sklearn builds it, the inverse is unique. */
  lemma InverseUnique(vocabulary: map<string, int>, a: map<int, string>, b: map<int, string>)
    requires Injective(vocabulary) && IsInverse(vocabulary, a) && IsInverse(vocabulary, b)
    ensures a == b
  {
    forall i | i in a
      ensures a[i] == b[i]
    {
      assert vocabulary[a[i]] == vocabulary[b[i]];
    }
  }
}
