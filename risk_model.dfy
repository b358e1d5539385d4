/** The pull-request risk wrapper: the classifier's lazy lifecycle, the
    probability column it serves, the risk level, and the per-prediction
    explanation (top contributing factors). */
module Risk {
  import opened Common
  import opened Artifacts

  const NumFeatures: nat := 8

  const FeatureNames: seq<string> := [
    "PR Size (Lines)",
    "Files Changed",
    "Commit Count",
    "Review Comments",
    "Time to Merge",
    "Contributor Rejection Rate",
    "Contributor Experience",
    "File Churn Score"
  ]

  const FeatureDescriptions: map<string, string> := map[
    "PR Size (Lines)" := "Large PR Size",
    "Files Changed" := "High File Count",
    "Commit Count" := "Many Commits",
    "Review Comments" := "Review Activity",
    "Time to Merge" := "Slow Merge Time",
    "Contributor Rejection Rate" := "High Rejection Rate",
    "Contributor Experience" := "Low Contributor Experience",
    "File Churn Score" := "High File Churn"
  ]

  /** The description map covers every feature name, and no two features
      share a name. */
  lemma FeatureTables()
    ensures |FeatureNames| == NumFeatures
    ensures forall k :: 0 <= k < NumFeatures ==> FeatureNames[k] in FeatureDescriptions
    ensures forall i, j :: 0 <= i < j < NumFeatures ==> FeatureNames[i] != FeatureNames[j]
  {
  }

  /** A fitted random-forest classifier, seen from outside: its global
      feature importances, how many probability columns `predict_proba`
      yields (one per class seen in training), and the probability it
      gives a row for a column. */
  datatype Forest = Forest(importances: seq<real>, classes: nat, proba: (seq<real>, nat) -> real)

  /** A forest fitted on the eight risk features. */
  predicate WellFormed(f: Forest)
  {
    |f.importances| == NumFeatures && f.classes >= 1
  }

  // ---------------------------------------------------------------------
  // Risk level

  function RiskLevel(score: real): (level: string)
    ensures level == "Low" <==> score < 0.4
    ensures level == "Medium" <==> 0.4 <= score <= 0.7
    ensures level == "High" <==> score > 0.7
  {
    if score < 0.4 then "Low"
    else if score <= 0.7 then "Medium"
    else "High"
  }

  function LevelRank(level: string): nat
  {
    if level == "Low" then 0 else if level == "Medium" then 1 else 2
  }

  /** A higher score never gets a lower level. */
  lemma RiskLevelMonotone(s: real, t: real)
    requires s <= t
    ensures LevelRank(RiskLevel(s)) <= LevelRank(RiskLevel(t))
  {
  }

  // ---------------------------------------------------------------------
  // Explanation: per-feature impacts, ranked and normalised

  /** One explanation record (the dict built for each feature). */
  datatype Factor = Factor(feature: string, description: string, value: real,
                           importance: real, impactWeight: real)

  function MinReal(a: real, b: real): real
  {
    if a <= b then a else b
  }

  function MinNat(a: nat, b: nat): nat
  {
    if a <= b then a else b
  }

  /** The impact of one feature: its importance scaled by its value over 10,
      capped from above at 1 (there is no lower cap). */
  function Impact(importance: real, value: real): (w: real)
    ensures importance >= 0.0 ==> w <= importance
    ensures importance >= 0.0 && value >= 10.0 ==> w == importance
    ensures importance >= 0.0 && value >= 0.0 ==> w >= 0.0
    ensures importance > 0.0 && value < 0.0 ==> w < 0.0
  {
    var scale := MinReal(value / 10.0, 1.0);
    assert importance >= 0.0 && scale >= 0.0 ==> importance * scale >= 0.0;
    assert importance >= 0.0 ==> importance * scale <= importance * 1.0;
    importance * scale
  }

  function MakeFactor(k: nat, importance: real, value: real): Factor
    requires k < NumFeatures
  {
    var name := FeatureNames[k];
    Factor(name, FeatureDescriptions[name], value, importance, Impact(importance, value))
  }

  /** How many pairs `zip(importances, values)` yields. */
  function ZipLength(importances: seq<real>, values: seq<real>): nat
  {
    MinNat(|importances|, |values|)
  }

  /** The list of impacts in feature order, before sorting. */
  function RawImpacts(importances: seq<real>, values: seq<real>): (s: seq<Factor>)
    requires |importances| == NumFeatures
    ensures |s| == ZipLength(importances, values)
  {
    seq(ZipLength(importances, values),
        k requires 0 <= k < ZipLength(importances, values) => MakeFactor(k, importances[k], values[k]))
  }

  predicate NonIncreasing(s: seq<Factor>)
  {
    forall i, j :: 0 <= i < j < |s| ==> s[i].impactWeight >= s[j].impactWeight
  }

  predicate DistinctFeatures(s: seq<Factor>)
  {
    forall i, j :: 0 <= i < j < |s| ==> s[i].feature != s[j].feature
  }

  /** Inserts `x` after every element of larger weight and before the first
      of equal or smaller weight. */
  function InsertByImpact(x: Factor, s: seq<Factor>): (r: seq<Factor>)
    ensures |r| == |s| + 1
  {
    if s == [] || x.impactWeight >= s[0].impactWeight then [x] + s
    else [s[0]] + InsertByImpact(x, s[1..])
  }

  /** Python's stable `list.sort(key=impact_weight, reverse=True)`: weights
      descending, equal weights in their original order. */
  function SortByImpact(s: seq<Factor>): (r: seq<Factor>)
    ensures |r| == |s|
  {
    if s == [] then [] else InsertByImpact(s[0], SortByImpact(s[1..]))
  }

  function TotalImpact(s: seq<Factor>): real
  {
    if s == [] then 0.0 else s[0].impactWeight + TotalImpact(s[1..])
  }

  /** `round(x, 2)`, rounding half up. */
  function Round2(x: real): real
  {
    ((x * 100.0 + 0.5).Floor as real) / 100.0
  }

  lemma Round2Monotone(x: real, y: real)
    requires x <= y
    ensures Round2(x) <= Round2(y)
  {
    assert (x * 100.0 + 0.5).Floor <= (y * 100.0 + 0.5).Floor;
  }

  /** The weight a factor is reported with: its share of the total, rounded,
      when the total is positive; its raw impact otherwise. */
  function Share(w: real, total: real): real
  {
    if total > 0.0 then Round2(w / total) else w
  }

  function Normalise(s: seq<Factor>, total: real): (r: seq<Factor>)
    ensures |r| == |s|
  {
    seq(|s|, i requires 0 <= i < |s| => s[i].(impactWeight := Share(s[i].impactWeight, total)))
  }

  /** `get_feature_importance` for a trained model: the first three of the
      ranked, normalised impacts. */
  function TopFactors(importances: seq<real>, values: seq<real>): seq<Factor>
    requires |importances| == NumFeatures
  {
    var sorted := SortByImpact(RawImpacts(importances, values));
    var scaled := Normalise(sorted, TotalImpact(sorted));
    scaled[..MinNat(3, |scaled|)]
  }

  /** The total of all impacts, whatever their order. */
  function RawTotal(importances: seq<real>, values: seq<real>): real
    requires |importances| == NumFeatures
  {
    TotalImpact(RawImpacts(importances, values))
  }

  /** `f` is the explanation record of feature `k`, reported with the weight
      `Share(impact, total)`. */
  predicate Explains(f: Factor, k: nat, importances: seq<real>, values: seq<real>)
    requires |importances| == NumFeatures
  {
    k < ZipLength(importances, values) &&
    f == MakeFactor(k, importances[k], values[k])
           .(impactWeight := Share(Impact(importances[k], values[k]), RawTotal(importances, values)))
  }

  /** `f` is the explanation record of one of the features. */
  ghost predicate IsFeatureRecord(f: Factor, importances: seq<real>, values: seq<real>)
    requires |importances| == NumFeatures
  {
    exists k :: Explains(f, k, importances, values)
  }

  // Sorting lemmas

  lemma {:induction false} InsertByImpactPermutes(x: Factor, s: seq<Factor>)
    ensures multiset(InsertByImpact(x, s)) == multiset(s) + multiset{x}
    decreases |s|
  {
    if s != [] && x.impactWeight < s[0].impactWeight {
      InsertByImpactPermutes(x, s[1..]);
      assert s == [s[0]] + s[1..];
    }
  }

  lemma {:induction false} InsertByImpactSorted(x: Factor, s: seq<Factor>)
    requires NonIncreasing(s)
    ensures NonIncreasing(InsertByImpact(x, s))
    decreases |s|
  {
    if s != [] && x.impactWeight < s[0].impactWeight {
      var t := InsertByImpact(x, s[1..]);
      InsertByImpactSorted(x, s[1..]);
      InsertByImpactPermutes(x, s[1..]);
      forall j | 0 <= j < |t| ensures s[0].impactWeight >= t[j].impactWeight {
        assert t[j] in multiset(s[1..]) + multiset{x};
        if t[j] != x {
          var q :| 0 <= q < |s[1..]| && s[1..][q] == t[j];
          assert s[1 + q] == t[j];
        }
      }
      assert InsertByImpact(x, s) == [s[0]] + t;
    }
  }

  lemma {:induction false} InsertByImpactTotal(x: Factor, s: seq<Factor>)
    ensures TotalImpact(InsertByImpact(x, s)) == x.impactWeight + TotalImpact(s)
    decreases |s|
  {
    if s != [] && x.impactWeight < s[0].impactWeight {
      InsertByImpactTotal(x, s[1..]);
      assert InsertByImpact(x, s)[1..] == InsertByImpact(x, s[1..]);
    }
  }

  lemma SortByImpactSpec(s: seq<Factor>)
    ensures multiset(SortByImpact(s)) == multiset(s)
    ensures NonIncreasing(SortByImpact(s))
    ensures TotalImpact(SortByImpact(s)) == TotalImpact(s)
    ensures forall w :: OfWeight(SortByImpact(s), w) == OfWeight(s, w)
  {
    SortByImpactPermutes(s);
    SortByImpactSorted(s);
    SortByImpactTotal(s);
    forall w ensures OfWeight(SortByImpact(s), w) == OfWeight(s, w) {
      SortByImpactStable(s, w);
    }
  }

  lemma {:induction false} SortByImpactPermutes(s: seq<Factor>)
    ensures multiset(SortByImpact(s)) == multiset(s)
  {
    if s != [] {
      SortByImpactPermutes(s[1..]);
      InsertByImpactPermutes(s[0], SortByImpact(s[1..]));
      assert s == [s[0]] + s[1..];
    }
  }

  lemma {:induction false} SortByImpactSorted(s: seq<Factor>)
    ensures NonIncreasing(SortByImpact(s))
  {
    if s != [] {
      SortByImpactSorted(s[1..]);
      InsertByImpactSorted(s[0], SortByImpact(s[1..]));
    }
  }

  lemma {:induction false} SortByImpactTotal(s: seq<Factor>)
    ensures TotalImpact(SortByImpact(s)) == TotalImpact(s)
  {
    if s != [] {
      SortByImpactTotal(s[1..]);
      InsertByImpactTotal(s[0], SortByImpact(s[1..]));
    }
  }

  // Stability

  /** The records of weight `w`, in their order in `s`. */
  function OfWeight(s: seq<Factor>, w: real): (r: seq<Factor>)
    ensures forall i :: 0 <= i < |r| ==> r[i].impactWeight == w
  {
    if s == [] then []
    else (if s[0].impactWeight == w then [s[0]] else []) + OfWeight(s[1..], w)
  }

  lemma {:induction false} InsertByImpactStable(x: Factor, s: seq<Factor>, w: real)
    ensures OfWeight(InsertByImpact(x, s), w) == (if x.impactWeight == w then [x] else []) + OfWeight(s, w)
  {
    if s == [] || x.impactWeight >= s[0].impactWeight {
      assert ([x] + s)[1..] == s;
    } else {
      var t := InsertByImpact(x, s[1..]);
      assert ([s[0]] + t)[1..] == t;
      InsertByImpactStable(x, s[1..], w);
    }
  }

  /** Sorting keeps the records of each weight in their original order:
      Python's sort is stable. */
  lemma {:induction false} SortByImpactStable(s: seq<Factor>, w: real)
    ensures OfWeight(SortByImpact(s), w) == OfWeight(s, w)
  {
    if s != [] {
      SortByImpactStable(s[1..], w);
      InsertByImpactStable(s[0], SortByImpact(s[1..]), w);
    }
  }

  /** Where a record of weight `w` sits among the records of that weight. */
  lemma {:induction false} OfWeightIndex(s: seq<Factor>, w: real, j: nat) returns (q: nat)
    requires j < |s| && s[j].impactWeight == w
    ensures q < |OfWeight(s, w)| && OfWeight(s, w)[q] == s[j]
  {
    var head: seq<Factor> := if s[0].impactWeight == w then [s[0]] else [];
    if j == 0 {
      q := 0;
    } else {
      var q' := OfWeightIndex(s[1..], w, j - 1);
      q := |head| + q';
    }
  }

  /** Two records of weight `w` keep their relative order among the records
      of that weight. */
  lemma {:induction false} OfWeightOrder(s: seq<Factor>, w: real, i: nat, j: nat) returns (p: nat, q: nat)
    requires i < j < |s| && s[i].impactWeight == w && s[j].impactWeight == w
    ensures p < q < |OfWeight(s, w)| && OfWeight(s, w)[p] == s[i] && OfWeight(s, w)[q] == s[j]
  {
    var head: seq<Factor> := if s[0].impactWeight == w then [s[0]] else [];
    if i == 0 {
      var q' := OfWeightIndex(s[1..], w, j - 1);
      p, q := 0, 1 + q';
    } else {
      var p', q' := OfWeightOrder(s[1..], w, i - 1, j - 1);
      p, q := |head| + p', |head| + q';
    }
  }

  /** Every record of weight `w` comes from `s`. */
  lemma {:induction false} OfWeightSource(s: seq<Factor>, w: real, k: nat) returns (m: nat)
    requires k < |OfWeight(s, w)|
    ensures m < |s| && s[m] == OfWeight(s, w)[k]
  {
    var head: seq<Factor> := if s[0].impactWeight == w then [s[0]] else [];
    if k < |head| {
      m := 0;
    } else {
      var m' := OfWeightSource(s[1..], w, k - |head|);
      m := m' + 1;
    }
  }

  lemma {:induction false} OfWeightDistinct(s: seq<Factor>, w: real)
    requires DistinctFeatures(s)
    ensures DistinctFeatures(OfWeight(s, w))
  {
    if s != [] {
      OfWeightDistinct(s[1..], w);
      var rest := OfWeight(s[1..], w);
      forall k | 0 <= k < |rest| ensures rest[k].feature != s[0].feature {
        var m := OfWeightSource(s[1..], w, k);
        assert s[m + 1] == rest[k];
      }
    }
  }

  /** Of two records of equal weight with distinct feature names, the one
      listed first in the input is listed first after sorting. */
  lemma SortByImpactKeepsTies(s: seq<Factor>, i: nat, j: nat, p: nat, q: nat)
    requires DistinctFeatures(s)
    requires i < j < |s| && s[i].impactWeight == s[j].impactWeight
    requires p < |SortByImpact(s)| && SortByImpact(s)[p] == s[i]
    requires q < |SortByImpact(s)| && SortByImpact(s)[q] == s[j]
    ensures p < q
  {
    var t, w := SortByImpact(s), s[i].impactWeight;
    SortByImpactPermutes(s);
    PermutationKeepsDistinct(s, t);
    SortByImpactStable(s, w);
    var f := OfWeight(s, w);
    OfWeightDistinct(s, w);
    var c, d := OfWeightOrder(s, w, i, j);
    if q < p {
      var a, b := OfWeightOrder(t, w, q, p);
      assert false;
    }
  }

  /** A permutation of a list with distinct feature names has distinct
      feature names. */
  lemma PermutationKeepsDistinct(s: seq<Factor>, t: seq<Factor>)
    requires multiset(s) == multiset(t)
    requires DistinctFeatures(s)
    ensures DistinctFeatures(t)
  {
    forall i, j | 0 <= i < j < |t| ensures t[i].feature != t[j].feature {
      if t[i].feature == t[j].feature {
        assert t[i] in multiset(s) && t[j] in multiset(s);
        var p :| 0 <= p < |s| && s[p] == t[i];
        var q :| 0 <= q < |s| && s[q] == t[j];
        assert p == q;
        CountTwice(t, i, j);
        CountOnce(s, p);
        assert false;
      }
    }
  }

  lemma CountTwice(t: seq<Factor>, i: nat, j: nat)
    requires i < j < |t| && t[i] == t[j]
    ensures multiset(t)[t[i]] >= 2
  {
    assert t == t[..j] + [t[j]] + t[j + 1..];
    assert t[i] in multiset(t[..j]);
  }

  lemma {:induction false} CountOnce(s: seq<Factor>, p: nat)
    requires DistinctFeatures(s) && p < |s|
    ensures multiset(s)[s[p]] == 1
  {
    assert s == s[..p] + [s[p]] + s[p + 1..];
    assert forall q :: 0 <= q < p ==> s[..p][q].feature != s[p].feature;
    assert s[p] !in s[..p];
    assert forall q :: p + 1 <= q < |s| ==> s[q].feature != s[p].feature;
    assert s[p] !in s[p + 1..];
  }

  lemma {:induction false} TotalOfPrefix(s: seq<Factor>, m: nat)
    requires m <= |s|
    requires forall i :: 0 <= i < |s| ==> s[i].impactWeight >= 0.0
    ensures TotalImpact(s[..m]) <= TotalImpact(s)
  {
    if m > 0 {
      assert s[..m][1..] == s[1..][..m - 1];
      TotalOfPrefix(s[1..], m - 1);
    } else {
      TotalNonNegative(s);
    }
  }

  lemma {:induction false} TotalNonNegative(s: seq<Factor>)
    requires forall i :: 0 <= i < |s| ==> s[i].impactWeight >= 0.0
    ensures TotalImpact(s) >= 0.0
  {
    if s != [] {
      TotalNonNegative(s[1..]);
    }
  }

  lemma RawImpactsDistinct(importances: seq<real>, values: seq<real>)
    requires |importances| == NumFeatures
    ensures DistinctFeatures(RawImpacts(importances, values))
  {
    FeatureTables();
  }

  // Properties of the explanation

  /** Where an element of a permutation sits in the original list. */
  lemma PermutationIndex(s: seq<Factor>, t: seq<Factor>, i: nat) returns (p: nat)
    requires multiset(s) == multiset(t) && i < |t|
    ensures p < |s| && s[p] == t[i]
  {
    assert t[i] in multiset(s);
    p :| 0 <= p < |s| && s[p] == t[i];
  }

  lemma {:induction false} NormalisedPrefixSorted(sorted: seq<Factor>, total: real, m: nat)
    requires NonIncreasing(sorted) && m <= |sorted|
    ensures NonIncreasing(Normalise(sorted, total)[..m])
  {
    var r := Normalise(sorted, total)[..m];
    forall i, j | 0 <= i < j < |r| ensures r[i].impactWeight >= r[j].impactWeight {
      if total > 0.0 {
        assert sorted[i].impactWeight >= sorted[j].impactWeight;
        assert sorted[i].impactWeight / total >= sorted[j].impactWeight / total;
        Round2Monotone(sorted[j].impactWeight / total, sorted[i].impactWeight / total);
      }
    }
  }

  /** The ranked list is a permutation of the raw one, so each of its
      records is the record of some feature. */
  lemma {:induction false} SortedRecordExplained(importances: seq<real>, values: seq<real>, i: nat) returns (k: nat)
    requires |importances| == NumFeatures
    requires i < MinNat(3, ZipLength(importances, values))
    ensures k < ZipLength(importances, values)
    ensures SortByImpact(RawImpacts(importances, values))[i] == RawImpacts(importances, values)[k]
    ensures Explains(TopFactors(importances, values)[i], k, importances, values)
  {
    var raw := RawImpacts(importances, values);
    var sorted := SortByImpact(raw);
    SortByImpactSpec(raw);
    k := PermutationIndex(raw, sorted, i);
    var total := TotalImpact(sorted);
    assert total == RawTotal(importances, values);
    assert TopFactors(importances, values)[i] == Normalise(sorted, total)[i];
  }

  /** At most three records, each the record of a different feature, with
      the weight the normalisation gives it, in non-increasing weight order. */
  lemma TopFactorsShape(importances: seq<real>, values: seq<real>)
    requires |importances| == NumFeatures
    ensures var r := TopFactors(importances, values);
      && |r| == MinNat(3, ZipLength(importances, values))
      && (forall i :: 0 <= i < |r| ==> IsFeatureRecord(r[i], importances, values))
      && DistinctFeatures(r)
      && NonIncreasing(r)
  {
    TopFactorsExplained(importances, values);
    TopFactorsDistinct(importances, values);
    TopFactorsOrdered(importances, values);
  }

  lemma TopFactorsExplained(importances: seq<real>, values: seq<real>)
    requires |importances| == NumFeatures
    ensures |TopFactors(importances, values)| == MinNat(3, ZipLength(importances, values))
    ensures forall i :: 0 <= i < |TopFactors(importances, values)| ==>
      IsFeatureRecord(TopFactors(importances, values)[i], importances, values)
  {
    var r := TopFactors(importances, values);
    assert |RawImpacts(importances, values)| == ZipLength(importances, values);
    assert |r| == MinNat(3, ZipLength(importances, values));
    forall i | 0 <= i < |r| ensures IsFeatureRecord(r[i], importances, values) {
      SomeFeatureExplains(importances, values, i);
    }
  }

  lemma SomeFeatureExplains(importances: seq<real>, values: seq<real>, i: nat)
    requires |importances| == NumFeatures && i < MinNat(3, ZipLength(importances, values))
    ensures IsFeatureRecord(TopFactors(importances, values)[i], importances, values)
  {
    var k := SortedRecordExplained(importances, values, i);
    assert Explains(TopFactors(importances, values)[i], k, importances, values);
  }

  lemma TopFactorsDistinct(importances: seq<real>, values: seq<real>)
    requires |importances| == NumFeatures
    ensures DistinctFeatures(TopFactors(importances, values))
  {
    var raw := RawImpacts(importances, values);
    var sorted := SortByImpact(raw);
    var r := TopFactors(importances, values);
    SortByImpactPermutes(raw);
    RawImpactsDistinct(importances, values);
    PermutationKeepsDistinct(raw, sorted);
    var total := TotalImpact(sorted);
    forall i, j | 0 <= i < j < |r| ensures r[i].feature != r[j].feature {
      assert r[i] == Normalise(sorted, total)[i] && r[j] == Normalise(sorted, total)[j];
    }
  }

  lemma TopFactorsOrdered(importances: seq<real>, values: seq<real>)
    requires |importances| == NumFeatures
    ensures NonIncreasing(TopFactors(importances, values))
  {
    var raw := RawImpacts(importances, values);
    var sorted := SortByImpact(raw);
    SortByImpactSorted(raw);
    NormalisedPrefixSorted(sorted, TotalImpact(sorted), MinNat(3, |raw|));
  }

  /** The three reported features are the ones of largest impact: a feature
      left out never has a larger impact than a reported one. */
  lemma TopFactorsAreLargest(importances: seq<real>, values: seq<real>, i: nat, k: nat, other: nat)
    requires |importances| == NumFeatures
    requires i < |TopFactors(importances, values)|
    requires Explains(TopFactors(importances, values)[i], k, importances, values)
    requires other < ZipLength(importances, values)
    requires forall j :: 0 <= j < |TopFactors(importances, values)| ==>
               TopFactors(importances, values)[j].feature != FeatureNames[other]
    ensures Impact(importances[other], values[other]) <= Impact(importances[k], values[k])
  {
    var raw := RawImpacts(importances, values);
    var sorted := SortByImpact(raw);
    var r := TopFactors(importances, values);
    SortByImpactSpec(raw);
    var q := PermutationIndex(sorted, raw, other);
    assert forall j :: 0 <= j < |r| ==> r[j].feature == sorted[j].feature;
    assert sorted[q].feature == FeatureNames[other];
    assert q >= |r|;
    var p := SortedRecordExplained(importances, values, i);
    FeatureTables();
    assert FeatureNames[p] == r[i].feature == FeatureNames[k];
    assert sorted[i].impactWeight >= sorted[q].impactWeight;
  }

  /** The weights are shares of the total over all eight features, not of the
      three reported: for non-negative inputs the reported shares, before
      rounding, add up to at most 1; a non-positive total leaves the weights
      as raw impacts. */
  lemma SortedNonNegative(importances: seq<real>, values: seq<real>)
    requires |importances| == NumFeatures
    requires forall k :: 0 <= k < |importances| ==> importances[k] >= 0.0
    requires forall k :: 0 <= k < |values| ==> values[k] >= 0.0
    ensures var sorted := SortByImpact(RawImpacts(importances, values));
      forall i :: 0 <= i < |sorted| ==> sorted[i].impactWeight >= 0.0
  {
    var raw := RawImpacts(importances, values);
    var sorted := SortByImpact(raw);
    SortByImpactPermutes(raw);
    forall i | 0 <= i < |sorted| ensures sorted[i].impactWeight >= 0.0 {
      var k := PermutationIndex(raw, sorted, i);
    }
  }

  /** Whatever the signs of the inputs, the reported weights are the first
      three impacts of the ranking rewritten as shares of the total over all
      features; when that total is not positive (negative values give
      negative impacts) they are the raw impacts, neither divided nor
      rounded. */
  lemma TopFactorsAsShares(importances: seq<real>, values: seq<real>)
    requires |importances| == NumFeatures
    ensures var top := SortByImpact(RawImpacts(importances, values))[..MinNat(3, ZipLength(importances, values))];
            var total := RawTotal(importances, values);
      && TopFactors(importances, values) == Normalise(top, total)
      && (total <= 0.0 ==> TopFactors(importances, values) == top)
  {
    var raw := RawImpacts(importances, values);
    var sorted := SortByImpact(raw);
    SortByImpactTotal(raw);
    var total := TotalImpact(sorted);
    var m := MinNat(3, |raw|);
    NormaliseSlice(sorted, total, m);
    if total <= 0.0 {
      NormaliseNonPositive(sorted[..m], total);
    }
  }

  lemma TopSharesAtMostOne(importances: seq<real>, values: seq<real>)
    requires |importances| == NumFeatures
    requires forall k :: 0 <= k < |importances| ==> importances[k] >= 0.0
    requires forall k :: 0 <= k < |values| ==> values[k] >= 0.0
    ensures var top := SortByImpact(RawImpacts(importances, values))[..MinNat(3, ZipLength(importances, values))];
            var total := RawTotal(importances, values);
      && TopFactors(importances, values) == Normalise(top, total)
      && (total > 0.0 ==> TotalImpact(top) / total <= 1.0)
      && (total <= 0.0 ==> TopFactors(importances, values) == top)
  {
    var raw := RawImpacts(importances, values);
    var sorted := SortByImpact(raw);
    SortByImpactTotal(raw);
    var total := TotalImpact(sorted);
    var m := MinNat(3, |raw|);
    NormaliseSlice(sorted, total, m);
    SortedNonNegative(importances, values);
    TotalOfPrefix(sorted, m);
    var top := sorted[..m];
    if total > 0.0 {
      ShareAtMostOne(TotalImpact(top), total);
    } else {
      NormaliseNonPositive(top, total);
    }
  }

  /** Normalising then keeping a prefix is keeping the prefix then
      normalising. */
  lemma NormaliseSlice(s: seq<Factor>, total: real, m: nat)
    requires m <= |s|
    ensures Normalise(s, total)[..m] == Normalise(s[..m], total)
  {
  }

  /** A non-positive total leaves every weight as it is. */
  lemma NormaliseNonPositive(s: seq<Factor>, total: real)
    requires total <= 0.0
    ensures Normalise(s, total) == s
  {
    assert forall i :: 0 <= i < |s| ==> Normalise(s, total)[i] == s[i];
  }

  lemma ShareAtMostOne(part: real, total: real)
    requires 0.0 < total && part <= total
    ensures part / total <= 1.0
  {
    assert part / total * total == part;
  }

  /** The body of `get_feature_importance` once the model is trained:
      builds one record per feature, sorts them by impact, rewrites each
      weight as its rounded share of the total, and keeps the first three. */
  method RankFactors(importances: seq<real>, values: seq<real>) returns (r: seq<Factor>)
    requires |importances| == NumFeatures
    ensures r == TopFactors(importances, values)
  {
    var n := MinNat(|importances|, |values|);
    var impacts: seq<Factor> := [];
    var i := 0;
    while i < n
      invariant 0 <= i <= n && |impacts| == i
      invariant forall k :: 0 <= k < i ==> impacts[k] == MakeFactor(k, importances[k], values[k])
    {
      impacts := impacts + [MakeFactor(i, importances[i], values[i])];
      i := i + 1;
    }
    assert impacts == RawImpacts(importances, values);
    impacts := SortByImpact(impacts);
    ghost var sorted := impacts;
    var total := TotalImpact(impacts);
    if total > 0.0 {
      var j := 0;
      while j < |impacts|
        invariant 0 <= j <= |impacts| == |sorted|
        invariant forall k :: 0 <= k < j ==> impacts[k] == Normalise(sorted, total)[k]
        invariant forall k :: j <= k < |impacts| ==> impacts[k] == sorted[k]
      {
        impacts := impacts[j := impacts[j].(impactWeight := Round2(impacts[j].impactWeight / total))];
        j := j + 1;
      }
    }
    assert impacts == Normalise(sorted, total);
    r := impacts[..MinNat(3, |impacts|)];
  }

  // ---------------------------------------------------------------------
  // The stateful wrapper

  const ArtifactName: string := "risk_model.joblib"

  /** The probability column served by `predict`: the second when the
      classifier has exactly two classes, the first otherwise. */
  function RiskColumn(f: Forest): nat
  {
    if f.classes == 2 then 1 else 0
  }

  function ProbaColumn(f: Forest, rows: seq<seq<real>>, column: nat): (r: seq<real>)
    ensures |r| == |rows|
  {
    seq(|rows|, i requires 0 <= i < |rows| => f.proba(rows[i], column))
  }

  /** A stored risk artifact, if any, is a forest on the eight features. */
  ghost predicate StoredWellFormed(blobs: map<string, Blob<Forest>>)
  {
    ArtifactName in blobs && blobs[ArtifactName].Serialized? ==> WellFormed(blobs[ArtifactName].estimator)
  }

  class RiskModel {
    /** The model directory. */
    const store: Store<Forest>
    /** The forest that fitting on the seeded synthetic data produces. */
    const synthetic: Forest

    var model: Option<Forest>
    var isTrained: bool
    var featureImportances: Option<seq<real>>

    ghost predicate Valid()
      reads this, store
    {
      && WellFormed(synthetic)
      && StoredWellFormed(store.blobs)
      && (isTrained <==> model.Some?)
      && (isTrained ==> WellFormed(model.value) && featureImportances == Some(model.value.importances))
      && (!isTrained ==> featureImportances == None)
    }

    /** The state `load_or_train` leaves, given what the store held before. */
    ghost predicate AdoptedOrTrained(loaded: Option<Forest>, before: map<string, Blob<Forest>>)
      reads this, store
    {
      isTrained &&
      match loaded
      case Some(e) => model == Some(e) && store.blobs == before
      case None => model == Some(synthetic) && store.blobs == before[ArtifactName := Serialized(synthetic)]
    }

    constructor (store: Store<Forest>, synthetic: Forest)
      requires WellFormed(synthetic) && StoredWellFormed(store.blobs)
      ensures Valid() && !isTrained
      ensures this.store == store && this.synthetic == synthetic
    {
      this.store := store;
      this.synthetic := synthetic;
      model := None;
      isTrained := false;
      featureImportances := None;
    }

    /** Adopts a loadable artifact without writing anything; otherwise
        trains and writes the artifact.  Either way the model ends trained. */
    method LoadOrTrain()
      requires Valid()
      modifies this, store
      ensures Valid()
      ensures AdoptedOrTrained(old(store.Loaded(ArtifactName)), old(store.blobs))
    {
      var loaded := store.Loaded(ArtifactName);
      if loaded.Some? {
        model := loaded;
        isTrained := true;
        featureImportances := Some(loaded.value.importances);
        return;
      }
      TrainSynthetic();
    }

    method TrainSynthetic()
      requires Valid()
      modifies this, store
      ensures Valid() && isTrained && model == Some(synthetic)
      ensures store.blobs == old(store.blobs)[ArtifactName := Serialized(synthetic)]
    {
      model := Some(synthetic);
      isTrained := true;
      featureImportances := Some(synthetic.importances);
      store.Save(ArtifactName, synthetic);
    }

    /** Lazy initialisation (only when untrained), then the arity check, then
        the served probability column. */
    method Predict(features: Batch) returns (r: Result<seq<real>>)
      requires Valid()
      modifies this, store
      ensures Valid() && isTrained
      ensures old(isTrained) ==> unchanged(this) && store.blobs == old(store.blobs)
      ensures !old(isTrained) ==> AdoptedOrTrained(old(store.Loaded(ArtifactName)), old(store.blobs))
      ensures features.width != NumFeatures ==> r == Err(ArityMismatch(NumFeatures, features.width))
      ensures features.width == NumFeatures ==>
        r == Ok(ProbaColumn(model.value, features.rows, RiskColumn(model.value)))
    {
      if !isTrained {
        LoadOrTrain();
      }
      if features.width != NumFeatures {
        return Err(ArityMismatch(NumFeatures, features.width));
      }
      var m := model.value;
      r := Ok(ProbaColumn(m, features.rows, if m.classes == 2 then 1 else 0));
    }

    /** Lazy initialisation, then always the second probability column, with
        no arity check; a one-class model has no such column. */
    method PredictBatch(features: Batch) returns (r: Result<seq<real>>)
      requires Valid()
      modifies this, store
      ensures Valid() && isTrained
      ensures old(isTrained) ==> unchanged(this) && store.blobs == old(store.blobs)
      ensures !old(isTrained) ==> AdoptedOrTrained(old(store.Loaded(ArtifactName)), old(store.blobs))
      ensures model.value.classes < 2 ==> r == Err(ColumnOutOfRange(1, model.value.classes))
      ensures model.value.classes >= 2 ==> r == Ok(ProbaColumn(model.value, features.rows, 1))
    {
      if !isTrained {
        LoadOrTrain();
      }
      var m := model.value;
      if m.classes < 2 {
        return Err(ColumnOutOfRange(1, m.classes));
      }
      r := Ok(ProbaColumn(m, features.rows, 1));
    }

    /** Builds one record per feature, sorts them by impact, rewrites each
        weight as its rounded share of the total, and returns the first
        three. */
    method GetFeatureImportance(values: seq<real>) returns (r: seq<Factor>)
      requires Valid()
      modifies this, store
      ensures Valid() && isTrained
      ensures old(isTrained) ==> unchanged(this) && store.blobs == old(store.blobs)
      ensures !old(isTrained) ==> AdoptedOrTrained(old(store.Loaded(ArtifactName)), old(store.blobs))
      ensures r == TopFactors(featureImportances.value, values)
    {
      if !isTrained {
        LoadOrTrain();
      }
      r := RankFactors(featureImportances.value, values);
    }
  }
}
