/** The HTTP endpoints of the service: each builds a feature array from the
    request, asks one of the three module-level model wrappers, and shapes
    the answer; any exception becomes a 500 response carrying its text. */
module Service {
  import opened Common
  import Risk
  import Churn
  import Anomaly
  import Recommendations

  /** A response body, or an HTTP error with its status and detail. */
  datatype Response<T> = Success(body: T) | HttpError(status: nat, detail: string)

  const InternalServerError: nat := 500

  /** What an exception raised inside an endpoint turns into. */
  function Failure<T>(e: Error): (r: Response<T>)
    ensures r.HttpError? && r.status == InternalServerError && r.detail == Message(e)
  {
    HttpError(InternalServerError, Message(e))
  }

  // ---------------------------------------------------------------------
  // /ml/predict-risk

  /** One factor as the response shows it. */
  datatype FormattedFactor = FormattedFactor(feature: string, value: real, impactWeight: real)

  datatype RiskPrediction = RiskPrediction(
    riskScore: real, riskLevel: string, confidence: real, modelUsed: string,
    topFactors: seq<FormattedFactor>, recommendations: seq<string>)

  const RiskModelName: string := "RandomForestClassifier"
  const Confidence: real := 0.85

  /** The single row the endpoint builds, in feature order f1..f8. */
  function RiskRow(f: Recommendations.PRFeatures): (v: seq<real>)
    ensures |v| == Risk.NumFeatures
  {
    [f.f1, f.f2, f.f3, f.f4, f.f5, f.f6, f.f7, f.f8]
  }

  function Format(x: Risk.Factor): FormattedFactor
  {
    FormattedFactor(x.description, Risk.Round2(x.value), x.impactWeight)
  }

  /** The formatting loop: one formatted entry per factor, in order. */
  method FormatFactors(topFactors: seq<Risk.Factor>) returns (formatted: seq<FormattedFactor>)
    ensures |formatted| == |topFactors|
    ensures forall i :: 0 <= i < |topFactors| ==>
      && formatted[i].feature == topFactors[i].description
      && formatted[i].value == Risk.Round2(topFactors[i].value)
      && formatted[i].impactWeight == topFactors[i].impactWeight
  {
    formatted := [];
    var i := 0;
    while i < |topFactors|
      invariant 0 <= i <= |topFactors| && |formatted| == i
      invariant forall k :: 0 <= k < i ==> formatted[k] == Format(topFactors[k])
    {
      formatted := formatted + [Format(topFactors[i])];
      i := i + 1;
    }
  }

  /** The formatted factors of a trained model keep the ranking: at most
      three, different descriptions, weights non-increasing. */
  lemma FormattedFactorsRanked(importances: seq<real>, values: seq<real>, formatted: seq<FormattedFactor>)
    requires |importances| == Risk.NumFeatures && |values| == Risk.NumFeatures
    requires |formatted| == |Risk.TopFactors(importances, values)|
    requires forall i :: 0 <= i < |formatted| ==> formatted[i] == Format(Risk.TopFactors(importances, values)[i])
    ensures |formatted| == 3
    ensures forall i, j :: 0 <= i < j < |formatted| ==>
      formatted[i].impactWeight >= formatted[j].impactWeight && formatted[i].feature != formatted[j].feature
  {
    var r := Risk.TopFactors(importances, values);
    Risk.TopFactorsShape(importances, values);
    Risk.FeatureTables();
    forall i, j | 0 <= i < j < |formatted|
      ensures formatted[i].feature != formatted[j].feature
    {
      var ki := Risk.SortedRecordExplained(importances, values, i);
      var kj := Risk.SortedRecordExplained(importances, values, j);
      assert r[i].feature == Risk.FeatureNames[ki] && r[j].feature == Risk.FeatureNames[kj];
      assert ki != kj;
      DescriptionsDistinct(ki, kj);
    }
  }

  /** No two features share a description. */
  lemma DescriptionsDistinct(a: nat, b: nat)
    requires a < Risk.NumFeatures && b < Risk.NumFeatures && a != b
    ensures Risk.FeatureDescriptions[Risk.FeatureNames[a]] != Risk.FeatureDescriptions[Risk.FeatureNames[b]]
  {
  }

  /** The risk endpoint's answer for a trained forest: the served
      probability, its level, the formatted top factors and the
      recommendations. */
  predicate IsRiskReport(r: RiskPrediction, m: Risk.Forest, f: Recommendations.PRFeatures, approxLines: int)
    requires Risk.WellFormed(m)
  {
    var top := Risk.TopFactors(m.importances, RiskRow(f));
    && r.riskScore == m.proba(RiskRow(f), Risk.RiskColumn(m))
    && r.riskLevel == Risk.RiskLevel(r.riskScore)
    && r.confidence == Confidence
    && r.modelUsed == RiskModelName
    && |r.topFactors| == |top|
    && (forall i :: 0 <= i < |top| ==> r.topFactors[i] == Format(top[i]))
    && r.recommendations ==
         Recommendations.Recommendations(f, r.riskScore, approxLines)
  }

  /** `predict_risk`: `expF1` is `np.exp(f1)` from the floating-point
      library. The row always has eight columns, so the wrapper never raises;
      an `exp(f1)` that overflowed to infinity makes the recommendations raise
      after lazy initialisation, and the answer is a 500. */
  method PredictRisk(risk: Risk.RiskModel, features: Recommendations.PRFeatures, expF1: Recommendations.Float)
    returns (resp: Response<RiskPrediction>)
    requires risk.Valid()
    modifies risk, risk.store
    ensures risk.Valid() && risk.isTrained
    ensures old(risk.isTrained) ==> unchanged(risk) && risk.store.blobs == old(risk.store.blobs)
    ensures !old(risk.isTrained) ==>
      risk.AdoptedOrTrained(old(risk.store.Loaded(Risk.ArtifactName)), old(risk.store.blobs))
    ensures expF1.Infinity? ==> resp == Failure(IntOfInfinity)
    ensures expF1.Finite? ==>
      resp.Success? && IsRiskReport(resp.body, risk.model.value, features, Recommendations.ApproxLines(expF1).value)
  {
    var row := RiskRow(features);
    var scores := risk.Predict(Batch(Risk.NumFeatures, [row]));
    match scores {
      case Err(e) =>
        resp := Failure(e);
      case Ok(s) =>
        var riskScore := s[0];
        var riskLevel := Risk.RiskLevel(riskScore);
        var topFactors := risk.GetFeatureImportance(row);
        var formatted := FormatFactors(topFactors);
        var recommendations := Recommendations.GenerateRecommendations(features, riskScore, topFactors, expF1);
        match recommendations {
          case Err(e) =>
            resp := Failure(e);
          case Ok(advice) =>
            resp := Success(RiskPrediction(riskScore, riskLevel, Confidence, RiskModelName,
                                           formatted, advice));
        }
    }
  }

  /** Every risk report has a level matching its score, at most three
      factors of distinct descriptions in non-increasing weight order, and
      between one and eight recommendations. */
  lemma RiskReportShape(r: RiskPrediction, m: Risk.Forest, f: Recommendations.PRFeatures, approxLines: int)
    requires Risk.WellFormed(m) && IsRiskReport(r, m, f, approxLines)
    ensures r.riskLevel == "High" <==> r.riskScore > 0.7
    ensures |r.topFactors| == 3
    ensures forall i, j :: 0 <= i < j < |r.topFactors| ==>
      r.topFactors[i].impactWeight >= r.topFactors[j].impactWeight &&
      r.topFactors[i].feature != r.topFactors[j].feature
    ensures 1 <= |r.recommendations| <= Recommendations.NumRules
  {
    FormattedFactorsRanked(m.importances, RiskRow(f), r.topFactors);
    Recommendations.RecommendationsBounds(f, r.riskScore, approxLines);
  }

  // ---------------------------------------------------------------------
  // /ml/predict-churn

  /** The request body; absent fields are 0. */
  datatype FileFeatures = FileFeatures(additions: real, deletions: real,
                                       modifications: real, churnHistory: real)

  datatype ChurnPrediction = ChurnPrediction(churnProbability: real, churnLevel: string, modelUsed: string)

  const ChurnModelName: string := "RandomForestRegressor"

  function ChurnLevel(p: real): (level: string)
    ensures level == "critical" <==> p > 0.8
    ensures level == "high" <==> 0.6 < p <= 0.8
    ensures level == "medium" <==> 0.4 < p <= 0.6
    ensures level == "low" <==> p <= 0.4
  {
    if p > 0.8 then "critical"
    else if p > 0.6 then "high"
    else if p > 0.4 then "medium"
    else "low"
  }

  function ChurnRank(level: string): nat
  {
    if level == "low" then 0 else if level == "medium" then 1 else if level == "high" then 2 else 3
  }

  /** A higher probability never gets a lower level. */
  lemma ChurnLevelMonotone(p: real, q: real)
    requires p <= q
    ensures ChurnRank(ChurnLevel(p)) <= ChurnRank(ChurnLevel(q))
  {
  }

  function ChurnRow(f: FileFeatures): (v: seq<real>)
    ensures |v| == Churn.NumFeatures
  {
    [f.additions, f.deletions, f.modifications, f.churnHistory]
  }

  /** `predict_churn`: the clipped prediction for the single row and its
      level; the row always has four columns, so the answer is always a
      prediction. */
  method PredictChurn(churn: Churn.ChurnModel, features: FileFeatures)
    returns (resp: Response<ChurnPrediction>)
    requires churn.Valid()
    modifies churn, churn.store
    ensures churn.Valid() && churn.isTrained
    ensures old(churn.isTrained) ==> unchanged(churn) && churn.store.blobs == old(churn.store.blobs)
    ensures !old(churn.isTrained) ==>
      churn.AdoptedOrTrained(old(churn.store.Loaded(Churn.ArtifactName)), old(churn.store.blobs))
    ensures resp.Success?
    ensures resp.body.churnProbability == Churn.Clip(churn.model.value.predict(ChurnRow(features)))
    ensures 0.0 <= resp.body.churnProbability <= 1.0
    ensures resp.body.churnLevel == ChurnLevel(resp.body.churnProbability)
    ensures resp.body.modelUsed == ChurnModelName
  {
    var probabilities := churn.Predict(Batch(Churn.NumFeatures, [ChurnRow(features)]));
    match probabilities {
      case Err(e) =>
        resp := Failure(e);
      case Ok(s) =>
        var p := s[0];
        resp := Success(ChurnPrediction(p, ChurnLevel(p), ChurnModelName));
    }
  }

  // ---------------------------------------------------------------------
  // /ml/detect-anomalies

  const AnomalyModelName: string := "IsolationForest"
  const FlagThreshold: real := 0.5
  const FlagText: string := "Unusual activity pattern"

  datatype FlaggedContributor = FlaggedContributor(index: nat, anomalyScore: real, flag: string)

  datatype AnomalyReport = AnomalyReport(anomalyScores: seq<real>,
                                         flaggedContributors: seq<FlaggedContributor>,
                                         modelUsed: string)

  /** One contributor's fields as the request sends them. */
  type Contributor = map<string, real>

  /** `f.get(key, 0)`. */
  function Field(c: Contributor, key: string): (v: real)
    ensures key in c ==> v == c[key]
    ensures key !in c ==> v == 0.0
  {
    if key in c then c[key] else 0.0
  }

  function ContributorRow(c: Contributor): (v: seq<real>)
    ensures |v| == Anomaly.NumFeatures
  {
    [Field(c, "experience_score"), Field(c, "contributions"), Field(c, "rejection_rate")]
  }

  /** Row i is built from contributor i. */
  function ContributorRows(cs: seq<Contributor>): (rows: seq<seq<real>>)
    ensures |rows| == |cs|
    ensures forall i :: 0 <= i < |cs| ==> rows[i] == ContributorRow(cs[i])
  {
    seq(|cs|, i requires 0 <= i < |cs| => ContributorRow(cs[i]))
  }

  /** The flag entries for the first `k` scores: one per score above the
      threshold, in index order. */
  function FlaggedUpTo(scores: seq<real>, k: nat): seq<FlaggedContributor>
    requires k <= |scores|
  {
    if k == 0 then []
    else FlaggedUpTo(scores, k - 1) +
         (if scores[k - 1] > FlagThreshold then [FlaggedContributor(k - 1, scores[k - 1], FlagText)] else [])
  }

  /** The flagging loop. */
  method FlagContributors(scores: seq<real>) returns (flagged: seq<FlaggedContributor>)
    ensures flagged == FlaggedUpTo(scores, |scores|)
  {
    flagged := [];
    var i := 0;
    while i < |scores|
      invariant 0 <= i <= |scores|
      invariant flagged == FlaggedUpTo(scores, i)
    {
      if scores[i] > FlagThreshold {
        flagged := flagged + [FlaggedContributor(i, scores[i], FlagText)];
      }
      i := i + 1;
    }
  }

  /** The entries name exactly the indices whose score exceeds 0.5, each
      once, in ascending order, with that score and the fixed text. */
  lemma {:induction false} FlaggedSpec(scores: seq<real>, k: nat)
    requires k <= |scores|
    ensures forall e :: e in FlaggedUpTo(scores, k) ==>
      e.index < k && e.anomalyScore == scores[e.index] && scores[e.index] > FlagThreshold && e.flag == FlagText
    ensures forall i :: 0 <= i < k && scores[i] > FlagThreshold ==>
      FlaggedContributor(i, scores[i], FlagText) in FlaggedUpTo(scores, k)
    ensures forall a, b :: 0 <= a < b < |FlaggedUpTo(scores, k)| ==>
      FlaggedUpTo(scores, k)[a].index < FlaggedUpTo(scores, k)[b].index
  {
    if k > 0 {
      FlaggedSpec(scores, k - 1);
      var prev := FlaggedUpTo(scores, k - 1);
      var r := FlaggedUpTo(scores, k);
      forall a, b | 0 <= a < b < |r| ensures r[a].index < r[b].index {
        if b >= |prev| {
          assert r[a] == prev[a] && prev[a] in prev;
        } else {
          assert r[a] == prev[a] && r[b] == prev[b];
        }
      }
    }
  }

  /** A non-empty batch always flags somebody: its least normal row scores
      exactly 1. */
  lemma SomeoneFlagged(raw: seq<real>)
    requires |raw| > 0
    ensures |FlaggedUpTo(Anomaly.AnomalyScores(raw), |raw|)| > 0
  {
    var scores := Anomaly.AnomalyScores(raw);
    var lo := Anomaly.Min(raw);
    var k :| 0 <= k < |raw| && raw[k] == lo;
    Anomaly.MinimumIsMostAnomalous(raw, k);
    FlaggedSpec(scores, |raw|);
    assert FlaggedContributor(k, scores[k], FlagText) in FlaggedUpTo(scores, |raw|);
  }

  /** The report for a non-empty request, given the forest. */
  function AnomalyAnswer(m: Anomaly.IsolationForest, cs: seq<Contributor>): (r: AnomalyReport)
    requires |cs| > 0
    ensures |r.anomalyScores| == |cs|
    ensures r.modelUsed == AnomalyModelName
  {
    var scores := Anomaly.AnomalyScores(Anomaly.DecisionScores(m, ContributorRows(cs)));
    AnomalyReport(scores, FlaggedUpTo(scores, |scores|), AnomalyModelName)
  }

  /** `detect_anomalies`: `features` is `request.get("features")`.  A missing
      or empty list answers an empty report without touching the model;
      otherwise the scores of the rows built from the contributors, and the
      flagged ones. */
  method DetectAnomalies(anomaly: Anomaly.AnomalyModel, features: Option<seq<Contributor>>)
    returns (resp: Response<AnomalyReport>)
    requires anomaly.Valid()
    modifies anomaly, anomaly.store
    ensures anomaly.Valid()
    ensures (features.None? || |features.value| == 0) ==>
      && resp == Success(AnomalyReport([], [], AnomalyModelName))
      && unchanged(anomaly) && anomaly.store.blobs == old(anomaly.store.blobs)
    ensures features.Some? && |features.value| > 0 ==>
      && anomaly.isTrained
      && (old(anomaly.isTrained) ==> unchanged(anomaly) && anomaly.store.blobs == old(anomaly.store.blobs))
      && (!old(anomaly.isTrained) ==>
            anomaly.AdoptedOrTrained(old(anomaly.store.Loaded(Anomaly.ArtifactName)), old(anomaly.store.blobs)))
      && resp == Success(AnomalyAnswer(anomaly.model.value, features.value))
  {
    if features.None? || |features.value| == 0 {
      return Success(AnomalyReport([], [], AnomalyModelName));
    }
    var rows := ContributorRows(features.value);
    var scores := anomaly.Predict(Batch(Anomaly.NumFeatures, rows));
    match scores {
      case Err(e) =>
        resp := Failure(e);
      case Ok(s) =>
        var flagged := FlagContributors(s);
        resp := Success(AnomalyReport(s, flagged, AnomalyModelName));
    }
  }

  /** For a non-empty request: one score per contributor, each in (0, 1];
      the flagged entries are exactly the contributors scoring above 0.5, in
      order, and there is at least one. */
  lemma AnomalyAnswerShape(m: Anomaly.IsolationForest, cs: seq<Contributor>)
    requires |cs| > 0
    ensures var r := AnomalyAnswer(m, cs);
      && (forall i :: 0 <= i < |cs| ==> 0.0 < r.anomalyScores[i] <= 1.0)
      && (forall i :: 0 <= i < |cs| ==>
            (r.anomalyScores[i] > FlagThreshold <==>
             FlaggedContributor(i, r.anomalyScores[i], FlagText) in r.flaggedContributors))
      && (forall a, b :: 0 <= a < b < |r.flaggedContributors| ==>
            r.flaggedContributors[a].index < r.flaggedContributors[b].index)
      && |r.flaggedContributors| > 0
  {
    var raw := Anomaly.DecisionScores(m, ContributorRows(cs));
    var scores := Anomaly.AnomalyScores(raw);
    Anomaly.ScoresBounded(raw);
    FlaggedSpec(scores, |scores|);
    SomeoneFlagged(raw);
  }

  // ---------------------------------------------------------------------
  // /ml/train-risk-model

  datatype TrainReport = TrainReport(success: bool, message: string, modelType: string)

  const TrainedMessage: string := "Risk model trained/loaded"

  /** `train_risk_model`: runs `load_or_train` whether or not the model is
      already trained, then reports success.  Reloading an artifact that
      holds the model already in memory changes nothing. */
  method TrainRiskModel(risk: Risk.RiskModel) returns (resp: Response<TrainReport>)
    requires risk.Valid()
    modifies risk, risk.store
    ensures risk.Valid() && risk.isTrained
    ensures risk.AdoptedOrTrained(old(risk.store.Loaded(Risk.ArtifactName)), old(risk.store.blobs))
    ensures old(risk.isTrained) && old(risk.store.Loaded(Risk.ArtifactName)) == old(risk.model) ==>
      && risk.model == old(risk.model)
      && risk.featureImportances == old(risk.featureImportances)
      && risk.store.blobs == old(risk.store.blobs)
    ensures resp == Success(TrainReport(true, TrainedMessage, RiskModelName))
  {
    risk.LoadOrTrain();
    resp := Success(TrainReport(true, TrainedMessage, RiskModelName));
  }
}
