# RepoPulse ML service — a verified model of its decision logic

The RepoPulse ML service answers four HTTP requests for a repository
analytics product:

- a pull-request risk score with an explanation and advice;
- a file-churn probability with a level;
- contributor anomaly scores with the contributors it flags;
- a request to (re)load the risk model.

Behind these sit three wrappers around scikit-learn estimators:

- a random-forest classifier for risk;
- a random-forest regressor for churn;
- an isolation forest for anomalies.

Each wrapper initialises itself lazily. It loads a persisted artifact, or
fits on seeded synthetic data and writes the artifact.

This project models the service's own rules around those estimators and
proves what they promise. The rules covered are:

- the risk-level and churn-level bucketing;
- the ranking and normalisation of per-feature impacts;
- the ordered list of recommendation rules with its two fallbacks;
- the min-max normalisation and inversion of anomaly scores;
- clipping of churn predictions;
- the arity checks and their error texts;
- the load-or-train lifecycle of each wrapper;
- the shaping of each endpoint's response.

Modules, one per source file plus two shared ones:

- `Common` (common.dfy): optional values, the errors the wrappers raise,
  and their messages. The decimal rendering of counts is proved readable
  back, so an arity message names both counts.
- `Artifacts` (artifacts.dfy): the model directory as a `Store` object. It
  maps a file name to a blob that either deserialises to an estimator or is
  unreadable; a missing file is an absent name.
- `Risk` (risk_model.dfy): the feature tables, the risk level, the
  explanation pipeline (impacts, stable descending sort, shares of the
  total, first three) and the `RiskModel` class.
- `Recommendations` (risk_model.py's `generate_recommendations`): the eight
  rules and the two fallbacks.
- `Anomaly` (anomaly_model.dfy): score normalisation and the
  `AnomalyModel` class.
- `Churn` (churn_model.dfy): clipping and the `ChurnModel` class.
- `Service` (service.dfy): the endpoint bodies of `main.py`. The
  module-level wrappers are parameters, and an exception is a
  `HttpError(500, message)` response.

Each estimator is a datatype whose behaviour is a function field that the
model never looks inside. Examples are a forest's probability for a row
and column, or an isolation forest's decision score. Each wrapper class
holds the same fields as the source: `model`, `isTrained`, and for risk
`featureImportances`. Its methods say exactly how those fields and the
store change. In particular, the prediction methods run `load_or_train`
only when the wrapper is untrained, and `load_or_train` writes the artifact
only when none could be loaded.

The model follows what the code does where its own comment promises more.
The comment at risk_model.py:161 says the impact weights are normalised to
sum to 1. The code divides every weight by the total over all eight
features, and only when that total is positive, before keeping three
(risk_model.py:162-168). So for non-negative inputs the three reported
shares add up to at most 1 (`Risk.TopSharesAtMostOne`). A non-positive
total, which negative feature values can produce, leaves the raw impacts
undivided (`Risk.TopFactorsAsShares`).

## Model

| member | source | states |
|---|---|---|
| Common.Message | ml-service/app/models/risk_model.py:113-114 | the arity error reads "Expected N features, got M" with both counts in decimal, and ends with the count received |
| Common.ArityMessageNamesCounts | ml-service/app/models/churn_model.py:74-75 | two arity messages are equal only when they report the same expected and received counts |
| Common.ParseNatStr | ml-service/app/models/anomaly_model.py:78-79 | the decimal count rendered into a message reads back as the same number |
| Artifacts.Store.Loaded | ml-service/app/models/risk_model.py:48-57 | an estimator is loaded exactly when the file exists and deserialises, and it is the stored one |
| Artifacts.Store.Save | ml-service/app/models/risk_model.py:102-104 | dumping overwrites exactly the named file and leaves the others |
| Risk.FeatureTables | ml-service/app/models/risk_model.py:8-29 | eight distinct feature names, each with a description |
| Risk.RiskLevel | ml-service/app/models/risk_model.py:170-177 | "Low" iff score < 0.4, "Medium" iff 0.4 ≤ score ≤ 0.7, "High" iff score > 0.7 |
| Risk.RiskLevelMonotone | ml-service/app/models/risk_model.py:170-177 | a higher score never gets a lower level |
| Risk.Impact | ml-service/app/models/risk_model.py:146-149 | with non-negative importance the impact is at most the importance and equals it from value 10 up; non-negative inputs give a non-negative impact; a negative value gives a negative impact |
| Risk.SortByImpactSpec | ml-service/app/models/risk_model.py:158-159 | sorting yields a permutation of the impacts, in non-increasing weight order, with the same total, and stable: for every weight the records of that weight keep their input order |
| Risk.SortByImpactKeepsTies | ml-service/app/models/risk_model.py:158-159 | of two features with equal impact, the one listed first in the input is ranked first |
| Risk.TopFactorsShape | ml-service/app/models/risk_model.py:140-168 | the explanation has min(3, number of zipped pairs) entries, each the record of a different feature with its name, description, value, importance and share, in non-increasing weight order |
| Risk.SortedRecordExplained | ml-service/app/models/risk_model.py:145-165 | the i-th reported record is feature k's record with weight Share(impact_k, total of all impacts) |
| Risk.TopFactorsAreLargest | ml-service/app/models/risk_model.py:158-168 | a feature left out of the three never has a larger impact than a reported one |
| Risk.Round2Monotone | ml-service/app/models/risk_model.py:165 | rounding to two places keeps order, so the shares stay non-increasing |
| Risk.TopFactorsAsShares | ml-service/app/models/risk_model.py:161-168 | for any inputs the reported weights are the first three ranked impacts as shares of the total over all impacts, and a non-positive total leaves them as raw, unrounded impacts |
| Risk.TopSharesAtMostOne | ml-service/app/models/risk_model.py:161-168 | for non-negative inputs the three reported shares sum to at most 1 before rounding |
| Risk.RankFactors | ml-service/app/models/risk_model.py:140-168 | the impacts loop, the sort, the share rewriting and the cut to three compute exactly the explanation |
| Risk.RiskModel.constructor | ml-service/app/models/risk_model.py:38-42 | a new wrapper is untrained with no model and no importances |
| Risk.RiskModel.LoadOrTrain | ml-service/app/models/risk_model.py:44-60 | a loadable artifact is adopted (model, importances, trained) with no write; otherwise the synthetic model is adopted and written; either way the wrapper ends trained |
| Risk.RiskModel.TrainSynthetic | ml-service/app/models/risk_model.py:95-104 | the fitted model and its importances are adopted, the wrapper is trained, and the artifact is written |
| Risk.RiskModel.Predict | ml-service/app/models/risk_model.py:108-122 | loads or trains only when untrained; a column count other than 8 gives the arity error; otherwise the second probability column for a two-class model, the first otherwise |
| Risk.RiskModel.PredictBatch | ml-service/app/models/risk_model.py:124-129 | loads or trains only when untrained; no arity check; always the second probability column, an index error for a one-class model |
| Risk.RiskModel.GetFeatureImportance | ml-service/app/models/risk_model.py:131-168 | loads or trains only when untrained, then answers the explanation for the model's importances |
| Recommendations.Trunc | ml-service/app/models/risk_model.py:197 | `int()` truncates toward zero: the result is within 1 of its argument, on the same side of zero |
| Recommendations.ApproxLines | ml-service/app/models/risk_model.py:196-197 | an `exp(f1)` that overflowed to infinity raises "cannot convert float infinity to integer"; a finite one gives the line count truncated toward zero |
| Recommendations.GenerateRecommendations | ml-service/app/models/risk_model.py:180-231 | raises the overflow error exactly when `exp(f1)` overflowed; otherwise answers the rule list for the truncated line count |
| Recommendations.ApplyRules | ml-service/app/models/risk_model.py:199-231 | the appends compute exactly the triggered messages in rule order, else the high-risk fallback above 0.7, else "looks good" |
| Recommendations.TriggeredSpec | ml-service/app/models/risk_model.py:199-222 | a rule's message is present iff the rule fired, no fallback is among them, and the list is empty iff no rule fired |
| Recommendations.RuleMessagesDistinct | ml-service/app/models/risk_model.py:200-222 | different rules have different messages |
| Recommendations.RecommendationsBounds | ml-service/app/models/risk_model.py:224-231 | the result is never empty and has at most eight entries |
| Recommendations.RecommendationsContents | ml-service/app/models/risk_model.py:199-229 | each rule's message appears iff it fires; the high-risk fallback iff nothing fired and risk > 0.7; "looks good" iff nothing fired and risk ≤ 0.7 |
| Recommendations.RecommendationsInRuleOrder | ml-service/app/models/risk_model.py:199-222 | rule messages appear in declaration order |
| Anomaly.ScoresBounded | ml-service/app/models/anomaly_model.py:86-89 | normalised scores lie in [0, 1) and anomaly scores in (0, 1] |
| Anomaly.DegenerateBatch | ml-service/app/models/anomaly_model.py:86-89 | when all raw scores are equal every normalised score is 0 and every anomaly score is 1 |
| Anomaly.MinimumIsMostAnomalous | ml-service/app/models/anomaly_model.py:86-89 | the row with the lowest raw score gets anomaly score exactly 1 |
| Anomaly.OrderReversed | ml-service/app/models/anomaly_model.py:86-89 | a lower raw score never gets a lower anomaly score |
| Anomaly.FlagsMonotone | ml-service/app/models/anomaly_model.py:100-103 | raising the threshold only unflags rows |
| Anomaly.MostAnomalousFlagged | ml-service/app/models/anomaly_model.py:86-103 | below a threshold of 1 some row is always flagged, and in a degenerate batch every row is |
| Anomaly.AnomalyModel.constructor | ml-service/app/models/anomaly_model.py:12-14 | a new wrapper is untrained with no model |
| Anomaly.AnomalyModel.LoadOrTrain | ml-service/app/models/anomaly_model.py:16-30 | a loadable artifact is adopted with no write; otherwise the synthetic model is adopted and written; the wrapper ends trained |
| Anomaly.AnomalyModel.TrainSynthetic | ml-service/app/models/anomaly_model.py:55-66 | the fitted forest is adopted, the wrapper is trained, and the artifact is written |
| Anomaly.AnomalyModel.Predict | ml-service/app/models/anomaly_model.py:70-91 | loads or trains only when untrained; a column count other than 3 gives the arity error; an empty batch is rejected by the estimator before any score is computed; otherwise the inverted normalised decision scores, one per row |
| Anomaly.AnomalyModel.PredictBatch | ml-service/app/models/anomaly_model.py:93-98 | the same answer and state change as Predict |
| Anomaly.AnomalyModel.FlagAnomalies | ml-service/app/models/anomaly_model.py:100-103 | Predict's errors, or score > threshold for each row (threshold 0.7 by default) |
| Churn.Clip | ml-service/app/models/churn_model.py:77 | the result lies in [0, 1], equals its argument inside [0, 1], and is 0 below and 1 above |
| Churn.ClipIdempotentMonotone | ml-service/app/models/churn_model.py:77 | clipping twice is clipping once, and clipping keeps order |
| Churn.ClipAllBounded | ml-service/app/models/churn_model.py:77-84 | every clipped prediction is in [0, 1], predictions already in [0, 1] pass unchanged, and clipping is idempotent |
| Churn.ChurnModel.constructor | ml-service/app/models/churn_model.py:12-14 | a new wrapper is untrained with no model |
| Churn.ChurnModel.LoadOrTrain | ml-service/app/models/churn_model.py:16-30 | a loadable artifact is adopted with no write; otherwise the synthetic model is adopted and written; the wrapper ends trained |
| Churn.ChurnModel.TrainSynthetic | ml-service/app/models/churn_model.py:54-65 | the fitted regressor is adopted, the wrapper is trained, and the artifact is written |
| Churn.ChurnModel.Predict | ml-service/app/models/churn_model.py:69-77 | loads or trains only when untrained; a column count other than 4 gives the arity error; otherwise the clipped predictions, one per row |
| Churn.ChurnModel.PredictBatch | ml-service/app/models/churn_model.py:79-84 | loads or trains only when untrained; the clipped predictions without an arity check |
| Service.Failure | ml-service/app/main.py:136-137 | an exception becomes a 500 response carrying the exception's text and nothing else |
| Service.FormatFactors | ml-service/app/main.py:116-123 | one entry per factor, in order, holding its description, its value rounded to two places and its weight unchanged |
| Service.FormattedFactorsRanked | ml-service/app/main.py:113-123 | the formatted explanation has three entries with distinct descriptions in non-increasing weight order |
| Service.PredictRisk | ml-service/app/main.py:98-137 | the eight-column row passes the arity check; an `exp(f1)` that overflowed gives a 500 with the overflow text after lazy initialisation; otherwise the response is the served probability, its level, confidence 0.85, "RandomForestClassifier", the formatted explanation and the recommendations; the wrapper changes only by lazy initialisation |
| Service.RiskReportShape | ml-service/app/main.py:108-135 | a risk response has the level of its score, three ranked factors with distinct descriptions, and one to eight recommendations |
| Service.ChurnLevel | ml-service/app/main.py:153-161 | "critical" iff p > 0.8, "high" iff 0.6 < p ≤ 0.8, "medium" iff 0.4 < p ≤ 0.6, "low" iff p ≤ 0.4 |
| Service.ChurnLevelMonotone | ml-service/app/main.py:153-161 | a higher probability never gets a lower level |
| Service.PredictChurn | ml-service/app/main.py:140-169 | the four-column row never raises; the response is the clipped prediction in [0, 1], its level and "RandomForestRegressor"; the wrapper changes only by lazy initialisation |
| Service.Field | ml-service/app/main.py:187 | a missing contributor key reads as 0, a present one as its value |
| Service.ContributorRows | ml-service/app/main.py:186-189 | one row per contributor, row i built from contributor i |
| Service.FlagContributors | ml-service/app/main.py:193-201 | the loop computes exactly the flag list of the scores |
| Service.FlaggedSpec | ml-service/app/main.py:194-201 | the flagged entries are exactly the indices scoring above 0.5, each with its score and the fixed text, in ascending index order |
| Service.SomeoneFlagged | ml-service/app/main.py:191-201 | a non-empty batch always flags at least one contributor, because its least normal row scores 1 |
| Service.DetectAnomalies | ml-service/app/main.py:172-209 | a missing or empty list answers an empty report without touching the wrapper or the store; otherwise the scores of the rows and the flagged contributors, under "IsolationForest" |
| Service.AnomalyAnswerShape | ml-service/app/main.py:186-206 | one score in (0, 1] per contributor, the flagged entries exactly the contributors above 0.5 in order, and at least one of them |
| Service.TrainRiskModel | ml-service/app/main.py:81-95 | runs load-or-train even when trained and reports success with "Risk model trained/loaded" and "RandomForestClassifier"; reloading the artifact that holds the current model changes nothing |

## Left out

- The scikit-learn estimators are opaque. Fitting, `predict_proba`, `predict`, `decision_function` and `feature_importances_` are function fields or values of the estimator datatypes. The estimators' own input validation is not modelled, except that the isolation forest rejects an empty batch. That leaves out non-finite values, column checks inside `predict_batch`, and an empty batch given to the risk or churn estimators.
- The synthetic data and the fitting on it are not modelled (risk_model.py:62-94, anomaly_model.py:32-60, churn_model.py:32-59). The seed is fixed, so their result is a constant of each wrapper (`synthetic`). A failure while training is not modelled either.
- joblib and the file system are replaced by the `Store` object. There is one store per wrapper kind, so an artifact of the wrong estimator kind is not modelled. A stored risk artifact is assumed to be a forest on the eight features.
- Risk.Round2: rounds half up on exact reals. Python's `round` on binary doubles can round a tie the other way. The proofs use only its monotonicity.
- Recommendations.GenerateRecommendations: takes `np.exp(f1)` as an input, a finite real or infinity, because `np.exp` is floating-point library code. Which f1 overflow (those above about 709.78) is not modelled.
- Service.PredictRisk: a NaN f1, which would make `int` raise a `ValueError`, is not modelled, since all feature values are exact reals.
- All scores are exact reals, so floating-point rounding in the division by the range plus 1e-10 is not modelled.
- `get_feature_importance` takes row 0 of a 2-D array. The model passes that row directly as `values`.
- The unused `StandardScaler` field is left out.
- The web layer is left out: routing, pydantic validation and the defaults of `FileFeatures` (absent fields are 0 before the model sees them), the root and health endpoints, uvicorn start-up, and `print` logging.
- The async handlers share module-level wrappers without coordination. The model runs each request to completion and has no concurrency.
- The endpoints always build arrays of the width the wrappers check, and a non-empty anomaly batch. So in the model the only 500 response is the risk endpoint's overflow of `exp(f1)`. Other 500s come from estimator or library failures, which are outside the model.
