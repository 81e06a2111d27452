/** `services/prefect/flows/ml_monitoring_flow.py`: the monitoring flow's four tasks
    (API health, simulated drift check, data quality, sample predictions) and the
    workflow that turns their results into an ordered list of alerts. */
module MlMonitoringFlow {
  import opened Common

  const DriftThreshold: real := 0.7
  const QualityThreshold: real := 0.85

  /** The health GET: a status code and whether the body parsed as JSON, or a raise. */
  datatype HealthAnswer = Answer(code: int, jsonBody: bool) | Raised

  /** `check_api_health`: the body is parsed before the status is looked at, so a
      200 answer whose body is not JSON is still "unhealthy". */
  function CheckApiHealth(a: HealthAnswer): (status: string)
    ensures status == "healthy" || status == "unhealthy"
    ensures status == "healthy" <==> a.Answer? && a.jsonBody && a.code == 200
  {
    match a
    case Answer(code, jsonBody) => if !jsonBody then "unhealthy" else if code == 200 then "healthy" else "unhealthy"
    case Raised => "unhealthy"
  }

  datatype DriftResult = DriftResult(driftScore: real, threshold: real, hasDrift: bool, status: string)

  /** `simulate_model_drift_check` on a sampled score. */
  function SimulateModelDriftCheck(score: real): (r: DriftResult)
    ensures r.driftScore == score && r.threshold == 0.7
    ensures r.hasDrift <==> score > 0.7
    ensures r.status == (if score > 0.7 then "drift_detected" else "stable")
  {
    var hasDrift := score > DriftThreshold;
    DriftResult(score, DriftThreshold, hasDrift, if hasDrift then "drift_detected" else "stable")
  }

  datatype QualityMetrics = QualityMetrics(completeness: real, accuracy: real, consistency: real, timeliness: real)

  datatype QualityResult = QualityResult(metrics: QualityMetrics, overallScore: real, isGood: bool, status: string)

  function MetricSum(m: QualityMetrics): real
  {
    m.completeness + m.accuracy + m.consistency + m.timeliness
  }

  /** `check_data_quality` on sampled metrics: the mean of the four values against 0.85
      (non-strict). */
  function CheckDataQuality(m: QualityMetrics): (r: QualityResult)
    ensures r.metrics == m
    ensures r.overallScore * 4.0 == MetricSum(m)
    ensures r.isGood <==> MetricSum(m) >= 3.4
    ensures r.status == (if r.isGood then "good" else "poor")
  {
    var score := MetricSum(m) / 4.0;
    var good := score >= QualityThreshold;
    QualityResult(m, score, good, if good then "good" else "poor")
  }

  /** The login POST: its status code and the `access_token` field when present. */
  datatype LoginAnswer = Login(code: int, token: Option<string>) | LoginRaised

  /** One predict POST: status code and the `prediction` / `confidence` fields when
      present, or a raise. */
  datatype PredictAnswer = Predict(code: int, prediction: Option<int>, confidence: Option<real>) | PredictRaised

  datatype Prediction = Prediction(prediction: int, confidence: real)

  datatype PredictionResult = PredictionResult(predictionsCount: nat, predictions: seq<Prediction>, status: string)

  /** An answer that makes the task raise: a raised post, or a 200 without `prediction`. */
  predicate Fails(a: PredictAnswer)
  {
    a.PredictRaised? || (a.code == 200 && a.prediction.None?)
  }

  /** The predictions recorded from a run of answers none of which fails: one per 200,
      with confidence 0.5 when the field is missing. */
  function Recorded(answers: seq<PredictAnswer>): (r: seq<Prediction>)
    requires forall i :: 0 <= i < |answers| ==> !Fails(answers[i])
    ensures |r| <= |answers|
    decreases |answers|
  {
    if answers == [] then []
    else
      var last := answers[|answers| - 1];
      assert !Fails(last);
      var init := Recorded(answers[..|answers| - 1]);
      if last.code == 200 then
        init + [Prediction(last.prediction.value, if last.confidence.Some? then last.confidence.value else 0.5)]
      else init
  }

  /** `generate_ml_predictions`: log in, then five predict calls. */
  method GenerateMlPredictions(login: LoginAnswer, answers: seq<PredictAnswer>) returns (r: PredictionResult)
    requires |answers| == 5
    ensures r.status == "success" || r.status == "failed"
    ensures r.status == "success" <==>
      login.Login? && login.code == 200 && login.token.Some? && forall i :: 0 <= i < 5 ==> !Fails(answers[i])
    ensures r.status == "success" ==> r.predictions == Recorded(answers)
    ensures r.predictionsCount == |r.predictions| <= 5
    ensures r.status == "failed" ==> r.predictionsCount == 0
  {
    if !(login.Login? && login.code == 200 && login.token.Some?) {
      return PredictionResult(0, [], "failed");
    }
    var predictions: seq<Prediction> := [];
    var i := 0;
    while i < 5
      invariant 0 <= i <= 5
      invariant forall k :: 0 <= k < i ==> !Fails(answers[k])
      invariant predictions == Recorded(answers[..i])
    {
      var a := answers[i];
      if Fails(a) {
        return PredictionResult(0, [], "failed");
      }
      assert answers[..i + 1][..i] == answers[..i];
      if a.code == 200 {
        var c := if a.confidence.Some? then a.confidence.value else 0.5;
        predictions := predictions + [Prediction(a.prediction.value, c)];
      }
      i := i + 1;
    }
    assert answers[..5] == answers;
    r := PredictionResult(|predictions|, predictions, "success");
  }

  datatype Alert = Alert(kind: string, severity: string)

  const ApiAlert := Alert("api_health", "critical")
  const DriftAlert := Alert("model_drift", "warning")
  const QualityAlert := Alert("data_quality", "warning")

  datatype Summary = Summary(alerts: seq<Alert>, alertsCount: nat, notified: seq<Alert>, status: string)

  /** The alerts the workflow raises, in the order it checks them. */
  function ExpectedAlerts(apiStatus: string, drift: DriftResult, quality: QualityResult): seq<Alert>
  {
    (if apiStatus == "unhealthy" then [ApiAlert] else [])
      + (if drift.hasDrift then [DriftAlert] else [])
      + (if !quality.isGood then [QualityAlert] else [])
  }

  /** `ml_monitoring_workflow` given the task results: three conditional appends, then
      one notification per alert. The prediction task's result does not affect it. */
  method MlMonitoringWorkflow(apiStatus: string, drift: DriftResult, quality: QualityResult) returns (s: Summary)
    ensures s.alerts == ExpectedAlerts(apiStatus, drift, quality)
    ensures s.alertsCount == |s.alerts|
    ensures s.notified == s.alerts
    ensures s.status == (if s.alerts == [] then "healthy" else "alerts_present")
  {
    ghost var a := if apiStatus == "unhealthy" then [ApiAlert] else [];
    ghost var d := if drift.hasDrift then [DriftAlert] else [];
    ghost var q := if !quality.isGood then [QualityAlert] else [];
    var alerts: seq<Alert> := [];
    if apiStatus == "unhealthy" {
      alerts := alerts + [ApiAlert];
    }
    assert alerts == a;
    if drift.hasDrift {
      alerts := alerts + [DriftAlert];
    }
    assert alerts == a + d;
    if !quality.isGood {
      alerts := alerts + [QualityAlert];
    }
    assert alerts == a + d + q;
    var notified: seq<Alert> := [];
    for i := 0 to |alerts|
      invariant notified == alerts[..i]
    {
      notified := notified + [alerts[i]];
    }
    assert alerts[..|alerts|] == alerts;
    s := Summary(alerts, |alerts|, notified, if alerts == [] then "healthy" else "alerts_present");
  }

  /** Each alert is present exactly when its condition holds, there are at most three,
      and they keep the order api_health, model_drift, data_quality. */
  lemma AlertsMeaning(apiStatus: string, drift: DriftResult, quality: QualityResult)
    ensures ApiAlert in ExpectedAlerts(apiStatus, drift, quality) <==> apiStatus == "unhealthy"
    ensures DriftAlert in ExpectedAlerts(apiStatus, drift, quality) <==> drift.hasDrift
    ensures QualityAlert in ExpectedAlerts(apiStatus, drift, quality) <==> !quality.isGood
    ensures |ExpectedAlerts(apiStatus, drift, quality)| <= 3
    ensures ExpectedAlerts(apiStatus, drift, quality) == [] <==>
      apiStatus != "unhealthy" && !drift.hasDrift && quality.isGood
    ensures forall i, j :: 0 <= i < j < |ExpectedAlerts(apiStatus, drift, quality)| ==>
      Rank(ExpectedAlerts(apiStatus, drift, quality)[i]) < Rank(ExpectedAlerts(apiStatus, drift, quality)[j])
  {
    var a := if apiStatus == "unhealthy" then [ApiAlert] else [];
    var d := if drift.hasDrift then [DriftAlert] else [];
    var q := if !quality.isGood then [QualityAlert] else [];
    var all := ExpectedAlerts(apiStatus, drift, quality);
    assert all == a + d + q;
    assert forall k :: 0 <= k < |all| ==> all[k] in a + d + q;
  }

  /** The position of each alert kind in the workflow's order of checks. */
  function Rank(a: Alert): nat
  {
    if a == ApiAlert then 0 else if a == DriftAlert then 1 else 2
  }

  /** The whole flow from the raw inputs: a drifting score alone gives exactly one
      warning alert when the API and the data are fine. */
  lemma DriftOnlyAlert(score: real, m: QualityMetrics)
    requires score > 0.7 && MetricSum(m) >= 3.4
    ensures ExpectedAlerts(CheckApiHealth(Answer(200, true)), SimulateModelDriftCheck(score), CheckDataQuality(m)) == [DriftAlert]
  {
  }
}
