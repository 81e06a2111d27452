/** `services/prefect/flows/ml_automation_flow.py`: the automation pipeline — system
    health, hybrid drift detection (a random draw combined with the confidence of three
    test predictions), and retraining started by drift. */
module MlAutomationFlow {
  import opened Common

  const Colours: map<string, int> :=
    map["Succès" := 5814783, "Échec" := 15158332, "Avertissement" := 16776960, "Info" := 3447003, "Drift" := 16753920]

  /** The embed colour for a status, blue for any status outside the map. */
  function Colour(status: string): (c: int)
    ensures status == "Drift" ==> c == 16753920
    ensures status in Colours ==> c == Colours[status]
    ensures status !in Colours ==> c == 3447003
  {
    if status in Colours then Colours[status] else 3447003
  }

  /** `send_discord_notification`: False without a webhook, else True iff 204. */
  function SendDiscordNotification(webhook: Option<string>, post: Post): (r: SendResult)
    ensures !Truthy(webhook) ==> !r.posted && !r.ok
    ensures r.ok <==> Truthy(webhook) && post == Answered(204)
  {
    WebhookSend(webhook, post)
  }

  /** A GET whose body is not read: a status code or a raise. */
  datatype Answer = Status(code: int) | Raised

  /** `check_api_health` (also the per-service test of `monitor_system_health`). */
  function Healthy(a: Answer): (ok: bool)
    ensures ok <==> a == Status(200)
  {
    a.Status? && a.code == 200
  }

  /** The login POST: status code and the `access_token` field if the body has one. */
  datatype LoginAnswer = Login(code: int, token: Option<string>) | LoginRaised

  /** `authenticate_api`: the token on a 200 carrying one; None otherwise (a missing
      field raises inside the try and is caught). */
  function AuthenticateApi(a: LoginAnswer): (t: Option<string>)
    ensures t.Some? <==> a.Login? && a.code == 200 && a.token.Some?
    ensures t.Some? ==> t == a.token
  {
    match a
    case Login(code, token) => if code == 200 then token else None
    case LoginRaised => None
  }

  /** The GET of model/info: status code and whether its body parsed. */
  datatype InfoAnswer = Info(code: int, jsonBody: bool) | InfoRaised

  /** One test prediction: status code, whether the body parsed, and its `confidence`
      field when present. */
  datatype PredictAnswer = Predict(code: int, jsonBody: bool, confidence: Option<real>) | PredictRaised

  datatype DriftInfo = DriftInfo(driftDetected: bool, detectionMethod: string, avgConfidence: Option<real>)

  /** A prediction answer that raises inside the detection's try block. */
  predicate PredictRaises(a: PredictAnswer)
  {
    a.PredictRaised? || (a.code == 200 && !a.jsonBody)
  }

  predicate InfoRaises(a: InfoAnswer)
  {
    a.InfoRaised? || (a.code == 200 && !a.jsonBody)
  }

  /** The confidences collected from answers that do not raise: one per 200 answer
      that has the field. */
  function Confidences(answers: seq<PredictAnswer>): seq<real>
    decreases |answers|
  {
    if answers == [] then []
    else
      var last := answers[|answers| - 1];
      Confidences(answers[..|answers| - 1])
        + (if last.Predict? && last.code == 200 && last.confidence.Some? then [last.confidence.value] else [])
  }

  /** The verdict `detect_model_drift` reaches: no drift without a token, the random
      draw alone when a request raises, otherwise the hybrid rule on the mean confidence. */
  function DriftOf(randomValue: real, login: LoginAnswer, info: InfoAnswer, answers: seq<PredictAnswer>): DriftInfo
    requires |answers| == 3
  {
    if !Truthy(AuthenticateApi(login)) then DriftInfo(false, "auth_failed", None)
    else if InfoRaises(info) || PredictRaises(answers[0]) || PredictRaises(answers[1]) || PredictRaises(answers[2]) then
      DriftInfo(randomValue < 0.5, "random_fallback", None)
    else
      var avg := MeanOr(Confidences(answers), 0.5);
      DriftInfo(randomValue < 0.5 || avg < 0.7, "hybrid", Some(avg))
  }

  /** `detect_model_drift`. The random value is drawn before authenticating. */
  method DetectModelDrift(randomValue: real, login: LoginAnswer, info: InfoAnswer, answers: seq<PredictAnswer>)
    returns (d: DriftInfo)
    requires |answers| == 3
    ensures d == DriftOf(randomValue, login, info, answers)
    ensures !Truthy(AuthenticateApi(login)) ==> d == DriftInfo(false, "auth_failed", None)
    ensures Truthy(AuthenticateApi(login)) && (InfoRaises(info) || exists i :: 0 <= i < 3 && PredictRaises(answers[i])) ==>
      d == DriftInfo(randomValue < 0.5, "random_fallback", None)
    ensures Truthy(AuthenticateApi(login)) && !InfoRaises(info) && (forall i :: 0 <= i < 3 ==> !PredictRaises(answers[i])) ==>
      var avg := MeanOr(Confidences(answers), 0.5);
      d == DriftInfo(randomValue < 0.5 || avg < 0.7, "hybrid", Some(avg))
  {
    var token := AuthenticateApi(login);
    if !Truthy(token) {
      return DriftInfo(false, "auth_failed", None);
    }
    if InfoRaises(info) {
      return DriftInfo(randomValue < 0.5, "random_fallback", None);
    }
    var confidences: seq<real> := [];
    var i := 0;
    while i < 3
      invariant 0 <= i <= 3
      invariant forall k :: 0 <= k < i ==> !PredictRaises(answers[k])
      invariant confidences == Confidences(answers[..i])
    {
      var a := answers[i];
      if PredictRaises(a) {
        return DriftInfo(randomValue < 0.5, "random_fallback", None);
      }
      assert answers[..i + 1][..i] == answers[..i];
      if a.Predict? && a.code == 200 && a.confidence.Some? {
        confidences := confidences + [a.confidence.value];
      }
      i := i + 1;
    }
    assert answers[..3] == answers;
    var avg := MeanOr(confidences, 0.5);
    d := DriftInfo(randomValue < 0.5 || avg < 0.7, "hybrid", Some(avg));
  }

  /** When none of the test predictions carries a confidence, the 0.5 default is below
      0.7, so the hybrid method always reports drift. */
  lemma NoConfidenceMeansDrift(randomValue: real, login: LoginAnswer, info: InfoAnswer, answers: seq<PredictAnswer>)
    requires |answers| == 3 && Truthy(AuthenticateApi(login)) && !InfoRaises(info)
    requires forall i :: 0 <= i < 3 ==> !PredictRaises(answers[i])
    requires Confidences(answers) == []
    ensures DriftOf(randomValue, login, info, answers).driftDetected
    ensures DriftOf(randomValue, login, info, answers) == DriftInfo(true, "hybrid", Some(0.5))
  {
  }

  /** The generate POST of the retraining: status code, whether the body parsed, and its
      `samples_created` field when present. */
  datatype GenerateAnswer = Generate(code: int, jsonBody: bool, samplesCreated: Option<int>) | GenerateRaised

  datatype Retraining =
    | Skipped
    | AuthenticationFailed
    | RetrainFailed(httpCode: Option<int>)
    | Retrained(accuracy: real, trainingSamples: int)

  function RetrainStatus(r: Retraining): string
  {
    match r
    case Skipped => "skipped"
    case AuthenticationFailed => "failed"
    case RetrainFailed(_) => "failed"
    case Retrained(_, _) => "success"
  }

  /** `automated_model_retraining`, with the notifications it sends. `randomValue` is
      the draw that sets the simulated accuracy. */
  function AutomatedModelRetraining(drift: DriftInfo, login: LoginAnswer, gen: GenerateAnswer, randomValue: real)
    : (r: (Retraining, seq<string>))
    ensures RetrainStatus(r.0) == "skipped" <==> !drift.driftDetected
    ensures drift.driftDetected && !Truthy(AuthenticateApi(login)) ==> r == (AuthenticationFailed, [])
    ensures drift.driftDetected && Truthy(AuthenticateApi(login)) && gen.Generate? && gen.code != 200 ==>
      r == (RetrainFailed(Some(gen.code)), ["Échec"])
    ensures r.0.RetrainFailed? ==> r.1 == ["Échec"]
    ensures r.0.Retrained? <==>
      drift.driftDetected && Truthy(AuthenticateApi(login)) && gen.Generate? && gen.code == 200 && gen.jsonBody && gen.samplesCreated.Some?
    ensures r.0.Retrained? ==> r.1 == ["Succès"] && r.0.trainingSamples == gen.samplesCreated.value
    ensures r.0.Retrained? && 0.0 <= randomValue < 1.0 ==> 0.85 <= r.0.accuracy < 0.95
  {
    if !drift.driftDetected then (Skipped, [])
    else if !Truthy(AuthenticateApi(login)) then (AuthenticationFailed, [])
    else
      match gen
      case GenerateRaised => (RetrainFailed(None), ["Échec"])
      case Generate(code, jsonBody, samples) =>
        if code != 200 then (RetrainFailed(Some(code)), ["Échec"])
        else if !jsonBody || samples.None? then (RetrainFailed(None), ["Échec"])
        else (Retrained(0.85 + randomValue * 0.1, samples.value), ["Succès"])
  }

  datatype SystemHealth = SystemHealth(api: bool, mlflow: bool)

  /** `monitor_system_health`: both services are probed, and one warning is sent iff
      either is down. */
  function MonitorSystemHealth(api: Answer, mlflow: Answer): (r: (SystemHealth, seq<string>))
    ensures r.0.api <==> api == Status(200)
    ensures r.0.mlflow <==> mlflow == Status(200)
    ensures r.1 == (if r.0.api && r.0.mlflow then [] else ["Avertissement"])
  {
    var h := SystemHealth(Healthy(api), Healthy(mlflow));
    (h, if h.api && h.mlflow then [] else ["Avertissement"])
  }

  /** Everything one pipeline run reads from the outside world. */
  datatype PipelineInputs = PipelineInputs(
    api: Answer, mlflow: Answer,
    randomValue: real, detectLogin: LoginAnswer, info: InfoAnswer, predictions: seq<PredictAnswer>,
    retrainLogin: LoginAnswer, gen: GenerateAnswer, accuracyDraw: real)

  datatype PipelineResult =
    | Aborted
    | CompletedWithRetraining(drift: DriftInfo, retraining: Retraining)
    | CompletedNoAction(drift: DriftInfo)

  function PipelineStatus(r: PipelineResult): string
  {
    match r
    case Aborted => "aborted"
    case CompletedWithRetraining(_, _) => "completed_with_retraining"
    case CompletedNoAction(_) => "completed_no_action"
  }

  /** `ml_automation_pipeline`: abort on an unhealthy API before drift detection; retrain
      on drift; otherwise send one "Info" update. `sent` lists the notifications in order. */
  method MlAutomationPipeline(x: PipelineInputs) returns (r: PipelineResult, sent: seq<string>)
    requires |x.predictions| == 3
    ensures r.Aborted? <==> x.api != Status(200)
    ensures r.Aborted? ==> sent == MonitorSystemHealth(x.api, x.mlflow).1
    ensures r.CompletedWithRetraining? ==>
      r.drift.driftDetected
      && r.retraining == AutomatedModelRetraining(r.drift, x.retrainLogin, x.gen, x.accuracyDraw).0
      && sent == MonitorSystemHealth(x.api, x.mlflow).1 + AutomatedModelRetraining(r.drift, x.retrainLogin, x.gen, x.accuracyDraw).1
    ensures r.CompletedNoAction? ==>
      !r.drift.driftDetected && sent == MonitorSystemHealth(x.api, x.mlflow).1 + ["Info"]
    ensures !r.Aborted? ==> r.drift == DriftOf(x.randomValue, x.detectLogin, x.info, x.predictions)
    ensures !r.Aborted? ==> (r.CompletedWithRetraining? <==> DriftOf(x.randomValue, x.detectLogin, x.info, x.predictions).driftDetected)
    ensures !r.Aborted? && !Truthy(AuthenticateApi(x.detectLogin)) ==> r == CompletedNoAction(DriftInfo(false, "auth_failed", None))
  {
    var (health, alerts) := MonitorSystemHealth(x.api, x.mlflow);
    sent := alerts;
    if !health.api {
      return Aborted, sent;
    }
    var drift := DetectModelDrift(x.randomValue, x.detectLogin, x.info, x.predictions);
    if drift.driftDetected {
      var (retraining, notes) := AutomatedModelRetraining(drift, x.retrainLogin, x.gen, x.accuracyDraw);
      r := CompletedWithRetraining(drift, retraining);
      sent := sent + notes;
    } else {
      r := CompletedNoAction(drift);
      sent := sent + ["Info"];
    }
  }
}
