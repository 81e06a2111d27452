/** `services/prefect/flows/data_generation_flow.py`: authenticate, generate a batch of
    training data, validate it with simulated checks, run sample predictions, summarise
    them, and roll the four stage statuses into an overall status. */
module DataGenerationFlow {
  import opened Common

  /** The login POST: status code and the `access_token` field if present. */
  datatype LoginAnswer = Login(code: int, token: Option<string>) | LoginRaised

  /** `authenticate_api`: the token, or None where the task re-raises (and so the whole
      flow fails). */
  function AuthenticateApi(a: LoginAnswer): (t: Option<string>)
    ensures t.Some? <==> a.Login? && a.code == 200 && a.token.Some?
    ensures t.Some? ==> t == a.token
  {
    if a.Login? && a.code == 200 then a.token else None
  }

  /** The generate POST: status code, whether the body parsed, its `samples_generated`. */
  datatype GenerateAnswer = Generate(code: int, jsonBody: bool, samplesGenerated: Option<int>) | GenerateRaised

  datatype Generation = GenerationSuccess(samplesGenerated: int, generationId: int) | GenerationFailed

  /** `generate_training_data`; `generationId` is the `randint(10000, 99999)` draw. A
      missing `samples_generated` field reads as 0. */
  function GenerateTrainingData(a: GenerateAnswer, generationId: int): (g: Generation)
    ensures g.GenerationSuccess? <==> a.Generate? && a.code == 200 && a.jsonBody
    ensures g.GenerationSuccess? ==> g.generationId == generationId
    ensures g.GenerationSuccess? ==> g.samplesGenerated == (if a.samplesGenerated.Some? then a.samplesGenerated.value else 0)
  {
    match a
    case GenerateRaised => GenerationFailed
    case Generate(code, jsonBody, samples) =>
      if code == 200 && jsonBody then GenerationSuccess(if samples.Some? then samples.value else 0, generationId)
      else GenerationFailed
  }

  datatype Checks = Checks(sampleCountValid: bool, dataFormatValid: bool, noDuplicates: bool,
                           featureDistributionValid: bool, targetBalanceValid: bool)

  predicate AllPassed(c: Checks)
  {
    c.sampleCountValid && c.dataFormatValid && c.noDuplicates && c.featureDistributionValid && c.targetBalanceValid
  }

  datatype Validation = GenerationFailedValidation | Validated(checks: Checks, passed: bool, samplesValidated: int)

  function ValidationStatus(v: Validation): string
  {
    if v.Validated? && v.passed then "passed" else "failed"
  }

  /** `validate_generated_data`. `noDuplicates` and `featureDistribution` are the two
      `random.choice` draws, `balance` the `uniform(0.4, 0.6)` draw. */
  function ValidateGeneratedData(g: Generation, noDuplicates: bool, featureDistribution: bool, balance: real)
    : (v: Validation)
    ensures g.GenerationFailed? <==> v.GenerationFailedValidation?
    ensures v.Validated? ==> v.checks.sampleCountValid == (g.samplesGenerated > 0)
    ensures v.Validated? ==> v.checks.dataFormatValid
    ensures v.Validated? ==> v.checks.targetBalanceValid == (balance < 0.55)
    ensures v.Validated? ==> (v.passed <==> AllPassed(v.checks)) && v.samplesValidated == g.samplesGenerated
    ensures ValidationStatus(v) == "passed" <==>
      g.GenerationSuccess? && g.samplesGenerated > 0 && noDuplicates && featureDistribution && balance < 0.55
  {
    match g
    case GenerationFailed => GenerationFailedValidation
    case GenerationSuccess(samples, _) =>
      var checks := Checks(samples > 0, true, noDuplicates, featureDistribution, balance < 0.55);
      Validated(checks, AllPassed(checks), samples)
  }

  /** A generate answer without `samples_generated` is recorded as 0 samples, so it
      never validates. */
  lemma MissingSampleCountFailsValidation(generationId: int, noDuplicates: bool, featureDistribution: bool, balance: real)
    ensures ValidationStatus(ValidateGeneratedData(GenerateTrainingData(Generate(200, true, None), generationId),
                                                   noDuplicates, featureDistribution, balance)) == "failed"
  {
  }

  /** One predict POST: status code, whether the body parsed, and its `prediction` and
      `confidence` fields when present; or a raise. */
  datatype PredictAnswer = Predict(code: int, jsonBody: bool, prediction: Option<int>, confidence: Option<real>) | PredictRaised

  datatype Prediction = Prediction(prediction: int, confidence: real)

  datatype Predictions = PredictionsFailed | PredictionsSuccess(predictions: seq<Prediction>, successRate: real)

  /** An answer that makes the task raise. */
  predicate Fails(a: PredictAnswer)
  {
    a.PredictRaised? || (a.code == 200 && (!a.jsonBody || a.prediction.None?))
  }

  /** The predictions recorded from answers none of which fails. */
  function Recorded(answers: seq<PredictAnswer>): (r: seq<Prediction>)
    requires forall i :: 0 <= i < |answers| ==> !Fails(answers[i])
    ensures |r| <= |answers|
    decreases |answers|
  {
    if answers == [] then []
    else
      var last := answers[|answers| - 1];
      assert !Fails(last);
      Recorded(answers[..|answers| - 1])
        + (if last.code == 200 then [Prediction(last.prediction.value, if last.confidence.Some? then last.confidence.value else 0.5)] else [])
  }

  /** The loop of `run_model_predictions`: None as soon as an answer raises. */
  method CollectPredictions(answers: seq<PredictAnswer>) returns (r: Option<seq<Prediction>>)
    ensures r.Some? <==> forall i :: 0 <= i < |answers| ==> !Fails(answers[i])
    ensures r.Some? ==> r.value == Recorded(answers)
  {
    var predictions: seq<Prediction> := [];
    var i := 0;
    while i < |answers|
      invariant 0 <= i <= |answers|
      invariant forall k :: 0 <= k < i ==> !Fails(answers[k])
      invariant predictions == Recorded(answers[..i])
    {
      var a := answers[i];
      if Fails(a) {
        return None;
      }
      assert answers[..i + 1][..i] == answers[..i];
      if a.code == 200 {
        predictions := predictions + [Prediction(a.prediction.value, if a.confidence.Some? then a.confidence.value else 0.5)];
      }
      i := i + 1;
    }
    assert answers[..i] == answers;
    r := Some(predictions);
  }

  /** The outcome of `run_model_predictions`: a failure when an answer raises or the
      count is zero, otherwise the recorded predictions and their share of `num`. */
  function PredictionsOf(num: int, answers: seq<PredictAnswer>): Predictions
  {
    if num != 0 && forall i :: 0 <= i < |answers| ==> !Fails(answers[i]) then
      PredictionsSuccess(Recorded(answers), (|Recorded(answers)| as real) / (num as real))
    else PredictionsFailed
  }

  /** No prediction is recorded exactly when no answer is a 200. */
  lemma {:induction false} RecordedEmpty(answers: seq<PredictAnswer>)
    requires forall i :: 0 <= i < |answers| ==> !Fails(answers[i])
    ensures Recorded(answers) == [] <==> forall i :: 0 <= i < |answers| ==> answers[i].code != 200
    decreases |answers|
  {
    if answers != [] {
      var init := answers[..|answers| - 1];
      assert forall i :: 0 <= i < |init| ==> init[i] == answers[i];
      RecordedEmpty(init);
    }
  }

  /** `run_model_predictions(token, num)`: `answers` holds one answer per requested
      prediction. A zero count raises ZeroDivisionError at the rate, so it fails. */
  method RunModelPredictions(num: int, answers: seq<PredictAnswer>) returns (p: Predictions)
    requires |answers| == Max(num, 0)
    ensures p == PredictionsOf(num, answers)
    ensures p.PredictionsSuccess? <==> num != 0 && forall i :: 0 <= i < |answers| ==> !Fails(answers[i])
    ensures p.PredictionsSuccess? ==> p.predictions == Recorded(answers)
    ensures p.PredictionsSuccess? ==> p.successRate * (num as real) == |p.predictions| as real
    ensures p.PredictionsSuccess? && num > 0 ==> 0.0 <= p.successRate <= 1.0
  {
    var collected := CollectPredictions(answers);
    if collected.None? || num == 0 {
      return PredictionsFailed;
    }
    var predictions := collected.value;
    RateFacts(|predictions|, num);
    p := PredictionsSuccess(predictions, (|predictions| as real) / (num as real));
  }

  /** `made / num` times `num` gives `made` back, and it is at most 1 when at most
      `num` predictions were made. */
  lemma RateFacts(made: nat, num: int)
    requires num != 0
    ensures ((made as real) / (num as real)) * (num as real) == made as real
    ensures num > 0 && made <= num ==> 0.0 <= (made as real) / (num as real) <= 1.0
  {
    if num > 0 && made <= num {
      assert (made as real) / (num as real) <= (num as real) / (num as real);
    }
  }

  function MinOf(s: seq<real>): (m: real)
    requires s != []
    ensures m in s && forall i :: 0 <= i < |s| ==> m <= s[i]
    decreases |s|
  {
    if |s| == 1 then s[0]
    else
      var m := MinOf(s[..|s| - 1]);
      assert forall i :: 0 <= i < |s| - 1 ==> s[..|s| - 1][i] == s[i];
      if s[|s| - 1] < m then s[|s| - 1] else m
  }

  function MaxOf(s: seq<real>): (m: real)
    requires s != []
    ensures m in s && forall i :: 0 <= i < |s| ==> s[i] <= m
    decreases |s|
  {
    if |s| == 1 then s[0]
    else
      var m := MaxOf(s[..|s| - 1]);
      assert forall i :: 0 <= i < |s| - 1 ==> s[..|s| - 1][i] == s[i];
      if s[|s| - 1] > m then s[|s| - 1] else m
  }

  datatype Metrics = Metrics(totalPredictions: nat, averageConfidence: real, minConfidence: real,
                             maxConfidence: real, classDistribution: seq<(int, nat)>)

  datatype MetricsResult = PredictionsFailedMetrics | NoPredictions | MetricsSuccess(metrics: Metrics)

  /** The confidence of each prediction, in order. */
  function ConfidencesOf(ps: seq<Prediction>): (c: seq<real>)
    ensures |c| == |ps| && forall i :: 0 <= i < |ps| ==> c[i] == ps[i].confidence
  {
    seq(|ps|, i requires 0 <= i < |ps| => ps[i].confidence)
  }

  /** The result `calculate_performance_metrics` returns for a prediction outcome. */
  function MetricsOf(p: Predictions): MetricsResult
  {
    if p.PredictionsFailed? then PredictionsFailedMetrics
    else if p.predictions == [] then NoPredictions
    else
      var cs := ConfidencesOf(p.predictions);
      MetricsSuccess(Metrics(|p.predictions|, SumReals(cs) / (|cs| as real), MinOf(cs), MaxOf(cs),
                             Tally(Classes(p.predictions))))
  }

  /** `calculate_performance_metrics`: confidences summarised, and classes counted into
      an insertion-ordered dict. */
  method CalculatePerformanceMetrics(p: Predictions) returns (r: MetricsResult)
    ensures r == MetricsOf(p)
  {
    if p.PredictionsFailed? {
      return PredictionsFailedMetrics;
    }
    var predictions := p.predictions;
    if predictions == [] {
      return NoPredictions;
    }
    var confidences := ConfidencesOf(predictions);
    var avg := SumReals(confidences) / (|confidences| as real);
    var lo, hi := MinOf(confidences), MaxOf(confidences);
    var classCounts := CountClasses(predictions);
    r := MetricsSuccess(Metrics(|predictions|, avg, lo, hi, classCounts));
  }

  /** What the metrics mean: a failure or an empty list passes through as its own
      reason; otherwise the average is the mean of the confidences, the minimum and the
      maximum are confidences that bound all of them, and the class distribution holds
      each predicted class once with its number of occurrences. */
  lemma MetricsMeaning(p: Predictions)
    ensures p.PredictionsFailed? <==> MetricsOf(p).PredictionsFailedMetrics?
    ensures p.PredictionsSuccess? && p.predictions == [] <==> MetricsOf(p).NoPredictions?
    ensures MetricsOf(p).MetricsSuccess? ==>
      var m := MetricsOf(p).metrics;
      var cs := ConfidencesOf(p.predictions);
      && p.PredictionsSuccess? && m.totalPredictions == |p.predictions|
      && m.averageConfidence == SumReals(cs) / (|cs| as real)
      && m.minConfidence in cs && (forall i :: 0 <= i < |cs| ==> m.minConfidence <= cs[i])
      && m.maxConfidence in cs && (forall i :: 0 <= i < |cs| ==> cs[i] <= m.maxConfidence)
      && m.minConfidence <= m.averageConfidence <= m.maxConfidence
      && SumCounts(m.classDistribution) == m.totalPredictions
      && DistinctKeys(m.classDistribution)
      && forall i :: 0 <= i < |m.classDistribution| ==>
           m.classDistribution[i].1 == Count(Classes(p.predictions), m.classDistribution[i].0)
  {
    if MetricsOf(p).MetricsSuccess? {
      MeanWithinExtremes(ConfidencesOf(p.predictions));
      TallySum(Classes(p.predictions));
      TallyCounts(Classes(p.predictions));
    }
  }

  /** The mean of a non-empty list lies between its minimum and its maximum. */
  lemma MeanWithinExtremes(cs: seq<real>)
    requires cs != []
    ensures MinOf(cs) <= SumReals(cs) / (|cs| as real) <= MaxOf(cs)
  {
    MeanBounds(cs, MinOf(cs), MaxOf(cs));
  }

  /** The loop of `calculate_performance_metrics` that fills `class_counts`. */
  method CountClasses(predictions: seq<Prediction>) returns (classCounts: seq<(int, nat)>)
    ensures classCounts == Tally(Classes(predictions))
  {
    classCounts := [];
    var i := 0;
    while i < |predictions|
      invariant 0 <= i <= |predictions|
      invariant classCounts == Tally(Classes(predictions[..i]))
    {
      var c := Classes(predictions[..i + 1]);
      assert c[..|c| - 1] == Classes(predictions[..i]);
      assert c[|c| - 1] == predictions[i].prediction;
      classCounts := Bump(classCounts, predictions[i].prediction);
      i := i + 1;
    }
    assert predictions[..i] == predictions;
  }

  /** The predicted class of each prediction, in order. */
  function Classes(ps: seq<Prediction>): (c: seq<int>)
    ensures |c| == |ps| && forall i :: 0 <= i < |ps| ==> c[i] == ps[i].prediction
  {
    seq(|ps|, i requires 0 <= i < |ps| => ps[i].prediction)
  }

  function MetricsStatus(m: MetricsResult): string
  {
    if m.MetricsSuccess? then "success" else "failed"
  }

  /** The workflow's `overall_status`. */
  function OverallStatus(g: Generation, v: Validation, p: Predictions, m: MetricsResult): (s: string)
    ensures s == "success" || s == "partial_success"
    ensures s == "success" <==>
      g.GenerationSuccess? && ValidationStatus(v) == "passed" && p.PredictionsSuccess? && MetricsStatus(m) == "success"
  {
    if g.GenerationSuccess? && ValidationStatus(v) == "passed" && p.PredictionsSuccess? && MetricsStatus(m) == "success"
    then "success" else "partial_success"
  }

  datatype WorkflowInputs = WorkflowInputs(
    login: LoginAnswer, gen: GenerateAnswer, generationId: int,
    noDuplicates: bool, featureDistribution: bool, balance: real,
    predictions: seq<PredictAnswer>)

  datatype Summary = Summary(generation: Generation, validation: Validation, predictions: Predictions,
                             metrics: MetricsResult, overallStatus: string)

  /** `data_generation_workflow`: None when authentication raises (the flow fails);
      otherwise the four stages, with 15 predictions. */
  method DataGenerationWorkflow(x: WorkflowInputs) returns (s: Option<Summary>)
    requires |x.predictions| == 15
    ensures s.None? <==> AuthenticateApi(x.login).None?
    ensures s.Some? ==> s.value.generation == GenerateTrainingData(x.gen, x.generationId)
    ensures s.Some? ==> s.value.validation == ValidateGeneratedData(s.value.generation, x.noDuplicates, x.featureDistribution, x.balance)
    ensures s.Some? ==> s.value.predictions == PredictionsOf(15, x.predictions)
    ensures s.Some? ==> s.value.metrics == MetricsOf(s.value.predictions)
    ensures s.Some? ==> s.value.overallStatus == OverallStatus(s.value.generation, s.value.validation, s.value.predictions, s.value.metrics)
    ensures s.Some? && s.value.overallStatus == "success" ==> s.value.predictions.PredictionsSuccess? && |s.value.predictions.predictions| > 0
  {
    if AuthenticateApi(x.login).None? {
      return None;
    }
    var g := GenerateTrainingData(x.gen, x.generationId);
    var v := ValidateGeneratedData(g, x.noDuplicates, x.featureDistribution, x.balance);
    var p := RunModelPredictions(15, x.predictions);
    var m := CalculatePerformanceMetrics(p);
    s := Some(Summary(g, v, p, m, OverallStatus(g, v, p, m)));
  }

  /** The metrics stage of a workflow succeeds exactly when none of the prediction
      answers raises and at least one of them is a 200. */
  lemma MetricsSucceedIff(answers: seq<PredictAnswer>)
    requires |answers| == 15
    ensures MetricsOf(PredictionsOf(15, answers)).MetricsSuccess? <==>
      (forall i :: 0 <= i < 15 ==> !Fails(answers[i])) && exists i :: 0 <= i < 15 && answers[i].code == 200
  {
    if forall i :: 0 <= i < 15 ==> !Fails(answers[i]) {
      RecordedEmpty(answers);
    }
  }
}
