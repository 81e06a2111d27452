/** `monitoring.py`: the model monitor's verdict on one draw of accuracy and drift,
    the API monitor's verdict on one health answer, and the continuous loop that runs
    both a given number of times. */
module Monitoring {
  import opened Common

  const DefaultAccuracyThreshold: real := 0.85
  const DefaultDriftThreshold: real := 0.7

  /** The colours of the model monitor's embeds. */
  const Colours: map<string, int> :=
    map["Succès" := 5814783, "Erreur" := 15158332, "Avertissement" := 16776960, "Info" := 3447003]

  function Colour(status: string): (c: int)
    ensures status in Colours ==> c == Colours[status]
    ensures status !in Colours ==> c == 3447003
  {
    if status in Colours then Colours[status] else 3447003
  }

  /** The model monitor's notifier: webhook check, then True iff the post answered 204. */
  function SendModelNotification(webhook: Option<string>, post: Post): (r: SendResult)
    ensures !Truthy(webhook) ==> !r.posted && !r.ok
    ensures r.ok <==> Truthy(webhook) && post == Answered(204)
  {
    WebhookSend(webhook, post)
  }

  datatype ModelMonitor = ModelMonitor(accuracyThreshold: real, driftThreshold: real)

  const DefaultModelMonitor := ModelMonitor(DefaultAccuracyThreshold, DefaultDriftThreshold)

  /** The dict returned by `check_model_performance`, with the status of the one
      notification the check sends. */
  datatype PerformanceReport = PerformanceReport(status: string, accuracy: real, driftScore: real, notified: string)

  /** One performance check on sampled `accuracy` and `drift`: accuracy is tested
      first (strictly below its threshold), then drift (strictly above its threshold). */
  function CheckModelPerformance(m: ModelMonitor, accuracy: real, drift: real): (r: PerformanceReport)
    ensures r.accuracy == accuracy && r.driftScore == drift
    ensures r.status == "warning" <==> accuracy < m.accuracyThreshold
    ensures r.status == "error" <==> accuracy >= m.accuracyThreshold && drift > m.driftThreshold
    ensures r.status == "healthy" <==> accuracy >= m.accuracyThreshold && drift <= m.driftThreshold
    ensures r.status == "warning" ==> r.notified == "Avertissement"
    ensures r.status == "error" ==> r.notified == "Erreur"
    ensures r.status == "healthy" ==> r.notified == "Succès"
  {
    if accuracy < m.accuracyThreshold then PerformanceReport("warning", accuracy, drift, "Avertissement")
    else if drift > m.driftThreshold then PerformanceReport("error", accuracy, drift, "Erreur")
    else PerformanceReport("healthy", accuracy, drift, "Succès")
  }

  /** Accuracy wins over drift: a model that is both inaccurate and drifting is a
      warning, never an error. */
  lemma AccuracyBeforeDrift(m: ModelMonitor, accuracy: real, drift: real)
    requires accuracy < m.accuracyThreshold && drift > m.driftThreshold
    ensures CheckModelPerformance(m, accuracy, drift).status == "warning"
    ensures CheckModelPerformance(m, accuracy, drift).notified == "Avertissement"
  {
  }

  /** With the default thresholds both comparisons are strict at their boundary. */
  lemma DefaultBoundaryIsHealthy()
    ensures CheckModelPerformance(DefaultModelMonitor, 0.85, 0.7).status == "healthy"
    ensures CheckModelPerformance(DefaultModelMonitor, 0.849, 0.0).status == "warning"
    ensures CheckModelPerformance(DefaultModelMonitor, 0.85, 0.701).status == "error"
  {
  }

  /** What the health GET gives back: a status code and the elapsed seconds, or a
      raised `RequestException`. */
  datatype HealthAnswer = Answer(code: int, elapsed: real) | Unreachable(error: string)

  datatype ApiReport =
    | ApiHealthy(responseTime: real)
    | ApiUnhealthy(statusCode: int)
    | ApiUnreachable(error: string)

  /** `api_status` of a report, as the source names it. */
  function ApiStatus(r: ApiReport): string
  {
    match r
    case ApiHealthy(_) => "healthy"
    case ApiUnhealthy(_) => "unhealthy"
    case ApiUnreachable(_) => "unreachable"
  }

  /** `APIHealthMonitor.check_api_health`: the report and the statuses of the
      notifications it sends (none when healthy). */
  function CheckApiHealth(a: HealthAnswer): (r: (ApiReport, seq<string>))
    ensures a.Answer? && a.code == 200 ==> r.0 == ApiHealthy(a.elapsed) && r.1 == []
    ensures a.Answer? && a.code != 200 ==> r.0 == ApiUnhealthy(a.code) && r.1 == ["Avertissement"]
    ensures a.Unreachable? ==> r.0 == ApiUnreachable(a.error) && r.1 == ["Erreur"]
    ensures ApiStatus(r.0) == "healthy" <==> r.1 == []
  {
    match a
    case Answer(code, elapsed) =>
      if code == 200 then (ApiHealthy(elapsed), []) else (ApiUnhealthy(code), ["Avertissement"])
    case Unreachable(e) => (ApiUnreachable(e), ["Erreur"])
  }

  /** The inputs one monitoring cycle draws: the two sampled metrics and the health answer. */
  datatype CycleDraw = CycleDraw(accuracy: real, drift: real, health: HealthAnswer)

  datatype CycleResult = CycleResult(model: PerformanceReport, api: ApiReport)

  /** `run_monitoring_cycle`: the model check, then the API check. */
  function RunMonitoringCycle(m: ModelMonitor, d: CycleDraw): (r: CycleResult)
    ensures r.model == CheckModelPerformance(m, d.accuracy, d.drift)
    ensures r.api == CheckApiHealth(d.health).0
  {
    CycleResult(CheckModelPerformance(m, d.accuracy, d.drift), CheckApiHealth(d.health).0)
  }

  /** `run_continuous_monitoring(interval, cycles)`. `cycles == None` loops until
      interrupted; the interrupt is modelled as the draws running out. `slept[i]` says
      whether the loop slept after cycle i. */
  method RunContinuousMonitoring(m: ModelMonitor, cycles: Option<int>, draws: seq<CycleDraw>)
    returns (count: nat, results: seq<CycleResult>, slept: seq<bool>)
    ensures cycles.None? ==> count == |draws|
    ensures cycles.Some? ==> count == Min(Max(cycles.value, 0), |draws|)
    ensures |results| == count && |slept| == count
    ensures forall i :: 0 <= i < count ==> results[i] == RunMonitoringCycle(m, draws[i])
    ensures forall i :: 0 <= i < count ==> (slept[i] <==> cycles.None? || i + 1 < cycles.value)
  {
    count := 0;
    results := [];
    slept := [];
    while (cycles.None? || count < cycles.value) && count < |draws|
      invariant count <= |draws|
      invariant cycles.Some? ==> count <= Max(cycles.value, 0)
      invariant |results| == count && |slept| == count
      invariant forall i :: 0 <= i < count ==> results[i] == RunMonitoringCycle(m, draws[i])
      invariant forall i :: 0 <= i < count ==> (slept[i] <==> cycles.None? || i + 1 < cycles.value)
      decreases |draws| - count
    {
      var r := RunMonitoringCycle(m, draws[count]);
      count := count + 1;
      results := results + [r];
      slept := slept + [cycles.None? || count < cycles.value];
    }
  }
}
