/** `services/api/src/monitoring/uptime_monitor.py`: per-endpoint probes of the API, the
    roll-up of one probe round into up / degraded / down, and the uptime report that
    sums several rounds. Each HTTP request is replaced by its answer. */
module UptimeMonitor {
  import opened Common

  /** The answer to one request: status code and measured response time (seconds), or a
      raised `RequestException`. */
  datatype Answer = Response(code: int, responseTime: real) | Raised(error: string)

  // ---------------------------------------------------------------------------
  // Single probes

  datatype ApiHealth = ApiHealth(up: bool, responseTime: real, statusCode: int)

  /** `check_api_health`; `jsonBody` says whether the body of a 200 parses. Up exactly
      on a 200 whose body parses; a raise is down with time and code 0, and so is a 200
      whose body does not parse, since the decoding error `response.json()` raises is a
      `RequestException` too. */
  function CheckApiHealth(a: Answer, jsonBody: bool): (r: ApiHealth)
    ensures r.up <==> a.Response? && a.code == 200 && jsonBody
    ensures a.Response? && (a.code != 200 || jsonBody) ==> r.statusCode == a.code && r.responseTime == a.responseTime
    ensures a.Raised? || (a.code == 200 && !jsonBody) ==> r.statusCode == 0 && r.responseTime == 0.0
  {
    match a
    case Response(code, t) =>
      if code == 200 && !jsonBody then ApiHealth(false, 0.0, 0) else ApiHealth(code == 200, t, code)
    case Raised(_) => ApiHealth(false, 0.0, 0)
  }

  /** The dict `check_endpoint_health` returns: a probe result, or the "error" dict for a
      method other than GET or POST (no request is made then). */
  datatype EndpointResult =
    | Checked(up: bool, responseTime: real, statusCode: int, endpoint: string)
    | Unsupported(verb: string)

  /** Whether a result has status "up". */
  predicate IsUp(r: EndpointResult)
  {
    r.Checked? && r.up
  }

  predicate SupportedMethod(verb: string)
  {
    Upper(verb) == "GET" || Upper(verb) == "POST"
  }

  /** `check_endpoint_health(endpoint, verb)`, with `a` the answer the request got. */
  function CheckEndpointHealth(endpoint: string, verb: string, a: Answer): (r: EndpointResult)
    ensures r.Unsupported? <==> !SupportedMethod(verb)
    ensures r.Checked? ==> r.endpoint == endpoint
    ensures IsUp(r) <==> SupportedMethod(verb) && a.Response? && a.code < 400
    ensures r.Checked? && a.Raised? ==> r.statusCode == 0 && r.responseTime == 0.0
    ensures r.Checked? && a.Response? ==> r.statusCode == a.code && r.responseTime == a.responseTime
  {
    if !SupportedMethod(verb) then Unsupported(verb)
    else
      match a
      case Response(code, t) => Checked(code < 400, t, code, endpoint)
      case Raised(_) => Checked(false, 0.0, 0, endpoint)
  }

  // ---------------------------------------------------------------------------
  // One round over all endpoints

  datatype EndpointConfig = EndpointConfig(endpoint: string, verb: string)

  /** The endpoints `run_comprehensive_health_check` probes, in order. */
  const Endpoints: seq<EndpointConfig> := [
    EndpointConfig("/health", "GET"),
    EndpointConfig("/", "GET"),
    EndpointConfig("/model/info", "GET"),
    EndpointConfig("/datasets/list", "GET"),
    EndpointConfig("/predict", "POST"),
    EndpointConfig("/generate", "POST")
  ]

  function Results(configs: seq<EndpointConfig>, answers: seq<Answer>): (r: seq<EndpointResult>)
    requires |answers| == |configs|
    ensures |r| == |configs|
    ensures forall i :: 0 <= i < |r| ==> r[i] == CheckEndpointHealth(configs[i].endpoint, configs[i].verb, answers[i])
  {
    seq(|configs|, i requires 0 <= i < |configs| => CheckEndpointHealth(configs[i].endpoint, configs[i].verb, answers[i]))
  }

  function UpCount(rs: seq<EndpointResult>): nat
    decreases |rs|
  {
    if rs == [] then 0 else UpCount(rs[..|rs| - 1]) + (if IsUp(rs[|rs| - 1]) then 1 else 0)
  }

  function DownCount(rs: seq<EndpointResult>): nat
    decreases |rs|
  {
    if rs == [] then 0 else DownCount(rs[..|rs| - 1]) + (if IsUp(rs[|rs| - 1]) then 0 else 1)
  }

  /** The summed response times of the endpoints that are up. */
  function UpTimeSum(rs: seq<EndpointResult>): real
    decreases |rs|
  {
    if rs == [] then 0.0
    else UpTimeSum(rs[..|rs| - 1]) + (if IsUp(rs[|rs| - 1]) then rs[|rs| - 1].responseTime else 0.0)
  }

  /** Every endpoint is counted exactly once, as up or as down. */
  lemma {:induction false} UpPlusDown(rs: seq<EndpointResult>)
    ensures UpCount(rs) + DownCount(rs) == |rs|
    decreases |rs|
  {
    if rs != [] {
      UpPlusDown(rs[..|rs| - 1]);
    }
  }

  /** No endpoint is up exactly when the up count is 0, none down when the down count is 0. */
  lemma {:induction false} CountsMeaning(rs: seq<EndpointResult>)
    ensures UpCount(rs) == 0 <==> forall i :: 0 <= i < |rs| ==> !IsUp(rs[i])
    ensures DownCount(rs) == 0 <==> forall i :: 0 <= i < |rs| ==> IsUp(rs[i])
    decreases |rs|
  {
    if rs != [] {
      var init := rs[..|rs| - 1];
      CountsMeaning(init);
      assert forall i :: 0 <= i < |init| ==> init[i] == rs[i];
    }
  }

  /** The response times of down endpoints do not enter the sum. */
  lemma {:induction false} UpTimeSumIgnoresDown(rs: seq<EndpointResult>, i: nat, t: real)
    requires i < |rs| && rs[i].Checked? && !rs[i].up
    ensures UpTimeSum(rs[i := rs[i].(responseTime := t)]) == UpTimeSum(rs)
    decreases |rs|
  {
    var us := rs[i := rs[i].(responseTime := t)];
    if i < |rs| - 1 {
      assert us[..|us| - 1] == rs[..|rs| - 1][i := rs[i].(responseTime := t)];
      UpTimeSumIgnoresDown(rs[..|rs| - 1], i, t);
    } else {
      assert us[..|us| - 1] == rs[..|rs| - 1];
    }
  }

  datatype Overall = OverallUp | Degraded | OverallDown

  /** The final status chain: down count checked first, then up count. */
  function OverallOf(up: nat, down: nat): (o: Overall)
    ensures o == OverallUp <==> down == 0
    ensures o == OverallDown <==> down > 0 && up == 0
    ensures o == Degraded <==> down > 0 && up > 0
  {
    if down == 0 then OverallUp else if up == 0 then OverallDown else Degraded
  }

  /** The dict `run_comprehensive_health_check` returns (timestamp left out). */
  datatype HealthReport = HealthReport(overall: Overall, totalEndpoints: nat, endpointsUp: nat,
                                       endpointsDown: nat, averageResponseTime: real,
                                       results: seq<EndpointResult>)

  /** The report one round of answers produces: counts over all results, the mean response
      time over the endpoints that are up (0 when none is). */
  function Summarize(configs: seq<EndpointConfig>, answers: seq<Answer>): (h: HealthReport)
    requires |answers| == |configs|
  {
    var rs := Results(configs, answers);
    var up := UpCount(rs);
    var down := DownCount(rs);
    HealthReport(OverallOf(up, down), |configs|, up, down,
                 if up > 0 then UpTimeSum(rs) / up as real else 0.0, rs)
  }

  /** The properties of a round: the two counts partition the endpoints, the overall
      status is up iff none is down, down iff none is up (some endpoint being probed),
      and degraded otherwise. */
  lemma SummarizeMeaning(configs: seq<EndpointConfig>, answers: seq<Answer>)
    requires |answers| == |configs|
    ensures var h := Summarize(configs, answers);
      && h.endpointsUp + h.endpointsDown == h.totalEndpoints == |configs|
      && (h.overall == OverallUp <==> forall i :: 0 <= i < |h.results| ==> IsUp(h.results[i]))
      && (h.overall == OverallDown <==> |configs| > 0 && forall i :: 0 <= i < |h.results| ==> !IsUp(h.results[i]))
      && (h.endpointsUp == 0 ==> h.averageResponseTime == 0.0)
  {
    var rs := Results(configs, answers);
    UpPlusDown(rs);
    CountsMeaning(rs);
  }

  /** One more endpoint adds its result to the results so far. */
  lemma ResultsStep(configs: seq<EndpointConfig>, answers: seq<Answer>, i: nat)
    requires |answers| == |configs| && i < |configs|
    ensures Results(configs[..i + 1], answers[..i + 1])
            == Results(configs[..i], answers[..i]) + [CheckEndpointHealth(configs[i].endpoint, configs[i].verb, answers[i])]
  {
  }

  /** One more result adds itself to the up or the down count, and its time when up. */
  lemma CountsStep(rs: seq<EndpointResult>, r: EndpointResult)
    ensures UpCount(rs + [r]) == UpCount(rs) + (if IsUp(r) then 1 else 0)
    ensures DownCount(rs + [r]) == DownCount(rs) + (if IsUp(r) then 0 else 1)
    ensures UpTimeSum(rs + [r]) == UpTimeSum(rs) + (if IsUp(r) then r.responseTime else 0.0)
  {
    assert (rs + [r])[..|rs|] == rs;
  }

  /** `check_endpoint_health` for each configured endpoint in turn, accumulating the counts
      and the response time of the endpoints found up, then the final status chain. */
  method CheckEndpoints(configs: seq<EndpointConfig>, answers: seq<Answer>) returns (h: HealthReport)
    requires |answers| == |configs|
    ensures h == Summarize(configs, answers)
  {
    var overall := OverallUp;
    var up, down := 0, 0;
    var results: seq<EndpointResult> := [];
    var totalResponseTime := 0.0;
    for i := 0 to |configs|
      invariant results == Results(configs[..i], answers[..i])
      invariant up == UpCount(results) && down == DownCount(results)
      invariant totalResponseTime == UpTimeSum(results)
    {
      var result := CheckEndpointHealth(configs[i].endpoint, configs[i].verb, answers[i]);
      ResultsStep(configs, answers, i);
      CountsStep(results, result);
      results := results + [result];
      if IsUp(result) {
        up := up + 1;
        totalResponseTime := totalResponseTime + result.responseTime;
      } else {
        down := down + 1;
        overall := Degraded;
      }
    }
    assert configs[..|configs|] == configs && answers[..|answers|] == answers;
    var average := 0.0;
    if up > 0 {
      average := totalResponseTime / up as real;
    }
    if down == 0 {
      overall := OverallUp;
    } else if up == 0 {
      overall := OverallDown;
    } else {
      overall := Degraded;
    }
    h := HealthReport(overall, |configs|, up, down, average, results);
  }

  /** `run_comprehensive_health_check`: one answer per entry of `Endpoints`. Every method
      there is GET or POST, so no result is the "error" dict. */
  method RunComprehensiveHealthCheck(answers: seq<Answer>) returns (h: HealthReport)
    requires |answers| == |Endpoints|
    ensures h == Summarize(Endpoints, answers)
    ensures h.totalEndpoints == 6 && h.endpointsUp + h.endpointsDown == 6
    ensures forall i :: 0 <= i < |h.results| ==> h.results[i].Checked?
  {
    h := CheckEndpoints(Endpoints, answers);
    SummarizeMeaning(Endpoints, answers);
    assert forall i :: 0 <= i < |Endpoints| ==> SupportedMethod(Endpoints[i].verb) by {
      assert Upper("GET") == "GET" && Upper("POST") == "POST";
    }
  }

  // ---------------------------------------------------------------------------
  // The uptime report over several rounds

  datatype ReportSummary = ReportSummary(totalChecks: nat, successfulChecks: nat, failedChecks: nat,
                                         uptimePercentage: real, averageResponseTime: real)

  /** The report dict (start and end timestamps left out); `sleeps` counts the pauses taken
      between rounds. */
  datatype UptimeReport = UptimeReport(cycles: int, results: seq<HealthReport>, summary: ReportSummary, sleeps: nat)

  function TotalChecks(hs: seq<HealthReport>): nat
    decreases |hs|
  {
    if hs == [] then 0 else TotalChecks(hs[..|hs| - 1]) + hs[|hs| - 1].totalEndpoints
  }

  function SuccessfulChecks(hs: seq<HealthReport>): nat
    decreases |hs|
  {
    if hs == [] then 0 else SuccessfulChecks(hs[..|hs| - 1]) + hs[|hs| - 1].endpointsUp
  }

  function FailedChecks(hs: seq<HealthReport>): nat
    decreases |hs|
  {
    if hs == [] then 0 else FailedChecks(hs[..|hs| - 1]) + hs[|hs| - 1].endpointsDown
  }

  /** The number of rounds whose overall status is up. */
  function UpRounds(hs: seq<HealthReport>): nat
    decreases |hs|
  {
    if hs == [] then 0 else UpRounds(hs[..|hs| - 1]) + (if hs[|hs| - 1].overall == OverallUp then 1 else 0)
  }

  /** The summed average response times of the rounds whose overall status is up. */
  function UpRoundTimes(hs: seq<HealthReport>): real
    decreases |hs|
  {
    if hs == [] then 0.0
    else UpRoundTimes(hs[..|hs| - 1]) + (if hs[|hs| - 1].overall == OverallUp then hs[|hs| - 1].averageResponseTime else 0.0)
  }

  /** A round's report counts each endpoint once. */
  predicate Partitioned(h: HealthReport)
  {
    h.endpointsUp + h.endpointsDown == h.totalEndpoints
  }

  /** Summed over rounds, successful and failed checks still add up to the total. */
  lemma {:induction false} ChecksAddUp(hs: seq<HealthReport>)
    requires forall i :: 0 <= i < |hs| ==> Partitioned(hs[i])
    ensures SuccessfulChecks(hs) + FailedChecks(hs) == TotalChecks(hs)
    decreases |hs|
  {
    if hs != [] {
      ChecksAddUp(hs[..|hs| - 1]);
    }
  }

  /** The summary the report's totals give. */
  function SummaryOf(hs: seq<HealthReport>): ReportSummary
  {
    var total := TotalChecks(hs);
    var ok := SuccessfulChecks(hs);
    var rounds := UpRounds(hs);
    ReportSummary(total, ok, FailedChecks(hs),
                  if total > 0 then (ok as real / total as real) * 100.0 else 0.0,
                  if rounds > 0 then UpRoundTimes(hs) / rounds as real else 0.0)
  }

  /** The uptime percentage lies between 0 and 100, and is 0 without checks. */
  lemma PercentageBounds(hs: seq<HealthReport>)
    requires forall i :: 0 <= i < |hs| ==> Partitioned(hs[i])
    ensures 0.0 <= SummaryOf(hs).uptimePercentage <= 100.0
    ensures TotalChecks(hs) == 0 ==> SummaryOf(hs).uptimePercentage == 0.0
    ensures SummaryOf(hs).successfulChecks + SummaryOf(hs).failedChecks == SummaryOf(hs).totalChecks
  {
    ChecksAddUp(hs);
    var total := TotalChecks(hs);
    var ok := SuccessfulChecks(hs);
    if total > 0 {
      PercentOfTotal(ok, total);
    }
  }

  /** A part of a positive total is between 0 and 100 percent of it. */
  lemma PercentOfTotal(ok: nat, total: nat)
    requires 0 < total && ok <= total
    ensures 0.0 <= (ok as real / total as real) * 100.0 <= 100.0
  {
    MeanBetween(ok as real, total, 0.0, 1.0);
  }

  /** The rounds `generate_uptime_report` runs, each from its own answers. */
  function Rounds(rounds: seq<seq<Answer>>): (hs: seq<HealthReport>)
    requires forall i :: 0 <= i < |rounds| ==> |rounds[i]| == |Endpoints|
    ensures |hs| == |rounds|
    ensures forall i :: 0 <= i < |hs| ==> hs[i] == Summarize(Endpoints, rounds[i])
  {
    seq(|rounds|, i requires 0 <= i < |rounds| => Summarize(Endpoints, rounds[i]))
  }

  /** One more round adds its own figures to each running total. */
  lemma TotalsStep(hs: seq<HealthReport>, h: HealthReport)
    ensures TotalChecks(hs + [h]) == TotalChecks(hs) + h.totalEndpoints
    ensures SuccessfulChecks(hs + [h]) == SuccessfulChecks(hs) + h.endpointsUp
    ensures FailedChecks(hs + [h]) == FailedChecks(hs) + h.endpointsDown
    ensures UpRounds(hs + [h]) == UpRounds(hs) + (if h.overall == OverallUp then 1 else 0)
    ensures UpRoundTimes(hs + [h]) == UpRoundTimes(hs) + (if h.overall == OverallUp then h.averageResponseTime else 0.0)
  {
    assert (hs + [h])[..|hs|] == hs;
  }

  /** One more round of answers adds its report to the rounds run so far. */
  lemma RoundsStep(rounds: seq<seq<Answer>>, i: nat)
    requires i < |rounds|
    requires forall i :: 0 <= i < |rounds| ==> |rounds[i]| == |Endpoints|
    ensures Rounds(rounds[..i + 1]) == Rounds(rounds[..i]) + [Summarize(Endpoints, rounds[i])]
  {
  }

  /** `generate_uptime_report(cycles)`: `rounds[i]` holds the answers of round i; a
      non-positive `cycles` runs no round. The report's totals are per-round sums, the
      averages cover only rounds that were fully up, and there is one pause between
      consecutive rounds and none after the last. */
  method GenerateUptimeReport(cycles: int, rounds: seq<seq<Answer>>) returns (r: UptimeReport)
    requires |rounds| == Max(cycles, 0)
    requires forall i :: 0 <= i < |rounds| ==> |rounds[i]| == |Endpoints|
    ensures r.cycles == cycles
    ensures r.results == Rounds(rounds)
    ensures r.summary == SummaryOf(r.results)
    ensures r.summary.successfulChecks + r.summary.failedChecks == r.summary.totalChecks
    ensures 0.0 <= r.summary.uptimePercentage <= 100.0
    ensures r.sleeps == Max(cycles - 1, 0)
  {
    var results: seq<HealthReport> := [];
    var total, ok, failed, upRounds := 0, 0, 0, 0;
    var totalResponseTime := 0.0;
    var sleeps := 0;
    for i := 0 to |rounds|
      invariant results == Rounds(rounds[..i])
      invariant total == TotalChecks(results) && ok == SuccessfulChecks(results) && failed == FailedChecks(results)
      invariant upRounds == UpRounds(results) && totalResponseTime == UpRoundTimes(results)
      invariant sleeps == Min(i, Max(cycles - 1, 0))
    {
      var h := RunComprehensiveHealthCheck(rounds[i]);
      RoundsStep(rounds, i);
      TotalsStep(results, h);
      results := results + [h];
      total := total + h.totalEndpoints;
      ok := ok + h.endpointsUp;
      failed := failed + h.endpointsDown;
      if h.overall == OverallUp {
        upRounds := upRounds + 1;
        totalResponseTime := totalResponseTime + h.averageResponseTime;
      }
      if i < cycles - 1 {
        sleeps := sleeps + 1;
      }
    }
    assert rounds[..|rounds|] == rounds;
    var percentage := 0.0;
    if total > 0 {
      percentage := (ok as real / total as real) * 100.0;
    }
    var average := 0.0;
    if upRounds > 0 {
      average := totalResponseTime / upRounds as real;
    }
    r := UptimeReport(cycles, results, ReportSummary(total, ok, failed, percentage, average), sleeps);
    forall i | 0 <= i < |results| ensures Partitioned(results[i]) {
      SummarizeMeaning(Endpoints, rounds[i]);
    }
    PercentageBounds(results);
  }
}
