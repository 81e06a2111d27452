/** `services/monitoring/flow_dashboard.py`: the simpler flow dashboard — the last 50 flow
    runs with success/failure counters, the simulator that records random runs, and the
    views the web routes serve. Random draws and clock readings are inputs. */
module FlowDashboard {
  import opened Common

  /** `flow_runs` keeps at most this many entries. */
  const HistoryCap: nat := 50

  /** The `details` dict the simulator attaches; `NoDetails` is the `{}` default. */
  datatype Details = SimulatedDetails(predictionsGenerated: int, driftScore: real, apiResponseTime: string) | NoDetails

  datatype FlowRun = FlowRun(id: nat, flowName: string, status: string, startTime: int,
                             duration: string, details: Details)

  /** The run `add_flow_run` builds: its id is one more than the history's current length;
      an empty or missing duration falls back to the random one, missing details to `{}`. */
  function NewRun(history: seq<FlowRun>, flowName: string, status: string, duration: Option<string>,
                  details: Option<Details>, now: int, randomDuration: string): (r: FlowRun)
    ensures r.id == |history| + 1
    ensures r.flowName == flowName && r.status == status && r.startTime == now
    ensures r.duration == if Truthy(duration) then duration.value else randomDuration
    ensures r.details == if details.Some? then details.value else NoDetails
  {
    FlowRun(|history| + 1, flowName, status, now,
            if Truthy(duration) then duration.value else randomDuration,
            if details.Some? then details.value else NoDetails)
  }

  /** Appending a run to a capped history. */
  function Append(history: seq<FlowRun>, run: FlowRun): seq<FlowRun>
  {
    Last(history + [run], HistoryCap)
  }

  /** The history after appending `runs` one at a time to an empty one. */
  function History(runs: seq<FlowRun>): seq<FlowRun>
    decreases |runs|
  {
    if runs == [] then [] else Append(History(runs[..|runs| - 1]), runs[|runs| - 1])
  }

  /** However many runs were added, the history holds the newest 50 of them, oldest first. */
  lemma {:induction false} HistoryIsNewestWindow(runs: seq<FlowRun>)
    ensures History(runs) == Last(runs, HistoryCap)
    ensures |History(runs)| <= HistoryCap
    decreases |runs|
  {
    if runs != [] {
      var init, x := runs[..|runs| - 1], runs[|runs| - 1];
      assert init + [x] == runs;
      HistoryIsNewestWindow(init);
      LastAppend(init, x, HistoryCap);
      calc {
        History(runs);
        Append(History(init), x);
        Last(Last(init, HistoryCap) + [x], HistoryCap);
        Last(init + [x], HistoryCap);
      }
    }
  }

  /** The flows the simulator picks from. */
  const Flows: seq<string> := ["ml-monitoring-workflow", "data-generation-workflow",
                               "health-check-workflow", "metrics-collection-workflow"]

  /** One pass of `simulate_flow_runs`: the flow index drawn, the status draw, the duration
      and detail figures, and the clock reading. */
  datatype Draw = Draw(flow: nat, statusDraw: real, duration: string, predictions: int,
                       driftScore: real, responseTime: string, now: int)

  /** A simulated run completes when its draw exceeds 0.1. */
  function SimulatedStatus(statusDraw: real): (s: string)
    ensures s == "completed" <==> statusDraw > 0.1
    ensures s == "completed" || s == "failed"
  {
    if statusDraw > 0.1 then "completed" else "failed"
  }

  /** How many passes draw a completed run. */
  function CompletedDraws(draws: seq<Draw>): (n: nat)
    ensures n <= |draws|
    decreases |draws|
  {
    if draws == [] then 0
    else CompletedDraws(draws[..|draws| - 1]) + (if SimulatedStatus(draws[|draws| - 1].statusDraw) == "completed" then 1 else 0)
  }

  /** One more pass adds its own draw to the count. */
  lemma CompletedStep(draws: seq<Draw>, i: nat)
    requires i < |draws|
    ensures CompletedDraws(draws[..i + 1])
            == CompletedDraws(draws[..i]) + (if SimulatedStatus(draws[i].statusDraw) == "completed" then 1 else 0)
  {
    assert draws[..i + 1][..i] == draws[..i];
  }

  /** The appended run is the newest entry of the capped history. */
  lemma AppendEndsWith(history: seq<FlowRun>, run: FlowRun)
    ensures var h := Append(history, run); h != [] && h[|h| - 1] == run
  {
  }

  /** The run one pass of the simulator records on top of `history`. */
  function PassRun(history: seq<FlowRun>, d: Draw): FlowRun
    requires d.flow < |Flows|
  {
    NewRun(history, Flows[d.flow], SimulatedStatus(d.statusDraw), Some(d.duration),
           Some(SimulatedDetails(d.predictions, d.driftScore, d.responseTime)), d.now, d.duration)
  }

  /** The history after the passes `draws`, starting from `history`. */
  function Simulated(history: seq<FlowRun>, draws: seq<Draw>): (r: seq<FlowRun>)
    requires forall i :: 0 <= i < |draws| ==> draws[i].flow < |Flows|
    ensures |history| <= HistoryCap ==> |r| <= HistoryCap
    ensures draws != [] ==> r != [] && r[|r| - 1] == PassRun(Simulated(history, draws[..|draws| - 1]), draws[|draws| - 1])
    decreases |draws|
  {
    if draws == [] then history
    else
      var h := Simulated(history, draws[..|draws| - 1]);
      AppendEndsWith(h, PassRun(h, draws[|draws| - 1]));
      Append(h, PassRun(h, draws[|draws| - 1]))
  }

  /** One more pass appends its run to the history so far. */
  lemma SimulatedStep(history: seq<FlowRun>, draws: seq<Draw>, i: nat)
    requires i < |draws| && forall k :: 0 <= k < |draws| ==> draws[k].flow < |Flows|
    ensures Simulated(history, draws[..i + 1])
            == Append(Simulated(history, draws[..i]), PassRun(Simulated(history, draws[..i]), draws[i]))
  {
    assert draws[..i + 1][..i] == draws[..i];
  }

  /** The newest run in the history is the one the last pass recorded. */
  lemma SimulatedNewest(history: seq<FlowRun>, draws: seq<Draw>)
    requires draws != [] && forall i :: 0 <= i < |draws| ==> draws[i].flow < |Flows|
    ensures var r := Simulated(history, draws);
            r != [] && r[|r| - 1].flowName == Flows[draws[|draws| - 1].flow]
  {
  }

  class Dashboard {
    const uptimeStart: int
    var flowRuns: seq<FlowRun>
    var totalRuns: nat
    var successfulRuns: nat
    var failedRuns: nat
    var lastRun: Option<int>

    ghost predicate Valid()
      reads this
    {
      |flowRuns| <= HistoryCap && totalRuns == successfulRuns + failedRuns
    }

    constructor (now: int)
      ensures Valid()
      ensures uptimeStart == now
      ensures flowRuns == [] && totalRuns == 0 && successfulRuns == 0 && failedRuns == 0 && lastRun.None?
    {
      uptimeStart := now;
      flowRuns := [];
      totalRuns, successfulRuns, failedRuns := 0, 0, 0;
      lastRun := None;
    }

    /** `add_flow_run` at clock reading `now`: append, trim to the newest 50, count the run
        as successful exactly when its status is "completed", and stamp `last_run`. */
    method AddFlowRun(flowName: string, status: string, duration: Option<string>, details: Option<Details>,
                      now: int, randomDuration: string)
      requires Valid()
      modifies this`flowRuns, this`totalRuns, this`successfulRuns, this`failedRuns, this`lastRun
      ensures Valid()
      ensures flowRuns == Append(old(flowRuns), NewRun(old(flowRuns), flowName, status, duration, details, now, randomDuration))
      ensures totalRuns == old(totalRuns) + 1
      ensures successfulRuns == old(successfulRuns) + (if status == "completed" then 1 else 0)
      ensures failedRuns == old(failedRuns) + (if status == "completed" then 0 else 1)
      ensures lastRun == Some(now)
    {
      var run := NewRun(flowRuns, flowName, status, duration, details, now, randomDuration);
      flowRuns := flowRuns + [run];
      if |flowRuns| > HistoryCap {
        flowRuns := flowRuns[|flowRuns| - HistoryCap..];
      }
      totalRuns := totalRuns + 1;
      if status == "completed" {
        successfulRuns := successfulRuns + 1;
      } else {
        failedRuns := failedRuns + 1;
      }
      lastRun := Some(now);
    }

    /** `simulate_flow_runs` over the passes `draws` (the loop stands for the daemon thread
        until it is stopped): one run per pass, so the counters grow by the number of
        passes, split by the status draws. */
    method SimulateFlowRuns(draws: seq<Draw>)
      requires Valid()
      requires forall i :: 0 <= i < |draws| ==> draws[i].flow < |Flows|
      modifies this`flowRuns, this`totalRuns, this`successfulRuns, this`failedRuns, this`lastRun
      ensures Valid()
      ensures flowRuns == Simulated(old(flowRuns), draws)
      ensures totalRuns == old(totalRuns) + |draws|
      ensures successfulRuns == old(successfulRuns) + CompletedDraws(draws)
      ensures failedRuns == old(failedRuns) + (|draws| - CompletedDraws(draws))
      ensures lastRun == if draws == [] then old(lastRun) else Some(draws[|draws| - 1].now)
      ensures draws != [] ==> flowRuns != [] && flowRuns[|flowRuns| - 1].flowName == Flows[draws[|draws| - 1].flow]
    {
      for i := 0 to |draws|
        invariant Valid()
        invariant flowRuns == Simulated(old(flowRuns), draws[..i])
        invariant totalRuns == old(totalRuns) + i
        invariant successfulRuns == old(successfulRuns) + CompletedDraws(draws[..i])
        invariant failedRuns == old(failedRuns) + (i - CompletedDraws(draws[..i]))
        invariant lastRun == if i == 0 then old(lastRun) else Some(draws[i - 1].now)
      {
        var d := draws[i];
        var status := SimulatedStatus(d.statusDraw);
        AddFlowRun(Flows[d.flow], status, Some(d.duration),
                   Some(SimulatedDetails(d.predictions, d.driftScore, d.responseTime)), d.now, d.duration);
        SimulatedStep(old(flowRuns), draws, i);
        CompletedStep(draws, i);
      }
      assert draws[..|draws|] == draws;
      if draws != [] {
        SimulatedNewest(old(flowRuns), draws);
      }
    }

    // -------------------------------------------------------------------------
    // Views

    /** The dashboard page's runs: the newest 20, newest first. */
    function DashboardRuns(): (r: seq<FlowRun>)
      reads this
      ensures |r| == Min(20, |flowRuns|)
      ensures forall k :: 0 <= k < |r| ==> r[k] == flowRuns[|flowRuns| - 1 - k]
    {
      var l := Last(flowRuns, 20);
      ReverseAt(l);
      Reverse(l)
    }

    /** `/api/runs`: the newest 20 runs, oldest first — the dashboard's list in reverse. */
    function ApiRuns(): (r: seq<FlowRun>)
      reads this
      ensures |r| == Min(20, |flowRuns|)
      ensures r == flowRuns[|flowRuns| - |r|..]
      ensures forall k :: 0 <= k < |r| ==> r[k] == DashboardRuns()[|r| - 1 - k]
    {
      Last(flowRuns, 20)
    }

    /** The uptime shown on the dashboard at clock reading `now`. */
    function UptimeText(now: int): string
      reads this
    {
      UptimeString(now - uptimeStart)
    }
  }
}
