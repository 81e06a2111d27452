/** `services/monitoring/prefect_dashboard.py`: a dashboard that keeps the last 100 flow
    runs with success/failure counters, two simulated flows (ML monitoring and data
    generation) that each record one run, the background loop that fires them on a
    fixed tick schedule, and the views the web routes serve. HTTP answers, random draws
    and clock readings are inputs. */
module PrefectDashboard {
  import opened Common

  /** `flow_runs` keeps at most this many entries. */
  const HistoryCap: nat := 100

  /** The `details` dict of a run. */
  datatype Details =
    | MonitoringDetails(apiHealthy: bool, driftScore: real, hasDrift: bool, predictionsGenerated: nat)
    | GenerationDetails(samplesGenerated: int, driftApplied: bool)
    | ErrorDetails(error: string)
    | NoDetails

  /** The lines of a run's log; the random figures some of them print are left out. */
  datatype LogLine =
    | Starting(flowName: string) | CheckingApi | ApiChecked | RunningDriftDetection
    | DriftScoreLine | AccuracyLine | PredictionsLine
    | GeneratingSamples | ApplyingDrift | StoringData
    | CompletedLine(flowName: string) | FailedLine(flowName: string)

  /** `"monitoring" in flow_name.lower()`. */
  predicate IsMonitoringFlow(flowName: string)
  {
    Contains(Lower(flowName), "monitoring")
  }

  /** `"data" in flow_name.lower()`. */
  predicate IsDataFlow(flowName: string)
  {
    Contains(Lower(flowName), "data")
  }

  /** `generate_flow_logs`: four opening lines, three monitoring lines, three data lines,
      and the closing line. */
  function GenerateFlowLogs(flowName: string, status: string): seq<LogLine>
  {
    [Starting(flowName), CheckingApi, ApiChecked, RunningDriftDetection]
    + (if IsMonitoringFlow(flowName) then [DriftScoreLine, AccuracyLine, PredictionsLine] else [])
    + (if IsDataFlow(flowName) then [GeneratingSamples, ApplyingDrift, StoringData] else [])
    + [if status == "Completed" then CompletedLine(flowName) else FailedLine(flowName)]
  }

  /** The log's length is 4 + 3 per matched keyword + 1, its first line names the flow and
      its last line is the success line exactly for status "Completed"; the keyword match
      ignores case. */
  lemma FlowLogsShape(flowName: string, status: string)
    ensures var logs := GenerateFlowLogs(flowName, status);
      && |logs| == 5 + (if IsMonitoringFlow(flowName) then 3 else 0) + (if IsDataFlow(flowName) then 3 else 0)
      && logs[0] == Starting(flowName)
      && (logs[|logs| - 1] == CompletedLine(flowName) <==> status == "Completed")
      && (logs[|logs| - 1] == FailedLine(flowName) <==> status != "Completed")
      && (IsMonitoringFlow(flowName) <==> DriftScoreLine in logs)
      && (IsDataFlow(flowName) <==> StoringData in logs)
    ensures IsMonitoringFlow(flowName) == IsMonitoringFlow(Lower(flowName))
  {
    LowerAbsorbs(flowName);
  }

  datatype FlowRun = FlowRun(id: nat, flowName: string, status: string, startTime: int,
                             duration: string, details: Details, logs: seq<LogLine>)

  /** The run `add_flow_run` builds: its id is one more than the history's current length;
      an empty or missing duration falls back to the random one. */
  function NewRun(history: seq<FlowRun>, flowName: string, status: string, duration: Option<string>,
                  details: Details, now: int, randomDuration: string): (r: FlowRun)
    ensures r.id == |history| + 1
    ensures Truthy(duration) ==> r.duration == duration.value
    ensures !Truthy(duration) ==> r.duration == randomDuration
  {
    FlowRun(|history| + 1, flowName, status, now,
            if Truthy(duration) then duration.value else randomDuration,
            details, GenerateFlowLogs(flowName, status))
  }

  /** Appending a run to a capped history. */
  function Append(history: seq<FlowRun>, run: FlowRun): seq<FlowRun>
  {
    Last(history + [run], HistoryCap)
  }

  /** The history after appending `runs` one at a time to an empty one. */
  function History(runs: seq<FlowRun>): seq<FlowRun>
    decreases |runs|
  {
    if runs == [] then [] else Append(History(runs[..|runs| - 1]), runs[|runs| - 1])
  }

  /** However many runs were added, the history holds the newest 100 of them, oldest first. */
  lemma {:induction false} HistoryIsNewestWindow(runs: seq<FlowRun>)
    ensures History(runs) == Last(runs, HistoryCap)
    ensures |History(runs)| <= HistoryCap
    decreases |runs|
  {
    if runs != [] {
      var init, x := runs[..|runs| - 1], runs[|runs| - 1];
      assert init + [x] == runs;
      HistoryIsNewestWindow(init);
      LastAppend(init, x, HistoryCap);
      calc {
        History(runs);
        Append(History(init), x);
        Last(Last(init, HistoryCap) + [x], HistoryCap);
        Last(init + [x], HistoryCap);
      }
    }
  }

  /** Once the history is full, every new run gets id 101, and the full history stays full. */
  lemma FullHistoryIds(history: seq<FlowRun>, flowName: string, status: string, duration: Option<string>,
                       details: Details, now: int, randomDuration: string)
    requires |history| == HistoryCap
    ensures var run := NewRun(history, flowName, status, duration, details, now, randomDuration);
      run.id == 101 && |Append(history, run)| == HistoryCap && Append(history, run)[HistoryCap - 1] == run
  {
  }

  /** A Discord embed: which message and which colour. */
  datatype Message = StartupNotice | DriftAlert(driftScore: real)

  datatype Embed = Embed(message: Message, colour: int)

  const SeverityColours: map<string, int> := map["info" := 3447003, "warning" := 16776960, "error" := 15158332]

  /** `color_map.get(severity, 3447003)`. */
  function SeverityColour(severity: string): (c: int)
    ensures severity in SeverityColours ==> c == SeverityColours[severity]
    ensures severity !in SeverityColours ==> c == 3447003
  {
    if severity in SeverityColours then SeverityColours[severity] else 3447003
  }

  // ---------------------------------------------------------------------------
  // The two simulated flows

  datatype HealthAnswer = Health(code: int) | HealthRaised(error: string)
  datatype LoginAnswer = Login(code: int, token: Option<string>) | LoginRaised(error: string)
  datatype PredictAnswer = Predicted(code: int) | PredictRaised

  /** The draws and answers of one `run_ml_monitoring_flow`: the health answer, the drift
      draw, the login answer and the answers to the prediction requests. */
  datatype MonitoringInputs = MonitoringInputs(health: HealthAnswer, driftScore: real,
                                               login: LoginAnswer, predictions: seq<PredictAnswer>)

  /** Predictions counted by the loop: the 200 answers before the first raise (a raise
      ends the loop and is swallowed). */
  function PredictionsBeforeRaise(answers: seq<PredictAnswer>): (n: nat)
    ensures n <= |answers|
    decreases |answers|
  {
    if answers == [] || answers[0].PredictRaised? then 0
    else (if answers[0].code == 200 then 1 else 0) + PredictionsBeforeRaise(answers[1..])
  }

  /** Whether the login yields a token: a 200 with an `access_token`. */
  predicate LoggedIn(login: LoginAnswer)
  {
    login.Login? && login.code == 200 && login.token.Some?
  }

  /** The prediction loop of `run_ml_monitoring_flow`, run only after a successful login. */
  method CountPredictions(login: LoginAnswer, answers: seq<PredictAnswer>) returns (count: nat)
    ensures count == if LoggedIn(login) then PredictionsBeforeRaise(answers) else 0
    ensures count <= |answers|
  {
    count := 0;
    if !LoggedIn(login) {
      return;
    }
    var i := 0;
    while i < |answers| && !answers[i].PredictRaised?
      invariant 0 <= i <= |answers|
      invariant count + PredictionsBeforeRaise(answers[i..]) == PredictionsBeforeRaise(answers)
      invariant count <= i
    {
      assert answers[i..][1..] == answers[i + 1..];
      if answers[i].code == 200 {
        count := count + 1;
      }
      i := i + 1;
    }
  }

  /** What `run_ml_monitoring_flow` records, whether it notifies, and what it returns. */
  datatype MonitoringOutcome = MonitoringOutcome(status: string, details: Details, notify: bool, result: bool)

  /** A raised health request records a failed run and returns False; otherwise the run is
      "Completed" iff the API answered 200, drift means a score above 0.7, predictions
      are only made when the API is healthy, and Discord is notified only on drift with
      a webhook set. */
  function MlMonitoringOutcome(x: MonitoringInputs, webhook: string): (o: MonitoringOutcome)
    ensures x.health.HealthRaised? ==> o == MonitoringOutcome("Failed", ErrorDetails(x.health.error), false, false)
    ensures x.health.Health? ==> o.result && o.details.MonitoringDetails?
    ensures x.health.Health? ==> (o.status == "Completed" <==> x.health.code == 200)
    ensures x.health.Health? ==> (o.details.hasDrift <==> x.driftScore > 0.7)
    ensures x.health.Health? ==> o.details.predictionsGenerated <= |x.predictions|
    ensures x.health.Health? && x.health.code != 200 ==> o.details.predictionsGenerated == 0
    ensures o.notify <==> x.health.Health? && x.driftScore > 0.7 && webhook != ""
  {
    match x.health
    case HealthRaised(e) => MonitoringOutcome("Failed", ErrorDetails(e), false, false)
    case Health(code) =>
      var healthy := code == 200;
      var hasDrift := x.driftScore > 0.7;
      var count := if healthy && LoggedIn(x.login) then PredictionsBeforeRaise(x.predictions) else 0;
      MonitoringOutcome(if healthy then "Completed" else "Failed",
                        MonitoringDetails(healthy, x.driftScore, hasDrift, count),
                        hasDrift && webhook != "", true)
  }

  datatype GenerateAnswer = Generated(code: int, samplesCreated: Option<int>, driftApplied: Option<bool>)
                          | GenerateRaised(error: string)

  /** The draws and answers of one `run_data_generation_flow`. */
  datatype DataInputs = DataInputs(login: LoginAnswer, samples: int, generate: GenerateAnswer)

  datatype DataOutcome = DataOutcome(status: string, details: Details, result: bool)

  /** `run_data_generation_flow`: "Completed" exactly when the login gives a token and the
      generation answers 200; a raise records its message, a missing token raises a
      `KeyError`, and any other failure is recorded as "Authentication failed". */
  function DataGenerationOutcome(x: DataInputs): (o: DataOutcome)
    ensures o.result <==> o.status == "Completed"
    ensures o.result <==> LoggedIn(x.login) && x.generate.Generated? && x.generate.code == 200
    ensures o.result ==> (o.details.GenerationDetails? &&
      o.details.samplesGenerated == (if x.generate.samplesCreated.Some? then x.generate.samplesCreated.value else x.samples))
    ensures !o.result ==> o.details.ErrorDetails?
  {
    match x.login
    case LoginRaised(e) => DataOutcome("Failed", ErrorDetails(e), false)
    case Login(code, token) =>
      if code != 200 then DataOutcome("Failed", ErrorDetails("Authentication failed"), false)
      else if token.None? then DataOutcome("Failed", ErrorDetails("'access_token'"), false)
      else
        match x.generate
        case GenerateRaised(e) => DataOutcome("Failed", ErrorDetails(e), false)
        case Generated(c, created, drift) =>
          if c == 200 then
            DataOutcome("Completed",
                        GenerationDetails(if created.Some? then created.value else x.samples,
                                          if drift.Some? then drift.value else false), true)
          else DataOutcome("Failed", ErrorDetails("Authentication failed"), false)
  }

  // ---------------------------------------------------------------------------
  // The tick schedule of `run_automation_loop`

  /** One iteration of the loop: the inputs of the flows it may fire, the clock reading,
      the random durations, and whether the iteration raised before advancing the
      counters. Both flows catch their own exceptions, so a raise there can only come
      from the loop's own code around them; `raises` keeps that `except` branch, which in
      practice is hardly ever taken. */
  datatype Tick = Tick(ml: MonitoringInputs, data: DataInputs, now: int,
                       mlDuration: string, dataDuration: string, raises: bool)

  /** Iterations that advanced the counters. */
  function Advanced(xs: seq<Tick>): (n: nat)
    ensures n <= |xs|
    decreases |xs|
  {
    if xs == [] then 0 else Advanced(xs[..|xs| - 1]) + (if xs[|xs| - 1].raises then 0 else 1)
  }

  /** Which flows each iteration fires: the ML flow when the seconds counter is a multiple
      of 120, the data flow when it is a multiple of 300. Both counters advance by 30
      together, so they always agree. */
  function Schedule(xs: seq<Tick>): (r: seq<(bool, bool)>)
    ensures |r| == |xs|
    ensures forall i :: 0 <= i < |xs| ==> r[i] == Fire(Advanced(xs[..i]))
  {
    seq(|xs|, i requires 0 <= i < |xs| => Fire(Advanced(xs[..i])))
  }

  /** The flows fired when the counters stand at `30 * c` seconds: the ML flow on a
      multiple of 120, the data flow on a multiple of 300. */
  function Fire(c: nat): (bool, bool)
  {
    ((30 * c) % 120 == 0, (30 * c) % 300 == 0)
  }

  /** 30-second steps: the 120-second flow fires every 4th step, the 300-second one every
      10th. */
  lemma TickPeriods(c: nat)
    ensures (30 * c) % 120 == 0 <==> c % 4 == 0
    ensures (30 * c) % 300 == 0 <==> c % 10 == 0
  {
    EveryFourth(c);
    EveryTenth(c);
  }

  lemma EveryFourth(c: nat)
    ensures (30 * c) % 120 == 30 * (c % 4)
  {
    assert 30 * c == 120 * (c / 4) + 30 * (c % 4);
  }

  lemma EveryTenth(c: nat)
    ensures (30 * c) % 300 == 30 * (c % 10)
  {
    assert 30 * c == 300 * (c / 10) + 30 * (c % 10);
  }

  /** Without exceptions, iteration k fires the ML flow iff k ≡ 0 (mod 4) and the data flow
      iff k ≡ 0 (mod 10); in particular the first iteration fires both. */
  lemma {:induction false} UninterruptedSchedule(xs: seq<Tick>, k: nat)
    requires forall i :: 0 <= i < |xs| ==> !xs[i].raises
    requires k < |xs|
    ensures Schedule(xs)[k] == (k % 4 == 0, k % 10 == 0)
  {
    AdvancedAll(xs[..k]);
    TickPeriods(k);
  }

  lemma {:induction false} AdvancedAll(xs: seq<Tick>)
    requires forall i :: 0 <= i < |xs| ==> !xs[i].raises
    ensures Advanced(xs) == |xs|
    decreases |xs|
  {
    if xs != [] {
      AdvancedAll(xs[..|xs| - 1]);
    }
  }

  /** A raising iteration leaves the counters where they were, so the next iteration
      repeats its schedule. */
  lemma RaiseRepeatsSchedule(xs: seq<Tick>, k: nat)
    requires k + 1 < |xs| && xs[k].raises
    ensures Schedule(xs)[k + 1] == Schedule(xs)[k]
  {
    assert xs[..k + 1][..k] == xs[..k];
  }

  /** The schedule and the advance count grow by one iteration at a time. */
  lemma ScheduleStep(xs: seq<Tick>, i: nat)
    requires i < |xs|
    ensures Advanced(xs[..i + 1]) == Advanced(xs[..i]) + (if xs[i].raises then 0 else 1)
    ensures Schedule(xs[..i + 1]) == Schedule(xs[..i]) + [Fire(Advanced(xs[..i]))]
  {
    var ys := xs[..i + 1];
    assert ys[..i] == xs[..i];
    var a := Schedule(ys);
    var b := Schedule(xs[..i]) + [Fire(Advanced(xs[..i]))];
    forall j | 0 <= j < |a| ensures a[j] == b[j] {
      assert ys[..j] == xs[..j];
      if j < i {
        assert b[j] == Schedule(xs[..i])[j];
        assert xs[..i][..j] == xs[..j];
      }
    }
  }

  /** The number of flow runs a schedule fires. */
  function Fired(s: seq<(bool, bool)>): nat
    decreases |s|
  {
    if s == [] then 0
    else Fired(s[..|s| - 1]) + (if s[|s| - 1].0 then 1 else 0) + (if s[|s| - 1].1 then 1 else 0)
  }

  /** One more iteration adds the flows it fires. */
  lemma FiredStep(s: seq<(bool, bool)>, p: (bool, bool))
    ensures Fired(s + [p]) == Fired(s) + (if p.0 then 1 else 0) + (if p.1 then 1 else 0)
  {
    assert (s + [p])[..|s|] == s;
  }

  ghost predicate IsPrefix<T>(a: seq<T>, b: seq<T>)
  {
    |a| <= |b| && b[..|a|] == a
  }

  /** Appending to a sequence keeps its prefixes. */
  lemma PrefixExtend<T>(a: seq<T>, b: seq<T>, c: seq<T>)
    requires IsPrefix(a, b)
    ensures IsPrefix(a, b + c)
  {
    assert (b + c)[..|a|] == b[..|a|];
  }

  // ---------------------------------------------------------------------------
  // What the flows change

  /** The part of the dashboard's state the flows change. */
  datatype Board = Board(flowRuns: seq<FlowRun>, successfulRuns: nat, failedRuns: nat, lastRun: Option<int>,
                         posts: seq<Embed>)

  /** The board after `add_flow_run` records one run. */
  function Record(b: Board, flowName: string, status: string, duration: Option<string>, details: Details, now: int,
                  randomDuration: string): Board
  {
    var ok := status == "Completed";
    b.(flowRuns := Append(b.flowRuns, NewRun(b.flowRuns, flowName, status, duration, details, now, randomDuration)),
       successfulRuns := b.successfulRuns + (if ok then 1 else 0),
       failedRuns := b.failedRuns + (if ok then 0 else 1),
       lastRun := Some(now))
  }

  /** The board after one `run_ml_monitoring_flow` with outcome `o`: its run recorded
      and counted, and the drift warning posted when the outcome says so. */
  function MlStep(b: Board, o: MonitoringOutcome, driftScore: real, now: int, randomDuration: string): Board
  {
    var r := Record(b, "ml-monitoring-workflow", o.status, None, o.details, now, randomDuration);
    r.(posts := r.posts + (if o.notify then [Embed(DriftAlert(driftScore), 16776960)] else []))
  }

  /** The board after one `run_data_generation_flow` with outcome `o`. */
  function DataStep(b: Board, o: DataOutcome, now: int, randomDuration: string): Board
  {
    Record(b, "data-generation-workflow", o.status, None, o.details, now, randomDuration)
  }

  /** One iteration of the loop: the ML flow, then the data flow, each when fired. */
  function TickStep(b: Board, t: Tick, fire: (bool, bool), webhook: string): Board
  {
    var b1 := if fire.0 then MlStep(b, MlMonitoringOutcome(t.ml, webhook), t.ml.driftScore, t.now, t.mlDuration) else b;
    if fire.1 then DataStep(b1, DataGenerationOutcome(t.data), t.now, t.dataDuration) else b1
  }

  /** The board after the iterations `xs`, each firing what the schedule says. */
  function Automated(b: Board, xs: seq<Tick>, webhook: string): Board
    decreases |xs|
  {
    if xs == [] then b
    else
      var init := xs[..|xs| - 1];
      TickStep(Automated(b, init, webhook), xs[|xs| - 1], Fire(Advanced(init)), webhook)
  }

  lemma AutomatedStep(b: Board, xs: seq<Tick>, i: nat, webhook: string)
    requires i < |xs|
    ensures Automated(b, xs[..i + 1], webhook)
            == TickStep(Automated(b, xs[..i], webhook), xs[i], Fire(Advanced(xs[..i])), webhook)
  {
    assert xs[..i + 1][..i] == xs[..i];
  }

  /** An iteration only appends to the posts and counts each flow it fires once. */
  lemma TickStepGrows(b: Board, t: Tick, fire: (bool, bool), webhook: string)
    ensures IsPrefix(b.posts, TickStep(b, t, fire, webhook).posts)
    ensures TickStep(b, t, fire, webhook).successfulRuns + TickStep(b, t, fire, webhook).failedRuns
            == b.successfulRuns + b.failedRuns + (if fire.0 then 1 else 0) + (if fire.1 then 1 else 0)
  {
    var extra := if fire.0 && MlMonitoringOutcome(t.ml, webhook).notify then [Embed(DriftAlert(t.ml.driftScore), 16776960)] else [];
    assert TickStep(b, t, fire, webhook).posts == b.posts + extra;
    PrefixExtend(b.posts, b.posts, extra);
  }

  lemma PrefixTrans<T>(a: seq<T>, b: seq<T>, c: seq<T>)
    requires IsPrefix(a, b) && IsPrefix(b, c)
    ensures IsPrefix(a, c)
  {
    assert c[..|a|] == c[..|b|][..|a|];
  }

  /** The loop never removes a post, and every run it fires is counted as a success or a
      failure: the two counters grow by the number of flow runs the schedule fires. */
  lemma {:induction false} AutomatedGrows(b: Board, xs: seq<Tick>, webhook: string)
    ensures IsPrefix(b.posts, Automated(b, xs, webhook).posts)
    ensures Automated(b, xs, webhook).successfulRuns + Automated(b, xs, webhook).failedRuns
            == b.successfulRuns + b.failedRuns + Fired(Schedule(xs))
    decreases |xs|
  {
    if xs == [] {
      assert b.posts[..|b.posts|] == b.posts;
    } else {
      var init := xs[..|xs| - 1];
      var a := Automated(b, init, webhook);
      AutomatedGrows(b, init, webhook);
      TickStepGrows(a, xs[|xs| - 1], Fire(Advanced(init)), webhook);
      PrefixTrans(b.posts, a.posts, Automated(b, xs, webhook).posts);
      ScheduleStep(xs, |xs| - 1);
      assert xs[..|xs|] == xs;
      FiredStep(Schedule(init), Fire(Advanced(init)));
    }
  }

  // ---------------------------------------------------------------------------
  // The dashboard state

  class Dashboard {
    /** `DISCORD_WEBHOOK_URL` ("" when unset). */
    const webhook: string
    const uptimeStart: int
    var flowRuns: seq<FlowRun>
    var totalRuns: nat
    var successfulRuns: nat
    var failedRuns: nat
    var lastRun: Option<int>
    /** Every embed posted to the webhook, in order. */
    var posts: seq<Embed>

    ghost predicate Valid()
      reads this
    {
      |flowRuns| <= HistoryCap && totalRuns == successfulRuns + failedRuns
    }

    /** The fields the flows change, as one value. */
    function Snapshot(): Board
      reads this
    {
      Board(flowRuns, successfulRuns, failedRuns, lastRun, posts)
    }

    constructor (webhook: string, now: int)
      ensures Valid()
      ensures this.webhook == webhook && uptimeStart == now
      ensures flowRuns == [] && totalRuns == 0 && successfulRuns == 0 && failedRuns == 0
      ensures lastRun.None? && posts == []
    {
      this.webhook := webhook;
      uptimeStart := now;
      flowRuns := [];
      totalRuns, successfulRuns, failedRuns := 0, 0, 0;
      lastRun := None;
      posts := [];
    }

    /** `add_flow_run` at clock reading `now`: append, trim to the newest 100, count the
        run as successful exactly when its status is "Completed". */
    method AddFlowRun(flowName: string, status: string, duration: Option<string>, details: Details,
                      now: int, randomDuration: string)
      requires Valid()
      modifies this`flowRuns, this`totalRuns, this`successfulRuns, this`failedRuns, this`lastRun
      ensures Valid()
      ensures flowRuns == Append(old(flowRuns), NewRun(old(flowRuns), flowName, status, duration, details, now, randomDuration))
      ensures totalRuns == old(totalRuns) + 1
      ensures successfulRuns == old(successfulRuns) + (if status == "Completed" then 1 else 0)
      ensures failedRuns == old(failedRuns) + (if status == "Completed" then 0 else 1)
      ensures lastRun == Some(now)
      ensures Snapshot() == Record(old(Snapshot()), flowName, status, duration, details, now, randomDuration)
    {
      var run := NewRun(flowRuns, flowName, status, duration, details, now, randomDuration);
      flowRuns := flowRuns + [run];
      if |flowRuns| > HistoryCap {
        flowRuns := flowRuns[|flowRuns| - HistoryCap..];
      }
      totalRuns := totalRuns + 1;
      if status == "Completed" {
        successfulRuns := successfulRuns + 1;
      } else {
        failedRuns := failedRuns + 1;
      }
      lastRun := Some(now);
    }

    /** `send_discord_notification`: nothing without a webhook, otherwise one post (a
        failing post is swallowed). */
    method SendDiscordNotification(message: Message, severity: string)
      modifies this`posts
      ensures posts == old(posts) + (if webhook != "" then [Embed(message, SeverityColour(severity))] else [])
    {
      if webhook == "" {
        return;
      }
      posts := posts + [Embed(message, SeverityColour(severity))];
    }

    /** `run_ml_monitoring_flow`: records one run and, on drift with a webhook, posts a
        warning. */
    method RunMlMonitoringFlow(x: MonitoringInputs, now: int, randomDuration: string) returns (ok: bool)
      requires Valid()
      modifies this`flowRuns, this`totalRuns, this`successfulRuns, this`failedRuns, this`lastRun, this`posts
      ensures Valid()
      ensures ok == MlMonitoringOutcome(x, webhook).result
      ensures totalRuns == old(totalRuns) + 1
      ensures Snapshot() == MlStep(old(Snapshot()), MlMonitoringOutcome(x, webhook), x.driftScore, now, randomDuration)
    {
      var o := MlMonitoringOutcome(x, webhook);
      match x.health {
        case HealthRaised(e) =>
          AddFlowRun("ml-monitoring-workflow", "Failed", None, ErrorDetails(e), now, randomDuration);
          return false;
        case Health(code) =>
          var healthy := code == 200;
          var hasDrift := x.driftScore > 0.7;
          var count := 0;
          if healthy {
            count := CountPredictions(x.login, x.predictions);
          }
          var status := if healthy then "Completed" else "Failed";
          AddFlowRun("ml-monitoring-workflow", status, None,
                     MonitoringDetails(healthy, x.driftScore, hasDrift, count), now, randomDuration);
          if hasDrift && webhook != "" {
            SendDiscordNotification(DriftAlert(x.driftScore), "warning");
          }
          return true;
      }
    }

    /** `run_data_generation_flow`: records one run. */
    method RunDataGenerationFlow(x: DataInputs, now: int, randomDuration: string) returns (ok: bool)
      requires Valid()
      modifies this`flowRuns, this`totalRuns, this`successfulRuns, this`failedRuns, this`lastRun
      ensures Valid()
      ensures ok == DataGenerationOutcome(x).result
      ensures totalRuns == old(totalRuns) + 1
      ensures Snapshot() == DataStep(old(Snapshot()), DataGenerationOutcome(x), now, randomDuration)
    {
      var o := DataGenerationOutcome(x);
      AddFlowRun("data-generation-workflow", o.status, None, o.details, now, randomDuration);
      ok := o.result;
    }

    /** One iteration of `run_automation_loop`: the ML flow, then the data flow, each
        when the schedule fires it. */
    method RunTick(t: Tick, fire: (bool, bool))
      requires Valid()
      modifies this`flowRuns, this`totalRuns, this`successfulRuns, this`failedRuns, this`lastRun, this`posts
      ensures Valid()
      ensures Snapshot() == TickStep(old(Snapshot()), t, fire, webhook)
      ensures totalRuns == old(totalRuns) + (if fire.0 then 1 else 0) + (if fire.1 then 1 else 0)
    {
      if fire.0 {
        var _ := RunMlMonitoringFlow(t.ml, t.now, t.mlDuration);
      }
      if fire.1 {
        var _ := RunDataGenerationFlow(t.data, t.now, t.dataDuration);
      }
    }

    /** `run_automation_loop` over the iterations `xs`: a startup notice, then on each
        iteration the ML flow when `ml_counter % 120 == 0` and the data flow when
        `data_counter % 300 == 0`; the counters advance by 30 unless the iteration
        raised. `fired` lists, per iteration, which flows ran. */
    method RunAutomationLoop(xs: seq<Tick>) returns (fired: seq<(bool, bool)>)
      requires Valid()
      modifies this`flowRuns, this`totalRuns, this`successfulRuns, this`failedRuns, this`lastRun, this`posts
      ensures Valid()
      ensures fired == Schedule(xs)
      ensures Snapshot() == Automated(old(Snapshot()).(posts := old(posts) + StartupPosts()), xs, webhook)
      ensures totalRuns == old(totalRuns) + Fired(fired)
      ensures IsPrefix(old(posts) + StartupPosts(), posts)
    {
      SendDiscordNotification(StartupNotice, "info");
      ghost var start := Snapshot();
      var mlCounter, dataCounter := 0, 0;
      fired := [];
      for i := 0 to |xs|
        invariant Valid()
        invariant mlCounter == dataCounter == 30 * Advanced(xs[..i])
        invariant fired == Schedule(xs[..i])
        invariant totalRuns == old(totalRuns) + Fired(fired)
        invariant Snapshot() == Automated(start, xs[..i], webhook)
      {
        var t := xs[i];
        var fireMl := mlCounter % 120 == 0;
        var fireData := dataCounter % 300 == 0;
        RunTick(t, (fireMl, fireData));
        AutomatedStep(start, xs, i, webhook);
        ScheduleStep(xs, i);
        FiredStep(fired, (fireMl, fireData));
        fired := fired + [(fireMl, fireData)];
        if !t.raises {
          mlCounter := mlCounter + 30;
          dataCounter := dataCounter + 30;
        }
      }
      assert xs[..|xs|] == xs;
      AutomatedGrows(start, xs, webhook);
    }

    /** The startup notice, posted in blue when a webhook is set. */
    function StartupPosts(): (r: seq<Embed>)
      ensures r == if webhook != "" then [Embed(StartupNotice, 3447003)] else []
    {
      if webhook != "" then [Embed(StartupNotice, SeverityColour("info"))] else []
    }

    // -------------------------------------------------------------------------
    // Views

    /** The dashboard page's runs: the newest 20, newest first. */
    function DashboardRuns(): (r: seq<FlowRun>)
      reads this
      ensures |r| == Min(20, |flowRuns|)
      ensures forall k :: 0 <= k < |r| ==> r[k] == flowRuns[|flowRuns| - 1 - k]
    {
      var l := Last(flowRuns, 20);
      ReverseAt(l);
      Reverse(l)
    }

    /** `/api/flow-runs`: the newest 50 runs, oldest first. */
    function ApiFlowRuns(): (r: seq<FlowRun>)
      reads this
      ensures |r| == Min(50, |flowRuns|)
      ensures r == flowRuns[|flowRuns| - |r|..]
    {
      Last(flowRuns, 50)
    }

    /** The uptime shown on the dashboard at clock reading `now`. */
    function UptimeText(now: int): string
      reads this
    {
      UptimeString(now - uptimeStart)
    }
  }
}
