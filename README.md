# IA Continu Solution — a Dafny model of its monitoring, automation and storage core

IA Continu Solution is a small MLOps system. It has an API that serves a classifier and
stores generated datasets, models, audit logs and user accounts in SQLite. Around the API
sit several monitors and automation loops:

- they poll the API's health, judge model accuracy and drift, and decide whether to retrain;
- they keep histories of flow runs;
- they alert a Discord channel.

This project models that core in Dafny, one module per source file:

- the verdict rules of the model monitors and the Prefect flows (`Monitoring`, `Flow`,
  `SimpleAutomation`, `DataGenerationFlow`, `MlMonitoringFlow`, `MlAutomationFlow`);
- the up/down state machines and aggregators of the uptime monitors (`SimpleUptimeMonitor`,
  `MonitoringService`, `UptimeMonitor`);
- the capped run histories, counters and tick schedules of the two dashboards
  (`PrefectDashboard`, `FlowDashboard`);
- the API's Discord notifier (`DiscordNotifier`);
- the three SQLite-backed services (`DbManager`, `PredictionLogger`, `AuthService`), each
  table an in-memory sequence of rows.

Two modules support the others:

- `Common`: optional values, the webhook send, ASCII case mapping, SQL-style `LIMIT` and
  `ORDER BY … DESC`, first-occurrence tallies, and the uptime split into days, hours and minutes.
- `Json`: an encoder (with `ensure_ascii` escapes) and a decoder of flat JSON objects, with the round-trip proved.

Everything the code reads from the outside world is a parameter of the model:

- an HTTP answer (a status code, or the error raised);
- a random draw;
- a clock reading in whole seconds;
- whether a file exists.

The password hash, SHA-256, and JWT signing and decoding are arbitrary functions passed
in. The only thing assumed about them is that decoding gives back the signed payload, and
only the lemma about a token just issued assumes it. Loops that run until interrupted are modelled over a finite
sequence of per-iteration inputs; the loop ends when that sequence runs out.

## Model

| member | source | states |
|---|---|---|
| `Common.WebhookSend` | monitoring.py:26-69 | without a truthy webhook nothing is posted and the result is false; otherwise the post is made and succeeds exactly on a 204 answer |
| `Common.Uptime` | services/monitoring/prefect_dashboard.py:358-363 | the uptime splits elapsed seconds into whole days (rounded down, so negative before the start), hours below 24 and minutes below 60, and the parts account for the elapsed time to within the minute |
| `Common.LastAppend` | services/monitoring/flow_dashboard.py:39-43 | trimming to the newest n before appending and trimming again keeps the same window as trimming once |
| `Common.Newest` | services/api/src/database/db_manager.py:220-225 | `ORDER BY created_at DESC LIMIT n` gives min(n, rows) rows, or all of them for a negative n, and row k is the k-th newest |
| `Common.TallySum` | services/prefect/flows/data_generation_flow.py:211-217 | the per-class counts built one prediction at a time add up to the number of predictions |
| `Common.TallyCounts` | services/prefect/flows/data_generation_flow.py:211-217 | each class appears once in the tally, exactly the classes present are keys, and each count is the number of occurrences |
| `Common.LowerAbsorbs` | services/api/src/monitoring/discord_notifier.py:112 | lower-casing after upper- or lower-casing equals lower-casing once |
| `Json.LoadsDumps` | services/api/src/database/prediction_logger.py:181 | `json.loads(json.dumps(d))` gives back `d` for every flat object |
| `Json.EscapeRoundTrip` | services/api/src/database/prediction_logger.py:181 | every string written with the `ensure_ascii` escapes reads back as itself, and the literal ends at its closing quote |
| `Json.PairEscape` | services/api/src/database/prediction_logger.py:181 | a character above U+FFFF is written as a surrogate pair of `\uXXXX` escapes that reads back as that character |
| `Json.Hex4` | services/api/src/database/prediction_logger.py:181 | the four hexadecimal digits of an escape read back as the code unit written |
| `Monitoring.Colour` | monitoring.py:32-43 | a known status gets its own colour; any other status gets 3447003 |
| `Monitoring.SendModelNotification` | monitoring.py:26-69 | no webhook gives false without a post; otherwise the result is true exactly on a 204 answer |
| `Monitoring.CheckModelPerformance` | monitoring.py:71-95 | "warning" iff accuracy is strictly below its threshold, "error" iff accuracy is at or above it and drift is strictly above its threshold, otherwise "healthy"; exactly one notification whose status matches the branch |
| `Monitoring.AccuracyBeforeDrift` | monitoring.py:80-90 | a model that is both inaccurate and drifting is reported as "warning", never "error" |
| `Monitoring.DefaultBoundaryIsHealthy` | monitoring.py:21 | with the default thresholds 0.85 and 0.7, accuracy 0.85 with drift 0.7 is healthy and both comparisons are strict |
| `Monitoring.CheckApiHealth` | monitoring.py:119-137 | 200 is healthy with no notification; any other code is unhealthy with that code and one warning; a raised error is unreachable with one error notification |
| `Monitoring.RunMonitoringCycle` | monitoring.py:146-164 | a cycle's report is the model check of its draw followed by the API check of its answer |
| `Monitoring.RunContinuousMonitoring` | monitoring.py:166-188 | with `cycles = n` exactly n cycles run, each result is that cycle's check, and there is no sleep after the last one |
| `Flow.MaxGeneration` | flow.py:112-149 | the maximum generation id is None exactly on an empty table, occurs in the table and bounds every id |
| `Flow.BatchMembers` | flow.py:128-148 | a row is in the batch of g exactly when some table row of generation g projects to it |
| `Flow.GetLastDataset` | flow.py:112-149 | an empty table gives `[]`; otherwise the result is the non-empty batch of the maximum generation |
| `Flow.LastDatasetIsNewestBatch` | flow.py:128-148 | every returned row comes from a row of the newest generation, and every such row is returned |
| `Flow.CheckAccuracy` | flow.py:53-104 | a missing model gives no_model, an empty table no_data, no previous accuracy no_previous_accuracy; otherwise drift exactly when the current accuracy is strictly below the previous one |
| `Flow.SecondNoDataTestUnreachable` | flow.py:75-76 | the features and targets built from a non-empty batch are non-empty, so the second no_data test never fires |
| `Flow.EqualAccuracyIsOk` | flow.py:95-104 | equal accuracies are "ok" and any decrease is "drift": the 0.05 threshold takes no part |
| `Flow.PeriodicCheck` | flow.py:178-198 | training is submitted exactly for no_model, no_previous_accuracy and drift, and the check result is returned unchanged |
| `SimpleAutomation.SendDiscordNotification` | services/monitoring/simple_automation.py:19-65 | no webhook gives false without a post; otherwise true exactly on a 204 answer |
| `SimpleAutomation.Authenticate` | services/monitoring/simple_automation.py:68-80 | a token is returned exactly for a 200 answer that carries one |
| `SimpleAutomation.DetectDrift` | services/monitoring/simple_automation.py:83-92 | drift is detected iff the random value is strictly below 0.5 |
| `SimpleAutomation.UptimeMinutes` | services/monitoring/simple_automation.py:191 | the minutes reported are `cycle_count * 30 // 60` |
| `SimpleAutomation.RunAutomationCycle` | services/monitoring/simple_automation.py:95-207 | a failed health check sends one "Échec" and stops before drift detection; drift with a token requests generation; drift without a token sends nothing; at most one notice per cycle, never "Succès" |
| `SimpleAutomation.ExtendedReportUnreachable` | services/monitoring/simple_automation.py:184-196 | every positive multiple of 20 is a multiple of 10, so the extended-report branch is dead |
| `SimpleAutomation.AutomationMain` | services/monitoring/simple_automation.py:209-247 | the cycle counter advances only for cycles that complete without raising; the notices are the startup notice followed by each cycle's notices |
| `DataGenerationFlow.AuthenticateApi` | services/prefect/flows/data_generation_flow.py:15-36 | a token exactly for a 200 answer that carries one |
| `DataGenerationFlow.GenerateTrainingData` | services/prefect/flows/data_generation_flow.py:39-75 | success exactly on a 200 answer with a JSON body; a missing `samples_generated` is recorded as 0 |
| `DataGenerationFlow.ValidateGeneratedData` | services/prefect/flows/data_generation_flow.py:78-121 | a failed generation fails validation; the sample count is valid iff positive; the status is "passed" iff all five checks hold |
| `DataGenerationFlow.MissingSampleCountFailsValidation` | services/prefect/flows/data_generation_flow.py:56-61 | a 200 answer without `samples_generated` always fails validation |
| `DataGenerationFlow.CollectPredictions` | services/prefect/flows/data_generation_flow.py:134-158 | the loop yields the recorded predictions exactly when no request fails |
| `DataGenerationFlow.RunModelPredictions` | services/prefect/flows/data_generation_flow.py:124-179 | the outcome is `PredictionsOf` the answers: success iff the count is non-zero and no request raises; success lists the recorded predictions, and the success rate times the count is their number, in [0, 1] |
| `DataGenerationFlow.RateFacts` | services/prefect/flows/data_generation_flow.py:158 | the success rate times the requested count is the number made, and is at most 1 |
| `Common.MeanBetween` | services/prefect/flows/data_generation_flow.py:205-208 | the mean of values between lo and hi lies between lo and hi |
| `DataGenerationFlow.MinOf` | services/prefect/flows/data_generation_flow.py:206 | the minimum confidence is one of the confidences and bounds them all from below |
| `DataGenerationFlow.MaxOf` | services/prefect/flows/data_generation_flow.py:207 | the maximum confidence is one of the confidences and bounds them all from above |
| `DataGenerationFlow.CalculatePerformanceMetrics` | services/prefect/flows/data_generation_flow.py:182-234 | the result is `MetricsOf` the predictions, whose meaning `MetricsMeaning` states |
| `DataGenerationFlow.MetricsMeaning` | services/prefect/flows/data_generation_flow.py:182-234 | failed predictions give "failed" and an empty list "no_predictions", each iff; otherwise the average is the mean of the confidences, min and max are confidences bounding them all, min ≤ average ≤ max, and the class counts are distinct, count each class and add up to the total |
| `DataGenerationFlow.MeanWithinExtremes` | services/prefect/flows/data_generation_flow.py:205-208 | the average confidence of a non-empty list lies between its minimum and its maximum |
| `Common.MeanBounds` | services/prefect/flows/data_generation_flow.py:206 | the mean of a non-empty list whose elements lie in [lo, hi] lies in [lo, hi] |
| `DataGenerationFlow.CountClasses` | services/prefect/flows/data_generation_flow.py:211-217 | the loop builds the tally of the predicted classes |
| `DataGenerationFlow.OverallStatus` | services/prefect/flows/data_generation_flow.py:266-275 | "success" iff all four stages succeed, else "partial_success" |
| `DataGenerationFlow.DataGenerationWorkflow` | services/prefect/flows/data_generation_flow.py:237-283 | no token ends the workflow; otherwise the generation, the validation, the predictions of the 15 answers, their metrics and the overall status are each their function of the inputs, and "success" implies a non-empty list of predictions |
| `DataGenerationFlow.MetricsSucceedIff` | services/prefect/flows/data_generation_flow.py:124-283 | the metrics of a workflow succeed iff no prediction request raises and at least one answers 200 |
| `DataGenerationFlow.RecordedEmpty` | services/prefect/flows/data_generation_flow.py:145-156 | when no request raises, nothing is recorded iff no answer is a 200 |
| `MlMonitoringFlow.CheckApiHealth` | services/prefect/flows/ml_monitoring_flow.py:16-37 | "healthy" iff a 200 answer with a JSON body; a raised error is "unhealthy" |
| `MlMonitoringFlow.SimulateModelDriftCheck` | services/prefect/flows/ml_monitoring_flow.py:41-66 | drift iff the score is strictly above 0.7; the status is "drift_detected" or "stable" to match |
| `MlMonitoringFlow.CheckDataQuality` | services/prefect/flows/ml_monitoring_flow.py:70-97 | the score is the mean of the four metrics, and quality is good iff that mean is at least 0.85 |
| `MlMonitoringFlow.GenerateMlPredictions` | services/prefect/flows/ml_monitoring_flow.py:101-157 | at most 5 predictions; 0 when login fails or a request raises; success lists the recorded predictions |
| `MlMonitoringFlow.MlMonitoringWorkflow` | services/prefect/flows/ml_monitoring_flow.py:179-252 | the alert list is the expected alerts, the count is its length, one notification per alert, and the status is "healthy" iff there are none |
| `MlMonitoringFlow.AlertsMeaning` | services/prefect/flows/ml_monitoring_flow.py:200-228 | each alert is present iff its condition holds, at most three, in the fixed order api_health, model_drift, data_quality |
| `MlMonitoringFlow.DriftOnlyAlert` | services/prefect/flows/ml_monitoring_flow.py:200-228 | a healthy API and good data with a drifting model raise exactly the drift alert |
| `MlAutomationFlow.Colour` | services/prefect/flows/ml_automation_flow.py:37-45 | "Drift" is 16753920, every known status its own colour, any other 3447003 |
| `MlAutomationFlow.SendDiscordNotification` | services/prefect/flows/ml_automation_flow.py:28-84 | no webhook gives false without a post; otherwise true exactly on a 204 answer |
| `MlAutomationFlow.Healthy` | services/prefect/flows/ml_automation_flow.py:87-102 | healthy exactly on a 200 answer |
| `MlAutomationFlow.AuthenticateApi` | services/prefect/flows/ml_automation_flow.py:105-123 | a token exactly for a 200 answer that carries one |
| `MlAutomationFlow.DetectModelDrift` | services/prefect/flows/ml_automation_flow.py:126-194 | the verdict is `DriftOf` the inputs: no token gives no drift whatever the draw; a raise falls back to random < 0.5; otherwise drift = (random < 0.5) or (mean confidence < 0.7) |
| `MlAutomationFlow.NoConfidenceMeansDrift` | services/prefect/flows/ml_automation_flow.py:167-176 | when login succeeds, nothing raises and no prediction carries a confidence, the mean defaults to 0.5 and the hybrid verdict `DriftOf` always detects drift, with mean 0.5 |
| `MlAutomationFlow.AutomatedModelRetraining` | services/prefect/flows/ml_automation_flow.py:197-279 | "skipped" iff no drift; no token fails with authentication_failed; a non-200 generation fails with one "Échec"; success sends "Succès" with accuracy in [0.85, 0.95) |
| `MlAutomationFlow.MonitorSystemHealth` | services/prefect/flows/ml_automation_flow.py:282-319 | an alert is sent iff the API or MLflow is not healthy |
| `MlAutomationFlow.MlAutomationPipeline` | services/prefect/flows/ml_automation_flow.py:322-368 | an unhealthy API aborts before drift detection; otherwise the drift verdict is `DriftOf` the detection inputs, and retraining runs iff that verdict detects drift |
| `SimpleUptimeMonitor.CheckApiHealth` | simple_uptime_monitor.py:66-93 | up exactly on a 200; any other code or a raised error is down |
| `SimpleUptimeMonitor.HandlingKeepsInvariant` | simple_uptime_monitor.py:95-126 | handling a check keeps "an outage start is recorded iff the last state was down" |
| `SimpleUptimeMonitor.NoticeOnTransitionOnly` | simple_uptime_monitor.py:99-126 | the first check sends exactly one Online or Offline notice; later a notice is sent iff the state changed; a recovery reports the outage length |
| `SimpleUptimeMonitor.ChecksRun` | simple_uptime_monitor.py:139-183 | at most the available checks run, and at least one when any is available |
| `SimpleUptimeMonitor.Replay` | simple_uptime_monitor.py:156-162 | after a run the remembered status is that of the last check |
| `SimpleUptimeMonitor.ReplayKeepsInvariant` | simple_uptime_monitor.py:104-126 | the outage invariant holds after any run of checks that starts where it holds |
| `SimpleUptimeMonitor.SteadyUpSendsOnce` | simple_uptime_monitor.py:99-109 | a run of up answers sends only the first Online notice and records no outage |
| `SimpleUptimeMonitor.Monitor.constructor` | simple_uptime_monitor.py:16-22 | a new monitor has no last status, no outage and sent nothing |
| `SimpleUptimeMonitor.Monitor.HandleStatusChange` | simple_uptime_monitor.py:95-126 | the outage marker and the notices are those of the transition from the last status |
| `SimpleUptimeMonitor.Monitor.CheckOnce` | simple_uptime_monitor.py:156-162 | one pass keeps the invariant and remembers the status just checked |
| `SimpleUptimeMonitor.Monitor.RunChecks` | simple_uptime_monitor.py:150-169 | the loop keeps the invariant and leaves the state of replaying the checks it ran |
| `SimpleUptimeMonitor.Monitor.RunMonitoring` | simple_uptime_monitor.py:139-183 | the checks run and the final state are those of the replay up to the stop |
| `MonitoringService.Colour` | services/monitoring/scripts/monitoring_service.py:76-88 | a known status gets its colour; any other gets 3447003 |
| `MonitoringService.CheckServiceHealth` | services/monitoring/scripts/monitoring_service.py:128-152 | healthy iff the code is 200, 201 or 202; a raised error is unhealthy with that error |
| `MonitoringService.AllStatuses` | services/monitoring/scripts/monitoring_service.py:154-161 | one status per configured service, in order |
| `MonitoringService.AllStatusesDistinct` | services/monitoring/scripts/monitoring_service.py:46-64 | each service appears once in a cycle's results |
| `MonitoringService.Lookup` | services/monitoring/scripts/monitoring_service.py:170-171 | the previous status of a service is found exactly when it was recorded |
| `MonitoringService.LookupOwn` | services/monitoring/scripts/monitoring_service.py:170-171 | looking up a service in a cycle's own results finds its status |
| `MonitoringService.ChangeOf` | services/monitoring/scripts/monitoring_service.py:174-185 | a change carries the service, the current status and the previous one, and is a recovery iff the service is healthy |
| `MonitoringService.Changes` | services/monitoring/scripts/monitoring_service.py:163-187 | at most one change per service checked this cycle |
| `MonitoringService.ChangesMeaning` | services/monitoring/scripts/monitoring_service.py:163-187 | a change is reported for a service iff its healthy flag differs from the previous cycle's |
| `MonitoringService.FirstCycleReportsAll` | services/monitoring/scripts/monitoring_service.py:65 | from an empty history every service is reported: healthy ones as recovery, unhealthy ones as failure |
| `MonitoringService.RepeatedCycleReportsNothing` | services/monitoring/scripts/monitoring_service.py:274 | an identical next cycle reports no change |
| `MonitoringService.LevelColourAgrees` | services/monitoring/scripts/monitoring_service.py:76-88 | each alert level is a key of the colour map with its colour |
| `MonitoringService.AlertOf` | services/monitoring/scripts/monitoring_service.py:195-223 | a failure sends "Critical" with the error if present, else the status code; a recovery sends "Recovery" |
| `MonitoringService.AlertsFor` | services/monitoring/scripts/monitoring_service.py:189-223 | exactly one alert per change, in order |
| `MonitoringService.FailureAlertDetail` | services/monitoring/scripts/monitoring_service.py:200-211 | a failed check's alert shows its error, or its status code when there is no error |
| `MonitoringService.HealthyCount` | services/monitoring/scripts/monitoring_service.py:227-228 | the healthy count is at most the total, equals it iff all are healthy, and is 0 iff none is |
| `MonitoringService.SummaryLineOf` | services/monitoring/scripts/monitoring_service.py:230-249 | a summary line shows the response time of a healthy service and at most 50 characters of an unhealthy one's error |
| `MonitoringService.GenerateHealthSummary` | services/monitoring/scripts/monitoring_service.py:225-251 | healthy count ≤ total, one line per service |
| `MonitoringService.Replay` | services/monitoring/scripts/monitoring_service.py:253-292 | each cycle adds one to the counter and the last status is the last round's results |
| `MonitoringService.ReportsAppend` | services/monitoring/scripts/monitoring_service.py:286-292 | summary counts add over concatenated notice lists |
| `MonitoringService.AlertsAreNotReports` | services/monitoring/scripts/monitoring_service.py:189-223 | change alerts are never summary reports |
| `MonitoringService.CycleReports` | services/monitoring/scripts/monitoring_service.py:286-292 | a cycle sends a summary iff its number is a multiple of 10 |
| `MonitoringService.ReportEveryTenthCycle` | services/monitoring/scripts/monitoring_service.py:286-292 | over any run the summaries sent equal the multiples of 10 crossed by the cycle counter |
| `MonitoringService.FreshRunReports` | services/monitoring/scripts/monitoring_service.py:286-294 | from a fresh counter n cycles send n / 10 summaries (cycles 10, 20, 30, …) |
| `MonitoringService.EnhancedMonitoringService.constructor` | services/monitoring/scripts/monitoring_service.py:46-66 | no last status, counter 0, nothing sent |
| `MonitoringService.EnhancedMonitoringService.CheckAllServices` | services/monitoring/scripts/monitoring_service.py:154-161 | the loop checks every service in order |
| `MonitoringService.EnhancedMonitoringService.DetectStatusChanges` | services/monitoring/scripts/monitoring_service.py:163-187 | the loop collects exactly the changes against the last status |
| `MonitoringService.EnhancedMonitoringService.SendStatusChangeAlerts` | services/monitoring/scripts/monitoring_service.py:189-223 | one alert appended per change |
| `MonitoringService.EnhancedMonitoringService.RunMonitoringCycle` | services/monitoring/scripts/monitoring_service.py:253-292 | the last status becomes this cycle's results, the counter grows by one, and the cycle's alerts and summary are sent |
| `MonitoringService.EnhancedMonitoringService.RunCycles` | services/monitoring/scripts/monitoring_service.py:294-328 | the loop leaves the state of replaying its rounds |
| `MonitoringService.EnhancedMonitoringService.Run` | services/monitoring/scripts/monitoring_service.py:294-328 | `run` leaves the state of replaying its rounds |
| `UptimeMonitor.CheckApiHealth` | services/api/src/monitoring/uptime_monitor.py:25-55 | up iff a 200 whose body parses; a raised error, or a 200 whose body does not parse, has status code 0 and response time 0 |
| `UptimeMonitor.CheckEndpointHealth` | services/api/src/monitoring/uptime_monitor.py:57-87 | an unsupported method is an error result; otherwise up iff the code is below 400, and a raised error gives code 0 and time 0 |
| `UptimeMonitor.Results` | services/api/src/monitoring/uptime_monitor.py:102-127 | one result per configured endpoint |
| `UptimeMonitor.UpPlusDown` | services/api/src/monitoring/uptime_monitor.py:102-127 | up + down = total endpoints |
| `UptimeMonitor.CountsMeaning` | services/api/src/monitoring/uptime_monitor.py:122-127 | no endpoint up iff the up count is 0; none down iff the down count is 0 |
| `UptimeMonitor.UpTimeSumIgnoresDown` | services/api/src/monitoring/uptime_monitor.py:112-131 | the response-time total ignores endpoints that are down |
| `UptimeMonitor.OverallOf` | services/api/src/monitoring/uptime_monitor.py:133-139 | "up" iff none down, "down" iff none up, else "degraded" |
| `UptimeMonitor.SummarizeMeaning` | services/api/src/monitoring/uptime_monitor.py:89-143 | the report's counts partition the endpoints and the average is over up endpoints only, 0 when none |
| `UptimeMonitor.CheckEndpoints` | services/api/src/monitoring/uptime_monitor.py:102-131 | the counting loop computes the summary |
| `UptimeMonitor.RunComprehensiveHealthCheck` | services/api/src/monitoring/uptime_monitor.py:89-143 | six endpoints, all checked, up + down = 6 |
| `UptimeMonitor.ChecksAddUp` | services/api/src/monitoring/uptime_monitor.py:205-207 | successful + failed = total checks |
| `UptimeMonitor.PercentageBounds` | services/api/src/monitoring/uptime_monitor.py:209-221 | the uptime percentage is in [0, 100] and 0 with no checks |
| `UptimeMonitor.Rounds` | services/api/src/monitoring/uptime_monitor.py:185-215 | one report per cycle |
| `UptimeMonitor.GenerateUptimeReport` | services/api/src/monitoring/uptime_monitor.py:179-227 | totals are per-cycle sums, successful + failed = total, the percentage is in [0, 100], and there is no sleep after the last cycle |
| `PrefectDashboard.FlowLogsShape` | services/monitoring/prefect_dashboard.py:60-88 | the log has 4 + 3·[monitoring] + 3·[data] + 1 lines, matched without regard to case |
| `PrefectDashboard.NewRun` | services/monitoring/prefect_dashboard.py:32-44 | a run's id is the prior history length + 1, and a falsy duration falls back to the random one |
| `PrefectDashboard.HistoryIsNewestWindow` | services/monitoring/prefect_dashboard.py:46-50 | however many runs are added, the history is the newest 100 of them, in insertion order |
| `PrefectDashboard.FullHistoryIds` | services/monitoring/prefect_dashboard.py:37-50 | once the cap is reached every new id is 101 |
| `PrefectDashboard.SeverityColour` | services/monitoring/prefect_dashboard.py:192-218 | a known severity gets its colour; any other gets 3447003 |
| `PrefectDashboard.CountPredictions` | services/monitoring/prefect_dashboard.py:105-128 | predictions counted up to the first raise, and 0 without login |
| `PrefectDashboard.MlMonitoringOutcome` | services/monitoring/prefect_dashboard.py:90-151 | "Completed" iff the API answers 200; drift iff score > 0.7; Discord only with drift and a webhook |
| `PrefectDashboard.DataGenerationOutcome` | services/monitoring/prefect_dashboard.py:153-190 | the flow completes iff login succeeds and generation answers 200 |
| `PrefectDashboard.TickPeriods` | services/monitoring/prefect_dashboard.py:234-254 | a 120-second period on 30-second ticks fires every 4th tick, a 300-second one every 10th |
| `PrefectDashboard.UninterruptedSchedule` | services/monitoring/prefect_dashboard.py:234-254 | without raises the ML flow fires on ticks k ≡ 0 (mod 4) and the data flow on k ≡ 0 (mod 10) |
| `PrefectDashboard.AdvancedAll` | services/monitoring/prefect_dashboard.py:234-254 | without raises every tick advances the counter |
| `PrefectDashboard.RaiseRepeatsSchedule` | services/monitoring/prefect_dashboard.py:250-254 | a raise skips the increment, so the next tick repeats the same schedule |
| `PrefectDashboard.TickStepGrows` | services/monitoring/prefect_dashboard.py:237-248 | one iteration only appends posts and counts each flow it fires once, as a success or a failure |
| `PrefectDashboard.AutomatedGrows` | services/monitoring/prefect_dashboard.py:220-257 | over any iterations no post is removed and successes plus failures grow by the number of flows the schedule fires |
| `PrefectDashboard.Dashboard.constructor` | services/monitoring/prefect_dashboard.py:21-30 | empty history, zero counters, no last run |
| `PrefectDashboard.Dashboard.AddFlowRun` | services/monitoring/prefect_dashboard.py:32-58 | append and trim to the newest 100; total = successful + failed is kept; success iff the status is exactly "Completed"; `last_run` is stamped |
| `PrefectDashboard.Dashboard.SendDiscordNotification` | services/monitoring/prefect_dashboard.py:192-218 | one embed with the severity's colour when a webhook is set, none otherwise |
| `PrefectDashboard.Dashboard.RunMlMonitoringFlow` | services/monitoring/prefect_dashboard.py:90-151 | the result is the outcome's; one run is recorded with the outcome's status, and the drift warning is posted iff the outcome notifies |
| `PrefectDashboard.Dashboard.RunDataGenerationFlow` | services/monitoring/prefect_dashboard.py:153-190 | the result is the outcome's; one run is recorded with the outcome's status |
| `PrefectDashboard.Dashboard.RunTick` | services/monitoring/prefect_dashboard.py:239-245 | one iteration runs the ML flow, then the data flow, each only when the schedule fires it; the run count grows by the flows run |
| `PrefectDashboard.Dashboard.RunAutomationLoop` | services/monitoring/prefect_dashboard.py:220-257 | the flows fired are the schedule's; the dashboard ends in the state of running the fired flows from the state after the startup notice; the run count grows by the flows fired, and no post is removed |
| `PrefectDashboard.Dashboard.StartupPosts` | services/monitoring/prefect_dashboard.py:224-232 | the startup notice is one blue embed when a webhook is set, and nothing otherwise |
| `PrefectDashboard.Dashboard.DashboardRuns` | services/monitoring/prefect_dashboard.py:358-363 | at most 20 runs, newest first |
| `PrefectDashboard.Dashboard.ApiFlowRuns` | services/monitoring/prefect_dashboard.py:384-386 | at most the last 50 runs, oldest first |
| `FlowDashboard.NewRun` | services/monitoring/flow_dashboard.py:26-38 | the id is the prior history length + 1; a falsy duration falls back to the random one and missing details to `{}` |
| `FlowDashboard.HistoryIsNewestWindow` | services/monitoring/flow_dashboard.py:39-43 | the history is always the newest 50 runs, in insertion order |
| `FlowDashboard.SimulatedStatus` | services/monitoring/flow_dashboard.py:67 | a simulated run completes iff its draw exceeds 0.1 |
| `FlowDashboard.CompletedDraws` | services/monitoring/flow_dashboard.py:53-86 | at most one completed run per pass |
| `FlowDashboard.Simulated` | services/monitoring/flow_dashboard.py:53-86 | the simulated history stays within 50 runs and ends with the run of the last pass |
| `FlowDashboard.Dashboard.constructor` | services/monitoring/flow_dashboard.py:16-24 | empty history and zero counters |
| `FlowDashboard.Dashboard.AddFlowRun` | services/monitoring/flow_dashboard.py:26-51 | append and trim to 50; total = successful + failed is kept; success iff the status is exactly "completed"; last_run is updated on every add |
| `FlowDashboard.Dashboard.SimulateFlowRuns` | services/monitoring/flow_dashboard.py:53-86 | the history is the simulated one (one run of the drawn flow per pass, trimmed to 50); the total grows by the passes, successes by the completed draws, failures by the rest; `last_run` is the last pass's clock reading |
| `FlowDashboard.Dashboard.DashboardRuns` | services/monitoring/flow_dashboard.py:178 | the last ≤ 20 runs, newest first |
| `FlowDashboard.Dashboard.ApiRuns` | services/monitoring/flow_dashboard.py:189-191 | the last ≤ 20 runs, oldest first: the dashboard's list reversed |
| `DiscordNotifier.NewNotifier` | services/api/src/monitoring/discord_notifier.py:20-21 | an explicit webhook URL wins over the environment variable |
| `DiscordNotifier.Colour` | services/api/src/monitoring/discord_notifier.py:30-37 | four known statuses have their colours; any other gets 3447003 |
| `DiscordNotifier.ColoursDistinguishStatuses` | services/api/src/monitoring/discord_notifier.py:30-37 | the four known colours are distinct, and an unknown status looks like "Info" |
| `DiscordNotifier.SendNotification` | services/api/src/monitoring/discord_notifier.py:23-70 | no webhook gives false without a post; otherwise one embed with the status's colour, and true iff the answer is 204 |
| `DiscordNotifier.TestWebhook` | services/api/src/monitoring/discord_notifier.py:72-88 | the test message is sent as "Info" in blue; false without a webhook |
| `DiscordNotifier.HelperStatuses` | services/api/src/monitoring/discord_notifier.py:90-108 | pipeline and retrain successes are sent as "Succès" in green, failures as "Échec" in red, and each message ends with the caller's text |
| `DiscordNotifier.Classify` | services/api/src/monitoring/discord_notifier.py:112-120 | error, critical and failure give "Échec" with a siren; warning and caution give "Avertissement" with a warning sign; any other type gives "Info" |
| `DiscordNotifier.ClassifyIgnoresCase` | services/api/src/monitoring/discord_notifier.py:112 | the classification does not depend on the type's case |
| `DiscordNotifier.SendMonitoringAlert` | services/api/src/monitoring/discord_notifier.py:110-123 | the alert is posted with the class's status and colour and the alert text, true iff 204 |
| `DiscordNotifier.AlertMessageShape` | services/api/src/monitoring/discord_notifier.py:122 | the text is emoji + " " + the title-cased type + " Alert\n" + the details |
| `DiscordNotifier.AlertColours` | services/api/src/monitoring/discord_notifier.py:30-37 | for every alert type, in any case: error, critical and failure alerts are red, warning and caution alerts yellow, any other type blue |
| `DbManager.SampleRows` | services/api/src/database/db_manager.py:110-115 | one sample row per triple, all of the stored generation |
| `DbManager.SamplesOfAppend` | services/api/src/database/db_manager.py:143-147 | the samples of a generation split over appended tables |
| `DbManager.SamplesOfRows` | services/api/src/database/db_manager.py:105-115 | the rows inserted for g read back as the given triples |
| `DbManager.StoreDatasetResult` | services/api/src/database/db_manager.py:96-124 | a generation id already stored is rejected (UNIQUE) and nothing is kept |
| `DbManager.LatestDataset` | services/api/src/database/db_manager.py:126-156 | None iff there is no dataset; otherwise the newest dataset's generation id |
| `DbManager.StoreThenLatestDataset` | services/api/src/database/db_manager.py:105-152 | storing then reading the latest dataset gives back that generation id and all of its samples |
| `DbManager.StoreDatasetKeepsInvariants` | services/api/src/database/db_manager.py:96-124 | a successful store keeps generation ids unique and every sample tied to a stored dataset |
| `DbManager.Deactivate` | services/api/src/database/db_manager.py:166-167 | every row is kept with its flag cleared |
| `DbManager.StoreModelResult` | services/api/src/database/db_manager.py:158-182 | a duplicate version is rejected and commits nothing; otherwise the new row is added last |
| `DbManager.ActiveModel` | services/api/src/database/db_manager.py:184-212 | None iff no row is active; otherwise the newest active row |
| `DbManager.StoreActiveModel` | services/api/src/database/db_manager.py:166-173 | storing an active model leaves exactly one active row, the new one |
| `DbManager.StoreInactiveModel` | services/api/src/database/db_manager.py:166-173 | storing an inactive model leaves every existing flag unchanged |
| `DbManager.StoreModelKeepsInvariants` | services/api/src/database/db_manager.py:158-182 | a successful store keeps versions unique and at most one model active |
| `DbManager.StoreThenGetActiveModel` | services/api/src/database/db_manager.py:158-208 | storing an active model then reading the active model gives back its version and accuracy |
| `DbManager.DatabaseManager.constructor` | services/api/src/database/db_manager.py:20-94 | the four tables start empty and the invariants hold |
| `DbManager.DatabaseManager.StoreDataset` | services/api/src/database/db_manager.py:96-124 | true iff the generation is new; then the tables are the stored result, the samples inserted by the loop, and the stats count one more dataset and its samples; false changes nothing |
| `DbManager.DatabaseManager.GetLatestDataset` | services/api/src/database/db_manager.py:126-156 | the latest dataset of the current tables |
| `DbManager.DatabaseManager.StoreModel` | services/api/src/database/db_manager.py:158-182 | true iff the version is new; then the table is the stored result and the stats count one more model; false changes nothing |
| `DbManager.DatabaseManager.GetActiveModel` | services/api/src/database/db_manager.py:184-212 | the active model of the current table |
| `DbManager.DatabaseManager.ListDatasets` | services/api/src/database/db_manager.py:214-241 | at most `limit` datasets, newest first |
| `DbManager.DatabaseManager.ListModels` | services/api/src/database/db_manager.py:243-271 | at most `limit` models, newest first |
| `DbManager.DatabaseManager.StoreExperiment` | services/api/src/database/db_manager.py:273-292 | one experiments row appended, and the stats count one more experiment |
| `PredictionLogger.StoredJson` | services/api/src/database/prediction_logger.py:181 | an absent or empty dict is stored as NULL |
| `PredictionLogger.DetailsRoundTrip` | services/api/src/database/prediction_logger.py:405-409 | a non-empty dict is read back equal to what was logged; None and `{}` read back as None |
| `PredictionLogger.PredictionHistory` | services/api/src/database/prediction_logger.py:254-301 | at most `limit` rows; with a truthy user id the newest-first window of that user's rows, otherwise of all rows |
| `PredictionLogger.HistoryAppend` | services/api/src/database/prediction_logger.py:254-301 | without a limit, logging a prediction puts it in front of the history exactly when it belongs to the filtered user (or no user filter applies), and keeps the rest |
| `PredictionLogger.LatestPredictionFirst` | services/api/src/database/prediction_logger.py:261-283 | a prediction just logged heads its user's history and the unfiltered one |
| `PredictionLogger.ConditionsMeaning` | services/api/src/database/prediction_logger.py:384-393 | the WHERE clause built from the conditions list means level matches AND component matches, for each filter given |
| `PredictionLogger.SelectSystemLogs` | services/api/src/database/prediction_logger.py:371-400 | the newest-first window of at most `limit` of the stored rows that match both filters |
| `PredictionLogger.SelectSystemLogsComplete` | services/api/src/database/prediction_logger.py:384-396 | with no limit every matching row is selected |
| `PredictionLogger.SystemLogsAppend` | services/api/src/database/prediction_logger.py:371-400 | without a limit, a new entry goes in front of the selection exactly when it matches the filters |
| `PredictionLogger.DriftDetections` | services/api/src/database/prediction_logger.py:338-369 | min(limit, rows) detections, newest first, details decoded |
| `PredictionLogger.StatsCountsAddUp` | services/api/src/database/prediction_logger.py:422-432 | each model version is counted once, with its number of predictions, and the counts add up to the total |
| `PredictionLogger.StatsAverages` | services/api/src/database/prediction_logger.py:435-442 | no predictions give zeros; confidences in [0, 1] average in [0, 1] |
| `PredictionLogger.NullResponseTimeIgnored` | services/api/src/database/prediction_logger.py:438-442 | a prediction without a response time leaves the average response time unchanged |
| `PredictionLogger.Logger.constructor` | services/api/src/database/prediction_logger.py:15-97 | the five tables start empty |
| `PredictionLogger.Logger.LogPrediction` | services/api/src/database/prediction_logger.py:99-131 | exactly one row appended, with the next id |
| `PredictionLogger.Logger.LogTraining` | services/api/src/database/prediction_logger.py:133-166 | exactly one row appended, with the next id |
| `PredictionLogger.Logger.LogSystemEvent` | services/api/src/database/prediction_logger.py:168-193 | exactly one row appended, details stored as JSON or NULL |
| `PredictionLogger.Logger.LogMonitoringMetric` | services/api/src/database/prediction_logger.py:195-218 | exactly one row appended, labels stored as JSON or NULL |
| `PredictionLogger.Logger.LogDriftDetection` | services/api/src/database/prediction_logger.py:220-252 | exactly one row appended, details stored as JSON or NULL |
| `PredictionLogger.LogThenReadDrift` | services/api/src/database/prediction_logger.py:220-369 | after logging a drift detection the read is empty exactly when the limit is 0; otherwise the new detection is read back first, with its id, model version, method and action, and its details as logged (None and `{}` read back as None) |
| `PredictionLogger.Logger.GetPredictionHistory` | services/api/src/database/prediction_logger.py:254-301 | the newest `limit` logged predictions (all for a negative limit), newest first, complete: for a truthy user id exactly that user's newest, otherwise all users' |
| `PredictionLogger.Logger.GetTrainingHistory` | services/api/src/database/prediction_logger.py:303-336 | the newest min(limit, n) training runs, newest first |
| `PredictionLogger.Logger.GetSystemLogs` | services/api/src/database/prediction_logger.py:371-414 | the newest `limit` logged entries matching the level and component filters, newest first and complete, details decoded |
| `PredictionLogger.Logger.GetDriftDetections` | services/api/src/database/prediction_logger.py:338-369 | the newest min(limit, n) detections, newest first, details decoded |
| `PredictionLogger.Logger.GetPredictionStats` | services/api/src/database/prediction_logger.py:416-456 | the total is the number of logged predictions, the per-model counts are distinct and add up to it, and an empty log gives zeros |
| `AuthService.CreateUserResult` | services/api/src/auth/auth_service.py:181-240 | 400 iff the username or the email already exists; otherwise one row appended and the others kept |
| `AuthService.InsertKeepsValid` | services/api/src/auth/auth_service.py:199-216 | inserting an untaken username and email keeps ids sequential and usernames and emails unique |
| `AuthService.ActiveIndex` | services/api/src/auth/auth_service.py:248-258 | the row read is an active row with that username, and none exists when not found |
| `AuthService.Authenticate` | services/api/src/auth/auth_service.py:242-295 | None for an unknown or inactive user and for a wrong password; on success only that row changes, its login count + 1 and its last login now |
| `AuthService.AuthenticateKeepsValid` | services/api/src/auth/auth_service.py:275-283 | a login keeps the users table valid |
| `AuthService.CreateThenAuthenticate` | services/api/src/auth/auth_service.py:171-295 | a user just created logs in with its password, since verification re-hashes with the stored salt |
| `AuthService.DefaultUsers` | services/api/src/auth/auth_service.py:121-169 | nothing is inserted when an "admin" row exists; otherwise two rows are appended |
| `AuthService.DefaultUsersIdempotent` | services/api/src/auth/auth_service.py:127-130 | seeding twice equals seeding once, whatever salts the second call draws |
| `AuthService.DefaultAccountsLogIn` | services/api/src/auth/auth_service.py:121-169 | after seeding, admin/admin123 authenticates as the admin |
| `AuthService.DefaultUsersKeepValid` | services/api/src/auth/auth_service.py:121-169 | seeding keeps the users table valid |
| `AuthService.RevokedFlag` | services/api/src/auth/auth_service.py:360-378 | falsy when no unexpired row has that token hash |
| `AuthService.UserById` | services/api/src/auth/auth_service.py:380-406 | the active row with that id, or None when there is none |
| `AuthService.SubjectRoundTrip` | services/api/src/auth/auth_service.py:301-339 | the subject `str(user.id)` a token carries reads back through `int()` as that id |
| `AuthService.VerifyToken` | services/api/src/auth/auth_service.py:335-358 | a verified user comes from an unexpired payload whose subject reads as its non-zero id, is active, and the token is not revoked; an expired payload gives None; an unexpired payload naming an active user gives that user |
| `AuthService.CurrentUser` | services/api/src/auth/auth_service.py:442-454 | 401 iff the token does not verify |
| `AuthService.AdminUser` | services/api/src/auth/auth_service.py:457-464 | 401 without a user, 403 for any role other than "admin" |
| `AuthService.AccessPayload` | services/api/src/auth/auth_service.py:297-315 | the token expires 24 hours after it is issued |
| `AuthService.LoginResult` | services/api/src/auth/auth_service.py:408-427 | 401 and no change on failure; on success a bearer token with expires_in 24·3600 whose hash is stored |
| `AuthService.LoginTokenVerifies` | services/api/src/auth/auth_service.py:297-378 | a token just issued is not revoked, verifies to the user who logged in until 24 hours have passed, and to nobody from then on |
| `AuthService.Service.constructor` | services/api/src/auth/auth_service.py:62-119 | the tables are created and seeded with the default accounts |
| `AuthService.Service.CreateDefaultAdmin` | services/api/src/auth/auth_service.py:121-169 | the table becomes the seeded one, or stays unchanged on a clash |
| `AuthService.Service.CreateUser` | services/api/src/auth/auth_service.py:181-240 | 400 and no change when taken; otherwise the created table |
| `AuthService.Service.AuthenticateUser` | services/api/src/auth/auth_service.py:242-295 | the result and new table are those of authenticating |
| `AuthService.Service.Login` | services/api/src/auth/auth_service.py:408-427 | the response and both tables are those of the login outcome |
| `AuthService.Service.IsTokenRevoked` | services/api/src/auth/auth_service.py:360-378 | a revoked answer comes from an unexpired row of this token; since nothing sets `is_revoked`, it is never true |
| `AuthService.Service.VerifyAccessToken` | services/api/src/auth/auth_service.py:335-358 | a verified user needs a token that decodes, has not expired, names that user's id and is not revoked, and is that id's row; an undecodable or expired token gives None |

## Left out

- HTTP requests and webhook posts are replaced by their answers. Embed titles, footers and
  timestamps are not modelled, and neither are payload fields other than the message,
  colour and status.
- Random draws (`random.uniform`, `random.random`, `random.choice`) are parameters.
- Clocks are parameters, in whole seconds. `time.sleep`, the daemon threads of both
  dashboards, and real waiting are not modelled.
- `while True` loops run over a finite sequence of per-iteration inputs. Keyboard
  interrupts are not modelled.
- Float formatting (`:.3f`, `:.1f`) and `round()` are not modelled. Accuracies are
  inputs already rendered as text where a message shows them. Statistics are exact reals.
- sklearn, joblib and MLflow are left out, since they are foreign libraries. In
  `flow.py`, the loading of the model and its scoring are inputs: whether model.pkl
  loads, and the current accuracy. `train_model` and `save_last_model_mlflow_to_joblib`
  are not modelled.
- PBKDF2, SHA-256 and JWT signing and decoding are arbitrary functions passed in. Decoding
  yields the signed payload, or None for a malformed token or a bad signature. The model
  checks expiry itself: a payload whose `exp` is at or before the clock reading is
  rejected. PyJWT's other claim checks, such as an `iat` in the future, are not modelled.
- `AuthService.SubjectId`: `int()` is modelled on an optional minus sign followed by
  decimal digits. The other spellings Python accepts (surrounding whitespace, a plus
  sign, underscores) are read as failures. The service only issues subjects of the
  modelled form.
- `Json.ParseEscape`: a `\uXXXX` escape holding a lone surrogate is read as a failure.
  Python keeps it in the decoded string, but a Dafny string cannot hold it. `json.dumps`
  never writes one.
- Default arguments are not modelled: every caller passes all of them. These are
  `is_active=True` in `store_model`, `limit=50` in `list_datasets`,
  `get_training_history` and `get_drift_detections`, `limit=20` in `list_models`,
  `limit=100` in `get_prediction_history` and `get_system_logs`, and `role="user"` in
  `UserCreate`.
- `created_at` timestamps are not stored. `ORDER BY created_at DESC` is reverse insertion
  order, because nothing is ever deleted or updated out of order. Rows inserted within the
  same second may come back in another order in SQLite.
- Token `expires_at` is compared as whole seconds, not as SQLite datetime text.
- `get_prediction_stats` returns the per-model counts in first-occurrence order; the
  `ORDER BY COUNT(*) DESC` order is not modelled.
- `DbManager.health_check`, the `login_sessions` table, `print_status`,
  `UptimeMonitor.monitor_continuously`, `check_uptime_kuma_status`, and the dashboard
  routes `/api/ready`, `/api/flows` and `/api/stats` are not modelled. They are console
  output, sleeps around already-modelled checks, or constant JSON.
- Every `main()`, CLI menu and `__main__` block is not modelled, except the loop of
  simple_automation.py. This includes the seeding of runs in flow_dashboard.py.
- A database file that already exists is not modelled. Each service starts from empty
  tables.
- SQLite failures other than UNIQUE violations are not modelled.
  `create_default_admin`'s UNIQUE clash (an email taken without the "admin" username)
  is an error result that keeps no rows.
- JSON details are flat objects with string, integer, boolean and null values. Nested
  values and floats are not modelled.
- `str.lower()`, `upper()` and `title()` act on ASCII letters only.
- monitoring.py spells its statuses with mis-encoded characters, consistently in the
  colour map and at the call sites. The model writes them correctly encoded, for example "Succès".
- No cooldown, alert-deduplication window, retraining lock or bounded-retry wrapper is
  modelled, because none exists in the code. Prefect's `retries=` is library
  configuration.
