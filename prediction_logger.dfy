/** `services/api/src/database/prediction_logger.py`: the API's audit log — predictions,
    training runs, system events, monitoring metrics and drift detections, each an
    append-only table — and the queries that read them back newest first. JSON columns
    are written with `json.dumps` and decoded with `json.loads`. */
module PredictionLogger {
  import opened Common
  import Json

  datatype PredictionLog = PredictionLog(id: nat, userId: Option<int>, modelVersion: string, feature1: real,
                                         feature2: real, prediction: int, confidence: real,
                                         responseTimeMs: Option<real>)

  datatype TrainingLog = TrainingLog(id: nat, modelVersion: string, triggerReason: string, trainingSamples: int,
                                     accuracyBefore: real, accuracyAfter: real, trainingDuration: real,
                                     mlflowRunId: Option<string>)

  /** A `system_logs` row; `details` is the stored JSON text, or NULL. */
  datatype SystemLog = SystemLog(id: nat, level: string, component: string, eventType: string, message: string,
                                 details: Option<string>, userId: Option<int>)

  datatype MonitoringMetric = MonitoringMetric(id: nat, metricName: string, metricValue: real, metricType: string,
                                               labels: Option<string>)

  /** A `drift_detections` row; `details` is the stored JSON text, or NULL. */
  datatype DriftDetection = DriftDetection(id: nat, modelVersion: string, detectionMethod: string, triggerValue: real,
                                           threshold: real, actionTaken: string, details: Option<string>)

  // ---------------------------------------------------------------------------
  // JSON columns

  /** `json.dumps(details) if details else None`: an absent or empty dict is stored as NULL. */
  function StoredJson(details: Option<Json.Object>): (r: Option<string>)
    ensures r.None? <==> details.None? || details.value == []
  {
    if details.Some? && details.value != [] then Some(Json.Dumps(details.value)) else None
  }

  /** `json.loads(row[k]) if row[k] else None`. */
  function ReadJson(stored: Option<string>): Option<Json.Object>
  {
    if Truthy(stored) then Json.Loads(stored.value) else None
  }

  /** A non-empty dict is read back equal to what was logged; None and `{}` are read back
      as None. */
  lemma DetailsRoundTrip(details: Option<Json.Object>)
    ensures ReadJson(StoredJson(details)) == if details.Some? && details.value != [] then details else None
  {
    if details.Some? && details.value != [] {
      Json.LoadsDumps(details.value);
      assert Json.Dumps(details.value)[0] == '{';
    }
  }

  // ---------------------------------------------------------------------------
  // Query results

  /** `get_prediction_history`: filtered by user only when `user_id` is truthy (neither
      None nor 0). */
  predicate UserTruthy(userId: Option<int>)
  {
    userId.Some? && userId.value != 0
  }

  /** `WHERE user_id = ?`. */
  function OfUser(userId: Option<int>): PredictionLog -> bool
  {
    (p: PredictionLog) => p.userId == userId
  }

  /** A truthy user selects that user's rows, otherwise every row matches. */
  predicate InHistory(p: PredictionLog, userId: Option<int>)
  {
    !UserTruthy(userId) || p.userId == userId
  }

  function PredictionHistory(rows: seq<PredictionLog>, limit: int, userId: Option<int>): (r: seq<PredictionLog>)
    ensures limit >= 0 ==> |r| <= limit
    ensures forall k :: 0 <= k < |r| ==> r[k] in rows && InHistory(r[k], userId)
    ensures UserTruthy(userId) ==> r == Newest(Filter(rows, OfUser(userId)), limit)
    ensures !UserTruthy(userId) ==> r == Newest(rows, limit)
  {
    if UserTruthy(userId) then NewestFirst(rows, OfUser(userId), limit)
    else Newest(rows, limit)
  }

  /** Without a limit the history lists every selected row, newest first: logging one
      more prediction puts it in front of the history exactly when it belongs to it. */
  lemma HistoryAppend(rows: seq<PredictionLog>, p: PredictionLog, userId: Option<int>)
    ensures PredictionHistory(rows + [p], -1, userId)
            == (if InHistory(p, userId) then [p] else []) + PredictionHistory(rows, -1, userId)
  {
    if UserTruthy(userId) {
      var f := OfUser(userId);
      FilterAppend(rows, [p], f);
      assert Filter([p], f) == if p.userId == userId then [p] else [];
      if p.userId == userId {
        NewestAppend(Filter(rows, f), p);
      }
    } else {
      NewestAppend(rows, p);
    }
  }

  /** A prediction just logged is the first entry of its user's history and of the
      unfiltered history. */
  lemma LatestPredictionFirst(rows: seq<PredictionLog>, p: PredictionLog, limit: int)
    requires limit != 0
    ensures var h := PredictionHistory(rows + [p], limit, p.userId); h != [] && h[0] == p
    ensures var h := PredictionHistory(rows + [p], limit, None); h != [] && h[0] == p
  {
    if UserTruthy(p.userId) {
      NewestFirstStartsWithLatest(rows, OfUser(p.userId), limit, p);
    }
  }

  /** `get_training_history`. */
  function TrainingHistory(rows: seq<TrainingLog>, limit: int): seq<TrainingLog>
  {
    Newest(rows, limit)
  }

  /** One condition `get_system_logs` adds to its WHERE clause. */
  datatype Condition = LevelIs(level: string) | ComponentIs(component: string)

  /** The conditions list, built in the order the source appends them: a level condition
      when `level` is truthy, then a component condition when `component` is truthy. */
  function Conditions(level: Option<string>, component: Option<string>): seq<Condition>
  {
    (if Truthy(level) then [LevelIs(level.value)] else [])
    + (if Truthy(component) then [ComponentIs(component.value)] else [])
  }

  predicate Holds(row: SystemLog, c: Condition)
  {
    match c
    case LevelIs(l) => row.level == l
    case ComponentIs(k) => row.component == k
  }

  /** `" AND ".join(conditions)`, or no WHERE clause at all for an empty list. */
  predicate Where(row: SystemLog, conds: seq<Condition>)
  {
    forall i :: 0 <= i < |conds| ==> Holds(row, conds[i])
  }

  /** The filter the built query applies: a row matches the level when one is given and
      the component when one is given. */
  predicate MatchesFilters(row: SystemLog, level: Option<string>, component: Option<string>)
  {
    (!Truthy(level) || row.level == level.value) && (!Truthy(component) || row.component == component.value)
  }

  /** The filters as a row predicate. */
  function Matching(level: Option<string>, component: Option<string>): SystemLog -> bool
  {
    (row: SystemLog) => MatchesFilters(row, level, component)
  }

  /** The WHERE clause built from the conditions list means exactly "level matches AND
      component matches", each only when given. */
  lemma ConditionsMeaning(row: SystemLog, level: Option<string>, component: Option<string>)
    ensures Where(row, Conditions(level, component)) <==> MatchesFilters(row, level, component)
  {
    var c := Conditions(level, component);
    if Truthy(level) {
      assert c[0] == LevelIs(level.value);
    }
    if Truthy(component) {
      assert c[|c| - 1] == ComponentIs(component.value);
    }
  }

  /** A system log entry as the query returns it, `details` decoded. */
  datatype SystemLogView = SystemLogView(id: nat, level: string, component: string, eventType: string,
                                         message: string, details: Option<Json.Object>, userId: Option<int>)

  function ViewSystemLog(row: SystemLog): SystemLogView
  {
    SystemLogView(row.id, row.level, row.component, row.eventType, row.message, ReadJson(row.details), row.userId)
  }

  /** The rows `get_system_logs(limit, level, component)` selects: matching rows only,
      newest first, at most `limit` of them. */
  function SelectSystemLogs(rows: seq<SystemLog>, limit: int, level: Option<string>, component: Option<string>)
    : (r: seq<SystemLog>)
    ensures limit >= 0 ==> |r| <= limit
    ensures forall k :: 0 <= k < |r| ==> r[k] in rows && MatchesFilters(r[k], level, component)
    ensures r == Newest(Filter(rows, Matching(level, component)), limit)
  {
    var conds := Conditions(level, component);
    var where := (row: SystemLog) => Where(row, conds);
    assert forall i :: 0 <= i < |rows| ==> where(rows[i]) == Matching(level, component)(rows[i]) by {
      forall i | 0 <= i < |rows| ensures where(rows[i]) == Matching(level, component)(rows[i]) {
        ConditionsMeaning(rows[i], level, component);
      }
    }
    FilterSame(rows, where, Matching(level, component));
    NewestFirst(rows, where, limit)
  }

  /** With no limit, every row matching both filters is selected. */
  lemma SelectSystemLogsComplete(rows: seq<SystemLog>, level: Option<string>, component: Option<string>, i: nat)
    requires i < |rows| && MatchesFilters(rows[i], level, component)
    ensures rows[i] in SelectSystemLogs(rows, -1, level, component)
  {
    var conds := Conditions(level, component);
    var f := Filter(rows, (row: SystemLog) => Where(row, conds));
    ConditionsMeaning(rows[i], level, component);
    assert rows[i] in f;
    var j :| 0 <= j < |f| && f[j] == rows[i];
    assert Newest(f, -1)[|f| - 1 - j] == f[j];
  }

  /** Without a limit the selection lists every matching row, newest first: a new entry
      goes in front exactly when it matches the filters. */
  lemma SystemLogsAppend(rows: seq<SystemLog>, row: SystemLog, level: Option<string>, component: Option<string>)
    ensures SelectSystemLogs(rows + [row], -1, level, component)
            == (if MatchesFilters(row, level, component) then [row] else []) + SelectSystemLogs(rows, -1, level, component)
  {
    var f := Matching(level, component);
    FilterAppend(rows, [row], f);
    assert Filter([row], f) == if MatchesFilters(row, level, component) then [row] else [];
    if MatchesFilters(row, level, component) {
      NewestAppend(Filter(rows, f), row);
    }
  }

  /** `get_system_logs(limit, level, component)`: the selected rows, details decoded. */
  function SystemLogs(rows: seq<SystemLog>, limit: int, level: Option<string>, component: Option<string>)
    : seq<SystemLogView>
  {
    var sel := SelectSystemLogs(rows, limit, level, component);
    seq(|sel|, k requires 0 <= k < |sel| => ViewSystemLog(sel[k]))
  }

  /** A drift detection as the query returns it, `details` decoded. */
  datatype DriftView = DriftView(id: nat, modelVersion: string, detectionMethod: string, triggerValue: real,
                                 threshold: real, actionTaken: string, details: Option<Json.Object>)

  function ViewDrift(row: DriftDetection): DriftView
  {
    DriftView(row.id, row.modelVersion, row.detectionMethod, row.triggerValue, row.threshold, row.actionTaken,
              ReadJson(row.details))
  }

  /** `get_drift_detections(limit)`. */
  function DriftDetections(rows: seq<DriftDetection>, limit: int): (r: seq<DriftView>)
    ensures limit < 0 ==> |r| == |rows|
    ensures limit >= 0 ==> |r| == Min(limit, |rows|)
    ensures forall k :: 0 <= k < |r| ==> r[k] == ViewDrift(rows[|rows| - 1 - k])
  {
    var sel := Newest(rows, limit);
    seq(|sel|, k requires 0 <= k < |sel| => ViewDrift(sel[k]))
  }

  /** The `drift_detections` table after `log_drift_detection`. */
  function Logged(rows: seq<DriftDetection>, modelVersion: string, detectionMethod: string, triggerValue: real,
                  threshold: real, actionTaken: string, details: Option<Json.Object>): seq<DriftDetection>
  {
    rows + [DriftDetection(|rows| + 1, modelVersion, detectionMethod, triggerValue, threshold, actionTaken,
                           StoredJson(details))]
  }

  /** A drift detection just logged is the first one read back (unless the limit is 0),
      with its id, its model version and its details as the JSON round trip leaves them. */
  lemma LogThenReadDrift(rows: seq<DriftDetection>, limit: int, modelVersion: string, detectionMethod: string,
                         triggerValue: real, threshold: real, actionTaken: string,
                         details: Option<Json.Object>)
    ensures var r := DriftDetections(Logged(rows, modelVersion, detectionMethod, triggerValue, threshold,
                                            actionTaken, details), limit);
      r == [] <==> limit == 0
    ensures var r := DriftDetections(Logged(rows, modelVersion, detectionMethod, triggerValue, threshold,
                                            actionTaken, details), limit);
      r != [] ==>
      && r[0].id == |rows| + 1 && r[0].modelVersion == modelVersion
      && r[0].detectionMethod == detectionMethod && r[0].actionTaken == actionTaken
      && r[0].details == (if details.Some? && details.value != [] then details else None)
  {
    DetailsRoundTrip(details);
  }

  // ---------------------------------------------------------------------------
  // Statistics

  /** `get_prediction_stats`, before rounding. */
  datatype PredictionStats = PredictionStats(totalPredictions: nat, predictionsByModel: seq<(string, nat)>,
                                             averageConfidence: real, averageResponseTimeMs: real)

  function Versions(rows: seq<PredictionLog>): (r: seq<string>)
    ensures |r| == |rows| && forall k :: 0 <= k < |r| ==> r[k] == rows[k].modelVersion
  {
    seq(|rows|, k requires 0 <= k < |rows| => rows[k].modelVersion)
  }

  function Confidences(rows: seq<PredictionLog>): (r: seq<real>)
    ensures |r| == |rows| && forall k :: 0 <= k < |r| ==> r[k] == rows[k].confidence
  {
    seq(|rows|, k requires 0 <= k < |rows| => rows[k].confidence)
  }

  /** `response_time_ms` of the rows where it is not NULL, in order. */
  function ResponseTimes(rows: seq<PredictionLog>): (r: seq<real>)
    ensures |r| <= |rows|
    ensures forall x :: x in r <==> exists k :: 0 <= k < |rows| && rows[k].responseTimeMs == Some(x)
    decreases |rows|
  {
    if rows == [] then []
    else
      var init := rows[..|rows| - 1];
      var last := rows[|rows| - 1];
      assert forall k :: 0 <= k < |init| ==> init[k] == rows[k];
      ResponseTimes(init) + (if last.responseTimeMs.Some? then [last.responseTimeMs.value] else [])
  }

  /** `AVG(x) or 0`: SQL's AVG is NULL over no rows. */
  function AvgOrZero(s: seq<real>): real
  {
    MeanOr(s, 0.0)
  }

  function PredictionStatsOf(rows: seq<PredictionLog>): PredictionStats
  {
    PredictionStats(|rows|, Tally(Versions(rows)), AvgOrZero(Confidences(rows)), AvgOrZero(ResponseTimes(rows)))
  }

  /** The per-model counts cover each model version once, count its predictions, and add
      up to the total. */
  lemma StatsCountsAddUp(rows: seq<PredictionLog>)
    ensures var s := PredictionStatsOf(rows);
      && SumCounts(s.predictionsByModel) == s.totalPredictions
      && DistinctKeys(s.predictionsByModel)
      && (forall i :: 0 <= i < |s.predictionsByModel| ==>
            s.predictionsByModel[i].1 == Count(Versions(rows), s.predictionsByModel[i].0))
      && (forall v :: v in Versions(rows) <==> KeyIndex(s.predictionsByModel, v) >= 0)
  {
    TallySum(Versions(rows));
    TallyCounts(Versions(rows));
  }

  /** With no predictions every figure is 0; with confidences in [0, 1] the average
      confidence is in [0, 1] too. */
  lemma StatsAverages(rows: seq<PredictionLog>)
    ensures rows == [] ==> PredictionStatsOf(rows) == PredictionStats(0, [], 0.0, 0.0)
    ensures (forall k :: 0 <= k < |rows| ==> 0.0 <= rows[k].confidence <= 1.0)
            ==> 0.0 <= PredictionStatsOf(rows).averageConfidence <= 1.0
  {
    var c := Confidences(rows);
    if c != [] && forall k :: 0 <= k < |rows| ==> 0.0 <= rows[k].confidence <= 1.0 {
      SumRealsBounds(c, 0.0, 1.0);
      MeanBetween(SumReals(c), |c|, 0.0, 1.0);
    }
  }

  /** A prediction logged without a response time leaves the average response time as
      it was: NULL rows do not take part in it. */
  lemma NullResponseTimeIgnored(rows: seq<PredictionLog>, p: PredictionLog)
    requires p.responseTimeMs.None?
    ensures PredictionStatsOf(rows + [p]).averageResponseTimeMs == PredictionStatsOf(rows).averageResponseTimeMs
  {
    var s := rows + [p];
    assert s[..|s| - 1] == rows;
    assert ResponseTimes(rows) + [] == ResponseTimes(rows);
    assert ResponseTimes(s) == ResponseTimes(rows);
  }

  class Logger {
    var predictionLogs: seq<PredictionLog>
    var trainingLogs: seq<TrainingLog>
    var systemLogs: seq<SystemLog>
    var monitoringMetrics: seq<MonitoringMetric>
    var driftDetections: seq<DriftDetection>

    /** `PredictionLogger(db_path)` on a new database: `ensure_tables` creates the five
        tables empty. */
    constructor ()
      ensures predictionLogs == [] && trainingLogs == [] && systemLogs == []
      ensures monitoringMetrics == [] && driftDetections == []
    {
      predictionLogs, trainingLogs, systemLogs, monitoringMetrics, driftDetections := [], [], [], [], [];
    }

    /** `log_prediction`: one more row; ids count up from 1. */
    method LogPrediction(userId: Option<int>, modelVersion: string, feature1: real, feature2: real,
                         prediction: int, confidence: real, responseTimeMs: Option<real>)
      modifies this`predictionLogs
      ensures predictionLogs == old(predictionLogs) + [PredictionLog(|old(predictionLogs)| + 1, userId, modelVersion,
                                  feature1, feature2, prediction, confidence, responseTimeMs)]
    {
      predictionLogs := predictionLogs + [PredictionLog(|predictionLogs| + 1, userId, modelVersion, feature1, feature2,
                                                        prediction, confidence, responseTimeMs)];
    }

    method LogTraining(modelVersion: string, triggerReason: string, trainingSamples: int, accuracyBefore: real,
                       accuracyAfter: real, trainingDuration: real, mlflowRunId: Option<string>)
      modifies this`trainingLogs
      ensures trainingLogs == old(trainingLogs) + [TrainingLog(|old(trainingLogs)| + 1, modelVersion, triggerReason,
                                trainingSamples, accuracyBefore, accuracyAfter, trainingDuration, mlflowRunId)]
    {
      trainingLogs := trainingLogs + [TrainingLog(|trainingLogs| + 1, modelVersion, triggerReason, trainingSamples,
                                                  accuracyBefore, accuracyAfter, trainingDuration, mlflowRunId)];
    }

    /** `log_system_event`: the details dict stored as JSON, or NULL when absent or empty. */
    method LogSystemEvent(level: string, component: string, eventType: string, message: string,
                          details: Option<Json.Object>, userId: Option<int>)
      modifies this`systemLogs
      ensures systemLogs == old(systemLogs) + [SystemLog(|old(systemLogs)| + 1, level, component, eventType, message,
                              StoredJson(details), userId)]
    {
      var detailsJson := StoredJson(details);
      systemLogs := systemLogs + [SystemLog(|systemLogs| + 1, level, component, eventType, message, detailsJson, userId)];
    }

    method LogMonitoringMetric(metricName: string, metricValue: real, metricType: string, labels: Option<Json.Object>)
      modifies this`monitoringMetrics
      ensures monitoringMetrics == old(monitoringMetrics) + [MonitoringMetric(|old(monitoringMetrics)| + 1, metricName,
                                     metricValue, metricType, StoredJson(labels))]
    {
      var labelsJson := StoredJson(labels);
      monitoringMetrics := monitoringMetrics + [MonitoringMetric(|monitoringMetrics| + 1, metricName, metricValue,
                                                                 metricType, labelsJson)];
    }

    method LogDriftDetection(modelVersion: string, detectionMethod: string, triggerValue: real, threshold: real,
                             actionTaken: string, details: Option<Json.Object>)
      modifies this`driftDetections
      ensures driftDetections == old(driftDetections) + [DriftDetection(|old(driftDetections)| + 1, modelVersion,
                                   detectionMethod, triggerValue, threshold, actionTaken, StoredJson(details))]
      ensures driftDetections == Logged(old(driftDetections), modelVersion, detectionMethod, triggerValue,
                                        threshold, actionTaken, details)
    {
      var detailsJson := StoredJson(details);
      driftDetections := driftDetections + [DriftDetection(|driftDetections| + 1, modelVersion, detectionMethod,
                                                           triggerValue, threshold, actionTaken, detailsJson)];
    }

    /** `get_prediction_history(limit, user_id)`: logged predictions only, of that user
        when the id is truthy, at most `limit` of them. */
    function GetPredictionHistory(limit: int, userId: Option<int>): (r: seq<PredictionLog>)
      reads this
      ensures limit >= 0 ==> |r| <= limit
      ensures forall k :: 0 <= k < |r| ==> r[k] in predictionLogs && InHistory(r[k], userId)
      ensures UserTruthy(userId) ==> r == Newest(Filter(predictionLogs, OfUser(userId)), limit)
      ensures !UserTruthy(userId) ==> r == Newest(predictionLogs, limit)
    {
      PredictionHistory(predictionLogs, limit, userId)
    }

    /** `get_training_history(limit)`: the newest `limit` training runs, newest first. */
    function GetTrainingHistory(limit: int): (r: seq<TrainingLog>)
      reads this
      ensures limit < 0 ==> |r| == |trainingLogs|
      ensures limit >= 0 ==> |r| == Min(limit, |trainingLogs|)
      ensures forall k :: 0 <= k < |r| ==> r[k] == trainingLogs[|trainingLogs| - 1 - k]
    {
      TrainingHistory(trainingLogs, limit)
    }

    /** `get_system_logs(limit, level, component)`: at most `limit` entries, each a logged
        entry that matches the given filters, `details` decoded. */
    function GetSystemLogs(limit: int, level: Option<string>, component: Option<string>): (r: seq<SystemLogView>)
      reads this
      ensures limit >= 0 ==> |r| <= limit
      ensures forall k :: 0 <= k < |r| ==>
        exists j :: 0 <= j < |systemLogs| && MatchesFilters(systemLogs[j], level, component)
                    && r[k] == ViewSystemLog(systemLogs[j])
      ensures var sel := Newest(Filter(systemLogs, Matching(level, component)), limit);
        |r| == |sel| && forall k :: 0 <= k < |r| ==> r[k] == ViewSystemLog(sel[k])
    {
      var sel := SelectSystemLogs(systemLogs, limit, level, component);
      var r := SystemLogs(systemLogs, limit, level, component);
      assert forall k :: 0 <= k < |r| ==> r[k] == ViewSystemLog(sel[k]) && sel[k] in systemLogs;
      r
    }

    /** `get_drift_detections(limit)`: the newest `limit` detections, newest first. */
    function GetDriftDetections(limit: int): (r: seq<DriftView>)
      reads this
      ensures limit < 0 ==> |r| == |driftDetections|
      ensures limit >= 0 ==> |r| == Min(limit, |driftDetections|)
      ensures forall k :: 0 <= k < |r| ==> r[k] == ViewDrift(driftDetections[|driftDetections| - 1 - k])
    {
      DriftDetections(driftDetections, limit)
    }

    /** `get_prediction_stats()`: the total is the number of logged predictions, the
        per-model counts add up to it, and an empty log gives zeros. */
    function GetPredictionStats(): (s: PredictionStats)
      reads this
      ensures s.totalPredictions == |predictionLogs|
      ensures SumCounts(s.predictionsByModel) == |predictionLogs| && DistinctKeys(s.predictionsByModel)
      ensures predictionLogs == [] ==> s == PredictionStats(0, [], 0.0, 0.0)
    {
      StatsCountsAddUp(predictionLogs);
      StatsAverages(predictionLogs);
      PredictionStatsOf(predictionLogs)
    }
  }
}
