/** `flow.py`: the periodic drift check of the Prefect deployment — compare the local
    model's accuracy on the newest batch of samples with the accuracy of the last
    tracked run, and decide whether to retrain. */
module Flow {
  import opened Common

  /** A row of `dataset_samples`. */
  datatype SampleRow = SampleRow(generationId: int, feature1: real, feature2: real, target: int)

  /** The `DataRow` namedtuple: the three selected columns. */
  datatype DataRow = DataRow(feature1: real, feature2: real, target: int)

  function Project(r: SampleRow): DataRow
  {
    DataRow(r.feature1, r.feature2, r.target)
  }

  /** `SELECT MAX(generation_id)`: None on an empty table. */
  function MaxGeneration(table: seq<SampleRow>): (m: Option<int>)
    ensures m.None? <==> table == []
    ensures m.Some? ==> exists j :: 0 <= j < |table| && table[j].generationId == m.value
    ensures m.Some? ==> forall j :: 0 <= j < |table| ==> table[j].generationId <= m.value
    decreases |table|
  {
    if table == [] then None
    else
      var last := table[|table| - 1].generationId;
      match MaxGeneration(table[..|table| - 1])
      case None => Some(last)
      case Some(m) => Some(if m >= last then m else last)
  }

  /** `SELECT feature1, feature2, target WHERE generation_id = g`, in table order. */
  function Batch(table: seq<SampleRow>, g: int): seq<DataRow>
    decreases |table|
  {
    if table == [] then []
    else
      var last := table[|table| - 1];
      Batch(table[..|table| - 1], g) + (if last.generationId == g then [Project(last)] else [])
  }

  /** A row is in a batch exactly when some table row of that generation projects to it. */
  lemma {:induction false} BatchMembers(table: seq<SampleRow>, g: int, d: DataRow)
    ensures d in Batch(table, g) <==> exists j :: 0 <= j < |table| && table[j].generationId == g && Project(table[j]) == d
    decreases |table|
  {
    if table != [] {
      var init := table[..|table| - 1];
      BatchMembers(init, g, d);
      assert forall j :: 0 <= j < |init| ==> init[j] == table[j];
      if exists j :: 0 <= j < |table| && table[j].generationId == g && Project(table[j]) == d {
        var j :| 0 <= j < |table| && table[j].generationId == g && Project(table[j]) == d;
        if j < |init| {
          assert init[j].generationId == g && Project(init[j]) == d;
        }
      }
    }
  }

  /** `get_last_dataset`: the rows of the newest generation, and [] on an empty table. */
  function GetLastDataset(table: seq<SampleRow>): (r: seq<DataRow>)
    ensures table == [] ==> r == []
    ensures table != [] ==> r != []
    ensures table != [] ==> r == Batch(table, MaxGeneration(table).value)
  {
    match MaxGeneration(table)
    case None => []
    case Some(m) =>
      var j :| 0 <= j < |table| && table[j].generationId == m;
      BatchMembers(table, m, Project(table[j]));
      Batch(table, m)
  }

  /** Every row returned belongs to the newest generation, and every row of that
      generation is returned. */
  lemma LastDatasetIsNewestBatch(table: seq<SampleRow>, d: DataRow)
    requires table != []
    ensures d in GetLastDataset(table) <==>
      exists j :: 0 <= j < |table| && Project(table[j]) == d
        && (forall k :: 0 <= k < |table| ==> table[k].generationId <= table[j].generationId)
        && table[j].generationId == MaxGeneration(table).value
  {
    BatchMembers(table, MaxGeneration(table).value, d);
  }

  /** The latest tracked run: its metrics, when there is one. */
  datatype Run = Run(metrics: map<string, real>)

  datatype Check =
    | NoModel
    | NoData
    | NoPreviousAccuracy
    | Drift(accuracy: real)
    | Ok(accuracy: real)

  function StatusOf(c: Check): string
  {
    match c
    case NoModel => "no_model"
    case NoData => "no_data"
    case NoPreviousAccuracy => "no_previous_accuracy"
    case Drift(_) => "drift"
    case Ok(_) => "ok"
  }

  /** `check_accuracy`. `modelFile` says whether model.pkl loads, `currentAccuracy` is the
      accuracy of its predictions on the batch, `lastRun` the newest tracked run.
      The second component counts the Discord embeds sent. */
  function CheckAccuracy(modelFile: bool, table: seq<SampleRow>, currentAccuracy: real, lastRun: Option<Run>)
    : (r: (Check, nat))
    ensures !modelFile ==> r.0 == NoModel
    ensures modelFile && table == [] ==> r.0 == NoData
    ensures modelFile && table != [] && (lastRun.None? || "accuracy" !in lastRun.value.metrics) ==> r.0 == NoPreviousAccuracy
    ensures modelFile && table != [] && lastRun.Some? && "accuracy" in lastRun.value.metrics ==>
      r.0 == (if currentAccuracy < lastRun.value.metrics["accuracy"] then Drift(currentAccuracy) else Ok(currentAccuracy))
    ensures r.1 == 1
  {
    if !modelFile then (NoModel, 1)
    else
      var data := GetLastDataset(table);
      if data == [] then (NoData, 1)
      else
        if lastRun.None? || "accuracy" !in lastRun.value.metrics then (NoPreviousAccuracy, 1)
        else
          var previous := lastRun.value.metrics["accuracy"];
          if currentAccuracy < previous then (Drift(currentAccuracy), 1) else (Ok(currentAccuracy), 1)
  }

  /** The feature matrix X built from a batch. */
  function Features(data: seq<DataRow>): (x: seq<seq<real>>)
    ensures |x| == |data|
  {
    seq(|data|, i requires 0 <= i < |data| => [data[i].feature1, data[i].feature2])
  }

  /** The target vector Y built from a batch. */
  function Targets(data: seq<DataRow>): (y: seq<int>)
    ensures |y| == |data|
  {
    seq(|data|, i requires 0 <= i < |data| => data[i].target)
  }

  /** The second "no_data" test of `check_accuracy` (`not X or not Y`) can never fire:
      X and Y have one entry per row of a batch already known to be non-empty. */
  lemma SecondNoDataTestUnreachable(data: seq<DataRow>)
    requires data != []
    ensures Features(data) != [] && Targets(data) != []
  {
  }

  /** Equal accuracies are not drift: the comparison is strict and no threshold enters it. */
  lemma EqualAccuracyIsOk(table: seq<SampleRow>, a: real)
    requires table != []
    ensures CheckAccuracy(true, table, a, Some(Run(map["accuracy" := a]))).0 == Ok(a)
    ensures CheckAccuracy(true, table, a - 0.01, Some(Run(map["accuracy" := a]))).0 == Drift(a - 0.01)
  {
  }

  /** `periodic_check`: whether it submits training, and the result it returns. */
  function PeriodicCheck(result: Check): (r: (bool, Check))
    ensures r.0 <==> StatusOf(result) in {"no_model", "no_previous_accuracy", "drift"}
    ensures r.0 <==> !(result.Ok? || result.NoData?)
    ensures r.1 == result
  {
    (StatusOf(result) in {"no_model", "no_previous_accuracy", "drift"}, result)
  }
}
