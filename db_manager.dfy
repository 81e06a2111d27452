/** `services/api/src/database/db_manager.py`: the SQLite store of generated datasets,
    their samples, trained models and MLflow experiments. Each table is a sequence of
    rows in insertion order; `ORDER BY created_at DESC` is newest-inserted first, and a
    statement that violates a UNIQUE column rolls the whole call back. */
module DbManager {
  import opened Common

  /** A `datasets` row (`created_at` is the insertion order). */
  datatype Dataset = Dataset(generationId: int, samplesCount: int, hourGenerated: int)

  /** A `dataset_samples` row. */
  datatype Sample = Sample(generationId: int, feature1: real, feature2: real, target: int)

  /** A `models` row. */
  datatype Model = Model(version: string, accuracy: real, trainingSamples: int, isActive: bool)

  /** An `experiments` row. */
  datatype Experiment = Experiment(experimentId: string, runId: string, modelVersion: string,
                                   accuracy: real, parameters: string)

  // ---------------------------------------------------------------------------
  // Datasets and samples

  predicate GenerationStored(datasets: seq<Dataset>, g: int)
  {
    exists i :: 0 <= i < |datasets| && datasets[i].generationId == g
  }

  /** `generation_id INTEGER UNIQUE`. */
  predicate UniqueGenerations(datasets: seq<Dataset>)
  {
    forall i, j :: 0 <= i < j < |datasets| ==> datasets[i].generationId != datasets[j].generationId
  }

  /** Every sample belongs to a stored dataset (samples are only written together with
      their dataset row, in one transaction). */
  predicate SamplesBelong(samples: seq<Sample>, datasets: seq<Dataset>)
  {
    forall i :: 0 <= i < |samples| ==> GenerationStored(datasets, samples[i].generationId)
  }

  /** The sample rows `store_dataset` inserts for generation `g`, one per triple. */
  function SampleRows(g: int, featuresTargets: seq<(real, real, int)>): (r: seq<Sample>)
    ensures |r| == |featuresTargets|
    ensures forall k :: 0 <= k < |r| ==> r[k].generationId == g
  {
    seq(|featuresTargets|, k requires 0 <= k < |featuresTargets| =>
      Sample(g, featuresTargets[k].0, featuresTargets[k].1, featuresTargets[k].2))
  }

  /** `SELECT feature1, feature2, target FROM dataset_samples WHERE generation_id = g`. */
  function SamplesOf(samples: seq<Sample>, g: int): (r: seq<(real, real, int)>)
    ensures |r| <= |samples|
    decreases |samples|
  {
    if samples == [] then []
    else
      var s := samples[|samples| - 1];
      SamplesOf(samples[..|samples| - 1], g) + (if s.generationId == g then [(s.feature1, s.feature2, s.target)] else [])
  }

  /** The tables after `store_dataset(g, count, hour, features_targets)`, or None when the
      generation id is already stored (the UNIQUE violation rolls everything back). */
  function StoreDatasetResult(datasets: seq<Dataset>, samples: seq<Sample>, g: int, samplesCount: int,
                              hourGenerated: int, featuresTargets: seq<(real, real, int)>): (r: Option<(seq<Dataset>, seq<Sample>)>)
    ensures r.None? <==> GenerationStored(datasets, g)
  {
    if GenerationStored(datasets, g) then None
    else Some((datasets + [Dataset(g, samplesCount, hourGenerated)], samples + SampleRows(g, featuresTargets)))
  }

  /** `get_latest_dataset`: the newest dataset's generation id with all of its samples, or
      None when no dataset is stored. */
  function LatestDataset(datasets: seq<Dataset>, samples: seq<Sample>): (r: Option<(int, seq<(real, real, int)>)>)
    ensures r.None? <==> datasets == []
    ensures r.Some? ==> r.value.0 == datasets[|datasets| - 1].generationId
  {
    if datasets == [] then None
    else
      var g := datasets[|datasets| - 1].generationId;
      Some((g, SamplesOf(samples, g)))
  }

  lemma {:induction false} SamplesOfAppend(a: seq<Sample>, b: seq<Sample>, g: int)
    ensures SamplesOf(a + b, g) == SamplesOf(a, g) + SamplesOf(b, g)
    decreases |b|
  {
    if b != [] {
      var ab := a + b;
      assert ab[..|ab| - 1] == a + b[..|b| - 1];
      SamplesOfAppend(a, b[..|b| - 1], g);
    } else {
      assert a + b == a;
    }
  }

  lemma {:induction false} SamplesOfRows(g: int, ft: seq<(real, real, int)>)
    ensures SamplesOf(SampleRows(g, ft), g) == ft
    decreases |ft|
  {
    if ft != [] {
      var rows := SampleRows(g, ft);
      assert rows[..|rows| - 1] == SampleRows(g, ft[..|ft| - 1]);
      SamplesOfRows(g, ft[..|ft| - 1]);
      assert ft == ft[..|ft| - 1] + [ft[|ft| - 1]];
    }
  }

  lemma {:induction false} SamplesOfAbsent(samples: seq<Sample>, g: int)
    requires forall i :: 0 <= i < |samples| ==> samples[i].generationId != g
    ensures SamplesOf(samples, g) == []
    decreases |samples|
  {
    if samples != [] {
      SamplesOfAbsent(samples[..|samples| - 1], g);
    }
  }

  /** Storing a dataset and then reading the latest one gives back that generation id and
      exactly the samples stored with it, in order. */
  lemma StoreThenLatestDataset(datasets: seq<Dataset>, samples: seq<Sample>, g: int, samplesCount: int,
                               hourGenerated: int, ft: seq<(real, real, int)>)
    requires SamplesBelong(samples, datasets)
    requires !GenerationStored(datasets, g)
    ensures var r := StoreDatasetResult(datasets, samples, g, samplesCount, hourGenerated, ft).value;
      LatestDataset(r.0, r.1) == Some((g, ft))
  {
    forall i | 0 <= i < |samples| ensures samples[i].generationId != g {
      assert GenerationStored(datasets, samples[i].generationId);
    }
    SamplesOfAbsent(samples, g);
    SamplesOfAppend(samples, SampleRows(g, ft), g);
    SamplesOfRows(g, ft);
    var d := datasets + [Dataset(g, samplesCount, hourGenerated)];
    assert d[|d| - 1].generationId == g;
    assert SamplesOf(samples + SampleRows(g, ft), g) == [] + ft == ft;
  }

  /** A successful store adds one dataset row and one sample row per triple; a rejected
      one adds nothing. */
  lemma StoreDatasetCounts(datasets: seq<Dataset>, samples: seq<Sample>, g: int, samplesCount: int,
                           hourGenerated: int, ft: seq<(real, real, int)>)
    ensures var r := StoreDatasetResult(datasets, samples, g, samplesCount, hourGenerated, ft);
      r.Some? ==> |r.value.0| == |datasets| + 1 && |r.value.1| == |samples| + |ft|
  {
  }

  /** A successful store keeps generation ids unique and every sample tied to a stored
      dataset. */
  lemma StoreDatasetKeepsInvariants(datasets: seq<Dataset>, samples: seq<Sample>, g: int, samplesCount: int,
                                    hourGenerated: int, ft: seq<(real, real, int)>)
    requires UniqueGenerations(datasets) && SamplesBelong(samples, datasets)
    requires !GenerationStored(datasets, g)
    ensures var r := StoreDatasetResult(datasets, samples, g, samplesCount, hourGenerated, ft).value;
      UniqueGenerations(r.0) && SamplesBelong(r.1, r.0)
  {
    var d := datasets + [Dataset(g, samplesCount, hourGenerated)];
    var s := samples + SampleRows(g, ft);
    forall i, j | 0 <= i < j < |d| ensures d[i].generationId != d[j].generationId {
      if j == |datasets| {
        assert !(datasets[i].generationId == g);
      }
    }
    forall i | 0 <= i < |s| ensures GenerationStored(d, s[i].generationId) {
      if i < |samples| {
        var j :| 0 <= j < |datasets| && datasets[j].generationId == samples[i].generationId;
        assert d[j] == datasets[j];
      } else {
        assert d[|datasets|].generationId == s[i].generationId;
      }
    }
  }

  // ---------------------------------------------------------------------------
  // Models

  predicate VersionStored(models: seq<Model>, v: string)
  {
    exists i :: 0 <= i < |models| && models[i].version == v
  }

  /** `version TEXT UNIQUE`. */
  predicate UniqueVersions(models: seq<Model>)
  {
    forall i, j :: 0 <= i < j < |models| ==> models[i].version != models[j].version
  }

  predicate AtMostOneActive(models: seq<Model>)
  {
    forall i, j :: 0 <= i < |models| && 0 <= j < |models| && models[i].isActive && models[j].isActive ==> i == j
  }

  /** `UPDATE models SET is_active = FALSE`. */
  function Deactivate(models: seq<Model>): (r: seq<Model>)
    ensures |r| == |models|
    ensures forall i :: 0 <= i < |r| ==> r[i] == models[i].(isActive := false)
  {
    seq(|models|, i requires 0 <= i < |models| => models[i].(isActive := false))
  }

  /** The models table after `store_model(version, accuracy, samples, is_active)`, or None
      when the version is already stored (the UNIQUE violation also undoes the UPDATE). */
  function StoreModelResult(models: seq<Model>, m: Model): (r: Option<seq<Model>>)
    ensures r.None? <==> VersionStored(models, m.version)
    ensures r.Some? ==> |r.value| == |models| + 1 && r.value[|models|] == m
  {
    if VersionStored(models, m.version) then None
    else Some((if m.isActive then Deactivate(models) else models) + [m])
  }

  /** The index of the newest active row among the first `n`, or -1 when none is active. */
  function LastActive(models: seq<Model>, n: nat): (i: int)
    requires n <= |models|
    ensures -1 <= i < n
    ensures i >= 0 ==> models[i].isActive
    ensures forall j :: i < j < n ==> !models[j].isActive
    decreases n
  {
    if n == 0 then -1 else if models[n - 1].isActive then n - 1 else LastActive(models, n - 1)
  }

  /** Rows appended after the first `n` do not change the newest active one among them. */
  lemma {:induction false} LastActivePrefix(models: seq<Model>, more: seq<Model>, n: nat)
    requires n <= |models|
    ensures LastActive(models + more, n) == LastActive(models, n)
    decreases n
  {
    if n > 0 {
      assert (models + more)[n - 1] == models[n - 1];
      LastActivePrefix(models, more, n - 1);
    }
  }

  /** `get_active_model`: the newest active row, or None. */
  function ActiveModel(models: seq<Model>): (r: Option<Model>)
    ensures r.None? <==> forall i :: 0 <= i < |models| ==> !models[i].isActive
    ensures r.Some? ==> exists i :: 0 <= i < |models| && models[i] == r.value && r.value.isActive
                          && forall j :: i < j < |models| ==> !models[j].isActive
  {
    var i := LastActive(models, |models|);
    if i < 0 then None else Some(models[i])
  }

  /** Storing an active model leaves exactly one active row, the new one, which
      `get_active_model` then returns; the other rows keep their data. */
  lemma StoreActiveModel(models: seq<Model>, m: Model)
    requires m.isActive && !VersionStored(models, m.version)
    ensures var ms := StoreModelResult(models, m).value;
      && ActiveModel(ms) == Some(m)
      && (forall i :: 0 <= i < |ms| ==> (ms[i].isActive <==> i == |models|))
      && (forall i :: 0 <= i < |models| ==> ms[i] == models[i].(isActive := false))
  {
  }

  /** Storing an inactive model changes no flag: the old rows are untouched and the
      active model is the same as before. */
  lemma {:induction false} StoreInactiveModel(models: seq<Model>, m: Model)
    requires !m.isActive && !VersionStored(models, m.version)
    ensures var ms := StoreModelResult(models, m).value;
      ms[..|models|] == models && ActiveModel(ms) == ActiveModel(models)
  {
    var ms := models + [m];
    LastActivePrefix(models, [m], |models|);
  }

  /** A successful store keeps versions unique and at most one model active. */
  lemma StoreModelKeepsInvariants(models: seq<Model>, m: Model)
    requires UniqueVersions(models) && AtMostOneActive(models)
    requires !VersionStored(models, m.version)
    ensures var ms := StoreModelResult(models, m).value;
      UniqueVersions(ms) && AtMostOneActive(ms)
  {
    var ms := StoreModelResult(models, m).value;
    forall i, j | 0 <= i < j < |ms| ensures ms[i].version != ms[j].version {
      assert ms[i].version == models[i].version;
      if j == |models| {
        assert !(models[i].version == m.version);
      }
    }
  }

  /** Storing then reading the active model gives back the stored version and accuracy. */
  lemma StoreThenGetActiveModel(models: seq<Model>, version: string, accuracy: real, trainingSamples: int)
    requires !VersionStored(models, version)
    ensures var r := ActiveModel(StoreModelResult(models, Model(version, accuracy, trainingSamples, true)).value);
      r.Some? && r.value.version == version && r.value.accuracy == accuracy
  {
    StoreActiveModel(models, Model(version, accuracy, trainingSamples, true));
  }

  /** The counts `get_database_stats` reports. */
  datatype Stats = Stats(datasets: nat, samples: nat, models: nat, experiments: nat)

  class DatabaseManager {
    var datasets: seq<Dataset>
    var samples: seq<Sample>
    var models: seq<Model>
    var experiments: seq<Experiment>

    ghost predicate Valid()
      reads this
    {
      UniqueGenerations(datasets) && SamplesBelong(samples, datasets)
      && UniqueVersions(models) && AtMostOneActive(models)
    }

    /** `DatabaseManager(db_path)` on a new database file: `init_database` creates the four
        tables empty. */
    constructor ()
      ensures Valid()
      ensures datasets == [] && samples == [] && models == [] && experiments == []
    {
      datasets, samples, models, experiments := [], [], [], [];
    }

    /** `store_dataset`: the dataset row, then one sample row per triple; False and no
        change when the generation id is already stored. */
    method StoreDataset(g: int, samplesCount: int, hourGenerated: int, featuresTargets: seq<(real, real, int)>)
      returns (ok: bool)
      requires Valid()
      modifies this`datasets, this`samples
      ensures Valid()
      ensures ok <==> !GenerationStored(old(datasets), g)
      ensures ok ==> Some((datasets, samples))
                     == StoreDatasetResult(old(datasets), old(samples), g, samplesCount, hourGenerated, featuresTargets)
      ensures !ok ==> datasets == old(datasets) && samples == old(samples)
      ensures GetDatabaseStats() == if ok then old(GetDatabaseStats()).(datasets := |old(datasets)| + 1,
                                                                          samples := |old(samples)| + |featuresTargets|)
                                    else old(GetDatabaseStats())
    {
      if GenerationStored(datasets, g) {
        return false;
      }
      StoreDatasetKeepsInvariants(datasets, samples, g, samplesCount, hourGenerated, featuresTargets);
      datasets := datasets + [Dataset(g, samplesCount, hourGenerated)];
      for i := 0 to |featuresTargets|
        invariant datasets == old(datasets) + [Dataset(g, samplesCount, hourGenerated)]
        invariant samples == old(samples) + SampleRows(g, featuresTargets[..i])
      {
        var (f1, f2, target) := featuresTargets[i];
        samples := samples + [Sample(g, f1, f2, target)];
        assert SampleRows(g, featuresTargets[..i + 1]) == SampleRows(g, featuresTargets[..i]) + [Sample(g, f1, f2, target)];
      }
      assert featuresTargets[..|featuresTargets|] == featuresTargets;
      return true;
    }

    /** `get_latest_dataset`. */
    function GetLatestDataset(): (r: Option<(int, seq<(real, real, int)>)>)
      reads this
      ensures r == LatestDataset(datasets, samples)
    {
      LatestDataset(datasets, samples)
    }

    /** `store_model`: deactivate every row when the new one is active, then insert it;
        False and no change when the version is already stored. */
    method StoreModel(version: string, accuracy: real, trainingSamples: int, isActive: bool) returns (ok: bool)
      requires Valid()
      modifies this`models
      ensures Valid()
      ensures ok <==> !VersionStored(old(models), version)
      ensures ok ==> Some(models) == StoreModelResult(old(models), Model(version, accuracy, trainingSamples, isActive))
      ensures !ok ==> models == old(models)
      ensures GetDatabaseStats() == if ok then old(GetDatabaseStats()).(models := |old(models)| + 1)
                                    else old(GetDatabaseStats())
    {
      if VersionStored(models, version) {
        return false;
      }
      var m := Model(version, accuracy, trainingSamples, isActive);
      StoreModelKeepsInvariants(models, m);
      if isActive {
        models := Deactivate(models);
      }
      models := models + [m];
      return true;
    }

    /** `get_active_model`. */
    function GetActiveModel(): (r: Option<Model>)
      reads this
      ensures r == ActiveModel(models)
    {
      ActiveModel(models)
    }

    /** `list_datasets(limit)`: the query's rows, newest first, copied one by one. */
    method ListDatasets(limit: int) returns (r: seq<Dataset>)
      ensures r == Newest(datasets, limit)
    {
      var n := if limit < 0 then |datasets| else Min(limit, |datasets|);
      r := [];
      for i := 0 to n
        invariant |r| == i
        invariant forall k :: 0 <= k < i ==> r[k] == datasets[|datasets| - 1 - k]
      {
        r := r + [datasets[|datasets| - 1 - i]];
      }
    }

    /** `list_models(limit)`: newest first, at most `limit` rows. */
    method ListModels(limit: int) returns (r: seq<Model>)
      ensures r == Newest(models, limit)
    {
      var n := if limit < 0 then |models| else Min(limit, |models|);
      r := [];
      for i := 0 to n
        invariant |r| == i
        invariant forall k :: 0 <= k < i ==> r[k] == models[|models| - 1 - k]
      {
        r := r + [models[|models| - 1 - i]];
      }
    }

    /** `store_experiment`: one more experiments row. */
    method StoreExperiment(experimentId: string, runId: string, modelVersion: string, accuracy: real, parameters: string)
      returns (ok: bool)
      modifies this`experiments
      ensures ok
      ensures experiments == old(experiments) + [Experiment(experimentId, runId, modelVersion, accuracy, parameters)]
      ensures GetDatabaseStats() == old(GetDatabaseStats()).(experiments := |old(experiments)| + 1)
    {
      experiments := experiments + [Experiment(experimentId, runId, modelVersion, accuracy, parameters)];
      return true;
    }

    /** `get_database_stats`: the row count of each table. */
    function GetDatabaseStats(): (s: Stats)
      reads this
      ensures s == Stats(|datasets|, |samples|, |models|, |experiments|)
    {
      Stats(|datasets|, |samples|, |models|, |experiments|)
    }
  }
}
