/** The NVIDIA data collector (scripts/data_collection/nvidia_data_collector.py):
    where it keeps its files, and how it flattens the nested GPU
    specification and MLPerf benchmark maps into the rows of its CSV
    tables. */
module NvidiaDataCollector {
  import opened Common

  /** A JSON-like value of the collected maps. */
  datatype Value =
    | Str(s: string)
    | Num(x: real)
    | Flag(b: bool)
    | Texts(items: seq<string>)
    | Table(entries: seq<(string, Value)>)

  /** A dict from column or field name to value. */
  type Row = seq<(string, Value)>

  datatype CollectError =
    | MissingKey(key: string)   // KeyError
    | NotATable(key: string)    // AttributeError: `.items()` on a non-dict

  // ---------------------------------------------------------------------
  // Directory layout.
  // ---------------------------------------------------------------------

  /** `os.path.join(a, b)` on POSIX: an absolute `b` replaces `a`, and a
      separator is added unless `a` is empty or already ends with one. */
  function Join(a: string, b: string): string {
    if |b| > 0 && b[0] == '/' then b
    else if |a| == 0 || a[|a| - 1] == '/' then a + b
    else a + "/" + b
  }

  /** The joined path ends with `b`; it is `b` alone when `b` is absolute,
      and otherwise it starts with `a`, with at most one separator
      between. */
  lemma JoinParts(a: string, b: string)
    ensures var r := Join(a, b);
      && |b| <= |r| && r[|r| - |b|..] == b
      && (|b| > 0 && b[0] == '/' ==> r == b)
      && (|b| == 0 || b[0] != '/' ==> a <= r && |r| <= |a| + 1 + |b|)
  {
  }

  /** The separator `os.path.join` puts after `a` before a relative part. */
  function Separator(a: string): string {
    if |a| == 0 || a[|a| - 1] == '/' then "" else "/"
  }

  /** The collector's directories. */
  datatype Collector = Collector(dataDir: string, rawDataDir: string, processedDataDir: string)

  /** Joining two relative parts that do not end with a separator. */
  lemma JoinTwo(dir: string, first: string, second: string)
    requires |first| > 0 && first[0] != '/' && first[|first| - 1] != '/'
    requires |second| > 0 && second[0] != '/'
    ensures Join(Join(dir, first), second) == (dir + Separator(dir)) + (first + "/" + second)
  {
    var x := Join(dir, first);
    assert x == dir + Separator(dir) + first;
    assert x[|x| - 1] == first[|first| - 1];
    assert x + "/" + second == (dir + Separator(dir)) + (first + "/" + second);
  }

  /** `NVIDIADataCollector(data_dir)`: raw files go under
      `data_dir/raw/nvidia`, processed ones under `data_dir/processed/nvidia`. */
  function NewCollector(dataDir: string): (c: Collector)
    ensures c.dataDir == dataDir
    ensures c.rawDataDir == dataDir + Separator(dataDir) + "raw/nvidia"
    ensures c.processedDataDir == dataDir + Separator(dataDir) + "processed/nvidia"
  {
    var raw := Join(Join(dataDir, "raw"), "nvidia");
    var processed := Join(Join(dataDir, "processed"), "nvidia");
    assert raw == dataDir + Separator(dataDir) + "raw/nvidia" by {
      JoinTwo(dataDir, "raw", "nvidia");
      assert "raw" + "/" + "nvidia" == "raw/nvidia";
    }
    assert processed == dataDir + Separator(dataDir) + "processed/nvidia" by {
      JoinTwo(dataDir, "processed", "nvidia");
      assert "processed" + "/" + "nvidia" == "processed/nvidia";
    }
    Collector(dataDir, raw, processed)
  }

  /** Raw and processed files never share a directory, and both live under
      the data directory. */
  lemma CollectorDirsDistinct(dataDir: string)
    ensures NewCollector(dataDir).rawDataDir != NewCollector(dataDir).processedDataDir
    ensures dataDir <= NewCollector(dataDir).rawDataDir && dataDir <= NewCollector(dataDir).processedDataDir
  {
    var c := NewCollector(dataDir);
    assert |c.rawDataDir| != |c.processedDataDir|;
  }

  // ---------------------------------------------------------------------
  // Building rows.
  // ---------------------------------------------------------------------

  /** Reads the fields named second in `pairs` from `d`, in order, into the
      columns named first; the first missing field raises `KeyError`. */
  function Columns(d: Row, pairs: seq<(string, string)>): (r: Result<Row, CollectError>)
    ensures r.Ok? <==> forall i :: 0 <= i < |pairs| ==> HasKey(d, pairs[i].1)
    ensures r.Ok? ==> |r.value| == |pairs|
    ensures r.Ok? ==> forall i :: 0 <= i < |pairs| ==>
      r.value[i].0 == pairs[i].0 && Lookup(d, pairs[i].1) == Some(r.value[i].1)
    ensures r.Err? ==> exists i ::
      && 0 <= i < |pairs|
      && r.error == MissingKey(pairs[i].1)
      && !HasKey(d, pairs[i].1)
      && (forall j :: 0 <= j < i ==> HasKey(d, pairs[j].1))
  {
    if |pairs| == 0 then Ok([])
    else
      var n := |pairs| - 1;
      assert forall i :: 0 <= i < n ==> pairs[..n][i] == pairs[i];
      match Columns(d, pairs[..n])
      case Err(e) => Err(e)
      case Ok(cols) =>
        match Lookup(d, pairs[n].1)
        case None => Err(MissingKey(pairs[n].1))
        case Some(v) => Ok(cols + [(pairs[n].0, v)])
  }

  /** `row[prefix + k] = v` for every entry of `entries`, in order. */
  function WithPrefixed(row: Row, prefix: string, entries: seq<(string, Value)>): Row {
    if |entries| == 0 then row
    else
      var n := |entries| - 1;
      Assign(WithPrefixed(row, prefix, entries[..n]), prefix + entries[n].0, entries[n].1)
  }

  /** A key that no entry is written to keeps its value. */
  lemma {:induction false} WithPrefixedKeeps(row: Row, prefix: string, entries: seq<(string, Value)>, k: string)
    requires forall i :: 0 <= i < |entries| ==> prefix + entries[i].0 != k
    ensures Lookup(WithPrefixed(row, prefix, entries), k) == Lookup(row, k)
  {
    if |entries| > 0 {
      var n := |entries| - 1;
      assert forall i :: 0 <= i < n ==> entries[..n][i] == entries[i];
      WithPrefixedKeeps(row, prefix, entries[..n], k);
    }
  }

  lemma PrefixInjective(prefix: string, a: string, b: string)
    requires a != b
    ensures prefix + a != prefix + b
  {
    assert (prefix + a)[|prefix|..] == a;
    assert (prefix + b)[|prefix|..] == b;
  }

  /** Every entry lands under its prefixed name with its own value. */
  lemma {:induction false} WithPrefixedLookup(row: Row, prefix: string, entries: seq<(string, Value)>, i: nat)
    requires DistinctKeys(entries) && i < |entries|
    ensures Lookup(WithPrefixed(row, prefix, entries), prefix + entries[i].0) == Some(entries[i].1)
  {
    var n := |entries| - 1;
    var last := prefix + entries[n].0;
    var before := WithPrefixed(row, prefix, entries[..n]);
    assert WithPrefixed(row, prefix, entries) == Assign(before, last, entries[n].1);
    if i < n {
      DistinctKeysInit(entries, n);
      assert entries[..n][i] == entries[i];
      WithPrefixedLookup(row, prefix, entries[..n], i);
      PrefixInjective(prefix, entries[n].0, entries[i].0);
      AssignOther(before, last, entries[n].1, prefix + entries[i].0);
    }
  }

  /** A prefix of a table with distinct keys has distinct keys. */
  lemma DistinctKeysInit<K, V>(d: seq<(K, V)>, n: nat)
    requires DistinctKeys(d) && n <= |d|
    ensures DistinctKeys(d[..n])
  {
    forall a, b | 0 <= a < b < n ensures d[..n][a].0 != d[..n][b].0 {
      assert d[..n][a] == d[a] && d[..n][b] == d[b];
    }
  }

  /** Assigning one key leaves every other key as it was. */
  lemma AssignOther<V>(d: seq<(string, V)>, k: string, v: V, other: string)
    requires other != k
    ensures Lookup(Assign(d, k, v), other) == Lookup(d, other)
  {
  }

  /** The four result fields every MLPerf row takes by name. */
  predicate Reserved(key: string) {
    key == "system_config" || key == "submission_date" || key == "submitter" || key == "power_consumption_watts"
  }

  /** `row[k] = v` for every entry whose key is not reserved, in order. */
  function CopyOthers(row: Row, entries: seq<(string, Value)>): Row {
    if |entries| == 0 then row
    else
      var n := |entries| - 1;
      var before := CopyOthers(row, entries[..n]);
      if Reserved(entries[n].0) then before else Assign(before, entries[n].0, entries[n].1)
  }

  /** A reserved key, or one no entry has, keeps its value. */
  lemma {:induction false} CopyOthersKeeps(row: Row, entries: seq<(string, Value)>, k: string)
    requires Reserved(k) || !HasKey(entries, k)
    ensures Lookup(CopyOthers(row, entries), k) == Lookup(row, k)
  {
    if |entries| > 0 {
      var n := |entries| - 1;
      var init := entries[..n];
      if HasKey(init, k) {
        var i :| 0 <= i < |init| && init[i].0 == k;
        assert entries[i].0 == k;
      }
      CopyOthersKeeps(row, init, k);
    }
  }

  /** Every entry that is not reserved is copied with its own value. */
  lemma {:induction false} CopyOthersLookup(row: Row, entries: seq<(string, Value)>, i: nat)
    requires DistinctKeys(entries) && i < |entries| && !Reserved(entries[i].0)
    ensures Lookup(CopyOthers(row, entries), entries[i].0) == Some(entries[i].1)
  {
    var n := |entries| - 1;
    if i < n {
      var init := entries[..n];
      assert init[i] == entries[i];
      CopyOthersLookup(row, init, i);
    }
  }

  // ---------------------------------------------------------------------
  // GPU specifications.
  // ---------------------------------------------------------------------

  /** The columns of the specification table beside the fields they come
      from. */
  const SpecColumns: seq<(string, string)> := [
    ("name", "name"),
    ("architecture", "architecture"),
    ("tdp_watts", "tdp_watts"),
    ("cuda_cores", "cuda_cores"),
    ("tensor_cores", "tensor_cores"),
    ("memory_gb", "memory_size_gb"),
    ("memory_bandwidth_gbps", "memory_bandwidth_gbps"),
    ("release_date", "release_date"),
    ("power_efficiency", "power_efficiency_tops_per_watt")]

  const AiPrefix := "ai_"

  /** The row of one GPU model: its name, the specification columns and
      one `ai_` column per AI performance entry. */
  function GpuSpecRow(model: string, spec: Row): Result<Row, CollectError> {
    match Columns(spec, SpecColumns)
    case Err(e) => Err(e)
    case Ok(cols) =>
      match Lookup(spec, "ai_performance")
      case None => Err(MissingKey("ai_performance"))
      case Some(perf) =>
        if perf.Table? then Ok(WithPrefixed([("gpu_model", Str(model))] + cols, AiPrefix, perf.entries))
        else Err(NotATable("ai_performance"))
  }

  lemma NotAiColumn(column: string, k: string)
    requires (|column| > 0 && column[0] != 'a') || (|column| > 1 && column[1] != 'i')
    ensures AiPrefix + k != column
  {
    assert (AiPrefix + k)[0] == 'a' && (AiPrefix + k)[1] == 'i';
  }

  /** A model's row exists exactly when every specification field is
      present and the AI performance is a map. */
  lemma GpuSpecRowOk(model: string, spec: Row)
    ensures GpuSpecRow(model, spec).Ok? <==>
      && (forall i :: 0 <= i < |SpecColumns| ==> HasKey(spec, SpecColumns[i].1))
      && Lookup(spec, "ai_performance").Some?
      && Lookup(spec, "ai_performance").value.Table?
  {
  }

  /** The row of a model is its base row with one `ai_` column per AI
      performance entry. */
  lemma GpuSpecRowParts(model: string, spec: Row)
    requires GpuSpecRow(model, spec).Ok?
    ensures Lookup(spec, "ai_performance").Some? && Lookup(spec, "ai_performance").value.Table?
    ensures Columns(spec, SpecColumns).Ok?
    ensures GpuSpecRow(model, spec).value == WithPrefixed(
      [("gpu_model", Str(model))] + Columns(spec, SpecColumns).value,
      AiPrefix, Lookup(spec, "ai_performance").value.entries)
  {
  }

  /** The specification columns are distinct, none is `gpu_model` and none
      starts with `ai`. */
  lemma SpecColumnsDistinct()
    ensures forall i, j :: 0 <= i < j < |SpecColumns| ==> SpecColumns[i].0 != SpecColumns[j].0
    ensures forall i :: 0 <= i < |SpecColumns| ==> SpecColumns[i].0 != "gpu_model"
    ensures forall i :: 0 <= i < |SpecColumns| ==>
      |SpecColumns[i].0| > 1 && (SpecColumns[i].0[0] != 'a' || SpecColumns[i].0[1] != 'i')
  {
  }

  /** The base row of a model has distinct columns. */
  lemma BaseRowDistinct(model: string, cols: Row)
    requires |cols| == |SpecColumns| && forall i :: 0 <= i < |cols| ==> cols[i].0 == SpecColumns[i].0
    ensures DistinctKeys([("gpu_model", Str(model))] + cols)
  {
    SpecColumnsDistinct();
  }

  /** The row holds the model's name and each specification field under
      its column: no `ai_` column overwrites them. */
  lemma GpuSpecRowColumns(model: string, spec: Row)
    requires GpuSpecRow(model, spec).Ok?
    ensures Lookup(GpuSpecRow(model, spec).value, "gpu_model") == Some(Str(model))
    ensures forall i :: 0 <= i < |SpecColumns| ==>
      Lookup(GpuSpecRow(model, spec).value, SpecColumns[i].0) == Lookup(spec, SpecColumns[i].1)
  {
    GpuSpecRowParts(model, spec);
    var cols := Columns(spec, SpecColumns).value;
    var perf := Lookup(spec, "ai_performance").value.entries;
    var base := [("gpu_model", Str(model))] + cols;
    SpecColumnsDistinct();
    BaseRowDistinct(model, cols);
    forall i | 0 <= i < |perf| ensures AiPrefix + perf[i].0 != "gpu_model" {
      NotAiColumn("gpu_model", perf[i].0);
    }
    WithPrefixedKeeps(base, AiPrefix, perf, "gpu_model");
    LookupEntry(base, 0);
    forall c | 0 <= c < |SpecColumns|
      ensures Lookup(WithPrefixed(base, AiPrefix, perf), SpecColumns[c].0) == Lookup(spec, SpecColumns[c].1)
    {
      forall i | 0 <= i < |perf| ensures AiPrefix + perf[i].0 != SpecColumns[c].0 {
        NotAiColumn(SpecColumns[c].0, perf[i].0);
      }
      WithPrefixedKeeps(base, AiPrefix, perf, SpecColumns[c].0);
      assert base[c + 1] == cols[c];
      LookupEntry(base, c + 1);
    }
  }

  /** Each AI performance entry `k` of a model appears in its row as
      `ai_k` with the same value. */
  lemma GpuSpecRowAi(model: string, spec: Row, i: nat)
    requires GpuSpecRow(model, spec).Ok?
    requires DistinctKeys(Lookup(spec, "ai_performance").value.entries)
    requires i < |Lookup(spec, "ai_performance").value.entries|
    ensures var perf := Lookup(spec, "ai_performance").value.entries;
      Lookup(GpuSpecRow(model, spec).value, AiPrefix + perf[i].0) == Some(perf[i].1)
  {
    GpuSpecRowParts(model, spec);
    var perf := Lookup(spec, "ai_performance").value.entries;
    WithPrefixedLookup([("gpu_model", Str(model))] + Columns(spec, SpecColumns).value, AiPrefix, perf, i);
  }

  function GpuSpecRowOf(entry: (string, Row)): Result<Row, CollectError> {
    GpuSpecRow(entry.0, entry.1)
  }

  /** The rows of all models in order; the first failing model decides the
      error. */
  function GpuSpecRows(specs: seq<(string, Row)>): Result<seq<Row>, CollectError> {
    MapResults(specs, GpuSpecRowOf)
  }

  /** The body of `_save_gpu_specs_csv`'s loop: the row dict of one model,
      then its `ai_` columns one by one. */
  method BuildGpuSpecRow(model: string, spec: Row) returns (r: Result<Row, CollectError>)
    ensures r == GpuSpecRow(model, spec)
  {
    var cols := Columns(spec, SpecColumns);
    if cols.Err? {
      return Err(cols.error);
    }
    var perf := Lookup(spec, "ai_performance");
    if perf.None? {
      return Err(MissingKey("ai_performance"));
    }
    if !perf.value.Table? {
      return Err(NotATable("ai_performance"));
    }
    var entries := perf.value.entries;
    var base := [("gpu_model", Str(model))] + cols.value;
    var row := base;
    var j := 0;
    assert entries[..0] == [];
    while j < |entries|
      invariant 0 <= j <= |entries|
      invariant row == WithPrefixed(base, AiPrefix, entries[..j])
    {
      assert entries[..j + 1][..j] == entries[..j] && entries[..j + 1][j] == entries[j];
      row := Assign(row, AiPrefix + entries[j].0, entries[j].1);
      j := j + 1;
    }
    assert entries[..|entries|] == entries;
    r := Ok(row);
  }

  /** The row-building loop of `_save_gpu_specs_csv`: one row per model, in
      order. */
  method SaveGpuSpecsRows(specs: seq<(string, Row)>) returns (r: Result<seq<Row>, CollectError>)
    ensures r == GpuSpecRows(specs)
  {
    var rows: seq<Row> := [];
    var i := 0;
    assert specs[..0] == [];
    while i < |specs|
      invariant 0 <= i <= |specs|
      invariant GpuSpecRows(specs[..i]) == Ok(rows)
    {
      var (model, spec) := specs[i];
      assert specs[..i + 1] == specs[..i] + [specs[i]];
      MapResultsSnoc(specs[..i], specs[i], GpuSpecRowOf);
      var row := BuildGpuSpecRow(model, spec);
      if row.Err? {
        MapResultsErrPrefix(specs[..i + 1], specs, GpuSpecRowOf);
        return Err(row.error);
      }
      rows := rows + [row.value];
      i := i + 1;
    }
    assert specs[..|specs|] == specs;
    r := Ok(rows);
  }

  /** The fields of a collected specification that the table reads. */
  datatype SpecFields = SpecFields(
    name: string, architecture: string, tdpWatts: real, cudaCores: real,
    tensorCores: real, memorySizeGb: real, memoryBandwidthGbps: real,
    aiPerformance: seq<(string, Value)>, releaseDate: string, efficiency: real)

  /** A specification as the collector writes it, in its key order. */
  function SpecRow(f: SpecFields): Row {
    [("name", Str(f.name)),
     ("architecture", Str(f.architecture)),
     ("tdp_watts", Num(f.tdpWatts)),
     ("cuda_cores", Num(f.cudaCores)),
     ("tensor_cores", Num(f.tensorCores)),
     ("memory_size_gb", Num(f.memorySizeGb)),
     ("memory_bandwidth_gbps", Num(f.memoryBandwidthGbps)),
     ("ai_performance", Table(f.aiPerformance)),
     ("release_date", Str(f.releaseDate)),
     ("power_efficiency_tops_per_watt", Num(f.efficiency))]
  }

  /** `collect_gpu_specifications`: the fixed table of six data-centre
      GPUs. */
  const CollectedSpecs: seq<(string, SpecFields)> := [
    ("H200", SpecFields("NVIDIA H200 Tensor Core GPU", "Hopper", 700.0, 16896.0, 456.0, 141.0, 4800.0,
      [("fp8_tops", Num(1600.0)), ("fp16_tops", Num(800.0)), ("fp32_tflops", Num(67.0)), ("int8_tops", Num(3200.0))],
      "2024-Q2", 2.29)),
    ("H100", SpecFields("NVIDIA H100 Tensor Core GPU", "Hopper", 700.0, 16896.0, 456.0, 80.0, 3350.0,
      [("fp8_tops", Num(1000.0)), ("fp16_tops", Num(500.0)), ("fp32_tflops", Num(67.0)), ("int8_tops", Num(2000.0))],
      "2022-Q2", 1.43)),
    ("A100", SpecFields("NVIDIA A100 Tensor Core GPU", "Ampere", 400.0, 6912.0, 432.0, 80.0, 2039.0,
      [("fp16_tops", Num(624.0)), ("fp32_tflops", Num(19.5)), ("int8_tops", Num(1248.0)), ("bf16_tops", Num(624.0))],
      "2020-Q2", 1.56)),
    ("L40S", SpecFields("NVIDIA L40S GPU", "Ada Lovelace", 350.0, 18176.0, 568.0, 48.0, 864.0,
      [("fp8_tops", Num(733.0)), ("fp16_tops", Num(362.0)), ("fp32_tflops", Num(91.6)), ("int8_tops", Num(1466.0))],
      "2023-Q4", 2.09)),
    ("L40", SpecFields("NVIDIA L40 GPU", "Ada Lovelace", 300.0, 18176.0, 568.0, 48.0, 864.0,
      [("fp16_tops", Num(362.0)), ("fp32_tflops", Num(91.6)), ("int8_tops", Num(724.0))],
      "2023-Q2", 1.21)),
    ("L4", SpecFields("NVIDIA L4 Tensor Core GPU", "Ada Lovelace", 72.0, 7424.0, 240.0, 24.0, 300.0,
      [("int8_tops", Num(242.0)), ("fp16_tops", Num(121.0)), ("fp32_tflops", Num(30.3))],
      "2023-Q1", 3.36))]

  /** The specifications of `entries` as rows, in order. */
  function SpecRows(entries: seq<(string, SpecFields)>): (specs: seq<(string, Row)>)
    ensures |specs| == |entries|
    ensures forall i :: 0 <= i < |specs| ==> specs[i] == (entries[i].0, SpecRow(entries[i].1))
  {
    seq(|entries|, (i: int) requires 0 <= i < |entries| => (entries[i].0, SpecRow(entries[i].1)))
  }

  function CollectGpuSpecifications(): seq<(string, Row)> {
    SpecRows(CollectedSpecs)
  }

  /** The six models, each with a map of AI performance figures. */
  lemma CollectedSpecsShape()
    ensures |CollectedSpecs| == 6
    ensures forall i, j :: 0 <= i < j < |CollectedSpecs| ==> CollectedSpecs[i].0 != CollectedSpecs[j].0
    ensures forall i :: 0 <= i < |CollectedSpecs| ==> DistinctKeys(CollectedSpecs[i].1.aiPerformance)
  {
  }

  /** A specification holds every field the table reads. */
  lemma SpecRowHasColumns(f: SpecFields)
    ensures forall i :: 0 <= i < |SpecColumns| ==> HasKey(SpecRow(f), SpecColumns[i].1)
  {
    var spec := SpecRow(f);
    var at := [0, 1, 2, 3, 4, 5, 6, 8, 9];
    forall i | 0 <= i < |SpecColumns| ensures HasKey(spec, SpecColumns[i].1) {
      assert spec[at[i]].0 == SpecColumns[i].1;
    }
  }

  lemma SpecColumnTdp()
    ensures SpecColumns[2] == ("tdp_watts", "tdp_watts")
  {
  }

  /** The TDP of a specification, as looked up. */
  lemma SpecRowTdp(f: SpecFields)
    ensures Lookup(SpecRow(f), "tdp_watts") == Some(Num(f.tdpWatts))
  {
    LookupFirst(SpecRow(f), 2);
  }

  /** The AI performance of a specification, as looked up. */
  lemma SpecRowPerformance(f: SpecFields)
    ensures Lookup(SpecRow(f), "ai_performance") == Some(Table(f.aiPerformance))
  {
    LookupFirst(SpecRow(f), 7);
  }

  /** Every collected specification flattens: its row names the model and
      carries its TDP and every one of its AI performance figures. */
  lemma SpecRowFlattens(model: string, f: SpecFields)
    requires DistinctKeys(f.aiPerformance)
    ensures GpuSpecRow(model, SpecRow(f)).Ok?
    ensures Lookup(GpuSpecRow(model, SpecRow(f)).value, "gpu_model") == Some(Str(model))
    ensures Lookup(GpuSpecRow(model, SpecRow(f)).value, "tdp_watts") == Some(Num(f.tdpWatts))
    ensures forall i :: 0 <= i < |f.aiPerformance| ==>
      Lookup(GpuSpecRow(model, SpecRow(f)).value, AiPrefix + f.aiPerformance[i].0) == Some(f.aiPerformance[i].1)
  {
    var spec := SpecRow(f);
    SpecRowHasColumns(f);
    SpecRowTdp(f);
    SpecRowPerformance(f);
    assert SpecColumns[2] == ("tdp_watts", "tdp_watts") by { SpecColumnTdp(); }
    GpuSpecRowOk(model, spec);
    GpuSpecRowColumns(model, spec);
    forall i | 0 <= i < |f.aiPerformance|
      ensures Lookup(GpuSpecRow(model, spec).value, AiPrefix + f.aiPerformance[i].0) == Some(f.aiPerformance[i].1)
    {
      GpuSpecRowAi(model, spec, i);
    }
  }

  /** Specifications whose AI performance maps have distinct keys flatten
      into one row per model, in order, each with the model's name and
      TDP. */
  lemma SpecRowsFlatten(entries: seq<(string, SpecFields)>)
    requires forall i :: 0 <= i < |entries| ==> DistinctKeys(entries[i].1.aiPerformance)
    ensures GpuSpecRows(SpecRows(entries)).Ok?
    ensures |GpuSpecRows(SpecRows(entries)).value| == |entries|
    ensures forall i :: 0 <= i < |entries| ==>
      var row := GpuSpecRows(SpecRows(entries)).value[i];
      Lookup(row, "gpu_model") == Some(Str(entries[i].0))
      && Lookup(row, "tdp_watts") == Some(Num(entries[i].1.tdpWatts))
  {
    var specs := SpecRows(entries);
    forall i | 0 <= i < |specs|
      ensures GpuSpecRowOf(specs[i]).Ok?
      ensures Lookup(GpuSpecRowOf(specs[i]).value, "gpu_model") == Some(Str(entries[i].0))
      ensures Lookup(GpuSpecRowOf(specs[i]).value, "tdp_watts") == Some(Num(entries[i].1.tdpWatts))
    {
      SpecRowFlattens(entries[i].0, entries[i].1);
    }
  }

  /** The collected table flattens into six rows, one per model in the
      collector's order, each with the model's name and TDP. */
  lemma CollectedSpecsFlatten()
    ensures GpuSpecRows(CollectGpuSpecifications()).Ok?
    ensures |GpuSpecRows(CollectGpuSpecifications()).value| == 6
    ensures forall i :: 0 <= i < 6 ==>
      var row := GpuSpecRows(CollectGpuSpecifications()).value[i];
      Lookup(row, "gpu_model") == Some(Str(CollectedSpecs[i].0))
      && Lookup(row, "tdp_watts") == Some(Num(CollectedSpecs[i].1.tdpWatts))
  {
    CollectedSpecsShape();
    SpecRowsFlatten(CollectedSpecs);
  }

  // ---------------------------------------------------------------------
  // MLPerf benchmarks.
  // ---------------------------------------------------------------------

  /** Suite → workload → GPU model → result fields. */
  type MlperfData = seq<(string, seq<(string, seq<(string, Row)>)>)>

  /** One result of the nested map with the three keys that lead to it. */
  datatype Leaf = Leaf(suite: string, workload: string, gpu: string, results: Row)

  function WorkloadLeaves(suite: string, workload: string, gpus: seq<(string, Row)>): (ls: seq<Leaf>)
    ensures |ls| == |gpus|
  {
    seq(|gpus|, k requires 0 <= k < |gpus| => Leaf(suite, workload, gpus[k].0, gpus[k].1))
  }

  function SuiteLeaves(suite: string, workloads: seq<(string, seq<(string, Row)>)>): seq<Leaf> {
    if |workloads| == 0 then []
    else
      var n := |workloads| - 1;
      SuiteLeaves(suite, workloads[..n]) + WorkloadLeaves(suite, workloads[n].0, workloads[n].1)
  }

  /** The leaves of the nested map in iteration order: suites, then
      workloads, then GPU models. */
  function Leaves(data: MlperfData): seq<Leaf> {
    if |data| == 0 then []
    else
      var n := |data| - 1;
      Leaves(data[..n]) + SuiteLeaves(data[n].0, data[n].1)
  }

  const MlperfColumns: seq<(string, string)> := [
    ("power_consumption_watts", "power_consumption_watts"),
    ("system_config", "system_config"),
    ("submission_date", "submission_date"),
    ("submitter", "submitter")]

  /** The three keys that lead to a result, as the first columns of its row. */
  function LeafIds(leaf: Leaf): Row {
    [("benchmark_suite", Str(leaf.suite)), ("workload", Str(leaf.workload)), ("gpu_model", Str(leaf.gpu))]
  }

  /** The row of one result: the three keys, the four reserved fields, then
      every other result field under its own name. */
  function MlperfRow(leaf: Leaf): Result<Row, CollectError> {
    match Columns(leaf.results, MlperfColumns)
    case Err(e) => Err(e)
    case Ok(cols) => Ok(CopyOthers(LeafIds(leaf) + cols, leaf.results))
  }

  /** A row exists exactly when every reserved field is present. */
  lemma MlperfRowOk(leaf: Leaf)
    ensures MlperfRow(leaf).Ok? <==> forall i :: 0 <= i < |MlperfColumns| ==> HasKey(leaf.results, MlperfColumns[i].1)
  {
  }

  /** The reserved columns are the reserved fields, distinct and apart from
      the three keys. */
  lemma MlperfColumnsFacts()
    ensures forall i, j :: 0 <= i < j < |MlperfColumns| ==> MlperfColumns[i].0 != MlperfColumns[j].0
    ensures forall i :: 0 <= i < |MlperfColumns| ==> Reserved(MlperfColumns[i].0)
    ensures forall i :: 0 <= i < |MlperfColumns| ==>
      MlperfColumns[i].0 != "benchmark_suite" && MlperfColumns[i].0 != "workload" && MlperfColumns[i].0 != "gpu_model"
  {
  }

  lemma MlperfBaseDistinct(leaf: Leaf, cols: Row)
    requires |cols| == |MlperfColumns| && forall i :: 0 <= i < |cols| ==> cols[i].0 == MlperfColumns[i].0
    ensures DistinctKeys(LeafIds(leaf) + cols)
  {
    MlperfColumnsFacts();
  }

  /** Each reserved field lands in its column unchanged. */
  lemma MlperfRowReserved(leaf: Leaf)
    requires MlperfRow(leaf).Ok?
    ensures forall i :: 0 <= i < |MlperfColumns| ==>
      Lookup(MlperfRow(leaf).value, MlperfColumns[i].0) == Lookup(leaf.results, MlperfColumns[i].1)
  {
    var cols := Columns(leaf.results, MlperfColumns).value;
    var base := LeafIds(leaf) + cols;
    MlperfBaseDistinct(leaf, cols);
    MlperfColumnsFacts();
    forall c | 0 <= c < |MlperfColumns|
      ensures Lookup(MlperfRow(leaf).value, MlperfColumns[c].0) == Lookup(leaf.results, MlperfColumns[c].1)
    {
      CopyOthersKeeps(base, leaf.results, MlperfColumns[c].0);
      assert base[c + 3] == cols[c];
      LookupEntry(base, c + 3);
    }
  }

  /** Every other result field lands under its own name unchanged. */
  lemma MlperfRowOthers(leaf: Leaf, i: nat)
    requires MlperfRow(leaf).Ok? && DistinctKeys(leaf.results)
    requires i < |leaf.results| && !Reserved(leaf.results[i].0)
    ensures Lookup(MlperfRow(leaf).value, leaf.results[i].0) == Some(leaf.results[i].1)
  {
    CopyOthersLookup(LeafIds(leaf) + Columns(leaf.results, MlperfColumns).value, leaf.results, i);
  }

  /** The three keys keep their values unless a result field of the same
      name overwrote them. */
  lemma MlperfRowIds(leaf: Leaf)
    requires MlperfRow(leaf).Ok?
    ensures !HasKey(leaf.results, "benchmark_suite") ==>
      Lookup(MlperfRow(leaf).value, "benchmark_suite") == Some(Str(leaf.suite))
    ensures !HasKey(leaf.results, "workload") ==> Lookup(MlperfRow(leaf).value, "workload") == Some(Str(leaf.workload))
    ensures !HasKey(leaf.results, "gpu_model") ==> Lookup(MlperfRow(leaf).value, "gpu_model") == Some(Str(leaf.gpu))
  {
    var cols := Columns(leaf.results, MlperfColumns).value;
    var base := LeafIds(leaf) + cols;
    MlperfBaseDistinct(leaf, cols);
    if !HasKey(leaf.results, "benchmark_suite") {
      CopyOthersKeeps(base, leaf.results, "benchmark_suite");
      LookupEntry(base, 0);
    }
    if !HasKey(leaf.results, "workload") {
      CopyOthersKeeps(base, leaf.results, "workload");
      LookupEntry(base, 1);
    }
    if !HasKey(leaf.results, "gpu_model") {
      CopyOthersKeeps(base, leaf.results, "gpu_model");
      LookupEntry(base, 2);
    }
  }

  /** The body of `_save_mlperf_csv`'s innermost loop: the row dict of one
      result, then its other fields one by one. */
  method BuildMlperfRow(leaf: Leaf) returns (r: Result<Row, CollectError>)
    ensures r == MlperfRow(leaf)
  {
    var cols := Columns(leaf.results, MlperfColumns);
    if cols.Err? {
      return Err(cols.error);
    }
    var entries := leaf.results;
    var base := LeafIds(leaf) + cols.value;
    var row := base;
    var j := 0;
    assert entries[..0] == [];
    while j < |entries|
      invariant 0 <= j <= |entries|
      invariant row == CopyOthers(base, entries[..j])
    {
      assert entries[..j + 1][..j] == entries[..j];
      if !Reserved(entries[j].0) {
        row := Assign(row, entries[j].0, entries[j].1);
      }
      j := j + 1;
    }
    assert entries[..|entries|] == entries;
    r := Ok(row);
  }

  /** `_save_mlperf_csv`'s rows: one per leaf, in iteration order; the
      first failing leaf decides the error. */
  function MlperfRows(data: MlperfData): Result<seq<Row>, CollectError> {
    MapResults(Leaves(data), MlperfRow)
  }

  lemma {:induction false} SuiteLeavesAppend(suite: string, a: seq<(string, seq<(string, Row)>)>,
                                             b: seq<(string, seq<(string, Row)>)>)
    ensures SuiteLeaves(suite, a + b) == SuiteLeaves(suite, a) + SuiteLeaves(suite, b)
  {
    if |b| == 0 {
      assert a + b == a;
    } else {
      var n := |b| - 1;
      assert (a + b)[..|a + b| - 1] == a + b[..n];
      SuiteLeavesAppend(suite, a, b[..n]);
    }
  }

  lemma {:induction false} LeavesAppend(a: MlperfData, b: MlperfData)
    ensures Leaves(a + b) == Leaves(a) + Leaves(b)
  {
    if |b| == 0 {
      assert a + b == a;
    } else {
      var n := |b| - 1;
      var last := SuiteLeaves(b[n].0, b[n].1);
      assert (a + b)[..|a + b| - 1] == a + b[..n];
      assert (a + b)[|a + b| - 1] == b[n];
      assert Leaves(a + b) == Leaves(a + b[..n]) + last;
      assert Leaves(b) == Leaves(b[..n]) + last;
      LeavesAppend(a, b[..n]);
      AppendAssoc(Leaves(a), Leaves(b[..n]), last);
    }
  }

  lemma LeavesSplit(data: MlperfData, k: nat)
    requires k <= |data|
    ensures Leaves(data) == Leaves(data[..k]) + Leaves(data[k..])
  {
    assert data == data[..k] + data[k..];
    LeavesAppend(data[..k], data[k..]);
  }

  lemma SuiteLeavesSplit(suite: string, workloads: seq<(string, seq<(string, Row)>)>, k: nat)
    requires k <= |workloads|
    ensures SuiteLeaves(suite, workloads) == SuiteLeaves(suite, workloads[..k]) + SuiteLeaves(suite, workloads[k..])
  {
    assert workloads == workloads[..k] + workloads[k..];
    SuiteLeavesAppend(suite, workloads[..k], workloads[k..]);
  }

  /** The innermost loop of `_save_mlperf_csv`: the rows of one workload's
      results, appended to the rows built so far. */
  method AppendWorkloadRows(ghost visited: seq<Leaf>, suite: string, workload: string, gpus: seq<(string, Row)>,
                            rows: seq<Row>) returns (r: Result<seq<Row>, CollectError>)
    requires MapResults(visited, MlperfRow) == Ok(rows)
    ensures r == MapResults(visited + WorkloadLeaves(suite, workload, gpus), MlperfRow)
  {
    ghost var leaves := WorkloadLeaves(suite, workload, gpus);
    var acc := rows;
    var k := 0;
    assert visited + leaves[..0] == visited;
    while k < |gpus|
      invariant 0 <= k <= |gpus|
      invariant MapResults(visited + leaves[..k], MlperfRow) == Ok(acc)
    {
      var leaf := Leaf(suite, workload, gpus[k].0, gpus[k].1);
      assert leaf == leaves[k];
      MapResultsStep(visited, leaves, k, MlperfRow);
      var row := BuildMlperfRow(leaf);
      if row.Err? {
        MapResultsErrAt(visited, leaves, k + 1, MlperfRow);
        return Err(row.error);
      }
      acc := acc + [row.value];
      k := k + 1;
    }
    assert leaves[..|gpus|] == leaves;
    r := Ok(acc);
  }

  lemma SuiteLeavesPrefixStep(suite: string, workloads: seq<(string, seq<(string, Row)>)>, j: nat)
    requires j < |workloads|
    ensures SuiteLeaves(suite, workloads[..j + 1])
      == SuiteLeaves(suite, workloads[..j]) + WorkloadLeaves(suite, workloads[j].0, workloads[j].1)
  {
    assert workloads[..j + 1][..j] == workloads[..j];
  }

  /** The middle loop of `_save_mlperf_csv`: the rows of one suite's
      workloads, appended to the rows built so far. */
  method AppendSuiteRows(ghost visited: seq<Leaf>, suite: string, workloads: seq<(string, seq<(string, Row)>)>,
                         rows: seq<Row>) returns (r: Result<seq<Row>, CollectError>)
    requires MapResults(visited, MlperfRow) == Ok(rows)
    ensures r == MapResults(visited + SuiteLeaves(suite, workloads), MlperfRow)
  {
    var acc := rows;
    var j := 0;
    assert visited + SuiteLeaves(suite, workloads[..0]) == visited by {
      assert workloads[..0] == [];
    }
    while j < |workloads|
      invariant 0 <= j <= |workloads|
      invariant MapResults(visited + SuiteLeaves(suite, workloads[..j]), MlperfRow) == Ok(acc)
    {
      var (workload, gpus) := workloads[j];
      ghost var front := SuiteLeaves(suite, workloads[..j]);
      ghost var block := WorkloadLeaves(suite, workload, gpus);
      var next := AppendWorkloadRows(visited + front, suite, workload, gpus, acc);
      SuiteLeavesPrefixStep(suite, workloads, j);
      AppendAssoc(visited, front, block);
      if next.Err? {
        SuiteLeavesSplit(suite, workloads, j + 1);
        MapResultsErrAppend(visited, SuiteLeaves(suite, workloads[..j + 1]), SuiteLeaves(suite, workloads[j + 1..]),
                            MlperfRow);
        return Err(next.error);
      }
      acc := next.value;
      j := j + 1;
    }
    assert workloads[..|workloads|] == workloads;
    r := Ok(acc);
  }

  /** The row-building loops of `_save_mlperf_csv`: suites, then workloads,
      then GPU models, one row per result. */
  method SaveMlperfRows(data: MlperfData) returns (r: Result<seq<Row>, CollectError>)
    ensures r == MlperfRows(data)
  {
    var rows: seq<Row> := [];
    var i := 0;
    assert data[..0] == [];
    while i < |data|
      invariant 0 <= i <= |data|
      invariant MapResults(Leaves(data[..i]), MlperfRow) == Ok(rows)
    {
      var (suite, workloads) := data[i];
      assert data[..i + 1][..i] == data[..i];
      assert Leaves(data[..i + 1]) == Leaves(data[..i]) + SuiteLeaves(suite, workloads);
      var next := AppendSuiteRows(Leaves(data[..i]), suite, workloads, rows);
      if next.Err? {
        LeavesSplit(data, i + 1);
        MapResultsErrPrefix(Leaves(data[..i + 1]), Leaves(data), MlperfRow);
        return Err(next.error);
      }
      rows := next.value;
      i := i + 1;
    }
    assert data[..|data|] == data;
    r := Ok(rows);
  }
}
