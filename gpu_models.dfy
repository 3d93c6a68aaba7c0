/** The domain types of the GPU power simulator: the closed enumerations of
    GPU models and workload kinds, and the records whose numeric fields carry
    range constraints (backend/app/models/gpu_models.py). Range-constrained
    fields become subset types; validation, which the record library performs
    when a record is built from raw values, becomes a function returning a
    Result. */
module GpuModels {
  import opened Common

  datatype GpuType = H200 | H100 | A100 | L40S | L40 | L4 | V100 | T4 | A30 | Rtx4090

  datatype WorkloadType =
    LlmTraining | LlmInference | ComputerVision | Inference | StableDiffusion | Custom

  /** Usage patterns; declared by the data model and not used by the
      simulator. */
  datatype PowerProfile = SustainedHigh | HighBurst | ModerateSustained | VariableBurst | Idle

  /** The string value of each GPU type. */
  function GpuTypeValue(g: GpuType): string {
    match g
    case H200 => "H200"
    case H100 => "H100"
    case A100 => "A100"
    case L40S => "L40S"
    case L40 => "L40"
    case L4 => "L4"
    case V100 => "V100"
    case T4 => "T4"
    case A30 => "A30"
    case Rtx4090 => "RTX_4090"
  }

  function WorkloadTypeValue(w: WorkloadType): string {
    match w
    case LlmTraining => "llm_training"
    case LlmInference => "llm_inference"
    case ComputerVision => "computer_vision"
    case Inference => "inference"
    case StableDiffusion => "stable_diffusion"
    case Custom => "custom"
  }

  /** `GPUType(s)`: construction from the string value; any other string is
      rejected. */
  function ParseGpuType(s: string): (r: Option<GpuType>)
    ensures r.Some? ==> GpuTypeValue(r.value) == s
    ensures forall g :: GpuTypeValue(g) == s ==> r == Some(g)
  {
    if s == "H200" then Some(H200)
    else if s == "H100" then Some(H100)
    else if s == "A100" then Some(A100)
    else if s == "L40S" then Some(L40S)
    else if s == "L40" then Some(L40)
    else if s == "L4" then Some(L4)
    else if s == "V100" then Some(V100)
    else if s == "T4" then Some(T4)
    else if s == "A30" then Some(A30)
    else if s == "RTX_4090" then Some(Rtx4090)
    else None
  }

  /** `WorkloadType(s)`. */
  function ParseWorkloadType(s: string): (r: Option<WorkloadType>)
    ensures r.Some? ==> WorkloadTypeValue(r.value) == s
    ensures forall w :: WorkloadTypeValue(w) == s ==> r == Some(w)
  {
    if s == "llm_training" then Some(LlmTraining)
    else if s == "llm_inference" then Some(LlmInference)
    else if s == "computer_vision" then Some(ComputerVision)
    else if s == "inference" then Some(Inference)
    else if s == "stable_diffusion" then Some(StableDiffusion)
    else if s == "custom" then Some(Custom)
    else None
  }

  /** The members of `GPUType` in declaration order. */
  function AllGpuTypes(): (r: seq<GpuType>)
    ensures |r| == 10
    ensures forall i, j :: 0 <= i < j < |r| ==> r[i] != r[j]
  {
    [H200, H100, A100, L40S, L40, L4, V100, T4, A30, Rtx4090]
  }

  /** Every GPU type is listed. */
  lemma AllGpuTypesCover(g: GpuType)
    ensures g in AllGpuTypes()
  {
    var r := AllGpuTypes();
    match g
    case H200 => assert r[0] == g;
    case H100 => assert r[1] == g;
    case A100 => assert r[2] == g;
    case L40S => assert r[3] == g;
    case L40 => assert r[4] == g;
    case L4 => assert r[5] == g;
    case V100 => assert r[6] == g;
    case T4 => assert r[7] == g;
    case A30 => assert r[8] == g;
    case Rtx4090 => assert r[9] == g;
  }

  /** The members of `WorkloadType` in declaration order. */
  function AllWorkloadTypes(): (r: seq<WorkloadType>)
    ensures |r| == 6
    ensures forall i, j :: 0 <= i < j < |r| ==> r[i] != r[j]
  {
    [LlmTraining, LlmInference, ComputerVision, Inference, StableDiffusion, Custom]
  }

  /** Every workload type is listed. */
  lemma AllWorkloadTypesCover(w: WorkloadType)
    ensures w in AllWorkloadTypes()
  {
    var r := AllWorkloadTypes();
    match w
    case LlmTraining => assert r[0] == w;
    case LlmInference => assert r[1] == w;
    case ComputerVision => assert r[2] == w;
    case Inference => assert r[3] == w;
    case StableDiffusion => assert r[4] == w;
    case Custom => assert r[5] == w;
  }

  /** Distinct enum members have distinct string values. */
  lemma GpuTypeValueInjective(g: GpuType, h: GpuType)
    requires GpuTypeValue(g) == GpuTypeValue(h)
    ensures g == h
  {
    assert ParseGpuType(GpuTypeValue(g)) == Some(g);
  }

  // Range-constrained numbers.

  /** A utilization percentage, 0 <= u <= 100. */
  type Utilization = u: real | 0.0 <= u <= 100.0 witness 85.0
  /** A duration in hours, strictly positive. */
  type Duration = d: real | d > 0.0 witness 1.0
  /** A score between 0 and 100. */
  type Score = s: real | 0.0 <= s <= 100.0 witness 0.0
  /** A power usage effectiveness, at least 1. */
  type Pue = p: real | p >= 1.0 witness 1.3
  /** A fraction between 0 and 1. */
  type Fraction = f: real | 0.0 <= f <= 1.0 witness 0.0

  const DefaultUtilization: Utilization := 85.0
  const DefaultDuration: Duration := 1.0
  const DefaultCoolingEfficiency: Pue := 1.3
  const DefaultRenewableEnergyRatio: Fraction := 0.0

  datatype WorkloadConfig = WorkloadConfig(
    gpuType: GpuType,
    workloadType: WorkloadType,
    utilization: Utilization,
    durationHours: Duration,
    batchSize: Option<int>,
    modelSize: Option<string>,
    customTdp: Option<real>)

  datatype GpuSpecification = GpuSpecification(
    name: string,
    architecture: string,
    tdpWatts: real,
    cudaCores: int,
    tensorCores: int,
    memoryGb: real,
    memoryBandwidth: string,
    aiPerformanceTops: real,
    releaseYear: int,
    computeCapability: string)

  datatype MlPerfBenchmark = MlPerfBenchmark(
    workloadName: string,
    gpuType: GpuType,
    performanceMetric: real,
    metricUnit: string,
    powerUtilization: real,
    typicalDurationHours: real,
    description: string)

  datatype SimulationResult = SimulationResult(
    gpuType: GpuType,
    workloadType: WorkloadType,
    hourlyPowerKw: real,
    totalEnergyKwh: real,
    costEstimateUsd: real,
    efficiencyScore: Score,
    carbonFootprintKg: real,
    utilizationActual: real,
    temperatureEstimateC: Option<real>)

  datatype DatacenterConfig = DatacenterConfig(
    name: string,
    location: string,
    totalGpus: int,
    gpuDistribution: map<GpuType, int>,
    coolingEfficiency: Pue,
    renewableEnergyRatio: Fraction)

  datatype DatacenterSimulationResult = DatacenterSimulationResult(
    datacenterName: string,
    totalPowerKw: real,
    totalEnergyKwh: real,
    totalCostUsd: real,
    totalCarbonFootprintKg: real,
    gpuResults: seq<SimulationResult>,
    coolingPowerKw: real,
    infrastructurePowerKw: real,
    pue: real)

  datatype ValidationError =
    | UnknownGpuType(given: string)
    | UnknownWorkloadType(given: string)
    | UtilizationOutOfRange(utilization: real)
    | DurationNotPositive(duration: real)
    | CoolingEfficiencyBelowOne(pue: real)
    | RenewableRatioOutOfRange(ratio: real)

  /** Builds a `WorkloadConfig` from raw fields: absent utilization and
      duration take their defaults, then each field is checked against its
      constraint. */
  function ValidateWorkloadConfig(
    gpuType: string, workloadType: string,
    utilization: Option<real>, durationHours: Option<real>,
    batchSize: Option<int>, modelSize: Option<string>, customTdp: Option<real>)
    : (r: Result<WorkloadConfig, ValidationError>)
    ensures r.Ok? <==>
      && ParseGpuType(gpuType).Some?
      && ParseWorkloadType(workloadType).Some?
      && 0.0 <= utilization.GetOr(85.0) <= 100.0
      && durationHours.GetOr(1.0) > 0.0
    ensures r.Ok? ==>
      && GpuTypeValue(r.value.gpuType) == gpuType
      && WorkloadTypeValue(r.value.workloadType) == workloadType
      && r.value.utilization == utilization.GetOr(85.0)
      && r.value.durationHours == durationHours.GetOr(1.0)
      && r.value.batchSize == batchSize
      && r.value.modelSize == modelSize
      && r.value.customTdp == customTdp
  {
    var u := utilization.GetOr(DefaultUtilization);
    var d := durationHours.GetOr(DefaultDuration);
    match ParseGpuType(gpuType)
    case None => Err(UnknownGpuType(gpuType))
    case Some(g) =>
      match ParseWorkloadType(workloadType)
      case None => Err(UnknownWorkloadType(workloadType))
      case Some(w) =>
        if !(0.0 <= u <= 100.0) then Err(UtilizationOutOfRange(u))
        else if !(d > 0.0) then Err(DurationNotPositive(d))
        else Ok(WorkloadConfig(g, w, u, d, batchSize, modelSize, customTdp))
  }

  /** Builds a `DatacenterConfig`: PUE defaults to 1.3 and must be at least
      1; the renewable ratio defaults to 0 and must lie in [0, 1]. */
  function ValidateDatacenterConfig(
    name: string, location: string, totalGpus: int,
    gpuDistribution: map<GpuType, int>,
    coolingEfficiency: Option<real>, renewableEnergyRatio: Option<real>)
    : (r: Result<DatacenterConfig, ValidationError>)
    ensures r.Ok? <==>
      coolingEfficiency.GetOr(1.3) >= 1.0 && 0.0 <= renewableEnergyRatio.GetOr(0.0) <= 1.0
    ensures r.Ok? ==>
      && r.value.coolingEfficiency == coolingEfficiency.GetOr(1.3)
      && r.value.renewableEnergyRatio == renewableEnergyRatio.GetOr(0.0)
      && r.value.name == name && r.value.location == location
      && r.value.totalGpus == totalGpus && r.value.gpuDistribution == gpuDistribution
  {
    var pue := coolingEfficiency.GetOr(DefaultCoolingEfficiency);
    var ratio := renewableEnergyRatio.GetOr(DefaultRenewableEnergyRatio);
    if !(pue >= 1.0) then Err(CoolingEfficiencyBelowOne(pue))
    else if !(0.0 <= ratio <= 1.0) then Err(RenewableRatioOutOfRange(ratio))
    else Ok(DatacenterConfig(name, location, totalGpus, gpuDistribution, pue, ratio))
  }

  /** A workload configuration given only the two required fields takes
      utilization 85, duration 1 hour and no optional fields. */
  lemma WorkloadConfigDefaults(g: GpuType, w: WorkloadType)
    ensures ValidateWorkloadConfig(GpuTypeValue(g), WorkloadTypeValue(w), None, None, None, None, None)
         == Ok(WorkloadConfig(g, w, 85.0, 1.0, None, None, None))
  {
  }
}
