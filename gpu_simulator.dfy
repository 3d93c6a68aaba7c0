/** The GPU workload power simulator (backend/app/services/gpu_simulator.py).
    Every quantity is a closed-form expression over fixed tables: the
    specification of each GPU model, the base efficiency of each workload,
    the bonus of each architecture and the suitability score of some
    (GPU, workload) pairs. The simulator's tables are set once and never
    change, so it is modelled as functions. */
module GpuSimulator {
  import opened Common
  import opened GpuModels

  /** USD per kWh. */
  const PowerCostPerKwh: real := 0.12
  /** kg of CO2 per kWh. */
  const CarbonFactor: real := 0.4571

  /** The NVIDIA specification table. */
  function Specification(g: GpuType): (s: GpuSpecification)
    ensures 70.0 <= s.tdpWatts <= 700.0
    ensures s.architecture in {"Hopper", "Ampere", "Ada Lovelace", "Volta", "Turing"}
    ensures s.architecture == "Hopper" <==> g == H200 || g == H100
  {
    match g
    case H200 => GpuSpecification("NVIDIA H200", "Hopper", 700.0, 16896, 456, 141.0, "4.8 TB/s", 1600.0, 2024, "9.0")
    case H100 => GpuSpecification("NVIDIA H100", "Hopper", 700.0, 16896, 456, 80.0, "3.35 TB/s", 1000.0, 2022, "9.0")
    case A100 => GpuSpecification("NVIDIA A100", "Ampere", 400.0, 6912, 432, 80.0, "2.0 TB/s", 624.0, 2020, "8.0")
    case L40S => GpuSpecification("NVIDIA L40S", "Ada Lovelace", 350.0, 18176, 568, 48.0, "864 GB/s", 733.0, 2023, "8.9")
    case L40 => GpuSpecification("NVIDIA L40", "Ada Lovelace", 300.0, 18176, 568, 48.0, "864 GB/s", 362.0, 2023, "8.9")
    case L4 => GpuSpecification("NVIDIA L4", "Ada Lovelace", 72.0, 7424, 240, 24.0, "300 GB/s", 242.0, 2023, "8.9")
    case V100 => GpuSpecification("NVIDIA V100", "Volta", 300.0, 5120, 640, 32.0, "900 GB/s", 125.0, 2017, "7.0")
    case T4 => GpuSpecification("NVIDIA T4", "Turing", 70.0, 2560, 320, 16.0, "300 GB/s", 130.0, 2018, "7.5")
    case A30 => GpuSpecification("NVIDIA A30", "Ampere", 165.0, 3584, 224, 24.0, "933 GB/s", 330.0, 2021, "8.0")
    case Rtx4090 => GpuSpecification("NVIDIA RTX 4090", "Ada Lovelace", 450.0, 16384, 512, 24.0, "1008 GB/s", 165.0, 2022, "8.9")
  }

  /** Base power efficiency of a workload kind. */
  function WorkloadEfficiency(w: WorkloadType): (e: real)
    ensures 0.60 <= e <= 0.95
    ensures e == 0.95 <==> w == LlmTraining
  {
    match w
    case LlmTraining => 0.95
    case LlmInference => 0.60
    case ComputerVision => 0.85
    case Inference => 0.60
    case StableDiffusion => 0.75
    case Custom => 0.70
  }

  /** Efficiency bonus of an architecture; an architecture outside the
      table (Turing) gets none. */
  function ArchitectureBonus(architecture: string): (b: real)
    ensures 0.0 <= b <= 0.05
    ensures architecture !in {"Hopper", "Ada Lovelace", "Ampere"} ==> b == 0.0
  {
    if architecture == "Hopper" then 0.05
    else if architecture == "Ada Lovelace" then 0.03
    else if architecture == "Ampere" then 0.02
    else if architecture == "Volta" then 0.0
    else 0.0
  }

  /** The utilization band factor: full efficiency from 50 to 95 percent
      inclusive, less below and above. */
  function UtilizationFactor(utilization: real): (f: real)
    ensures 0.85 <= f <= 1.0
    ensures f == 1.0 <==> 50.0 <= utilization <= 95.0
    ensures f == 0.85 <==> utilization < 50.0
  {
    if utilization < 50.0 then 0.85
    else if utilization > 95.0 then 0.90
    else 1.0
  }

  /** `_calculate_power_efficiency`: the share of the TDP drawn per unit of
      utilization. */
  function PowerEfficiency(g: GpuType, w: WorkloadType, utilization: real): (c: real)
    ensures 0.51 <= c <= 1.0
  {
    (WorkloadEfficiency(w) + ArchitectureBonus(Specification(g).architecture))
      * UtilizationFactor(utilization)
  }

  /** The workload suitability of a (GPU, workload) pair; pairs outside the
      table score 70. */
  function WorkloadScore(g: GpuType, w: WorkloadType): (s: real)
    ensures 60.0 <= s <= 95.0
    ensures g !in {H100, A100, L4} || w == Custom ==> s == 70.0
  {
    match (g, w)
    case (H100, LlmTraining) => 95.0
    case (H100, LlmInference) => 90.0
    case (H100, ComputerVision) => 85.0
    case (H100, Inference) => 90.0
    case (H100, StableDiffusion) => 80.0
    case (A100, LlmTraining) => 85.0
    case (A100, LlmInference) => 85.0
    case (A100, ComputerVision) => 90.0
    case (A100, Inference) => 85.0
    case (A100, StableDiffusion) => 75.0
    case (L4, LlmTraining) => 60.0
    case (L4, LlmInference) => 95.0
    case (L4, ComputerVision) => 80.0
    case (L4, Inference) => 95.0
    case (L4, StableDiffusion) => 85.0
    case _ => 70.0
  }

  function Abs(x: real): real {
    if x < 0.0 then -x else x
  }

  /** The utilization part of the efficiency score: 100 at 85 percent,
      half a point less per percent of distance, never below 50. */
  function UtilizationScore(utilization: real): (s: real)
    ensures 50.0 <= s <= 100.0
    ensures s == 100.0 <==> utilization == 85.0
    ensures 0.0 <= utilization <= 100.0 ==> s >= 57.5
  {
    var raw := 100.0 - Abs(85.0 - utilization) * 0.5;
    if raw < 50.0 then 50.0 else raw
  }

  /** `_calculate_efficiency_score`. */
  function EfficiencyScore(g: GpuType, w: WorkloadType, utilization: real): (s: real)
    ensures 55.0 <= s <= 97.5
    ensures 0.0 <= s <= 100.0
  {
    (WorkloadScore(g, w) + UtilizationScore(utilization)) / 2.0
  }

  /** `_estimate_temperature`: 35 degrees plus 45 degrees per TDP drawn.
      Python raises on a zero TDP. */
  function Temperature(actualPower: real, tdp: real): (t: real)
    requires tdp != 0.0
    ensures tdp > 0.0 && 0.0 <= actualPower <= tdp ==> 35.0 <= t <= 80.0
    ensures tdp > 0.0 ==> (t <= 80.0 <==> actualPower <= tdp)
  {
    35.0 + actualPower / tdp * 45.0
  }

  /** `config.get('custom_tdp') or spec.tdp_watts`: a custom TDP that is
      absent or zero falls back to the specification. */
  function ResolvedTdp(g: GpuType, customTdp: Option<real>): (t: real)
    ensures customTdp.Some? && customTdp.value != 0.0 ==> t == customTdp.value
    ensures customTdp.None? || customTdp.value == 0.0 ==> t == Specification(g).tdpWatts
  {
    if customTdp.Some? && customTdp.value != 0.0 then customTdp.value
    else Specification(g).tdpWatts
  }

  /** The configuration dictionary the simulator reads: the two enum values
      as strings and the optional numeric entries. */
  datatype SimulationRequest = SimulationRequest(
    gpuType: string,
    workloadType: string,
    utilization: Option<real>,
    durationHours: Option<real>,
    customTdp: Option<real>)

  /** The power drawn, in watts: the resolved TDP times the power
      coefficient times the utilization share. For a utilization in
      [0, 100] and a non-negative TDP it never exceeds that TDP. */
  function ActualPower(g: GpuType, w: WorkloadType, u: real, customTdp: Option<real>): (p: real)
    ensures 0.0 <= u <= 100.0 && ResolvedTdp(g, customTdp) >= 0.0 ==>
      0.0 <= p <= ResolvedTdp(g, customTdp)
  {
    var baseTdp := ResolvedTdp(g, customTdp);
    var coeff := PowerEfficiency(g, w, u);
    assert 0.0 <= u <= 100.0 && baseTdp >= 0.0 ==> 0.0 <= baseTdp * coeff * (u / 100.0) <= baseTdp by {
      if 0.0 <= u <= 100.0 && baseTdp >= 0.0 {
        PowerWithinTdp(baseTdp, coeff, u);
      }
    }
    baseTdp * coeff * (u / 100.0)
  }

  /** The duration-dependent figures of a run drawing `hourly` kW for `d`
      hours: the energy in kWh, its cost in USD and its carbon in kg. */
  function Consumption(hourly: real, d: real): (c: (real, real, real))
    ensures c.0 == hourly * d
    ensures c.1 == c.0 * 0.12 && c.2 == c.0 * 0.4571
  {
    var total := hourly * d;
    (total, total * PowerCostPerKwh, total * CarbonFactor)
  }

  /** The simulation of a parsed configuration: utilization `u` percent
      for `d` hours. */
  function SimulateConfig(g: GpuType, w: WorkloadType, u: real, d: real, customTdp: Option<real>)
    : (r: SimulationResult)
    ensures r.gpuType == g && r.workloadType == w && r.utilizationActual == u
    ensures r.hourlyPowerKw * 1000.0 == ActualPower(g, w, u, customTdp)
    ensures (r.totalEnergyKwh, r.costEstimateUsd, r.carbonFootprintKg) == Consumption(r.hourlyPowerKw, d)
    ensures r.efficiencyScore == EfficiencyScore(g, w, u)
    ensures 55.0 <= r.efficiencyScore <= 97.5
    ensures r.temperatureEstimateC == Some(Temperature(ActualPower(g, w, u, customTdp), Specification(g).tdpWatts))
  {
    var actualPower := ActualPower(g, w, u, customTdp);
    var hourly := actualPower / 1000.0;
    var (total, cost, carbon) := Consumption(hourly, d);
    SimulationResult(
      g, w, hourly, total, cost,
      EfficiencyScore(g, w, u),
      carbon,
      u,
      Some(Temperature(actualPower, Specification(g).tdpWatts)))
  }

  /** `simulate_workload_power`, before the output rounding. An unknown GPU
      or workload string fails where the enum is constructed; absent
      utilization and duration take 85 percent and one hour. */
  function Simulate(req: SimulationRequest): (r: Result<SimulationResult, ValidationError>)
    ensures r.Err? <==> ParseGpuType(req.gpuType).None? || ParseWorkloadType(req.workloadType).None?
    ensures r.Err? && ParseGpuType(req.gpuType).None? ==> r.error == UnknownGpuType(req.gpuType)
    ensures r.Ok? ==>
      && GpuTypeValue(r.value.gpuType) == req.gpuType
      && WorkloadTypeValue(r.value.workloadType) == req.workloadType
      && r.value == SimulateConfig(r.value.gpuType, r.value.workloadType,
                                   req.utilization.GetOr(85.0), req.durationHours.GetOr(1.0),
                                   req.customTdp)
  {
    match ParseGpuType(req.gpuType)
    case None => Err(UnknownGpuType(req.gpuType))
    case Some(g) =>
      match ParseWorkloadType(req.workloadType)
      case None => Err(UnknownWorkloadType(req.workloadType))
      case Some(w) =>
        Ok(SimulateConfig(g, w, req.utilization.GetOr(DefaultUtilization),
                          req.durationHours.GetOr(DefaultDuration), req.customTdp))
  }

  /** A draw of `coeff` times the utilization share never exceeds the TDP
      when the coefficient is at most 1 and the utilization at most 100. */
  lemma PowerWithinTdp(tdp: real, coeff: real, utilization: real)
    requires tdp >= 0.0 && 0.0 <= coeff <= 1.0 && 0.0 <= utilization <= 100.0
    ensures 0.0 <= tdp * coeff * (utilization / 100.0) <= tdp
  {
    var share := utilization / 100.0;
    var x := coeff * share;
    MulNonneg(coeff, share);
    MulMono(share, coeff, 1.0);
    assert x == share * coeff <= share <= 1.0;
    assert tdp * coeff * share == tdp * x;
    MulNonneg(tdp, x);
    MulMono(tdp, x, 1.0);
    assert 0.0 <= tdp * x <= tdp * 1.0 == tdp;
    assert tdp * coeff * (utilization / 100.0) == tdp * coeff * share;
  }

  /** The hourly power of a configuration does not depend on its duration. */
  lemma HourlyPowerIgnoresDuration(g: GpuType, w: WorkloadType, u: real, customTdp: Option<real>, d1: real, d2: real)
    ensures SimulateConfig(g, w, u, d1, customTdp).hourlyPowerKw
         == SimulateConfig(g, w, u, d2, customTdp).hourlyPowerKw
  {
    var r1 := SimulateConfig(g, w, u, d1, customTdp);
    var r2 := SimulateConfig(g, w, u, d2, customTdp);
    assert r1.hourlyPowerKw * 1000.0 == r2.hourlyPowerKw * 1000.0;
  }

  /** Energy, cost and carbon scale with the duration: running `k` times as
      long at the same hourly power multiplies each of them by `k`. */
  lemma DurationLinearity(hourly: real, d: real, k: real)
    ensures Consumption(hourly, k * d).0 == k * Consumption(hourly, d).0
    ensures Consumption(hourly, k * d).1 == k * Consumption(hourly, d).1
    ensures Consumption(hourly, k * d).2 == k * Consumption(hourly, d).2
  {
    var c := Consumption(hourly, d);
    var e := Consumption(hourly, k * d);
    ScaledProduct(hourly, d, k, c.0, e.0);
    ScaledProduct(0.12, c.0, k, c.1, e.1);
    ScaledProduct(0.4571, c.0, k, c.2, e.2);
  }

  /** Without a custom TDP and with utilization in [0, 100], the estimated
      temperature lies between 35 and 80 degrees. */
  lemma TemperatureBounded(req: SimulationRequest)
    requires Simulate(req).Ok?
    requires req.customTdp.None?
    requires 0.0 <= req.utilization.GetOr(85.0) <= 100.0
    ensures 35.0 <= Simulate(req).value.temperatureEstimateC.value <= 80.0
  {
    var g := ParseGpuType(req.gpuType).value;
    var w := ParseWorkloadType(req.workloadType).value;
    var u := req.utilization.GetOr(85.0);
    var tdp := Specification(g).tdpWatts;
    assert ResolvedTdp(g, req.customTdp) == tdp;
    assert 0.0 <= ActualPower(g, w, u, req.customTdp) <= tdp;
  }

  /** The temperature is computed against the specification TDP even when a
      custom TDP is given: it stays within 80 degrees exactly when the power
      drawn, at whatever TDP, is within the specification TDP. A custom TDP
      above the specification's can therefore read hotter than 80. */
  lemma TemperatureIgnoresCustomTdp(req: SimulationRequest)
    requires Simulate(req).Ok?
    ensures var r := Simulate(req).value;
      var u := req.utilization.GetOr(85.0);
      && r.temperatureEstimateC.Some?
      && (r.temperatureEstimateC.value <= 80.0
          <==> ActualPower(r.gpuType, r.workloadType, u, req.customTdp) <= Specification(r.gpuType).tdpWatts)
  {
  }

  /** An H100 training an LLM at 90 percent with twice its specification
      TDP reads 116 degrees. */
  lemma CustomTdpTemperatureExample()
    ensures Simulate(SimulationRequest("H100", "llm_training", Some(90.0), None, Some(1400.0)))
         == Ok(SimulationResult(H100, LlmTraining, 1.26, 1.26, 0.1512, 96.25, 0.575946, 90.0, Some(116.0)))
  {
  }

  /** An A100 training an LLM at 80 percent for one hour draws 310.4 W. */
  lemma A100TrainingExample()
    ensures Simulate(SimulationRequest("A100", "llm_training", Some(80.0), Some(1.0), None))
         == Ok(SimulationResult(A100, LlmTraining, 0.3104, 0.3104, 0.037248, 91.25, 0.14188384, 80.0, Some(69.92)))
  {
    assert ParseGpuType("A100") == Some(A100) by { assert GpuTypeValue(A100) == "A100"; }
    assert ParseWorkloadType("llm_training") == Some(LlmTraining) by {
      assert WorkloadTypeValue(LlmTraining) == "llm_training";
    }
    assert PowerEfficiency(A100, LlmTraining, 80.0) == 0.97;
    assert ActualPower(A100, LlmTraining, 80.0, None) == 310.4;
    assert EfficiencyScore(A100, LlmTraining, 80.0) == 91.25;
    assert Temperature(310.4, 400.0) == 69.92;
  }

  /** Absent utilization and duration mean 85 percent for one hour. */
  lemma SimulateDefaults(gpu: string, workload: string, customTdp: Option<real>)
    ensures Simulate(SimulationRequest(gpu, workload, None, None, customTdp))
         == Simulate(SimulationRequest(gpu, workload, Some(85.0), Some(1.0), customTdp))
  {
  }

  /** `get_gpu_specifications`: the specification table keyed by the GPU
      type's string value, in enum order. */
  function GpuSpecificationsTable(): (r: seq<(string, GpuSpecification)>)
    ensures |r| == 10
    ensures DistinctKeys(r)
    ensures forall i :: 0 <= i < |r| ==> r[i] == (GpuTypeValue(AllGpuTypes()[i]), Specification(AllGpuTypes()[i]))
  {
    var ts := AllGpuTypes();
    var r := seq(|ts|, i requires 0 <= i < |ts| => (GpuTypeValue(ts[i]), Specification(ts[i])));
    assert DistinctKeys(r) by {
      forall i, j | 0 <= i < j < |r| ensures r[i].0 != r[j].0 {
        if r[i].0 == r[j].0 {
          GpuTypeValueInjective(ts[i], ts[j]);
        }
      }
    }
    r
  }

  /** Every GPU type's specification is found under its string value. */
  lemma GpuSpecificationsTableLookup(g: GpuType)
    ensures Lookup(GpuSpecificationsTable(), GpuTypeValue(g)) == Some(Specification(g))
  {
    var ts := AllGpuTypes();
    AllGpuTypesCover(g);
    var i :| 0 <= i < |ts| && ts[i] == g;
    LookupEntry(GpuSpecificationsTable(), i);
  }
}
