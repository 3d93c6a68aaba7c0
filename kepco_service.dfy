/** The KEPCO grid-impact and site-recommendation service
    (backend/app/services/kepco_service.py): the impact of a new data centre
    on a region's supply capacity, the weighted site score and the top-N
    candidate search, the per-region lookup tables, and the one-hour cache
    in front of the (simulated) data source. The clock is an explicit `now`
    argument, in microseconds. */
module KepcoService {
  import opened Common
  import opened Sorting

  // ---------------------------------------------------------------------
  // Regional data
  // ---------------------------------------------------------------------

  datatype RegionInfo = RegionInfo(
    totalConsumptionMwh: real,
    industrialMwh: real,
    residentialMwh: real,
    commercialMwh: real,
    supplyCapacityMw: real,
    peakDemandMw: real,
    powerCostPerKwh: real)

  /** Region name to its record, in insertion order. */
  type RegionTable = seq<(string, RegionInfo)>

  /** The name of the national-total row, which is never a candidate. */
  const NationalTotal: string := "총계"
  const HoursPerYear: real := 8760.0

  /** `_get_simulated_regional_data`: five regions with positive annual
      consumption and supply capacity; the table is the same for every
      year. */
  function SimulatedRegionalData(year: int): (r: RegionTable)
    ensures |r| == 5 && DistinctKeys(r)
    ensures forall i :: 0 <= i < |r| ==>
      r[i].0 != NationalTotal && r[i].1.totalConsumptionMwh > 0.0 && r[i].1.supplyCapacityMw > 0.0
  {
    [ ("서울", RegionInfo(48500000.0, 8500000.0, 15200000.0, 24800000.0, 7200.0, 6800.0, 0.13)),
      ("경기", RegionInfo(82300000.0, 45600000.0, 21400000.0, 15300000.0, 12500.0, 11200.0, 0.12)),
      ("충남", RegionInfo(45200000.0, 35800000.0, 5400000.0, 4000000.0, 15800.0, 8200.0, 0.10)),
      ("전남", RegionInfo(42600000.0, 37200000.0, 3200000.0, 2200000.0, 14500.0, 7800.0, 0.09)),
      ("경북", RegionInfo(38900000.0, 31200000.0, 4700000.0, 3000000.0, 18200.0, 7200.0, 0.08)) ]
  }

  datatype PowerPlant = PowerPlant(
    name: string, location: string, capacityMw: real, generation2023Gwh: real, efficiency: real)

  /** `get_power_plant_data`'s table: plants grouped by kind. */
  function PowerPlantTable(): (r: seq<(string, seq<PowerPlant>)>)
    ensures DistinctKeys(r)
    ensures forall i, j :: 0 <= i < |r| && 0 <= j < |r[i].1| ==> r[i].1[j].capacityMw > 0.0
  {
    [ ("nuclear_plants", [ PowerPlant("고리원자력", "부산", 5360.0, 37420.0, 85.2),
                           PowerPlant("한울원자력", "경북", 6000.0, 43800.0, 88.1) ]),
      ("thermal_plants", [ PowerPlant("태안화력", "충남", 4000.0, 24000.0, 42.5) ]),
      ("renewable", [ PowerPlant("해남태양광", "전남", 98.0, 176.0, 20.5) ]) ]
  }

  // ---------------------------------------------------------------------
  // Impact analysis
  // ---------------------------------------------------------------------

  /** Grid stability risk, in increasing order of severity. */
  datatype RiskLevel = Low | Moderate | High {
    /** The label the service reports. */
    function Label(): string {
      match this
      case Low => "낮음"
      case Moderate => "보통"
      case High => "높음"
    }

    function Severity(): nat {
      match this
      case Low => 0
      case Moderate => 1
      case High => 2
    }
  }

  /** Risk from the capacity utilization: high above 90 percent, moderate
      above 80, low otherwise. */
  function RiskLevelOf(utilization: real): (r: RiskLevel)
    ensures r == High <==> utilization > 90.0
    ensures r == Moderate <==> 80.0 < utilization <= 90.0
    ensures r == Low <==> utilization <= 80.0
  {
    if utilization > 90.0 then High
    else if utilization > 80.0 then Moderate
    else Low
  }

  /** A higher utilization never lowers the risk. */
  lemma RiskMonotone(u1: real, u2: real)
    requires u1 <= u2
    ensures RiskLevelOf(u1).Severity() <= RiskLevelOf(u2).Severity()
  {
  }

  /** `_get_recommendations`: three actions above 80 percent utilization,
      two otherwise. The risk label is passed but not consulted. */
  function Recommendations(utilization: real, riskLabel: string): (r: seq<string>)
    ensures |r| == if utilization > 80.0 then 3 else 2
  {
    if utilization > 90.0 then
      ["긴급 전력 인프라 확충 필요", "인근 지역 전력망 연계 강화 검토", "데이터센터 규모 축소 권장"]
    else if utilization > 80.0 then
      ["중장기 전력 인프라 확충 계획 수립", "피크 시간대 전력 사용 분산 전략 필요", "재생에너지 연계 검토"]
    else
      ["현재 전력 인프라로 수용 가능", "향후 확장성 고려한 계획적 개발 권장"]
  }

  /** Three recommendations exactly when the risk is not low. */
  lemma RecommendationsFollowRisk(utilization: real)
    ensures |Recommendations(utilization, RiskLevelOf(utilization).Label())| == 3
        <==> RiskLevelOf(utilization) != Low
  {
  }

  datatype ImpactAnalysis = ImpactAnalysis(
    location: string,
    datacenterPowerMw: real,
    currentConsumptionMw: real,
    supplyCapacityMw: real,
    loadIncreasePercent: real,
    remainingCapacityMw: real,
    capacityUtilizationPercent: real,
    gridStabilityRisk: RiskLevel,
    infrastructureUpgradeNeeded: bool,
    recommendedActions: seq<string>)

  datatype ImpactError =
    | UnsupportedRegion(location: string)
    /** A region with no consumption or no supply capacity makes Python
        divide by zero. */
    | DivisionByZero(location: string)

  /** `analyze_datacenter_impact` on a given table, before output rounding. */
  function AnalyzeImpact(data: RegionTable, location: string, datacenterPowerMw: real)
    : (r: Result<ImpactAnalysis, ImpactError>)
    ensures Lookup(data, location).None? ==> r == Err(UnsupportedRegion(location))
    ensures Lookup(data, location).Some? ==>
      var info := Lookup(data, location).value;
      && (r.Ok? <==> info.totalConsumptionMwh != 0.0 && info.supplyCapacityMw != 0.0)
      && (r.Ok? ==>
        var a := r.value;
        && a.currentConsumptionMw * HoursPerYear == info.totalConsumptionMwh
        && a.supplyCapacityMw == info.supplyCapacityMw
        && a.currentConsumptionMw + datacenterPowerMw + a.remainingCapacityMw == info.supplyCapacityMw
        && a.loadIncreasePercent * a.currentConsumptionMw == datacenterPowerMw * 100.0
        && a.capacityUtilizationPercent * info.supplyCapacityMw
           == (a.currentConsumptionMw + datacenterPowerMw) * 100.0
        && (info.supplyCapacityMw > 0.0 ==>
              (a.remainingCapacityMw >= 0.0 <==> a.capacityUtilizationPercent <= 100.0))
        && a.gridStabilityRisk == RiskLevelOf(a.capacityUtilizationPercent)
        && (a.infrastructureUpgradeNeeded <==> a.capacityUtilizationPercent > 85.0)
        && |a.recommendedActions| == (if a.capacityUtilizationPercent > 80.0 then 3 else 2))
  {
    match Lookup(data, location)
    case None => Err(UnsupportedRegion(location))
    case Some(info) =>
      var current := info.totalConsumptionMwh / HoursPerYear;
      var supply := info.supplyCapacityMw;
      if current == 0.0 || supply == 0.0 then Err(DivisionByZero(location))
      else
        var loadIncrease := datacenterPowerMw / current * 100.0;
        var remaining := supply - current - datacenterPowerMw;
        var utilization := (current + datacenterPowerMw) / supply * 100.0;
        assert supply > 0.0 ==> (remaining >= 0.0 <==> utilization <= 100.0) by {
          if supply > 0.0 {
            HeadroomIffUtilization(current + datacenterPowerMw, supply);
          }
        }
        var risk := RiskLevelOf(utilization);
        Ok(ImpactAnalysis(
          location, datacenterPowerMw, current, supply, loadIncrease, remaining, utilization,
          risk, utilization > 85.0, Recommendations(utilization, risk.Label())))
  }

  /** A load fits within the supply exactly when it uses at most 100
      percent of it. */
  lemma HeadroomIffUtilization(load: real, supply: real)
    requires supply > 0.0
    ensures supply - load >= 0.0 <==> load / supply * 100.0 <= 100.0
  {
    DivAtMostOne(load, supply);
  }

  /** The infrastructure upgrade is flagged only at moderate or high risk,
      and always at high risk. */
  lemma UpgradeFollowsRisk(data: RegionTable, location: string, datacenterPowerMw: real)
    requires AnalyzeImpact(data, location, datacenterPowerMw).Ok?
    ensures var a := AnalyzeImpact(data, location, datacenterPowerMw).value;
      && (a.infrastructureUpgradeNeeded ==> a.gridStabilityRisk != Low)
      && (a.gridStabilityRisk == High ==> a.infrastructureUpgradeNeeded)
  {
  }

  /** An average load of 100 MW on a 120 MW supply plus a 15 MW data centre
      uses 95.8 percent of the supply: high risk, upgrade needed. */
  lemma ImpactExample()
    ensures var data := [("R", RegionInfo(876000.0, 0.0, 0.0, 0.0, 120.0, 0.0, 0.1))];
      var r := AnalyzeImpact(data, "R", 15.0);
      && r.Ok?
      && r.value.currentConsumptionMw == 100.0
      && r.value.remainingCapacityMw == 5.0
      && r.value.loadIncreasePercent == 15.0
      && r.value.capacityUtilizationPercent == 575.0 / 6.0
      && r.value.gridStabilityRisk == High
      && r.value.infrastructureUpgradeNeeded
  {
    var data := [("R", RegionInfo(876000.0, 0.0, 0.0, 0.0, 120.0, 0.0, 0.1))];
    assert Lookup(data, "R") == Some(data[0].1);
  }

  /** The dictionary `analyze_datacenter_impact` returns: the current load,
      the remaining capacity and the utilization rounded to one decimal and
      the load increase to two; the risk, the upgrade flag and the
      recommendations keep what the unrounded utilization gave them. */
  function Reported(a: ImpactAnalysis): (b: ImpactAnalysis)
    ensures b.location == a.location && b.datacenterPowerMw == a.datacenterPowerMw
    ensures b.supplyCapacityMw == a.supplyCapacityMw
    ensures b.gridStabilityRisk == a.gridStabilityRisk
    ensures b.infrastructureUpgradeNeeded == a.infrastructureUpgradeNeeded
    ensures b.recommendedActions == a.recommendedActions
    ensures b.currentConsumptionMw == Round(a.currentConsumptionMw, OneDecimal)
    ensures b.loadIncreasePercent == Round(a.loadIncreasePercent, TwoDecimals)
    ensures b.remainingCapacityMw == Round(a.remainingCapacityMw, OneDecimal)
    ensures b.capacityUtilizationPercent == Round(a.capacityUtilizationPercent, OneDecimal)
  {
    a.(currentConsumptionMw := Round(a.currentConsumptionMw, OneDecimal),
       loadIncreasePercent := Round(a.loadIncreasePercent, TwoDecimals),
       remainingCapacityMw := Round(a.remainingCapacityMw, OneDecimal),
       capacityUtilizationPercent := Round(a.capacityUtilizationPercent, OneDecimal))
  }

  /** `analyze_datacenter_impact` as its callers see it: the same error as
      the analysis, or the analysis with its figures rounded. The risk and
      the upgrade flag follow the unrounded utilization, so they can
      disagree with the rounded figure at a boundary. */
  function ImpactReport(data: RegionTable, location: string, datacenterPowerMw: real)
    : (r: Result<ImpactAnalysis, ImpactError>)
    ensures AnalyzeImpact(data, location, datacenterPowerMw).Err? ==>
      r == Err(AnalyzeImpact(data, location, datacenterPowerMw).error)
    ensures var a := AnalyzeImpact(data, location, datacenterPowerMw);
      a.Ok? ==> (
        && r.Ok?
        && r == Ok(Reported(a.value))
        && r.value.gridStabilityRisk == RiskLevelOf(a.value.capacityUtilizationPercent)
        && a.value.remainingCapacityMw - 0.05 <= r.value.remainingCapacityMw
        && r.value.remainingCapacityMw <= a.value.remainingCapacityMw + 0.05)
  {
    match AnalyzeImpact(data, location, datacenterPowerMw)
    case Err(e) => Err(e)
    case Ok(a) => Ok(Reported(a))
  }

  // ---------------------------------------------------------------------
  // Lookup tables and normalised scores
  // ---------------------------------------------------------------------

  /** The seventeen regions the lookup tables know. */
  function KnownRegions(): set<string> {
    {"서울", "경기", "인천", "충남", "충북", "전남", "전북", "경북", "경남",
     "부산", "대구", "광주", "대전", "울산", "강원", "제주", "세종"}
  }

  /** `_get_regional_power_cost`, USD per kWh; 0.11 for an unknown region. */
  function PowerCost(region: string): (c: real)
    ensures 0.08 <= c <= 0.15
    ensures region !in KnownRegions() ==> c == 0.11
  {
    if region == "서울" then 0.13
    else if region == "경기" then 0.12
    else if region == "인천" then 0.12
    else if region == "충남" then 0.10
    else if region == "충북" then 0.11
    else if region == "전남" then 0.09
    else if region == "전북" then 0.10
    else if region == "경북" then 0.08
    else if region == "경남" then 0.09
    else if region == "부산" then 0.11
    else if region == "대구" then 0.11
    else if region == "광주" then 0.10
    else if region == "대전" then 0.11
    else if region == "울산" then 0.09
    else if region == "강원" then 0.12
    else if region == "제주" then 0.15
    else if region == "세종" then 0.11
    else 0.11
  }

  /** `_get_cooling_efficiency`, a PUE; 1.30 for an unknown region. */
  function CoolingEfficiency(region: string): (p: real)
    ensures 1.15 <= p <= 1.40
    ensures region !in KnownRegions() ==> p == 1.30
  {
    if region == "강원" then 1.15
    else if region == "경북" then 1.20
    else if region == "충북" then 1.25
    else if region == "전북" then 1.25
    else if region == "충남" then 1.25
    else if region == "경기" then 1.30
    else if region == "전남" then 1.30
    else if region == "경남" then 1.30
    else if region == "서울" then 1.35
    else if region == "인천" then 1.30
    else if region == "대전" then 1.30
    else if region == "대구" then 1.35
    else if region == "부산" then 1.40
    else if region == "울산" then 1.35
    else if region == "광주" then 1.35
    else if region == "제주" then 1.20
    else if region == "세종" then 1.30
    else 1.30
  }

  /** `_get_accessibility_score`; 50 for an unknown region. */
  function AccessibilityScore(region: string): (a: real)
    ensures 10.0 <= a <= 80.0
    ensures region !in KnownRegions() ==> a == 50.0
  {
    if region == "서울" then 10.0
    else if region == "경기" then 15.0
    else if region == "인천" then 20.0
    else if region == "대전" then 25.0
    else if region == "대구" then 30.0
    else if region == "부산" then 25.0
    else if region == "광주" then 35.0
    else if region == "울산" then 30.0
    else if region == "충남" then 40.0
    else if region == "충북" then 45.0
    else if region == "전남" then 50.0
    else if region == "전북" then 45.0
    else if region == "경북" then 40.0
    else if region == "경남" then 35.0
    else if region == "강원" then 60.0
    else if region == "제주" then 80.0
    else if region == "세종" then 30.0
    else 50.0
  }

  /** Linear rescaling of [lo, hi] onto [0, 100]. */
  function Normalize(x: real, lo: real, hi: real): (s: real)
    requires lo < hi
    ensures lo <= x <= hi ==> 0.0 <= s <= 100.0
    ensures x == lo ==> s == 0.0
    ensures x == hi ==> s == 100.0
  {
    DivAtMostOne(x - lo, hi - lo);
    DivNonneg(x - lo, hi - lo);
    (x - lo) / (hi - lo) * 100.0
  }

  /** Rescaling preserves order. */
  lemma NormalizeMonotone(x: real, y: real, lo: real, hi: real)
    requires lo < hi && x <= y
    ensures Normalize(x, lo, hi) <= Normalize(y, lo, hi)
  {
    DivMono(x - lo, y - lo, hi - lo);
  }

  /** `_get_regional_power_cost_score`: 0.08 USD maps to 0 and 0.15 to 100. */
  function PowerCostScore(region: string): (s: real)
    ensures 0.0 <= s <= 100.0
    ensures PowerCost(region) == 0.08 ==> s == 0.0
    ensures PowerCost(region) == 0.15 ==> s == 100.0
  {
    Normalize(PowerCost(region), 0.08, 0.15)
  }

  /** `_get_cooling_efficiency_score`: PUE 1.15 maps to 0 and 1.40 to 100. */
  function CoolingScore(region: string): (s: real)
    ensures 0.0 <= s <= 100.0
    ensures CoolingEfficiency(region) == 1.15 ==> s == 0.0
    ensures CoolingEfficiency(region) == 1.40 ==> s == 100.0
  {
    Normalize(CoolingEfficiency(region), 1.15, 1.40)
  }

  /** A region that is cheaper never gets a higher cost score, and one that
      cools better never gets a higher cooling score. */
  lemma ScoresFollowLookups(a: string, b: string)
    ensures PowerCost(a) <= PowerCost(b) ==> PowerCostScore(a) <= PowerCostScore(b)
    ensures CoolingEfficiency(a) <= CoolingEfficiency(b) ==> CoolingScore(a) <= CoolingScore(b)
  {
    if PowerCost(a) <= PowerCost(b) {
      NormalizeMonotone(PowerCost(a), PowerCost(b), 0.08, 0.15);
    }
    if CoolingEfficiency(a) <= CoolingEfficiency(b) {
      NormalizeMonotone(CoolingEfficiency(a), CoolingEfficiency(b), 1.15, 1.40);
    }
  }

  // ---------------------------------------------------------------------
  // Candidate search
  // ---------------------------------------------------------------------

  /** Points for supply headroom (lower is better): 20 with more than twice
      the required power left, 40 with more than the required power left,
      80 otherwise. */
  function HeadroomPoints(remainingMw: real, requiredMw: real): (p: real)
    ensures p == 20.0 || p == 40.0 || p == 80.0
    ensures p == 20.0 <==> remainingMw > requiredMw * 2.0
    ensures p == 80.0 <==> remainingMw <= requiredMw * 2.0 && remainingMw <= requiredMw
  {
    if remainingMw > requiredMw * 2.0 then 20.0
    else if remainingMw > requiredMw then 40.0
    else 80.0
  }

  /** The site score of a region (lower is better): headroom points plus
      30 percent of the cost score, 20 percent of the cooling score and 10
      percent of the accessibility score. */
  function CandidateScore(region: string, remainingMw: real, requiredMw: real): (s: real)
    ensures 21.0 <= s <= 138.0
  {
    HeadroomPoints(remainingMw, requiredMw)
      + PowerCostScore(region) * 0.3
      + CoolingScore(region) * 0.2
      + AccessibilityScore(region) * 0.1
  }

  /** More remaining capacity never makes a region's score worse, before
      or after rounding it to one decimal. */
  lemma CandidateScoreMonotone(region: string, r1: real, r2: real, requiredMw: real)
    requires r1 <= r2
    ensures CandidateScore(region, r2, requiredMw) <= CandidateScore(region, r1, requiredMw)
    ensures Round(CandidateScore(region, r2, requiredMw), OneDecimal)
         <= Round(CandidateScore(region, r1, requiredMw), OneDecimal)
  {
    RoundMono(CandidateScore(region, r2, requiredMw), CandidateScore(region, r1, requiredMw), OneDecimal);
  }

  datatype Candidate = Candidate(
    region: string,
    score: real,
    powerCostKwh: real,
    coolingEfficiency: real,
    gridStability: RiskLevel,
    remainingCapacityMw: real,
    infrastructureUpgradeNeeded: bool,
    capacityUtilizationPercent: real)

  function ScoreOf(c: Candidate): real {
    c.score
  }

  /** The candidate entry for a region and its reported (rounded) impact
      analysis: the headroom points compare the rounded remaining capacity,
      the score is rounded to one decimal, and the analysis' risk, rounded
      figures and upgrade flag are copied over. */
  function MakeCandidate(region: string, a: ImpactAnalysis, requiredMw: real): (c: Candidate)
    ensures c.region == region
    ensures c.score == Round(CandidateScore(region, a.remainingCapacityMw, requiredMw), OneDecimal)
    ensures 21.0 <= c.score <= 138.0
    ensures c.powerCostKwh == PowerCost(region) && c.coolingEfficiency == CoolingEfficiency(region)
    ensures c.gridStability == a.gridStabilityRisk
    ensures c.remainingCapacityMw == a.remainingCapacityMw
    ensures c.infrastructureUpgradeNeeded == a.infrastructureUpgradeNeeded
    ensures c.capacityUtilizationPercent == a.capacityUtilizationPercent
  {
    var exact := CandidateScore(region, a.remainingCapacityMw, requiredMw);
    RoundMono(21.0, exact, OneDecimal);
    RoundExact(210, OneDecimal);
    RoundMono(exact, 138.0, OneDecimal);
    RoundExact(1380, OneDecimal);
    Candidate(region, Round(exact, OneDecimal),
              PowerCost(region), CoolingEfficiency(region), a.gridStabilityRisk,
              a.remainingCapacityMw, a.infrastructureUpgradeNeeded, a.capacityUtilizationPercent)
  }

  /** For 1035 MW in 경기 the exact remaining capacity, about 2070.02 MW, is
      more than twice the requirement, but the reported 2070.0 is not: the
      search, which reads the reported figure, gives 40 headroom points and
      a score of 70.6, where the exact figure would have given 20. */
  lemma RoundedHeadroomExample()
    ensures var data := SimulatedRegionalData(2023);
      var exact := AnalyzeImpact(data, "경기", 1035.0);
      var report := ImpactReport(data, "경기", 1035.0);
      && exact.Ok? && report.Ok?
      && exact.value.remainingCapacityMw > 2070.0
      && HeadroomPoints(exact.value.remainingCapacityMw, 1035.0) == 20.0
      && report.value.remainingCapacityMw == 2070.0
      && HeadroomPoints(report.value.remainingCapacityMw, 1035.0) == 40.0
      && MakeCandidate("경기", report.value, 1035.0).score == 70.6
  {
    var data := SimulatedRegionalData(2023);
    assert Lookup(data, "경기") == Some(data[1].1);
    var exact := AnalyzeImpact(data, "경기", 1035.0).value;
    var remaining := 12500.0 - 82300000.0 / 8760.0 - 1035.0;
    assert exact.remainingCapacityMw == remaining;
    assert RoundHalfEven(remaining * 10.0) == 20700;
    var score := 40.0 + 400.0 / 7.0 * 0.3 + 60.0 * 0.2 + 15.0 * 0.1;
    assert CandidateScore("경기", 2070.0, 1035.0) == score;
    assert RoundHalfEven(score * 10.0) == 706;
  }

  /** Not the national total: a region the search visits. */
  predicate IsSearched(region: string) {
    region != NationalTotal
  }

  /** The regions among the first `n` entries of the table that the search
      visits: every key but the national total, in table order. */
  function CandidateRegions(data: RegionTable, n: nat): (rs: seq<string>)
    requires n <= |data|
    ensures forall x :: x in rs <==> x != NationalTotal && exists i :: 0 <= i < n && data[i].0 == x
  {
    var keys := seq(n, i requires 0 <= i < n => data[i].0);
    assert forall x :: x in keys <==> exists i :: 0 <= i < n && data[i].0 == x by {
      forall x | x in keys ensures exists i :: 0 <= i < n && data[i].0 == x {
        var i :| 0 <= i < n && keys[i] == x;
      }
      forall x | exists i :: 0 <= i < n && data[i].0 == x ensures x in keys {
        var i :| 0 <= i < n && data[i].0 == x;
        assert keys[i] == x;
      }
    }
    Filter(keys, IsSearched)
  }

  /** The candidates for the first `n` regions of the table, in table
      order, skipping the national total; the first failing impact analysis
      is the error. */
  function CandidatesUpTo(data: RegionTable, requiredMw: real, n: nat): (r: Result<seq<Candidate>, ImpactError>)
    requires n <= |data|
    ensures r.Ok? ==> |r.value| <= n
    ensures r.Ok? ==> forall c :: c in r.value ==> c.region != NationalTotal && HasKey(data, c.region)
  {
    if n == 0 then Ok([])
    else
      match CandidatesUpTo(data, requiredMw, n - 1)
      case Err(e) => Err(e)
      case Ok(cs) =>
        var region := data[n - 1].0;
        if region == NationalTotal then Ok(cs)
        else
          match ImpactReport(data, region, requiredMw)
          case Err(e) => Err(e)
          case Ok(a) => Ok(cs + [MakeCandidate(region, a, requiredMw)])
  }

  /** Visiting one more entry adds its key when it is not the national
      total. */
  lemma CandidateRegionsStep(data: RegionTable, n: nat)
    requires 0 < n <= |data|
    ensures CandidateRegions(data, n)
         == CandidateRegions(data, n - 1) + (if IsSearched(data[n - 1].0) then [data[n - 1].0] else [])
  {
    var keys := seq(n, i requires 0 <= i < n => data[i].0);
    var init := seq(n - 1, i requires 0 <= i < n - 1 => data[i].0);
    assert keys == init + [data[n - 1].0];
  }

  /** What the search over the visited regions `rs` yields: one candidate
      per region, in order, each from that region's reported analysis, or
      the error of the first region whose analysis fails. */
  ghost predicate SearchOutcome(data: RegionTable, requiredMw: real, rs: seq<string>,
                                r: Result<seq<Candidate>, ImpactError>)
  {
    && (r.Ok? <==> forall k :: 0 <= k < |rs| ==> ImpactReport(data, rs[k], requiredMw).Ok?)
    && (r.Ok? ==> |r.value| == |rs| && forall k :: 0 <= k < |rs| ==>
          r.value[k] == MakeCandidate(rs[k], ImpactReport(data, rs[k], requiredMw).value, requiredMw))
    && (r.Err? ==> exists k :: FirstFailure(data, requiredMw, rs, k) && ImpactReport(data, rs[k], requiredMw) == Err(r.error))
  }

  /** `rs[k]` is the first of the regions whose analysis fails. */
  ghost predicate FirstFailure(data: RegionTable, requiredMw: real, rs: seq<string>, k: int) {
    && 0 <= k < |rs|
    && ImpactReport(data, rs[k], requiredMw).Err?
    && forall j :: 0 <= j < k ==> ImpactReport(data, rs[j], requiredMw).Ok?
  }

  /** The search yields one candidate per visited region, in table order,
      each from that region's reported analysis; it fails exactly when some
      visited region's analysis fails, with the error of the first such
      region. */
  lemma {:induction false} CandidatesUpToSpec(data: RegionTable, requiredMw: real, n: nat)
    requires n <= |data|
    ensures SearchOutcome(data, requiredMw, CandidateRegions(data, n), CandidatesUpTo(data, requiredMw, n))
  {
    if n > 0 {
      CandidatesUpToSpec(data, requiredMw, n - 1);
      CandidateRegionsStep(data, n);
      var region := data[n - 1].0;
      var prev := CandidatesUpTo(data, requiredMw, n - 1);
      var before := CandidateRegions(data, n - 1);
      if prev.Err? {
        assert CandidatesUpTo(data, requiredMw, n) == prev;
        var k :| FirstFailure(data, requiredMw, before, k) && ImpactReport(data, before[k], requiredMw) == Err(prev.error);
        SearchErrExtends(data, requiredMw, before, CandidateRegions(data, n), k, prev.error);
      } else if IsSearched(region) {
        assert CandidateRegions(data, n) == before + [region];
        SearchOkExtends(data, requiredMw, before, region, prev.value);
      } else {
        assert CandidateRegions(data, n) == before;
        assert CandidatesUpTo(data, requiredMw, n) == prev;
      }
    }
  }

  /** A failure among the visited regions stays the first failure when more
      regions are visited after it. */
  lemma SearchErrExtends(data: RegionTable, requiredMw: real, before: seq<string>, rs: seq<string>, k: int,
                         e: ImpactError)
    requires before <= rs && FirstFailure(data, requiredMw, before, k)
    requires ImpactReport(data, before[k], requiredMw) == Err(e)
    ensures FirstFailure(data, requiredMw, rs, k) && rs[k] == before[k]
    ensures SearchOutcome(data, requiredMw, rs, Err(e))
  {
    assert forall j :: 0 <= j <= k ==> rs[j] == before[j];
    assert ImpactReport(data, rs[k], requiredMw).Err?;
  }

  /** Visiting one more region extends a successful outcome by its
      candidate, or fails with its error. */
  lemma SearchOkExtends(data: RegionTable, requiredMw: real, before: seq<string>, region: string,
                        cs: seq<Candidate>)
    requires SearchOutcome(data, requiredMw, before, Ok(cs))
    ensures var r := match ImpactReport(data, region, requiredMw)
                     case Err(e) => Err(e)
                     case Ok(a) => Ok(cs + [MakeCandidate(region, a, requiredMw)]);
      SearchOutcome(data, requiredMw, before + [region], r)
  {
    var rs := before + [region];
    assert forall j :: 0 <= j < |before| ==> rs[j] == before[j];
    if ImpactReport(data, region, requiredMw).Err? {
      assert FirstFailure(data, requiredMw, rs, |before|);
    }
  }

  /** Scanning entry `i` after the candidates `cs` of the entries before
      it: the national total is skipped, and any other region either fails
      with its report's error or appends its candidate. */
  lemma CandidatesUpToNext(data: RegionTable, requiredMw: real, i: nat, cs: seq<Candidate>)
    requires i < |data| && CandidatesUpTo(data, requiredMw, i) == Ok(cs)
    ensures data[i].0 == NationalTotal ==> CandidatesUpTo(data, requiredMw, i + 1) == Ok(cs)
    ensures var a := ImpactReport(data, data[i].0, requiredMw);
      data[i].0 != NationalTotal && a.Err? ==> CandidatesUpTo(data, requiredMw, i + 1) == Err(a.error)
    ensures var a := ImpactReport(data, data[i].0, requiredMw);
      data[i].0 != NationalTotal && a.Ok? ==>
        CandidatesUpTo(data, requiredMw, i + 1) == Ok(cs + [MakeCandidate(data[i].0, a.value, requiredMw)])
  {
  }

  /** Once a prefix fails, every longer prefix fails with the same error. */
  lemma {:induction false} CandidatesErrPersists(data: RegionTable, requiredMw: real, n: nat, m: nat)
    requires n <= m <= |data|
    requires CandidatesUpTo(data, requiredMw, n).Err?
    ensures CandidatesUpTo(data, requiredMw, m) == CandidatesUpTo(data, requiredMw, n)
    decreases m - n
  {
    if n < m {
      CandidatesErrPersists(data, requiredMw, n, m - 1);
    }
  }

  /** On a table whose regions all have consumption and supply, no impact
      analysis fails, and without a national-total row every region becomes
      a candidate. */
  lemma {:induction false} CandidatesComplete(data: RegionTable, requiredMw: real, n: nat)
    requires n <= |data| && DistinctKeys(data)
    requires forall i :: 0 <= i < |data| ==>
      data[i].1.totalConsumptionMwh != 0.0 && data[i].1.supplyCapacityMw != 0.0
    ensures CandidatesUpTo(data, requiredMw, n).Ok?
    ensures (forall i :: 0 <= i < n ==> data[i].0 != NationalTotal) ==>
      |CandidatesUpTo(data, requiredMw, n).value| == n
  {
    if n > 0 {
      CandidatesComplete(data, requiredMw, n - 1);
      var region := data[n - 1].0;
      if region != NationalTotal {
        LookupEntry(data, n - 1);
        assert ImpactReport(data, region, requiredMw).Ok?;
      }
    }
  }

  /** `find_optimal_datacenter_locations` on a given table: the candidates
      sorted by score, lowest first, keeping the input order among equal
      scores, then Python's `[:top_n]`. */
  function OptimalLocations(data: RegionTable, requiredMw: real, topN: int)
    : (r: Result<seq<Candidate>, ImpactError>)
    ensures CandidatesUpTo(data, requiredMw, |data|).Err? ==>
      r == Err(CandidatesUpTo(data, requiredMw, |data|).error)
    ensures var cs := CandidatesUpTo(data, requiredMw, |data|);
      cs.Ok? ==> (
        && r.Ok?
        && |r.value| == SliceLength(|cs.value|, topN)
        && Ascending(r.value, ScoreOf)
        && (forall c :: c in r.value ==> c in cs.value))
  {
    match CandidatesUpTo(data, requiredMw, |data|)
    case Err(e) => Err(e)
    case Ok(cs) =>
      TopCandidatesOrder(cs, topN);
      TopCandidatesStable(cs, topN);
      Ok(Take(SortAscending(cs, ScoreOf), topN))
  }

  /** Python's `sorted(cs, key=score)[:top_n]` keeps the order and the
      length of the slice. */
  lemma TopCandidatesOrder(cs: seq<Candidate>, topN: int)
    ensures var r := Take(SortAscending(cs, ScoreOf), topN);
      && Ascending(SortAscending(cs, ScoreOf), ScoreOf)
      && multiset(SortAscending(cs, ScoreOf)) == multiset(cs)
      && r <= SortAscending(cs, ScoreOf)
      && |r| == SliceLength(|cs|, topN)
      && Ascending(r, ScoreOf)
  {
    SortAscendingOrdered(cs, ScoreOf);
  }

  /** Every element of the slice is a candidate, and among equal scores the
      slice keeps a prefix of the candidates in their table order. */
  lemma TopCandidatesStable(cs: seq<Candidate>, topN: int)
    ensures var r := Take(SortAscending(cs, ScoreOf), topN);
      && (forall c :: c in r ==> c in cs)
      && (forall v :: WithKey(r, ScoreOf, v) <= WithKey(cs, ScoreOf, v))
  {
    var sorted := SortAscending(cs, ScoreOf);
    var r := Take(sorted, topN);
    var rest := sorted[|r|..];
    assert sorted == r + rest by { assert r == sorted[..|r|]; }
    forall c | c in r ensures c in cs {
      assert c in sorted;
      SortAscendingOrdered(cs, ScoreOf);
      assert c in multiset(sorted);
    }
    forall v ensures WithKey(r, ScoreOf, v) <= WithKey(cs, ScoreOf, v) {
      SortAscendingStable(cs, ScoreOf, v);
      WithKeyAppend(r, rest, ScoreOf, v);
    }
  }

  /** The search returns the `top_n` lowest-scoring candidates: a prefix of
      the stable ascending sort of all candidates, so it is ordered, each
      element is a candidate, its length is Python's slice length, and
      equal scores keep table order. */
  lemma OptimalLocationsSpec(data: RegionTable, requiredMw: real, topN: int)
    requires OptimalLocations(data, requiredMw, topN).Ok?
    ensures var cs := CandidatesUpTo(data, requiredMw, |data|).value;
      var r := OptimalLocations(data, requiredMw, topN).value;
      && r <= SortAscending(cs, ScoreOf)
      && |r| == SliceLength(|cs|, topN)
      && Ascending(r, ScoreOf)
      && (forall c :: c in r ==> c in cs)
      && (forall v :: WithKey(r, ScoreOf, v) <= WithKey(cs, ScoreOf, v))
  {
    var cs := CandidatesUpTo(data, requiredMw, |data|).value;
    assert OptimalLocations(data, requiredMw, topN).value == Take(SortAscending(cs, ScoreOf), topN);
    TopCandidatesOrder(cs, topN);
    TopCandidatesStable(cs, topN);
  }

  /** On the simulated data every one of the five regions is a candidate,
      so the search returns min(top_n, 5) of them for a non-negative
      `top_n`. */
  lemma OptimalLocationsOnSimulatedData(year: int, requiredMw: real, topN: nat)
    ensures OptimalLocations(SimulatedRegionalData(year), requiredMw, topN).Ok?
    ensures |OptimalLocations(SimulatedRegionalData(year), requiredMw, topN).value|
         == if topN < 5 then topN else 5
  {
    var data := SimulatedRegionalData(year);
    CandidatesComplete(data, requiredMw, |data|);
    SortAscendingOrdered(CandidatesUpTo(data, requiredMw, |data|).value, ScoreOf);
  }

  /** The candidate loop, the in-place sort and the slice of
      `find_optimal_datacenter_locations`. */
  method FindOptimalLocations(data: RegionTable, requiredMw: real, topN: int)
    returns (r: Result<seq<Candidate>, ImpactError>)
    ensures r == OptimalLocations(data, requiredMw, topN)
  {
    var candidates: seq<Candidate> := [];
    var i := 0;
    while i < |data|
      invariant 0 <= i <= |data|
      invariant CandidatesUpTo(data, requiredMw, i) == Ok(candidates)
    {
      var region := data[i].0;
      CandidatesUpToNext(data, requiredMw, i, candidates);
      if region != NationalTotal {
        var analysis := ImpactReport(data, region, requiredMw);
        if analysis.Err? {
          CandidatesErrPersists(data, requiredMw, i + 1, |data|);
          return Err(analysis.error);
        }
        candidates := candidates + [MakeCandidate(region, analysis.value, requiredMw)];
      }
      i := i + 1;
    }
    candidates := SortAscending(candidates, ScoreOf);
    return Ok(Take(candidates, topN));
  }

  // ---------------------------------------------------------------------
  // The service object and its cache
  // ---------------------------------------------------------------------

  /** One hour, in microseconds. */
  const CacheTtl: int := 3600 * 1000000

  /** The cache keys `regional_consumption_<year>` and `power_plants`. */
  datatype CacheKey = RegionalConsumption(year: int) | PowerPlants

  datatype CachedValue =
    | RegionalData(table: RegionTable)
    | PowerPlantData(plants: seq<(string, seq<PowerPlant>)>)

  /** What the data source yields for each key. */
  function Fetch(key: CacheKey): (v: CachedValue)
    ensures key.RegionalConsumption? <==> v.RegionalData?
    ensures v.RegionalData? ==> |v.table| == 5 && DistinctKeys(v.table)
    ensures v.PowerPlantData? ==> DistinctKeys(v.plants)
    ensures v.RegionalData? ==> v.table == SimulatedRegionalData(key.year)
    ensures v.PowerPlantData? ==> v.plants == PowerPlantTable()
  {
    match key
    case RegionalConsumption(year) => RegionalData(SimulatedRegionalData(year))
    case PowerPlants => PowerPlantData(PowerPlantTable())
  }

  class KepcoDataService {
    var cachedData: map<CacheKey, CachedValue>
    var cacheExpiry: map<CacheKey, int>

    /** Every cached value is what the source yields for its key. */
    ghost predicate Valid()
      reads this
    {
      forall k :: k in cachedData ==> cachedData[k] == Fetch(k)
    }

    /** A fresh service has an empty cache, so no key is valid. */
    constructor ()
      ensures cachedData == map[] && cacheExpiry == map[]
      ensures Valid()
      ensures forall k, now :: !IsCacheValid(k, now)
    {
      cachedData := map[];
      cacheExpiry := map[];
    }

    /** `_is_cache_valid`. */
    predicate IsCacheValid(key: CacheKey, now: int)
      reads this
    {
      key in cachedData && key in cacheExpiry && now < cacheExpiry[key]
    }

    /** `_cache_data`: stores the value with an expiry one hour from now;
        afterwards the key is valid exactly before that time, and the
        other keys are as they were. */
    method CacheData(key: CacheKey, data: CachedValue, now: int)
      modifies this
      ensures cachedData == old(cachedData)[key := data]
      ensures cacheExpiry == old(cacheExpiry)[key := now + CacheTtl]
      ensures forall t :: IsCacheValid(key, t) <==> t < now + CacheTtl
      ensures forall k, t :: k != key ==> (IsCacheValid(k, t) <==> old(IsCacheValid(k, t)))
    {
      cachedData := cachedData[key := data];
      cacheExpiry := cacheExpiry[key := now + CacheTtl];
    }

    /** `get_regional_power_consumption`: a valid entry is returned
        unchanged; otherwise the table is fetched and cached. Either way the
        result is the source's table and the key is valid at `now`. */
    method GetRegionalPowerConsumption(year: int, now: int) returns (data: RegionTable)
      requires Valid()
      modifies this
      ensures Valid()
      ensures data == SimulatedRegionalData(year)
      ensures IsCacheValid(RegionalConsumption(year), now)
      ensures old(IsCacheValid(RegionalConsumption(year), now)) ==>
        cachedData == old(cachedData) && cacheExpiry == old(cacheExpiry)
      ensures !old(IsCacheValid(RegionalConsumption(year), now)) ==>
        && cachedData == old(cachedData)[RegionalConsumption(year) := RegionalData(data)]
        && cacheExpiry == old(cacheExpiry)[RegionalConsumption(year) := now + CacheTtl]
    {
      var key := RegionalConsumption(year);
      if IsCacheValid(key, now) {
        return cachedData[key].table;
      }
      data := SimulatedRegionalData(year);
      CacheData(key, RegionalData(data), now);
    }

    /** `get_power_plant_data`, cached like the regional table. */
    method GetPowerPlantData(now: int) returns (data: seq<(string, seq<PowerPlant>)>)
      requires Valid()
      modifies this
      ensures Valid()
      ensures data == PowerPlantTable()
      ensures IsCacheValid(PowerPlants, now)
      ensures old(IsCacheValid(PowerPlants, now)) ==>
        cachedData == old(cachedData) && cacheExpiry == old(cacheExpiry)
      ensures !old(IsCacheValid(PowerPlants, now)) ==>
        && cachedData == old(cachedData)[PowerPlants := PowerPlantData(data)]
        && cacheExpiry == old(cacheExpiry)[PowerPlants := now + CacheTtl]
    {
      if IsCacheValid(PowerPlants, now) {
        return cachedData[PowerPlants].plants;
      }
      data := PowerPlantTable();
      CacheData(PowerPlants, PowerPlantData(data), now);
    }

    /** `analyze_datacenter_impact`: the impact on the 2023 table. */
    method AnalyzeDatacenterImpact(location: string, datacenterPowerMw: real, now: int)
      returns (r: Result<ImpactAnalysis, ImpactError>)
      requires Valid()
      modifies this
      ensures Valid()
      ensures r == ImpactReport(SimulatedRegionalData(2023), location, datacenterPowerMw)
      ensures IsCacheValid(RegionalConsumption(2023), now)
      ensures old(IsCacheValid(RegionalConsumption(2023), now)) ==>
        cachedData == old(cachedData) && cacheExpiry == old(cacheExpiry)
      ensures !old(IsCacheValid(RegionalConsumption(2023), now)) ==>
        && cachedData == old(cachedData)[RegionalConsumption(2023) := RegionalData(SimulatedRegionalData(2023))]
        && cacheExpiry == old(cacheExpiry)[RegionalConsumption(2023) := now + CacheTtl]
    {
      var data := GetRegionalPowerConsumption(2023, now);
      r := ImpactReport(data, location, datacenterPowerMw);
    }

    /** `find_optimal_datacenter_locations`: the search on the 2023 table. */
    method FindOptimalDatacenterLocations(requiredMw: real, topN: int, now: int)
      returns (r: Result<seq<Candidate>, ImpactError>)
      requires Valid()
      modifies this
      ensures Valid()
      ensures r == OptimalLocations(SimulatedRegionalData(2023), requiredMw, topN)
      ensures IsCacheValid(RegionalConsumption(2023), now)
      ensures old(IsCacheValid(RegionalConsumption(2023), now)) ==>
        cachedData == old(cachedData) && cacheExpiry == old(cacheExpiry)
      ensures !old(IsCacheValid(RegionalConsumption(2023), now)) ==>
        && cachedData == old(cachedData)[RegionalConsumption(2023) := RegionalData(SimulatedRegionalData(2023))]
        && cacheExpiry == old(cacheExpiry)[RegionalConsumption(2023) := now + CacheTtl]
    {
      var data := GetRegionalPowerConsumption(2023, now);
      r := FindOptimalLocations(data, requiredMw, topN);
    }
  }

  /** Two searches in a row give the same answer, whether or not the cache
      expired in between. */
  method SearchIsIdempotent(s: KepcoDataService, requiredMw: real, topN: int, t1: int, t2: int)
    returns (first: Result<seq<Candidate>, ImpactError>, second: Result<seq<Candidate>, ImpactError>)
    requires s.Valid()
    modifies s
    ensures first == second
  {
    first := s.FindOptimalDatacenterLocations(requiredMw, topN, t1);
    second := s.FindOptimalDatacenterLocations(requiredMw, topN, t2);
  }
}
