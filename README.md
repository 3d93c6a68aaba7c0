# AI data-centre power analyzer — a Dafny model of its scoring core

This project models the arithmetic and ranking core of the AI data-centre
power analyzer. That system estimates how much power GPU workloads draw and
where in Korea a data centre should be sited. It has six core parts:

- **GPU workload simulator** (`GpuSimulator`, `GpuModels`). It maps a GPU
  type, a workload type, a utilization, a duration and an optional custom TDP
  to power, energy, cost, carbon, an efficiency score and a temperature. It
  also holds the fixed table of ten GPU specifications.
- **KEPCO data service** (`KepcoService`). Grid-impact analysis of a new
  data centre in a region: risk level, upgrade flag and recommendations. A
  top-N search for candidate regions: a weighted score, a stable ascending
  sort and a prefix. A keyed cache with a one-hour expiry, with the clock
  passed in as a parameter.
- **KEPCO sales-data service** (`KepcoRealData`):
  - the deterministic 17 × 7 × 12 sample generator;
  - the group-by-sum summaries;
  - band-based suitability points, sorted highest first, with a
    recommendation label.
- **KEPCO Excel analyzer** (`KepcoPowerAnalyzer`), a class whose state is the
  loaded frame and the stored analysis results. It covers:
  - the "first YYYYMM row" header search;
  - cleaning to province-level records, where a date that is not a
    month raises and a missing date drops its row;
  - the usage ranking with shares;
  - the unit-price gap statistics and price bands;
  - the site ranking with infrastructure, cost and overall scores and S–D
    grades.
- **NVIDIA data collector** (`NvidiaDataCollector`):
  - the data-directory layout;
  - the fixed table of six collected GPU specifications;
  - the flattening of the nested specification and MLPerf maps into CSV rows.
- **Shared pieces**:
  - `Common`: Python dicts as insertion-ordered entry sequences, exceptions
    as `Result`, `s[:n]`, sums and means.
  - `Sorting`: Python's stable `list.sort`, and pandas' `sort_values` with NaN
    placed last.
  - `Text`: decimal digit strings.

Floats are modelled as `real`, and pandas NaN as `Option<real>.None`. Raised
exceptions (`KeyError`, `ValueError`, `ZeroDivisionError`) become `Err` values.

## Model

| member | source | states |
|---|---|---|
| GpuModels.ParseGpuType | backend/app/models/gpu_models.py:6-17 | A string is accepted exactly when it is the value of a GPU type, and it yields that type |
| GpuModels.ParseWorkloadType | backend/app/models/gpu_models.py:20-27 | A string is accepted exactly when it is the value of a workload type, and it yields that type |
| GpuModels.AllGpuTypes | backend/app/models/gpu_models.py:6-17 | There are ten distinct GPU types |
| GpuModels.AllGpuTypesCover | backend/app/models/gpu_models.py:6-17 | Every GPU type is one of those ten, so the enum is closed |
| GpuModels.AllWorkloadTypes | backend/app/models/gpu_models.py:20-27 | There are six distinct workload types |
| GpuModels.AllWorkloadTypesCover | backend/app/models/gpu_models.py:20-27 | Every workload type is one of those six |
| GpuModels.GpuTypeValueInjective | backend/app/models/gpu_models.py:6-17 | Different GPU types have different string values |
| GpuModels.ValidateWorkloadConfig | backend/app/models/gpu_models.py:39-47 | A config is accepted iff both enum strings parse, the utilization (default 85) is in [0,100] and the duration (default 1) is positive. The optional fields are kept as given |
| GpuModels.ValidateDatacenterConfig | backend/app/models/gpu_models.py:88-95 | A config is accepted iff the PUE (default 1.3) is at least 1 and the renewable ratio (default 0) is in [0,1]. Every other field is kept |
| GpuModels.WorkloadConfigDefaults | backend/app/models/gpu_models.py:43-47 | With nothing given, utilization is 85, duration is 1 and the optional fields are absent |
| GpuSimulator.Specification | backend/app/services/gpu_simulator.py:21-185 | Every specification's TDP is between 70 and 700 W. The architecture is one of five, and it is Hopper exactly for H200 and H100 |
| GpuSimulator.WorkloadEfficiency | backend/app/services/gpu_simulator.py:243-252 | The workload base coefficient is in [0.60, 0.95], and it is 0.95 exactly for LLM training |
| GpuSimulator.ArchitectureBonus | backend/app/services/gpu_simulator.py:255-263 | The bonus is in [0, 0.05], and it is 0 for any architecture other than Hopper, Ada Lovelace and Ampere |
| GpuSimulator.UtilizationFactor | backend/app/services/gpu_simulator.py:265-270 | The band factor is 1.0 exactly for 50 ≤ u ≤ 95 and 0.85 exactly for u < 50. Otherwise it is 0.90 |
| GpuSimulator.PowerEfficiency | backend/app/services/gpu_simulator.py:237-272 | The power coefficient always lies in [0.51, 1.0] |
| GpuSimulator.WorkloadScore | backend/app/services/gpu_simulator.py:285-309 | The table score is in [60, 95]. It is 70 for every (GPU, workload) pair missing from the table |
| GpuSimulator.UtilizationScore | backend/app/services/gpu_simulator.py:312-313 | The utilization score is in [50, 100], is 100 exactly at 85 %, and is at least 57.5 for u in [0,100] |
| GpuSimulator.EfficiencyScore | backend/app/services/gpu_simulator.py:274-315 | The efficiency score lies in [55, 97.5], so within the [0,100] range the result record demands |
| GpuSimulator.Temperature | backend/app/services/gpu_simulator.py:317-324 | For a positive TDP and power within it, the temperature is in [35, 80] °C. It exceeds 80 exactly when the power exceeds the TDP |
| GpuSimulator.ResolvedTdp | backend/app/services/gpu_simulator.py:196 | A custom TDP is used when it is given and non-zero. Otherwise the specification's TDP is used |
| GpuSimulator.ActualPower | backend/app/services/gpu_simulator.py:207 | For u in [0,100], the drawn power never exceeds the resolved TDP |
| GpuSimulator.PowerWithinTdp | backend/app/services/gpu_simulator.py:207 | tdp × coeff × u/100 lies in [0, tdp] whenever coeff ≤ 1 and u ≤ 100 |
| GpuSimulator.SimulateConfig | backend/app/services/gpu_simulator.py:194-235 | Hourly kW × 1000 is the actual power, and the energy, cost and carbon follow from it by duration. The efficiency score is the score of the GPU, workload and utilization, in [55, 97.5]. The temperature is estimated from the actual power (custom TDP included) against the specification's TDP |
| GpuSimulator.Simulate | backend/app/services/gpu_simulator.py:187-235 | Fails exactly when the GPU or workload string is not an enum value. Otherwise it is the simulation of the parsed config with defaults 85 % and 1 h |
| GpuSimulator.HourlyPowerIgnoresDuration | backend/app/services/gpu_simulator.py:207-208 | The hourly power does not depend on the duration |
| GpuSimulator.DurationLinearity | backend/app/services/gpu_simulator.py:209-213 | Scaling the duration by k scales energy, cost and carbon by k |
| GpuSimulator.TemperatureBounded | backend/app/services/gpu_simulator.py:221-223 | Without a custom TDP and with u ≤ 100, the estimated temperature is between 35 and 80 °C |
| GpuSimulator.TemperatureIgnoresCustomTdp | backend/app/services/gpu_simulator.py:196-223 | For every accepted request a temperature is estimated, and it exceeds 80 °C exactly when the power drawn (from the custom TDP, if any) exceeds the specification's TDP |
| GpuSimulator.CustomTdpTemperatureExample | backend/app/services/gpu_simulator.py:196-223 | A 1400 W H100 at 90 % reaches 116 °C |
| GpuSimulator.A100TrainingExample | backend/app/services/gpu_simulator.py:187-235 | A100 LLM training at 80 % for 1 h gives 0.3104 kW and 0.3104 kWh, efficiency 91.25 and 69.92 °C |
| GpuSimulator.SimulateDefaults | backend/app/services/gpu_simulator.py:189-192 | A missing utilization and duration behave as 85 % and 1 h |
| GpuSimulator.GpuSpecificationsTable | backend/app/services/gpu_simulator.py:326-342 | The specification listing has one entry per GPU type, keyed by its value, with distinct keys |
| GpuSimulator.GpuSpecificationsTableLookup | backend/app/services/gpu_simulator.py:326-342 | Looking up a GPU type's value in the listing finds that type's specification |
| KepcoService.SimulatedRegionalData | backend/app/services/kepco_service.py:202-252 | Five distinct regions, none of them the national total, each with positive consumption and supply |
| KepcoService.PowerPlantTable | backend/app/services/kepco_service.py:64-111 | Distinct regions, and every plant has a positive capacity |
| KepcoService.RiskLevelOf | backend/app/services/kepco_service.py:131-136 | Risk is high exactly above 90 %, moderate exactly in (80, 90] and low exactly at or below 80 % |
| KepcoService.RiskMonotone | backend/app/services/kepco_service.py:131-136 | A higher utilization never gives a lower risk |
| KepcoService.Recommendations | backend/app/services/kepco_service.py:302-324 | Three recommendations above 80 % utilization, otherwise two |
| KepcoService.RecommendationsFollowRisk | backend/app/services/kepco_service.py:302-324 | There are three recommendations exactly when the risk is not low |
| KepcoService.AnalyzeImpact | backend/app/services/kepco_service.py:113-149 | An unknown region fails. Otherwise: current load is annual MWh / 8760; current + new + remaining = supply; utilization is (current + new)/supply × 100; risk and upgrade follow the thresholds; remaining ≥ 0 iff utilization ≤ 100 |
| KepcoService.HeadroomIffUtilization | backend/app/services/kepco_service.py:126-129 | For a positive supply, headroom is non-negative exactly when utilization is at most 100 % |
| KepcoService.UpgradeFollowsRisk | backend/app/services/kepco_service.py:132-147 | An upgrade is never needed at low risk, and it is always needed at high risk |
| KepcoService.ImpactExample | backend/app/services/kepco_service.py:123-147 | 876 000 MWh a year with 120 MW supply and 15 MW new load gives 100 MW current, 5 MW left, 95.8 % utilization, high risk and an upgrade |
| Common.RoundHalfEven | backend/app/services/kepco_service.py:141-146 | The integer nearest to a real, within one half of it; an exact tie goes to the even neighbour, as Python 3's `round` does |
| Common.RoundHalfEvenMono | backend/app/services/kepco_service.py:141-146 | Rounding to an integer never reverses the order of two values |
| Common.Round | backend/app/services/kepco_service.py:141-146 | `round(x, n)` for n = 0, 1, 2: the result times 10ⁿ is the half-to-even integer nearest to x × 10ⁿ, so it lies within half a unit of the last kept decimal of x |
| Common.RoundMono | backend/app/services/kepco_service.py:167-172 | Rounding to a fixed number of decimals never reverses the order of two values |
| Common.RoundOption | scripts/data_collection/kepco_power_analyzer.py:111-115 | `.round(2)` of a column cell: NaN stays NaN and a value is rounded |
| Common.RoundPercent | scripts/data_collection/kepco_power_analyzer.py:174-181 | Rounding a figure in [0, 100] keeps it in [0, 100], and keeps 0 and 100 exact |
| KepcoService.Reported | backend/app/services/kepco_service.py:138-149 | The returned dictionary: current load, remaining capacity and utilization are the exact figures rounded to one decimal, and the load increase rounded to two; location, power, supply, risk, upgrade flag and recommendations are unchanged, so risk and flag follow the unrounded utilization |
| KepcoService.ImpactReport | backend/app/services/kepco_service.py:113-149 | Fails with the analysis' error; otherwise it is the rounded dictionary of the analysis, with the risk level of the exact utilization and a remaining capacity within 0.05 MW of the exact one |
| KepcoService.PowerCost | backend/app/services/kepco_service.py:254-264 | Power cost is in [0.08, 0.15] and defaults to 0.11 for unknown regions |
| KepcoService.CoolingEfficiency | backend/app/services/kepco_service.py:272-282 | The PUE is in [1.15, 1.40] and defaults to 1.30 for unknown regions |
| KepcoService.AccessibilityScore | backend/app/services/kepco_service.py:290-300 | Accessibility is in [10, 80] and defaults to 50 for unknown regions |
| KepcoService.Normalize | backend/app/services/kepco_service.py:266-270 | Maps [lo, hi] into [0, 100], sending lo to 0 and hi to 100 |
| KepcoService.NormalizeMonotone | backend/app/services/kepco_service.py:266-270 | Normalisation preserves order |
| KepcoService.PowerCostScore | backend/app/services/kepco_service.py:266-270 | The cost score is in [0,100], with 0.08 → 0 and 0.15 → 100 |
| KepcoService.CoolingScore | backend/app/services/kepco_service.py:284-288 | The cooling score is in [0,100], with PUE 1.15 → 0 and 1.40 → 100 |
| KepcoService.ScoresFollowLookups | backend/app/services/kepco_service.py:266-288 | A dearer region or a worse PUE never gets a lower score |
| KepcoService.HeadroomPoints | backend/app/services/kepco_service.py:167-172 | 20 points when remaining > 2 × required, 80 when remaining ≤ required, otherwise 40 |
| KepcoService.CandidateScore | backend/app/services/kepco_service.py:164-184 | A candidate's score always lies in [21, 138] |
| KepcoService.CandidateScoreMonotone | backend/app/services/kepco_service.py:167-188 | More remaining capacity never raises a region's score, before or after the score is rounded to one decimal, so lower is better |
| KepcoService.MakeCandidate | backend/app/services/kepco_service.py:164-195 | The score is the one-decimal rounding of the weighted score of the reported (already rounded) remaining capacity, and lies in [21, 138]; cost and cooling come from the lookup tables; risk, remaining capacity, upgrade flag and utilization are the report's |
| KepcoService.RoundedHeadroomExample | backend/app/services/kepco_service.py:144-188 | For 1035 MW in 경기 the exact remaining capacity exceeds 2070 MW (20 headroom points) but the reported 2070.0 does not, so the candidate gets 40 points and a score of 70.6 |
| KepcoService.CandidatesUpTo | backend/app/services/kepco_service.py:155-195 | The candidates are regions of the data other than the national total, at most one per scanned region |
| KepcoService.CandidateRegions | backend/app/services/kepco_service.py:157-159 | The visited regions are exactly the keys of the scanned entries other than 총계, in table order |
| KepcoService.CandidateRegionsStep | backend/app/services/kepco_service.py:157-159 | Scanning one more entry appends its key unless it is 총계 |
| KepcoService.CandidatesUpToSpec | backend/app/services/kepco_service.py:155-195 | The search succeeds iff every visited region's report succeeds; it then holds one candidate per visited region, in order, built from that region's report; otherwise it fails with the error of the first failing region |
| KepcoService.CandidatesUpToNext | backend/app/services/kepco_service.py:157-163 | Scanning one more entry skips the national total, fails with a region's report error, or appends that region's candidate |
| KepcoService.CandidatesErrPersists | backend/app/services/kepco_service.py:155-163 | Once a region's analysis fails, the whole search fails with that error |
| KepcoService.CandidatesComplete | backend/app/services/kepco_service.py:155-195 | With non-zero figures the search succeeds, and with no national-total row it yields one candidate per region |
| KepcoService.TopCandidatesOrder | backend/app/services/kepco_service.py:198-200 | The sorted candidates are a permutation in ascending score order. The result is their prefix of length min(top_n, count) |
| KepcoService.TopCandidatesStable | backend/app/services/kepco_service.py:198-200 | Every result is a candidate, and candidates with equal scores keep their scan order |
| KepcoService.OptimalLocations | backend/app/services/kepco_service.py:151-200 | Fails with the search's error; otherwise the result has Python's slice length, is in ascending score order and holds only candidates |
| KepcoService.OptimalLocationsSpec | backend/app/services/kepco_service.py:151-200 | The result is the first min(top_n, count) candidates in stable ascending score order |
| KepcoService.OptimalLocationsOnSimulatedData | backend/app/services/kepco_service.py:151-252 | On the simulated data the search succeeds with min(top_n, 5) regions |
| KepcoService.FindOptimalLocations | backend/app/services/kepco_service.py:151-200 | The candidate loop with its in-place sort computes exactly the specified search |
| KepcoService.KepcoDataService.constructor | backend/app/services/kepco_service.py:38-39 | The cache starts empty, so no key is valid |
| KepcoService.Fetch | backend/app/services/kepco_service.py:41-111 | A regional key yields the simulated table of its year (five regions, distinct keys) and the plant key the plant table, whose kinds are distinct |
| KepcoService.KepcoDataService.IsCacheValid | backend/app/services/kepco_service.py:326-334 | A key is valid when it holds a value and its expiry is later than now |
| KepcoService.KepcoDataService.CacheData | backend/app/services/kepco_service.py:336-340 | Stores the data and expiry at now + 1 h. The key is then valid exactly before the expiry, and no other key changes |
| KepcoService.KepcoDataService.GetRegionalPowerConsumption | backend/app/services/kepco_service.py:41-62 | Returns the regional data and leaves its key valid. A valid hit leaves the cache unchanged; a miss stores the data |
| KepcoService.KepcoDataService.GetPowerPlantData | backend/app/services/kepco_service.py:64-111 | Returns the plant table and leaves its key valid. A valid hit leaves the cache unchanged; a miss stores the table |
| KepcoService.KepcoDataService.AnalyzeDatacenterImpact | backend/app/services/kepco_service.py:113-149 | Gives the rounded impact report of the 2023 regional data, whatever the cache holds. Afterwards the 2023 key is valid; a valid entry is left as it was, and a missing or stale one is refilled with the 2023 table expiring in one hour, no other key changing |
| KepcoService.KepcoDataService.FindOptimalDatacenterLocations | backend/app/services/kepco_service.py:151-200 | Gives the top-N search over the 2023 regional data, whatever the cache holds, and leaves the cache exactly as a 2023 regional lookup at the same time would |
| KepcoService.SearchIsIdempotent | backend/app/services/kepco_service.py:41-62 | Two searches with the same arguments at any two times give the same result |
| KepcoRealData.Regions | backend/app/services/kepco_real_data.py:54-57 | There are 17 regions |
| KepcoRealData.ContractTypes | backend/app/services/kepco_real_data.py:59 | There are 7 contract types |
| KepcoRealData.RegionRatio | backend/app/services/kepco_real_data.py:66-84 | Every region's share is in [0.008, 0.158] |
| KepcoRealData.ContractRatio | backend/app/services/kepco_real_data.py:87-95 | Every contract type's share is in [0.001, 0.55] |
| KepcoRealData.MonthlyRatios | backend/app/services/kepco_real_data.py:124-138 | Always twelve monthly ratios, each at least 0.075 |
| KepcoRealData.MonthlyRatioSums | backend/app/services/kepco_real_data.py:124-138 | The monthly ratios sum to 1.065 (residential), 0.995 (industrial), 1.035 (commercial) and 0.996 otherwise |
| KepcoRealData.YearOnYear | backend/app/services/kepco_real_data.py:118 | The year-on-year change is 100/49 for every non-zero sales value |
| KepcoRealData.YearOnYearRounded | backend/app/services/kepco_real_data.py:118 | The change rounded to one decimal is 2.0 for every non-zero sales value |
| KepcoRealData.ContractTotal | backend/app/services/kepco_real_data.py:98-104 | Each region-and-contract total is at least 4160 MWh |
| KepcoRealData.MonthlySales | backend/app/services/kepco_real_data.py:107-110 | There are twelve monthly values |
| KepcoRealData.MonthlySalesSum | backend/app/services/kepco_real_data.py:107-110 | The monthly values add up to total × the sum of the ratios, e.g. total × 0.995 for industrial use |
| KepcoRealData.MonthSales | backend/app/services/kepco_real_data.py:100-110 | Every generated monthly value is at least 312 MWh |
| KepcoRealData.SampleRow | backend/app/services/kepco_real_data.py:112-120 | A row carries its region, contract type and YYYY-MM month, total × region ratio × contract ratio × monthly ratio rounded to two decimals (so at least 312 MWh), and a change of 2.0 % |
| KepcoRealData.MonthText | backend/app/services/kepco_real_data.py:61 | No contract of its own: the year, a dash and the month as two digits. SampleRow states that each sample row carries it |
| KepcoRealData.SampleData | backend/app/services/kepco_real_data.py:54-122 | The sample holds 17 × 7 × 12 = 1428 rows |
| KepcoRealData.GenerateSampleData | backend/app/services/kepco_real_data.py:100-122 | The triple loop produces exactly the sample rows |
| KepcoRealData.SampleDataAt | backend/app/services/kepco_real_data.py:100-120 | Row r·84 + c·12 + m is region r, contract c, month m, in nested loop order |
| KepcoRealData.SampleSalesPositive | backend/app/services/kepco_real_data.py:100-120 | Every sample row has sales of at least 312 MWh |
| KepcoRealData.GroupKeys | backend/app/services/kepco_real_data.py:146-159 | The group keys are distinct and are exactly the keys that occur |
| KepcoRealData.GroupSumAtLeast | backend/app/services/kepco_real_data.py:146-159 | With every sale at least some positive amount, every group sum is non-negative and a present group sums to at least that amount |
| KepcoRealData.GroupTotals | backend/app/services/kepco_real_data.py:146-159 | One entry per occurring key, holding the sum of that key's rows |
| KepcoRealData.RoundTotals | backend/app/services/kepco_real_data.py:146-159 | `.round(2)` of a summary: the same keys in the same order, each total rounded to two decimals |
| KepcoRealData.TopTotals | backend/app/services/kepco_real_data.py:162-167 | The top n totals are min(n, count) totals in descending order, drawn from the totals with no entry repeated more often than there, and no left-out total exceeds one kept |
| KepcoRealData.SortedPrefixIsTop | backend/app/services/kepco_real_data.py:162-167 | A prefix of the descending sort of the totals holds the largest ones, each as often as at most in the totals |
| KepcoRealData.Summarize | backend/app/services/kepco_real_data.py:140-167 | Regional, contract and monthly summaries are group sums rounded to two decimals. The top regions are the 5 largest rounded regional totals and the industrial regions the 10 largest unrounded industrial totals, each a sub-multiset of its totals in descending order with nothing left out larger than anything kept |
| KepcoRealData.IndustrialRegionsHaveTotals | backend/app/services/kepco_real_data.py:146-167 | When every sale is at least 0.01 MWh, every industrial region has a rounded regional total of at least 0.01 |
| KepcoRealData.RoundedTotalAtLeast | backend/app/services/kepco_real_data.py:146-153 | A region present in rows of sales of at least 0.01 MWh has a rounded regional total of at least 0.01 |
| KepcoRealData.RatioPoints | backend/app/services/kepco_real_data.py:208-213 | 40/30/20/0 points exactly for ratio > 70, (50,70], (30,50] and ≤ 30 |
| KepcoRealData.TwhPoints | backend/app/services/kepco_real_data.py:216-222 | 30/20/10/0 points exactly for TWh > 40, (20,40], (10,20] and ≤ 10 |
| KepcoRealData.RegionBonus | backend/app/services/kepco_real_data.py:225-239 | The bonus is in [5, 30], 30 for 충남 and 5 for regions without one |
| KepcoRealData.RecommendationOf | backend/app/services/kepco_real_data.py:255-264 | The four labels hold exactly for ≥ 80, [60,80), [40,60) and < 40 |
| KepcoRealData.RecommendationLabelsDistinct | backend/app/services/kepco_real_data.py:255-264 | The four recommendation labels are distinct |
| KepcoRealData.SuitabilityOf | backend/app/services/kepco_real_data.py:199-248 | The reported industrial and total power are rounded to whole MWh and the ratio industrial / total × 100 to one decimal. The score is the sum of the three parts taken on the unrounded figures, lies in [5, 100] and gets its threshold recommendation |
| KepcoRealData.SuitabilityRows | backend/app/services/kepco_real_data.py:196-248 | One entry per industrial region when every region has a non-zero total. Otherwise it fails at a region without one |
| KepcoRealData.SuitabilityRowsStep | backend/app/services/kepco_real_data.py:196-248 | One more region appends its entry, or fails on a missing or zero total |
| KepcoRealData.SuitabilityRowsErrPrefix | backend/app/services/kepco_real_data.py:196-248 | A failure at one region is the failure of the whole call |
| KepcoRealData.GetDatacenterSuitableRegions | backend/app/services/kepco_real_data.py:190-253 | The loop and the in-place sort compute the specified ranking |
| KepcoRealData.SuitabilityRowsBounded | backend/app/services/kepco_real_data.py:205-248 | Every entry's score is in [5, 100] with the matching recommendation |
| KepcoRealData.SuitableRegionsSorted | backend/app/services/kepco_real_data.py:251 | The result is a permutation of the entries, sorted by score highest first, with equal scores in list order |
| KepcoRealData.SuitableRegions | backend/app/services/kepco_real_data.py:190-253 | No contract of its own: the suitability rows sorted by score, highest first. SuitableRegionsSorted and SuitableRegionsScores state order, permutation and scores |
| KepcoRealData.SortedScoresBounded | backend/app/services/kepco_real_data.py:251 | Sorting keeps every score in [5, 100] with its recommendation |
| KepcoRealData.SuitableRegionsScores | backend/app/services/kepco_real_data.py:205-251 | Every ranked region has a score in [5, 100] and its threshold recommendation |
| KepcoRealData.SuitableRegionsSucceed | backend/app/services/kepco_real_data.py:140-253 | On a summary of rows whose every sale is at least 0.01 MWh, the ranking never fails |
| KepcoRealData.SuitabilityRowsOk | backend/app/services/kepco_real_data.py:196-248 | When every region has a positive total, the entries are built |
| KepcoPowerAnalyzer.LeadingSpaces | scripts/data_collection/kepco_power_analyzer.py:91-92 | Counts exactly the white space at the start |
| KepcoPowerAnalyzer.TrailingStart | scripts/data_collection/kepco_power_analyzer.py:91-92 | Finds exactly where the white space at the end begins |
| KepcoPowerAnalyzer.Strip | scripts/data_collection/kepco_power_analyzer.py:91-92 | The result is a slice with only white space (every character `str.isspace()` accepts) cut off either end, and it neither starts nor ends with white space |
| KepcoPowerAnalyzer.StripIdempotent | scripts/data_collection/kepco_power_analyzer.py:91-92 | Stripping twice is stripping once |
| KepcoPowerAnalyzer.RemoveSeparators | scripts/data_collection/kepco_power_analyzer.py:87 | The result holds exactly the characters of the cell other than commas and spaces |
| KepcoPowerAnalyzer.DotIndex | scripts/data_collection/kepco_power_analyzer.py:88 | Finds the first decimal point, or the end when there is none |
| KepcoPowerAnalyzer.ParseUnsigned | scripts/data_collection/kepco_power_analyzer.py:88 | An unsigned number parses to a non-negative value, starts with a digit or a point and holds at least one digit |
| KepcoPowerAnalyzer.ParseUnsignedTrailingPoint | scripts/data_collection/kepco_power_analyzer.py:88 | Digits followed by a point ("5.") read as the whole number |
| KepcoPowerAnalyzer.ParseUnsignedLeadingPoint | scripts/data_collection/kepco_power_analyzer.py:88 | A point followed by digits (".5") reads as the fraction they denote |
| KepcoPowerAnalyzer.ParseUnsignedPointAlone | scripts/data_collection/kepco_power_analyzer.py:88 | A point alone is NaN |
| KepcoPowerAnalyzer.ParseDecimal | scripts/data_collection/kepco_power_analyzer.py:88 | A negative value comes only from a leading minus sign |
| KepcoPowerAnalyzer.ParseUnsignedDigits | scripts/data_collection/kepco_power_analyzer.py:88 | A string of digits parses to the number it denotes |
| KepcoPowerAnalyzer.NumericCell | scripts/data_collection/kepco_power_analyzer.py:84-88 | No contract of its own: commas and spaces removed, then the decimal read (a point may have digits on one side only) or NaN. NumericCellNat, NumericCellIgnoresSeparators and the point lemmas state what it reads |
| KepcoPowerAnalyzer.RemoveSeparatorsKeeps | scripts/data_collection/kepco_power_analyzer.py:87 | Removing separators leaves plain digits and minus signs alone |
| KepcoPowerAnalyzer.NumericCellNat | scripts/data_collection/kepco_power_analyzer.py:84-88 | Every whole number, with or without a minus sign, reads back as itself |
| KepcoPowerAnalyzer.NumericCellIgnoresSeparators | scripts/data_collection/kepco_power_analyzer.py:84-88 | A comma or space anywhere in a cell does not change its value |
| KepcoPowerAnalyzer.ParseYearMonth | scripts/data_collection/kepco_power_analyzer.py:81 | A date parses only from five or six digits (a one- or two-digit month), to a month 1–12 within the timestamp range, and never from a spelling of a missing value |
| KepcoPowerAnalyzer.OneDigitMonthParses | scripts/data_collection/kepco_power_analyzer.py:81 | A month 1–9 written with one digit (YYYYM) parses to that month |
| KepcoPowerAnalyzer.YearMonthExamples | scripts/data_collection/kepco_power_analyzer.py:81 | "20231" is January 2023 and "202312" December 2023 |
| KepcoPowerAnalyzer.BadYearMonthExamples | scripts/data_collection/kepco_power_analyzer.py:81 | A month 0 or 13, or a seven-digit text, raises |
| KepcoPowerAnalyzer.YearMonthRoundTrip | scripts/data_collection/kepco_power_analyzer.py:81 | Every representable month written as YYYYMM parses back to itself |
| KepcoPowerAnalyzer.IsoDateText | scripts/data_collection/kepco_power_analyzer.py:81 | A cleaned date written back as text (YYYY-MM-01) is neither a YYYYMM month nor missing, so converting it raises |
| KepcoPowerAnalyzer.DataStart | scripts/data_collection/kepco_power_analyzer.py:40-44 | The start is the first row whose first cell is six digits. If there is none, no row is |
| KepcoPowerAnalyzer.FindDataStartRow | scripts/data_collection/kepco_power_analyzer.py:40-44 | The row scan finds exactly that start |
| KepcoPowerAnalyzer.HeaderIndex | scripts/data_collection/kepco_power_analyzer.py:48-49 | The header is the row just before the data. Data at row 0 takes the last row, as index −1 does |
| KepcoPowerAnalyzer.ExtractSheet | scripts/data_collection/kepco_power_analyzer.py:40-57 | A sheet yields a frame iff it has a start row. Its data opens with that row and holds exactly the all-digit-date rows from it on |
| KepcoPowerAnalyzer.Frames | scripts/data_collection/kepco_power_analyzer.py:32-59 | The collected frames are at most one per sheet, and each holds data rows |
| KepcoPowerAnalyzer.FramesNonEmpty | scripts/data_collection/kepco_power_analyzer.py:32-66 | Some frame is collected exactly when some sheet has a start row |
| KepcoPowerAnalyzer.FramesStep | scripts/data_collection/kepco_power_analyzer.py:59 | Each sheet appends its frame, if it has one, at the end |
| KepcoPowerAnalyzer.PowerAnalyzer.CollectFrames | scripts/data_collection/kepco_power_analyzer.py:30-59 | The loop over the sheets collects exactly those frames, in sheet order |
| KepcoPowerAnalyzer.ColumnUnion | scripts/data_collection/kepco_power_analyzer.py:66 | The columns of a concatenation of differing headers hold each label of every header exactly once |
| KepcoPowerAnalyzer.ColumnUnionStartsWithFirst | scripts/data_collection/kepco_power_analyzer.py:66 | Those columns open with the first frame's header when it repeats no label |
| KepcoPowerAnalyzer.ColumnUnionOfReorderings | scripts/data_collection/kepco_power_analyzer.py:66 | When every header only reorders the first, the columns are the first header |
| KepcoPowerAnalyzer.AlignByLabel | scripts/data_collection/kepco_power_analyzer.py:66 | Concatenation moves each cell under its own label, and puts NaN under labels the frame lacks |
| KepcoPowerAnalyzer.AlignedRows | scripts/data_collection/kepco_power_analyzer.py:66 | Realigned frames keep every data row, each as wide as the column union |
| KepcoPowerAnalyzer.Concat | scripts/data_collection/kepco_power_analyzer.py:66 | Equal headers stack the rows as they are; differing headers realign each frame by label onto the union, and raise exactly when a header repeats a label |
| KepcoPowerAnalyzer.MismatchedHeadersFail | scripts/data_collection/kepco_power_analyzer.py:66-78 | Eight-label headers of which one has a label the first lacks concatenate, and then cleaning raises on the column count |
| KepcoPowerAnalyzer.CleanRecord | scripts/data_collection/kepco_power_analyzer.py:78-92 | A row raises iff its date is neither a month nor missing, with that text as the error. A missing date gives no record. Otherwise the record holds that year and month, the stripped names, the contract type, and households, usage, charge and unit price parsed, with NaN where they do not parse |
| KepcoPowerAnalyzer.FirstBadDate | scripts/data_collection/kepco_power_analyzer.py:81 | Finds the first row whose date raises |
| KepcoPowerAnalyzer.CleanRecords | scripts/data_collection/kepco_power_analyzer.py:78-100 | Succeeds iff no date raises, with the records of exactly the rows that have a date, in order. Otherwise it fails with a bad row's error |
| KepcoPowerAnalyzer.CleanFrame | scripts/data_collection/kepco_power_analyzer.py:70-102 | Succeeds iff every row has eight cells and no date raises. Its records are then exactly the province-level ones among the rows with a date, in order; rows with a missing date leave nothing |
| KepcoPowerAnalyzer.MissingDateRowDropped | scripts/data_collection/kepco_power_analyzer.py:81-100 | Appending a row whose date is missing does not change the cleaning result |
| KepcoPowerAnalyzer.MissingDateRecordsUnchanged | scripts/data_collection/kepco_power_analyzer.py:81 | Appending a missing-date row gives the same conversion error or the same records |
| KepcoPowerAnalyzer.CleanedRecordsFromRows | scripts/data_collection/kepco_power_analyzer.py:78-100 | Every cleaned record comes from some dated row, and every dated row's record is present |
| KepcoPowerAnalyzer.Provinces | scripts/data_collection/kepco_power_analyzer.py:111-115 | The provinces are distinct and are exactly those of the records |
| KepcoPowerAnalyzer.GroupColumn | scripts/data_collection/kepco_power_analyzer.py:111-115 | Every grouped value is that column of some record of the province |
| KepcoPowerAnalyzer.GroupMeans | scripts/data_collection/kepco_power_analyzer.py:111-115 | One row per province, holding the means of usage, unit price and charge, each rounded to two decimals |
| KepcoPowerAnalyzer.Share | scripts/data_collection/kepco_power_analyzer.py:121-122 | A share exists exactly when the usage is present and the total is non-zero |
| KepcoPowerAnalyzer.RegionalUsageOrder | scripts/data_collection/kepco_power_analyzer.py:104-127 | One row per province, ranks exactly 1..N, usages descending, NaN last |
| KepcoPowerAnalyzer.RegionalUsage | scripts/data_collection/kepco_power_analyzer.py:104-127 | No contract of its own: group means sorted by usage, NaN last, with shares and ranks. RegionalUsageOrder, RegionalUsageMeans and SharesSumTo100 state its order, contents and shares |
| KepcoPowerAnalyzer.RegionalUsageMeans | scripts/data_collection/kepco_power_analyzer.py:111-115 | Each ranking row holds a province and its mean usage, unit price and charge rounded to two decimals |
| KepcoPowerAnalyzer.SomeSharesArePercentages | scripts/data_collection/kepco_power_analyzer.py:121-122 | The present shares are the percentages of the present usages |
| KepcoPowerAnalyzer.SharesSumTo100 | scripts/data_collection/kepco_power_analyzer.py:104-127 | When the total usage is non-zero, the shares add up to 100 |
| KepcoPowerAnalyzer.RankedSharesSum | scripts/data_collection/kepco_power_analyzer.py:121-125 | The shares of any ranked means add up to 100 when their total is non-zero |
| KepcoPowerAnalyzer.ArgMaxFirst | scripts/data_collection/kepco_power_analyzer.py:142-143 | Finds the first position of the largest present value, or nothing when all values are NaN |
| KepcoPowerAnalyzer.ArgMinFirst | scripts/data_collection/kepco_power_analyzer.py:144-145 | Finds the first position of the smallest present value, or nothing when all values are NaN |
| KepcoPowerAnalyzer.GapPercent | scripts/data_collection/kepco_power_analyzer.py:150 | gap% × min = gap × 100, and it is NaN when the minimum is zero |
| KepcoPowerAnalyzer.StatsAt | scripts/data_collection/kepco_power_analyzer.py:142-150 | The dearest and cheapest rows give max and min. The mean is between them and the gap is max − min ≥ 0 |
| KepcoPowerAnalyzer.CostGap | scripts/data_collection/kepco_power_analyzer.py:134-150 | Fails exactly when no province has a price |
| KepcoPowerAnalyzer.CostGapSpec | scripts/data_collection/kepco_power_analyzer.py:142-150 | The max and min regions carry the extreme prices, and every price lies between them. The mean is between them, the gap is max − min ≥ 0 and the gap % is gap/min × 100 |
| KepcoPowerAnalyzer.PriceBand | scripts/data_collection/kepco_power_analyzer.py:153 | One of five equal-width bins between min and max, with the minimum in the first and the maximum in the last |
| KepcoPowerAnalyzer.PriceBandMonotone | scripts/data_collection/kepco_power_analyzer.py:153 | A dearer price never falls in a cheaper band |
| KepcoPowerAnalyzer.PriceBandLabelsName | scripts/data_collection/kepco_power_analyzer.py:153 | Every band has one of the five labels, and two prices get the same label exactly when they fall in the same band |
| KepcoPowerAnalyzer.GradeOf | scripts/data_collection/kepco_power_analyzer.py:188-195 | S/A/B/C/D exactly for ≥ 80, [70,80), [60,70), [50,60) and below 50 or NaN. The grades are exhaustive and disjoint |
| KepcoPowerAnalyzer.GradeLabelsDistinct | scripts/data_collection/kepco_power_analyzer.py:188-193 | The five grade labels are distinct |
| KepcoPowerAnalyzer.GradeMonotone | scripts/data_collection/kepco_power_analyzer.py:188-195 | A higher score never gets a worse grade |
| KepcoPowerAnalyzer.GradeExamples | scripts/data_collection/kepco_power_analyzer.py:188-195 | 90 → S, 75 → A, 50 → C, 49.99 → D, NaN → D |
| KepcoPowerAnalyzer.InfraScore | scripts/data_collection/kepco_power_analyzer.py:174 | Defined iff both are present and max ≠ 0, as usage / max × 100 rounded to two decimals. In [0,100] for 0 ≤ usage ≤ max, and 100 at the maximum |
| KepcoPowerAnalyzer.CostScore | scripts/data_collection/kepco_power_analyzer.py:177-178 | Defined iff both are present and max ≠ 0, as (max − price) / max × 100 rounded to two decimals. In [0,100] for 0 ≤ price ≤ max, and 0 at the maximum |
| KepcoPowerAnalyzer.OverallScore | scripts/data_collection/kepco_power_analyzer.py:181 | Present iff both parts are, as 0.4 × infra + 0.6 × cost rounded to two decimals, and in [0,100] when both parts are |
| KepcoPowerAnalyzer.OverallMonotone | scripts/data_collection/kepco_power_analyzer.py:181 | The overall score rises with each component |
| KepcoPowerAnalyzer.ShareScoreBounds | scripts/data_collection/kepco_power_analyzer.py:174-178 | A share x / m × 100 rounded to two decimals is in [0,100] for 0 ≤ x ≤ m, 100 at x = m and 0 at x = 0 |
| KepcoPowerAnalyzer.RoundedGradeExample | scripts/data_collection/kepco_power_analyzer.py:174-195 | Usage at the maximum and a price of 33.34 against 100 give scores 100 and 66.66, overall 80.0 and grade S; the unrounded 79.996 would be an A |
| KepcoPowerAnalyzer.MaxOf | scripts/data_collection/kepco_power_analyzer.py:174-177 | The maximum is a present value at least every other one. It is NaN only when all values are NaN |
| KepcoPowerAnalyzer.OptimalSitesOrder | scripts/data_collection/kepco_power_analyzer.py:165-197 | The site ranking is a permutation of the scored provinces, ranked 1..N, with overall scores descending and NaN last |
| KepcoPowerAnalyzer.OptimalSites | scripts/data_collection/kepco_power_analyzer.py:165-197 | No contract of its own: the scored provinces sorted by overall score, NaN last, ranked and graded. OptimalSitesOrder, OptimalSitesGrades and ScoresBounded state its order, grades and score bounds |
| KepcoPowerAnalyzer.UnrankedOptimalSites | scripts/data_collection/kepco_power_analyzer.py:184-185 | Apart from the rank, the site ranking is the NaN-last descending sort of the scored sites |
| KepcoPowerAnalyzer.OptimalSitesGrades | scripts/data_collection/kepco_power_analyzer.py:188-195 | Every ranked site carries the grade of its overall score |
| KepcoPowerAnalyzer.ScoresBounded | scripts/data_collection/kepco_power_analyzer.py:174-181 | With non-negative usages (one positive) and positive prices: all scores are in [0,100], some province scores infra 100 and some scores cost 0 |
| KepcoPowerAnalyzer.SiteScoresBounded | scripts/data_collection/kepco_power_analyzer.py:174-181 | Values within their maxima give infra, cost and overall scores in [0,100] |
| KepcoPowerAnalyzer.PowerAnalyzer.constructor | scripts/data_collection/kepco_power_analyzer.py:21-25 | Nothing is loaded and there are no analysis results |
| KepcoPowerAnalyzer.PowerAnalyzer.LoadExcelFiles | scripts/data_collection/kepco_power_analyzer.py:27-68 | With no frames nothing changes. When concatenation raises, the error is returned and nothing changes. Otherwise the concatenated rows are loaded and cleaned, or left raw when cleaning raises. The results are untouched |
| KepcoPowerAnalyzer.PowerAnalyzer.CleanData | scripts/data_collection/kepco_power_analyzer.py:70-102 | Raw rows become cleaned records, or stay when a date raises. Cleaning already-cleaned records raises on their rewritten dates |
| KepcoPowerAnalyzer.PowerAnalyzer.AnalyzeRegionalPowerUsage | scripts/data_collection/kepco_power_analyzer.py:104-132 | On cleaned records it stores and returns the usage ranking. Otherwise it fails and stores nothing |
| KepcoPowerAnalyzer.PowerAnalyzer.Ranking | scripts/data_collection/kepco_power_analyzer.py:136-137 | Reuses the stored ranking, or computes and stores it |
| KepcoPowerAnalyzer.PowerAnalyzer.AnalyzePowerCostGap | scripts/data_collection/kepco_power_analyzer.py:134-163 | Gives the price statistics of the ranking, and stores them with the price bands when there are prices |
| KepcoPowerAnalyzer.PowerAnalyzer.StoreCostGap | scripts/data_collection/kepco_power_analyzer.py:142-156 | Stores the statistics and bands of a ranking exactly when they exist |
| KepcoPowerAnalyzer.PowerAnalyzer.FindOptimalDatacenterLocations | scripts/data_collection/kepco_power_analyzer.py:165-202 | Stores and returns the site ranking of the usage ranking |
| NvidiaDataCollector.NewCollector | scripts/data_collection/nvidia_data_collector.py:26-28 | Raw files go under data_dir/raw/nvidia and processed ones under data_dir/processed/nvidia |
| NvidiaDataCollector.Join | scripts/data_collection/nvidia_data_collector.py:27-28 | No contract of its own: POSIX `os.path.join` of two parts. JoinParts states its shape |
| NvidiaDataCollector.JoinParts | scripts/data_collection/nvidia_data_collector.py:27-28 | The joined path ends with the second part; it is that part alone when it is absolute, and otherwise starts with the first part with at most one separator added |
| NvidiaDataCollector.CollectorDirsDistinct | scripts/data_collection/nvidia_data_collector.py:27-28 | The two directories differ and both lie under the data directory |
| NvidiaDataCollector.SpecRowFlattens | scripts/data_collection/nvidia_data_collector.py:327-345 | A collected specification flattens to a row with its model name, its TDP and every ai_ figure |
| NvidiaDataCollector.SpecRowsFlatten | scripts/data_collection/nvidia_data_collector.py:326-345 | Collected specifications flatten into one row per model, in order |
| NvidiaDataCollector.CollectedSpecsShape | scripts/data_collection/nvidia_data_collector.py:47-222 | Six distinct models, each with an AI performance map with distinct keys |
| NvidiaDataCollector.CollectGpuSpecifications | scripts/data_collection/nvidia_data_collector.py:41-222 | No contract of its own: the fixed table of collected specifications, as rows. CollectedSpecsShape and CollectedSpecsFlatten state its shape |
| NvidiaDataCollector.SpecRow | scripts/data_collection/nvidia_data_collector.py:47-222 | No contract of its own: one collected specification as a row in the collector's key order. SpecRowFlattens states what the CSV row built from it holds |
| NvidiaDataCollector.CollectedSpecsFlatten | scripts/data_collection/nvidia_data_collector.py:47-345 | The collected table flattens into six rows, H200 to L4, each with its model name and TDP |
| NvidiaDataCollector.Columns | scripts/data_collection/nvidia_data_collector.py:328-339 | Copies each field into its column, in order. It fails with KeyError at the first missing field |
| NvidiaDataCollector.WithPrefixedKeeps | scripts/data_collection/nvidia_data_collector.py:342-343 | Columns that no prefixed key hits keep their value |
| NvidiaDataCollector.WithPrefixedLookup | scripts/data_collection/nvidia_data_collector.py:342-343 | Each entry k appears as prefix + k with its value |
| NvidiaDataCollector.WithPrefixed | scripts/data_collection/nvidia_data_collector.py:342-343 | No contract of its own: `row[prefix + k] = v` for each entry, in order. WithPrefixedKeeps and WithPrefixedLookup state what it keeps and writes |
| NvidiaDataCollector.CopyOthersKeeps | scripts/data_collection/nvidia_data_collector.py:370-372 | Reserved or absent keys keep their row value |
| NvidiaDataCollector.CopyOthersLookup | scripts/data_collection/nvidia_data_collector.py:370-372 | Every non-reserved result key is copied unchanged |
| NvidiaDataCollector.CopyOthers | scripts/data_collection/nvidia_data_collector.py:370-372 | No contract of its own: `row[k] = v` for each non-reserved entry, in order. CopyOthersKeeps and CopyOthersLookup state what it keeps and copies |
| NvidiaDataCollector.GpuSpecRowOk | scripts/data_collection/nvidia_data_collector.py:328-343 | A model's row exists iff every specification field is present and its AI performance is a map |
| NvidiaDataCollector.GpuSpecRowParts | scripts/data_collection/nvidia_data_collector.py:328-343 | The row is the base columns followed by the ai_ columns |
| NvidiaDataCollector.GpuSpecRowColumns | scripts/data_collection/nvidia_data_collector.py:328-343 | The row holds the model name and every specification field, and no ai_ column overwrites them |
| NvidiaDataCollector.GpuSpecRowAi | scripts/data_collection/nvidia_data_collector.py:342-343 | Each AI performance entry k appears as column ai_k with the same value |
| NvidiaDataCollector.GpuSpecRow | scripts/data_collection/nvidia_data_collector.py:328-343 | No contract of its own: the row of one model. GpuSpecRowOk, GpuSpecRowParts, GpuSpecRowColumns and GpuSpecRowAi state when it exists and what it holds |
| NvidiaDataCollector.GpuSpecRows | scripts/data_collection/nvidia_data_collector.py:326-345 | No contract of its own: the rows of all models in order, or the first error. SaveGpuSpecsRows is proved to compute it |
| NvidiaDataCollector.BuildGpuSpecRow | scripts/data_collection/nvidia_data_collector.py:328-343 | The loop body builds exactly that model's row |
| NvidiaDataCollector.SaveGpuSpecsRows | scripts/data_collection/nvidia_data_collector.py:326-345 | One row per model, in input order, or the first model's error |
| NvidiaDataCollector.WorkloadLeaves | scripts/data_collection/nvidia_data_collector.py:358 | One leaf per GPU result of a workload |
| NvidiaDataCollector.Leaves | scripts/data_collection/nvidia_data_collector.py:356-358 | No contract of its own: the (suite, workload, GPU) leaves of the nested map in iteration order. LeavesSplit and WorkloadLeaves state how it splits |
| NvidiaDataCollector.MlperfRowOk | scripts/data_collection/nvidia_data_collector.py:359-367 | A benchmark row exists iff the four required result fields are present |
| NvidiaDataCollector.MlperfRowReserved | scripts/data_collection/nvidia_data_collector.py:359-372 | Power, config, date and submitter come from the result unchanged |
| NvidiaDataCollector.MlperfRowOthers | scripts/data_collection/nvidia_data_collector.py:370-372 | Every other result key is copied into the row unchanged |
| NvidiaDataCollector.MlperfRowIds | scripts/data_collection/nvidia_data_collector.py:359-362 | The row carries its suite, workload and GPU, unless a result key of the same name overwrites it |
| NvidiaDataCollector.MlperfRow | scripts/data_collection/nvidia_data_collector.py:359-372 | No contract of its own: the row of one result. MlperfRowOk, MlperfRowReserved, MlperfRowOthers and MlperfRowIds state when it exists and what it holds |
| NvidiaDataCollector.BuildMlperfRow | scripts/data_collection/nvidia_data_collector.py:359-372 | The loop body builds exactly that leaf's row |
| NvidiaDataCollector.AppendWorkloadRows | scripts/data_collection/nvidia_data_collector.py:358-374 | The innermost loop appends one row per GPU of a workload |
| NvidiaDataCollector.AppendSuiteRows | scripts/data_collection/nvidia_data_collector.py:357-374 | The middle loop appends the rows of every workload of a suite |
| NvidiaDataCollector.SaveMlperfRows | scripts/data_collection/nvidia_data_collector.py:355-374 | One row per (suite, workload, GPU) leaf, in nesting order, or the first failing leaf's error |
| NvidiaDataCollector.MlperfRows | scripts/data_collection/nvidia_data_collector.py:355-374 | No contract of its own: one row per leaf, in nesting order, or the first failing leaf's error. SaveMlperfRows is proved to compute it |
| Sorting.SortAscendingOrdered | backend/app/services/kepco_service.py:198 | The stable sort yields an ascending permutation of its input |
| Sorting.SortAscendingStable | backend/app/services/kepco_service.py:198 | Elements with equal keys keep their input order |
| Sorting.SortDescendingOrdered | backend/app/services/kepco_real_data.py:251 | The reverse sort yields a descending permutation, keeping input order among equal keys |
| Sorting.SortDescendingNanLastSpec | scripts/data_collection/kepco_power_analyzer.py:184 | sort_values(ascending=False) gives a permutation with present keys descending and NaN keys last |

## Left out

- Python `round()` in the simulator's result (backend/app/services/gpu_simulator.py:228-234) is not modelled: it only formats the returned figures, which no later step of the model reads. Every other rounding is modelled with `Common.Round` (half to even, on exact reals): the impact report and the candidate scores of the KEPCO data service, the sample rows, summaries and suitability fields of the sales-data service, and the means and site scores of the Excel analyzer.
- KepcoPowerAnalyzer.Share: the usage share (scripts/data_collection/kepco_power_analyzer.py:122) is not rounded to two decimals. No later step reads it, and SharesSumTo100 is a statement about the exact shares, which the rounded ones would break.
- Text.IsDigits: accepts the ASCII digits only. Python's `str.isdigit()` also accepts other Unicode digits (full-width, superscript and so on), so a YYYYMM cell written with them is not recognised by `KepcoPowerAnalyzer.StartsData`, `IsDataRow` or `ParseYearMonth`; Excel exports of KEPCO data use ASCII digits.
- Floating point is not modelled. IEEE-754 rounding and overflow are replaced by exact reals, and infinities by NaN.
- KepcoPowerAnalyzer.OptimalSitesOrder: promises only order and permutation, not the tie order. pandas `sort_values` is not stable by default, so equal scores may come in any order. The model fixes one order, a stable one.
- KepcoPowerAnalyzer.RegionalUsageOrder: likewise promises no tie order.
- KepcoPowerAnalyzer.GroupMeans: lists provinces in order of first appearance. pandas `groupby` sorts its keys, but the order is undone by the sort that follows.
- KepcoRealData.GroupTotals: lists keys in order of first appearance. pandas `groupby` sorts them. The regional summary is only looked up by key, so its order does not matter.
- KepcoRealData.MonthOf: keys the monthly summary by the month's two-digit text "01" to "12", where `.dt.month` (backend/app/services/kepco_real_data.py:156-157) gives the integers 1 to 12. The keys correspond one to one and the totals per month are the same; the summary is not promised to hold integer keys.
- KepcoRealData.Summarize: the top-5 and industrial lists use the same non-stable sort. Their tie order is not promised.
- KepcoPowerAnalyzer.PriceBand: models `pd.cut(bins=5)` as five closed-right equal-width bins. pandas' 0.1 % widening of the lowest edge is not modelled.
- KepcoRealData.Summarize: leaves out the data overview and the insights (`idxmax`, shares) of `process_kepco_data`. It also leaves out reading the CSV file.
- KepcoPowerAnalyzer.NumericCell: models `pd.to_numeric` on decimal strings with an optional sign only, where a point may have digits on either side or both. Exponents, "inf", non-string cells and Unicode digits and spaces are not modelled.
- I/O is not modelled: Excel, CSV and JSON reading and writing, `os.makedirs`, the glob over files, matplotlib charts and `print` reports.
- `datetime.now()` is not modelled. It becomes an explicit `now` parameter, in microseconds, for the cache.
- The `requests`/API-key path and the exception fallback of `KEPCODataService` are not modelled. The fetch is the fixed table it falls back to.
- KepcoPowerAnalyzer.Concat: header labels are text, so NaN labels (an empty header cell) are not modelled. With equal headers the rows are stacked without padding a short row to the header width. A province cell that is NaN is the text "nan" in the model and forms its own group, where pandas `groupby` drops NaN keys.
- The exception handler around each Excel file in `load_excel_files` is not modelled. A file that fails to read is one that yields no sheet.
- `perf_per_watt` (backend/app/services/gpu_simulator.py:282) is never used, and is not modelled.
- The simulator's MLPerf benchmark table and `get_mlperf_data` are not modelled; they are constant data.
- `collect_mlperf_benchmarks` is not modelled; it is constant data. The flattening is proved for any nested map.
- NvidiaDataCollector.CollectGpuSpecifications: keeps only the fields the CSV table reads, plus `ai_performance`. Process node, clocks, caches, interfaces, use cases and the other descriptive fields are left out.
- `PowerProfile`, `MLPerfBenchmark` and `DatacenterSimulationResult` in backend/app/models/gpu_models.py are declared as plain data types (`GpuModels.PowerProfile`, `GpuModels.MlPerfBenchmark`, `GpuModels.DatacenterSimulationResult`) with no validation; no core operation builds or reads them, so nothing is proved about them.
- `DatacenterConfig.gpu_distribution` is kept as given. Its values are not validated, as in the source.
- The HTTP endpoints (`gpu_simulation.py`, `power_analysis.py`, `optimization.py`, `integrated_analysis.py`) are not modelled. Nor are the application wiring (`main.py`, `api.py`, `core/config.py`) and the package re-exports.
