/** KEPCO's yearly electricity sales as sample data, their aggregation and
    the data-centre suitability of the regions
    (backend/app/services/kepco_real_data.py). The sample generator runs
    three nested loops over regions, contract types and months; the
    aggregation sums the generated sales by region, contract type and month;
    the suitability analysis awards points for industrial share, total
    consumption and region, and sorts the regions by them. */
module KepcoRealData {
  import opened Common
  import opened Sorting
  import opened Text

  // ---------------------------------------------------------------------
  // The sample generator's tables.
  // ---------------------------------------------------------------------

  /** The 17 regions in generation order. */
  function Regions(): (r: seq<string>)
    ensures |r| == 17
  {
    ["서울", "부산", "대구", "인천", "광주", "대전", "울산", "세종",
     "경기", "강원", "충북", "충남", "전북", "전남", "경북", "경남", "제주"]
  }

  /** The 7 contract types in generation order. */
  function ContractTypes(): (r: seq<string>)
    ensures |r| == 7
  {
    ["가정용", "일반용", "교육용", "산업용", "농사용", "가로등", "임시등"]
  }

  const Industrial := "산업용"
  const Residential := "가정용"
  const Commercial := "일반용"

  /** National sales in MWh (520 TWh). */
  const TotalSalesMwh: real := 520000000.0

  /** Each region's share of national sales. */
  function RegionRatio(region: string): (r: real)
    requires region in Regions()
    ensures 0.008 <= r <= 0.158
  {
    if region == "경기" then 0.158
    else if region == "서울" then 0.093
    else if region == "충남" then 0.087
    else if region == "전남" then 0.082
    else if region == "경북" then 0.075
    else if region == "경남" then 0.071
    else if region == "부산" then 0.052
    else if region == "인천" then 0.048
    else if region == "강원" then 0.045
    else if region == "충북" then 0.042
    else if region == "전북" then 0.039
    else if region == "대구" then 0.036
    else if region == "대전" then 0.028
    else if region == "광주" then 0.025
    else if region == "울산" then 0.065
    else if region == "제주" then 0.012
    else 0.008
  }

  /** Each contract type's share of a region's sales. */
  function ContractRatio(contract: string): (r: real)
    requires contract in ContractTypes()
    ensures 0.001 <= r <= 0.55
  {
    if contract == "산업용" then 0.55
    else if contract == "일반용" then 0.25
    else if contract == "가정용" then 0.18
    else if contract == "가로등" then 0.015
    else if contract == "교육용" then 0.003
    else if contract == "농사용" then 0.002
    else 0.001
  }

  /** `_get_monthly_ratios`: the seasonal pattern of a contract type,
      January to December; always twelve positive shares. */
  function MonthlyRatios(contract: string): (r: seq<real>)
    ensures |r| == 12
    ensures forall m :: 0 <= m < 12 ==> r[m] >= 0.075
  {
    if contract == Residential then
      [0.095, 0.085, 0.080, 0.075, 0.075, 0.085, 0.105, 0.110, 0.095, 0.080, 0.085, 0.095]
    else if contract == Industrial then
      [0.085, 0.080, 0.085, 0.080, 0.085, 0.080, 0.085, 0.085, 0.080, 0.085, 0.080, 0.085]
    else if contract == Commercial then
      [0.080, 0.075, 0.080, 0.080, 0.085, 0.090, 0.105, 0.100, 0.095, 0.085, 0.080, 0.080]
    else
      seq(12, _ => 0.083)
  }

  /** The twelve shares of a pattern do not add up to one: residential
      1.065, industrial 0.995, commercial 1.035 and the flat pattern 0.996,
      so a year of generated sales differs from the contract total by that
      factor. */
  lemma MonthlyRatioSums(contract: string)
    ensures contract == Residential ==> Sum(MonthlyRatios(contract)) == 1.065
    ensures contract == Industrial ==> Sum(MonthlyRatios(contract)) == 0.995
    ensures contract == Commercial ==> Sum(MonthlyRatios(contract)) == 1.035
    ensures contract != Residential && contract != Industrial && contract != Commercial ==>
      Sum(MonthlyRatios(contract)) == 0.996
  {
    SumTwelve(MonthlyRatios(contract));
  }

  // ---------------------------------------------------------------------
  // The generated rows.
  // ---------------------------------------------------------------------

  datatype SalesRow = SalesRow(
    year: int,
    month: string,
    region: string,
    contractType: string,
    salesMwh: real,
    yoyChangePercent: real,
    referenceDate: string)

  /** `f"{year}-{i:02d}"`. */
  function MonthText(year: int, month: nat): string
    requires 1 <= month <= 12
  {
    IntText(year) + "-" + PaddedDigits(month, 2)
  }

  /** `(s / (s * 0.98) - 1) * 100`: whatever the sales, 100/49 (about
      2.04). */
  function YearOnYear(sales: real): (r: real)
    requires sales != 0.0
    ensures r == 100.0 / 49.0
  {
    var q := sales / (sales * 0.98);
    assert q == 1.0 / 0.98 by {
      assert (sales * 0.98) * q == sales;
    }
    (q - 1.0) * 100.0
  }

  /** The sales of a region and a contract type over the year. */
  function ContractTotal(r: nat, c: nat): (t: real)
    requires r < 17 && c < 7
    ensures t >= 4160.0
  {
    var regionTotal := TotalSalesMwh * RegionRatio(Regions()[r]);
    MulMono(TotalSalesMwh, 0.008, RegionRatio(Regions()[r]));
    MulMono(regionTotal, 0.001, ContractRatio(ContractTypes()[c]));
    MulMono(0.001, 4160000.0, regionTotal);
    regionTotal * ContractRatio(ContractTypes()[c])
  }

  /** The sales of a contract type month by month: its yearly total times
      each month's share. */
  function MonthlySales(total: real, contract: string): (s: seq<real>)
    ensures |s| == 12
  {
    Scaled(MonthlyRatios(contract), total)
  }

  /** The sales of month `m` (counted from 0) of region `r` and contract
      type `c`. */
  function MonthSales(r: nat, c: nat, m: nat): (s: real)
    requires r < 17 && c < 7 && m < 12
    ensures s >= 312.0
  {
    var contract := ContractTypes()[c];
    var total := ContractTotal(r, c);
    ScaledAtLeast(MonthlyRatios(contract), total, m);
    MonthlySales(total, contract)[m]
  }

  /** A monthly ratio of at least 0.075 of a total of at least 4160 MWh is
      at least 312 MWh. */
  lemma ScaledAtLeast(ratios: seq<real>, total: real, m: nat)
    requires m < |ratios| && ratios[m] >= 0.075 && total >= 4160.0
    ensures Scaled(ratios, total)[m] >= 312.0
  {
    MulMono(total, 0.075, ratios[m]);
    MulMono(0.075, 4160.0, total);
  }

  /** A step of the generation loops: region `r`, contract type `c` and
      month `m`, each counted from 0. */
  datatype Cell = Cell(r: nat, c: nat, m: nat)

  predicate ValidCell(x: Cell) {
    x.r < 17 && x.c < 7 && x.m < 12
  }

  /** The row of one step: the month's sales rounded to two decimals, and
      the year-on-year change, computed from the unrounded sales, rounded
      to one. */
  function SampleRow(year: int, x: Cell): (row: SalesRow)
    requires ValidCell(x)
    ensures row.region == Regions()[x.r] && row.contractType == ContractTypes()[x.c]
    ensures row.month == MonthText(year, x.m + 1)
    ensures row.salesMwh == Round(MonthSales(x.r, x.c, x.m), TwoDecimals)
    ensures row.salesMwh >= 312.0
    ensures row.yoyChangePercent == 2.0
  {
    var sales := MonthSales(x.r, x.c, x.m);
    RoundMono(312.0, sales, TwoDecimals);
    RoundExact(31200, TwoDecimals);
    YearOnYearRounded(sales);
    SalesRow(year, MonthText(year, x.m + 1), Regions()[x.r], ContractTypes()[x.c],
      Round(sales, TwoDecimals), Round(YearOnYear(sales), OneDecimal), IntText(year) + "-12-31")
  }

  /** The stored year-on-year change: 100/49 rounded to one decimal. */
  lemma YearOnYearRounded(sales: real)
    requires sales != 0.0
    ensures Round(YearOnYear(sales), OneDecimal) == 2.0
  {
    assert YearOnYear(sales) * 10.0 == 1000.0 / 49.0;
    assert RoundHalfEven(1000.0 / 49.0) == 20;
  }

  /** The steps of months `0 .. k - 1` of one region and contract type. */
  function MonthCells(r: nat, c: nat, k: nat): (s: seq<Cell>)
    ensures |s| == k
    ensures forall i :: 0 <= i < k ==> s[i] == Cell(r, c, i)
  {
    seq(k, (m: int) requires 0 <= m < k => Cell(r, c, m))
  }

  /** The steps of contract types `0 .. k - 1` of one region, each with its
      twelve months. */
  function ContractCells(r: nat, k: nat): (s: seq<Cell>)
    ensures |s| == k * 12
    ensures r < 17 && k <= 7 ==> forall i :: 0 <= i < |s| ==> ValidCell(s[i])
  {
    if k == 0 then [] else ContractCells(r, k - 1) + MonthCells(r, k - 1, 12)
  }

  /** The steps of regions `0 .. k - 1`, each with its contract types. */
  function RegionCells(k: nat): (s: seq<Cell>)
    ensures |s| == k * 84
    ensures k <= 17 ==> forall i :: 0 <= i < |s| ==> ValidCell(s[i])
  {
    if k == 0 then [] else RegionCells(k - 1) + ContractCells(k - 1, 7)
  }

  lemma MonthCellsSnoc(r: nat, c: nat, m: nat)
    ensures MonthCells(r, c, m + 1) == MonthCells(r, c, m) + [Cell(r, c, m)]
  {
  }

  /** The rows of a run of steps, in order. */
  function RowsOf(year: int, cells: seq<Cell>): (s: seq<SalesRow>)
    requires forall i :: 0 <= i < |cells| ==> ValidCell(cells[i])
    ensures |s| == |cells|
  {
    seq(|cells|, i requires 0 <= i < |cells| => SampleRow(year, cells[i]))
  }

  /** The number of regions, contract types and months the generation
      loops run over. */
  const RegionCount: nat := 17

  /** The whole sample of a year: 17 regions × 7 contract types × 12
      months. */
  function SampleData(year: int): (s: seq<SalesRow>)
    ensures |s| == 1428
  {
    RowsOf(year, RegionCells(RegionCount))
  }

  /** One more step adds its row. */
  lemma RowsOfSnoc(year: int, cells: seq<Cell>, x: Cell)
    requires forall i :: 0 <= i < |cells| ==> ValidCell(cells[i])
    requires ValidCell(x)
    ensures RowsOf(year, cells + [x]) == RowsOf(year, cells) + [SampleRow(year, x)]
  {
  }

  /** `_generate_sample_kepco_data`: for every region, every contract type
      and every month, in that nesting, one row. */
  method GenerateSampleData(year: int) returns (rows: seq<SalesRow>)
    ensures rows == SampleData(year)
  {
    rows := [];
    ghost var cells: seq<Cell> := [];
    var r := 0;
    while r < 17
      invariant 0 <= r <= 17
      invariant cells == RegionCells(r)
      invariant forall i :: 0 <= i < |cells| ==> ValidCell(cells[i])
      invariant rows == RowsOf(year, cells)
    {
      var c := 0;
      while c < 7
        invariant 0 <= c <= 7
        invariant cells == RegionCells(r) + ContractCells(r, c)
        invariant forall i :: 0 <= i < |cells| ==> ValidCell(cells[i])
        invariant rows == RowsOf(year, cells)
      {
        var m := 0;
        while m < 12
          invariant 0 <= m <= 12
          invariant cells == RegionCells(r) + ContractCells(r, c) + MonthCells(r, c, m)
          invariant forall i :: 0 <= i < |cells| ==> ValidCell(cells[i])
          invariant rows == RowsOf(year, cells)
        {
          var x := Cell(r, c, m);
          assert rows + [SampleRow(year, x)] == RowsOf(year, cells + [x]) by {
            RowsOfSnoc(year, cells, x);
          }
          assert cells + [x] == RegionCells(r) + ContractCells(r, c) + MonthCells(r, c, m + 1) by {
            MonthCellsSnoc(r, c, m);
            AppendAssoc(RegionCells(r) + ContractCells(r, c), MonthCells(r, c, m), [x]);
          }
          rows := rows + [SampleRow(year, x)];
          cells := cells + [x];
          m := m + 1;
        }
        AppendAssoc(RegionCells(r), ContractCells(r, c), MonthCells(r, c, 12));
        c := c + 1;
      }
      r := r + 1;
    }
  }

  lemma {:induction false} ContractCellsAt(r: nat, k: nat, c: nat, m: nat)
    requires c < k && m < 12
    ensures ContractCells(r, k)[c * 12 + m] == Cell(r, c, m)
  {
    AppendIndex(ContractCells(r, k - 1), MonthCells(r, k - 1, 12), c * 12 + m);
    if c < k - 1 {
      ContractCellsAt(r, k - 1, c, m);
    }
  }

  lemma {:induction false} RegionCellsAt(k: nat, r: nat, c: nat, m: nat)
    requires r < k && c < 7 && m < 12
    ensures RegionCells(k)[r * 84 + c * 12 + m] == Cell(r, c, m)
  {
    AppendIndex(RegionCells(k - 1), ContractCells(k - 1, 7), r * 84 + c * 12 + m);
    if r < k - 1 {
      RegionCellsAt(k - 1, r, c, m);
    } else {
      ContractCellsAt(r, 7, c, m);
    }
  }

  /** The row at `84·r + 12·c + m` of the sample is that of region `r`,
      contract type `c` and month `m`. */
  lemma SampleDataAt(year: int, r: nat, c: nat, m: nat)
    requires r < 17 && c < 7 && m < 12
    ensures SampleData(year)[r * 84 + c * 12 + m] == SampleRow(year, Cell(r, c, m))
  {
    var cells := RegionCells(RegionCount);
    var i := r * 84 + c * 12 + m;
    RegionCellsAt(RegionCount, r, c, m);
    RowsOfAt(year, cells, i);
  }

  lemma RowsOfAt(year: int, cells: seq<Cell>, i: nat)
    requires forall i :: 0 <= i < |cells| ==> ValidCell(cells[i])
    requires i < |cells|
    ensures RowsOf(year, cells)[i] == SampleRow(year, cells[i])
  {
  }

  /** Every row of the sample has sales of at least 312 MWh, so every
      one is positive. */
  lemma SampleSalesPositive(year: int)
    ensures forall i :: 0 <= i < |SampleData(year)| ==> SampleData(year)[i].salesMwh >= 312.0
  {
    forall i | 0 <= i < |SampleData(year)| ensures SampleData(year)[i].salesMwh >= 312.0 {
      RowsOfAt(year, RegionCells(RegionCount), i);
    }
  }

  /** A year of monthly sales adds up to the yearly total times the sum
      of the monthly pattern: 0.995 of it for industrial contracts, 1.065
      for residential, 1.035 for commercial and 0.996 for the rest. */
  lemma MonthlySalesSum(total: real, contract: string)
    ensures Sum(MonthlySales(total, contract)) == total * Sum(MonthlyRatios(contract))
    ensures contract == Industrial ==> Sum(MonthlySales(total, contract)) == total * 0.995
    ensures contract == Residential ==> Sum(MonthlySales(total, contract)) == total * 1.065
  {
    SumScaled(MonthlyRatios(contract), total);
    MonthlyRatioSums(contract);
  }

  // ---------------------------------------------------------------------
  // Aggregation.
  // ---------------------------------------------------------------------

  function RegionOf(row: SalesRow): string { row.region }
  function ContractOf(row: SalesRow): string { row.contractType }
  /** The month number of a `YYYY-MM` month as its two digits. */
  function MonthOf(row: SalesRow): string {
    if |row.month| >= 2 then row.month[|row.month| - 2..] else row.month
  }

  ghost predicate HasGroup(rows: seq<SalesRow>, key: SalesRow -> string, k: string) {
    exists i :: 0 <= i < |rows| && key(rows[i]) == k
  }

  /** The distinct keys of the rows in order of first appearance. */
  function GroupKeys(rows: seq<SalesRow>, key: SalesRow -> string): (ks: seq<string>)
    ensures forall i, j :: 0 <= i < j < |ks| ==> ks[i] != ks[j]
    ensures forall k :: k in ks <==> HasGroup(rows, key, k)
  {
    if |rows| == 0 then []
    else
      var init := rows[..|rows| - 1];
      var k := key(rows[|rows| - 1]);
      var before := GroupKeys(init, key);
      assert forall q :: HasGroup(rows, key, q) <==> HasGroup(init, key, q) || q == k by {
        forall q | HasGroup(rows, key, q) ensures HasGroup(init, key, q) || q == k {
          var i :| 0 <= i < |rows| && key(rows[i]) == q;
          if i < |init| {
            assert key(init[i]) == q;
          }
        }
        forall q | HasGroup(init, key, q) ensures HasGroup(rows, key, q) {
          var i :| 0 <= i < |init| && key(init[i]) == q;
          assert key(rows[i]) == q;
        }
      }
      if k in before then before else before + [k]
  }

  /** The total sales of the rows whose key is `k`. */
  function GroupSum(rows: seq<SalesRow>, key: SalesRow -> string, k: string): real {
    if |rows| == 0 then 0.0
    else
      GroupSum(rows[..|rows| - 1], key, k)
        + (if key(rows[|rows| - 1]) == k then rows[|rows| - 1].salesMwh else 0.0)
  }

  /** With sales of at least `least > 0` everywhere, every group that
      occurs has a total of at least `least`, so a positive one. */
  lemma {:induction false} GroupSumAtLeast(rows: seq<SalesRow>, key: SalesRow -> string, k: string, least: real)
    requires least > 0.0
    requires forall i :: 0 <= i < |rows| ==> rows[i].salesMwh >= least
    ensures GroupSum(rows, key, k) >= 0.0
    ensures HasGroup(rows, key, k) ==> GroupSum(rows, key, k) >= least
  {
    if |rows| > 0 {
      var init := rows[..|rows| - 1];
      GroupSumAtLeast(init, key, k, least);
      if HasGroup(rows, key, k) && key(rows[|rows| - 1]) != k {
        var i :| 0 <= i < |rows| && key(rows[i]) == k;
        assert key(init[i]) == k;
      }
    }
  }

  /** `groupby(key).agg(sum)` as a dict from key to total. */
  function GroupTotals(rows: seq<SalesRow>, key: SalesRow -> string): (d: seq<(string, real)>)
    ensures DistinctKeys(d)
    ensures |d| == |GroupKeys(rows, key)|
    ensures forall i :: 0 <= i < |d| ==> d[i].1 == GroupSum(rows, key, d[i].0)
    ensures forall k :: HasKey(d, k) <==> HasGroup(rows, key, k)
  {
    var ks := GroupKeys(rows, key);
    var d := seq(|ks|, i requires 0 <= i < |ks| => (ks[i], GroupSum(rows, key, ks[i])));
    assert forall k :: HasKey(d, k) <==> k in ks by {
      forall k | k in ks ensures HasKey(d, k) {
        var i :| 0 <= i < |ks| && ks[i] == k;
        assert d[i].0 == k;
      }
    }
    d
  }

  function TotalOf(entry: (string, real)): real { entry.1 }

  /** `.round(2)` of an aggregated frame: every total rounded to two
      decimals under the same key. */
  function RoundTotals(d: seq<(string, real)>): (r: seq<(string, real)>)
    ensures |r| == |d|
    ensures forall i :: 0 <= i < |d| ==> r[i] == (d[i].0, Round(d[i].1, TwoDecimals))
    ensures DistinctKeys(d) ==> DistinctKeys(r)
  {
    var r := seq(|d|, i requires 0 <= i < |d| => (d[i].0, Round(d[i].1, TwoDecimals)));
    assert forall i :: 0 <= i < |d| ==> r[i].0 == d[i].0;
    r
  }

  /** `t` holds the `n` largest totals of `d`: `min(n, |d|)` entries of
      `d`, none more often than in `d`, in descending order, every entry
      left out at most every entry kept. */
  ghost predicate IsTopOf(t: seq<(string, real)>, d: seq<(string, real)>, n: nat) {
    && |t| == (if n < |d| then n else |d|)
    && (forall i, j :: 0 <= i < j < |t| ==> t[i].1 >= t[j].1)
    && multiset(t) <= multiset(d)
    && (forall x :: x in t ==> x in d)
    && (forall x, i :: x in d && x !in t && 0 <= i < |t| ==> x.1 <= t[i].1)
  }

  /** `sort_values(ascending=False).head(n)`: the `n` largest totals. */
  function TopTotals(d: seq<(string, real)>, n: nat): (t: seq<(string, real)>)
    ensures IsTopOf(t, d, n)
  {
    SortedPrefixIsTop(d, n);
    Take(SortDescending(d, TotalOf), n)
  }

  /** A prefix of the descending sort holds the largest totals. */
  lemma SortedPrefixIsTop(d: seq<(string, real)>, n: nat)
    ensures IsTopOf(Take(SortDescending(d, TotalOf), n), d, n)
  {
    var sorted := SortDescending(d, TotalOf);
    SortDescendingOrdered(d, TotalOf);
    var t := Take(sorted, n);
    assert sorted == t + sorted[|t|..];
    assert multiset(t) <= multiset(d) by {
      assert multiset(sorted) == multiset(t) + multiset(sorted[|t|..]);
    }
    forall x | x in t ensures x in d {
      assert x in multiset(sorted);
    }
    forall x, i | x in d && x !in t && 0 <= i < |t| ensures x.1 <= t[i].1 {
      assert x in multiset(sorted);
      var j :| 0 <= j < |sorted| && sorted[j] == x;
      assert TotalOf(sorted[i]) >= TotalOf(sorted[j]);
    }
  }

  predicate IsIndustrial(row: SalesRow) {
    row.contractType == Industrial
  }

  /** The aggregation part of `process_kepco_data`. */
  datatype SalesSummary = SalesSummary(
    regionalSummary: seq<(string, real)>,
    contractSummary: seq<(string, real)>,
    monthlySummary: seq<(string, real)>,
    topRegions: seq<(string, real)>,
    industrialRegions: seq<(string, real)>)

  /** The totals by region, by contract type and by month, each rounded to
      two decimals; the five regions with the largest rounded totals; and
      the ten regions with the largest industrial totals, which are not
      rounded. */
  function Summarize(rows: seq<SalesRow>): (s: SalesSummary)
    ensures s.regionalSummary == RoundTotals(GroupTotals(rows, RegionOf))
    ensures s.contractSummary == RoundTotals(GroupTotals(rows, ContractOf))
    ensures s.monthlySummary == RoundTotals(GroupTotals(rows, MonthOf))
    ensures s.topRegions == TopTotals(s.regionalSummary, 5)
    ensures s.industrialRegions == TopTotals(GroupTotals(Filter(rows, IsIndustrial), RegionOf), 10)
    ensures IsTopOf(s.topRegions, s.regionalSummary, 5)
    ensures IsTopOf(s.industrialRegions, GroupTotals(Filter(rows, IsIndustrial), RegionOf), 10)
  {
    var regional := RoundTotals(GroupTotals(rows, RegionOf));
    var industrial := GroupTotals(Filter(rows, IsIndustrial), RegionOf);
    SalesSummary(regional, RoundTotals(GroupTotals(rows, ContractOf)),
      RoundTotals(GroupTotals(rows, MonthOf)), TopTotals(regional, 5), TopTotals(industrial, 10))
  }

  /** Every region of the industrial list appears in the regional summary,
      with a total of at least 0.01 when every sale is: a positive figure
      rounded to two decimals is at least that. */
  lemma IndustrialRegionsHaveTotals(rows: seq<SalesRow>)
    requires forall i :: 0 <= i < |rows| ==> rows[i].salesMwh >= 0.01
    ensures var s := Summarize(rows);
      forall x :: x in s.industrialRegions ==>
        && Lookup(s.regionalSummary, x.0).Some?
        && Lookup(s.regionalSummary, x.0).value >= 0.01
  {
    var s := Summarize(rows);
    var ind := Filter(rows, IsIndustrial);
    var d := GroupTotals(ind, RegionOf);
    assert s.industrialRegions == TopTotals(d, 10);
    forall x | x in s.industrialRegions
      ensures Lookup(s.regionalSummary, x.0).Some? && Lookup(s.regionalSummary, x.0).value >= 0.01
    {
      assert x in d;
      var i :| 0 <= i < |d| && d[i] == x;
      assert HasKey(d, x.0);
      var j :| 0 <= j < |ind| && RegionOf(ind[j]) == x.0;
      assert ind[j] in rows;
      var k :| 0 <= k < |rows| && rows[k] == ind[j];
      assert RegionOf(rows[k]) == x.0;
      RoundedTotalAtLeast(rows, x.0);
    }
  }

  /** A region that occurs in rows whose every sale is at least 0.01 MWh
      has a rounded regional total of at least 0.01. */
  lemma RoundedTotalAtLeast(rows: seq<SalesRow>, k: string)
    requires forall i :: 0 <= i < |rows| ==> rows[i].salesMwh >= 0.01
    requires HasGroup(rows, RegionOf, k)
    ensures Lookup(RoundTotals(GroupTotals(rows, RegionOf)), k).Some?
    ensures Lookup(RoundTotals(GroupTotals(rows, RegionOf)), k).value >= 0.01
  {
    var totals := GroupTotals(rows, RegionOf);
    var rounded := RoundTotals(totals);
    GroupSumAtLeast(rows, RegionOf, k, 0.01);
    assert HasKey(totals, k);
    var l :| 0 <= l < |totals| && totals[l].0 == k;
    LookupEntry(rounded, l);
    RoundMono(0.01, totals[l].1, TwoDecimals);
    RoundExact(1, TwoDecimals);
  }

  // ---------------------------------------------------------------------
  // Suitability.
  // ---------------------------------------------------------------------

  /** Points for the industrial share of a region's sales. */
  function RatioPoints(ratio: real): (p: int)
    ensures p == 40 <==> ratio > 70.0
    ensures p == 30 <==> 50.0 < ratio <= 70.0
    ensures p == 20 <==> 30.0 < ratio <= 50.0
    ensures p == 0 <==> ratio <= 30.0
  {
    if ratio > 70.0 then 40 else if ratio > 50.0 then 30 else if ratio > 30.0 then 20 else 0
  }

  /** Points for a region's total sales in TWh. */
  function TwhPoints(twh: real): (p: int)
    ensures p == 30 <==> twh > 40.0
    ensures p == 20 <==> 20.0 < twh <= 40.0
    ensures p == 10 <==> 10.0 < twh <= 20.0
    ensures p == 0 <==> twh <= 10.0
  {
    if twh > 40.0 then 30 else if twh > 20.0 then 20 else if twh > 10.0 then 10 else 0
  }

  /** `region_bonus.get(region, 5)`. */
  function RegionBonus(region: string): (b: int)
    ensures 5 <= b <= 30
    ensures region == "충남" ==> b == 30
    ensures region !in {"경기", "충남", "전남", "경북", "울산", "경남", "인천", "충북", "강원", "부산", "서울"}
      ==> b == 5
  {
    if region == "경기" then 25
    else if region == "충남" then 30
    else if region == "전남" then 25
    else if region == "경북" then 20
    else if region == "울산" then 20
    else if region == "경남" then 15
    else if region == "인천" then 20
    else if region == "충북" then 15
    else if region == "강원" then 10
    else if region == "부산" then 10
    else if region == "서울" then 5
    else 5
  }

  datatype Recommendation = Optimal | Good | Fair | Unsuitable {
    function Label(): string {
      match this
      case Optimal => "최적 입지 - 적극 권장"
      case Good => "양호한 입지 - 권장"
      case Fair => "보통 입지 - 조건부 권장"
      case Unsuitable => "부적합 입지 - 비권장"
    }
  }

  /** `_get_recommendation`. */
  function RecommendationOf(score: int): (r: Recommendation)
    ensures r == Optimal <==> score >= 80
    ensures r == Good <==> 60 <= score < 80
    ensures r == Fair <==> 40 <= score < 60
    ensures r == Unsuitable <==> score < 40
  {
    if score >= 80 then Optimal
    else if score >= 60 then Good
    else if score >= 40 then Fair
    else Unsuitable
  }

  /** The four recommendations read differently. */
  lemma RecommendationLabelsDistinct(a: Recommendation, b: Recommendation)
    requires a != b
    ensures a.Label() != b.Label()
  {
  }

  datatype Suitability = Suitability(
    region: string,
    industrialPowerMwh: real,
    totalPowerMwh: real,
    industrialRatioPercent: real,
    suitabilityScore: int,
    recommendation: Recommendation)

  /** The entry of one region: its industrial share, its score out of at
      most 100 and at least 5, and the matching recommendation. */
  function SuitabilityOf(region: string, industrial: real, total: real): (s: Suitability)
    requires total != 0.0
    ensures s.region == region
    ensures s.industrialPowerMwh == Round(industrial, NoDecimals)
    ensures s.totalPowerMwh == Round(total, NoDecimals)
    ensures s.industrialRatioPercent == Round(industrial / total * 100.0, OneDecimal)
    ensures s.suitabilityScore == RatioPoints(industrial / total * 100.0)
      + TwhPoints(total / 1000000.0) + RegionBonus(region)
    ensures 5 <= s.suitabilityScore <= 100
    ensures s.recommendation == RecommendationOf(s.suitabilityScore)
  {
    var ratio := industrial / total * 100.0;
    var score := RatioPoints(ratio) + TwhPoints(total / 1000000.0) + RegionBonus(region);
    Suitability(region, Round(industrial, NoDecimals), Round(total, NoDecimals),
      Round(ratio, OneDecimal), score, RecommendationOf(score))
  }

  datatype SuitabilityError = MissingRegion(region: string) | ZeroTotal(region: string)

  /** The entries of the industrial list in its order; a region without a
      regional total raises `KeyError`, a zero total `ZeroDivisionError`. */
  function SuitabilityRows(industrial: seq<(string, real)>, regional: seq<(string, real)>)
    : (r: Result<seq<Suitability>, SuitabilityError>)
    ensures r.Ok? ==> |r.value| == |industrial|
    ensures r.Ok? ==> forall i :: 0 <= i < |industrial| ==>
      && Lookup(regional, industrial[i].0).Some?
      && Lookup(regional, industrial[i].0).value != 0.0
      && r.value[i] == SuitabilityOf(industrial[i].0, industrial[i].1, Lookup(regional, industrial[i].0).value)
    ensures r.Err? ==> exists i ::
      && 0 <= i < |industrial|
      && (Lookup(regional, industrial[i].0).None? || Lookup(regional, industrial[i].0) == Some(0.0))
  {
    if |industrial| == 0 then Ok([])
    else
      var init := industrial[..|industrial| - 1];
      var last := industrial[|industrial| - 1];
      assert forall i :: 0 <= i < |init| ==> init[i] == industrial[i];
      match SuitabilityRows(init, regional)
      case Err(e) => Err(e)
      case Ok(rows) =>
        match Lookup(regional, last.0)
        case None => Err(MissingRegion(last.0))
        case Some(total) =>
          if total == 0.0 then Err(ZeroTotal(last.0))
          else
            var rs := rows + [SuitabilityOf(last.0, last.1, total)];
            assert forall i :: 0 <= i < |init| ==> rs[i] == rows[i];
            Ok(rs)
  }

  function ScoreKey(s: Suitability): real { s.suitabilityScore as real }

  /** `get_datacenter_suitable_regions`: the entries sorted by score,
      highest first, equal scores in list order. */
  function SuitableRegions(industrial: seq<(string, real)>, regional: seq<(string, real)>)
    : Result<seq<Suitability>, SuitabilityError>
  {
    match SuitabilityRows(industrial, regional)
    case Err(e) => Err(e)
    case Ok(rows) => Ok(SortDescending(rows, ScoreKey))
  }

  /** Scoring one more entry of the industrial list. */
  lemma SuitabilityRowsStep(industrial: seq<(string, real)>, i: nat, regional: seq<(string, real)>,
                            acc: seq<Suitability>)
    requires i < |industrial| && SuitabilityRows(industrial[..i], regional) == Ok(acc)
    ensures var region := industrial[i].0;
      SuitabilityRows(industrial[..i + 1], regional) ==
        if Lookup(regional, region).None? then Err(MissingRegion(region))
        else if Lookup(regional, region).value == 0.0 then Err(ZeroTotal(region))
        else Ok(acc + [SuitabilityOf(region, industrial[i].1, Lookup(regional, region).value)])
  {
    assert industrial[..i + 1][..i] == industrial[..i];
  }

  /** The first failing entry decides the error of the whole list. */
  lemma {:induction false} SuitabilityRowsErrPrefix(industrial: seq<(string, real)>, k: nat,
                                                    regional: seq<(string, real)>)
    requires k <= |industrial| && SuitabilityRows(industrial[..k], regional).Err?
    ensures SuitabilityRows(industrial, regional) == SuitabilityRows(industrial[..k], regional)
  {
    if k == |industrial| {
      assert industrial[..k] == industrial;
    } else {
      var init := industrial[..|industrial| - 1];
      assert init[..k] == industrial[..k];
      SuitabilityRowsErrPrefix(init, k, regional);
    }
  }

  /** `get_datacenter_suitable_regions`: the loop that scores the
      industrial list, then the sort. */
  method GetDatacenterSuitableRegions(summary: SalesSummary)
    returns (r: Result<seq<Suitability>, SuitabilityError>)
    ensures r == SuitableRegions(summary.industrialRegions, summary.regionalSummary)
  {
    var industrial := summary.industrialRegions;
    var regional := summary.regionalSummary;
    var suitable: seq<Suitability> := [];
    var i := 0;
    assert industrial[..0] == [];
    while i < |industrial|
      invariant 0 <= i <= |industrial|
      invariant SuitabilityRows(industrial[..i], regional) == Ok(suitable)
    {
      var (region, industrialPower) := industrial[i];
      SuitabilityRowsStep(industrial, i, regional, suitable);
      var total := Lookup(regional, region);
      if total.None? {
        SuitabilityRowsErrPrefix(industrial, i + 1, regional);
        return Err(MissingRegion(region));
      }
      if total.value == 0.0 {
        SuitabilityRowsErrPrefix(industrial, i + 1, regional);
        return Err(ZeroTotal(region));
      }
      suitable := suitable + [SuitabilityOf(region, industrialPower, total.value)];
      i := i + 1;
    }
    assert industrial[..|industrial|] == industrial;
    r := Ok(SortDescending(suitable, ScoreKey));
  }

  /** Every scored entry has a score in [5, 100] and the recommendation
      of its score. */
  lemma SuitabilityRowsBounded(industrial: seq<(string, real)>, regional: seq<(string, real)>)
    requires SuitabilityRows(industrial, regional).Ok?
    ensures forall x :: x in SuitabilityRows(industrial, regional).value ==>
      5 <= x.suitabilityScore <= 100 && x.recommendation == RecommendationOf(x.suitabilityScore)
  {
    var rows := SuitabilityRows(industrial, regional).value;
    forall x | x in rows
      ensures 5 <= x.suitabilityScore <= 100 && x.recommendation == RecommendationOf(x.suitabilityScore)
    {
      var k :| 0 <= k < |rows| && rows[k] == x;
    }
  }

  /** The result holds every scored entry once, scores descending and
      entries of equal score in list order. */
  lemma SuitableRegionsSorted(industrial: seq<(string, real)>, regional: seq<(string, real)>)
    requires SuitableRegions(industrial, regional).Ok?
    ensures var rows := SuitabilityRows(industrial, regional).value;
      var r := SuitableRegions(industrial, regional).value;
      && multiset(r) == multiset(rows)
      && |r| == |industrial|
      && (forall i, j :: 0 <= i < j < |r| ==> r[i].suitabilityScore >= r[j].suitabilityScore)
      && (forall v :: WithKey(r, ScoreKey, v) == WithKey(rows, ScoreKey, v))
  {
    var rows := SuitabilityRows(industrial, regional).value;
    var r := SortDescending(rows, ScoreKey);
    SortDescendingOrdered(rows, ScoreKey);
    forall i, j | 0 <= i < j < |r| ensures r[i].suitabilityScore >= r[j].suitabilityScore {
      assert ScoreKey(r[i]) >= ScoreKey(r[j]);
    }
  }

  /** Sorting keeps every entry, so a bound on every entry holds after it. */
  lemma SortedScoresBounded(rows: seq<Suitability>)
    requires forall x :: x in rows ==>
      5 <= x.suitabilityScore <= 100 && x.recommendation == RecommendationOf(x.suitabilityScore)
    ensures var r := SortDescending(rows, ScoreKey);
      forall i :: 0 <= i < |r| ==>
        5 <= r[i].suitabilityScore <= 100 && r[i].recommendation == RecommendationOf(r[i].suitabilityScore)
  {
    var r := SortDescending(rows, ScoreKey);
    SortDescendingOrdered(rows, ScoreKey);
    forall i | 0 <= i < |r|
      ensures 5 <= r[i].suitabilityScore <= 100 && r[i].recommendation == RecommendationOf(r[i].suitabilityScore)
    {
      assert r[i] in multiset(rows);
    }
  }

  /** Every entry of the result has a score in [5, 100] and the
      recommendation of its score. */
  lemma SuitableRegionsScores(industrial: seq<(string, real)>, regional: seq<(string, real)>)
    requires SuitableRegions(industrial, regional).Ok?
    ensures var r := SuitableRegions(industrial, regional).value;
      forall i :: 0 <= i < |r| ==>
        5 <= r[i].suitabilityScore <= 100 && r[i].recommendation == RecommendationOf(r[i].suitabilityScore)
  {
    var rows := SuitabilityRows(industrial, regional).value;
    assert SuitableRegions(industrial, regional).value == SortDescending(rows, ScoreKey);
    SuitabilityRowsBounded(industrial, regional);
    SortedScoresBounded(rows);
  }

  /** On data whose every sale is at least 0.01 MWh (so that no rounded
      regional total is zero), the suitability analysis of the summary
      never raises. */
  lemma SuitableRegionsSucceed(rows: seq<SalesRow>)
    requires forall i :: 0 <= i < |rows| ==> rows[i].salesMwh >= 0.01
    ensures var s := Summarize(rows);
      SuitableRegions(s.industrialRegions, s.regionalSummary).Ok?
  {
    var s := Summarize(rows);
    IndustrialRegionsHaveTotals(rows);
    SuitabilityRowsOk(s.industrialRegions, s.regionalSummary);
  }

  /** Every listed region having a non-zero total is all the scoring
      needs. */
  lemma {:induction false} SuitabilityRowsOk(industrial: seq<(string, real)>, regional: seq<(string, real)>)
    requires forall x :: x in industrial ==>
      Lookup(regional, x.0).Some? && Lookup(regional, x.0).value > 0.0
    ensures SuitabilityRows(industrial, regional).Ok?
  {
    if |industrial| > 0 {
      var init := industrial[..|industrial| - 1];
      assert forall x :: x in init ==> x in industrial;
      SuitabilityRowsOk(init, regional);
      assert industrial[|industrial| - 1] in industrial;
    }
  }
}
