/** Austin valuation context (skills/austin-market/scripts/valuation_context.py):
    a growth category picked by year-over-year growth, an ARR-multiple
    valuation range, the comparison with the stage's Austin and Bay Area
    benchmarks, and the recommendations drawn from them. */
module ValuationContext {
  import opened Wrappers

  /** The benchmarks of one stage, in dollars of pre-money valuation. */
  datatype Benchmark = Benchmark(low: real, median: real, high: real, bayAreaMedian: real)

  const AustinBenchmarks: map<string, Benchmark> := map[
    "seed" := Benchmark(6000000.0, 10000000.0, 15000000.0, 15000000.0),
    "series_a" := Benchmark(15000000.0, 30000000.0, 50000000.0, 45000000.0),
    "series_b" := Benchmark(50000000.0, 90000000.0, 150000000.0, 130000000.0)
  ]

  /** The sectors that command Bay Area parity. */
  const PremiumSectors: seq<string> :=
    ["Enterprise SaaS", "Fintech/Payments", "Cybersecurity", "E-commerce/D2C", "AI/ML Infrastructure"]

  datatype GrowthCategory = Hypergrowth | HighGrowth | Growth | Moderate | Slow

  /** One row of the ARR-multiple table: the least growth that reaches the
      category and the range of multiples it earns. */
  datatype Multiples = Multiples(category: GrowthCategory, threshold: real, multipleLow: real, multipleHigh: real)

  /** The ARR-multiple table, in its declared order. */
  const ArrMultiples: seq<Multiples> := [
    Multiples(Hypergrowth, 100.0, 15.0, 30.0),
    Multiples(HighGrowth, 50.0, 10.0, 20.0),
    Multiples(Growth, 25.0, 6.0, 12.0),
    Multiples(Moderate, 10.0, 4.0, 8.0),
    Multiples(Slow, 0.0, 2.0, 5.0)
  ]

  // ---------------------------------------------------------------------
  // Growth category
  // ---------------------------------------------------------------------

  /** The first row of `table` whose threshold `growth` reaches; `Slow` when
      there is none. */
  function FirstReached(table: seq<Multiples>, growth: real): (c: GrowthCategory)
    ensures c == Slow || exists i :: 0 <= i < |table| && table[i].category == c && table[i].threshold <= growth
  {
    if |table| == 0 then Slow
    else if growth >= table[0].threshold then table[0].category
    else
      var c := FirstReached(table[1..], growth);
      assert c != Slow ==> exists i :: 1 <= i < |table| && table[i].category == c && table[i].threshold <= growth by {
        if c != Slow {
          var i :| 0 <= i < |table[1..]| && table[1..][i].category == c && table[1..][i].threshold <= growth;
          assert table[i + 1] == table[1..][i];
        }
      }
      c
  }

  /** `get_growth_category`. */
  function GetGrowthCategory(yoyGrowth: real): GrowthCategory {
    FirstReached(ArrMultiples, yoyGrowth)
  }

  /** The categories are bands of growth: at least 100% is hypergrowth, then
      50, 25 and 10; anything under 10%, negative growth included, is slow. */
  lemma GrowthCategoryBands(g: real)
    ensures GetGrowthCategory(g) == Hypergrowth <==> g >= 100.0
    ensures GetGrowthCategory(g) == HighGrowth <==> 50.0 <= g < 100.0
    ensures GetGrowthCategory(g) == Growth <==> 25.0 <= g < 50.0
    ensures GetGrowthCategory(g) == Moderate <==> 10.0 <= g < 25.0
    ensures GetGrowthCategory(g) == Slow <==> g < 10.0
  {
    var t := ArrMultiples;
    assert t[4..][1..] == [];
    assert FirstReached(t[4..], g) == Slow;
    assert t[3..][1..] == t[4..];
    assert FirstReached(t[3..], g) == if g >= 10.0 then Moderate else Slow;
    assert t[2..][1..] == t[3..];
    assert FirstReached(t[2..], g) == if g >= 25.0 then Growth else FirstReached(t[3..], g);
    assert t[1..][1..] == t[2..];
    assert FirstReached(t[1..], g) == if g >= 50.0 then HighGrowth else FirstReached(t[2..], g);
  }

  /** The row of the table for a category. */
  function MultiplesOf(c: GrowthCategory): (m: Multiples)
    ensures m in ArrMultiples && m.category == c
    ensures 0.0 < m.multipleLow < m.multipleHigh
  {
    match c
    case Hypergrowth => ArrMultiples[0]
    case HighGrowth => ArrMultiples[1]
    case Growth => ArrMultiples[2]
    case Moderate => ArrMultiples[3]
    case Slow => ArrMultiples[4]
  }

  function CategoryRank(c: GrowthCategory): nat {
    match c
    case Slow => 0
    case Moderate => 1
    case Growth => 2
    case HighGrowth => 3
    case Hypergrowth => 4
  }

  /** More growth never earns a lower category, nor lower multiples. */
  lemma GrowthCategoryMonotone(g: real, h: real)
    requires g <= h
    ensures CategoryRank(GetGrowthCategory(g)) <= CategoryRank(GetGrowthCategory(h))
    ensures MultiplesOf(GetGrowthCategory(g)).multipleLow <= MultiplesOf(GetGrowthCategory(h)).multipleLow
    ensures MultiplesOf(GetGrowthCategory(g)).multipleHigh <= MultiplesOf(GetGrowthCategory(h)).multipleHigh
  {
    GrowthCategoryBands(g);
    GrowthCategoryBands(h);
  }

  // ---------------------------------------------------------------------
  // ARR valuation
  // ---------------------------------------------------------------------

  datatype ArrValuation = ArrValuation(
    arr: real,
    yoyGrowth: real,
    growthCategory: GrowthCategory,
    multipleLow: real,
    multipleHigh: real,
    valuationLow: real,
    valuationHigh: real,
    valuationMid: real)

  /** `calculate_arr_valuation`. */
  function CalculateArrValuation(arr: real, yoyGrowth: real): (v: ArrValuation)
    ensures v.growthCategory == GetGrowthCategory(yoyGrowth)
    ensures v.valuationLow == arr * v.multipleLow && v.valuationHigh == arr * v.multipleHigh
    ensures v.valuationMid == (v.valuationLow + v.valuationHigh) / 2.0
  {
    var c := GetGrowthCategory(yoyGrowth);
    var m := MultiplesOf(c);
    ArrValuation(arr, yoyGrowth, c, m.multipleLow, m.multipleHigh,
                 arr * m.multipleLow, arr * m.multipleHigh, arr * (m.multipleLow + m.multipleHigh) / 2.0)
  }

  /** For a non-negative ARR the range is ordered low <= mid <= high; a
      negative ARR turns it over. */
  lemma ArrValuationOrdered(arr: real, yoyGrowth: real)
    ensures var v := CalculateArrValuation(arr, yoyGrowth);
      && (arr >= 0.0 ==> v.valuationLow <= v.valuationMid <= v.valuationHigh)
      && (arr <= 0.0 ==> v.valuationHigh <= v.valuationMid <= v.valuationLow)
  {
    var v := CalculateArrValuation(arr, yoyGrowth);
    var m := MultiplesOf(v.growthCategory);
    if arr >= 0.0 {
      assert arr * m.multipleLow <= arr * m.multipleHigh;
    } else {
      assert arr * m.multipleHigh <= arr * m.multipleLow;
    }
  }

  // ---------------------------------------------------------------------
  // Benchmark comparison
  // ---------------------------------------------------------------------

  datatype Position = BelowMedian | AtMedian | AboveMedian

  datatype Comparison = Comparison(
    stage: string,
    valuation: real,
    austinLow: real,
    austinMedian: real,
    austinHigh: real,
    bayAreaMedian: real,
    vsAustinMedian: real,
    vsBayArea: real,
    austinDiscount: real,
    position: Position)

  /** The stage's benchmarks, the seed ones for a stage the table lacks. */
  function BenchmarksFor(stage: string): (b: Benchmark)
    ensures stage !in AustinBenchmarks ==> b == AustinBenchmarks["seed"]
    ensures 0.0 < b.low < b.median < b.high && b.bayAreaMedian > 0.0
  {
    if stage in AustinBenchmarks then AustinBenchmarks[stage] else AustinBenchmarks["seed"]
  }

  /** `compare_to_benchmarks`. */
  function CompareToBenchmarks(valuation: real, stage: string): (c: Comparison)
    ensures c.position == BelowMedian <==> valuation < c.austinMedian
    ensures c.position == AtMedian <==> c.austinMedian <= valuation < c.austinHigh
    ensures c.position == AboveMedian <==> valuation >= c.austinHigh
  {
    var b := BenchmarksFor(stage);
    Comparison(stage, valuation, b.low, b.median, b.high, b.bayAreaMedian,
               (valuation / b.median - 1.0) * 100.0,
               (valuation / b.bayAreaMedian - 1.0) * 100.0,
               (1.0 - b.median / b.bayAreaMedian) * 100.0,
               if valuation < b.median then BelowMedian
               else if valuation < b.high then AtMedian
               else AboveMedian)
  }

  lemma RatioBelowOne(v: real, d: real)
    requires d > 0.0
    ensures (v / d - 1.0) * 100.0 < 0.0 <==> v < d
  {
    if v < d {
      assert v / d < 1.0;
    } else {
      assert v / d >= 1.0;
    }
  }

  /** Below the median exactly when the percentage against the Austin
      median is negative; every position agrees with the percentages. */
  lemma PositionAgreesWithPercent(valuation: real, stage: string)
    ensures var c := CompareToBenchmarks(valuation, stage);
      (c.position == BelowMedian <==> c.vsAustinMedian < 0.0)
  {
    var b := BenchmarksFor(stage);
    RatioBelowOne(valuation, b.median);
  }

  /** Every stage's Austin median sits below its Bay Area median, so the
      Austin discount is positive. */
  lemma AustinDiscountPositive(valuation: real, stage: string)
    ensures CompareToBenchmarks(valuation, stage).austinDiscount > 0.0
  {
    var b := BenchmarksFor(stage);
    assert b.median < b.bayAreaMedian;
    assert b.median / b.bayAreaMedian < 1.0;
  }

  // ---------------------------------------------------------------------
  // Context report
  // ---------------------------------------------------------------------

  datatype Recommendation =
    | PremiumSectorAboveMedian(sector: string)
    | LocalPushback
    | AustinDiscount
    | StrongGrowthPremium(yoyGrowth: real)

  datatype Inputs = Inputs(arr: real, stage: string, yoyGrowth: real, sector: Option<string>,
                           proposedValuation: Option<real>)

  datatype Report = Report(
    inputs: Inputs,
    arrAnalysis: ArrValuation,
    benchmarkComparison: Comparison,
    sectorPremium: bool,
    recommendations: seq<Recommendation>)

  /** `proposed_valuation or valuation_mid`: a proposal of zero counts as none. */
  function ValuationUsed(proposed: Option<real>, mid: real): real {
    if proposed.Some? && proposed.value != 0.0 then proposed.value else mid
  }

  /** `sector in PREMIUM_SECTORS if sector else False`: an exact, case-sensitive
      match; no sector or an empty one is no premium. */
  predicate SectorPremium(sector: Option<string>) {
    sector.Some? && sector.value != "" && sector.value in PremiumSectors
  }

  /** The recommendations, in the order the report adds them. */
  function RecommendationsFor(i: Inputs, v: ArrValuation, c: Comparison, premium: bool): seq<Recommendation> {
    (if c.position == AboveMedian then
       (if premium then [PremiumSectorAboveMedian(i.sector.GetOr(""))] else [LocalPushback])
     else []) +
    (if c.vsBayArea < -30.0 then [AustinDiscount] else []) +
    (if v.growthCategory == Hypergrowth || v.growthCategory == HighGrowth then [StrongGrowthPremium(i.yoyGrowth)] else [])
  }

  function ContextReport(i: Inputs): Report {
    var v := CalculateArrValuation(i.arr, i.yoyGrowth);
    var c := CompareToBenchmarks(ValuationUsed(i.proposedValuation, v.valuationMid), i.stage);
    var premium := SectorPremium(i.sector);
    Report(i, v, c, premium, RecommendationsFor(i, v, c, premium))
  }

  /** `generate_context_report`, without its timestamp. */
  method GenerateContextReport(arr: real, stage: string, yoyGrowth: real, sector: Option<string>,
                               proposedValuation: Option<real>) returns (report: Report)
    ensures report == ContextReport(Inputs(arr, stage, yoyGrowth, sector, proposedValuation))
  {
    var arrValuation := CalculateArrValuation(arr, yoyGrowth);
    var valuation := if proposedValuation.Some? && proposedValuation.value != 0.0 then proposedValuation.value
                     else arrValuation.valuationMid;
    var comparison := CompareToBenchmarks(valuation, stage);
    var sectorPremium := if sector.Some? && sector.value != "" then sector.value in PremiumSectors else false;
    var inputs := Inputs(arr, stage, yoyGrowth, sector, proposedValuation);
    assert valuation == ValuationUsed(proposedValuation, arrValuation.valuationMid);
    assert sectorPremium == SectorPremium(sector);
    var recommendations := Recommend(inputs, arrValuation, comparison, sectorPremium);
    report := Report(inputs, arrValuation, comparison, sectorPremium, recommendations);
  }

  /** The recommendation list of `generate_context_report`, built message
      by message. */
  method Recommend(inputs: Inputs, arrValuation: ArrValuation, comparison: Comparison, sectorPremium: bool)
    returns (recommendations: seq<Recommendation>)
    ensures recommendations == RecommendationsFor(inputs, arrValuation, comparison, sectorPremium)
  {
    recommendations := [];
    if comparison.position == AboveMedian {
      if sectorPremium {
        recommendations := recommendations + [PremiumSectorAboveMedian(inputs.sector.GetOr(""))];
      } else {
        recommendations := recommendations + [LocalPushback];
      }
    }
    if comparison.vsBayArea < -30.0 {
      recommendations := recommendations + [AustinDiscount];
    }
    if arrValuation.growthCategory == Hypergrowth || arrValuation.growthCategory == HighGrowth {
      recommendations := recommendations + [StrongGrowthPremium(inputs.yoyGrowth)];
    }
  }

  /** What the report recommends, and when: one of the two above-median
      messages exactly when the valuation used is at or above the stage's
      high benchmark (the premium one exactly when the sector is a premium
      sector), the discount message exactly when the valuation is more than
      30% under the Bay Area median, and the growth message exactly when
      growth is at least 50%. */
  lemma ReportRecommendations(i: Inputs)
    ensures var r := ContextReport(i);
      var used := ValuationUsed(i.proposedValuation, r.arrAnalysis.valuationMid);
      && |r.recommendations| <= 3
      && (LocalPushback in r.recommendations <==>
            used >= BenchmarksFor(i.stage).high && !SectorPremium(i.sector))
      && ((exists k :: 0 <= k < |r.recommendations| && r.recommendations[k].PremiumSectorAboveMedian?) <==>
            used >= BenchmarksFor(i.stage).high && SectorPremium(i.sector))
      && (AustinDiscount in r.recommendations <==> r.benchmarkComparison.vsBayArea < -30.0)
      && ((exists k :: 0 <= k < |r.recommendations| && r.recommendations[k].StrongGrowthPremium?) <==>
            i.yoyGrowth >= 50.0)
  {
    var r := ContextReport(i);
    GrowthCategoryBands(i.yoyGrowth);
    var v, c, premium := r.arrAnalysis, r.benchmarkComparison, r.sectorPremium;
    var a := if c.position == AboveMedian then
               (if premium then [PremiumSectorAboveMedian(i.sector.GetOr(""))] else [LocalPushback])
             else [];
    var d := if c.vsBayArea < -30.0 then [AustinDiscount] else [];
    var g := if v.growthCategory == Hypergrowth || v.growthCategory == HighGrowth then [StrongGrowthPremium(i.yoyGrowth)] else [];
    assert r.recommendations == a + d + g;
    forall k | 0 <= k < |r.recommendations|
      ensures r.recommendations[k].PremiumSectorAboveMedian? ==> k < |a| && a[k].PremiumSectorAboveMedian?
      ensures r.recommendations[k].StrongGrowthPremium? ==> k >= |a| + |d|
    {
      if k >= |a| + |d| {
        assert r.recommendations[k] == g[k - |a| - |d|];
      } else if k >= |a| {
        assert r.recommendations[k] == d[k - |a|];
      } else {
        assert r.recommendations[k] == a[k];
      }
    }
    if |g| > 0 {
      assert r.recommendations[|a| + |d|] == g[0];
    }
    if premium && c.position == AboveMedian {
      assert r.recommendations[0] == a[0];
    }
  }

  /** With no proposal the report compares the middle of the ARR range. */
  lemma ReportUsesMidWithoutProposal(i: Inputs)
    requires i.proposedValuation == None || i.proposedValuation == Some(0.0)
    ensures ContextReport(i).benchmarkComparison.valuation == CalculateArrValuation(i.arr, i.yoyGrowth).valuationMid
  {
  }
}
