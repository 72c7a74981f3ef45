/** Cohort retention arithmetic and cohort flags
    (skills/saas-metrics/scripts/cohort_analysis.py), over abstract
    customer and revenue records instead of data frames. */
module CohortAnalysis {

  // ---------------------------------------------------------------------
  // Month periods
  // ---------------------------------------------------------------------

  /** A monthly period, as a data frame's `to_period('M')` gives it. */
  datatype Period = Period(year: int, month: int)

  predicate ValidPeriod(p: Period) {
    1 <= p.month <= 12
  }

  /** `period >= cohort` on monthly periods. */
  predicate AtOrAfter(p: Period, cohort: Period) {
    p.year > cohort.year || (p.year == cohort.year && p.month >= cohort.month)
  }

  /** The month number of a period relative to its cohort, the `N` of the
      `MN` column. */
  function MonthOffset(p: Period, cohort: Period): int {
    (p.year - cohort.year) * 12 + (p.month - cohort.month)
  }

  /** Offsets are counted only for periods at or after the cohort, and on
      valid periods those are exactly the non-negative offsets; offset 0 is
      the cohort month itself. */
  lemma MonthOffsetSign(p: Period, cohort: Period)
    requires ValidPeriod(p) && ValidPeriod(cohort)
    ensures AtOrAfter(p, cohort) <==> MonthOffset(p, cohort) >= 0
    ensures MonthOffset(p, cohort) == 0 <==> p == cohort
  {
    if p.year > cohort.year {
      assert (p.year - cohort.year) * 12 >= 12;
    } else if p.year < cohort.year {
      assert (p.year - cohort.year) * 12 <= -12;
    }
  }

  // ---------------------------------------------------------------------
  // Logo and revenue retention
  // ---------------------------------------------------------------------

  /** One revenue row: a customer's MRR in a period. */
  datatype RevenueRow = RevenueRow(customerId: string, period: Period, mrr: real)

  /** The distinct cohort customers with positive MRR in `period`. */
  function ActiveIds(cohortCustomers: seq<string>, rows: seq<RevenueRow>, period: Period): (ids: set<string>)
    ensures forall id :: id in ids ==> id in cohortCustomers
  {
    set r | r in rows && r.period == period && r.customerId in cohortCustomers && r.mrr > 0.0 :: r.customerId
  }

  /** Logo retention in a period: active customers as a percentage of the
      cohort's size, or 0 for an empty cohort. */
  function LogoRetention(cohortCustomers: seq<string>, rows: seq<RevenueRow>, period: Period): real {
    if |cohortCustomers| > 0 then
      (|ActiveIds(cohortCustomers, rows, period)| as real) / (|cohortCustomers| as real) * 100.0
    else 0.0
  }

  /** The elements of a sequence are no more than its length. */
  lemma {:induction false} DistinctAtMostLength(s: seq<string>)
    ensures |set x | x in s| <= |s|
  {
    if |s| > 0 {
      DistinctAtMostLength(s[1..]);
      assert (set x | x in s) == {s[0]} + (set x | x in s[1..]) by {
        assert forall x :: x in s <==> x == s[0] || x in s[1..];
      }
    }
  }

  lemma {:induction false} SubsetCardinality(a: set<string>, b: set<string>)
    requires a <= b
    ensures |a| <= |b|
  {
    if a != {} {
      var x :| x in a;
      SubsetCardinality(a - {x}, b - {x});
    }
  }

  /** Active customers are drawn from the cohort, so logo retention lies
      between 0 and 100 percent. */
  lemma LogoRetentionBounds(cohortCustomers: seq<string>, rows: seq<RevenueRow>, period: Period)
    ensures 0.0 <= LogoRetention(cohortCustomers, rows, period) <= 100.0
  {
    if |cohortCustomers| > 0 {
      var ids := ActiveIds(cohortCustomers, rows, period);
      DistinctAtMostLength(cohortCustomers);
      SubsetCardinality(ids, set x | x in cohortCustomers);
      var a, n := |ids| as real, |cohortCustomers| as real;
      assert a <= n;
      QuotientAtMostOne(a, n);
    }
  }

  lemma QuotientAtMostOne(a: real, n: real)
    requires 0.0 <= a <= n && n > 0.0
    ensures 0.0 <= a / n <= 1.0
  {
  }

  /** The cohort's MRR in `period`, over every row of its customers. */
  function PeriodRevenue(cohortCustomers: seq<string>, rows: seq<RevenueRow>, period: Period): real {
    if |rows| == 0 then 0.0
    else
      var r := rows[|rows| - 1];
      PeriodRevenue(cohortCustomers, rows[..|rows| - 1], period)
        + (if r.period == period && r.customerId in cohortCustomers then r.mrr else 0.0)
  }

  /** Revenue retention: the period's MRR as a percentage of the initial
      MRR, or 0 when the initial MRR is not positive. */
  function RevenueRetention(initialMrr: real, periodMrr: real): (pct: real)
    ensures initialMrr <= 0.0 ==> pct == 0.0
  {
    if initialMrr > 0.0 then periodMrr / initialMrr * 100.0 else 0.0
  }

  /** The percentage scales the initial MRR back to the period's MRR, and
      is at least 100 exactly when revenue did not shrink. */
  lemma RevenueRetentionRoundTrip(initialMrr: real, periodMrr: real)
    requires initialMrr > 0.0
    ensures RevenueRetention(initialMrr, periodMrr) * initialMrr == periodMrr * 100.0
    ensures RevenueRetention(initialMrr, periodMrr) >= 100.0 <==> periodMrr >= initialMrr
    ensures periodMrr >= 0.0 ==> RevenueRetention(initialMrr, periodMrr) >= 0.0
  {
    var q := periodMrr / initialMrr;
    assert q * initialMrr == periodMrr;
    assert q >= 1.0 <==> periodMrr >= initialMrr by {
      if q >= 1.0 {
        assert q * initialMrr >= 1.0 * initialMrr;
      } else {
        assert q * initialMrr < 1.0 * initialMrr;
      }
    }
  }

  // ---------------------------------------------------------------------
  // Matrix rows
  // ---------------------------------------------------------------------

  /** A cohort's logo-retention row: for every period at or after the
      cohort, its month offset mapped to the retention in that period. */
  function RetentionRow(cohortCustomers: seq<string>, rows: seq<RevenueRow>, cohort: Period, periods: seq<Period>): map<int, real> {
    if |periods| == 0 then map[]
    else
      var p := periods[|periods| - 1];
      var row := RetentionRow(cohortCustomers, rows, cohort, periods[..|periods| - 1]);
      if AtOrAfter(p, cohort) then row[MonthOffset(p, cohort) := LogoRetention(cohortCustomers, rows, p)] else row
  }

  /** A cohort's revenue-retention row, against its MRR in the cohort
      month. */
  function NrrRow(cohortCustomers: seq<string>, rows: seq<RevenueRow>, cohort: Period, periods: seq<Period>): map<int, real> {
    if |periods| == 0 then map[]
    else
      var p := periods[|periods| - 1];
      var row := NrrRow(cohortCustomers, rows, cohort, periods[..|periods| - 1]);
      if AtOrAfter(p, cohort) then
        row[MonthOffset(p, cohort) := RevenueRetention(PeriodRevenue(cohortCustomers, rows, cohort),
                                                       PeriodRevenue(cohortCustomers, rows, p))]
      else row
  }

  /** Some period of `periods` at or after the cohort has offset `k`. */
  predicate HasOffset(periods: seq<Period>, cohort: Period, k: int) {
    exists i :: 0 <= i < |periods| && AtOrAfter(periods[i], cohort) && MonthOffset(periods[i], cohort) == k
  }

  lemma HasOffsetSnoc(periods: seq<Period>, cohort: Period, k: int)
    requires |periods| > 0
    ensures var p := periods[|periods| - 1];
      HasOffset(periods, cohort, k) <==>
      HasOffset(periods[..|periods| - 1], cohort, k) || (AtOrAfter(p, cohort) && MonthOffset(p, cohort) == k)
  {
    var init := periods[..|periods| - 1];
    if HasOffset(periods, cohort, k) {
      var i :| 0 <= i < |periods| && AtOrAfter(periods[i], cohort) && MonthOffset(periods[i], cohort) == k;
      if i < |init| {
        assert init[i] == periods[i];
      }
    }
    if HasOffset(init, cohort, k) {
      var i :| 0 <= i < |init| && AtOrAfter(init[i], cohort) && MonthOffset(init[i], cohort) == k;
      assert periods[i] == init[i];
    }
  }

  /** The logo-retention row has a column exactly for the offsets of the
      periods at or after the cohort; none is negative, and every value is
      a percentage between 0 and 100. */
  lemma {:induction false} RetentionRowCorrect(cohortCustomers: seq<string>, rows: seq<RevenueRow>, cohort: Period, periods: seq<Period>)
    requires ValidPeriod(cohort) && forall i :: 0 <= i < |periods| ==> ValidPeriod(periods[i])
    ensures var row := RetentionRow(cohortCustomers, rows, cohort, periods);
      && (forall k :: k in row <==> HasOffset(periods, cohort, k))
      && (forall k :: k in row ==> k >= 0 && 0.0 <= row[k] <= 100.0)
  {
    if |periods| > 0 {
      var init, p := periods[..|periods| - 1], periods[|periods| - 1];
      RetentionRowCorrect(cohortCustomers, rows, cohort, init);
      MonthOffsetSign(p, cohort);
      LogoRetentionBounds(cohortCustomers, rows, p);
      forall k ensures HasOffset(periods, cohort, k) <==>
        HasOffset(init, cohort, k) || (AtOrAfter(p, cohort) && MonthOffset(p, cohort) == k) {
        HasOffsetSnoc(periods, cohort, k);
      }
    }
  }

  /** In the revenue-retention row every column is a non-negative offset,
      and the cohort month itself, whenever it is listed, shows 100 percent
      (or 0 when the cohort had no MRR then): the initial MRR is that
      month's MRR. */
  lemma {:induction false} NrrRowCorrect(cohortCustomers: seq<string>, rows: seq<RevenueRow>, cohort: Period, periods: seq<Period>)
    requires ValidPeriod(cohort) && forall i :: 0 <= i < |periods| ==> ValidPeriod(periods[i])
    ensures var row := NrrRow(cohortCustomers, rows, cohort, periods);
      && (forall k :: k in row ==> k >= 0)
      && (0 in row ==> row[0] == if PeriodRevenue(cohortCustomers, rows, cohort) > 0.0 then 100.0 else 0.0)
  {
    if |periods| > 0 {
      var init, p := periods[..|periods| - 1], periods[|periods| - 1];
      NrrRowCorrect(cohortCustomers, rows, cohort, init);
      MonthOffsetSign(p, cohort);
      var initial := PeriodRevenue(cohortCustomers, rows, cohort);
      if initial > 0.0 {
        assert initial / initial == 1.0;
      }
    }
  }

  // ---------------------------------------------------------------------
  // Flags
  // ---------------------------------------------------------------------

  datatype Severity = High | Medium

  datatype FlagMetric = ThreeMonthRetention | SixMonthNrr

  /** A cohort flag with the value that raised it; the message is fixed by
      the metric, severity and value. */
  datatype Flag = Flag(severity: Severity, metric: FlagMetric, value: real)

  /** The averages the flags read, keyed by month column (`"M3"`); a
      missing dictionary is an empty map. */
  datatype CohortMetrics = CohortMetrics(avgRetentionByMonth: map<string, real>, avgNrrByMonth: map<string, real>)

  function RetentionFlags(m: CohortMetrics): seq<Flag> {
    if "M3" !in m.avgRetentionByMonth then []
    else
      var v := m.avgRetentionByMonth["M3"];
      if v < 70.0 then [Flag(High, ThreeMonthRetention, v)]
      else if v < 85.0 then [Flag(Medium, ThreeMonthRetention, v)]
      else []
  }

  function NrrFlags(m: CohortMetrics): seq<Flag> {
    if "M6" in m.avgNrrByMonth && m.avgNrrByMonth["M6"] < 90.0 then [Flag(High, SixMonthNrr, m.avgNrrByMonth["M6"])]
    else []
  }

  function Flags(m: CohortMetrics): seq<Flag> {
    RetentionFlags(m) + NrrFlags(m)
  }

  /** `generate_flags`: the 3-month retention check, then the 6-month NRR
      check, each appending at most one flag. */
  method GenerateFlags(m: CohortMetrics) returns (flags: seq<Flag>)
    ensures flags == Flags(m)
  {
    flags := [];
    var avgRetention := m.avgRetentionByMonth;
    if "M3" in avgRetention {
      var m3Retention := avgRetention["M3"];
      if m3Retention < 70.0 {
        flags := flags + [Flag(High, ThreeMonthRetention, m3Retention)];
      } else if m3Retention < 85.0 {
        flags := flags + [Flag(Medium, ThreeMonthRetention, m3Retention)];
      }
    }
    assert flags == RetentionFlags(m);
    var avgNrr := m.avgNrrByMonth;
    if "M6" in avgNrr {
      var m6Nrr := avgNrr["M6"];
      if m6Nrr < 90.0 {
        flags := flags + [Flag(High, SixMonthNrr, m6Nrr)];
      }
    }
  }

  /** At most one 3-month flag (high below 70, medium below 85) reporting
      the average, then at most one high 6-month NRR flag below 90; a month
      the averages lack raises nothing. */
  lemma FlagsCorrect(m: CohortMetrics)
    ensures var fs, r, n := Flags(m), m.avgRetentionByMonth, m.avgNrrByMonth;
      && |fs| <= 2
      && (forall v :: Flag(High, ThreeMonthRetention, v) in fs <==> "M3" in r && r["M3"] == v && v < 70.0)
      && (forall v :: Flag(Medium, ThreeMonthRetention, v) in fs <==> "M3" in r && r["M3"] == v && 70.0 <= v < 85.0)
      && (forall v :: Flag(High, SixMonthNrr, v) in fs <==> "M6" in n && n["M6"] == v && v < 90.0)
      && (forall v :: Flag(Medium, SixMonthNrr, v) !in fs)
      && (|fs| == 2 ==> fs[0].metric == ThreeMonthRetention && fs[1].metric == SixMonthNrr)
  {
  }
}
