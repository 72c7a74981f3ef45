/** SaaS metric arithmetic and threshold flags
    (skills/saas-metrics/scripts/calculate_metrics.py). */
module SaasMetrics {
  import opened Wrappers

  // ---------------------------------------------------------------------
  // MRR, ARR and month-over-month growth
  // ---------------------------------------------------------------------

  datatype MrrMetrics = MrrMetrics(mrr: real, arr: real, mrrGrowthMom: real, arrGrowthYoy: real)

  /** The MRR metrics of the latest month, from its MRR and the previous
      month's; the growth is unrounded. */
  function MrrMetricsOf(currentMrr: real, prevMrr: real): (m: MrrMetrics)
    ensures m.mrr == currentMrr && m.arrGrowthYoy == 0.0
    ensures prevMrr <= 0.0 ==> m.mrrGrowthMom == 0.0
  {
    var growth := if prevMrr > 0.0 then (currentMrr - prevMrr) / prevMrr * 100.0 else 0.0;
    MrrMetrics(currentMrr, currentMrr * 12.0, growth, 0.0)
  }

  /** ARR annualises MRR: twelve months of it. */
  lemma ArrIsTwelveMonths(currentMrr: real, prevMrr: real)
    ensures var m := MrrMetricsOf(currentMrr, prevMrr);
      m.arr / 12.0 == m.mrr && (m.arr > 0.0 <==> m.mrr > 0.0)
  {
  }

  /** With a positive previous MRR, growing the previous MRR by the
      reported percentage gives back the current MRR, and the growth has
      the sign of the change. */
  lemma MrrGrowthRoundTrip(currentMrr: real, prevMrr: real)
    requires prevMrr > 0.0
    ensures var g := MrrMetricsOf(currentMrr, prevMrr).mrrGrowthMom;
      && prevMrr * (1.0 + g / 100.0) == currentMrr
      && (g > 0.0 <==> currentMrr > prevMrr)
      && (g == 0.0 <==> currentMrr == prevMrr)
      && (currentMrr >= 0.0 ==> g >= -100.0)
  {
    var g := MrrMetricsOf(currentMrr, prevMrr).mrrGrowthMom;
    var q := (currentMrr - prevMrr) / prevMrr;
    assert g == q * 100.0;
    assert q * prevMrr == currentMrr - prevMrr;
    assert g / 100.0 == q;
  }

  // ---------------------------------------------------------------------
  // Flags
  // ---------------------------------------------------------------------

  datatype Severity = High | Medium

  datatype Metric = LtvCacRatio | GrossChurnRate | NetRevenueRetention | BurnMultiple | RunwayMonths

  /** A warning flag; its message is fixed by the metric and severity. */
  datatype Flag = Flag(severity: Severity, metric: Metric)

  /** The metrics the flags read; `None` is a key the dictionary lacks. */
  datatype Metrics = Metrics(
    ltvCacRatio: Option<real>,
    grossChurnRate: Option<real>,
    netRevenueRetention: Option<real>,
    burnMultiple: Option<real>,
    runwayMonths: Option<real>)

  /** The order in which the thresholds are checked. */
  const CheckOrder: seq<Metric> := [LtvCacRatio, GrossChurnRate, NetRevenueRetention, BurnMultiple, RunwayMonths]

  function Rank(metric: Metric): nat {
    match metric
    case LtvCacRatio => 0
    case GrossChurnRate => 1
    case NetRevenueRetention => 2
    case BurnMultiple => 3
    case RunwayMonths => 4
  }

  /** The threshold rule of one metric, with the dictionary defaults:
      missing LTV:CAC, churn and burn multiple read as 0, missing NRR as
      100 and missing runway as 999 months. */
  function SeverityOf(m: Metrics, metric: Metric): Option<Severity> {
    match metric
    case LtvCacRatio =>
      var v := m.ltvCacRatio.GetOr(0.0);
      if v < 2.0 then Some(High) else if v < 3.0 then Some(Medium) else None
    case GrossChurnRate => if m.grossChurnRate.GetOr(0.0) > 5.0 then Some(High) else None
    case NetRevenueRetention => if m.netRevenueRetention.GetOr(100.0) < 100.0 then Some(High) else None
    case BurnMultiple => if m.burnMultiple.GetOr(0.0) > 2.5 then Some(High) else None
    case RunwayMonths => if m.runwayMonths.GetOr(999.0) < 12.0 then Some(High) else None
  }

  /** The flags the rules of `ms` raise, in the order of `ms`. */
  function FlagsOver(m: Metrics, ms: seq<Metric>): seq<Flag> {
    if |ms| == 0 then []
    else
      var last := ms[|ms| - 1];
      FlagsOver(m, ms[..|ms| - 1]) + (if SeverityOf(m, last).Some? then [Flag(SeverityOf(m, last).value, last)] else [])
  }

  function Flags(m: Metrics): seq<Flag> {
    FlagsOver(m, CheckOrder)
  }

  /** `generate_flags`: one threshold check after another, each appending
      at most one flag. */
  method GenerateFlags(m: Metrics) returns (flags: seq<Flag>)
    ensures flags == Flags(m)
  {
    flags := [];
    if m.ltvCacRatio.GetOr(0.0) < 2.0 {
      flags := flags + [Flag(High, LtvCacRatio)];
    } else if m.ltvCacRatio.GetOr(0.0) < 3.0 {
      flags := flags + [Flag(Medium, LtvCacRatio)];
    }
    assert flags == FlagsOver(m, CheckOrder[..1]) by { CheckOrderStep(m, 1); }
    if m.grossChurnRate.GetOr(0.0) > 5.0 {
      flags := flags + [Flag(High, GrossChurnRate)];
    }
    assert flags == FlagsOver(m, CheckOrder[..2]) by { CheckOrderStep(m, 2); }
    if m.netRevenueRetention.GetOr(100.0) < 100.0 {
      flags := flags + [Flag(High, NetRevenueRetention)];
    }
    assert flags == FlagsOver(m, CheckOrder[..3]) by { CheckOrderStep(m, 3); }
    if m.burnMultiple.GetOr(0.0) > 2.5 {
      flags := flags + [Flag(High, BurnMultiple)];
    }
    assert flags == FlagsOver(m, CheckOrder[..4]) by { CheckOrderStep(m, 4); }
    if m.runwayMonths.GetOr(999.0) < 12.0 {
      flags := flags + [Flag(High, RunwayMonths)];
    }
    assert flags == FlagsOver(m, CheckOrder[..5]) by { CheckOrderStep(m, 5); }
    assert CheckOrder[..5] == CheckOrder;
  }

  lemma CheckOrderStep(m: Metrics, k: nat)
    requires 1 <= k <= 5
    ensures FlagsOver(m, CheckOrder[..k]) == FlagsOver(m, CheckOrder[..k - 1]) +
      (if SeverityOf(m, CheckOrder[k - 1]).Some? then [Flag(SeverityOf(m, CheckOrder[k - 1]).value, CheckOrder[k - 1])] else [])
  {
    assert CheckOrder[..k][..k - 1] == CheckOrder[..k - 1];
  }

  /** A flag is raised exactly for the metrics of `ms` whose rule fires,
      with the rule's severity, and the flags follow the order of `ms`. */
  lemma FlagsOverCorrect(m: Metrics, ms: seq<Metric>)
    requires forall i, j :: 0 <= i < j < |ms| ==> Rank(ms[i]) < Rank(ms[j])
    ensures var fs := FlagsOver(m, ms);
      && |fs| <= |ms|
      && (forall f :: f in fs <==> f.metric in ms && SeverityOf(m, f.metric) == Some(f.severity))
      && (forall i, j :: 0 <= i < j < |fs| ==> Rank(fs[i].metric) < Rank(fs[j].metric))
  {
    FlagsOverMembers(m, ms);
    FlagsOverOrdered(m, ms);
  }

  /** At most one flag per metric of `ms`, and a flag exactly for each
      metric whose rule fires, with the rule's severity. */
  lemma {:induction false} FlagsOverMembers(m: Metrics, ms: seq<Metric>)
    ensures |FlagsOver(m, ms)| <= |ms|
    ensures forall f :: f in FlagsOver(m, ms) <==> f.metric in ms && SeverityOf(m, f.metric) == Some(f.severity)
  {
    if |ms| > 0 {
      var init, last := ms[..|ms| - 1], ms[|ms| - 1];
      FlagsOverMembers(m, init);
      assert ms == init + [last];
      forall f ensures f in FlagsOver(m, ms) <==> f.metric in ms && SeverityOf(m, f.metric) == Some(f.severity) {
        assert f.metric in ms <==> f.metric in init || f.metric == last;
      }
    }
  }

  /** The flags follow the order of `ms` when `ms` is in rank order. */
  lemma {:induction false} FlagsOverOrdered(m: Metrics, ms: seq<Metric>)
    requires forall i, j :: 0 <= i < j < |ms| ==> Rank(ms[i]) < Rank(ms[j])
    ensures forall i, j :: 0 <= i < j < |FlagsOver(m, ms)| ==> Rank(FlagsOver(m, ms)[i].metric) < Rank(FlagsOver(m, ms)[j].metric)
  {
    if |ms| > 0 {
      var init, last := ms[..|ms| - 1], ms[|ms| - 1];
      FlagsOverOrdered(m, init);
      FlagsOverMembers(m, init);
      var fs, prev := FlagsOver(m, ms), FlagsOver(m, init);
      forall f | f in prev ensures Rank(f.metric) < Rank(last) {
        var i :| 0 <= i < |init| && init[i] == f.metric;
      }
      forall i, j | 0 <= i < j < |fs| ensures Rank(fs[i].metric) < Rank(fs[j].metric) {
        if j >= |prev| {
          assert fs[i] in prev;
        }
      }
    }
  }

  /** What `generate_flags` promises: at most one LTV:CAC flag, high below
      2 and medium below 3; one high flag for each other threshold crossed
      (strictly); no flag otherwise; at most five, in check order. */
  lemma FlagsCorrect(m: Metrics)
    ensures var fs, ltv := Flags(m), m.ltvCacRatio.GetOr(0.0);
      && (Flag(High, LtvCacRatio) in fs <==> ltv < 2.0)
      && (Flag(Medium, LtvCacRatio) in fs <==> 2.0 <= ltv < 3.0)
      && (Flag(High, GrossChurnRate) in fs <==> m.grossChurnRate.GetOr(0.0) > 5.0)
      && (Flag(High, NetRevenueRetention) in fs <==> m.netRevenueRetention.GetOr(100.0) < 100.0)
      && (Flag(High, BurnMultiple) in fs <==> m.burnMultiple.GetOr(0.0) > 2.5)
      && (Flag(High, RunwayMonths) in fs <==> m.runwayMonths.GetOr(999.0) < 12.0)
      && (forall f :: f in fs && f.severity == Medium ==> f.metric == LtvCacRatio)
  {
    FlagsOverCorrect(m, CheckOrder);
    var fs := Flags(m);
    assert forall metric :: metric in CheckOrder by {
      forall metric ensures metric in CheckOrder {
        assert CheckOrder[Rank(metric)] == metric;
      }
    }
  }

  /** The flags come in check order, one at most per metric. */
  lemma FlagsOrdered(m: Metrics)
    ensures |Flags(m)| <= 5
    ensures forall i, j :: 0 <= i < j < |Flags(m)| ==> Rank(Flags(m)[i].metric) < Rank(Flags(m)[j].metric)
  {
    FlagsOverCorrect(m, CheckOrder);
  }

  /** Without any metric, only the LTV:CAC default of 0 raises a flag. */
  lemma NoMetricsFlagsLtv()
    ensures Flags(Metrics(None, None, None, None, None)) == [Flag(High, LtvCacRatio)]
  {
    var m := Metrics(None, None, None, None, None);
    CheckOrderStep(m, 1);
    CheckOrderStep(m, 2);
    CheckOrderStep(m, 3);
    CheckOrderStep(m, 4);
    CheckOrderStep(m, 5);
    assert CheckOrder[..5] == CheckOrder;
  }
}
