/** The ownership metrics the Carta client extracts from a cap table
    (`CartaClient.extract_ownership_metrics`,
    skills/carta-integration/scripts/carta_client.py). */
module CartaOwnership {
  import opened Wrappers
  import opened Text

  /** A stakeholder object; `None` is a key the object lacks. */
  datatype Stakeholder = Stakeholder(fullyDilutedShares: Option<real>, category: Option<string>)

  /** The cap-table object the client reads. */
  datatype CapTableJson = CapTableJson(
    capType: Option<string>,
    fullyDilutedShares: Option<real>,
    issuedShares: Option<real>,
    stakeholders: Option<seq<Stakeholder>>)

  datatype OwnershipMetrics = OwnershipMetrics(
    capType: Option<string>,
    fullyDilutedShares: real,
    issuedShares: real,
    stakeholderCount: nat,
    foundersPct: real,
    investorsPct: real,
    employeesPct: real,
    optionPoolPct: real)

  datatype Bucket = Founders | Investors | Employees | OptionPool

  /** The bucket of a category, matched on its lower-cased text with the
      precedence founder, investor, employee, pool or option; no bucket
      otherwise. */
  function BucketOf(category: string): Option<Bucket> {
    var c := LowerStr(category);
    if Contains(c, "founder") then Some(Founders)
    else if Contains(c, "investor") then Some(Investors)
    else if Contains(c, "employee") then Some(Employees)
    else if Contains(c, "pool") || Contains(c, "option") then Some(OptionPool)
    else None
  }

  /** The precedence, both ways: a category lands in a bucket exactly when
      it names that bucket and none ranked before it. */
  lemma BucketOfPrecedence(category: string)
    ensures var b, c := BucketOf(category), LowerStr(category);
      && (b == Some(Founders) <==> Contains(c, "founder"))
      && (b == Some(Investors) <==> !Contains(c, "founder") && Contains(c, "investor"))
      && (b == Some(Employees) <==> !Contains(c, "founder") && !Contains(c, "investor") && Contains(c, "employee"))
      && (b == Some(OptionPool) <==> !Contains(c, "founder") && !Contains(c, "investor") && !Contains(c, "employee")
                                     && (Contains(c, "pool") || Contains(c, "option")))
      && (b == None <==> !Contains(c, "founder") && !Contains(c, "investor") && !Contains(c, "employee")
                         && !Contains(c, "pool") && !Contains(c, "option"))
  {
  }

  /** Lower-casing the category first changes nothing. */
  lemma BucketOfCaseInsensitive(category: string)
    ensures BucketOf(LowerStr(category)) == BucketOf(category)
  {
    LowerStrIdempotent(category);
  }

  /** A stakeholder without a category belongs to no bucket. */
  lemma MissingCategoryUnmatched()
    ensures BucketOf(Stakeholder(None, None).category.GetOr("")) == None
  {
    assert LowerStr("") == "";
  }

  function SharesOf(sh: Stakeholder): real {
    sh.fullyDilutedShares.GetOr(0.0)
  }

  function CategoryOf(sh: Stakeholder): string {
    sh.category.GetOr("")
  }

  /** A stakeholder's percentage of the fully diluted shares. */
  function Pct(sh: Stakeholder, total: real): real
    requires total > 0.0
  {
    SharesOf(sh) / total * 100.0
  }

  /** The percentages of the stakeholders in bucket `b` (`None`: in no
      bucket), summed. */
  function BucketPct(shs: seq<Stakeholder>, total: real, b: Option<Bucket>): real
    requires total > 0.0
  {
    if |shs| == 0 then 0.0
    else
      var sh := shs[|shs| - 1];
      BucketPct(shs[..|shs| - 1], total, b) + (if BucketOf(CategoryOf(sh)) == b then Pct(sh, total) else 0.0)
  }

  /** The percentages of all stakeholders, summed. */
  function TotalPct(shs: seq<Stakeholder>, total: real): real
    requires total > 0.0
  {
    if |shs| == 0 then 0.0 else TotalPct(shs[..|shs| - 1], total) + Pct(shs[|shs| - 1], total)
  }

  function SharesSum(shs: seq<Stakeholder>): real {
    if |shs| == 0 then 0.0 else SharesSum(shs[..|shs| - 1]) + SharesOf(shs[|shs| - 1])
  }

  /** `extract_ownership_metrics`: the counts and share totals copied, then
      each stakeholder's percentage added to its bucket, when the fully
      diluted total is positive. */
  method ExtractOwnershipMetrics(capTable: CapTableJson) returns (metrics: OwnershipMetrics)
    ensures metrics.capType == capTable.capType
    ensures metrics.fullyDilutedShares == capTable.fullyDilutedShares.GetOr(0.0)
    ensures metrics.issuedShares == capTable.issuedShares.GetOr(0.0)
    ensures metrics.stakeholderCount == |capTable.stakeholders.GetOr([])|
    ensures var shs, total := capTable.stakeholders.GetOr([]), metrics.fullyDilutedShares;
      if total > 0.0 then
        && metrics.foundersPct == BucketPct(shs, total, Some(Founders))
        && metrics.investorsPct == BucketPct(shs, total, Some(Investors))
        && metrics.employeesPct == BucketPct(shs, total, Some(Employees))
        && metrics.optionPoolPct == BucketPct(shs, total, Some(OptionPool))
      else
        metrics.foundersPct == 0.0 && metrics.investorsPct == 0.0 &&
        metrics.employeesPct == 0.0 && metrics.optionPoolPct == 0.0
  {
    metrics := OwnershipMetrics(capTable.capType, capTable.fullyDilutedShares.GetOr(0.0),
                                capTable.issuedShares.GetOr(0.0), 0, 0.0, 0.0, 0.0, 0.0);
    var stakeholders := capTable.stakeholders.GetOr([]);
    metrics := metrics.(stakeholderCount := |stakeholders|);
    var totalFd := metrics.fullyDilutedShares;
    if totalFd > 0.0 {
      for i := 0 to |stakeholders|
        invariant metrics.capType == capTable.capType && metrics.fullyDilutedShares == totalFd
        invariant metrics.issuedShares == capTable.issuedShares.GetOr(0.0)
        invariant metrics.stakeholderCount == |stakeholders|
        invariant metrics.foundersPct == BucketPct(stakeholders[..i], totalFd, Some(Founders))
        invariant metrics.investorsPct == BucketPct(stakeholders[..i], totalFd, Some(Investors))
        invariant metrics.employeesPct == BucketPct(stakeholders[..i], totalFd, Some(Employees))
        invariant metrics.optionPoolPct == BucketPct(stakeholders[..i], totalFd, Some(OptionPool))
      {
        var sh := stakeholders[i];
        var shares := sh.fullyDilutedShares.GetOr(0.0);
        var pct := (shares / totalFd) * 100.0;
        var category := LowerStr(sh.category.GetOr(""));
        assert stakeholders[..i + 1][..i] == stakeholders[..i];
        BucketOfCaseInsensitive(sh.category.GetOr(""));
        if Contains(category, "founder") {
          metrics := metrics.(foundersPct := metrics.foundersPct + pct);
        } else if Contains(category, "investor") {
          metrics := metrics.(investorsPct := metrics.investorsPct + pct);
        } else if Contains(category, "employee") {
          metrics := metrics.(employeesPct := metrics.employeesPct + pct);
        } else if Contains(category, "pool") || Contains(category, "option") {
          metrics := metrics.(optionPoolPct := metrics.optionPoolPct + pct);
        }
      }
      assert stakeholders[..|stakeholders|] == stakeholders;
    }
  }

  /** Every stakeholder is counted in exactly one of the four buckets or in
      none: the bucket sums and the unmatched sum add up to the whole. */
  lemma {:induction false} BucketsPartition(shs: seq<Stakeholder>, total: real)
    requires total > 0.0
    ensures BucketPct(shs, total, Some(Founders)) + BucketPct(shs, total, Some(Investors))
          + BucketPct(shs, total, Some(Employees)) + BucketPct(shs, total, Some(OptionPool))
          + BucketPct(shs, total, None) == TotalPct(shs, total)
  {
    if |shs| > 0 {
      BucketsPartition(shs[..|shs| - 1], total);
    }
  }

  /** With no negative share counts every bucket is non-negative and
      bounded by the whole. */
  lemma {:induction false} BucketNonNegative(shs: seq<Stakeholder>, total: real, b: Option<Bucket>)
    requires total > 0.0
    requires forall i :: 0 <= i < |shs| ==> SharesOf(shs[i]) >= 0.0
    ensures 0.0 <= BucketPct(shs, total, b)
  {
    if |shs| > 0 {
      BucketNonNegative(shs[..|shs| - 1], total, b);
      var sh := shs[|shs| - 1];
      assert SharesOf(sh) >= 0.0;
      assert Pct(sh, total) >= 0.0;
    }
  }

  /** The summed percentages are the summed shares over the total. */
  lemma {:induction false} TotalPctScales(shs: seq<Stakeholder>, total: real)
    requires total > 0.0
    ensures TotalPct(shs, total) == SharesSum(shs) / total * 100.0
  {
    if |shs| > 0 {
      TotalPctScales(shs[..|shs| - 1], total);
      var a, b := SharesSum(shs[..|shs| - 1]), SharesOf(shs[|shs| - 1]);
      assert a / total * 100.0 + b / total * 100.0 == (a + b) / total * 100.0;
    }
  }

  /** The four reported percentages never exceed the percentage of all
      stakeholders together, and stay within 100 when the stakeholders'
      shares do not exceed the fully diluted total. */
  lemma BucketsBounded(shs: seq<Stakeholder>, total: real)
    requires total > 0.0
    requires forall i :: 0 <= i < |shs| ==> SharesOf(shs[i]) >= 0.0
    ensures var sum := BucketPct(shs, total, Some(Founders)) + BucketPct(shs, total, Some(Investors))
                     + BucketPct(shs, total, Some(Employees)) + BucketPct(shs, total, Some(OptionPool));
      && sum <= TotalPct(shs, total)
      && (SharesSum(shs) <= total ==> sum <= 100.0)
  {
    BucketsPartition(shs, total);
    BucketNonNegative(shs, total, None);
    TotalPctScales(shs, total);
    if SharesSum(shs) <= total {
      assert SharesSum(shs) / total <= 1.0;
    }
  }
}
