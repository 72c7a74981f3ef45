/** The round modeler (skills/cap-table-modeling/scripts/model_round.py):
    the option-pool shuffle, pricing a round on the nominal pre-money
    valuation, issuing the investor's shares by truncation, and the
    post-money table with every holder's diluted percentage. */
module RoundModel {
  import opened Wrappers
  import opened Text
  import opened ParseCapTable

  datatype RoundTerms = RoundTerms(
    roundName: string,
    investmentAmount: real,
    preMoneyValuation: real,
    postMoneyValuation: real,
    pricePerShare: real,
    newSharesIssued: nat,
    optionPoolIncrease: real,
    liquidationPreference: real,
    participating: bool,
    participationCap: real,
    antiDilution: string,
    proRataRights: bool)

  datatype DilutionImpact = DilutionImpact(
    holderName: string,
    holderType: string,
    preRoundShares: nat,
    preRoundPct: real,
    postRoundShares: nat,
    postRoundPct: real,
    dilutionPct: real)

  /** The post-money table: the totals it reports and its holders. */
  datatype PostMoneyTable = PostMoneyTable(
    totalSharesOutstanding: nat,
    fullyDilutedShares: nat,
    optionPoolShares: nat,
    optionPoolPct: real,
    holders: seq<Holder>)

  datatype RoundModel = RoundModel(
    roundTerms: RoundTerms,
    preMoneyCapTable: CapTable,
    postMoneyCapTable: PostMoneyTable,
    dilutionImpacts: seq<DilutionImpact>,
    newInvestorOwnership: real,
    optionPoolPost: real)

  datatype PoolShuffle = PoolShuffle(
    poolIncreaseShares: nat,
    poolIncreasePct: real,
    effectivePreMoney: real)

  // ---------------------------------------------------------------------
  // Option-pool shuffle
  // ---------------------------------------------------------------------

  /** `calculate_option_pool_shuffle`: nothing to do unless the target pool
      exceeds the current one; otherwise the missing percentage of the fully
      diluted count is added (truncated to whole shares) and the effective
      pre-money shrinks by that percentage. */
  function OptionPoolShuffle(preMoney: real, currentPoolPct: real, targetPoolPct: real,
                             fullyDilutedShares: nat): (r: PoolShuffle)
    ensures targetPoolPct <= currentPoolPct ==> r == PoolShuffle(0, 0.0, preMoney)
    ensures targetPoolPct > currentPoolPct ==>
              && r.poolIncreasePct == targetPoolPct - currentPoolPct > 0.0
              && r.poolIncreaseShares as real <= fullyDilutedShares as real * (r.poolIncreasePct / 100.0)
              && fullyDilutedShares as real * (r.poolIncreasePct / 100.0) < r.poolIncreaseShares as real + 1.0
              && r.effectivePreMoney + preMoney * (r.poolIncreasePct / 100.0) == preMoney
  {
    if targetPoolPct <= currentPoolPct then PoolShuffle(0, 0.0, preMoney)
    else
      var additional := targetPoolPct - currentPoolPct;
      var exact := fullyDilutedShares as real * (additional / 100.0);
      ProductNonneg(fullyDilutedShares as real, additional / 100.0);
      PoolShuffle(exact.Floor, additional, preMoney * (1.0 - additional / 100.0))
  }

  lemma ProductNonneg(a: real, b: real)
    requires a >= 0.0 && b >= 0.0
    ensures a * b >= 0.0
  {
  }

  lemma QuotientNonneg(a: real, b: real)
    requires a >= 0.0 && b > 0.0
    ensures a / b >= 0.0
  {
  }

  // ---------------------------------------------------------------------
  // The round
  // ---------------------------------------------------------------------


  /** The dilution record of one existing holder. */
  function ImpactOf(h: Holder, totalPost: nat): DilutionImpact
    requires totalPost > 0
  {
    var post := Percent(h.shares, totalPost);
    DilutionImpact(h.name, h.holderType, h.shares, h.ownershipPct, h.shares, post, h.ownershipPct - post)
  }

  function ImpactsOf(hs: seq<Holder>, totalPost: nat): (r: seq<DilutionImpact>)
    requires totalPost > 0
    ensures |r| == |hs| && forall i :: 0 <= i < |hs| ==> r[i] == ImpactOf(hs[i], totalPost)
  {
    seq(|hs|, i requires 0 <= i < |hs| => ImpactOf(hs[i], totalPost))
  }

  /** A copy of an existing holder with both percentages recomputed. */
  function Rediluted(h: Holder, totalPost: nat): Holder
    requires totalPost > 0
  {
    var pct := Percent(h.shares, totalPost);
    h.(ownershipPct := pct, fullyDilutedPct := pct)
  }

  function RedilutedAll(hs: seq<Holder>, totalPost: nat): (r: seq<Holder>)
    requires totalPost > 0
    ensures |r| == |hs| && forall i :: 0 <= i < |hs| ==> r[i] == Rediluted(hs[i], totalPost)
  {
    seq(|hs|, i requires 0 <= i < |hs| => Rediluted(hs[i], totalPost))
  }

  /** The share class of a round's investor: `preferred_` followed by the
      round name in lower case with spaces turned into underscores. */
  function InvestorClass(roundName: string): string {
    "preferred_" + ReplaceChar(LowerStr(roundName), ' ', '_')
  }

  function NewInvestor(roundName: string, newShares: nat, price: real, investment: real,
                       totalPost: nat): Holder
    requires totalPost > 0
  {
    var pct := Percent(newShares, totalPost);
    Holder(roundName + " Investor", "investor", InvestorClass(roundName), newShares, price,
           investment, pct, pct, None, None, 0)
  }

  /** The caller's obligations: the price divides by the shares after the
      pool expansion and the investment divides by the price. */
  predicate RoundDefined(t: CapTable, investment: real, preMoney: real) {
    t.fullyDilutedShares > 0 && preMoney > 0.0 && investment >= 0.0
  }

  /** Shares after the pool expansion. */
  function SharesAfterPool(t: CapTable, preMoney: real, targetOptionPool: real): nat {
    t.fullyDilutedShares +
    OptionPoolShuffle(preMoney, t.optionPoolPct, targetOptionPool, t.fullyDilutedShares).poolIncreaseShares
  }

  /** Investor shares: the investment divided by the price, truncated. */
  function NewShares(investment: real, price: real): nat
    requires investment >= 0.0 && price > 0.0
  {
    QuotientNonneg(investment, price);
    (investment / price).Floor
  }

  /** The model `model_round` returns. */
  function RoundModelOf(t: CapTable, investment: real, preMoney: real, roundName: string,
                        targetOptionPool: real, liquidationPref: real, participating: bool): RoundModel
    requires RoundDefined(t, investment, preMoney)
  {
    var shuffle := OptionPoolShuffle(preMoney, t.optionPoolPct, targetOptionPool, t.fullyDilutedShares);
    var sharesAfterPool := t.fullyDilutedShares + shuffle.poolIncreaseShares;
    var price := preMoney / sharesAfterPool as real;
    QuotientPositive(preMoney, sharesAfterPool as real);
    var newShares := NewShares(investment, price);
    var totalPost := sharesAfterPool + newShares;
    var terms := RoundTerms(roundName, investment, preMoney, preMoney + investment, price, newShares,
                            shuffle.poolIncreasePct, liquidationPref, participating, 0.0,
                            "broad_weighted_average", true);
    var poolShares := t.optionPoolShares + shuffle.poolIncreaseShares;
    var post := PostMoneyTable(totalPost, totalPost, poolShares, Percent(poolShares, totalPost),
                               RedilutedAll(t.holders, totalPost) +
                               [NewInvestor(roundName, newShares, price, investment, totalPost)]);
    RoundModel(terms, t, post, ImpactsOf(t.holders, totalPost), Percent(newShares, totalPost),
               Percent(poolShares, totalPost))
  }

  lemma QuotientPositive(a: real, b: real)
    requires a > 0.0 && b > 0.0
    ensures a / b > 0.0
  {
  }

  /** `model_round`: shuffle the pool, price the round, then one loop over
      the holders for the dilution records and one for the post-money
      holders, followed by the new investor. */
  method ModelRound(t: CapTable, investment: real, preMoney: real, roundName: string,
                    targetOptionPool: real, liquidationPref: real, participating: bool)
    returns (m: RoundModel)
    requires RoundDefined(t, investment, preMoney)
    ensures m == RoundModelOf(t, investment, preMoney, roundName, targetOptionPool, liquidationPref, participating)
  {
    var shuffle := OptionPoolShuffle(preMoney, t.optionPoolPct, targetOptionPool, t.fullyDilutedShares);
    var sharesAfterPool := t.fullyDilutedShares + shuffle.poolIncreaseShares;
    var postMoney := preMoney + investment;
    var price := preMoney / sharesAfterPool as real;
    QuotientPositive(preMoney, sharesAfterPool as real);
    var newShares := NewShares(investment, price);
    var totalPost := sharesAfterPool + newShares;
    var newInvestorPct := Percent(newShares, totalPost);
    var terms := RoundTerms(roundName, investment, preMoney, postMoney, price, newShares,
                            shuffle.poolIncreasePct, liquidationPref, participating, 0.0,
                            "broad_weighted_average", true);

    var impacts: seq<DilutionImpact> := [];
    var i := 0;
    while i < |t.holders|
      invariant 0 <= i <= |t.holders|
      invariant impacts == ImpactsOf(t.holders[..i], totalPost)
    {
      var h := t.holders[i];
      var postPct := Percent(h.shares, totalPost);
      var dilution := h.ownershipPct - postPct;
      impacts := impacts + [DilutionImpact(h.name, h.holderType, h.shares, h.ownershipPct,
                                           h.shares, postPct, dilution)];
      i := i + 1;
    }
    assert t.holders[..i] == t.holders;

    var postHolders: seq<Holder> := [];
    var j := 0;
    while j < |t.holders|
      invariant 0 <= j <= |t.holders|
      invariant postHolders == RedilutedAll(t.holders[..j], totalPost)
    {
      var h := t.holders[j];
      var pct := Percent(h.shares, totalPost);
      postHolders := postHolders + [h.(ownershipPct := pct, fullyDilutedPct := pct)];
      j := j + 1;
    }
    assert t.holders[..j] == t.holders;
    postHolders := postHolders + [NewInvestor(roundName, newShares, price, investment, totalPost)];

    var poolShares := t.optionPoolShares + shuffle.poolIncreaseShares;
    var optionPoolPost := Percent(poolShares, totalPost);
    var post := PostMoneyTable(totalPost, totalPost, poolShares, optionPoolPost, postHolders);
    m := RoundModel(terms, t, post, impacts, newInvestorPct, optionPoolPost);
  }

  // ---------------------------------------------------------------------
  // Properties
  // ---------------------------------------------------------------------

  /** Pricing: the price times the shares after the pool expansion is the
      nominal pre-money (not the effective one); post-money is pre-money
      plus the investment; and the investor's shares are the largest whole
      number the investment buys. */
  lemma RoundPricing(t: CapTable, investment: real, preMoney: real, roundName: string,
                     targetOptionPool: real, liquidationPref: real, participating: bool)
    requires RoundDefined(t, investment, preMoney)
    ensures var m := RoundModelOf(t, investment, preMoney, roundName, targetOptionPool, liquidationPref, participating);
      var terms := m.roundTerms;
      var sap := SharesAfterPool(t, preMoney, targetOptionPool);
      && terms.pricePerShare * sap as real == preMoney
      && terms.postMoneyValuation == preMoney + investment
      && terms.newSharesIssued as real * terms.pricePerShare <= investment
      && investment < (terms.newSharesIssued as real + 1.0) * terms.pricePerShare
  {
    var m := RoundModelOf(t, investment, preMoney, roundName, targetOptionPool, liquidationPref, participating);
    var sap := SharesAfterPool(t, preMoney, targetOptionPool);
    var price := preMoney / sap as real;
    QuotientPositive(preMoney, sap as real);
    assert m.roundTerms.pricePerShare == price && m.roundTerms.newSharesIssued == NewShares(investment, price);
    PriceBounds(preMoney, sap as real, investment, price, m.roundTerms.newSharesIssued);
  }

  /** The post-money totals count the old shares, the pool increase and
      the new shares, and the pool grows by the increase. */
  lemma RoundTotals(t: CapTable, investment: real, preMoney: real, roundName: string,
                    targetOptionPool: real, liquidationPref: real, participating: bool)
    requires RoundDefined(t, investment, preMoney)
    ensures var m := RoundModelOf(t, investment, preMoney, roundName, targetOptionPool, liquidationPref, participating);
      var inc := OptionPoolShuffle(preMoney, t.optionPoolPct, targetOptionPool, t.fullyDilutedShares).poolIncreaseShares;
      && m.postMoneyCapTable.totalSharesOutstanding == m.postMoneyCapTable.fullyDilutedShares
      && m.postMoneyCapTable.totalSharesOutstanding == t.fullyDilutedShares + inc + m.roundTerms.newSharesIssued
      && m.postMoneyCapTable.optionPoolShares == t.optionPoolShares + inc
  {
  }

  /** The price is pre-money over the shares after the pool, and the shares
      bought are the investment over the price, truncated. */
  lemma PriceBounds(preMoney: real, sap: real, investment: real, price: real, n: nat)
    requires preMoney > 0.0 && sap > 0.0 && investment >= 0.0
    requires price == preMoney / sap && n == (investment / price).Floor
    ensures price * sap == preMoney
    ensures n as real * price <= investment < (n as real + 1.0) * price
  {
    QuotientPositive(preMoney, sap);
    FloorBounds(investment, price);
  }

  lemma FloorBounds(a: real, p: real)
    requires a >= 0.0 && p > 0.0
    ensures (a / p).Floor as real * p <= a
    ensures a < ((a / p).Floor as real + 1.0) * p
  {
    var q := a / p;
    var n := q.Floor as real;
    assert n <= q < n + 1.0;
    assert q * p == a;
    MulLe(n, q, p);
    MulLt(q, n + 1.0, p);
    assert a < (n + 1.0) * p;
  }

  lemma MulLe(x: real, y: real, p: real)
    requires x <= y && p > 0.0
    ensures x * p <= y * p
  {
  }

  lemma MulLt(x: real, y: real, p: real)
    requires x < y && p > 0.0
    ensures x * p < y * p
  {
  }

  /** Existing holders keep their order, their shares and every field but
      the two percentages, which become their fraction of the post-money
      total; that is no more than their fraction of the pre-money fully
      diluted count, and strictly less when they hold shares and the round
      or the pool expansion issued any. A single investor holder is
      appended last, holding the new shares with the investment. */
  lemma PostMoneyHolders(t: CapTable, investment: real, preMoney: real, roundName: string,
                         targetOptionPool: real, liquidationPref: real, participating: bool)
    requires RoundDefined(t, investment, preMoney)
    ensures var m := RoundModelOf(t, investment, preMoney, roundName, targetOptionPool, liquidationPref, participating);
      var post := m.postMoneyCapTable;
      var total := post.totalSharesOutstanding;
      var fd := t.fullyDilutedShares;
      && |post.holders| == |t.holders| + 1
      && (forall i :: 0 <= i < |t.holders| ==>
            && post.holders[i] == t.holders[i].(ownershipPct := post.holders[i].ownershipPct,
                                                fullyDilutedPct := post.holders[i].ownershipPct)
            && post.holders[i].ownershipPct == t.holders[i].shares as real / total as real * 100.0
            && post.holders[i].ownershipPct <= t.holders[i].shares as real / fd as real * 100.0
            && (t.holders[i].shares > 0 && total > fd ==>
                  post.holders[i].ownershipPct < t.holders[i].shares as real / fd as real * 100.0))
      && var inv := post.holders[|t.holders|];
         && inv.name == roundName + " Investor" && inv.holderType == "investor"
         && inv.shareClass == InvestorClass(roundName)
         && inv.shares == m.roundTerms.newSharesIssued && inv.invested == investment
         && inv.pricePerShare == m.roundTerms.pricePerShare
         && inv.ownershipPct == m.newInvestorOwnership == inv.shares as real / total as real * 100.0
  {
    var m := RoundModelOf(t, investment, preMoney, roundName, targetOptionPool, liquidationPref, participating);
    var total := m.postMoneyCapTable.totalSharesOutstanding;
    var fd := t.fullyDilutedShares;
    assert total >= fd;
    forall i | 0 <= i < |t.holders|
      ensures Percent(t.holders[i].shares, total) <= t.holders[i].shares as real / fd as real * 100.0
      ensures t.holders[i].shares > 0 && total > fd ==>
                Percent(t.holders[i].shares, total) < t.holders[i].shares as real / fd as real * 100.0
    {
      LargerWholeSmallerPercent(t.holders[i].shares, fd, total);
    }
  }

  /** A fixed part is a smaller percentage of a larger whole. */
  lemma LargerWholeSmallerPercent(part: nat, small: nat, large: nat)
    requires 0 < small <= large
    ensures part as real / large as real * 100.0 <= part as real / small as real * 100.0
    ensures part > 0 && small < large ==>
              part as real / large as real * 100.0 < part as real / small as real * 100.0
  {
    var p, s, l := part as real, small as real, large as real;
    assert p / l == p * (1.0 / l);
    assert p / s == p * (1.0 / s);
    assert 1.0 / l <= 1.0 / s by { InverseAntitone(s, l); }
    if part > 0 && small < large {
      assert 1.0 / l < 1.0 / s by { InverseAntitone(s, l); }
    }
  }

  lemma InverseAntitone(s: real, l: real)
    requires 0.0 < s <= l
    ensures 1.0 / l <= 1.0 / s
    ensures s < l ==> 1.0 / l < 1.0 / s
  {
    assert (1.0 / l) * l == 1.0;
    assert (1.0 / s) * s == 1.0;
  }

  /** One dilution record per existing holder, in order: shares unchanged,
      the pre-round percentage as supplied, the post-round percentage as in
      the post-money table, the dilution their difference; when a holder's
      supplied percentage is its fraction of the fully diluted count, its
      dilution is not negative. */
  lemma DilutionRecords(t: CapTable, investment: real, preMoney: real, roundName: string,
                        targetOptionPool: real, liquidationPref: real, participating: bool)
    requires RoundDefined(t, investment, preMoney)
    ensures var m := RoundModelOf(t, investment, preMoney, roundName, targetOptionPool, liquidationPref, participating);
      && |m.dilutionImpacts| == |t.holders|
      && forall i :: 0 <= i < |t.holders| ==>
           var d, h := m.dilutionImpacts[i], t.holders[i];
           && d.holderName == h.name && d.holderType == h.holderType
           && d.preRoundShares == d.postRoundShares == h.shares
           && d.preRoundPct == h.ownershipPct
           && d.postRoundPct == m.postMoneyCapTable.holders[i].ownershipPct
           && d.dilutionPct == d.preRoundPct - d.postRoundPct
           && (h.ownershipPct == h.shares as real / t.fullyDilutedShares as real * 100.0 ==> d.dilutionPct >= 0.0)
  {
    var m := RoundModelOf(t, investment, preMoney, roundName, targetOptionPool, liquidationPref, participating);
    var total := m.postMoneyCapTable.totalSharesOutstanding;
    forall i | 0 <= i < |t.holders|
      ensures Percent(t.holders[i].shares, total) <= t.holders[i].shares as real / t.fullyDilutedShares as real * 100.0
    {
      LargerWholeSmallerPercent(t.holders[i].shares, t.fullyDilutedShares, total);
    }
  }

  lemma {:induction false} RedilutedShares(hs: seq<Holder>, total: nat)
    requires total > 0
    ensures HolderShares(RedilutedAll(hs, total)) == HolderShares(hs)
    ensures OwnershipSum(RedilutedAll(hs, total)) == HolderShares(hs) as real / total as real * 100.0
  {
    if |hs| > 0 {
      var n := |hs| - 1;
      assert RedilutedAll(hs, total)[..n] == RedilutedAll(hs[..n], total);
      RedilutedShares(hs[..n], total);
      PercentAdd(HolderShares(hs[..n]) as real, hs[n].shares as real, total as real);
    }
  }

  /** Share accounting: the post-money holders hold the pre-money holders'
      shares plus the new shares; when the pre-money holders account for the
      whole fully diluted count, they fall short of the post-money total by
      exactly the pool increase, which no holder is credited with, and the
      post-money percentages then add up to 100 less the pool increase's
      percentage. */
  lemma ShareAccounting(t: CapTable, investment: real, preMoney: real, roundName: string,
                        targetOptionPool: real, liquidationPref: real, participating: bool)
    requires RoundDefined(t, investment, preMoney)
    ensures var m := RoundModelOf(t, investment, preMoney, roundName, targetOptionPool, liquidationPref, participating);
      var post := m.postMoneyCapTable;
      var inc := OptionPoolShuffle(preMoney, t.optionPoolPct, targetOptionPool, t.fullyDilutedShares).poolIncreaseShares;
      && HolderShares(post.holders) == HolderShares(t.holders) + m.roundTerms.newSharesIssued
      && (HolderShares(t.holders) == t.fullyDilutedShares ==>
            && HolderShares(post.holders) + inc == post.totalSharesOutstanding
            && OwnershipSum(post.holders) + Percent(inc, post.totalSharesOutstanding) == 100.0)
  {
    var m := RoundModelOf(t, investment, preMoney, roundName, targetOptionPool, liquidationPref, participating);
    var post := m.postMoneyCapTable;
    var total := post.totalSharesOutstanding;
    var inc := OptionPoolShuffle(preMoney, t.optionPoolPct, targetOptionPool, t.fullyDilutedShares).poolIncreaseShares;
    var re := RedilutedAll(t.holders, total);
    var inv := post.holders[|t.holders|];
    assert post.holders == re + [inv];
    assert (re + [inv])[..|re|] == re;
    RedilutedShares(t.holders, total);
    if HolderShares(t.holders) == t.fullyDilutedShares {
      var a, b, c := HolderShares(t.holders) as real, inv.shares as real, total as real;
      PercentAdd(a, b, c);
      PercentAdd(a + b, inc as real, c);
      assert a + b + inc as real == c;
      WholeIsHundred(c);
    }
  }

  /** The post-round pool percentage counts the old pool and the increase. */
  lemma PoolPost(t: CapTable, investment: real, preMoney: real, roundName: string,
                 targetOptionPool: real, liquidationPref: real, participating: bool)
    requires RoundDefined(t, investment, preMoney)
    ensures var m := RoundModelOf(t, investment, preMoney, roundName, targetOptionPool, liquidationPref, participating);
      var post := m.postMoneyCapTable;
      && m.optionPoolPost == post.optionPoolPct
      && m.optionPoolPost * post.totalSharesOutstanding as real == post.optionPoolShares as real * 100.0
      && m.roundTerms.optionPoolIncrease ==
           OptionPoolShuffle(preMoney, t.optionPoolPct, targetOptionPool, t.fullyDilutedShares).poolIncreasePct
  {
    var m := RoundModelOf(t, investment, preMoney, roundName, targetOptionPool, liquidationPref, participating);
    var post := m.postMoneyCapTable;
    PercentTimesWhole(post.optionPoolShares, post.totalSharesOutstanding);
  }

  lemma PercentTimesWhole(part: nat, whole: nat)
    requires whole > 0
    ensures Percent(part, whole) * whole as real == part as real * 100.0
  {
    var p, w := part as real, whole as real;
    assert p / w * w == p;
  }

  function ExampleHolder(name: string, shares: nat, pct: real): Holder {
    Holder(name, "founder", "common", shares, 0.0, 0.0, pct, pct, None, None, 0)
  }

  /** Two founders holding 6,000,000 and 4,000,000 shares, no pool. */
  function ExampleTable(): CapTable {
    CapTable("Unknown", "", 10000000, 10000000, 10000000, [],
             [ExampleHolder("Founder A", 6000000, 60.0), ExampleHolder("Founder B", 4000000, 40.0)],
             0, 0.0)
  }

  /** $2M at an $8M pre-money on that table prices shares at $0.80, issues
      2,500,000 new shares for a 12,500,000 total, leaves Founder A with 48%
      and gives the investor 20%. */
  lemma WorkedExample()
    ensures var m := RoundModelOf(ExampleTable(), 2000000.0, 8000000.0, "Series A", 0.0, 1.0, false);
      && m.roundTerms.pricePerShare == 0.8
      && m.roundTerms.newSharesIssued == 2500000
      && m.postMoneyCapTable.totalSharesOutstanding == 12500000
      && m.postMoneyCapTable.holders[0].ownershipPct == 48.0
      && m.newInvestorOwnership == 20.0
      && m.postMoneyCapTable.holders[2].shareClass == "preferred_series_a"
  {
    var t := ExampleTable();
    assert OptionPoolShuffle(8000000.0, 0.0, 0.0, 10000000).poolIncreaseShares == 0;
    assert 8000000.0 / 10000000.0 == 0.8;
    assert 2000000.0 / 0.8 == 2500000.0;
    assert NewShares(2000000.0, 0.8) == 2500000;
    assert LowerStr("Series A") == "series a";
    assert ReplaceChar("series a", ' ', '_') == "series_a";
  }
}
