/** The risk scorecard (skills/risk-framework/scripts/generate_scorecard.py):
    three risks scored from the company's metrics, eight left at a neutral
    default, a weighted total, the veto rules and the recommendation tier. */
module Scorecard {
  import opened Wrappers

  /** The metrics the scorers read; `None` is a key the metrics dictionary
      does not have. */
  datatype Metrics = Metrics(
    ltvCacRatio: Option<real>,
    grossMargin: Option<real>,
    netRevenueRetention: Option<real>,
    runwayMonths: Option<real>,
    burnMultiple: Option<real>,
    mrrGrowthMom: Option<real>,
    grossChurnRate: Option<real>)

  /** The evidence and concern messages, carrying the value they quote. */
  datatype Note =
    | StrongLtvCac(ltvCac: real) | HealthyLtvCac(ltvCac: real) | WeakLtvCac(ltvCac: real)
    | SaasGradeMargins(margin: real) | AcceptableMargins(margin: real) | BelowAverageMargins(margin: real)
    | ExcellentNrr(nrr: real) | GoodNrr(nrr: real) | ShrinkingNrr(nrr: real)
    | StrongRunway(months: real) | AdequateRunway(months: real) | LimitedRunway(months: real)
    | CriticalRunway(months: real)
    | EfficientBurn(multiple: real) | ReasonableBurn(multiple: real) | HighBurn(multiple: real)
    | InefficientBurn(multiple: real)
    | ExceptionalGrowth(growth: real) | StrongGrowth(growth: real) | ModerateGrowth(growth: real)
    | SlowGrowth(growth: real) | FlatGrowth
    | ExcellentRetention(churn: real) | GoodRetention(churn: real) | ElevatedChurn(churn: real)
    | HighChurn(churn: real)
    | ManualAssessment

  datatype RiskScore = RiskScore(
    riskId: nat,
    name: string,
    score: real,
    weight: real,
    evidence: seq<Note>,
    concerns: seq<Note>)

  datatype Risk = Risk(id: nat, name: string, weight: real)

  /** The eleven risks and their weights. */
  const Risks: seq<Risk> := [
    Risk(1, "Market Timing", 0.05),
    Risk(2, "Business Model", 0.12),
    Risk(3, "Market Adoption", 0.10),
    Risk(4, "Market Size", 0.12),
    Risk(5, "Execution", 0.10),
    Risk(6, "Technology", 0.08),
    Risk(7, "Capitalization", 0.08),
    Risk(8, "Competition", 0.08),
    Risk(9, "Team", 0.15),
    Risk(10, "Regulatory/Legal", 0.05),
    Risk(11, "Exit Potential", 0.07)
  ]

  function RiskWeights(rs: seq<Risk>): real {
    if |rs| == 0 then 0.0 else RiskWeights(rs[..|rs| - 1]) + rs[|rs| - 1].weight
  }

  /** The weights of the eleven risks add up to one. */
  lemma RiskWeightsSumToOne()
    ensures RiskWeights(Risks) == 1.0
  {
    var rs := Risks;
    assert rs[..0] == [];
    RiskWeightsStep(rs, 1); RiskWeightsStep(rs, 2); RiskWeightsStep(rs, 3); RiskWeightsStep(rs, 4);
    RiskWeightsStep(rs, 5); RiskWeightsStep(rs, 6); RiskWeightsStep(rs, 7); RiskWeightsStep(rs, 8);
    RiskWeightsStep(rs, 9); RiskWeightsStep(rs, 10); RiskWeightsStep(rs, 11);
    assert rs[..11] == rs;
  }

  lemma RiskWeightsStep(rs: seq<Risk>, k: nat)
    requires 0 < k <= |rs|
    ensures RiskWeights(rs[..k]) == RiskWeights(rs[..k - 1]) + rs[k - 1].weight
  {
    assert rs[..k][..k - 1] == rs[..k - 1];
  }

  // ---------------------------------------------------------------------
  // Score steps
  // ---------------------------------------------------------------------

  /** What one metric does to a score: the adjustment and the messages it
      adds to the evidence and to the concerns. */
  datatype Step = Step(delta: real, evidence: seq<Note>, concerns: seq<Note>)

  /** The messages agree with the direction of the adjustment: a raise
      brings only evidence, a cut only a concern, and a step adds at most
      one message. */
  predicate Coherent(s: Step) {
    && |s.evidence| + |s.concerns| <= 1
    && (s.delta > 0.0 ==> |s.evidence| == 1)
    && (s.delta < 0.0 ==> |s.concerns| == 1)
  }

  function LtvCacStep(v: real): (s: Step)
    ensures Coherent(s)
    ensures v <= 0.0 ==> s == Step(0.0, [], [])
  {
    if v >= 4.0 then Step(1.5, [StrongLtvCac(v)], [])
    else if v >= 3.0 then Step(0.5, [HealthyLtvCac(v)], [])
    else if v > 0.0 then Step(-1.5, [], [WeakLtvCac(v)])
    else Step(0.0, [], [])
  }

  function MarginStep(v: real): (s: Step)
    ensures Coherent(s)
    ensures v <= 0.0 ==> s == Step(0.0, [], [])
  {
    if v >= 75.0 then Step(1.0, [SaasGradeMargins(v)], [])
    else if v >= 60.0 then Step(0.0, [AcceptableMargins(v)], [])
    else if v > 0.0 then Step(-1.0, [], [BelowAverageMargins(v)])
    else Step(0.0, [], [])
  }

  function NrrStep(v: real): (s: Step)
    ensures Coherent(s)
  {
    if v >= 120.0 then Step(1.0, [ExcellentNrr(v)], [])
    else if v >= 110.0 then Step(0.5, [GoodNrr(v)], [])
    else if v < 100.0 then Step(-1.5, [], [ShrinkingNrr(v)])
    else Step(0.0, [], [])
  }

  function RunwayStep(v: real): (s: Step)
    ensures Coherent(s)
    ensures v <= 0.0 ==> s == Step(0.0, [], [])
  {
    if v >= 24.0 then Step(1.5, [StrongRunway(v)], [])
    else if v >= 18.0 then Step(0.5, [AdequateRunway(v)], [])
    else if v >= 12.0 then Step(0.0, [], [LimitedRunway(v)])
    else if v > 0.0 then Step(-2.0, [], [CriticalRunway(v)])
    else Step(0.0, [], [])
  }

  /** The burn multiple always adds a message: a value of zero or below
      fails the first test and lands under "reasonable". */
  function BurnStep(v: real): (s: Step)
    ensures Coherent(s) && |s.evidence| + |s.concerns| == 1
    ensures v <= 0.0 ==> s == Step(0.5, [ReasonableBurn(v)], [])
  {
    if v > 0.0 && v <= 1.0 then Step(1.5, [EfficientBurn(v)], [])
    else if v <= 1.5 then Step(0.5, [ReasonableBurn(v)], [])
    else if v <= 2.5 then Step(0.0, [], [HighBurn(v)])
    else Step(-1.5, [], [InefficientBurn(v)])
  }

  function GrowthStep(v: real): (s: Step)
    ensures Coherent(s) && |s.evidence| + |s.concerns| == 1
  {
    if v >= 15.0 then Step(2.0, [ExceptionalGrowth(v)], [])
    else if v >= 10.0 then Step(1.0, [StrongGrowth(v)], [])
    else if v >= 5.0 then Step(0.0, [ModerateGrowth(v)], [])
    else if v > 0.0 then Step(-1.0, [], [SlowGrowth(v)])
    else Step(-2.0, [], [FlatGrowth])
  }

  function ChurnStep(v: real): (s: Step)
    ensures Coherent(s) && |s.evidence| + |s.concerns| == 1
  {
    if v <= 1.0 then Step(1.0, [ExcellentRetention(v)], [])
    else if v <= 2.0 then Step(0.0, [GoodRetention(v)], [])
    else if v <= 5.0 then Step(0.0, [], [ElevatedChurn(v)])
    else Step(-1.5, [], [HighChurn(v)])
  }

  /** `max(1, min(10, x))`. */
  function Clamp(x: real): (r: real)
    ensures 1.0 <= r <= 10.0
    ensures 1.0 <= x <= 10.0 ==> r == x
    ensures x < 1.0 ==> r == 1.0
    ensures x > 10.0 ==> r == 10.0
  {
    if x < 1.0 then 1.0 else if x > 10.0 then 10.0 else x
  }

  function Deltas(steps: seq<Step>): real {
    if |steps| == 0 then 0.0 else Deltas(steps[..|steps| - 1]) + steps[|steps| - 1].delta
  }

  function EvidenceOf(steps: seq<Step>): seq<Note> {
    if |steps| == 0 then [] else EvidenceOf(steps[..|steps| - 1]) + steps[|steps| - 1].evidence
  }

  function ConcernsOf(steps: seq<Step>): seq<Note> {
    if |steps| == 0 then [] else ConcernsOf(steps[..|steps| - 1]) + steps[|steps| - 1].concerns
  }

  /** A risk scored from a neutral 6.0 by the given steps, applied in order
      and clamped to [1, 10]. */
  function Scored(id: nat, name: string, weight: real, steps: seq<Step>): RiskScore {
    RiskScore(id, name, Clamp(6.0 + Deltas(steps)), weight, EvidenceOf(steps), ConcernsOf(steps))
  }

  function BusinessModelRisk(m: Metrics): RiskScore {
    Scored(2, "Business Model", 0.12,
           [LtvCacStep(m.ltvCacRatio.GetOr(0.0)), MarginStep(m.grossMargin.GetOr(0.0)),
            NrrStep(m.netRevenueRetention.GetOr(100.0))])
  }

  function CapitalizationRisk(m: Metrics): RiskScore {
    Scored(7, "Capitalization", 0.08, [RunwayStep(m.runwayMonths.GetOr(0.0)), BurnStep(m.burnMultiple.GetOr(0.0))])
  }

  function MarketAdoptionRisk(m: Metrics): RiskScore {
    Scored(3, "Market Adoption", 0.10, [GrowthStep(m.mrrGrowthMom.GetOr(0.0)), ChurnStep(m.grossChurnRate.GetOr(0.0))])
  }

  // ---------------------------------------------------------------------
  // The scorers, step by step
  // ---------------------------------------------------------------------

  /** `score_business_model`. */
  method ScoreBusinessModel(m: Metrics) returns (r: RiskScore)
    ensures r == BusinessModelRisk(m)
  {
    var evidence: seq<Note> := [];
    var concerns: seq<Note> := [];
    var score := 6.0;
    var ltvCac := m.ltvCacRatio.GetOr(0.0);
    if ltvCac >= 4.0 {
      score := score + 1.5;
      evidence := evidence + [StrongLtvCac(ltvCac)];
    } else if ltvCac >= 3.0 {
      score := score + 0.5;
      evidence := evidence + [HealthyLtvCac(ltvCac)];
    } else if ltvCac > 0.0 {
      score := score - 1.5;
      concerns := concerns + [WeakLtvCac(ltvCac)];
    }
    var s1 := LtvCacStep(ltvCac);
    assert score == 6.0 + s1.delta && evidence == s1.evidence && concerns == s1.concerns;
    var grossMargin := m.grossMargin.GetOr(0.0);
    if grossMargin >= 75.0 {
      score := score + 1.0;
      evidence := evidence + [SaasGradeMargins(grossMargin)];
    } else if grossMargin >= 60.0 {
      evidence := evidence + [AcceptableMargins(grossMargin)];
    } else if grossMargin > 0.0 {
      score := score - 1.0;
      concerns := concerns + [BelowAverageMargins(grossMargin)];
    }
    var s2 := MarginStep(grossMargin);
    assert score == 6.0 + s1.delta + s2.delta && evidence == s1.evidence + s2.evidence && concerns == s1.concerns + s2.concerns;
    var nrr := m.netRevenueRetention.GetOr(100.0);
    if nrr >= 120.0 {
      score := score + 1.0;
      evidence := evidence + [ExcellentNrr(nrr)];
    } else if nrr >= 110.0 {
      score := score + 0.5;
      evidence := evidence + [GoodNrr(nrr)];
    } else if nrr < 100.0 {
      score := score - 1.5;
      concerns := concerns + [ShrinkingNrr(nrr)];
    }
    var s3 := NrrStep(nrr);
    assert score == 6.0 + s1.delta + s2.delta + s3.delta;
    assert evidence == s1.evidence + s2.evidence + s3.evidence && concerns == s1.concerns + s2.concerns + s3.concerns;
    score := Clamp(score);
    ScoredThree(2, "Business Model", 0.12, s1, s2, s3);
    r := RiskScore(2, "Business Model", score, 0.12, evidence, concerns);
  }

  /** `score_capitalization`. */
  method ScoreCapitalization(m: Metrics) returns (r: RiskScore)
    ensures r == CapitalizationRisk(m)
  {
    var evidence: seq<Note> := [];
    var concerns: seq<Note> := [];
    var score := 6.0;
    var runway := m.runwayMonths.GetOr(0.0);
    if runway >= 24.0 {
      score := score + 1.5;
      evidence := evidence + [StrongRunway(runway)];
    } else if runway >= 18.0 {
      score := score + 0.5;
      evidence := evidence + [AdequateRunway(runway)];
    } else if runway >= 12.0 {
      concerns := concerns + [LimitedRunway(runway)];
    } else if runway > 0.0 {
      score := score - 2.0;
      concerns := concerns + [CriticalRunway(runway)];
    }
    var burnMultiple := m.burnMultiple.GetOr(0.0);
    if burnMultiple > 0.0 && burnMultiple <= 1.0 {
      score := score + 1.5;
      evidence := evidence + [EfficientBurn(burnMultiple)];
    } else if burnMultiple <= 1.5 {
      score := score + 0.5;
      evidence := evidence + [ReasonableBurn(burnMultiple)];
    } else if burnMultiple <= 2.5 {
      concerns := concerns + [HighBurn(burnMultiple)];
    } else if burnMultiple > 2.5 {
      score := score - 1.5;
      concerns := concerns + [InefficientBurn(burnMultiple)];
    }
    var s1, s2 := RunwayStep(runway), BurnStep(burnMultiple);
    assert score == 6.0 + s1.delta + s2.delta;
    assert evidence == s1.evidence + s2.evidence && concerns == s1.concerns + s2.concerns;
    score := Clamp(score);
    TwoSteps(s1, s2);
    r := RiskScore(7, "Capitalization", score, 0.08, evidence, concerns);
  }

  /** `score_market_adoption`. */
  method ScoreMarketAdoption(m: Metrics) returns (r: RiskScore)
    ensures r == MarketAdoptionRisk(m)
  {
    var evidence: seq<Note> := [];
    var concerns: seq<Note> := [];
    var score := 6.0;
    var growth := m.mrrGrowthMom.GetOr(0.0);
    if growth >= 15.0 {
      score := score + 2.0;
      evidence := evidence + [ExceptionalGrowth(growth)];
    } else if growth >= 10.0 {
      score := score + 1.0;
      evidence := evidence + [StrongGrowth(growth)];
    } else if growth >= 5.0 {
      evidence := evidence + [ModerateGrowth(growth)];
    } else if growth > 0.0 {
      score := score - 1.0;
      concerns := concerns + [SlowGrowth(growth)];
    } else {
      score := score - 2.0;
      concerns := concerns + [FlatGrowth];
    }
    var churn := m.grossChurnRate.GetOr(0.0);
    if churn <= 1.0 {
      score := score + 1.0;
      evidence := evidence + [ExcellentRetention(churn)];
    } else if churn <= 2.0 {
      evidence := evidence + [GoodRetention(churn)];
    } else if churn <= 5.0 {
      concerns := concerns + [ElevatedChurn(churn)];
    } else if churn > 5.0 {
      score := score - 1.5;
      concerns := concerns + [HighChurn(churn)];
    }
    var s1, s2 := GrowthStep(growth), ChurnStep(churn);
    assert score == 6.0 + s1.delta + s2.delta;
    assert evidence == s1.evidence + s2.evidence && concerns == s1.concerns + s2.concerns;
    score := Clamp(score);
    TwoSteps(s1, s2);
    r := RiskScore(3, "Market Adoption", score, 0.10, evidence, concerns);
  }

  lemma TwoSteps(a: Step, b: Step)
    ensures Deltas([a, b]) == a.delta + b.delta
    ensures EvidenceOf([a, b]) == a.evidence + b.evidence
    ensures ConcernsOf([a, b]) == a.concerns + b.concerns
  {
    assert [a, b][..1] == [a];
    assert [a][..0] == [];
    assert Deltas([a]) == a.delta && EvidenceOf([a]) == a.evidence && ConcernsOf([a]) == a.concerns;
  }

  lemma ThreeSteps(a: Step, b: Step, c: Step)
    ensures Deltas([a, b, c]) == a.delta + b.delta + c.delta
    ensures EvidenceOf([a, b, c]) == a.evidence + b.evidence + c.evidence
    ensures ConcernsOf([a, b, c]) == a.concerns + b.concerns + c.concerns
  {
    assert [a, b, c][..2] == [a, b];
    TwoSteps(a, b);
  }

  lemma ScoredThree(id: nat, name: string, weight: real, a: Step, b: Step, c: Step)
    ensures Scored(id, name, weight, [a, b, c]) ==
            RiskScore(id, name, Clamp(6.0 + a.delta + b.delta + c.delta), weight,
                      a.evidence + b.evidence + c.evidence, a.concerns + b.concerns + c.concerns)
  {
    ThreeSteps(a, b, c);
  }

  // ---------------------------------------------------------------------
  // Laws of the scores
  // ---------------------------------------------------------------------

  /** `x` is a whole number of halves, so rounding it to one decimal leaves
      it unchanged. */
  predicate HalfStep(x: real) {
    (2.0 * x).Floor as real == 2.0 * x
  }

  lemma HalfStepSum(x: real, d: real)
    requires HalfStep(x) && HalfStep(d)
    ensures HalfStep(x + d)
  {
    var a, b := (2.0 * x).Floor, (2.0 * d).Floor;
    assert 2.0 * (x + d) == (a + b) as real;
  }

  /** The business-model adjustments never push the score out of [2, 9.5],
      so the clamp never changes it: it is exactly 6 plus the adjustments. */
  lemma BusinessModelRange(m: Metrics)
    ensures var s := [LtvCacStep(m.ltvCacRatio.GetOr(0.0)), MarginStep(m.grossMargin.GetOr(0.0)),
                      NrrStep(m.netRevenueRetention.GetOr(100.0))];
      && BusinessModelRisk(m).score == 6.0 + Deltas(s)
      && 2.0 <= BusinessModelRisk(m).score <= 9.5
      && HalfStep(BusinessModelRisk(m).score)
  {
    var a, b, c := LtvCacStep(m.ltvCacRatio.GetOr(0.0)), MarginStep(m.grossMargin.GetOr(0.0)),
                   NrrStep(m.netRevenueRetention.GetOr(100.0));
    ThreeSteps(a, b, c);
    var x := 6.0 + a.delta + b.delta + c.delta;
    assert x == Deltas([a, b, c]) + 6.0;
    assert HalfStep(6.0 + a.delta) by { HalfStepSum(6.0, a.delta); }
    assert HalfStep(6.0 + a.delta + b.delta) by { HalfStepSum(6.0 + a.delta, b.delta); }
    HalfStepSum(6.0 + a.delta + b.delta, c.delta);
  }

  /** The capitalization score stays within [2.5, 9]: the clamp never binds. */
  lemma CapitalizationRange(m: Metrics)
    ensures var s := [RunwayStep(m.runwayMonths.GetOr(0.0)), BurnStep(m.burnMultiple.GetOr(0.0))];
      && CapitalizationRisk(m).score == 6.0 + Deltas(s)
      && 2.5 <= CapitalizationRisk(m).score <= 9.0
      && HalfStep(CapitalizationRisk(m).score)
  {
    var a, b := RunwayStep(m.runwayMonths.GetOr(0.0)), BurnStep(m.burnMultiple.GetOr(0.0));
    TwoSteps(a, b);
    assert HalfStep(6.0 + a.delta) by { HalfStepSum(6.0, a.delta); }
    HalfStepSum(6.0 + a.delta, b.delta);
  }

  /** The market-adoption score stays within [2.5, 9]: the clamp never binds. */
  lemma MarketAdoptionRange(m: Metrics)
    ensures var s := [GrowthStep(m.mrrGrowthMom.GetOr(0.0)), ChurnStep(m.grossChurnRate.GetOr(0.0))];
      && MarketAdoptionRisk(m).score == 6.0 + Deltas(s)
      && 2.5 <= MarketAdoptionRisk(m).score <= 9.0
      && HalfStep(MarketAdoptionRisk(m).score)
  {
    var a, b := GrowthStep(m.mrrGrowthMom.GetOr(0.0)), ChurnStep(m.grossChurnRate.GetOr(0.0));
    TwoSteps(a, b);
    assert HalfStep(6.0 + a.delta) by { HalfStepSum(6.0, a.delta); }
    HalfStepSum(6.0 + a.delta, b.delta);
  }

  /** Better net revenue retention never lowers the adjustment, nor does
      faster growth; more churn never raises it. */
  lemma StepsMonotone(v: real, w: real)
    requires v <= w
    ensures NrrStep(v).delta <= NrrStep(w).delta
    ensures GrowthStep(v).delta <= GrowthStep(w).delta
    ensures ChurnStep(w).delta <= ChurnStep(v).delta
    ensures v > 0.0 ==> LtvCacStep(v).delta <= LtvCacStep(w).delta
    ensures v > 0.0 ==> MarginStep(v).delta <= MarginStep(w).delta
    ensures v > 0.0 ==> RunwayStep(v).delta <= RunwayStep(w).delta
    ensures v > 0.0 ==> BurnStep(w).delta <= BurnStep(v).delta
  {
  }

  /** A missing (or zero) LTV:CAC, margin or runway counts as neutral, which
      scores higher than any value in that metric's weak band (LTV:CAC below
      3, margin below 60, runway below 12 months); a missing burn multiple
      earns the "reasonable" bonus, more than any multiple above 1.5. */
  lemma MissingBeatsWeak(ltvCac: real, margin: real, runway: real, burn: real)
    ensures 0.0 < ltvCac < 3.0 ==> LtvCacStep(0.0).delta > LtvCacStep(ltvCac).delta
    ensures 0.0 < margin < 60.0 ==> MarginStep(0.0).delta > MarginStep(margin).delta
    ensures 0.0 < runway < 12.0 ==> RunwayStep(0.0).delta > RunwayStep(runway).delta
    ensures BurnStep(0.0).delta == 0.5
    ensures burn > 1.5 ==> BurnStep(0.0).delta > BurnStep(burn).delta
  {
  }

  // ---------------------------------------------------------------------
  // Defaults, weighted score, veto and recommendation
  // ---------------------------------------------------------------------

  predicate Computed(id: nat) { id == 2 || id == 3 || id == 7 }

  function DefaultOf(r: Risk): RiskScore {
    RiskScore(r.id, r.name, 6.0, r.weight, [ManualAssessment], [])
  }

  /** The neutral scores of the risks in `rs` that are not computed. */
  function Defaults(rs: seq<Risk>): seq<RiskScore> {
    if |rs| == 0 then []
    else Defaults(rs[..|rs| - 1]) + (if Computed(rs[|rs| - 1].id) then [] else [DefaultOf(rs[|rs| - 1])])
  }

  /** `generate_default_scores`. */
  method GenerateDefaultScores() returns (defaults: seq<RiskScore>)
    ensures defaults == Defaults(Risks)
  {
    defaults := [];
    for i := 0 to |Risks|
      invariant defaults == Defaults(Risks[..i])
    {
      assert Risks[..i + 1][..i] == Risks[..i];
      if !Computed(Risks[i].id) {
        defaults := defaults + [DefaultOf(Risks[i])];
      }
    }
    assert Risks[..|Risks|] == Risks;
  }

  /** The eight default scores are the risks other than 2, 3 and 7, in table
      order, each a neutral 6.0 with its table weight. */
  lemma DefaultScoresListed()
    ensures Defaults(Risks) ==
      [DefaultOf(Risks[0]), DefaultOf(Risks[3]), DefaultOf(Risks[4]), DefaultOf(Risks[5]),
       DefaultOf(Risks[7]), DefaultOf(Risks[8]), DefaultOf(Risks[9]), DefaultOf(Risks[10])]
  {
    var rs := Risks;
    assert rs[..0] == [];
    DefaultsStep(rs, 1); DefaultsStep(rs, 2); DefaultsStep(rs, 3); DefaultsStep(rs, 4);
    DefaultsStep(rs, 5); DefaultsStep(rs, 6); DefaultsStep(rs, 7); DefaultsStep(rs, 8);
    DefaultsStep(rs, 9); DefaultsStep(rs, 10); DefaultsStep(rs, 11);
    assert rs[..11] == rs;
  }

  lemma DefaultsStep(rs: seq<Risk>, k: nat)
    requires 0 < k <= |rs|
    ensures Defaults(rs[..k]) == Defaults(rs[..k - 1]) + (if Computed(rs[k - 1].id) then [] else [DefaultOf(rs[k - 1])])
  {
    assert rs[..k][..k - 1] == rs[..k - 1];
  }

  /** `sum(s.score * s.weight for s in scores)`, before rounding. */
  function WeightedScore(scores: seq<RiskScore>): real {
    if |scores| == 0 then 0.0
    else WeightedScore(scores[..|scores| - 1]) + scores[|scores| - 1].score * scores[|scores| - 1].weight
  }

  function Weights(scores: seq<RiskScore>): real {
    if |scores| == 0 then 0.0 else Weights(scores[..|scores| - 1]) + scores[|scores| - 1].weight
  }

  lemma WeightsStep(s: seq<RiskScore>, k: nat)
    requires 0 < k <= |s|
    ensures Weights(s[..k]) == Weights(s[..k - 1]) + s[k - 1].weight
  {
    assert s[..k][..k - 1] == s[..k - 1];
  }

  lemma ProductBetween(s: real, w: real, lo: real, hi: real)
    requires lo <= s <= hi && w >= 0.0
    ensures lo * w <= s * w <= hi * w
  {
  }

  /** With non-negative weights, the weighted score lies between the lowest
      and the highest score, scaled by the total weight. */
  lemma {:induction false} WeightedScoreBetween(scores: seq<RiskScore>, lo: real, hi: real)
    requires forall i :: 0 <= i < |scores| ==> lo <= scores[i].score <= hi && scores[i].weight >= 0.0
    ensures lo * Weights(scores) <= WeightedScore(scores) <= hi * Weights(scores)
  {
    if |scores| > 0 {
      var n := |scores| - 1;
      WeightedScoreBetween(scores[..n], lo, hi);
      ProductBetween(scores[n].score, scores[n].weight, lo, hi);
    }
  }

  /** Why a score vetoes the deal. */
  datatype Veto =
    | CriticalFailure(risk: string)
    | TeamBelowMinimum(teamScore: real)
    | MarketSizeBelowMinimum(marketScore: real)
    | BusinessModelBelowMinimum(modelScore: real)

  /** The veto rules for one score, tested in order. */
  function VetoOf(s: RiskScore): Option<Veto> {
    if s.score == 1.0 then Some(CriticalFailure(s.name))
    else if s.name == "Team" && s.score < 3.0 then Some(TeamBelowMinimum(s.score))
    else if s.name == "Market Size" && s.score < 4.0 then Some(MarketSizeBelowMinimum(s.score))
    else if s.name == "Business Model" && s.score < 3.0 then Some(BusinessModelBelowMinimum(s.score))
    else None
  }

  /** The veto of the first score, in list order, that has one. */
  function FirstVeto(scores: seq<RiskScore>): Option<Veto> {
    if |scores| == 0 then None
    else if VetoOf(scores[0]).Some? then VetoOf(scores[0])
    else FirstVeto(scores[1..])
  }

  /** The first veto is the veto of some score with none before it, and
      there is no veto exactly when no score has one. */
  lemma {:induction false} FirstVetoCorrect(scores: seq<RiskScore>)
    ensures FirstVeto(scores).None? <==> forall i :: 0 <= i < |scores| ==> VetoOf(scores[i]).None?
    ensures FirstVeto(scores).Some? ==>
      exists i :: 0 <= i < |scores| && FirstVeto(scores) == VetoOf(scores[i]) &&
        forall j :: 0 <= j < i ==> VetoOf(scores[j]).None?
  {
    if |scores| > 0 && VetoOf(scores[0]).None? {
      FirstVetoCorrect(scores[1..]);
      assert forall i :: 1 <= i < |scores| ==> scores[i] == scores[1..][i - 1];
      if FirstVeto(scores).Some? {
        var k :| 0 <= k < |scores[1..]| && FirstVeto(scores[1..]) == VetoOf(scores[1..][k]) &&
          forall j :: 0 <= j < k ==> VetoOf(scores[1..][j]).None?;
        assert FirstVeto(scores) == VetoOf(scores[k + 1]);
        forall j | 0 <= j < k + 1 ensures VetoOf(scores[j]).None? {
          if j > 0 { assert scores[j] == scores[1..][j - 1]; }
        }
      }
    } else if |scores| > 0 {
      assert FirstVeto(scores) == VetoOf(scores[0]);
    }
  }

  /** `check_veto_rules`: the loop stops at the first score with a veto. */
  method CheckVetoRules(scores: seq<RiskScore>) returns (veto: Option<Veto>)
    ensures veto == FirstVeto(scores)
  {
    var i := 0;
    while i < |scores|
      invariant 0 <= i <= |scores|
      invariant FirstVeto(scores) == FirstVeto(scores[i..])
    {
      assert scores[i..][1..] == scores[i + 1..];
      var s := scores[i];
      if s.score == 1.0 {
        return Some(CriticalFailure(s.name));
      }
      if s.name == "Team" && s.score < 3.0 {
        return Some(TeamBelowMinimum(s.score));
      }
      if s.name == "Market Size" && s.score < 4.0 {
        return Some(MarketSizeBelowMinimum(s.score));
      }
      if s.name == "Business Model" && s.score < 3.0 {
        return Some(BusinessModelBelowMinimum(s.score));
      }
      i := i + 1;
    }
    return None;
  }

  datatype Recommendation =
    | Pass | StrongConviction | Positive | CautiousPositive | PassButMonitor | ClearPass

  /** The tiers from best to worst (a veto's PASS ranks with CLEAR PASS). */
  function Rank(r: Recommendation): nat {
    match r
    case StrongConviction => 4
    case Positive => 3
    case CautiousPositive => 2
    case PassButMonitor => 1
    case ClearPass => 0
    case Pass => 0
  }

  /** `get_recommendation`. */
  function GetRecommendation(weightedScore: real, veto: Option<Veto>): (r: Recommendation)
    ensures veto.Some? <==> r == Pass
    ensures veto.None? ==> (r == StrongConviction <==> weightedScore >= 8.0)
    ensures veto.None? ==> (r == ClearPass <==> weightedScore < 5.0)
  {
    if veto.Some? then Pass
    else if weightedScore >= 8.0 then StrongConviction
    else if weightedScore >= 7.0 then Positive
    else if weightedScore >= 6.0 then CautiousPositive
    else if weightedScore >= 5.0 then PassButMonitor
    else ClearPass
  }

  /** A higher weighted score never earns a worse tier. */
  lemma RecommendationMonotone(v: real, w: real)
    requires v <= w
    ensures Rank(GetRecommendation(v, None)) <= Rank(GetRecommendation(w, None))
  {
  }

  // ---------------------------------------------------------------------
  // The whole scorecard
  // ---------------------------------------------------------------------

  /** The scores the generator assembles: the three computed ones, then the
      defaults. */
  function AllScores(m: Metrics): seq<RiskScore> {
    [BusinessModelRisk(m), CapitalizationRisk(m), MarketAdoptionRisk(m)] + Defaults(Risks)
  }

  /** The eleven weights of the scorecard add up to one. */
  lemma AllScoresWeights(m: Metrics)
    ensures |AllScores(m)| == 11
    ensures Weights(AllScores(m)) == 1.0
  {
    var s := AllScores(m);
    DefaultScoresListed();
    assert s[..0] == [];
    WeightsStep(s, 1); WeightsStep(s, 2); WeightsStep(s, 3); WeightsStep(s, 4);
    WeightsStep(s, 5); WeightsStep(s, 6); WeightsStep(s, 7); WeightsStep(s, 8);
    WeightsStep(s, 9); WeightsStep(s, 10); WeightsStep(s, 11);
    assert s[..11] == s;
  }

  /** Every score of the scorecard lies in [1, 10] with a non-negative weight. */
  lemma AllScoresInRange(m: Metrics)
    ensures forall i :: 0 <= i < |AllScores(m)| ==>
      1.0 <= AllScores(m)[i].score <= 10.0 && AllScores(m)[i].weight >= 0.0
  {
    DefaultScoresListed();
  }

  /** Hence the weighted score of the scorecard lies in [1, 10]. */
  lemma AllScoresWeighted(m: Metrics)
    ensures 1.0 <= WeightedScore(AllScores(m)) <= 10.0
  {
    AllScoresWeights(m);
    AllScoresInRange(m);
    WeightedScoreBetween(AllScores(m), 1.0, 10.0);
  }

  /** Only the business-model score can veto the assembled scorecard: the
      other computed scores never drop below 2.5 and the defaults
      (Team and Market Size among them) sit at 6. */
  lemma AllScoresVeto(m: Metrics)
    ensures var bm := BusinessModelRisk(m).score;
      FirstVeto(AllScores(m)) == if bm < 3.0 then Some(BusinessModelBelowMinimum(bm)) else None
  {
    var s := AllScores(m);
    DefaultScoresListed();
    BusinessModelRange(m);
    CapitalizationRange(m);
    MarketAdoptionRange(m);
    if BusinessModelRisk(m).score >= 3.0 {
      forall i | 0 <= i < |s| ensures VetoOf(s[i]).None? {
        if i >= 3 { assert s[i].score == 6.0; }
      }
      FirstVetoCorrect(s);
    }
  }
}
