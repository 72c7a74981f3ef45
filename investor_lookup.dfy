/** Austin investor lookup (skills/austin-market/scripts/investor_lookup.py):
    the investors of a stage, each given a match score for the deal's
    sector, ranked by a stable sort on descending score. */
module InvestorLookup {
  import opened Wrappers
  import opened Text
  import opened StableSort

  datatype Investor = Investor(name: string, checkSize: string, focus: seq<string>, notes: string)

  /** An investor record with its `match_score` added. */
  datatype ScoredInvestor = ScoredInvestor(investor: Investor, matchScore: int)

  const AustinInvestors: map<string, seq<Investor>> := map[
    "seed" := [
      Investor("Capital Factory", "$100K - $1M", ["B2B SaaS", "Consumer Tech", "Hardware"],
               "Austin HQ accelerator, very active at seed"),
      Investor("ATX Venture Partners", "$500K - $5M", ["Enterprise SaaS", "Fintech", "Healthcare"],
               "Austin-focused, operator backgrounds"),
      Investor("Silverton Partners", "$500K - $3M", ["B2B Software", "Consumer", "Healthcare"],
               "Long-standing Austin presence"),
      Investor("Ecliptic Capital", "$250K - $1M", ["SaaS", "Marketplaces", "Fintech"],
               "Seed specialist, quick decisions")],
    "series_a" := [
      Investor("LiveOak Venture Partners", "$2M - $10M", ["Enterprise Software", "SaaS", "Cloud"],
               "Lead Series A in Austin, strong board members"),
      Investor("S3 Ventures", "$1M - $15M", ["B2B SaaS", "Infrastructure", "Security"],
               "Texas-focused, can lead or follow"),
      Investor("Next Coast Ventures", "$3M - $15M", ["Enterprise SaaS", "Fintech", "Healthcare IT"],
               "Ex-operators, hands-on support"),
      Investor("Silverton Partners", "$3M - $10M", ["B2B Software", "Consumer", "Healthcare"],
               "Can lead Series A, strong network")],
    "series_b" := [
      Investor("Vista Equity Partners", "$50M+", ["Enterprise Software", "SaaS"],
               "Austin HQ, growth/buyout focus"),
      Investor("Thoma Bravo", "$50M+", ["Software", "Security", "Fintech"],
               "Austin office, very active"),
      Investor("Tritium Partners", "$10M - $30M", ["Software", "Tech Services"],
               "Austin-based growth equity"),
      Investor("S3 Ventures", "$10M - $20M", ["B2B SaaS", "Infrastructure"],
               "Can participate in larger rounds")]
  ]

  const SectorSpecialists: map<string, seq<string>> := map[
    "fintech" := ["ATX Venture Partners", "Next Coast Ventures", "Thoma Bravo"],
    "cybersecurity" := ["S3 Ventures", "Thoma Bravo", "Vista Equity Partners"],
    "healthcare" := ["Next Coast Ventures", "Silverton Partners", "ATX Venture Partners"],
    "enterprise_saas" := ["LiveOak Venture Partners", "S3 Ventures", "Vista Equity Partners"],
    "consumer" := ["Silverton Partners", "Capital Factory"]
  ]

  /** The aliases `normalize_sector` maps a sector key to. */
  const SectorAliases: map<string, string> := map[
    "enterprise_saas" := "enterprise_saas",
    "b2b_saas" := "enterprise_saas",
    "saas" := "enterprise_saas",
    "fintech" := "fintech",
    "payments" := "fintech",
    "cybersecurity" := "cybersecurity",
    "security" := "cybersecurity",
    "healthcare" := "healthcare",
    "healthtech" := "healthcare",
    "consumer" := "consumer",
    "d2c" := "consumer"
  ]

  /** The sector as a key: lower-cased, with spaces and slashes turned into
      underscores. */
  function SectorKey(sector: string): (k: string)
    ensures |k| == |sector| && NoUpper(k)
    ensures forall i :: 0 <= i < |k| ==> k[i] != ' ' && k[i] != '/'
  {
    var k := ReplaceChar(ReplaceChar(LowerStr(sector), ' ', '_'), '/', '_');
    assert forall i :: 0 <= i < |k| ==> k[i] == (if LowerStr(sector)[i] == ' ' || LowerStr(sector)[i] == '/' then '_' else LowerStr(sector)[i]);
    k
  }

  /** `normalize_sector`: an alias is mapped, anything else is enterprise
      SaaS; the result always names a list of sector specialists. */
  function NormalizeSector(sector: string): (r: string)
    ensures r in SectorSpecialists
    ensures SectorKey(sector) in SectorAliases ==> r == SectorAliases[SectorKey(sector)]
    ensures SectorKey(sector) !in SectorAliases ==> r == "enterprise_saas"
  {
    var k := SectorKey(sector);
    if k in SectorAliases then SectorAliases[k] else "enterprise_saas"
  }

  /** The spelling of a sector does not matter to its key, case aside. */
  lemma NormalizeSectorIgnoresCase(sector: string)
    ensures NormalizeSector(LowerStr(sector)) == NormalizeSector(sector)
  {
    LowerStrIdempotent(sector);
  }

  // ---------------------------------------------------------------------
  // Scoring
  // ---------------------------------------------------------------------

  /** `sector` is present and non-empty: a truthy argument. */
  predicate Given(sector: Option<string>) {
    sector.Some? && sector.value != ""
  }

  /** `any(sector.lower() in f for f in investor_focus)`. */
  predicate FocusMatches(focus: seq<string>, sector: string) {
    exists i :: 0 <= i < |focus| && Contains(LowerStr(focus[i]), LowerStr(sector))
  }

  predicate Specialist(name: string, sector: string) {
    var n := NormalizeSector(sector);
    n in SectorSpecialists && name in SectorSpecialists[n]
  }

  /** An investor's match score: 50, plus 30 for a focus that mentions the
      sector and 20 for a specialist in it; 50 without a sector. */
  function ScoreOf(inv: Investor, sector: Option<string>): int {
    if !Given(sector) then 50
    else 50 + (if FocusMatches(inv.focus, sector.value) then 30 else 0)
            + (if Specialist(inv.name, sector.value) then 20 else 0)
  }

  /** The score is one of four values, and it tells which bonuses applied:
      30 for a focus that mentions the sector, 20 for a specialist in it. */
  lemma ScoreValues(inv: Investor, sector: Option<string>)
    ensures ScoreOf(inv, sector) in {50, 70, 80, 100}
    ensures !Given(sector) ==> ScoreOf(inv, sector) == 50
    ensures ScoreOf(inv, sector) >= 80 <==> Given(sector) && FocusMatches(inv.focus, sector.value)
    ensures ScoreOf(inv, sector) in {70, 100} <==> Given(sector) && Specialist(inv.name, sector.value)
  {
  }

  /** Every investor of `invs` with its score, in database order. */
  function Annotated(invs: seq<Investor>, sector: Option<string>): (r: seq<ScoredInvestor>)
    ensures |r| == |invs|
    ensures forall j :: 0 <= j < |invs| ==> r[j] == ScoredInvestor(invs[j], ScoreOf(invs[j], sector))
  {
    seq(|invs|, j requires 0 <= j < |invs| => ScoredInvestor(invs[j], ScoreOf(invs[j], sector)))
  }

  function MatchScore(s: ScoredInvestor): int { s.matchScore }

  function StageInvestors(stage: string): seq<Investor> {
    if stage in AustinInvestors then AustinInvestors[stage] else []
  }

  /** The result of `find_investors`: the annotated stage list, sorted. */
  function Ranked(stage: string, sector: Option<string>): seq<ScoredInvestor> {
    SortDesc(Annotated(StageInvestors(stage), sector), MatchScore)
  }

  /** `find_investors`: the check size is read by nothing. */
  method FindInvestors(stage: string, sector: Option<string>, checkSize: Option<real>)
    returns (scored: seq<ScoredInvestor>)
    ensures scored == Ranked(stage, sector)
  {
    var stageInvestors := if stage in AustinInvestors then AustinInvestors[stage] else [];
    scored := ScoreInvestors(stageInvestors, sector);
    scored := SortDesc(scored, MatchScore);
  }

  /** The loop of `find_investors` that scores each investor of the stage,
      in database order. */
  method ScoreInvestors(stageInvestors: seq<Investor>, sector: Option<string>) returns (scored: seq<ScoredInvestor>)
    ensures scored == Annotated(stageInvestors, sector)
  {
    scored := [];
    var normalizedSector := if Given(sector) then Some(NormalizeSector(sector.value)) else None;
    for i := 0 to |stageInvestors|
      invariant |scored| == i
      invariant forall j :: 0 <= j < i ==>
        scored[j] == ScoredInvestor(stageInvestors[j], ScoreOf(stageInvestors[j], sector))
    {
      var investor := stageInvestors[i];
      var score := 50;
      if Given(sector) {
        if FocusMatches(investor.focus, sector.value) {
          score := score + 30;
        }
        if normalizedSector.value in SectorSpecialists {
          if investor.name in SectorSpecialists[normalizedSector.value] {
            score := score + 20;
          }
        }
      }
      scored := scored + [ScoredInvestor(investor, score)];
    }
  }

  /** The ranking is a permutation of the stage's annotated investors,
      ordered by descending score, with tied investors kept in database
      order; a stage the database lacks has none. */
  lemma RankedCorrect(stage: string, sector: Option<string>)
    ensures var r, a := Ranked(stage, sector), Annotated(StageInvestors(stage), sector);
      && |r| == |StageInvestors(stage)|
      && multiset(r) == multiset(a)
      && (forall i, j :: 0 <= i < j < |r| ==> r[i].matchScore >= r[j].matchScore)
      && (forall v :: WithKey(r, MatchScore, v) == WithKey(a, MatchScore, v))
      && (forall i :: 0 <= i < |r| ==> r[i].matchScore == ScoreOf(r[i].investor, sector))
    ensures stage !in AustinInvestors ==> Ranked(stage, sector) == []
  {
    var r, a := Ranked(stage, sector), Annotated(StageInvestors(stage), sector);
    SortDescCorrect(a, MatchScore);
    forall i | 0 <= i < |r| ensures r[i].matchScore == ScoreOf(r[i].investor, sector) {
      assert r[i] in multiset(a);
      var j :| 0 <= j < |a| && a[j] == r[i];
    }
  }

  lemma {:induction false} WithKeyAll<T>(s: seq<T>, key: T -> int, v: int)
    requires forall i :: 0 <= i < |s| ==> key(s[i]) == v
    ensures WithKey(s, key, v) == s
  {
    if |s| > 0 {
      WithKeyAll(s[1..], key, v);
      assert s == [s[0]] + s[1..];
    }
  }

  /** Without a sector every investor scores 50 and the ranking is the
      database order. */
  lemma NoSectorKeepsOrder(stage: string, sector: Option<string>)
    requires !Given(sector)
    ensures Ranked(stage, sector) == Annotated(StageInvestors(stage), sector)
  {
    var r, a := Ranked(stage, sector), Annotated(StageInvestors(stage), sector);
    SortDescCorrect(a, MatchScore);
    forall i | 0 <= i < |r| ensures MatchScore(r[i]) == 50 {
      assert r[i] in multiset(a);
      var j :| 0 <= j < |a| && a[j] == r[i];
    }
    WithKeyAll(a, MatchScore, 50);
    WithKeyAll(r, MatchScore, 50);
  }

  // ---------------------------------------------------------------------
  // Report
  // ---------------------------------------------------------------------

  datatype SearchCriteria = SearchCriteria(stage: string, sector: Option<string>, checkSize: Option<real>)

  datatype InvestorReport = InvestorReport(
    searchCriteria: SearchCriteria,
    investors: seq<ScoredInvestor>,
    topRecommendations: seq<ScoredInvestor>,
    totalFound: nat)

  /** `generate_investor_report`, without its timestamp. */
  function GenerateInvestorReport(stage: string, sector: Option<string>, checkSize: Option<real>): (r: InvestorReport)
    ensures r.investors == Ranked(stage, sector)
    ensures r.totalFound == |r.investors|
    ensures r.topRecommendations <= r.investors
    ensures |r.topRecommendations| == if |r.investors| < 3 then |r.investors| else 3
  {
    var investors := Ranked(stage, sector);
    SortDescCorrect(Annotated(StageInvestors(stage), sector), MatchScore);
    InvestorReport(SearchCriteria(stage, sector, checkSize), investors,
                   if |investors| < 3 then investors else investors[..3], |investors|)
  }

  /** The check size appears in the criteria and nowhere else. */
  lemma CheckSizeIgnored(stage: string, sector: Option<string>, c1: Option<real>, c2: Option<real>)
    ensures GenerateInvestorReport(stage, sector, c1).investors == GenerateInvestorReport(stage, sector, c2).investors
    ensures GenerateInvestorReport(stage, sector, c1).topRecommendations ==
            GenerateInvestorReport(stage, sector, c2).topRecommendations
  {
  }

  /** The top recommendations hold the best scores of the ranking. */
  lemma TopHoldsBest(stage: string, sector: Option<string>, checkSize: Option<real>)
    ensures var r := GenerateInvestorReport(stage, sector, checkSize);
      forall i, j :: 0 <= i < |r.topRecommendations| <= j < |r.investors| ==>
        r.topRecommendations[i].matchScore >= r.investors[j].matchScore
  {
    var r := GenerateInvestorReport(stage, sector, checkSize);
    RankedCorrect(stage, sector);
    forall i, j | 0 <= i < |r.topRecommendations| <= j < |r.investors|
      ensures r.topRecommendations[i].matchScore >= r.investors[j].matchScore
    {
      assert r.topRecommendations[i] == r.investors[i];
    }
  }
}
