# Crowley Capital diligence toolkit, modelled in Dafny

This project models the computational core of a venture-diligence toolkit.

**Cap-table pipeline.**
- A cap-table parser turns spreadsheet rows into holders and share classes.
- A round modeler prices a new round after an option-pool shuffle and dilutes the existing holders.
- An exit waterfall pays liquidation preferences senior to junior. It then splits what is left pro rata over the fully diluted shares.

**Rule modules.**
- An eleven-risk scorecard, with its veto rules and recommendation tiers.
- Austin valuation context: growth categories, ARR multiples, benchmark positions and recommendations.
- An Austin investor lookup: sector normalisation, match scores and a stable ranking.
- SaaS metric flags and MRR growth.
- Cohort retention arithmetic and cohort flags.
- The ownership buckets the Carta client extracts from a cap table.

**Modules.**
- One module per source file: `ParseCapTable`, `RoundModel`, `Waterfall` (with its laws in `WaterfallLaws`), `Scorecard`, `ValuationContext`, `InvestorLookup`, `SaasMetrics`, `CohortAnalysis` and `CartaOwnership`.
- Shared helpers:
  - `Wrappers`: an `Option` type with a default;
  - `Text`: ASCII lower-casing, stripping, character replacement and substring search;
  - `Sequences`: first index and first-seen order;
  - `StableSort`: a stable descending insertion sort, proved sorted, a permutation and stable. It stands for Python's `sorted`/`list.sort` with a negated key.

**Form of the model.**
- Loops that build lists, dictionaries or running totals are methods, each proved equal to a specification function. The properties are proved about those functions.
- In the cap-table pipeline (parser, round model, waterfall) shares are natural numbers. The Carta extract keeps its share counts as optional reals (`CartaOwnership.Stakeholder.fullyDilutedShares`, `CartaOwnership.CapTableJson.fullyDilutedShares` and `issuedShares`), because the JSON it reads carries plain numbers that may be missing. Money and percentages are unbounded reals. `int(x)` of a non-negative value is `Floor`.
- A dictionary key that may be missing is an `Option` field, read with the same default as the source's `.get`.

**Quirks kept from the source.**
- Pool shares added in a shuffle count toward the post-money total but belong to no holder.
- The waterfall keys proceeds by holder name, so holders sharing a name are merged.
- `remaining` is reported as 0 once pass 2 runs.
- A preferred class with no shares has its payment taken from the exit but credited to nobody.
- The round modeler validates nothing; its divisions are preconditions.

**Observations the proofs make.**
- The scorecard's clamp to [1, 10] never binds: each computed score stays within [2, 9.5], so rounding to one decimal changes nothing.
- The weighted score always lies in [1, 10].
- Of the assembled scorecard, only the business-model score can veto.
- For a non-negative exit, on tables whose holders own every fully diluted share and whose preferred classes all hold shares, the waterfall hands out exactly the exit value. This holds summed by class and summed by distinct holder name.

## Model

| member | source | states |
|---|---|---|
| ParseCapTable.DetectFormatCaseInsensitive | skills/cap-table-modeling/scripts/parse_captable.py:64-66 | the detected format depends only on the lower-cased column names |
| ParseCapTable.DetectFormatMarkers | skills/cap-table-modeling/scripts/parse_captable.py:64-77 | Carta iff some column lower-cases to `security type` or `certificate`; Pulley iff there is no such column and some column lower-cases to `grant type` or `stakeholder`; generic iff neither kind is present |
| ParseCapTable.CanonicalName | skills/cap-table-modeling/scripts/parse_captable.py:83 | the lower-cased, stripped, space-to-underscore name has no upper-case letter, no space and no surrounding white space |
| ParseCapTable.NormalizeColumn | skills/cap-table-modeling/scripts/parse_captable.py:83-106 | one normalised column name is in normal form |
| ParseCapTable.ColumnMapCanonical | skills/cap-table-modeling/scripts/parse_captable.py:86-104 | every rename target is in normal form and is not itself renamed |
| ParseCapTable.NormalizeColumns | skills/cap-table-modeling/scripts/parse_captable.py:80-107 | the same number of columns, each normalised |
| ParseCapTable.NormalizeColumnsProperties | skills/cap-table-modeling/scripts/parse_captable.py:80-107 | only names in the rename table are renamed, to their target; every other column keeps its normal form; normalising twice is normalising once |
| ParseCapTable.InferHolderType | skills/cap-table-modeling/scripts/parse_captable.py:110-126 | the inferred type is one of founder, pool, investor, employee, other |
| ParseCapTable.InferHolderTypeRules | skills/cap-table-modeling/scripts/parse_captable.py:110-126 | each type holds exactly when its rule matches and no earlier rule does: founder, then pool/esop/option, then a firm word or a preferred class, then common class with an employee name, else other |
| ParseCapTable.InferHolderTypeCaseInsensitive | skills/cap-table-modeling/scripts/parse_captable.py:112-113 | inference ignores letter case |
| ParseCapTable.BuildHolder | skills/cap-table-modeling/scripts/parse_captable.py:139-162 | the holder built from a row, with present cells read and absent ones defaulted |
| ParseCapTable.BuildClass | skills/cap-table-modeling/scripts/parse_captable.py:169-184 | the share class built for one label |
| ParseCapTable.BuildHolders | skills/cap-table-modeling/scripts/parse_captable.py:137-163 | the row loop yields one holder per row, in order |
| ParseCapTable.BuildClasses | skills/cap-table-modeling/scripts/parse_captable.py:166-184 | the class loop yields one class per label, in order |
| ParseCapTable.ParseGenericCapTable | skills/cap-table-modeling/scripts/parse_captable.py:129-201 | the table is `ParsedTable` of the frame: one holder per row, one class per label, equal share totals and the pool, with the properties stated by ParsedHolders, ParsedPool and ParsedClassesCoverShares |
| ParseCapTable.HolderSharesOfRows | skills/cap-table-modeling/scripts/parse_captable.py:134-141 | with a shares column the holders carry exactly the frame's shares |
| ParseCapTable.BackfilledOwnership | skills/cap-table-modeling/scripts/parse_captable.py:149-151 | backfilled ownership percentages sum to the rows' shares over the total, times 100 |
| ParseCapTable.PoolWithinShares | skills/cap-table-modeling/scripts/parse_captable.py:187-188 | pool holders' shares never exceed all holders' shares |
| ParseCapTable.ParsedHolders | skills/cap-table-modeling/scripts/parse_captable.py:134-198 | one holder per row, in order; authorised, outstanding and fully diluted totals are equal, and are the shares sum when a shares column exists |
| ParseCapTable.HolderOfProperties | skills/cap-table-modeling/scripts/parse_captable.py:139-162 | fully diluted percentage equals ownership; a non-zero ownership cell is kept; a zero or absent one is backfilled from the shares; the type is inferred only when the column is absent; no vesting |
| ParseCapTable.ParsedPool | skills/cap-table-modeling/scripts/parse_captable.py:186-189 | the pool is within the outstanding shares and its percentage lies in [0, 100] |
| ParseCapTable.ParsedOwnershipSums | skills/cap-table-modeling/scripts/parse_captable.py:148-151 | with positive shares and no non-zero ownership cell to keep (or no ownership column), the backfilled ownerships sum to 100 |
| ParseCapTable.LabelsPartitionShares | skills/cap-table-modeling/scripts/parse_captable.py:166-170 | summed label by label over the distinct labels, the shares are the frame's shares |
| ParseCapTable.ClassOfProperties | skills/cap-table-modeling/scripts/parse_captable.py:168-184 | a class is named by its label, issued equals outstanding, typed preferred before options before common by keyword, and has default terms |
| ParseCapTable.ParsedClassNames | skills/cap-table-modeling/scripts/parse_captable.py:166 | with a share-class column, the class names are the distinct labels in first-seen order, without duplicates; otherwise the one class `common` |
| ParseCapTable.ClassesCoverRows | skills/cap-table-modeling/scripts/parse_captable.py:166-170 | per-label classes' issued shares sum to the frame's shares |
| ParseCapTable.SingleClassCovers | skills/cap-table-modeling/scripts/parse_captable.py:166-170 | the single `common` class issues all the frame's shares |
| ParseCapTable.ParsedClassesCoverShares | skills/cap-table-modeling/scripts/parse_captable.py:165-196 | the classes' issued shares add up to the table's outstanding total |
| ParseCapTable.MaxPriceWhereCorrect | skills/cap-table-modeling/scripts/parse_captable.py:227-229 | the maximum price is absent exactly when no holder is selected, else it is a selected holder's price and bounds all of them |
| ParseCapTable.ValuationAtMaxCorrect | skills/cap-table-modeling/scripts/parse_captable.py:226-231 | the implied valuation (`ImpliedValuation` is this function with the preferred-class test and the fully diluted count) exists exactly when some preferred holder paid a positive price, and is then some preferred holder's price times the fully diluted shares, with no preferred price giving more |
| ParseCapTable.GenerateSummary | skills/cap-table-modeling/scripts/parse_captable.py:204-233 | counts copied; ownership by type keyed by exactly the holder types present and summing each type's ownership; total invested; implied valuation |
| RoundModel.OptionPoolShuffle | skills/cap-table-modeling/scripts/model_round.py:63-91 | no increase and the same pre-money when the target does not exceed the current pool; otherwise the difference, the floor of that fraction of the shares, and the pre-money reduced by it |
| RoundModel.ModelRound | skills/cap-table-modeling/scripts/model_round.py:94-209 | the round model: terms, dilution records, the post-money table with the new investor last |
| RoundModel.RoundPricing | skills/cap-table-modeling/scripts/model_round.py:120-130 | price times shares after the pool is the nominal pre-money; post-money is pre-money plus investment; investor shares are the floor of investment over price |
| RoundModel.RoundTotals | skills/cap-table-modeling/scripts/model_round.py:191-197 | the post-money table counts its outstanding and fully diluted shares alike, as the old fully diluted shares plus the pool increase plus the new shares, and its pool as the old pool plus the increase |
| RoundModel.PostMoneyHolders | skills/cap-table-modeling/scripts/model_round.py:169-188 | existing holders keep order and shares and get their diluted percentage, which never rises and falls when shares were issued; the new investor comes last with the round's class |
| RoundModel.DilutionRecords | skills/cap-table-modeling/scripts/model_round.py:148-167 | one record per existing holder, shares unchanged, post percentage over the post-money total, dilution pre minus post |
| RoundModel.RedilutedShares | skills/cap-table-modeling/scripts/model_round.py:171-175 | re-diluting keeps the total shares and the ownerships sum to those shares over the new total |
| RoundModel.ShareAccounting | skills/cap-table-modeling/scripts/model_round.py:120-199 | the post-money total is the pre-money shares plus the pool increase plus the investor shares; the pool increase belongs to no holder |
| RoundModel.PoolPost | skills/cap-table-modeling/scripts/model_round.py:190-192 | the post-round pool counts the old pool plus the increase, over the post-money total |
| RoundModel.LargerWholeSmallerPercent | skills/cap-table-modeling/scripts/model_round.py:155 | the same shares over a larger total never give a larger percentage, and give a smaller one when the shares are positive and the total strictly grows |
| RoundModel.WorkedExample | skills/cap-table-modeling/scripts/model_round.py:120-133 | $2M at $8M pre on 10,000,000 shares: price $0.80, 2,500,000 new shares, 20% to the investor |
| Waterfall.SeniorityOf | skills/cap-table-modeling/scripts/waterfall_analysis.py:81-97 | seniority in [0, 4], 0 exactly for non-preferred labels |
| Waterfall.ClassesFrom | skills/cap-table-modeling/scripts/waterfall_analysis.py:72-113 | one class per distinct label |
| Waterfall.AddHolder | skills/cap-table-modeling/scripts/waterfall_analysis.py:77-111 | one iteration keeps the dictionary equal to the classes of the holders seen, in first-seen order |
| Waterfall.ExtractShareClasses | skills/cap-table-modeling/scripts/waterfall_analysis.py:72-113 | the classes in first-seen order of label, each with the share and investment sums of its holders and the terms of the holder that opened it |
| Waterfall.ClassValues | skills/cap-table-modeling/scripts/waterfall_analysis.py:113 | one value per inserted key: the j-th listed class is the dictionary's entry for the j-th label inserted |
| Waterfall.ValuesAreClasses | skills/cap-table-modeling/scripts/waterfall_analysis.py:77-113 | once every holder is added, the dictionary's values in insertion order are the extracted classes, in first-seen order of label |
| Waterfall.PayClass | skills/cap-table-modeling/scripts/waterfall_analysis.py:145-150 | each holder of the class is credited its share-weighted cut of the payment, by name and by class |
| Waterfall.PayPreference | skills/cap-table-modeling/scripts/waterfall_analysis.py:133-150 | one class of pass 1: a preferred class takes its invested amount times its preference multiple, capped by what is left, and its holders are credited that payment; a common class is skipped and nothing changes |
| Waterfall.PayPreferences | skills/cap-table-modeling/scripts/waterfall_analysis.py:132-150 | pass 1: what remains, and each holder's and class's pass-1 proceeds |
| Waterfall.DistributeRemaining | skills/cap-table-modeling/scripts/waterfall_analysis.py:152-161 | pass 2 credits each holder its fraction of the fully diluted shares |
| Waterfall.BuildProceeds | skills/cap-table-modeling/scripts/waterfall_analysis.py:165-182 | one proceeds record per holder, read from its name's total, with ROI and percentage of the exit |
| Waterfall.ProceedsList | skills/cap-table-modeling/scripts/waterfall_analysis.py:166-182 | one record per holder, in holder order, built from that holder's name total |
| Waterfall.ClassNamesCover | skills/cap-table-modeling/scripts/waterfall_analysis.py:127-161 | every holder's label and every sorted class is a key of the class accumulator |
| Waterfall.RunPasses | skills/cap-table-modeling/scripts/waterfall_analysis.py:125-163 | the by-name and by-class totals after pass 1 and pass 2, and a remainder of 0 once pass 2 has run |
| Waterfall.CalculateWaterfall | skills/cap-table-modeling/scripts/waterfall_analysis.py:116-190 | the scenario is `Scenario` of the table and exit: per-holder proceeds, class proceeds, remainder and total distributed, whose conservation the WaterfallLaws lemmas state |
| Waterfall.GenerateWaterfallScenarios | skills/cap-table-modeling/scripts/waterfall_analysis.py:193-198 | the list is `Scenario` mapped over the exit values, in order |
| Waterfall.ScenariosAt | skills/cap-table-modeling/scripts/waterfall_analysis.py:193-198 | the list has one entry per exit value and the entry at index i is the scenario of the i-th exit value alone, independent of the others |
| WaterfallLaws.RemainingNonneg | skills/cap-table-modeling/scripts/waterfall_analysis.py:141-142 | a non-negative exit leaves a non-negative remainder after pass 1 |
| WaterfallLaws.RemainingClosedForm | skills/cap-table-modeling/scripts/waterfall_analysis.py:133-142 | with non-negative claims, pass 1 leaves max(0, exit minus all preferred claims) |
| WaterfallLaws.PaidInFull | skills/cap-table-modeling/scripts/waterfall_analysis.py:138-141 | a preferred class receives its whole claim exactly when the exit covers it on top of the senior claims |
| WaterfallLaws.PaidNothing | skills/cap-table-modeling/scripts/waterfall_analysis.py:138-141 | a preferred class receives nothing exactly when the senior claims use up the exit |
| WaterfallLaws.ScenarioDistributesAll | skills/cap-table-modeling/scripts/waterfall_analysis.py:153-189 | for a non-negative exit the reported remainder is 0 and the distributed total is the exit value |
| WaterfallLaws.ProRataSum | skills/cap-table-modeling/scripts/waterfall_analysis.py:156-160 | pass 2 hands out the residual in proportion to the shares held |
| WaterfallLaws.ClassStepSum | skills/cap-table-modeling/scripts/waterfall_analysis.py:145-150 | a class payment is handed out in proportion to the class's shares held |
| WaterfallLaws.Pass1Conserves | skills/cap-table-modeling/scripts/waterfall_analysis.py:133-150 | when every preferred class has shares, pass 1 credits exactly what it takes from the exit |
| WaterfallLaws.ClassProceedsConserve | skills/cap-table-modeling/scripts/waterfall_analysis.py:116-190 | for a non-negative exit, when holders own every fully diluted share and every preferred class holds shares, class proceeds summed over the classes equal the exit value |
| WaterfallLaws.HolderProceedsConserve | skills/cap-table-modeling/scripts/waterfall_analysis.py:116-190 | for a non-negative exit, when holders own every fully diluted share and every preferred class holds shares, proceeds summed over the distinct holder names equal the exit value |
| WaterfallLaws.PreferredClaimsNonneg | skills/cap-table-modeling/scripts/waterfall_analysis.py:133-139 | non-negative claims add up to non-negative preferred claims |
| WaterfallLaws.GroupSumZero | skills/cap-table-modeling/scripts/waterfall_analysis.py:145-150 | an amount none of a key's holders receives credits that key 0 |
| WaterfallLaws.Pass1ZeroAtZero | skills/cap-table-modeling/scripts/waterfall_analysis.py:138-141 | with non-negative claims an exit of 0 pays every preferred class 0 in pass 1 |
| WaterfallLaws.Pass1OnlyPreferred | skills/cap-table-modeling/scripts/waterfall_analysis.py:133-150 | pass 1 credits a holder nothing unless a preferred class carries its label |
| WaterfallLaws.SortedPreferredLabels | skills/cap-table-modeling/scripts/waterfall_analysis.py:85-88 | every class typed preferred has a label containing "preferred" |
| WaterfallLaws.LabelInvestedNonneg | skills/cap-table-modeling/scripts/waterfall_analysis.py:110 | non-negative investments give a label a non-negative invested total |
| WaterfallLaws.ClassClaimNonneg | skills/cap-table-modeling/scripts/waterfall_analysis.py:85-110 | non-negative investments give a class a non-negative claim |
| WaterfallLaws.InvestedClaimsNonneg | skills/cap-table-modeling/scripts/waterfall_analysis.py:85-139 | non-negative investments give every sorted class a non-negative claim |
| WaterfallLaws.ClaimsAbsorbExit | skills/cap-table-modeling/scripts/waterfall_analysis.py:133-163 | an exit within the preferred claims leaves no residual, so pass 2 adds nothing |
| WaterfallLaws.ZeroExitNothingUnder | skills/cap-table-modeling/scripts/waterfall_analysis.py:127-163 | at an exit of 0 every holder name and every class is credited 0 |
| WaterfallLaws.ClaimsCoverExitUnder | skills/cap-table-modeling/scripts/waterfall_analysis.py:133-163 | an exit within the preferred claims credits 0 to a name or class held only outside preferred classes |
| WaterfallLaws.ZeroExitPaysNobody | skills/cap-table-modeling/scripts/waterfall_analysis.py:116-190 | at an exit of 0 every holder record and every class total of the scenario is 0, and 0 is distributed |
| WaterfallLaws.ClaimsCoverExit | skills/cap-table-modeling/scripts/waterfall_analysis.py:116-190 | an exit within the preferred claims pays 0 to every holder record whose name is held only in common classes and to every non-preferred class |
| WaterfallLaws.TwoProceeds | skills/cap-table-modeling/scripts/waterfall_analysis.py:132-161 | one common and one preferred holder: under either holder's name or share class, the preferred holder receives min(invested, exit) first and then each holder receives its share fraction of what is left |
| WaterfallLaws.SeedSplit | skills/cap-table-modeling/scripts/waterfall_analysis.py:132-161 | seed table (8M common, 2M preferred for $5M): at any exit the investor gets up to $5M then 20% of the rest, the founder 80% |
| WaterfallLaws.SeedClassSplit | skills/cap-table-modeling/scripts/waterfall_analysis.py:132-161 | in the seed table the common class receives the founder's share and the preferred class the investor's |
| WaterfallLaws.SeedHolders | skills/cap-table-modeling/scripts/waterfall_analysis.py:165-182 | the seed scenario's two holder records carry those proceeds |
| WaterfallLaws.SeedClasses | skills/cap-table-modeling/scripts/waterfall_analysis.py:127-161 | the seed scenario's class totals carry those proceeds |
| WaterfallLaws.SeedRemaining | skills/cap-table-modeling/scripts/waterfall_analysis.py:153-189 | the seed scenario's remainder and distributed total |
| WaterfallLaws.SeedLowExit | skills/cap-table-modeling/scripts/waterfall_analysis.py:116-190 | a $3M exit: founder 0, investor $3M with ROI -0.4, remaining 0 |
| WaterfallLaws.SeedHighExit | skills/cap-table-modeling/scripts/waterfall_analysis.py:116-190 | a $50M exit: founder $36M, investor $14M with ROI 1.8 and 28% of the exit, $50M distributed |
| Scorecard.RiskWeightsSumToOne | skills/risk-framework/scripts/generate_scorecard.py:30-53 | the eleven risk weights add up to 1 |
| Scorecard.LtvCacStep | skills/risk-framework/scripts/generate_scorecard.py:87-97 | messages agree with the adjustment's sign; a missing or non-positive LTV:CAC changes nothing |
| Scorecard.MarginStep | skills/risk-framework/scripts/generate_scorecard.py:99-108 | messages agree with the adjustment; a non-positive margin changes nothing |
| Scorecard.NrrStep | skills/risk-framework/scripts/generate_scorecard.py:110-120 | messages agree with the adjustment |
| Scorecard.RunwayStep | skills/risk-framework/scripts/generate_scorecard.py:142-154 | messages agree with the adjustment; a non-positive runway changes nothing |
| Scorecard.BurnStep | skills/risk-framework/scripts/generate_scorecard.py:156-168 | exactly one message always; a non-positive burn multiple counts as reasonable (+0.5) |
| Scorecard.GrowthStep | skills/risk-framework/scripts/generate_scorecard.py:190-205 | exactly one message; messages agree with the adjustment |
| Scorecard.ChurnStep | skills/risk-framework/scripts/generate_scorecard.py:207-218 | exactly one message; messages agree with the adjustment |
| Scorecard.Clamp | skills/risk-framework/scripts/generate_scorecard.py:122 | the result lies in [1, 10] and is the input when it already does |
| Scorecard.ScoreBusinessModel | skills/risk-framework/scripts/generate_scorecard.py:79-131 | the business-model score from 6.0 with the three steps in order, clamped |
| Scorecard.ScoreCapitalization | skills/risk-framework/scripts/generate_scorecard.py:134-179 | the capitalization score from runway then burn multiple |
| Scorecard.ScoreMarketAdoption | skills/risk-framework/scripts/generate_scorecard.py:182-229 | the market-adoption score from growth then churn |
| Scorecard.BusinessModelRange | skills/risk-framework/scripts/generate_scorecard.py:83-127 | the unclamped score lies in [2, 9.5] and is a whole number of halves, so clamping and rounding leave it unchanged |
| Scorecard.CapitalizationRange | skills/risk-framework/scripts/generate_scorecard.py:138-175 | the score lies in [2.5, 9], unclamped and unrounded |
| Scorecard.MarketAdoptionRange | skills/risk-framework/scripts/generate_scorecard.py:186-225 | the score lies in [2.5, 9], unclamped and unrounded |
| Scorecard.StepsMonotone | skills/risk-framework/scripts/generate_scorecard.py:87-218 | a better metric never lowers its adjustment (for positive values where zero means missing) |
| Scorecard.MissingBeatsWeak | skills/risk-framework/scripts/generate_scorecard.py:88-168 | a missing LTV:CAC, margin or runway adds 0 to the score, more than any value in the metric's weak band (LTV:CAC in (0, 3), margin in (0, 60), runway in (0, 12)); a missing burn multiple adds 0.5, more than any multiple above 1.5 |
| Scorecard.GenerateDefaultScores | skills/risk-framework/scripts/generate_scorecard.py:232-245 | the neutral scores of the risks not computed, in table order |
| Scorecard.DefaultScoresListed | skills/risk-framework/scripts/generate_scorecard.py:232-245 | exactly the eight risks other than 2, 3 and 7, each 6.0 with its weight and a manual-assessment note |
| Scorecard.WeightedScoreBetween | skills/risk-framework/scripts/generate_scorecard.py:248-251 | with non-negative weights the weighted score lies between the lowest and highest score times the weight total |
| Scorecard.FirstVetoCorrect | skills/risk-framework/scripts/generate_scorecard.py:254-265 | no veto exactly when no score has one; otherwise it is the veto of the first score that has one |
| Scorecard.CheckVetoRules | skills/risk-framework/scripts/generate_scorecard.py:254-265 | the loop returns the first score's veto, rules tested in order |
| Scorecard.GetRecommendation | skills/risk-framework/scripts/generate_scorecard.py:268-282 | PASS exactly on a veto; without one, strong conviction exactly at 8 or more and clear pass exactly below 5 |
| Scorecard.RecommendationMonotone | skills/risk-framework/scripts/generate_scorecard.py:273-282 | a higher weighted score never earns a worse tier |
| Scorecard.AllScoresWeights | skills/risk-framework/scripts/generate_scorecard.py:380-385 | the assembled scorecard has eleven scores whose weights add up to 1 |
| Scorecard.AllScoresInRange | skills/risk-framework/scripts/generate_scorecard.py:380-385 | every assembled score lies in [1, 10] with a non-negative weight |
| Scorecard.AllScoresWeighted | skills/risk-framework/scripts/generate_scorecard.py:388 | the weighted score of the scorecard lies in [1, 10] |
| Scorecard.AllScoresVeto | skills/risk-framework/scripts/generate_scorecard.py:391 | the scorecard vetoes exactly when the business-model score is below 3, with that veto |
| ValuationContext.FirstReached | skills/austin-market/scripts/valuation_context.py:57-62 | the category is Slow or that of a table row whose threshold the growth reaches |
| ValuationContext.GrowthCategoryBands | skills/austin-market/scripts/valuation_context.py:48-62 | hypergrowth exactly at 100% or more, high growth in [50, 100), growth in [25, 50), moderate in [10, 25), slow below 10 |
| ValuationContext.MultiplesOf | skills/austin-market/scripts/valuation_context.py:48-54 | each category's row is in the table and its low multiple is positive and below its high one |
| ValuationContext.GrowthCategoryMonotone | skills/austin-market/scripts/valuation_context.py:48-62 | more growth never earns a lower category or lower multiples |
| ValuationContext.CalculateArrValuation | skills/austin-market/scripts/valuation_context.py:65-79 | the category of the growth; low and high are ARR times the multiples; mid is their average |
| ValuationContext.ArrValuationOrdered | skills/austin-market/scripts/valuation_context.py:65-79 | low <= mid <= high for a non-negative ARR, reversed for a negative one |
| ValuationContext.BenchmarksFor | skills/austin-market/scripts/valuation_context.py:82 | an unknown stage falls back to seed; the benchmarks are positive and ordered |
| ValuationContext.CompareToBenchmarks | skills/austin-market/scripts/valuation_context.py:82-98 | below median exactly under the Austin median; at median from the median up to the high; above median at the high or more |
| ValuationContext.PositionAgreesWithPercent | skills/austin-market/scripts/valuation_context.py:86-98 | below median exactly when the percentage against the Austin median is negative |
| ValuationContext.AustinDiscountPositive | skills/austin-market/scripts/valuation_context.py:17-36 | every stage's Austin median is below its Bay Area median |
| ValuationContext.GenerateContextReport | skills/austin-market/scripts/valuation_context.py:101-158 | the report is `ContextReport` of the inputs: the ARR analysis, the comparison of the proposed valuation (or the ARR midpoint), the sector premium and the recommendations that ReportRecommendations states |
| ValuationContext.Recommend | skills/austin-market/scripts/valuation_context.py:137-156 | the messages are appended in the report's order: the premium-sector or pushback message when above median, then the Austin discount, then the growth premium |
| ValuationContext.ReportRecommendations | skills/austin-market/scripts/valuation_context.py:138-156 | at most three; the sector message or the pushback exactly when above median, chosen by the premium; the discount exactly under -30% against the Bay Area; the growth message exactly at 50% growth or more |
| ValuationContext.ReportUsesMidWithoutProposal | skills/austin-market/scripts/valuation_context.py:114 | with no (or a zero) proposed valuation the report compares the middle of the ARR range |
| InvestorLookup.SectorKey | skills/austin-market/scripts/investor_lookup.py:110 | the key has the sector's length, no upper-case letter, no space and no slash |
| InvestorLookup.NormalizeSector | skills/austin-market/scripts/investor_lookup.py:108-126 | an alias maps to its target, anything else to enterprise SaaS; the result is always a key of the specialist table |
| InvestorLookup.NormalizeSectorIgnoresCase | skills/austin-market/scripts/investor_lookup.py:110 | normalisation ignores letter case |
| InvestorLookup.ScoreValues | skills/austin-market/scripts/investor_lookup.py:142-153 | the score is 50, 70, 80 or 100; 50 without a sector; at least 80 exactly on a focus match; 70 or 100 exactly for a specialist |
| InvestorLookup.Annotated | skills/austin-market/scripts/investor_lookup.py:141-158 | each investor of the stage with its score, in database order |
| InvestorLookup.FindInvestors | skills/austin-market/scripts/investor_lookup.py:129-163 | the scored stage list sorted by descending score |
| InvestorLookup.ScoreInvestors | skills/austin-market/scripts/investor_lookup.py:137-158 | each investor of the stage paired with its match score (50, plus 30 for a focus match and 20 for a listed specialist when a sector is given), in database order |
| InvestorLookup.RankedCorrect | skills/austin-market/scripts/investor_lookup.py:135-163 | the same length as the stage list; a permutation of the scored investors; sorted descending; ties in database order; each score is the investor's; an unknown stage gives none |
| InvestorLookup.NoSectorKeepsOrder | skills/austin-market/scripts/investor_lookup.py:140-161 | without a sector the ranking is the database order |
| InvestorLookup.GenerateInvestorReport | skills/austin-market/scripts/investor_lookup.py:166-187 | the investors are the ranking; the top recommendations are its first min(3, n); the total found is its length |
| InvestorLookup.TopHoldsBest | skills/austin-market/scripts/investor_lookup.py:161-182 | no top recommendation scores below any other investor |
| InvestorLookup.CheckSizeIgnored | skills/austin-market/scripts/investor_lookup.py:129-163 | the check size asked for changes neither the ranking nor the top recommendations |
| SaasMetrics.MrrMetricsOf | skills/saas-metrics/scripts/calculate_metrics.py:64-71 | MRR is the current MRR; yearly growth 0; growth 0 when the previous MRR is not positive |
| SaasMetrics.ArrIsTwelveMonths | skills/saas-metrics/scripts/calculate_metrics.py:68 | ARR is twelve times MRR, and positive exactly when MRR is |
| SaasMetrics.MrrGrowthRoundTrip | skills/saas-metrics/scripts/calculate_metrics.py:64 | growing the previous MRR by the percentage gives the current MRR; growth is positive, zero or above -100 as the MRR grew, stayed or stayed non-negative |
| SaasMetrics.GenerateFlags | skills/saas-metrics/scripts/calculate_metrics.py:74-119 | the flags of the five threshold rules, in check order |
| SaasMetrics.FlagsOverCorrect | skills/saas-metrics/scripts/calculate_metrics.py:74-119 | a flag is raised exactly for the rules that fire, with their severity, in rule order |
| SaasMetrics.FlagsOverMembers | skills/saas-metrics/scripts/calculate_metrics.py:74-119 | at most one flag per checked metric, and a flag exactly for each metric whose rule fires, carrying that rule's severity |
| SaasMetrics.FlagsOverOrdered | skills/saas-metrics/scripts/calculate_metrics.py:74-119 | the flags appear in the order the rules are checked |
| SaasMetrics.FlagsCorrect | skills/saas-metrics/scripts/calculate_metrics.py:78-117 | high LTV:CAC below 2, medium in [2, 3); churn above 5; NRR below 100; burn above 2.5; runway below 12; with the defaults 0, 0, 100, 0 and 999; only LTV:CAC can be medium |
| SaasMetrics.FlagsOrdered | skills/saas-metrics/scripts/calculate_metrics.py:74-119 | at most five flags, strictly in check order |
| SaasMetrics.NoMetricsFlagsLtv | skills/saas-metrics/scripts/calculate_metrics.py:78 | with no metrics only the high LTV:CAC flag is raised |
| CohortAnalysis.MonthOffsetSign | skills/saas-metrics/scripts/cohort_analysis.py:57-58 | on valid months a period is at or after the cohort exactly when its offset is non-negative; offset 0 is the cohort month |
| CohortAnalysis.ActiveIds | skills/saas-metrics/scripts/cohort_analysis.py:61-66 | active customers are cohort customers |
| CohortAnalysis.LogoRetentionBounds | skills/saas-metrics/scripts/cohort_analysis.py:66-68 | logo retention lies in [0, 100] |
| CohortAnalysis.RevenueRetention | skills/saas-metrics/scripts/cohort_analysis.py:105 | 0 when the initial MRR is not positive |
| CohortAnalysis.RevenueRetentionRoundTrip | skills/saas-metrics/scripts/cohort_analysis.py:105 | the percentage times the initial MRR is 100 times the period MRR; at least 100 exactly when revenue did not shrink; non-negative for non-negative revenue |
| CohortAnalysis.RetentionRowCorrect | skills/saas-metrics/scripts/cohort_analysis.py:56-69 | a row has a column exactly for the offsets of periods at or after the cohort; all non-negative, all values in [0, 100] |
| CohortAnalysis.NrrRowCorrect | skills/saas-metrics/scripts/cohort_analysis.py:88-106 | revenue-row offsets are non-negative and month 0 shows 100 (or 0 with no initial MRR) |
| CohortAnalysis.GenerateFlags | skills/saas-metrics/scripts/cohort_analysis.py:154-189 | the flags are `Flags` of the averages: the 3-month retention flag, then the 6-month NRR flag, as FlagsCorrect states |
| CohortAnalysis.FlagsCorrect | skills/saas-metrics/scripts/cohort_analysis.py:154-189 | at most two; high 3-month below 70, medium in [70, 85), reporting the value; high 6-month NRR below 90; no flag for a missing month; 3-month first |
| CartaOwnership.BucketOfPrecedence | skills/carta-integration/scripts/carta_client.py:212-220 | each bucket exactly when its word appears and no earlier one does: founder, investor, employee, pool or option; none otherwise |
| CartaOwnership.BucketOfCaseInsensitive | skills/carta-integration/scripts/carta_client.py:212 | bucketing ignores letter case |
| CartaOwnership.MissingCategoryUnmatched | skills/carta-integration/scripts/carta_client.py:212 | a stakeholder without a category falls in no bucket |
| CartaOwnership.ExtractOwnershipMetrics | skills/carta-integration/scripts/carta_client.py:190-222 | type and totals copied with their defaults; stakeholder count is the list length; with a positive total each bucket is the sum of its members' percentages, otherwise all four are 0 |
| CartaOwnership.BucketsPartition | skills/carta-integration/scripts/carta_client.py:207-220 | the four buckets plus the unmatched stakeholders add up to all stakeholders' percentages |
| CartaOwnership.BucketNonNegative | skills/carta-integration/scripts/carta_client.py:209-220 | with no negative share counts every bucket is non-negative |
| CartaOwnership.TotalPctScales | skills/carta-integration/scripts/carta_client.py:210 | the summed percentages are the summed shares over the total, times 100 |
| CartaOwnership.BucketsBounded | skills/carta-integration/scripts/carta_client.py:207-220 | the four buckets never exceed all stakeholders' percentages, and stay within 100 when the shares do not exceed the total |

## Left out

- File and command-line handling: CSV, Excel and JSON reading and writing, `argparse` mains, and Excel export. Inputs are values: a frame of converted cells, a cap-table record, a metrics record.
- Timestamps and `as_of_date`: the date is a parameter of the parser, and the reports carry no timestamp.
- Cell conversion: `str()`, `int()` and `float()` of spreadsheet cells, and NaN, are not modelled. Rows hold already-converted values.
- `round(x, 2)` and `round(x, 1)`: the model keeps unrounded values throughout.
  - Scorecard scores are proved to be whole numbers of halves, so `round(score, 1)` is the identity there.
  - The weighted score, the waterfall's proceeds, ROI and percentages, and the round model's percentages are unrounded.
- Message text: evidence, concerns, flags and recommendations are constructors carrying the quoted value, not formatted strings.
- Letter case: lower-casing and stripping are ASCII only.
- Duplicate column names after normalisation are not modelled.
- RoundModel.ModelRound: requires a positive fully diluted count, a positive pre-money and a non-negative investment. The source checks none of these; they make its divisions and truncation defined. A zero or negative input would make Python raise or produce negative shares.
- ParseCapTable.ParseGenericCapTable: requires a shares column whenever the class loop reads one, which is exactly the condition under which pandas does not raise a KeyError.
- Participation, participation caps, anti-dilution and pro-rata fields are carried in the records, but no code applies them.
- The waterfall's `load_cap_table` JSON unwrapping is modelled as two conversions, from a parsed table and from a post-money table, rather than over raw JSON.
- The scorecard reads its metrics as a record of optional values standing in for `data.get('metrics', {})`. JSON `null` values are not modelled. `load_analysis_data` and the markdown rendering are left out.
- Cohort matrices: data-frame filtering and `nunique` are modelled over sequences of revenue rows. `calculate_cohort_metrics` (averages over data frames) is left out. The flags read the averages as given maps, and a missing averages dictionary is an empty map.
- Current and previous MRR are inputs of SaasMetrics.MrrMetricsOf. The date filtering that sums them from revenue rows is a pandas computation and is left out.
- The Carta client's OAuth, HTTP and portfolio calls are left out; only the ownership classifier is modelled.
- Floating point: all arithmetic is exact.
