# Investwise advisor core in Dafny

Investwise is a robo-advisor. Its backend class `FinancialAdvisorAI` turns a
user's questionnaire into two results.

- **Behavioural assessment.** Three rules report the biases `overconfidence_bias`,
  `loss_aversion` and `sector_bias`, and set a confidence level. A baseline of 5
  is adjusted for age, experience and income, then clamped to 1..10. The score
  picks one of four profile labels.
- **Investment recommendation.** The risk score picks one of three allocation
  tables (conservative, moderate, growth). The fund list gives one fund per
  funded category, in a fixed order. The rationale, the risk-mitigation lines and
  an expected-return band follow from the assessment and the allocation.

This project models those computations and proves what they guarantee. A
recommendation always has funds, its percentages add up to 100, and its expected
return's lower bound lies between 7% and 12% (the band's top is 2 points higher).
Each bias yields exactly its own mitigation lines
and rationale note. A label always goes with its table. The step-by-step methods
compute exactly what the specification functions describe.

Modules:

- `Wrappers`: `Option`.
- `Seqs`: order-preserving filter (`Select`) and its lemmas.
- `Text`: ASCII lower-casing and substring search.
- `Behaviour`: the questionnaire, the bias rules, the risk score, the profile label,
  and the analysis method.
- `Allocation`: categories, allocation maps and the three tables.
- `Funds`: the fund catalogue and the fund-list method.
- `Advice`: risk mitigation, rationale and expected returns.
- `Advisor`: the recommendation method that ties these together.

Text output is modelled as structured values. Each risk-mitigation line is a
`Strategy`; its `Text()` is the exact source string. Each rationale line is a
`RationaleLine` that carries the numbers the text quotes. Expected returns are
integers in hundredths of a percent: 1040 means 10.40%.

## Model

| member | source | states |
|---|---|---|
| Behaviour.AnalyzeBehavioralProfile | backend/server.py:94-140 | The rule-by-rule analysis returns exactly `Biases(u)`, `ConfidenceFor(u)`, `RiskScore(u)` and the label `ProfileFor` of that score. |
| Behaviour.Biases | backend/server.py:98-109 | A bias is reported iff its rule fires: beginner experience, low tolerance, or "technology" inside the lower-cased occupation. Each bias appears once, in rule order. |
| Behaviour.BiasesInRuleOrder | backend/server.py:101-109 | The reported list is the overconfidence tag, then loss aversion, then sector bias, each included only when its rule fires. |
| Behaviour.ConfidenceFor | backend/server.py:99-103 | Confidence is low iff the overconfidence bias is reported; otherwise it is medium. |
| Behaviour.RiskScore | backend/server.py:111-131 | The reported score is always within 1..10. |
| Behaviour.ClampNeverBinds | backend/server.py:116-131 | Baseline plus adjustments already lies in 3..10, so the clamp never changes the score. |
| Behaviour.ScoreMonotoneInIncome | backend/server.py:128-129 | With the other answers fixed, a higher income never lowers the score. |
| Behaviour.ScoreAntitoneInAge | backend/server.py:118-121 | With the other answers fixed, a higher age never raises the score. |
| Behaviour.MissingExperience | backend/server.py:101-126 | Without an experience answer, the bias rule reports no overconfidence and confidence stays medium. The score is still lowered as for the default "beginner". |
| Behaviour.ProfileTiers | backend/server.py:142-151 | The label function `ProfileFor` gives Conservative iff score ≤ 3; Moderate iff 3 < score ≤ 6; Balanced iff 6 < score ≤ 8; Growth iff score > 8. |
| Behaviour.ProfileMonotone | backend/server.py:142-151 | A higher score never gives a lower label. |
| Behaviour.TestUserAssessment | backend_test.py:24-34 | The test user (30, actor, beginner, low tolerance, 75000) gets `[overconfidence_bias, loss_aversion]`, low confidence, score 6 and "Moderate Investor". |
| Text.Lower | backend/server.py:108 | Lower-casing keeps the length and lower-cases each character. |
| Text.ContainsAt | backend/server.py:108 | `Contains`, the model of Python's `in` on strings, holds iff the pattern occurs at some index of the text. |
| Allocation.Table | backend/server.py:162-184 | Every table entry is positive and the entries add up to 100. |
| Allocation.AllocationFor | backend/server.py:162-184 | The allocation chosen for any score has positive entries that add up to 100. |
| Allocation.TierBoundaries | backend/server.py:162-177 | The table choice `TierFor` picks the conservative table iff score ≤ 3, the moderate iff 3 < score ≤ 6, the growth iff score > 6. |
| Allocation.RiskShiftsTowardsEquity | backend/server.py:162-184 | A higher score never lowers the equity share and never raises the debt share. |
| Funds.FundList | backend/server.py:206-264 | A category has a fund iff its percentage is positive. Each fund carries its category's percentage. Funds follow the fixed category order. |
| Funds.GetMutualFundRecommendations | backend/server.py:206-264 | The append-per-category method returns exactly `FundList(a)`. |
| Funds.FundListStep | backend/server.py:210-262 | Checking one more category appends its fund iff that category is funded. |
| Funds.FundPercentagesAddUp | backend/server.py:206-264 | For non-negative allocations, the funds' percentages add up to the allocation's total. |
| Funds.TableFundList | backend/server.py:162-264 | For every score, the fund list is non-empty and its percentages add up to 100. |
| Funds.FundListExpanded | backend/server.py:210-262 | The fund list is the six categories' contributions concatenated in source order. |
| Funds.ModerateFundList | backend/server.py:169-264 | The moderate table yields five funds, all but small cap, with percentages 30/25/25/15/5. |
| Advice.StrategiesFor | backend/server.py:303-313 | Each bias gets two lines, and a line is among them iff it addresses that bias. |
| Advice.RiskMitigation | backend/server.py:299-318 | The output has 2 + 2 × (number of distinct biases) lines and ends with the two closing lines. A line appears iff it is a closing line or addresses a reported bias. |
| Advice.GenerateRiskMitigation | backend/server.py:299-318 | The rule-by-rule method returns exactly `RiskMitigation(biases)`. |
| Advice.MitigationInRuleOrder | backend/server.py:303-316 | The lines are loss aversion's, then overconfidence's, then sector bias's, each only if present, then the closing two. |
| Advice.Rationale | backend/server.py:266-297 | The rationale has 6 + (number of distinct biases) lines. It holds a note for a bias iff that bias is reported. The risk line quotes the debt share; the growth line quotes large plus mid cap. |
| Advice.GenerateRationale | backend/server.py:266-297 | The method that appends the text piece by piece returns exactly `Rationale(u, a, alloc)`. |
| Advice.RationaleLayout | backend/server.py:266-297 | Line by line: the first three lines are the opening with age and label, the horizon (long iff age < 40, the default age being 30), and the heading. Next come the loss-aversion, sector and overconfidence notes, each only if that bias is reported. The last line is the diversification line. |
| Advice.RationaleInRuleOrder | backend/server.py:280-287 | The bias notes come in the order loss aversion, sector bias, overconfidence, each only if present. |
| Advice.RationaleEquityOmitsSmallCap | backend/server.py:289-292 | Under the growth table, the rationale quotes 55% equity while the equity share is 75%, because small cap is not counted. |
| Advice.ExpectedReturns | backend/server.py:320-332 | The lower bound is the allocation weighted by per-category returns (equity 12, debt 7, hybrid 10, international 11). The upper bound is 2 points higher; both are before the `:.1f` rounding. |
| Advice.WeightedBounds | backend/server.py:326-330 | For non-negative weights, the weighted sum is between 7 and 12 times the total weight. |
| Advice.ReturnWithinRates | backend/server.py:320-332 | For an allocation of non-negative percentages summing to 100, the lower bound lies between 7% and 12%. |
| Advice.TableReturns | backend/server.py:162-184 | The three tables give lower bounds of 9.80%, 10.40% and 11.15%. |
| Advisor.GenerateInvestmentRecommendations | backend/server.py:153-204 | The allocation is the table for the stored score, and each part equals its specification function. The funds are non-empty and sum to 100, and the return starts between 7% and 12%. |
| Advisor.LabelMatchesTable | backend/server.py:142-184 | A conservative label goes with the conservative table and a moderate label with the moderate table. Balanced and growth labels both go with the growth table. |
| Advisor.TestUserRecommendation | backend_test.py:24-34 | The test user gets the moderate table, five funds, six mitigation lines and a 10.40%–12.40% band. |
| Advisor.TestUserMitigation | backend/server.py:303-316 | Two distinct biases give six mitigation lines. |

## Left out

- The HTTP routes, MongoDB persistence, the OpenAI chat and its system message, the CORS set-up, and the async machinery are not modelled; they are I/O around the core.
- Text formatting is not modelled: the f-string layout and whitespace, the `:.1f` rounding of returns, and the `"\n".join`. Lines are structured values, and returns are exact integers in hundredths of a percent. The model's value is the weighted return before that rounding. For the growth table the model holds 11.15%–13.15%, while the printed band is "11.2% - 13.2%".
- Lower-casing covers ASCII only. Python's Unicode case mapping is not modelled.
- Income is a `real`. A JSON integer or float becomes an exact number, and float rounding is not modelled.
- A field that is present but null (`None`) is not modelled. An absent answer is `None` in the model and takes the source's default. A stored null would make the source compare `None` or fail on `.lower()`.
- Bias tags other than the three the analysis produces are not modelled. The rationale and mitigation rules test only those three strings, so other tags would be ignored.
- Parameters the source accepts but never reads are dropped: the bias list of `_get_behavioral_profile`, the profile of `_get_mutual_fund_recommendations`, the risk score of `_calculate_expected_returns`, and the age and goals read in `generate_investment_recommendations`.
- The questionnaire fields the core never reads (name, savings, goals, timeline) are not part of the model's `UserData`.
- The assessment passed to `Advisor.GenerateInvestmentRecommendations` is any `Assessment`, as the source accepts any stored analysis. Only the test-user lemma ties it to `AnalyzeBehavioralProfile`.
