# CoreFlow budget engine, modelled in Dafny

This project models the calculation engine of the CoreFlow personal-finance
navigator (`engine/budget.py`). The engine turns a monthly income, fixed
commitments, a lifestyle and a mood into a budget plan. It projects a monthly
saving forward as nominal and inflation-adjusted wealth. It grades the
savings rate and picks the clauses of a short narrative. The engine never
fails: unknown lifestyles and moods, non-positive income and non-positive
savings all have defined results.

Files and modules:

- `wrappers.dfy`, module `Wrappers`: an `Option` type.
- `config.dfy`, module `Config`: the lifestyle rules and the mood modifiers as maps with defaults. It also holds the annual return and inflation rates.
- `allocator.dfy`, module `Allocator`: the `Budget` record and `calculate_lifestyle_budget`.
- `mood.dfy`, module `MoodAdjuster`: `generate_budget_plan`. Its in-place dict updates (the mood shift and the two-pass deficit transfer) are the method `ApplyMood`. `GenerateBudgetPlan` composes the allocator with `ApplyMood`, as the source does inline.
- `projector.dfy`, module `Projector`: `project_wealth_growth` as a method with a loop. It is proved against the recurrence `NominalWealth` and its discounted value `RealWealth`.
- `scorer.dfy`, module `Scorer`: `calculate_financial_score`.
- `narrator.dfy`, module `Narrator`: `generate_narrative_insights`. It returns the chosen clauses as a datatype: the opening tier, the advice kind and the figure the advice quotes.

Money is `real`, so every amount is exact and no rounding happens. Lifestyles
and moods are strings looked up in the tables, as in the source.

Points where the code's behaviour is easy to miss:

- For a non-positive income the code's plan has no "Fixed Commitments" entry (engine/budget.py:29). The model uses `fixedCommitments: Option<real>` and returns `None` there. It does not use 0.
- A non-positive `duration_months` gives an empty series, which is how Python's `range` behaves. The model's `durationMonths` is an `int` for this reason.
- The mood step keeps Wants + Savings unchanged even when a clamp fires.
- With a neutral mood, the clamps still run on a budget whose Wants or Savings is negative. So `ApplyMood` is only guaranteed to return the budget unchanged when both are non-negative.
- Emergency-fund progress is capped at 1.0 but has no floor at 0 (engine/budget.py:131, 138). With negative savings and positive Necessities it is negative, and `EmergencyFundProgress` follows this.

## Model

| member | source | states |
|---|---|---|
| `Config.RuleFor` | engine/budget.py:32 | a lifestyle in the table gets its own rule; any other gets the Working Professional rule; the result is always a rule of the table |
| `Config.ModifierFor` | engine/budget.py:60 | a mood in the table gets its modifier, any other 0.0; every modifier lies in [-0.10, 0.10] |
| `Config.ShippedRulesWellFormed` | engine/budget.py:8-13 | every rule the lookup can return is non-negative, sums to exactly 1, and gives Wants and Savings at least 0.10 each |
| `Allocator.CalculateLifestyleBudget` | engine/budget.py:26-49 | non-positive income gives the all-zero plan with no Fixed Commitments; otherwise each category is income times its fraction (unknown lifestyle falls back) and Fixed Commitments is recorded; Flex Necessities is max(0, Necessities - commitments) |
| `Allocator.UnknownLifestyleFallsBack` | engine/budget.py:31-32 | an unknown lifestyle yields exactly the Working Professional budget |
| `Allocator.AllocationSplitsIncome` | engine/budget.py:34-36 | for positive income the three categories sum to the income, Necessities is non-negative, and Wants and Savings each hold at least a tenth of income |
| `Allocator.NecessitiesCoverCommitments` | engine/budget.py:38-41 | commitments within Necessities plus Flex Necessities equal Necessities; commitments at or beyond Necessities leave Flex Necessities 0 |
| `MoodAdjuster.ApplyMood` | engine/budget.py:59-76 | only Wants and Savings change; their sum is preserved even when a clamp fires; neither is negative when their sum was not; closed form of the two-pass transfer; Balanced or unknown mood leaves a non-negative budget unchanged; Disciplined and Splurge move exactly 0.10 of income when the paying field can afford it and the receiving field is not left negative |
| `MoodAdjuster.WorkingProfessionalScenarios` | engine/budget.py:51-78 | example: a Working Professional earning 50000 with 15000 committed gets Necessities 25000, Wants 15000, Savings 10000, Flex 10000 when Balanced, and Wants 10000, Savings 15000 when Disciplined |
| `MoodAdjuster.GenerateBudgetPlan` | engine/budget.py:51-78 | Necessities, Fixed and Flex Necessities come from the lifestyle budget; no income gives the empty plan; for positive income no clamp fires with the shipped tables, so the shift is exactly income times the modifier; every category is non-negative and a positive income is split completely |
| `Projector.ProjectWealthGrowth` | engine/budget.py:80-110 | exactly max(0, duration) records numbered 1..N in order; all zero when monthly savings is not positive; otherwise month k holds the contribute-then-compound wealth and its inflation discount |
| `Projector.OneMonthScenario` | engine/budget.py:95-99 | example: 1000 saved for one month gives a single record of nominal 1000 * (1 + 0.07 / 12) before rounding; saving nothing gives twelve zero records by default |
| `Projector.NominalNonNegative` | engine/budget.py:92-99 | with a positive saving the nominal balance is never negative |
| `Projector.NominalStep` | engine/budget.py:95-99 | each month the balance grows by more than the month's contribution |
| `Projector.NominalStrictlyIncreasing` | engine/budget.py:95-99 | nominal wealth is strictly increasing in the month when monthly savings is positive |
| `Projector.NominalAtLeastContributions` | engine/budget.py:95-99 | after k months nominal wealth is at least k times the monthly saving |
| `Projector.NominalClosedForm` | engine/budget.py:89-99 | the month-by-month recurrence equals the annuity-due formula m(1+r)((1+r)^k - 1)/r |
| `Projector.RealWithinNominal` | engine/budget.py:101-102 | the inflation-adjusted value is non-negative, positive after month 0, and never above the nominal value |
| `Projector.RealStrictlyIncreasing` | engine/budget.py:89-102 | since the 7% return exceeds the 6% inflation, the inflation-adjusted value is strictly increasing too |
| `Scorer.SavingsRate` | engine/budget.py:114 | 0 for non-positive income, otherwise the rate times income is the savings |
| `Scorer.EmergencyFundProgress` | engine/budget.py:128-138 | at most 1; 0 when Necessities is not positive; non-negative when savings is; 1 once savings covers three months of Necessities, else the covered fraction |
| `Scorer.CalculateFinancialScore` | engine/budget.py:112-139 | the rate is the savings rate; the grade's rank is the number of thresholds (0.25, 0.20, 0.15, 0.10) the rate meets; emoji and comment belong to the grade; no income gives rate 0 and grade F; progress in [0, 1] for non-negative savings |
| `Scorer.GradeCountsThresholds` | engine/budget.py:117-126 | the highest-first inclusive chain agrees with counting the thresholds met |
| `Scorer.ThresholdsMetMonotone` | engine/budget.py:117-126 | a higher rate meets at least as many thresholds |
| `Scorer.GradeMonotone` | engine/budget.py:117-126 | a higher savings rate never earns a lower grade |
| `Scorer.GradeBoundaries` | engine/budget.py:117-126 | thresholds are inclusive: 0.25 is A and 0.2499999 is B; 0.20 is B and 0.1999999 is C; 0.15 is C and 0.1499999 is D; 0.10 is D and 0.0999999 is F |
| `Scorer.WorkingProfessionalScore` | engine/budget.py:114-120 | saving 10000 of 50000 is the rate 0.20 and grade B |
| `Narrator.WantsPercentage` | engine/budget.py:145 | 0 for non-positive income, otherwise the share of income that Wants takes |
| `Narrator.GenerateNarrativeInsights` | engine/budget.py:141-166 | opening tier A/B strong, C foundation, D/F attention; each advice rule applies exactly when it matches and no earlier rule did; the quoted Wants share and the shortfall to the 20% target |
| `Narrator.NarrativeOfScoredPlan` | engine/budget.py:148-161 | for a score computed from the plan, the opening is strong exactly when the rate meets 20%, and the gap advice is given exactly when the first two rules miss and the rate is below 20% |
| `Narrator.ShortfallPositive` | engine/budget.py:160-161 | with positive income and a consistent rate, the shortfall quoted by the gap advice is positive |
| `Narrator.FreelancerAdvicePrecedes` | engine/budget.py:156-157 | a Freelancer short of a full emergency fund always gets the emergency-fund advice |

## Left out

- ProjectWealthGrowth: does not round nominal and real values to 2 decimal places. Python's float `round` has no exact counterpart on `real`, so the contract is stated on the unrounded values.
- ProjectWealthGrowth: returns a sequence of records rather than a pandas DataFrame.
- IEEE floating-point behaviour, including non-finite inputs: amounts are exact reals.
- The rendered narrative text: the percentage and currency formatting is not modelled. The narrative is the chosen clauses and the numbers they quote.
- app.py, the Streamlit and Plotly dashboard, is not part of this model. It holds widgets, charts and its own what-if arithmetic.
