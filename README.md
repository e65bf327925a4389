# TimeShiftAI projection core in Dafny

TimeShiftAI is a Streamlit dashboard that projects a person's income and
wealth along three career paths ("Stay in Job", "Join Startup", "Go
Freelance"). This project models its computational core over exact `real`
arithmetic and proves properties of it:

- `WealthProjection` (app/app.py): the scenario table shifted by the market
  growth bias; the nested projection loop (income grows by a random draw each
  year, wealth gains that income minus a constant yearly outflow); the best
  and worst path after the last year with pandas' first-occurrence tie
  break; the currency conversion rate and the converted chart values; the
  three risk-appetite advice bands.
- `CompoundProjection` (app/app3.py): the fixed growth table, the closed-form
  `future_income` list, the non-cumulative `net_savings` list and the
  three-way insight rule.
- `SimulationCore` (utils/simulation_core.py): `simulate_path`, the seeded
  loop that appends `years - 1` grown salaries.
- `Paths` names the three paths; `RealMath` holds `Pow`.

Randomness is an input. A normal draw with mean `m` and standard deviation
`v` is `m + v * z` for a standard-normal sample `z`, so every routine takes
the samples `z` it would have drawn as a sequence. In app/app.py one global
generator serves all scenarios in turn, so scenario `i` reads samples
`i * years .. (i + 1) * years - 1` (`ScenarioDraws`). In `simulate_path` the
seed fixes the samples, so "same seed" is "same `z`".

At its edges the code behaves as follows:

- No routine checks its inputs up front. `simulate_path` with
  `years <= 0` returns the one-entry list `[base_salary]`.
- The one failure is numpy's: a normal draw with a negative standard
  deviation raises `ValueError`. In `simulate_path` that happens at the
  first step, so a negative volatility fails exactly when `years >= 2`
  (`NegativeScale`). The scenarios of app/app.py all have positive
  volatilities, so that page never fails this way.
- `simulate_path` returns `years` entries, not `years + 1`. Its caller
  charts them against the Year column `1 .. years`.
- app/app3.py compounds the salary as entered, without multiplying it by
  twelve. It then subtracts twelve months of expenses and EMIs from each
  year's figure. Its "wealth" does not accumulate from year to year.
- The horizon of app/app.py is a `nat`: for a negative value pandas would
  reject the table (no Year rows against one wealth entry).

## Model

| member | source | states |
|---|---|---|
| `WealthProjection.Scenarios` | app/app.py:88-92 | three scenarios in declaration order (Stay in Job, Join Startup, Go Freelance); each mean is its base rate plus `growth_bias / 100`; startup > freelance > job for every bias; every volatility is positive |
| `WealthProjection.ProjectScenario` | app/app.py:96-104 | income and wealth lists of `years + 1` entries; entry 0 is twelve monthly salaries and the savings; every later entry follows the income and wealth recurrences `IncomeAt` and `WealthAt` |
| `WealthProjection.ScenarioDraws` | app/app.py:100 | scenario `i` reads exactly the `years` samples after those of the scenarios before it |
| `WealthProjection.SimulateAll` | app/app.py:95-109 | one wealth column per scenario, in declaration order, each of `years + 1` entries aligned with Year 0..years, each equal to `WealthAt` over that scenario's own samples |
| `WealthProjection.IncomeClosedForm` | app/app.py:97-100 | when every draw equals the mean (zero volatility, or zero samples), income in year t is `salary * 12 * (1 + growth)^t` |
| `WealthProjection.WealthIsSavingsPlusEarnings` | app/app.py:98-104 | wealth in year t is the savings plus all income earned in years 1..t minus t equal yearly outflows |
| `WealthProjection.DrawsConsumed` | app/app.py:99-104 | income and wealth in year t depend only on the first t samples |
| `WealthProjection.HigherDrawsMoreIncome` | app/app.py:100-103 | for a positive salary, drawing a higher growth every year (all above -100%) gives positive and strictly higher income from year 1 on |
| `WealthProjection.HigherDrawsMoreWealth` | app/app.py:100-104 | under the same conditions wealth is never lower, and strictly higher from year 1 on |
| `WealthProjection.HigherGrowthMoreWealth` | app/app.py:88-104 | for a positive salary and zero volatility, a higher mean growth (above -100%) gives strictly more wealth in every year after year 0 |
| `WealthProjection.ArgMax` | app/app.py:129 | `idxmax`: an index holding the largest value, and no earlier index holds that value |
| `WealthProjection.ArgMin` | app/app.py:130 | `idxmin`: an index holding the smallest value, and no earlier index holds that value |
| `WealthProjection.FirstMaxIsUnique` | app/app.py:129 | the first-maximum property determines the index |
| `WealthProjection.BestPath` | app/app.py:128-134 | the best path is the scenario with the first maximal final wealth; its wealth is that final wealth times the rate |
| `WealthProjection.WorstPath` | app/app.py:128-135 | the worst path is the scenario with the first minimal final wealth; its wealth is that final wealth times the rate |
| `WealthProjection.ConversionRate` | app/app.py:74-85 | the rate is 1.0 for AED whatever the service says; 1.0 when no rate was fetched; the fetched rate for any other currency that got one |
| `WealthProjection.Converted` | app/app.py:119 | the charted column has one value per projected year, each the projected wealth times the rate; a rate of 1.0 charts the projection unchanged |
| `WealthProjection.BaseCurrencyShowsProjection` | app/app.py:118-119 | in AED the charted wealth equals the projected wealth |
| `WealthProjection.ArgMaxIgnoresRate` | app/app.py:119-131 | for a positive rate the chart's converted values and the projected values have the same first maximum, so chart and best-path metric agree |
| `WealthProjection.AdviceFor` | app/app.py:150-155 | every integer risk appetite falls in exactly one band: stable job iff <= 3, balanced iff 4..7, startup/freelance iff >= 8 |
| `CompoundProjection.Growth` | app/app3.py:24-28 | every path's fixed growth rate is positive |
| `CompoundProjection.GrowthRanksPaths` | app/app3.py:24-28 | startup 0.15 > freelance 0.12 > job 0.08 |
| `CompoundProjection.FutureIncome` | app/app3.py:30 | `years + 1` entries, entry 0 is the salary, each next entry is the previous one times `1 + growth` |
| `CompoundProjection.FutureIncomeIncreasing` | app/app3.py:30 | for a positive salary and positive growth, income is strictly increasing |
| `CompoundProjection.NetSavings` | app/app3.py:31 | one entry per income; each entry minus its own year's income is the same constant: savings minus twelve months of expense and EMIs |
| `CompoundProjection.NetSavingsNotCumulative` | app/app3.py:31 | consecutive net-savings entries differ exactly by the difference of their incomes |
| `CompoundProjection.InsightFor` | app/app3.py:37-42 | the warning fires iff risk < 4 and startup; the info note iff risk > 7 and job; success otherwise; exactly one fires |
| `SimulationCore.SimulatePath` | utils/simulation_core.py:3-9 | fails with `NegativeScale` iff `years >= 2` and the volatility is negative; otherwise `years` entries for `years >= 1` and one entry otherwise; entry 0 is the base salary; entry k+1 is entry k times `1 + (growth_rate + volatility * z_k) * risk_tolerance` |
| `SimulationCore.YearColumn` | app/app1.py:36 | the caller's Year column `1 .. years`, whose length is that of the simulated path for `years >= 1` |
| `SimulationCore.NoRiskIsFlat` | utils/simulation_core.py:8 | with zero risk tolerance every entry equals the base salary |
| `SimulationCore.ZeroNoiseCompounds` | utils/simulation_core.py:7-8 | with every draw `volatility * z_k` zero (zero volatility, or zero samples), entry k is `base_salary * (1 + growth_rate * risk_tolerance)^k` |
| `SimulationCore.SameSamplesSamePath` | utils/simulation_core.py:4-8 | two paths of the same length whose first `max(years - 1, 0)` samples agree are identical, so the same seed gives the same path |
| `SimulationCore.SameSamplesSameEntry` | utils/simulation_core.py:6-8 | the entry-by-entry induction behind the previous row |

## Left out

- Streamlit widgets, layout, CSS, metrics, charts, captions and warnings: presentation only. The slider ranges (risk 0..10, years 1..20, bias 0..15) are not assumed; the lemmas hold for every value.
- The HTTP exchange-rate request (app/app.py:77-85): network I/O. Its outcome enters as a `RateReply`, either a rate or unavailable.
- Random sampling (`np.random.normal`, `rng.normal`, `np.random.uniform`) and the seeding of `default_rng`: replaced by supplied standard-normal samples. Which samples a given seed produces is not modelled.
- The default arguments of `simulate_path` (utils/simulation_core.py:3): the model takes `years` explicitly, and the seed (default 42) is replaced by the samples `z` it would produce.
- The happiness scores (app/app.py:138-144): random display values with no logic.
- IEEE floating-point rounding: all arithmetic is exact over `real`.
- Pandas DataFrame construction, concatenation and pivoting (app/app.py:105-109, 118-122): only the lists they wrap are modelled. Row selection by Year is `FinalWealths`.
- The rest of app/app1.py (widget reads, the profile table at lines 25-29, the percentage display): it only calls `simulate_path`; its Year column is `YearColumn`.
- The advice and insight texts themselves: modelled as the datatypes `Advice` and `Insight`.
