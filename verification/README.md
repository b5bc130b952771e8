# Boi no Lucro — viability calculation in Dafny

Boi no Lucro estimates whether buying, raising and reselling cattle pays.
The form takes nine fields: purchase price, live weight, broker commission,
freight, castration fee, daily maintenance cost, daily weight gain (GMD),
carcass yield and sale price per arroba. From these it computes the
acquisition figures. For each holding period from 60 to 360 days it then
projects final weight, carcass arrobas, costs, revenue, profit and monthly
return, and picks the period with the best monthly return.

This project models that calculation: the `results` memo of `App.tsx` and
the constants it uses. Numbers are exact `real`s, not IEEE doubles.

- `wrappers.dfy`: `Option`, for a field that is empty or does not parse.
- `types.dfy`: the form (`FarmInputs`), its normalised numbers (`Numbers`),
  the acquisition summary, `ProjectionData` (mirrors types.ts:16-25) and
  `Results`.
- `constants.dfy`: the 30 kg gross arroba, the 15 kg carcass arroba, the
  period list `PERIODOS` and the three preset scenarios.
- `selection.dfy`: the source's `reduce` as a left fold over a non-empty
  sequence, plus the earliest-on-tie variant (see Findings).
- `viability.dfy`: the calculation itself:
  - normalisation (`parseFloat(x) || fallback`);
  - the acquisition calculator;
  - the projection of one period;
  - the sweep over a period list;
  - the whole evaluation.
- `properties.dfy`: lemmas that relate several calls:
  - normalisation is idempotent;
  - an empty form gives all zeros;
  - a higher sale price is monotone in revenue and profit;
  - monthly return is ROI per month;
  - the two tie-breaks agree when the maximum is unique;
  - the worked novilha example.

A field is `Option<real>`. `None` means empty or unparseable text, which is
where `parseFloat` gives NaN. JavaScript's `||` also replaces a parsed 0
with the fallback, so `Some(0.0)` reads as the fallback too. The fallback is
0 for every field except carcass yield, whose fallback is 50.

Every division by a computed quantity is guarded by `x > 0 ? … : 0`. The
model writes that guard once, as `Viability.GuardedDiv`. The gross-arroba
division (App.tsx:191) tests the weight, its numerator, rather than the
constant denominator, and is written inline in `Viability.ComputeAcquisition`.
Divisions by the constants 100, 30 and 15 are unguarded in the source and in
the model.

`Viability.Evaluate` takes the period list as a parameter. `ComputeResults`
applies it to the configured list. The source's result object lists the
five acquisition fields flat; here they are grouped into one `Acquisition`
record inside `Results`.

Everything is a pure function, so two evaluations of the same inputs are
equal by construction.

## Model

| member | source | states |
|---|---|---|
| Constants.Periodos | constants.ts:6 | the period list has 11 entries, the i-th being 60 + 30·i days |
| Constants.PeriodosAscending | constants.ts:6 | the period list is non-empty (so the reduce without an initial value is defined) and strictly ascending |
| Constants.PeriodosWholeMonths | constants.ts:6 | every period is positive and a multiple of 30, so its month count is a whole number from 2 to 12 |
| Constants.ArrobaUnitsDistinct | constants.ts:4-5 | the gross arroba (30 kg) and the carcass arroba (15 kg) differ, the gross one being twice the carcass one |
| Constants.ScenarioDefaults | constants.ts:8-42 | every preset leaves the price empty, has positive weight, gain and sale price, non-negative costs and a carcass yield in (0, 100] |
| Viability.OrFallback | App.tsx:181-189 | a field reads as its parsed value when that is non-zero and as the fallback when empty, unparseable or zero; a non-zero fallback never yields zero |
| Viability.Normalize | App.tsx:181-189 | each of the nine fields reads as its value or 0, the carcass yield as its value or 50; the normalised yield is never zero |
| ViabilityProperties.NormalizeIdempotent | App.tsx:181-189 | feeding the normalised numbers back into the form normalises to the same numbers |
| Viability.GuardedDivInverse | App.tsx:192-195 | the quotient times a positive denominator gives back the numerator; with a non-positive denominator the result is 0 |
| Viability.ComputeAcquisition | App.tsx:191-195 | gross arrobas are positive exactly when the weight is; with no positive weight the gross arrobas and all three per-unit costs are 0 |
| Viability.AcquisitionRatios | App.tsx:191-195 | with a positive weight, gross arrobas × 30 kg is the weight, and price per arroba, cost per arroba and cost per kg each times their unit count give back the price or total; cost per arroba is 30 × cost per kg |
| Viability.AcquisitionTotal | App.tsx:193 | total acquisition cost minus freight and castration is the price grossed up by the commission percentage |
| Viability.Project | App.tsx:198-214 | the row carries its day count; final weight exceeds the initial weight by GMD × days; carcass arrobas × 15 kg × 100 is final weight × yield; total cost exceeds acquisition by daily cost × days; revenue is carcass arrobas × sale price; profit plus total cost is revenue |
| Viability.ProducedArrobaCost | App.tsx:201-204 | cost per produced arroba times the carcass arrobas gained (GMD × days × yield / 1500) is the maintenance cost, and is 0 when the carcass arrobas gained are not positive (no gain, weight lost, or a non-positive yield) |
| Viability.MonthlyReturn | App.tsx:198-209 | for a positive period the monthly return × months × total cost is profit × 100 (or 0 when the cost is not positive); a zero-day period has return 0 |
| Viability.Sweep | App.tsx:197-215 | the sweep has one row per period, in the same order, row i being the projection of period i |
| Viability.Evaluate | App.tsx:191-219 | the result holds the acquisition summary of the numbers, row i is the projection of period i against that summary, and the best row is the source's fold over the rows: a row of the list with the highest monthly return, the later one on a tie |
| Viability.ComputeResults | App.tsx:180-230 | the memo's acquisition summary is that of the normalised form; it has one row per configured period, row i being the projection of period i of the normalised form; its best row is the source's fold over those rows, so it is in the list with no row strictly better |
| Selection.KeepBetter | App.tsx:218 | the step keeps one of its two arguments, the better of them, and on equal returns keeps the current (later) one |
| Selection.BestProjection | App.tsx:217-219 | the fold returns a member of the list with no member having a strictly greater monthly return |
| Selection.LastMaximumWins | App.tsx:217-219 | the fold returns exactly the maximum that no later row equals or beats: among equal maxima the latest period wins |
| ViabilityProperties.TieBreaksAgreeOnUniqueMaximum | App.tsx:217-219 | when one row strictly beats all others, the source's fold and the earliest-on-tie fold both return it |
| Selection.KeepFirst | App.tsx:218 | the corrected step keeps the better argument and, on equal returns, the running (earlier) one |
| Selection.BestEarliest | App.tsx:217-219 | the corrected fold returns a member of the list with no member strictly better |
| Selection.FirstMaximumWins | App.tsx:217-219 | the corrected fold returns the maximum that no earlier row reaches: among equal maxima the earliest period wins |
| Selection.UniqueMaximumAgrees | App.tsx:217-219 | on a list with a unique maximum both folds return that row |
| Viability.EvaluateEarliest | App.tsx:217-219 | same acquisition and projections as the source's evaluation; its best row is the earliest-on-tie fold over them, so it is in the list with no row strictly better |
| ViabilityProperties.BlankRow | App.tsx:198-209 | with no price, weight, gain or costs entered, every figure of a period's row is 0 whatever its length |
| ViabilityProperties.BlankEvaluation | App.tsx:191-219 | with nothing entered all acquisition figures and rows are 0; the source's fold picks the last period, the earliest-on-tie fold the first |
| ViabilityProperties.BlankInputsGiveZeroOutputs | App.tsx:181-219 | a form whose fields are all empty or 0 shows 0 in every acquisition and projection figure, and the best period is 360 days |
| ViabilityProperties.ClearedForm | App.tsx:166-170 | the cleared form has every field blank |
| ViabilityProperties.BlankInputsSelectLastPeriod | App.tsx:217-219 | for every form whose fields are all empty or 0, the source selects 360 days where the earliest-on-tie rule selects 60 |
| ViabilityProperties.ClearedFormSelectsLastPeriod | App.tsx:217-219 | for the cleared form the source selects 360 days where the earliest-on-tie rule selects 60 |
| ViabilityProperties.SalePriceMonotone | App.tsx:198-206 | for two sets of numbers that differ only in a higher (or equal) sale price, with non-negative final weight and yield, the higher price never gives a period a lower revenue or profit |
| ViabilityProperties.SalePriceOnlyMovesRevenue | App.tsx:198-204 | two sets of numbers that differ only in the sale price give a period the same carcass arrobas and the same total cost |
| ViabilityProperties.RowsMonotone | App.tsx:205-206 | two rows with the same non-negative carcass arrobas and total cost, whose revenue is arrobas × price and profit is revenue − cost, are ordered by price in revenue and in profit |
| ViabilityProperties.SalePriceMonotoneAllPeriods | App.tsx:191-215 | the same monotonicity holds for every row of the whole evaluation over any non-empty period list |
| ViabilityProperties.MonthlyReturnIsRoiPerMonth | App.tsx:208-209 | over positive periods every row's monthly return is its ROI divided by its months, or 0 when the cost is not positive |
| ViabilityProperties.ConfiguredMonthlyReturn | App.tsx:198-209 | over the configured periods the month guard never fires, so every row's monthly return is ROI per month |
| ViabilityProperties.NovilhaNumbers | constants.ts:9-19 | the novilha preset with price 1000 normalises to price 1000, weight 300, commission 3, freight 65, castration 0, daily cost 2.5, gain 0.5, yield 50, sale price 280 |
| ViabilityProperties.NovilhaAcquisition | App.tsx:191-194 | for those numbers: 10 gross arrobas, acquisition cost 1095, cost per arroba 109.5 |
| ViabilityProperties.NovilhaSixtyDays | App.tsx:198-209 | for those numbers at 60 days: final weight 330, 11 carcass arrobas, total cost 1245, revenue 3080, profit 1835, monthly return 91750/1245 % |
| ViabilityProperties.NovilhaWorkedExample | App.tsx:180-230 | the full memo on the novilha preset with price 1000 gives the figures above in its acquisition summary and its first (60-day) row |

## Left out

- Rendering (`InputField`, `ResultCard`, `ProfitabilityChart` with its bar-height scaling, the JSX cards and table): presentation only.
- Browser state: `localStorage` load and save, dark mode, scenario switching (App.tsx:111-174), and the memo's caching (`useMemo(…, [inputs])`, App.tsx:180 and 230). These are side effects outside the calculation. The model recomputes on every call.
- `services/geminiService.ts` and `handleAiConsult` (App.tsx:232-238): an asynchronous call to an external language-model service. The summary handed to it is not modelled.
- `parseFloat` internals: a field is already `Option<real>`. Text like "12abc", which `parseFloat` reads as 12, is `Some(12.0)` in the model.
- Display formatting (`toLocaleString`, `toFixed`).
- IEEE-754 behaviour (rounding, NaN, Infinity, signed zero): the model uses exact rationals. The guards already rule out division by zero.
- Viability.ComputeAcquisition: its contract keeps only the guard facts. The ratio and total facts are in `Viability.AcquisitionRatios` and `Viability.AcquisitionTotal`, so that callers do not carry nonlinear arithmetic they do not need.
- Viability.GuardedDiv: its inverse property (quotient × positive denominator = numerator, else 0) is stated in `Viability.GuardedDivInverse` rather than in its own contract, so that every unfolded projection does not carry three nonlinear facts.
- Viability.Project: the cost per produced arroba and the monthly return are characterised in `Viability.ProducedArrobaCost` and `Viability.MonthlyReturn` rather than in its own contract, for the same reason.

## Findings

| source | as written | input that shows it | evidently intended | confidence | as-written member | corrected member |
|---|---|---|---|---|---|---|
| App.tsx:217-219 | `prev.rentabilidadeMensal > current.rentabilidadeMensal ? prev : current` keeps the running best only on strict improvement, so equal returns go to the later, longer period | the cleared form, or any form left all empty or 0: every period returns 0% and 360 days is selected (`ViabilityProperties.BlankInputsSelectLastPeriod`, `ViabilityProperties.ClearedFormSelectsLastPeriod`) | ties go to the earliest, shortest period, favouring faster turnover | medium; not executed | Selection.BestProjection | Selection.BestEarliest |

The intended selection rule keeps the earliest period on a tie. The code
keeps the latest. `Viability.ComputeResults` follows the code as written,
because it models the source. `Viability.EvaluateEarliest` is the same
calculation with the corrected fold. `Selection.FirstMaximumWins` proves
the intended tie-break for it. `Selection.UniqueMaximumAgrees` shows the
two differ only when the best monthly return is attained more than once.
