# ROI calculator engine — a Dafny model

This project models the core of a browser calculator. The calculator estimates the
return on investment of an AI assistant for a customer-support team. Its core is the
`useROICalculator` hook (`src/hooks/useROICalculator.js`), which does two things:

- **The engine.** It takes nine business inputs: agent count, monthly tickets,
  average handle time, hourly wage, AI cost per ticket, handle-time reduction, FCR
  (first-contact resolution) improvement, escalation cost and the one-time
  implementation cost. From them it derives eleven metrics:
  - the baseline labour cost;
  - labour and escalation savings;
  - the annual AI cost;
  - net annual savings;
  - the "AI-enabled" cost;
  - hours saved;
  - a break-even month count;
  - a three-year cumulative value series.
- **The state around it.** The hook keeps one value/setter pair per input and a
  `results` record. It recomputes the whole record whenever any input changes.

The files:

- `roi_engine.dfy` (module `RoiEngine`) holds the data types and the engine.
  - `Compute` is the hook's straight-line calculation, written over exact `real`s.
  - The break-even count is a datatype `Months(n) | Never`.
  - `Code` maps that datatype to the number the hook stores. `Never` becomes the
    sentinel 999.
  - `Ceil` models `Math.ceil`.
- `roi_properties.dfy` (module `RoiProperties`) holds the properties of the engine:
  - break-even is the least month count whose savings cover the setup cost;
  - the three-year series is an arithmetic progression;
  - closed forms per ticket;
  - monotonicity;
  - the zero-ticket case;
  - the unused agent count;
  - the default scenario;
  - what the input form's slider ranges guarantee.
- `roi_calculator.dfy` (module `RoiCalculator`) holds the class `Calculator`. Its
  fields are the hook's nine input cells and its `results` cell. Each setter
  replaces one input and then overwrites `results` with `Compute` of the current
  inputs. The class invariant `Valid()` says that `results` always belongs to the
  current inputs.

The 999 sentinel has one consequence that a lemma states. A genuine break-even of
exactly 999 months is stored as the same number as "never" (`SentinelCollision`).
This happens for any input whose monthly net savings fall in [50000/999, 50000/998),
i.e. roughly 50.05 to 50.10 a month against the 50,000 setup cost. Every such input
lies outside the form's slider ranges: for example, fewer than 1,000 tickets a month
(the defaults with 3.403 tickets a month give 999 months), or an AI cost per ticket
near 0.20 with no FCR improvement and the other inputs at their slider minima
(`SlowPaybackInputs`). Within the slider ranges, break-even always falls between month 1 and
month 31 (`SliderRangesBreakEven`), so the collision cannot be reached from the form.

**Initial results.** The hook starts `results` as an all-zero record
(`src/hooks/useROICalculator.js:43-55`) and replaces it only after the first render.
That record has a break-even of 0, not the sentinel. The constructor runs the first
recompute at once, so the zero record is never observable in the model.

## Model

| member | source | states |
|---|---|---|
| `RoiEngine.Ceil` | src/hooks/useROICalculator.js:85 | `Math.ceil` on an exact real: the result r is an integer with r − 1 < x ≤ r |
| `RoiEngine.BreakEvenMonths` | src/hooks/useROICalculator.js:83-86 | never exactly when monthly savings are ≤ 0; otherwise n months with n·savings ≥ cost and (n − 1)·savings < cost |
| `RoiEngine.Code` | src/hooks/useROICalculator.js:84-86 | the number the hook stores, as the results card reads it back: never and any month count below 999 come back unchanged; a month count of 999 or more comes back as never |
| `RoiEngine.Compute` | src/hooks/useROICalculator.js:60-105 | net savings = labour + escalation − AI cost; AI-enabled cost = baseline − net savings, unclamped, and above the baseline exactly when net savings are negative; break-even from monthly savings = net/12; year 1 = net − setup cost, each later year adds net |
| `RoiProperties.BreakEvenIsLeast` | src/hooks/useROICalculator.js:83-85 | with positive monthly savings, every whole month count that covers the setup cost is ≥ the break-even count |
| `RoiProperties.BreakEvenOfCompute` | src/hooks/useROICalculator.js:83-86 | the engine's break-even is never iff net savings ≤ 0; otherwise it is `Math.ceil(cost / (net/12))`; it is ≥ 1 for a positive cost and ≥ 0 for a non-negative one; it is the least month count that covers the cost |
| `RoiProperties.CodeMatchesSource` | src/hooks/useROICalculator.js:83-86 | `SourceBreakEvenMonths`, the hook's expression as written (`monthlySavings > 0 ? Math.ceil(cost / monthlySavings) : 999`), applied to the setup cost and monthly savings = net/12, equals `Code` of the engine's break-even, for every input |
| `RoiProperties.DecodeCode` | src/components/ResultsDisplay.jsx:109 | `Decode` is how the results card reads the stored number (a month count below 999, otherwise "N/A"); reading the stored number back gives the same break-even, for never and for any month count below 999 |
| `RoiProperties.SentinelCollision` | src/hooks/useROICalculator.js:83-86 | there are inputs with positive net savings whose break-even is 999 months; these are stored as the same number as never and read back as never |
| `RoiProperties.YearValuesProgression` | src/hooks/useROICalculator.js:88-91 | year k of the projection (k = 1, 2, 3) equals k·net savings − setup cost, an arithmetic progression with difference net savings |
| `RoiProperties.BreakEvenWithinYears` | src/hooks/useROICalculator.js:83-91 | with positive net savings, the year-k value is ≥ 0 exactly when break-even is at most 12k months |
| `RoiProperties.AnnualSavingsPerTicket` | src/hooks/useROICalculator.js:61-79 | net annual savings = 12 · monthly tickets · (handle hours · reduction · wage + FCR gain · escalation cost − AI cost per ticket) |
| `RoiProperties.BaselineAndHoursClosedForm` | src/hooks/useROICalculator.js:61-68 | baseline cost = tickets · minutes · wage / 5; hours saved = tickets · minutes · reduction / 5; labour savings = hours saved · wage = (tickets · minutes · wage / 5) · reduction |
| `RoiProperties.AiEnabledCostClosedForm` | src/hooks/useROICalculator.js:61-80 | AI-enabled cost = 12 · tickets · (remaining handle hours · wage − FCR gain · escalation cost + AI cost per ticket) |
| `RoiProperties.LaborSavingsIncreaseWithTimeReduction` | src/hooks/useROICalculator.js:66-68 | with positive tickets, handle time and wage, a larger time reduction gives strictly larger labour savings, all else fixed |
| `RoiProperties.AnnualSavingsDecreaseWithAiCost` | src/hooks/useROICalculator.js:75-79 | with positive tickets, a larger AI cost per ticket gives strictly smaller net savings, all else fixed |
| `RoiProperties.AgentCountUnused` | src/hooks/useROICalculator.js:59-116 | changing only the agent count leaves every metric unchanged |
| `RoiProperties.ZeroTickets` | src/hooks/useROICalculator.js:61-91 | with zero monthly tickets every cost and saving is 0, break-even is never (stored as 999), and each year value is −setup cost |
| `RoiProperties.DefaultScenario` | src/hooks/useROICalculator.js:31-105 | the defaults give net savings 1,765,200, hours saved 15,000, break-even 1 month, baseline 840,000, AI-enabled cost −925,200, and year values 1,715,200 / 3,480,400 / 5,245,600 |
| `RoiProperties.SliderRangesPerTicketFloor` | src/components/CalculatorForm.jsx:38-195 | within the slider ranges each ticket is worth at least 1.65 net |
| `RoiProperties.SetupCostRecoveredWithin31Months` | src/hooks/useROICalculator.js:83-86 | a setup cost of 50,000 against monthly savings ≥ 1,650 breaks even in a month from 1 to 31 |
| `RoiProperties.SliderRangesBreakEven` | src/components/CalculatorForm.jsx:38-195 | within the slider ranges net savings are ≥ 19,800 a year and break-even is a month from 1 to 31, never the sentinel |
| `RoiCalculator.Calculator.constructor` | src/hooks/useROICalculator.js:31-55 | a session starts from the default inputs, and its results are the engine's output for them |
| `RoiCalculator.Calculator.Recompute` | src/hooks/useROICalculator.js:59-105 | the results record is replaced wholesale by `Compute` of the current inputs; the inputs are untouched |
| `RoiCalculator.Calculator.SetAgentCount` | src/hooks/useROICalculator.js:31 | only the agent count changes; results are recomputed, and they equal the previous results |
| `RoiCalculator.Calculator.SetMonthlyTickets` | src/hooks/useROICalculator.js:32 | only the monthly tickets change; results = `Compute` of the new inputs |
| `RoiCalculator.Calculator.SetAvgHandleTime` | src/hooks/useROICalculator.js:33 | only the handle time changes; results = `Compute` of the new inputs |
| `RoiCalculator.Calculator.SetHourlyWage` | src/hooks/useROICalculator.js:34 | only the wage changes; results = `Compute` of the new inputs |
| `RoiCalculator.Calculator.SetAiCostPerTicket` | src/hooks/useROICalculator.js:35 | only the AI cost per ticket changes; results = `Compute` of the new inputs |
| `RoiCalculator.Calculator.SetTimeReduction` | src/hooks/useROICalculator.js:36 | only the time reduction changes; results = `Compute` of the new inputs |
| `RoiCalculator.Calculator.SetFcrImprovement` | src/hooks/useROICalculator.js:37 | only the FCR improvement changes; results = `Compute` of the new inputs |
| `RoiCalculator.Calculator.SetEscalationCost` | src/hooks/useROICalculator.js:38 | only the escalation cost changes; results = `Compute` of the new inputs |
| `RoiCalculator.Calculator.Snapshot` | src/hooks/useROICalculator.js:117-130 | what the hook returns: the current inputs, results equal to `Compute` of those inputs, and the fixed setup cost |
| `RoiCalculator.DefaultSessionThenNoTickets` | src/hooks/useROICalculator.js:31-116 | a fresh session shows the default-scenario figures; after the ticket volume is set to 0, break-even is never, the AI cost is 0 and year 1 is −50,000 |

## Left out

- React's `useState`/`useEffect` machinery is not modelled. Setters recompute synchronously.
- After every setter the hook renders once with the new input and the previous `results`, before the effect runs (`src/hooks/useROICalculator.js:59`, 93-105); the first render likewise shows the all-zero record. The model has no such intermediate state: `Snapshot`'s `requires Valid()` presumes the recompute has already run, so a reading of stale results between the setter and the effect is not captured.
- React skips the effect when a setter is given the value the cell already holds. The model always recomputes; the outcome is the same, because `Compute` is a function of the inputs.
- IEEE-754 doubles are not modelled. All arithmetic is exact over `real`. `Math.ceil` on a rounded quotient can differ from the exact ceiling at exact boundaries.
- Determinism of the engine needs no lemma: `Compute` is a Dafny function.
- The conversion of slider text to numbers (`Number(e.target.value)`) is not modelled. Slider ranges appear only as the precondition `InSliderRanges` of the range lemmas.
- `src/components/ResultsDisplay.jsx` is not part of this model beyond its reading of the sentinel (line 109). Its percentage figures divide by `currentAnnualCost` with no zero guard (lines 211 and 224).
- `src/components/CalculatorForm.jsx` is not part of this model beyond its slider ranges.
- `src/components/SavingsChart.jsx` is not part of this model. It draws a chart from the engine's outputs, and its axis labels use float-to-string formatting.
- `src/utils/pdfExport.js` is not part of this model. It writes a PDF with a timestamp and prints the raw sentinel as "999 months".
- `src/App.jsx` is not part of this model. It only lays out the page.
