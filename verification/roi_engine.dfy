/**
 The ROI calculation engine of the AI-support ROI calculator: nine business
 inputs in, eleven derived metrics out. Every quantity is an exact `real`;
 the browser's IEEE doubles are not modelled.
 */
module RoiEngine {

  /** The business inputs held by the calculator hook. Fractions
      (`timeReduction`, `fcrImprovement`) are fractions, not percentages. */
  datatype Inputs = Inputs(
    agentCount: real,          // collected and displayed, used by no formula
    monthlyTickets: real,
    avgHandleTime: real,       // minutes per ticket
    hourlyWage: real,          // fully loaded cost per agent-hour
    aiCostPerTicket: real,
    timeReduction: real,       // fraction of handle time removed by the assistant
    fcrImprovement: real,      // fraction of tickets no longer escalated
    escalationCost: real,      // cost of one escalated ticket
    implementationCost: real)  // one-time setup cost

  /** Months until the implementation cost is recovered, or never. */
  datatype BreakEven = Months(n: int) | Never

  /** The derived metrics, replaced as a whole on every recompute. */
  datatype Metrics = Metrics(
    annualSavings: real,       // net: labour + escalation savings - AI cost
    hoursSaved: real,
    breakEvenMonths: BreakEven,
    currentAnnualCost: real,
    aiEnabledCost: real,
    laborSavings: real,
    escalationSavings: real,
    totalAiCost: real,
    year1NetValue: real,
    year2NetValue: real,
    year3NetValue: real)

  /** The number the hook stores for "no break-even". */
  const NeverSentinel: int := 999

  /** The hook's initial input values. */
  const Defaults: Inputs := Inputs(50.0, 10000.0, 15.0, 28.0, 0.04, 0.50, 0.15, 75.0, 50000.0)

  /** The all-zero record the hook holds before its first recompute. */
  const ZeroMetrics: Metrics := Metrics(0.0, 0.0, Months(0), 0.0, 0.0, 0.0, 0.0, 0.0, 0.0, 0.0, 0.0)

  /** JavaScript's Math.ceil on an exact real: the least integer not below x. */
  function Ceil(x: real): (r: int)
    ensures (r - 1) as real < x <= r as real
  {
    -((-x).Floor)
  }

  /** Break-even month count from the implementation cost and the monthly
      net savings: never unless savings are positive, otherwise the least
      whole number of months whose savings cover the cost. */
  function BreakEvenMonths(implementationCost: real, monthlySavings: real): (b: BreakEven)
    ensures b == Never <==> monthlySavings <= 0.0
    ensures b.Months? ==> b.n as real * monthlySavings >= implementationCost
    ensures b.Months? ==> (b.n - 1) as real * monthlySavings < implementationCost
  {
    if monthlySavings > 0.0 then
      var m := Ceil(implementationCost / monthlySavings);
      assert m as real * monthlySavings >= implementationCost by {
        assert m as real >= implementationCost / monthlySavings;
        assert (implementationCost / monthlySavings) * monthlySavings == implementationCost;
      }
      assert (m - 1) as real * monthlySavings < implementationCost by {
        var gap := implementationCost / monthlySavings - (m - 1) as real;
        assert gap > 0.0;
        assert gap * monthlySavings > 0.0;
        assert (implementationCost / monthlySavings) * monthlySavings == implementationCost;
        assert gap * monthlySavings == implementationCost - (m - 1) as real * monthlySavings;
      }
      Months(m)
    else
      Never
  }

  /** The break-even value as the number the hook stores: the month count
      itself, or the sentinel 999 for never. */
  function Code(b: BreakEven): (c: int)
    ensures b.Never? || b.n < NeverSentinel ==> Decode(c) == b
    ensures b.Months? && b.n >= NeverSentinel ==> Decode(c) == Never
  {
    match b
    case Months(n) => n
    case Never => NeverSentinel
  }

  /** How the results card reads the stored number back: below the
      sentinel it is a month count, otherwise "N/A". */
  function Decode(c: int): (b: BreakEven)
  {
    if c < NeverSentinel then Months(c) else Never
  }

  /** The engine: the hook's straight-line calculation, step by step. */
  function Compute(inp: Inputs): (m: Metrics)
    ensures m.annualSavings == m.laborSavings + m.escalationSavings - m.totalAiCost
    ensures m.aiEnabledCost == m.currentAnnualCost - m.annualSavings
    ensures m.aiEnabledCost > m.currentAnnualCost <==> m.annualSavings < 0.0
    ensures m.breakEvenMonths == BreakEvenMonths(inp.implementationCost, m.annualSavings / 12.0)
    ensures m.year1NetValue == m.annualSavings - inp.implementationCost
    ensures m.year2NetValue == m.year1NetValue + m.annualSavings
    ensures m.year3NetValue == m.year2NetValue + m.annualSavings
  {
    // Baseline
    var annualTickets := inp.monthlyTickets * 12.0;
    var avgTimeHours := inp.avgHandleTime / 60.0;
    var totalHoursPerYear := annualTickets * avgTimeHours;
    var currentAnnualCost := totalHoursPerYear * inp.hourlyWage;
    // With the assistant
    var timeSavedPerTicket := avgTimeHours * inp.timeReduction;
    var hoursSavedPerYear := annualTickets * timeSavedPerTicket;
    var laborSavings := hoursSavedPerYear * inp.hourlyWage;
    // Fewer escalations
    var escalationsSavedPerYear := annualTickets * inp.fcrImprovement;
    var escalationSavings := escalationsSavedPerYear * inp.escalationCost;
    // Running cost of the assistant
    var aiAnnualCost := annualTickets * inp.aiCostPerTicket;
    // Net value
    var totalValueCreated := laborSavings + escalationSavings;
    var netSavings := totalValueCreated - aiAnnualCost;
    var aiEnabledCost := currentAnnualCost - netSavings;
    // Break-even
    var monthlySavings := netSavings / 12.0;
    var breakEven := BreakEvenMonths(inp.implementationCost, monthlySavings);
    // Three-year projection
    var year1NetValue := netSavings - inp.implementationCost;
    var year2NetValue := year1NetValue + netSavings;
    var year3NetValue := year2NetValue + netSavings;
    Metrics(
      annualSavings := netSavings,
      hoursSaved := hoursSavedPerYear,
      breakEvenMonths := breakEven,
      currentAnnualCost := currentAnnualCost,
      aiEnabledCost := aiEnabledCost,
      laborSavings := laborSavings,
      escalationSavings := escalationSavings,
      totalAiCost := aiAnnualCost,
      year1NetValue := year1NetValue,
      year2NetValue := year2NetValue,
      year3NetValue := year3NetValue)
  }

  /** The break-even number exactly as the hook writes it (a ternary on the
      monthly savings, with 999 for never); `CodeMatchesSource` ties it to
      `Code` of the engine's break-even value. */
  function SourceBreakEvenMonths(implementationCost: real, monthlySavings: real): int
  {
    if monthlySavings > 0.0 then Ceil(implementationCost / monthlySavings) else NeverSentinel
  }
}
