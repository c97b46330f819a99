/**
 Properties of the ROI engine: the break-even month count, the three-year
 projection, closed forms per ticket, monotonicity, degenerate inputs, the
 default scenario and the slider ranges of the input form.
 */
module RoiProperties {
  import opened RoiEngine

  /** Net value the assistant creates on one ticket: handle time saved,
      valued at the wage, plus the avoided escalation share, minus the AI cost. */
  function PerTicketNetValue(inp: Inputs): real
  {
    inp.avgHandleTime / 60.0 * inp.timeReduction * inp.hourlyWage
    + inp.fcrImprovement * inp.escalationCost
    - inp.aiCostPerTicket
  }

  /** Cumulative net value after `years` whole years: the one-time cost is
      paid once, the net annual savings accrue once per year. */
  function CumulativeValue(annualSavings: real, implementationCost: real, years: nat): real
  {
    years as real * annualSavings - implementationCost
  }

  /** The projection value the engine reports for year 1, 2 or 3. */
  function YearValue(m: Metrics, year: nat): real
    requires 1 <= year <= 3
  {
    if year == 1 then m.year1NetValue
    else if year == 2 then m.year2NetValue
    else m.year3NetValue
  }

  // ---------------------------------------------------------------- arithmetic helpers
  // Each nonlinear step is proved here, over plain reals, so that the
  // lemmas about the engine only instantiate these.

  lemma MulNonNegative(a: real, b: real)
    requires a >= 0.0 && b >= 0.0
    ensures a * b >= 0.0
  {
  }

  lemma Distribute(a: real, b: real, c: real)
    ensures (a - b) * c == a * c - b * c
  {
  }

  lemma ScaleLowerBound(x: real, lo: real, c: real)
    requires c >= 0.0 && x >= lo
    ensures x * c >= lo * c
  {
    MulNonNegative(x - lo, c);
    Distribute(x, lo, c);
  }

  lemma ScaleStrict(t: real, a: real, b: real)
    requires t > 0.0 && a < b
    ensures t * a < t * b
  {
    assert t * (b - a) > 0.0;
    assert t * (b - a) == t * b - t * a;
  }

  lemma ScaledLess(s': real, s: real, t: real, v': real, v: real)
    requires t > 0.0 && v' < v && s' == t * v' && s == t * v
    ensures s' < s
  {
    ScaleStrict(t, v', v);
  }

  lemma ProductFloor(x: real, xlo: real, y: real, ylo: real)
    requires 0.0 <= xlo <= x && 0.0 <= ylo <= y
    ensures x * y >= xlo * ylo
  {
    ScaleLowerBound(x, xlo, y);
    ScaleLowerBound(y, ylo, xlo);
    assert xlo * y == y * xlo;
  }

  lemma PositiveFactor(a: real, b: real)
    requires b > 0.0 && a * b > 0.0
    ensures a > 0.0
  {
  }

  lemma NonNegativeFactor(a: real, b: real)
    requires b > 0.0 && a * b >= 0.0
    ensures a >= 0.0
  {
  }

  lemma LessFactor(a: real, b: real, rate: real)
    requires rate > 0.0 && a * rate < b * rate
    ensures a < b
  {
    if a >= b {
      ScaleLowerBound(a, b, rate);
    }
  }

  /** With a positive rate, a month count below any covering count by one or more does not cover. */
  lemma LeastCover(cost: real, rate: real, n: int, k: int)
    requires rate > 0.0
    requires (n - 1) as real * rate < cost <= k as real * rate
    ensures n <= k
  {
    LessFactor((n - 1) as real, k as real, rate);
  }

  lemma CoverSign(cost: real, rate: real, n: int)
    requires rate > 0.0 && n as real * rate >= cost
    ensures cost >= 0.0 ==> n >= 0
    ensures cost > 0.0 ==> n >= 1
  {
    if cost >= 0.0 {
      NonNegativeFactor(n as real, rate);
    }
    if cost > 0.0 {
      PositiveFactor(n as real, rate);
    }
  }

  lemma CoverWithin(cost: real, rate: real, n: int, k: int)
    requires rate > 0.0 && n as real * rate >= cost && n <= k
    ensures k as real * rate >= cost
  {
    ScaleLowerBound(k as real, n as real, rate);
  }

  lemma MonthsOfYears(annual: real, year: nat)
    ensures (12 * year) as real * (annual / 12.0) == year as real * annual
  {
  }

  lemma SavingsFloor(monthlyTickets: real, perTicket: real)
    requires monthlyTickets >= 1000.0 && perTicket >= 1.65
    ensures 12.0 * monthlyTickets * perTicket >= 19800.0
  {
    ScaleLowerBound(perTicket, 1.65, 12.0 * monthlyTickets);
  }

  // ---------------------------------------------------------------- break-even

  /** No whole number of months smaller than the break-even count covers the cost. */
  lemma BreakEvenIsLeast(implementationCost: real, monthlySavings: real, k: int)
    requires monthlySavings > 0.0
    requires k as real * monthlySavings >= implementationCost
    ensures BreakEvenMonths(implementationCost, monthlySavings).Months?
    ensures BreakEvenMonths(implementationCost, monthlySavings).n <= k
  {
    var b := BreakEvenMonths(implementationCost, monthlySavings);
    LeastCover(implementationCost, monthlySavings, b.n, k);
  }

  /** Break-even of the engine: the sentinel exactly when net savings are not
      positive; otherwise Math.ceil of cost over monthly savings, a positive
      whole number for a positive cost, and the least month count that covers it. */
  lemma BreakEvenOfCompute(inp: Inputs)
    ensures var m := Compute(inp);
      m.breakEvenMonths == Never <==> m.annualSavings <= 0.0
    ensures var m := Compute(inp);
      m.annualSavings > 0.0 ==>
        m.breakEvenMonths == Months(Ceil(inp.implementationCost / (m.annualSavings / 12.0)))
    ensures var m := Compute(inp);
      m.annualSavings > 0.0 && inp.implementationCost > 0.0 ==> m.breakEvenMonths.n >= 1
    ensures var m := Compute(inp);
      m.annualSavings > 0.0 && inp.implementationCost >= 0.0 ==> m.breakEvenMonths.n >= 0
    ensures var m := Compute(inp);
      m.annualSavings > 0.0 ==>
        m.breakEvenMonths.n as real * (m.annualSavings / 12.0) >= inp.implementationCost &&
        (m.breakEvenMonths.n - 1) as real * (m.annualSavings / 12.0) < inp.implementationCost
  {
    var m := Compute(inp);
    var ms := m.annualSavings / 12.0;
    if m.annualSavings > 0.0 {
      CoverSign(inp.implementationCost, ms, m.breakEvenMonths.n);
    }
  }

  /** The break-even value, encoded as the hook encodes it, is the number
      the hook computes: the Math.ceil quotient or 999. */
  lemma CodeMatchesSource(inp: Inputs)
    ensures var m := Compute(inp);
      Code(m.breakEvenMonths) == SourceBreakEvenMonths(inp.implementationCost, m.annualSavings / 12.0)
  {
  }

  /** Reading the stored number back gives the break-even value again,
      for "never" and for every month count below the sentinel. */
  lemma DecodeCode(b: BreakEven)
    requires b.Never? || b.n < NeverSentinel
    ensures Decode(Code(b)) == b
  {
  }

  /** Inputs whose monthly net savings are 50.06: positive, so break-even
      exists, but it takes 999 months. */
  const SlowPaybackInputs: Inputs := Inputs(50.0, 1000.0, 5.0, 15.0, 0.19994, 0.20, 0.0, 30.0, 50000.0)

  /** The stored number cannot tell a 999-month break-even from "never". */
  lemma SentinelCollision()
    ensures var m := Compute(SlowPaybackInputs);
      m.annualSavings > 0.0 &&
      m.breakEvenMonths == Months(NeverSentinel) &&
      Code(m.breakEvenMonths) == Code(Never) &&
      Decode(Code(m.breakEvenMonths)) == Never
  {
    var m := Compute(SlowPaybackInputs);
    assert m.annualSavings == 600.72;
    var q := 50000.0 / 50.06;
    assert 998.0 < q <= 999.0;
    assert Ceil(q) == 999;
  }

  // ---------------------------------------------------------------- projection

  /** The three projected values are an arithmetic progression with common
      difference the net annual savings: year k is k times the savings
      minus the one-time cost. */
  lemma YearValuesProgression(inp: Inputs, year: nat)
    requires 1 <= year <= 3
    ensures var m := Compute(inp);
      YearValue(m, year) == CumulativeValue(m.annualSavings, inp.implementationCost, year)
  {
  }

  /** With positive savings, the projection for year k is non-negative
      exactly when break-even happens within the first 12k months. */
  lemma BreakEvenWithinYears(inp: Inputs, year: nat)
    requires 1 <= year <= 3
    requires Compute(inp).annualSavings > 0.0
    ensures var m := Compute(inp);
      YearValue(m, year) >= 0.0 <==> m.breakEvenMonths.n <= 12 * year
  {
    var m := Compute(inp);
    var ms := m.annualSavings / 12.0;
    var n := m.breakEvenMonths.n;
    YearValuesProgression(inp, year);
    MonthsOfYears(m.annualSavings, year);
    assert YearValue(m, year) == (12 * year) as real * ms - inp.implementationCost;
    if YearValue(m, year) >= 0.0 {
      LeastCover(inp.implementationCost, ms, n, 12 * year);
    }
    if n <= 12 * year {
      CoverWithin(inp.implementationCost, ms, n, 12 * year);
    }
  }

  // ---------------------------------------------------------------- closed forms

  /** Net annual savings are twelve months of tickets times the net value per ticket. */
  lemma AnnualSavingsPerTicket(inp: Inputs)
    ensures Compute(inp).annualSavings == 12.0 * inp.monthlyTickets * PerTicketNetValue(inp)
  {
  }

  /** Baseline cost is agent-hours per year times the wage; hours saved are
      the reduced share of those hours. */
  lemma BaselineAndHoursClosedForm(inp: Inputs)
    ensures Compute(inp).currentAnnualCost == inp.monthlyTickets * inp.avgHandleTime * inp.hourlyWage / 5.0
    ensures Compute(inp).hoursSaved == inp.monthlyTickets * inp.avgHandleTime * inp.timeReduction / 5.0
    ensures Compute(inp).laborSavings == Compute(inp).hoursSaved * inp.hourlyWage
    ensures Compute(inp).laborSavings ==
      (inp.monthlyTickets * inp.avgHandleTime * inp.hourlyWage / 5.0) * inp.timeReduction
  {
  }

  /** The AI-enabled cost is the labour cost of the remaining handle time,
      minus the avoided escalations, plus the AI cost; it is not clamped. */
  lemma AiEnabledCostClosedForm(inp: Inputs)
    ensures Compute(inp).aiEnabledCost ==
      12.0 * inp.monthlyTickets *
        (inp.avgHandleTime / 60.0 * (1.0 - inp.timeReduction) * inp.hourlyWage
         - inp.fcrImprovement * inp.escalationCost
         + inp.aiCostPerTicket)
  {
  }

  // ---------------------------------------------------------------- monotonicity

  /** Holding everything else fixed, a larger handle-time reduction gives
      strictly larger labour savings. */
  lemma LaborSavingsIncreaseWithTimeReduction(inp: Inputs, timeReduction': real)
    requires inp.monthlyTickets > 0.0 && inp.avgHandleTime > 0.0 && inp.hourlyWage > 0.0
    requires inp.timeReduction < timeReduction'
    ensures Compute(inp).laborSavings < Compute(inp.(timeReduction := timeReduction')).laborSavings
  {
    var k := inp.monthlyTickets * inp.avgHandleTime * inp.hourlyWage / 5.0;
    ScaleStrict(inp.monthlyTickets, 0.0, inp.avgHandleTime);
    ScaleStrict(inp.monthlyTickets * inp.avgHandleTime, 0.0, inp.hourlyWage);
    BaselineAndHoursClosedForm(inp);
    BaselineAndHoursClosedForm(inp.(timeReduction := timeReduction'));
    ScaleStrict(k, inp.timeReduction, timeReduction');
  }

  /** Holding everything else fixed, a dearer AI cost per ticket gives
      strictly smaller net annual savings. */
  lemma AnnualSavingsDecreaseWithAiCost(inp: Inputs, aiCostPerTicket': real)
    requires inp.monthlyTickets > 0.0
    requires inp.aiCostPerTicket < aiCostPerTicket'
    ensures Compute(inp.(aiCostPerTicket := aiCostPerTicket')).annualSavings < Compute(inp).annualSavings
  {
    var inp' := inp.(aiCostPerTicket := aiCostPerTicket');
    var v, v' := PerTicketNetValue(inp), PerTicketNetValue(inp');
    assert v' == v - (aiCostPerTicket' - inp.aiCostPerTicket);
    AnnualSavingsPerTicket(inp);
    AnnualSavingsPerTicket(inp');
    ScaledLess(Compute(inp').annualSavings, Compute(inp).annualSavings, 12.0 * inp.monthlyTickets, v', v);
  }

  // ---------------------------------------------------------------- degenerate inputs

  /** The agent count is a dependency of the recompute but enters no formula. */
  lemma AgentCountUnused(inp: Inputs, agentCount': real)
    ensures Compute(inp.(agentCount := agentCount')) == Compute(inp)
  {
  }

  /** With no tickets every cost and saving is zero, break-even is never,
      and each projected year is just minus the one-time cost. */
  lemma ZeroTickets(inp: Inputs)
    requires inp.monthlyTickets == 0.0
    ensures var m := Compute(inp);
      m.currentAnnualCost == 0.0 && m.laborSavings == 0.0 && m.escalationSavings == 0.0 &&
      m.totalAiCost == 0.0 && m.annualSavings == 0.0 && m.hoursSaved == 0.0 &&
      m.aiEnabledCost == 0.0 && m.breakEvenMonths == Never && Code(m.breakEvenMonths) == NeverSentinel &&
      m.year1NetValue == m.year2NetValue == m.year3NetValue == -inp.implementationCost
  {
  }

  // ---------------------------------------------------------------- scenarios

  /** The default inputs give the figures the calculator opens with. */
  lemma DefaultScenario()
    ensures Compute(Defaults) == Metrics(
      annualSavings := 1765200.0,
      hoursSaved := 15000.0,
      breakEvenMonths := Months(1),
      currentAnnualCost := 840000.0,
      aiEnabledCost := -925200.0,
      laborSavings := 420000.0,
      escalationSavings := 1350000.0,
      totalAiCost := 4800.0,
      year1NetValue := 1715200.0,
      year2NetValue := 3480400.0,
      year3NetValue := 5245600.0)
  {
    var m := Compute(Defaults);
    assert m.annualSavings == 1765200.0;
    assert Ceil(50000.0 / 147100.0) == 1;
  }

  /** The ranges the input form's sliders allow, with the fixed setup cost. */
  predicate InSliderRanges(inp: Inputs)
  {
    10.0 <= inp.agentCount <= 500.0 &&
    1000.0 <= inp.monthlyTickets <= 100000.0 &&
    5.0 <= inp.avgHandleTime <= 60.0 &&
    15.0 <= inp.hourlyWage <= 50.0 &&
    0.20 <= inp.timeReduction <= 0.80 &&
    0.01 <= inp.aiCostPerTicket <= 0.10 &&
    0.05 <= inp.fcrImprovement <= 0.30 &&
    30.0 <= inp.escalationCost <= 150.0 &&
    inp.implementationCost == 50000.0
  }

  /** Within the slider ranges each ticket is worth at least
      5/60 * 0.20 * 15 + 0.05 * 30 - 0.10 = 1.65 net. */
  lemma SliderRangesPerTicketFloor(inp: Inputs)
    requires InSliderRanges(inp)
    ensures PerTicketNetValue(inp) >= 1.65
  {
    var hours := inp.avgHandleTime / 60.0;
    ProductFloor(hours, 5.0 / 60.0, inp.timeReduction, 0.20);
    var saved := hours * inp.timeReduction;
    ProductFloor(saved, (5.0 / 60.0) * 0.20, inp.hourlyWage, 15.0);
    ProductFloor(inp.fcrImprovement, 0.05, inp.escalationCost, 30.0);
    assert PerTicketNetValue(inp) ==
      saved * inp.hourlyWage + inp.fcrImprovement * inp.escalationCost - inp.aiCostPerTicket;
  }

  /** A 50,000 setup cost against at least 1,650 a month is recovered
      within 31 months, and not in month 0. */
  lemma SetupCostRecoveredWithin31Months(monthlySavings: real)
    requires monthlySavings >= 1650.0
    ensures BreakEvenMonths(50000.0, monthlySavings).Months?
    ensures 1 <= BreakEvenMonths(50000.0, monthlySavings).n <= 31
  {
    var n := BreakEvenMonths(50000.0, monthlySavings).n;
    PositiveFactor(n as real, monthlySavings);
    ScaleLowerBound(monthlySavings, 1650.0, (n - 1) as real);
  }

  /** Within the slider ranges net savings are at least 19,800 a year and
      break-even falls between month 1 and month 31, so the 999 sentinel
      never stands for a real month count there. */
  lemma SliderRangesBreakEven(inp: Inputs)
    requires InSliderRanges(inp)
    ensures Compute(inp).annualSavings >= 19800.0
    ensures Compute(inp).breakEvenMonths.Months?
    ensures 1 <= Compute(inp).breakEvenMonths.n <= 31
  {
    SliderRangesPerTicketFloor(inp);
    AnnualSavingsPerTicket(inp);
    SavingsFloor(inp.monthlyTickets, PerTicketNetValue(inp));
    SetupCostRecoveredWithin31Months(Compute(inp).annualSavings / 12.0);
  }
}
