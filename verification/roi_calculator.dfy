/**
 The calculator hook's state: one cell per input, a fixed setup cost, and
 the results record. Every setter replaces one input and then recomputes
 the whole record from the current inputs, synchronously.
 */
module RoiCalculator {
  import opened RoiEngine
  import RoiProperties

  class Calculator {
    var agentCount: real
    var monthlyTickets: real
    var avgHandleTime: real
    var hourlyWage: real
    var aiCostPerTicket: real
    var timeReduction: real
    var fcrImprovement: real
    var escalationCost: real
    const implementationCost: real  // the hook exposes no setter for it
    var results: Metrics

    /** The current inputs, as one engine argument. */
    function CurrentInputs(): (inp: Inputs)
      reads this
    {
      Inputs(agentCount, monthlyTickets, avgHandleTime, hourlyWage, aiCostPerTicket,
             timeReduction, fcrImprovement, escalationCost, implementationCost)
    }

    /** The results on display always belong to the current inputs. */
    ghost predicate Valid()
      reads this
    {
      results == Compute(CurrentInputs())
    }

    /** A session starts from the default inputs; the all-zero record is
        replaced by the first recompute before anyone reads it. */
    constructor ()
      ensures Valid()
      ensures CurrentInputs() == Defaults
      ensures results == Compute(Defaults)
    {
      agentCount := 50.0;
      monthlyTickets := 10000.0;
      avgHandleTime := 15.0;
      hourlyWage := 28.0;
      aiCostPerTicket := 0.04;
      timeReduction := 0.50;
      fcrImprovement := 0.15;
      escalationCost := 75.0;
      implementationCost := 50000.0;
      results := ZeroMetrics;
      new;
      Recompute();
    }

    /** The calculation effect: overwrite the whole results record with
        the engine's output for the current inputs. */
    method Recompute()
      modifies this`results
      ensures results == Compute(CurrentInputs())
    {
      results := Compute(CurrentInputs());
    }

    /** The agent count is a dependency of the recompute, but the
        recomputed record is the one already shown. */
    method SetAgentCount(value: real)
      modifies this
      ensures CurrentInputs() == old(CurrentInputs()).(agentCount := value)
      ensures Valid()
      ensures old(Valid()) ==> results == old(results)
    {
      agentCount := value;
      Recompute();
      RoiProperties.AgentCountUnused(old(CurrentInputs()), value);
    }

    method SetMonthlyTickets(value: real)
      modifies this
      ensures CurrentInputs() == old(CurrentInputs()).(monthlyTickets := value)
      ensures Valid()
    {
      monthlyTickets := value;
      Recompute();
    }

    method SetAvgHandleTime(value: real)
      modifies this
      ensures CurrentInputs() == old(CurrentInputs()).(avgHandleTime := value)
      ensures Valid()
    {
      avgHandleTime := value;
      Recompute();
    }

    method SetHourlyWage(value: real)
      modifies this
      ensures CurrentInputs() == old(CurrentInputs()).(hourlyWage := value)
      ensures Valid()
    {
      hourlyWage := value;
      Recompute();
    }

    method SetAiCostPerTicket(value: real)
      modifies this
      ensures CurrentInputs() == old(CurrentInputs()).(aiCostPerTicket := value)
      ensures Valid()
    {
      aiCostPerTicket := value;
      Recompute();
    }

    method SetTimeReduction(value: real)
      modifies this
      ensures CurrentInputs() == old(CurrentInputs()).(timeReduction := value)
      ensures Valid()
    {
      timeReduction := value;
      Recompute();
    }

    method SetFcrImprovement(value: real)
      modifies this
      ensures CurrentInputs() == old(CurrentInputs()).(fcrImprovement := value)
      ensures Valid()
    {
      fcrImprovement := value;
      Recompute();
    }

    method SetEscalationCost(value: real)
      modifies this
      ensures CurrentInputs() == old(CurrentInputs()).(escalationCost := value)
      ensures Valid()
    {
      escalationCost := value;
      Recompute();
    }

    /** What the hook hands to its consumers: the inputs, the results and
        the fixed setup cost, read together. */
    method Snapshot() returns (inputs: Inputs, res: Metrics, setupCost: real)
      requires Valid()
      ensures inputs == CurrentInputs() && setupCost == implementationCost
      ensures res == Compute(inputs)
    {
      inputs := CurrentInputs();
      res := results;
      setupCost := implementationCost;
    }
  }

  /** A session that opens on the defaults and then drops the ticket volume
      to zero: the opening figures are the default scenario's, and after
      the update break-even is never and the AI cost is zero. */
  method DefaultSessionThenNoTickets() returns (opening: Metrics, afterUpdate: Metrics)
    ensures opening.annualSavings == 1765200.0 && opening.breakEvenMonths == Months(1)
    ensures opening.aiEnabledCost == -925200.0 && opening.year3NetValue == 5245600.0
    ensures afterUpdate.breakEvenMonths == Never && afterUpdate.totalAiCost == 0.0
    ensures afterUpdate.year1NetValue == -50000.0
  {
    var session := new Calculator();
    opening := session.results;
    RoiProperties.DefaultScenario();
    assert opening == Metrics(1765200.0, 15000.0, Months(1), 840000.0, -925200.0, 420000.0,
                              1350000.0, 4800.0, 1715200.0, 3480400.0, 5245600.0);
    session.SetMonthlyTickets(0.0);
    RoiProperties.ZeroTickets(session.CurrentInputs());
    afterUpdate := session.results;
  }
}
