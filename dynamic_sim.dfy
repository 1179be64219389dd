/**
 * `DynamicWarehouseSim` of dynamic_simpy_model.py: the same bounded
 * simulator as core/simulation_engine.py with the file's own copies of the
 * constants, reporting an unrounded average cycle time.
 */
module DynamicSim {
  import opened Numeric
  import opened OrderFlow

  /** 15.0 minutes, in ticks. */
  const BaseProcessingTicks: nat := 1500
  const TargetOrdersMonth: nat := 10000
  const WorkingDays: nat := 20
  const DayLengthMin: nat := 8 * 60

  datatype Kpi = Kpi(achievedThroughput: nat, avgCycleTimeMin: real)

  /** Orders every (20 × 480) / 10000 minutes from time 0; service `15 / efficiency`; capacity `staff_count`. */
  function DynamicPlan(staffCount: int, efficiencyMultiplier: real): (r: Result<Plan, SimError>)
    ensures efficiencyMultiplier == 0.0 ==> r == Err(ZeroDivision)
    ensures efficiencyMultiplier != 0.0 && staffCount <= 0 ==> r == Err(NonPositiveCapacity)
    ensures staffCount > 0 && efficiencyMultiplier < 0.0 ==> r == Err(NegativeDelay)
    ensures r.Ok? ==> PlanOk(r.value) && r.value.capacity == staffCount
    ensures r.Ok? ==> r.value.service as real * efficiencyMultiplier == 1500.0
    ensures r.Ok? ==> r.value.interval == 96 && r.value.firstArrival == 0 && r.value.limit == Some(10000)
  {
    if efficiencyMultiplier == 0.0 then Err(ZeroDivision)
    else if staffCount <= 0 then Err(NonPositiveCapacity)
    else match ServiceTicks(BaseProcessingTicks, efficiencyMultiplier)
      case Err(e) => Err(e)
      case Ok(service) =>
        Ok(Plan(staffCount, service, WorkingDays * DayLengthMin * 100 / TargetOrdersMonth, 0, Some(TargetOrdersMonth)))
  }

  /** The horizon (20 × 480) × 1.5 minutes, in ticks: 14400 minutes. */
  const HorizonTicks: nat := WorkingDays * DayLengthMin * 100 * 3 / 2

  /** Unrounded mean cycle time in minutes of `count` orders totalling `total` ticks, and 0 for none. */
  function AverageCycleTime(total: int, count: nat): (avg: real)
    ensures count == 0 ==> avg == 0.0
    ensures count > 0 ==> avg * count as real * 100.0 == total as real
  {
    if count > 0 then (total as real / count as real) / 100.0 else 0.0
  }

  /** Every order lasting at least the service time gives an average of at least 15 / efficiency minutes. */
  lemma AverageAtLeastServiceTime(total: int, count: nat, service: nat, efficiencyMultiplier: real)
    requires count > 0 && total >= count * service
    requires efficiencyMultiplier > 0.0 && service as real * efficiencyMultiplier == 1500.0
    ensures AverageCycleTime(total, count) * efficiencyMultiplier >= 15.0
  {
    var avg := AverageCycleTime(total, count);
    assert avg * 100.0 >= service as real by {
      assert total as real >= count as real * service as real;
      assert avg * 100.0 == total as real / count as real;
    }
    assert avg * 100.0 * efficiencyMultiplier >= service as real * efficiencyMultiplier;
  }

  /**
   * What `run` reports for `plan` stopped before `stop`: as many orders as the
   * first-come-first-served reference finishes before the stop (never more
   * than 10000), and the unrounded mean of their reference cycle times, which
   * is never below the service time of 15 / efficiency minutes.
   */
  ghost predicate ReportsReference(kpi: Kpi, plan: Plan, stop: nat, efficiencyMultiplier: real)
    requires PlanOk(plan)
  {
    var n := kpi.achievedThroughput;
    n <= TargetOrdersMonth && CountsFifo(plan, stop, n) &&
    kpi.avgCycleTimeMin == AverageCycleTime(FifoCycleTotal(plan, n), n) &&
    (n > 0 ==> kpi.avgCycleTimeMin * efficiencyMultiplier >= 15.0)
  }

  /**
   * `DynamicWarehouseSim(staff_count, efficiency_multiplier).run()`, where
   * `completionAtHorizon` says whether the events of the horizon tick itself
   * still happen.  With at least 16 operators at efficiency at least 1 nobody
   * waits: all 10000 orders finish, at exactly 15 / efficiency minutes each.
   */
  method Run(staffCount: int, efficiencyMultiplier: real, completionAtHorizon: bool) returns (r: Result<Kpi, SimError>)
    ensures r.Err? <==> DynamicPlan(staffCount, efficiencyMultiplier).Err?
    ensures r.Err? ==> r.error == DynamicPlan(staffCount, efficiencyMultiplier).error
    ensures r.Ok? ==> ReportsReference(r.value, DynamicPlan(staffCount, efficiencyMultiplier).value,
      HorizonTicks + (if completionAtHorizon then 1 else 0), efficiencyMultiplier)
    ensures r.Ok? && staffCount >= 16 && efficiencyMultiplier >= 1.0 ==>
      r.value.achievedThroughput == TargetOrdersMonth && r.value.avgCycleTimeMin * efficiencyMultiplier == 15.0
  {
    var planned := DynamicPlan(staffCount, efficiencyMultiplier);
    if planned.Err? {
      return Err(planned.error);
    }
    var kpi := Report(planned.value, efficiencyMultiplier, HorizonTicks + (if completionAtHorizon then 1 else 0));
    r := Ok(kpi);
  }

  /** Run the simulator set up as `plan` up to `stop` and build its dictionary. */
  method Report(plan: Plan, efficiencyMultiplier: real, stop: nat) returns (kpi: Kpi)
    requires PlanOk(plan) && plan.interval == 96 && plan.firstArrival == 0
    requires plan.limit == Some(TargetOrdersMonth)
    requires plan.service as real * efficiencyMultiplier == 1500.0
    ensures ReportsReference(kpi, plan, stop, efficiencyMultiplier)
    ensures plan.capacity >= 16 && efficiencyMultiplier >= 1.0 && stop >= HorizonTicks ==>
      kpi.achievedThroughput == TargetOrdersMonth && kpi.avgCycleTimeMin * efficiencyMultiplier == 15.0
  {
    var count, total := Counters(plan, stop);
    kpi := Kpi(count, AverageCycleTime(total, count));
    if count > 0 {
      AverageAtLeastServiceTime(total, count, plan.service, efficiencyMultiplier);
    }
    if plan.capacity >= 16 && efficiencyMultiplier >= 1.0 && stop >= HorizonTicks {
      FullRun(plan, efficiencyMultiplier, stop, count);
    }
  }

  /**
   * With at least 16 operators and service at most 15 minutes, 16 × 0.96 ≥ 15
   * minutes, so nobody waits; the last order arrives at 9599.04 minutes and
   * finishes before the horizon, so all 10000 are counted, each taking
   * exactly the service time.
   */
  lemma FullRun(plan: Plan, efficiencyMultiplier: real, stop: nat, count: nat)
    requires PlanOk(plan) && plan.capacity >= 16 && plan.interval == 96 && plan.firstArrival == 0
    requires plan.limit == Some(TargetOrdersMonth) && efficiencyMultiplier >= 1.0
    requires plan.service as real * efficiencyMultiplier == 1500.0
    requires stop >= HorizonTicks && count <= TargetOrdersMonth && CountsFifo(plan, stop, count)
    ensures count == TargetOrdersMonth
    ensures AverageCycleTime(FifoCycleTotal(plan, count), count) * efficiencyMultiplier == 15.0
  {
    assert plan.service as real * efficiencyMultiplier >= plan.service as real;
    assert plan.capacity * plan.interval >= 16 * 96;
    ArrivalClosedForm(plan, 9999);
    CountsAllWithoutWaiting(plan, stop, count);
    FifoTotalWithoutWaiting(plan, count);
    var avg := AverageCycleTime(FifoCycleTotal(plan, count), count);
    assert avg * count as real * 100.0 == count as real * plan.service as real;
    assert avg * 100.0 == plan.service as real;
  }
}
