/**
 * `WarehouseSimulator` of core/simulation_engine.py: a bounded run of
 * `TARGET_ORDERS_MONTH` orders, one every (20 × 480) / 10000 minutes from time
 * 0, served by `staff_count` operators for `15 / efficiency` minutes each, up to
 * a horizon of 1.5 working months, reporting the completions and their mean
 * cycle time rounded to two decimals.
 */
module SimulationEngine {
  import opened Numeric
  import opened OrderFlow
  import Config

  /** The dictionary `run` returns. */
  datatype Kpi = Kpi(achievedThroughput: nat, avgCycleTimeMin: real)

  /** Arrival interval (20 × 480) / 10000 minutes, in ticks. */
  const ArrivalIntervalTicks: nat :=
    Config.SimulationWorkingDays * Config.MinutesPerWorkingDay * Config.TicksPerMinute / Config.TargetOrdersMonth

  /** `simulation_duration * 1.5`, in ticks. */
  const HorizonTicks: nat :=
    Config.SimulationWorkingDays * Config.MinutesPerWorkingDay * Config.TicksPerMinute * 3 / 2

  /** Interval and horizon: 0.96 minutes apart, and 14400 minutes. */
  lemma TimingConstants()
    ensures ArrivalIntervalTicks == 96 && ArrivalIntervalTicks * Config.TargetOrdersMonth == 960000
    ensures HorizonTicks == 1440000
  {
  }

  /**
   * The simulator as `__init__` and `run` set it up, or the exception that
   * stops it: the division by the efficiency comes first (line 23), then the
   * resource's capacity check (line 26), then the timeout of the first order.
   */
  function SimulatorPlan(staffCount: int, efficiencyMultiplier: real): (r: Result<Plan, SimError>)
    ensures efficiencyMultiplier == 0.0 ==> r == Err(ZeroDivision)
    ensures efficiencyMultiplier != 0.0 && staffCount <= 0 ==> r == Err(NonPositiveCapacity)
    ensures staffCount > 0 && efficiencyMultiplier < 0.0 ==> r == Err(NegativeDelay)
    ensures r.Ok? ==> PlanOk(r.value) && r.value.capacity == staffCount
    ensures r.Ok? ==> r.value.service as real * efficiencyMultiplier == 1500.0
    ensures r.Ok? ==> r.value.interval == 96 && r.value.firstArrival == 0 && r.value.limit == Some(10000)
  {
    if efficiencyMultiplier == 0.0 then Err(ZeroDivision)
    else if staffCount <= 0 then Err(NonPositiveCapacity)
    else match ServiceTicks(Config.BaseOrderProcessingTicks, efficiencyMultiplier)
      case Err(e) => Err(e)
      case Ok(service) =>
        Ok(Plan(staffCount, service, ArrivalIntervalTicks, 0, Some(Config.TargetOrdersMonth)))
  }

  /** The `k`-th order (from 0) arrives at 0.96·k minutes. */
  lemma OrderArrivals(staffCount: int, efficiencyMultiplier: real, k: nat)
    requires SimulatorPlan(staffCount, efficiencyMultiplier).Ok?
    ensures Arrival(SimulatorPlan(staffCount, efficiencyMultiplier).value, k) == 96 * k
  {
    ArrivalClosedForm(SimulatorPlan(staffCount, efficiencyMultiplier).value, k);
  }

  /** A mean of at least `service` ticks, rounded to hundredths of a minute, is at least `service` ticks. */
  lemma RoundedMeanAtLeast(total: int, count: nat, service: nat)
    requires count > 0 && total >= count * service
    ensures Round2((total as real / count as real) / 100.0) * 100.0 >= service as real
  {
    var m := total as real / count as real;
    assert m >= service as real by {
      assert total as real >= count as real * service as real;
    }
    assert (m / 100.0) * 100.0 == m;
    var r := RoundHalfEven(m);
    assert r as real >= m - 0.5;
    assert r >= service;
  }

  /** The reported average of a run whose orders each took at least the service time is at least 15 / efficiency minutes. */
  lemma ReportedAverageAtLeastServiceTime(total: int, count: nat, service: nat, efficiencyMultiplier: real)
    requires count > 0 && total >= count * service
    requires efficiencyMultiplier > 0.0 && service as real * efficiencyMultiplier == 1500.0
    ensures Round2((total as real / count as real) / 100.0) * efficiencyMultiplier >= 15.0
  {
    var avg := Round2((total as real / count as real) / 100.0);
    RoundedMeanAtLeast(total, count, service);
    assert avg * 100.0 * efficiencyMultiplier >= service as real * efficiencyMultiplier;
  }

  /** The run stops before this tick: `simulation_duration * 1.5`, or one tick later when the horizon's own events still happen. */
  function Stop(completionAtHorizon: bool): nat
  {
    HorizonTicks + (if completionAtHorizon then 1 else 0)
  }

  /**
   * `WarehouseSimulator(staff_count, efficiency_multiplier).run()`.
   * `completionAtHorizon` says whether the events of the horizon tick itself
   * still happen.  The throughput counts exactly the orders whose
   * first-come-first-served completion falls before the stop, and the average
   * is that of their reference cycle times.  With at least 16 operators and
   * an efficiency of at least 1 nobody waits, so all 10000 orders finish in
   * exactly 15 / efficiency minutes each.
   */
  method Run(staffCount: int, efficiencyMultiplier: real, completionAtHorizon: bool) returns (r: Result<Kpi, SimError>)
    ensures r.Err? <==> SimulatorPlan(staffCount, efficiencyMultiplier).Err?
    ensures r.Err? ==> r.error == SimulatorPlan(staffCount, efficiencyMultiplier).error
    ensures r.Ok? ==> ReportsReference(r.value, SimulatorPlan(staffCount, efficiencyMultiplier).value, Stop(completionAtHorizon), efficiencyMultiplier)
    ensures r.Ok? && staffCount >= 16 && efficiencyMultiplier >= 1.0 ==>
      r.value.achievedThroughput == Config.TargetOrdersMonth && r.value.avgCycleTimeMin * efficiencyMultiplier == 15.0
  {
    var planned := SimulatorPlan(staffCount, efficiencyMultiplier);
    if planned.Err? {
      return Err(planned.error);
    }
    var plan := planned.value;
    var kpi := Report(plan, efficiencyMultiplier, Stop(completionAtHorizon));
    r := Ok(kpi);
  }

  /** Run the simulator set up as `plan` and build its dictionary. */
  method Report(plan: Plan, efficiencyMultiplier: real, stop: nat) returns (kpi: Kpi)
    requires PlanOk(plan) && plan.interval == 96 && plan.firstArrival == 0
    requires plan.limit == Some(Config.TargetOrdersMonth)
    requires plan.service as real * efficiencyMultiplier == 1500.0
    ensures ReportsReference(kpi, plan, stop, efficiencyMultiplier)
    ensures plan.capacity >= 16 && efficiencyMultiplier >= 1.0 && stop >= HorizonTicks ==>
      kpi.achievedThroughput == Config.TargetOrdersMonth && kpi.avgCycleTimeMin * efficiencyMultiplier == 15.0
  {
    var count, total := Counters(plan, stop);
    kpi := KpiOf(count, total);
    ReferenceKpi(plan, efficiencyMultiplier, stop, count, total, kpi);
    if plan.capacity >= 16 && efficiencyMultiplier >= 1.0 && stop >= HorizonTicks {
      FullRun(plan, efficiencyMultiplier, stop, count, total, kpi);
    }
  }

  /** The dictionary of a run that counted `count` orders totalling `total` ticks. */
  function KpiOf(count: nat, total: int): Kpi
  {
    Kpi(count, if count > 0 then Round2((total as real / count as real) / 100.0) else 0.0)
  }

  /**
   * What `run` reports for `plan` stopped before `stop`: as many orders as the
   * first-come-first-served reference finishes before the stop (never more
   * than 10000), and for a non-empty run the mean of their reference cycle
   * times in minutes rounded to hundredths, which is never below the service
   * time of 15 / efficiency minutes; 0 for an empty run.
   */
  ghost predicate ReportsReference(kpi: Kpi, plan: Plan, stop: nat, efficiencyMultiplier: real)
    requires PlanOk(plan)
  {
    var n := kpi.achievedThroughput;
    n <= Config.TargetOrdersMonth && CountsFifo(plan, stop, n) &&
    (n == 0 ==> kpi.avgCycleTimeMin == 0.0) &&
    (n > 0 ==> kpi.avgCycleTimeMin == Round2((FifoCycleTotal(plan, n) as real / n as real) / 100.0)) &&
    (n > 0 ==> kpi.avgCycleTimeMin * efficiencyMultiplier >= 15.0)
  }

  /** The dictionary built from the counters of a run reports the reference. */
  lemma ReferenceKpi(plan: Plan, efficiencyMultiplier: real, stop: nat, count: nat, total: int, kpi: Kpi)
    requires PlanOk(plan) && plan.service as real * efficiencyMultiplier == 1500.0
    requires count <= Config.TargetOrdersMonth && CountsFifo(plan, stop, count)
    requires total == FifoCycleTotal(plan, count) && total >= count * plan.service
    requires kpi == KpiOf(count, total)
    ensures ReportsReference(kpi, plan, stop, efficiencyMultiplier)
  {
    KpiAverage(plan.service, efficiencyMultiplier, count, total, kpi);
  }

  /** The reported average of a run is at least 15 / efficiency minutes, and 0 for no orders. */
  lemma KpiAverage(service: nat, efficiencyMultiplier: real, count: nat, total: int, kpi: Kpi)
    requires service as real * efficiencyMultiplier == 1500.0 && total >= count * service
    requires kpi == KpiOf(count, total)
    ensures kpi.achievedThroughput == count
    ensures kpi.achievedThroughput == 0 ==> kpi.avgCycleTimeMin == 0.0
    ensures kpi.achievedThroughput > 0 ==> kpi.avgCycleTimeMin * efficiencyMultiplier >= 15.0
  {
    if count > 0 {
      ReportedAverageAtLeastServiceTime(total, count, service, efficiencyMultiplier);
    }
  }

  /**
   * With at least 16 operators at efficiency at least 1, a run up to the
   * horizon counts all 10000 orders, at exactly 15 / efficiency minutes each.
   */
  lemma FullRun(plan: Plan, efficiencyMultiplier: real, stop: nat, count: nat, total: int, kpi: Kpi)
    requires PlanOk(plan) && plan.capacity >= 16 && plan.interval == 96 && plan.firstArrival == 0
    requires plan.limit == Some(Config.TargetOrdersMonth) && efficiencyMultiplier >= 1.0
    requires plan.service as real * efficiencyMultiplier == 1500.0
    requires stop >= HorizonTicks && count <= Config.TargetOrdersMonth
    requires CountsFifo(plan, stop, count) && total == FifoCycleTotal(plan, count)
    requires kpi == KpiOf(count, total)
    ensures count == Config.TargetOrdersMonth && kpi.avgCycleTimeMin * efficiencyMultiplier == 15.0
  {
    NobodyWaits(plan, efficiencyMultiplier, stop, count);
    FifoTotalWithoutWaiting(plan, count);
    AverageOfEqualCycles(total, count, plan.service, efficiencyMultiplier, kpi);
  }

  /** Orders that each took `service` ticks average exactly `service` ticks. */
  lemma ExactMean(total: int, count: nat, service: nat)
    requires count > 0 && total == count * service
    ensures total as real / count as real == service as real
  {
    var c := count as real;
    assert c > 0.0;
    assert total as real == c * service as real;
  }

  /** When every order took exactly the service time, the reported average is 15 / efficiency minutes. */
  lemma AverageOfEqualCycles(total: int, count: nat, service: nat, efficiencyMultiplier: real, kpi: Kpi)
    requires count > 0 && total == count * service && service as real * efficiencyMultiplier == 1500.0
    requires kpi == KpiOf(count, total)
    ensures kpi.avgCycleTimeMin * efficiencyMultiplier == 15.0
  {
    ExactMean(total, count, service);
    Round2OfHundredths(service);
  }

  /**
   * With at least 16 operators and service at most 15 minutes, 16 × 0.96 ≥ 15
   * minutes, so nobody waits, and the last order (arriving at 9599.04 minutes)
   * finishes well before the horizon: all 10000 are counted.
   */
  lemma NobodyWaits(plan: Plan, efficiencyMultiplier: real, stop: nat, processed: nat)
    requires PlanOk(plan) && plan.capacity >= 16 && plan.interval == 96 && plan.firstArrival == 0
    requires plan.limit == Some(Config.TargetOrdersMonth) && efficiencyMultiplier >= 1.0
    requires plan.service as real * efficiencyMultiplier == 1500.0
    requires processed <= Config.TargetOrdersMonth
    requires stop >= HorizonTicks && CountsFifo(plan, stop, processed)
    ensures plan.service <= 1500 && plan.service <= plan.capacity * plan.interval
    ensures processed == Config.TargetOrdersMonth
  {
    assert plan.service as real * efficiencyMultiplier >= plan.service as real;
    assert plan.capacity * plan.interval >= 16 * 96;
    ArrivalClosedForm(plan, 9999);
    CountsAllWithoutWaiting(plan, stop, processed);
  }
}
