/**
 * `WarehouseSim` of bloc3_simpy_scenarios.py: operators left after the
 * scenario's attrition, an order generator that never stops (order ids 1, 2,
 * 3, ... every 0.96 minutes from time 0), a fixed 15-minute service, and a
 * counter of completed orders.
 */
module Bloc3Scenarios {
  import opened Numeric
  import opened OrderFlow
  import Config

  /** One entry of `SCENARIOS_DATA`. */
  datatype ScenarioData = ScenarioData(name: string, staffAttritionPercentage: real, capitalInvestmentMlnRub: int)

  const ScenariosData: map<int, ScenarioData> := map[
    1 := ScenarioData("Move No Mitigation", 0.25, 0),
    2 := ScenarioData("Move With Compensation", 0.15, 50),
    3 := ScenarioData("Move Basic Automation", 0.25, 100),
    4 := ScenarioData("Move Advanced Automation", 0.25, 300)
  ]

  const InitialOperatorCount: int := 100
  const SimulationDays: nat := 20
  const MinutesPerWorkingDay: nat := 8 * 60
  const OrdersPerMonth: nat := 10000
  const OrdersPerDay: nat := OrdersPerMonth / SimulationDays

  /** `MINUTES_PER_WORKING_DAY / ORDERS_PER_DAY`, in ticks. */
  const InterArrivalTicks: nat := MinutesPerWorkingDay * 100 / OrdersPerDay

  /** `ORDER_PROCESSING_TIME_MIN = 15`, in ticks, whatever the scenario. */
  const OrderProcessingTicks: nat := 1500

  /** 480 / (10000 / 20) minutes is 0.96 minutes. */
  lemma InterArrivalIs096()
    ensures OrdersPerDay == 500 && InterArrivalTicks == 96 && InterArrivalTicks * OrdersPerDay == MinutesPerWorkingDay * 100
  {
  }

  /** `available_operators`: floor(100 × (1 − attrition)). */
  function AvailableOperators(scenario: ScenarioData): int
  {
    Config.StaffAfterAttrition(InitialOperatorCount, scenario.staffAttritionPercentage)
  }

  /** Scenarios 1, 3 and 4 lose a quarter of the staff and keep 75 operators; scenario 2 keeps 85. */
  lemma AvailableOperatorsByScenario()
    ensures AvailableOperators(ScenariosData[1]) == 75 && AvailableOperators(ScenariosData[3]) == 75
    ensures AvailableOperators(ScenariosData[4]) == 75 && AvailableOperators(ScenariosData[2]) == 85
  {
    Config.ScenarioStaffCounts();
  }

  /** The simulation's state after `run`: operators, completed orders, and the last `order_id` issued. */
  datatype RunReport = RunReport(availableOperators: int, processedOrdersCount: nat, lastOrderId: nat)

  /** The generator: capacity from attrition, 15-minute service, one order every 0.96 minutes from 0, no limit. */
  function SimPlan(scenario: ScenarioData): Plan
    requires AvailableOperators(scenario) > 0
  {
    Plan(AvailableOperators(scenario), OrderProcessingTicks, InterArrivalTicks, 0, None)
  }

  /** Order id `k + 1` arrives at 0.96·k minutes, so ids strictly increase with time. */
  lemma OrderIdArrival(scenario: ScenarioData, k: nat)
    requires AvailableOperators(scenario) > 0
    ensures Arrival(SimPlan(scenario), k) == 96 * k
  {
    InterArrivalIs096();
    ArrivalClosedForm(SimPlan(scenario), k);
  }

  /** The run stops before this tick: `until_time`, or one tick later when the events of that minute still happen. */
  function Stop(untilMinutes: nat, completionAtHorizon: bool): nat
  {
    untilMinutes * 100 + (if completionAtHorizon then 1 else 0)
  }

  /** How many orders, one every 0.96 minutes from 0 and each served at once for 15 minutes, finish before `stop`. */
  function CompletedWithoutWaiting(stop: nat): nat
  {
    if stop > OrderProcessingTicks then (stop - OrderProcessingTicks - 1) / InterArrivalTicks + 1 else 0
  }

  /**
   * With at least 16 operators nobody waits (16 × 0.96 ≥ 15 minutes), so the
   * orders counted are exactly those that arrive at least 15 minutes before
   * the stop.
   */
  lemma NoWaitingCount(scenario: ScenarioData, stop: nat, n: nat)
    requires AvailableOperators(scenario) >= 16
    requires CountsFifo(SimPlan(scenario), stop, n)
    ensures n == CompletedWithoutWaiting(stop)
  {
    InterArrivalIs096();
    var plan := SimPlan(scenario);
    assert plan.interval == 96 && plan.service == 1500 && plan.firstArrival == 0;
    assert plan.service <= plan.capacity * plan.interval;
    var m := CompletedWithoutWaiting(stop);
    assert 96 * m + 1500 >= stop by {
      if stop > 1500 {
        var q := (stop - 1501) / 96;
        assert stop - 1501 < 96 * q + 96;
      }
    }
    FifoStartIsArrival(plan, m);
    ArrivalClosedForm(plan, m);
    assert !(m < n);
    if m > 0 {
      var q := (stop - 1501) / 96;
      assert 96 * q <= stop - 1501;
      FifoStartIsArrival(plan, m - 1);
      ArrivalClosedForm(plan, m - 1);
      assert m - 1 < n;
    }
  }

  /** The script's own run, 20 days of 480 minutes with 75 operators, completes 9985 orders. */
  lemma ScriptRunCompletes(completionAtHorizon: bool)
    ensures CompletedWithoutWaiting(Stop(SimulationDays * MinutesPerWorkingDay, completionAtHorizon)) == 9985
  {
    InterArrivalIs096();
    var stop := Stop(SimulationDays * MinutesPerWorkingDay, completionAtHorizon);
    assert stop - 1501 == 958499 || stop - 1501 == 958500;
    assert (stop - 1501) / 96 == 9984;
  }

  /**
   * `WarehouseSim(scenario, BASE_PARAMETERS).run(until_time)`, the run
   * length in whole minutes.  The resource refuses a capacity below one,
   * then `env.run` refuses a length of 0.  Orders are made at every arrival
   * tick before the stop, so the last id is the number of such ticks, and
   * the orders counted are exactly those the first-come-first-served
   * reference finishes before the stop.
   */
  method Run(scenario: ScenarioData, untilMinutes: nat, completionAtHorizon: bool) returns (r: Result<RunReport, SimError>)
    ensures r.Err? <==> AvailableOperators(scenario) <= 0 || untilMinutes == 0
    ensures AvailableOperators(scenario) <= 0 ==> r == Err(NonPositiveCapacity)
    ensures AvailableOperators(scenario) > 0 && untilMinutes == 0 ==> r == Err(UntilNotAfterNow)
    ensures r.Ok? ==> r.value.availableOperators == AvailableOperators(scenario)
    ensures r.Ok? ==> r.value.processedOrdersCount <= r.value.lastOrderId
    ensures r.Ok? ==> r.value.lastOrderId * 96 >= Stop(untilMinutes, completionAtHorizon)
    ensures r.Ok? && r.value.lastOrderId > 0 ==> (r.value.lastOrderId - 1) * 96 < Stop(untilMinutes, completionAtHorizon)
    ensures r.Ok? ==> CountsFifo(SimPlan(scenario), Stop(untilMinutes, completionAtHorizon), r.value.processedOrdersCount)
    ensures r.Ok? && AvailableOperators(scenario) >= 16 ==>
      r.value.processedOrdersCount == CompletedWithoutWaiting(Stop(untilMinutes, completionAtHorizon))
  {
    var operators := AvailableOperators(scenario);
    if operators <= 0 {
      return Err(NonPositiveCapacity);
    }
    if untilMinutes == 0 {
      return Err(UntilNotAfterNow);
    }
    var plan := SimPlan(scenario);
    var stop := Stop(untilMinutes, completionAtHorizon);
    var out := Simulate(plan, stop);
    OrderIdArrival(scenario, out.generated);
    if out.generated > 0 {
      OrderIdArrival(scenario, out.generated - 1);
    }
    if operators >= 16 {
      NoWaitingCount(scenario, stop, out.processedCount);
    }
    r := Ok(RunReport(operators, out.processedCount, out.generated));
  }
}
