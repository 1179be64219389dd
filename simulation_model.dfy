/**
 * simulation_model.py: `StaffManager` sizes the operator pool from the
 * scenario's attrition and derives the service time from its automation
 * efficiency; `WarehouseModel` waits one arrival interval before each of its
 * `int(TARGET_ORDERS_MONTH)` orders, logs every completion in a
 * `StatsCollector` and runs to 1.1 × the configured duration.
 *
 * The file imports `SimulationConfig`, `INITIAL_STAFF` and
 * `BASE_PROCESSING_TIME_MIN`, which config.py does not define; they are
 * parameters here (`Settings`, `SimulationConfig`).
 */
module SimulationModel {
  import opened Numeric
  import opened Stats
  import opened OrderFlow
  import Config

  datatype ScenarioParams = ScenarioParams(name: string, attritionRate: real, automationEfficiency: real)

  /** `cfg`: the scenario, the arrival interval (ticks) and the run length (whole minutes). */
  datatype SimulationConfig = SimulationConfig(scenario: ScenarioParams, arrivalIntervalTicks: nat, durationMinutes: nat)

  /** The imported module constants: `INITIAL_STAFF`, `BASE_PROCESSING_TIME_MIN` (ticks), `TARGET_ORDERS_MONTH`. */
  datatype Settings = Settings(initialStaff: int, baseProcessingTicks: nat, targetOrdersMonth: real)

  /** What `get_staff_count` and `get_process_time` return; the process time in (possibly fractional, possibly negative) ticks. */
  datatype StaffManager = StaffManager(staffCount: int, processTicks: real)

  /**
   * `StaffManager.__init__`: the staff count is floored first and the
   * resource built with it (so a count below one fails first), then the
   * process time divides by the efficiency.  A negative efficiency gives a
   * negative process time, which nothing refuses yet.
   */
  function NewStaffManager(settings: Settings, scenario: ScenarioParams): (r: Result<StaffManager, SimError>)
    ensures Config.StaffAfterAttrition(settings.initialStaff, scenario.attritionRate) <= 0 ==> r == Err(NonPositiveCapacity)
    ensures Config.StaffAfterAttrition(settings.initialStaff, scenario.attritionRate) > 0 && scenario.automationEfficiency == 0.0 ==>
      r == Err(ZeroDivision)
    ensures Config.StaffAfterAttrition(settings.initialStaff, scenario.attritionRate) > 0 && scenario.automationEfficiency != 0.0 ==>
      r.Ok?
    ensures r.Ok? ==> r.value.staffCount == Config.StaffAfterAttrition(settings.initialStaff, scenario.attritionRate) > 0
    ensures r.Ok? ==> r.value.processTicks * scenario.automationEfficiency == settings.baseProcessingTicks as real
  {
    var staffCount := Config.StaffAfterAttrition(settings.initialStaff, scenario.attritionRate);
    if staffCount <= 0 then Err(NonPositiveCapacity)
    else if scenario.automationEfficiency == 0.0 then Err(ZeroDivision)
    else Ok(StaffManager(staffCount, settings.baseProcessingTicks as real / scenario.automationEfficiency))
  }

  /** `int(TARGET_ORDERS_MONTH)` orders; `range` of a negative count makes none. */
  function OrdersToGenerate(targetOrdersMonth: real): (n: nat)
    ensures targetOrdersMonth >= 0.0 ==> n as real <= targetOrdersMonth < n as real + 1.0
    ensures targetOrdersMonth < 1.0 ==> n == 0
  {
    var t := Trunc(targetOrdersMonth);
    if t > 0 then t else 0
  }

  /** The generator of `_order_generator`: the wait comes before each order. */
  function GeneratorPlan(cfg: SimulationConfig, settings: Settings, staffCount: nat, service: nat): Plan
  {
    Plan(staffCount, service, cfg.arrivalIntervalTicks, cfg.arrivalIntervalTicks,
         Some(OrdersToGenerate(settings.targetOrdersMonth)))
  }

  /** Order `k` (from 0, so `order_id` k + 1) arrives after k + 1 intervals: none arrives at time 0. */
  lemma OrdersArriveAfterTheirWait(cfg: SimulationConfig, settings: Settings, staffCount: nat, service: nat, k: nat)
    ensures Arrival(GeneratorPlan(cfg, settings, staffCount, service), k) == (k + 1) * cfg.arrivalIntervalTicks
  {
    ArrivalClosedForm(GeneratorPlan(cfg, settings, staffCount, service), k);
  }

  /** `duration_minutes * 1.1`, in ticks. */
  function HorizonTicks(cfg: SimulationConfig): nat
  {
    cfg.durationMinutes * 110
  }

  /** The run stops before this tick: `duration_minutes * 1.1`, or one tick later when the horizon's own events still happen. */
  function Stop(cfg: SimulationConfig, completionAtHorizon: bool): nat
  {
    HorizonTicks(cfg) + (if completionAtHorizon then 1 else 0)
  }

  /**
   * What the collector's summary says after a run of `plan` stopped before
   * `stop`: as many orders as the first-come-first-served reference finishes
   * before the stop, and for a non-empty run the mean of their reference
   * cycle times in ticks, rounded to a whole tick (a hundredth of a minute),
   * which is never below the service time; 0 for an empty run.
   */
  ghost predicate ReportsReference(summary: Summary, plan: Plan, stop: nat)
    requires PlanOk(plan)
  {
    var n := summary.achievedThroughput;
    (plan.limit.Some? ==> n <= plan.limit.value) && CountsFifo(plan, stop, n) &&
    (n == 0 ==> summary.averageCycleTimeMin == 0.0) &&
    (n > 0 ==> summary.averageCycleTimeMin == RoundHalfEven(FifoCycleTotal(plan, n) as real / n as real) as real / 100.0) &&
    (n > 0 ==> summary.averageCycleTimeMin * 100.0 >= plan.service as real)
  }

  /**
   * `WarehouseModel(config).run()`: the collector's summary and the staff
   * manager.  The constructor's errors come first, then `env.run` refuses a
   * horizon of 0.  A negative process time is refused only when the first
   * order starts its service, one arrival interval in, if that is before the
   * stop and there is an order to make at all; otherwise nothing is served.
   */
  method Run(cfg: SimulationConfig, settings: Settings, completionAtHorizon: bool)
    returns (r: Result<(Summary, StaffManager), SimError>)
    requires cfg.arrivalIntervalTicks > 0 && settings.baseProcessingTicks > 0
    ensures NewStaffManager(settings, cfg.scenario).Err? ==> r == Err(NewStaffManager(settings, cfg.scenario).error)
    ensures NewStaffManager(settings, cfg.scenario).Ok? && cfg.durationMinutes == 0 ==> r == Err(UntilNotAfterNow)
    ensures NewStaffManager(settings, cfg.scenario).Ok? && cfg.durationMinutes > 0 && cfg.scenario.automationEfficiency < 0.0 ==>
      (r == Err(NegativeDelay) <==> OrdersToGenerate(settings.targetOrdersMonth) >= 1 && cfg.arrivalIntervalTicks < Stop(cfg, completionAtHorizon))
    ensures NewStaffManager(settings, cfg.scenario).Ok? && cfg.durationMinutes > 0 && cfg.scenario.automationEfficiency < 0.0 && r.Ok? ==>
      r.value.0 == Summary(0, 0.0)
    ensures NewStaffManager(settings, cfg.scenario).Ok? && cfg.durationMinutes > 0 && cfg.scenario.automationEfficiency > 0.0 ==>
      var staff := NewStaffManager(settings, cfg.scenario).value;
      (r == Err(OffTickGrid) <==> staff.processTicks.Floor as real != staff.processTicks) &&
      (r.Ok? ==> ReportsReference(r.value.0, GeneratorPlan(cfg, settings, staff.staffCount, staff.processTicks.Floor), Stop(cfg, completionAtHorizon)))
    ensures r.Ok? ==> r.value.1 == NewStaffManager(settings, cfg.scenario).value
  {
    var made := NewStaffManager(settings, cfg.scenario);
    if made.Err? {
      return Err(made.error);
    }
    var staff := made.value;
    if cfg.durationMinutes == 0 {
      return Err(UntilNotAfterNow);
    }
    var stop := Stop(cfg, completionAtHorizon);
    if staff.processTicks < 0.0 {
      assert cfg.scenario.automationEfficiency < 0.0;
      if OrdersToGenerate(settings.targetOrdersMonth) >= 1 && cfg.arrivalIntervalTicks < stop {
        return Err(NegativeDelay);
      }
      return Ok((Summary(0, 0.0), staff));
    }
    assert cfg.scenario.automationEfficiency > 0.0;
    var service := staff.processTicks.Floor;
    if service as real != staff.processTicks {
      return Err(OffTickGrid);
    }
    var summary := Report(GeneratorPlan(cfg, settings, staff.staffCount, service), stop);
    r := Ok((summary, staff));
  }

  /** Run the model set up as `plan` up to `stop` and take the collector's summary. */
  method Report(plan: Plan, stop: nat) returns (summary: Summary)
    requires PlanOk(plan)
    ensures ReportsReference(summary, plan, stop)
  {
    var out := Simulate(plan, stop);
    summary := out.summary;
    if out.cycleTimes != [] {
      AverageMinutesAtLeast(out.cycleTimes, plan.service);
    }
  }
}
