/**
 * main_simulation_runner.py: `run_all_scenarios_for_location` prices the four
 * relocation scenarios for one site.
 * - It takes the site's CAPEX and its yearly location plus transport cost
 *   from the flexible location model.
 * - It runs `DynamicWarehouseSim` for each scenario.
 * - It measures the automation payback against the first scenario, where a
 *   missing saving makes the payback infinite.
 */
module MainRunner {
  import opened Numeric
  import opened OrderFlow
  import Config
  import FlexibleLocation
  import DynamicSim
  import Runner

  const InitialStaffCount: int := 100
  const OperatorSalaryRubYear: real := 105000.0 * 12.0

  datatype MainScenario = MainScenario(
    name: string,
    attrition: real,
    investHrRub: real,
    investAutoRub: real,
    efficiency: real)

  /** The four scenarios of this runner; their efficiencies differ from scenarios.py. */
  const ScenariosConfig: seq<MainScenario> := [
    MainScenario("1. Move No Mitigation", 0.25, 0.0, 0.0, 1.0),
    MainScenario("2. Move With Compensation", 0.15, 50000000.0, 0.0, 1.0),
    MainScenario("3. Move Basic Automation", 0.25, 0.0, 100000000.0, 1.2),
    MainScenario("4. Move Advanced Automation", 0.25, 0.0, 300000000.0, 1.5)]

  /** One row of the returned table. */
  datatype Row = Row(
    scenario: string,
    staffCount: int,
    throughputOrders: nat,
    totalAnnualCostRub: int,
    totalCapexRub: int,
    paybackPeriodYears: Runner.PaybackValue)

  /**
   * The payback of this runner: not applicable without automation, infinite
   * when the automation saves nothing against the baseline, else the
   * investment over the saving, unrounded.
   */
  function OpenEndedPayback(automation: real, baseline: real, annualCost: real): (p: Runner.PaybackValue)
    ensures automation <= 0.0 ==> p == Runner.NotApplicable
    ensures automation > 0.0 && baseline - annualCost <= 0.0 ==> p == Runner.Infinite
    ensures automation > 0.0 && baseline - annualCost > 0.0 ==>
      p.Years? && p.years > 0.0 && p.years * (baseline - annualCost) == automation
  {
    if automation > 0.0 then
      var annualSavings := baseline - annualCost;
      if annualSavings > 0.0 then Runner.Years(automation / annualSavings) else Runner.Infinite
    else Runner.NotApplicable
  }

  /**
   * The two runners agree where both give a number: given a positive
   * baseline, the rounded payback of simulation_runner.py is this one rounded
   * to hundredths. Without a saving, simulation_runner.py reports no payback
   * where this runner reports an infinite one.
   */
  lemma PaybackVariantsAgree(automation: real, baseline: real, annualCost: real)
    requires automation > 0.0 && baseline > 0.0
    ensures baseline > annualCost ==>
      Runner.RoundedPayback(automation, baseline, annualCost) == Runner.Years(Round2(OpenEndedPayback(automation, baseline, annualCost).years))
    ensures baseline <= annualCost ==>
      Runner.RoundedPayback(automation, baseline, annualCost) == Runner.NotApplicable &&
      OpenEndedPayback(automation, baseline, annualCost) == Runner.Infinite
  {
  }

  function ScenarioStaff(s: MainScenario): int
  {
    Config.StaffAfterAttrition(InitialStaffCount, s.attrition)
  }

  /** The site's yearly cost plus the wages of the scenario's staff. */
  function ScenarioAnnualCost(profile: FlexibleLocation.FinanceProfile, s: MainScenario): real
  {
    profile.annualLocationCostRub + profile.annualTransportCostChangeRub as real + ScenarioStaff(s) as real * OperatorSalaryRubYear
  }

  /** `row` is the table row for scenario `k` of a site with this finance profile. */
  predicate MainRow(row: Row, profile: FlexibleLocation.FinanceProfile, k: nat)
    requires k < |ScenariosConfig|
  {
    var s := ScenariosConfig[k];
    && row.scenario == s.name
    && row.staffCount == ScenarioStaff(s)
    && row.throughputOrders == DynamicSim.TargetOrdersMonth
    && row.totalAnnualCostRub == Trunc(ScenarioAnnualCost(profile, s))
    && row.totalCapexRub == Trunc(profile.initialCapexRub + s.investHrRub + s.investAutoRub)
    && row.paybackPeriodYears ==
       OpenEndedPayback(s.investAutoRub, ScenarioAnnualCost(profile, ScenariosConfig[0]), ScenarioAnnualCost(profile, s))
  }

  /** Every scenario's simulation starts, with at least 16 operators and efficiency at least 1. */
  lemma ScenariosRun(k: nat)
    requires k < |ScenariosConfig|
    ensures DynamicSim.DynamicPlan(ScenarioStaff(ScenariosConfig[k]), ScenariosConfig[k].efficiency).Ok?
    ensures ScenarioStaff(ScenariosConfig[k]) >= 16 && ScenariosConfig[k].efficiency >= 1.0
  {
    Config.ScenarioStaffCounts();
    ScenarioServiceTicks();
  }

  /**
   * The automation scenarios keep the baseline's 75 operators, so their cost
   * equals the baseline's and their payback is infinite; the other two have
   * no automation and no payback.
   */
  lemma ConfiguredPaybacks(profile: FlexibleLocation.FinanceProfile, k: nat)
    requires k < |ScenariosConfig|
    ensures var s := ScenariosConfig[k];
      OpenEndedPayback(s.investAutoRub, ScenarioAnnualCost(profile, ScenariosConfig[0]), ScenarioAnnualCost(profile, s))
      == if k < 2 then Runner.NotApplicable else Runner.Infinite
  {
    Config.ScenarioStaffCounts();
  }

  /** The body of the loop for scenario `k`. */
  method RunScenario(profile: FlexibleLocation.FinanceProfile, k: nat, baselineAnnualCost: real, completionAtHorizon: bool)
    returns (row: Row)
    requires k < |ScenariosConfig|
    requires baselineAnnualCost == ScenarioAnnualCost(profile, ScenariosConfig[0])
    ensures MainRow(row, profile, k)
  {
    var scenario := ScenariosConfig[k];
    var staffCount := Config.StaffAfterAttrition(InitialStaffCount, scenario.attrition);
    ScenariosRun(k);
    var simResults := DynamicSim.Run(staffCount, scenario.efficiency, completionAtHorizon);
    assert simResults.Ok?;
    var baseOpexLocationTransport := profile.annualLocationCostRub + profile.annualTransportCostChangeRub as real;
    var totalCapex := profile.initialCapexRub + scenario.investHrRub + scenario.investAutoRub;
    var totalAnnualCost := baseOpexLocationTransport + staffCount as real * OperatorSalaryRubYear;
    var payback := OpenEndedPayback(scenario.investAutoRub, baselineAnnualCost, totalAnnualCost);
    row := Row(scenario.name, staffCount, simResults.value.achievedThroughput, Trunc(totalAnnualCost), Trunc(totalCapex), payback);
  }

  /**
   * `run_all_scenarios_for_location`: a `ValueError` for an unknown ownership
   * type, else four rows in the listed order, the first scenario's cost being
   * the baseline.
   */
  method RunAllScenariosForLocation(location: FlexibleLocation.LocationParameters,
                                    dist: (Config.Coord, Config.Coord) -> real, completionAtHorizon: bool)
    returns (r: Result<seq<Row>, string>)
    ensures r.Err? <==> location.ownershipType != "ARENDA" && location.ownershipType != "POKUPKA"
    ensures r.Ok? ==> |r.value| == |ScenariosConfig|
    ensures r.Ok? ==> forall k :: 0 <= k < |r.value| ==>
      MainRow(r.value[k], FlexibleLocation.CalculateFullFinanceProfile(location, dist).value, k)
  {
    var profile := FlexibleLocation.CalculateFullFinanceProfile(location, dist);
    if profile.Err? {
      return Err(profile.error);
    }
    var allResults: seq<Row> := [];
    var baselineAnnualCost := 0.0;
    for i := 0 to |ScenariosConfig|
      invariant |allResults| == i
      invariant forall k :: 0 <= k < i ==> MainRow(allResults[k], profile.value, k)
      invariant i > 0 ==> baselineAnnualCost == ScenarioAnnualCost(profile.value, ScenariosConfig[0])
    {
      if i == 0 {
        baselineAnnualCost := ScenarioAnnualCost(profile.value, ScenariosConfig[0]);
      }
      var row := RunScenario(profile.value, i, baselineAnnualCost, completionAtHorizon);
      allResults := allResults + [row];
    }
    r := Ok(allResults);
  }
}
