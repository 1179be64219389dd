/**
 * simulation_runner.py: `SimulationRunner` walks the four scenarios of
 * scenarios.py in order. For each one it takes the staff left after
 * attrition, runs `WarehouseSimulator`, adds the scenario's investments to
 * the site CAPEX and the yearly wages to the site OPEX, prices the payback
 * of the automation against the no-mitigation baseline, and appends one
 * `ScenarioResult`.
 * The site's base financials are a parameter: the `LocationAnalyzer` the
 * runner imports is not part of this model.
 */
module Runner {
  import opened Numeric
  import opened OrderFlow
  import Config
  import Location
  import SimulationEngine

  /** One entry of `SCENARIOS_CONFIG`, with its dictionary key. */
  datatype ScenarioParams = ScenarioParams(
    key: string,
    name: string,
    staffAttritionRate: real,
    hrInvestmentRub: real,
    automationInvestmentRub: real,
    efficiencyMultiplier: real)

  /** scenarios.py, in its insertion order. */
  const ScenariosConfig: seq<ScenarioParams> := [
    ScenarioParams("1_Move_No_Mitigation", "1. Move No Mitigation", 0.25, 0.0, 0.0, 1.0),
    ScenarioParams("2_Move_With_Compensation", "2. Move With Compensation", 0.15, 50000000.0, 0.0, 1.0),
    ScenarioParams("3_Move_Basic_Automation", "3. Move Basic Automation", 0.25, 0.0, 100000000.0, 1.25),
    ScenarioParams("4_Move_Advanced_Automation", "4. Move Advanced Automation", 0.25, 0.0, 300000000.0, 2.0)]

  /** `sub` occurs in `s` starting at index `i`. */
  predicate OccursAt(s: string, sub: string, i: int)
  {
    0 <= i && i + |sub| <= |s| && s[i..i + |sub|] == sub
  }

  /** Python's `sub in s` on strings. */
  predicate ContainsSubstring(s: string, sub: string)
  {
    exists i :: 0 <= i <= |s| - |sub| && OccursAt(s, sub, i)
  }

  /** A string without the first character of `sub` cannot contain `sub`. */
  lemma NotContainedWithoutFirstChar(s: string, sub: string)
    requires |sub| > 0 && sub[0] !in s
    ensures !ContainsSubstring(s, sub)
  {
    forall i
      ensures !OccursAt(s, sub, i)
    {
      if 0 <= i && i + |sub| <= |s| {
        assert s[i..i + |sub|][0] == s[i] && s[i] in s;
      }
    }
  }

  const NoMitigation: string := "No_Mitigation"

  /** The first key contains "No_Mitigation", from its eighth character on. */
  lemma FirstKeyIsNoMitigation()
    ensures ContainsSubstring(ScenariosConfig[0].key, NoMitigation)
  {
    var key := ScenariosConfig[0].key;
    assert key == "1_Move_" + NoMitigation;
    assert key[7..20] == NoMitigation;
    assert OccursAt(key, NoMitigation, 7);
  }

  /** `s` has no capital N. */
  predicate LacksN(s: string)
  {
    forall i :: 0 <= i < |s| ==> s[i] != 'N'
  }

  lemma CompensationKeyLacksN()
    ensures LacksN(ScenariosConfig[1].key)
  {
    assert ScenariosConfig[1].key == "2_Move_With_Compensation";
  }

  lemma BasicKeyLacksN()
    ensures LacksN(ScenariosConfig[2].key)
  {
    assert ScenariosConfig[2].key == "3_Move_Basic_Automation";
  }

  lemma AdvancedKeyLacksN()
    ensures LacksN(ScenariosConfig[3].key)
  {
    assert ScenariosConfig[3].key == "4_Move_Advanced_Automation";
  }

  /** The other keys have no capital N at all. */
  lemma OtherKeysLackN(k: nat)
    requires 0 < k < |ScenariosConfig|
    ensures 'N' !in ScenariosConfig[k].key
  {
    if k == 1 {
      CompensationKeyLacksN();
    } else if k == 2 {
      BasicKeyLacksN();
    } else {
      AdvancedKeyLacksN();
    }
  }

  /** Only the first key names the no-mitigation scenario. */
  lemma OnlyFirstKeyIsNoMitigation(k: nat)
    requires k < |ScenariosConfig|
    ensures ContainsSubstring(ScenariosConfig[k].key, NoMitigation) <==> k == 0
  {
    if k == 0 {
      FirstKeyIsNoMitigation();
    } else {
      OtherKeysLackN(k);
      assert NoMitigation[0] == 'N';
      NotContainedWithoutFirstChar(ScenariosConfig[k].key, NoMitigation);
    }
  }

  /** A payback that may not apply, may never arrive, or takes `years` years. */
  datatype PaybackValue = NotApplicable | Infinite | Years(years: real)

  /**
   * The payback of this runner: defined only when there is an automation
   * investment, a positive baseline and a saving against it, and then the
   * investment over the saving rounded to hundredths of a year.
   */
  function RoundedPayback(automation: real, baseline: real, totalOpex: real): (p: PaybackValue)
    ensures p != Infinite
    ensures p.Years? <==> automation > 0.0 && baseline > 0.0 && baseline - totalOpex > 0.0
    ensures p.Years? ==> var exact := automation / (baseline - totalOpex);
      exact - 0.005 <= p.years <= exact + 0.005 && exact > 0.0
  {
    if automation > 0.0 && baseline > 0.0 && baseline - totalOpex > 0.0 then
      var saving := baseline - totalOpex;
      var exact := automation / saving;
      assert exact * saving == automation;
      Years(Round2(exact))
    else NotApplicable
  }

  function ScenarioStaff(p: ScenarioParams): int
  {
    Config.StaffAfterAttrition(Config.InitialStaffCount, p.staffAttritionRate)
  }

  function ScenarioCapex(base: Location.BaseFinancials, p: ScenarioParams): real
  {
    base.baseCapex + p.hrInvestmentRub + p.automationInvestmentRub
  }

  function ScenarioOpex(base: Location.BaseFinancials, p: ScenarioParams): real
  {
    base.baseOpex + ScenarioStaff(p) as real * Config.OperatorSalaryRubMonth * 12.0
  }

  /**
   * The baseline OPEX when scenario `k` is reached: that of the last scenario
   * up to `k` whose key contains "No_Mitigation", or 0 before there is one.
   */
  function BaselineOpex(base: Location.BaseFinancials, k: nat): real
    requires k < |ScenariosConfig|
  {
    if ContainsSubstring(ScenariosConfig[k].key, NoMitigation) then ScenarioOpex(base, ScenariosConfig[k])
    else if k == 0 then 0.0
    else BaselineOpex(base, k - 1)
  }

  /** Every scenario is priced against the first one. */
  lemma {:induction false} BaselineIsFirstScenario(base: Location.BaseFinancials, k: nat)
    requires k < |ScenariosConfig|
    ensures BaselineOpex(base, k) == ScenarioOpex(base, ScenariosConfig[0])
  {
    OnlyFirstKeyIsNoMitigation(k);
    if k > 0 {
      BaselineIsFirstScenario(base, k - 1);
    }
  }

  /** The KPIs of one scenario. */
  datatype ScenarioResult = ScenarioResult(
    locationName: string,
    scenarioName: string,
    staffCount: int,
    throughputOrders: int,
    avgCycleTimeMin: int,
    totalAnnualOpexRub: int,
    totalCapexRub: int,
    paybackPeriodYears: PaybackValue)

  /** `row` is what the runner records for scenario `k` of a site with base financials `base`. */
  predicate ScenarioRow(row: ScenarioResult, locationName: string, base: Location.BaseFinancials, k: nat)
    requires k < |ScenariosConfig|
  {
    var p := ScenariosConfig[k];
    && row.locationName == locationName
    && row.scenarioName == p.name
    && row.staffCount == ScenarioStaff(p)
    && row.throughputOrders == Config.TargetOrdersMonth
    && row.avgCycleTimeMin == Trunc(15.0 / p.efficiencyMultiplier)
    && row.totalAnnualOpexRub == Trunc(ScenarioOpex(base, p))
    && row.totalCapexRub == Trunc(ScenarioCapex(base, p))
    && row.paybackPeriodYears == RoundedPayback(p.automationInvestmentRub, BaselineOpex(base, k), ScenarioOpex(base, p))
  }

  /** The configured scenarios all start, with at least 16 operators and efficiency at least 1. */
  lemma ScenariosRun(k: nat)
    requires k < |ScenariosConfig|
    ensures SimulationEngine.SimulatorPlan(ScenarioStaff(ScenariosConfig[k]), ScenariosConfig[k].efficiencyMultiplier).Ok?
    ensures ScenarioStaff(ScenariosConfig[k]) >= 16 && ScenariosConfig[k].efficiencyMultiplier >= 1.0
  {
    Config.ScenarioStaffCounts();
    ScenarioServiceTicks();
  }

  /** An average that times the efficiency gives 15 minutes is 15 / efficiency minutes. */
  lemma MinutesAtEfficiency(avg: real, efficiencyMultiplier: real)
    requires efficiencyMultiplier >= 1.0 && avg * efficiencyMultiplier == 15.0
    ensures avg == 15.0 / efficiencyMultiplier
  {
  }

  /**
   * The automation scenarios keep the same 75 operators as the baseline, so
   * the runner sees no saving and records no payback for any scenario.
   */
  lemma NoScenarioGetsAPayback(base: Location.BaseFinancials, k: nat)
    requires k < |ScenariosConfig|
    ensures RoundedPayback(ScenariosConfig[k].automationInvestmentRub, BaselineOpex(base, k), ScenarioOpex(base, ScenariosConfig[k])) == NotApplicable
  {
    BaselineIsFirstScenario(base, k);
    Config.ScenarioStaffCounts();
  }

  /**
   * The body of the scenario loop for scenario `k`: run the simulator, price
   * the scenario, and update the baseline when the key names no mitigation.
   */
  method RunScenario(locationName: string, base: Location.BaseFinancials, k: nat, baselineAnnualOpex: real,
                     completionAtHorizon: bool)
    returns (result: ScenarioResult, baselineAfter: real)
    requires k < |ScenariosConfig|
    requires baselineAnnualOpex == if k == 0 then 0.0 else BaselineOpex(base, k - 1)
    ensures ScenarioRow(result, locationName, base, k)
    ensures baselineAfter == BaselineOpex(base, k)
  {
    var params := ScenariosConfig[k];
    var staffCount := Config.StaffAfterAttrition(Config.InitialStaffCount, params.staffAttritionRate);
    ScenariosRun(k);
    var simKpi := SimulationEngine.Run(staffCount, params.efficiencyMultiplier, completionAtHorizon);
    assert simKpi.Ok?;
    MinutesAtEfficiency(simKpi.value.avgCycleTimeMin, params.efficiencyMultiplier);
    var totalCapex := base.baseCapex + params.hrInvestmentRub + params.automationInvestmentRub;
    var opexLabor := staffCount as real * Config.OperatorSalaryRubMonth * 12.0;
    var totalOpex := base.baseOpex + opexLabor;
    baselineAfter := baselineAnnualOpex;
    if ContainsSubstring(params.key, NoMitigation) {
      baselineAfter := totalOpex;
    }
    var payback := RoundedPayback(params.automationInvestmentRub, baselineAfter, totalOpex);
    result := ScenarioResult(locationName, params.name, staffCount, simKpi.value.achievedThroughput,
                             Trunc(simKpi.value.avgCycleTimeMin), Trunc(totalOpex), Trunc(totalCapex), payback);
  }

  class SimulationRunner {
    const locationName: string
    var results: seq<ScenarioResult>

    constructor (locationName: string)
      ensures this.locationName == locationName && results == []
    {
      this.locationName := locationName;
      results := [];
    }

    /**
     * `run_all_scenarios`: one result per scenario, appended in order.
     * `completionAtHorizon` is passed through to the simulator.
     */
    method RunAllScenarios(base: Location.BaseFinancials, completionAtHorizon: bool)
      modifies this
      ensures |results| == |old(results)| + |ScenariosConfig|
      ensures results[..|old(results)|] == old(results)
      ensures forall j :: |old(results)| <= j < |results| ==> ScenarioRow(results[j], locationName, base, j - |old(results)|)
    {
      var baselineAnnualOpex := 0.0;
      var n := |results|;
      for k := 0 to |ScenariosConfig|
        invariant |results| == n + k
        invariant results[..n] == old(results)
        invariant forall j :: n <= j < |results| ==> ScenarioRow(results[j], locationName, base, j - n)
        invariant baselineAnnualOpex == if k == 0 then 0.0 else BaselineOpex(base, k - 1)
      {
        var result;
        result, baselineAnnualOpex := RunScenario(locationName, base, k, baselineAnnualOpex, completionAtHorizon);
        results := results + [result];
      }
    }
  }
}
