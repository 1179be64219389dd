/**
 * core/flexsim_bridge.py: `FlexsimBridge` builds the per-scenario configuration
 * for the FlexSim model from a scenario result and its parameters, and names its
 * file after the scenario. `send_command` answers a fixed stub reply for each
 * command. The file write is left out.
 */
module Flexsim {
  import opened Numeric
  import Config
  import Runner

  /** `LocationSpec` of core/data_model.py. */
  datatype LocationSpec = LocationSpec(name: string, lat: real, lon: real, ownershipType: string)

  /** The two keys of the scenario parameters the bridge reads, each possibly absent. */
  datatype ScenarioParamsDict = ScenarioParamsDict(automationInvestmentRub: Option<real>, efficiencyMultiplier: Option<real>)

  const Conveyors: string := "Conveyors"
  const Agv: string := "AGV"
  const RoboticArms: string := "RoboticArms"

  /**
   * The automated systems of a scenario: none below 100M (a missing
   * investment counts as 0), conveyors at exactly 100M, and conveyors, AGVs
   * and robotic arms above it.
   */
  method AutomationSystems(params: ScenarioParamsDict) returns (systems: seq<string>)
    ensures var inv := if params.automationInvestmentRub.Some? then params.automationInvestmentRub.value else 0.0;
      && (inv < 100000000.0 ==> systems == [])
      && (inv == 100000000.0 ==> systems == [Conveyors])
      && (inv > 100000000.0 ==> systems == [Conveyors, Agv, RoboticArms])
  {
    systems := [];
    var automationInvestment := if params.automationInvestmentRub.Some? then params.automationInvestmentRub.value else 0.0;
    if automationInvestment == 100000000.0 {
      systems := systems + [Conveyors];
    } else if automationInvestment > 100000000.0 {
      systems := systems + [Conveyors, Agv, RoboticArms];
    }
  }

  /** `s.replace(target, replacement)`: every occurrence of the non-empty `target`, left to right and without overlaps. */
  function ReplaceAll(s: string, target: string, replacement: string): string
    requires |target| > 0
  {
    if |s| < |target| then s
    else if s[..|target|] == target then replacement + ReplaceAll(s[|target|..], target, replacement)
    else [s[0]] + ReplaceAll(s[1..], target, replacement)
  }

  /** Replacing single spaces by underscores keeps every other character where it was. */
  lemma {:induction false} SpacesReplaced(s: string)
    ensures var r := ReplaceAll(s, " ", "_");
      |r| == |s| && forall i :: 0 <= i < |s| ==> r[i] == (if s[i] == ' ' then '_' else s[i])
  {
    if |s| > 0 {
      SpacesReplaced(s[1..]);
      var rest := ReplaceAll(s[1..], " ", "_");
      assert s[..1] == [s[0]];
      if s[0] == ' ' {
        assert ReplaceAll(s, " ", "_") == "_" + rest;
      } else {
        assert ReplaceAll(s, " ", "_") == [s[0]] + rest;
      }
    }
  }

  /** `scenario_name.replace('. ', '_').replace(' ', '_')`. */
  function SafeScenarioName(name: string): (safe: string)
    ensures ' ' !in safe
  {
    var dotsReplaced := ReplaceAll(name, ". ", "_");
    SpacesReplaced(dotsReplaced);
    ReplaceAll(dotsReplaced, " ", "_")
  }

  /** The configuration file's name. */
  function ConfigFileName(scenarioName: string): (filename: string)
    ensures ' ' !in filename
    ensures |filename| >= 19 && filename[..14] == "flexsim_setup_" && filename[|filename| - 5..] == ".json"
  {
    "flexsim_setup_" + SafeScenarioName(scenarioName) + ".json"
  }

  /** A string without the first character of `target` is left as it is. */
  lemma {:induction false} ReplaceAbsent(s: string, target: string, replacement: string)
    requires |target| > 0 && target[0] !in s
    ensures ReplaceAll(s, target, replacement) == s
  {
    if |s| >= |target| {
      assert s[..|target|][0] == s[0];
      assert forall c :: c in s[1..] ==> c in s;
      ReplaceAbsent(s[1..], target, replacement);
      assert [s[0]] + s[1..] == s;
    }
  }

  /**
   * A numbered scenario name "N. words" (no other dot) becomes "N_" followed
   * by the words with their spaces turned into underscores.
   */
  lemma NumberedNameSanitised(d: char, rest: string)
    requires d != '.' && d != ' ' && '.' !in rest
    ensures var safe := SafeScenarioName([d] + ". " + rest);
      |safe| == |rest| + 2 && safe[0] == d && safe[1] == '_' &&
      forall i :: 0 <= i < |rest| ==> safe[i + 2] == (if rest[i] == ' ' then '_' else rest[i])
  {
    var name := [d] + ". " + rest;
    assert name[..2][0] == d;
    assert name[1..] == ". " + rest && (". " + rest)[..2] == ". " && (". " + rest)[2..] == rest;
    ReplaceAbsent(rest, ". ", "_");
    assert ReplaceAll(name, ". ", "_") == [d] + ("_" + rest);
    var mid := [d, '_'] + rest;
    assert [d] + ("_" + rest) == mid;
    SpacesReplaced(mid);
    forall i | 0 <= i < |rest|
      ensures mid[i + 2] == rest[i]
    {
    }
  }

  /** The JSON document `generate_json_config` writes. */
  datatype FlexsimConfig = FlexsimConfig(
    scenarioName: string,
    locationName: string,
    lat: real,
    lon: real,
    operators: int,
    automatedSystems: seq<string>,
    baseEfficiencyMultiplier: real,
    monthlyOrdersTarget: int,
    monthlyOrdersAchieved: int)

  /**
   * `generate_json_config`: the configuration of one scenario and the name
   * of the file it goes to.
   */
  method GenerateJsonConfig(location: LocationSpec, result: Runner.ScenarioResult, params: ScenarioParamsDict)
    returns (cfg: FlexsimConfig, filename: string)
    ensures cfg.scenarioName == result.scenarioName && cfg.locationName == location.name
    ensures cfg.lat == location.lat && cfg.lon == location.lon
    ensures cfg.operators == result.staffCount
    ensures cfg.monthlyOrdersTarget == Config.TargetOrdersMonth && cfg.monthlyOrdersAchieved == result.throughputOrders
    ensures cfg.baseEfficiencyMultiplier == if params.efficiencyMultiplier.Some? then params.efficiencyMultiplier.value else 1.0
    ensures var inv := if params.automationInvestmentRub.Some? then params.automationInvestmentRub.value else 0.0;
      cfg.automatedSystems == if inv < 100000000.0 then [] else if inv == 100000000.0 then [Conveyors] else [Conveyors, Agv, RoboticArms]
    ensures filename == ConfigFileName(result.scenarioName) && ' ' !in filename
  {
    var automationSystems := AutomationSystems(params);
    var efficiency := if params.efficiencyMultiplier.Some? then params.efficiencyMultiplier.value else 1.0;
    cfg := FlexsimConfig(result.scenarioName, location.name, location.lat, location.lon, result.staffCount,
                         automationSystems, efficiency, Config.TargetOrdersMonth, result.throughputOrders);
    filename := ConfigFileName(result.scenarioName);
  }

  /** The stub KPIs `GET_KPI` returns. */
  datatype StubKpi = StubKpi(throughput: int, utilization: real)

  datatype Status = StatusOk | StatusError

  datatype Reply = Reply(status: Status, message: Option<string>, kpi: Option<StubKpi>)

  /**
   * `send_command`: no server is listening, so the stub answers from the
   * command alone; three commands succeed and every other one is an error.
   */
  function SendCommand(command: string): (r: Reply)
    ensures r.status == StatusOk <==> command in {"LOAD_CONFIG", "START_SIMULATION", "GET_KPI"}
    ensures r.kpi.Some? <==> command == "GET_KPI"
    ensures r.kpi.Some? ==> r.kpi.value == StubKpi(999, 0.9)
    ensures r.message.Some? <==> command != "GET_KPI"
  {
    if command == "LOAD_CONFIG" then Reply(StatusOk, Some("Configuration loaded."), None)
    else if command == "START_SIMULATION" then Reply(StatusOk, Some("Simulation started."), None)
    else if command == "GET_KPI" then Reply(StatusOk, None, Some(StubKpi(999, 0.9)))
    else Reply(StatusError, Some("Unknown command"), None)
  }
}
