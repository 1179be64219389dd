/**
 * automation_scenarios.py: four nested automation levels, each a list of
 * equipment with its price, installation and maintenance rates and its
 * effect on staff and throughput; the scenario totals (capital-weighted
 * means of those effects), the level comparison and the five-year ROI.
 */
module Automation {
  import opened Numeric

  datatype AutomationLevel = Level0 | Level1 | Level2 | Level3

  /** The levels in the order of their `value` strings `level_0` … `level_3`. */
  const LevelOrder: seq<AutomationLevel> := [Level0, Level1, Level2, Level3]

  datatype AutomationEquipment = AutomationEquipment(
    name: string,
    category: string,
    quantity: int,
    unitPrice: real,
    installationCostMultiplier: real,
    annualMaintenanceRate: real,
    laborReductionFactor: real,
    efficiencyBoost: real)

  /** `get_total_capex`: the equipment cost plus its installation share. */
  function TotalCapex(e: AutomationEquipment): (r: real)
    ensures r == e.quantity as real * e.unitPrice * (1.0 + e.installationCostMultiplier)
  {
    var equipmentCost := e.quantity as real * e.unitPrice;
    equipmentCost + equipmentCost * e.installationCostMultiplier
  }

  /** `get_annual_opex`: maintenance as a share of the CAPEX. */
  function AnnualOpex(e: AutomationEquipment): real
  {
    TotalCapex(e) * e.annualMaintenanceRate
  }

  /** Non-negative counts, prices and rates, and effects that are fractions. */
  predicate Sensible(e: AutomationEquipment)
  {
    e.quantity >= 0 && e.unitPrice >= 0.0 && e.installationCostMultiplier >= 0.0 && e.annualMaintenanceRate >= 0.0 &&
    0.0 <= e.laborReductionFactor <= 1.0 && 0.0 <= e.efficiencyBoost <= 1.0
  }

  lemma SensibleCosts(e: AutomationEquipment)
    requires Sensible(e)
    ensures TotalCapex(e) >= e.quantity as real * e.unitPrice >= 0.0 && AnnualOpex(e) >= 0.0
  {
    var cost := e.quantity as real * e.unitPrice;
    assert cost >= 0.0;
    assert cost * e.installationCostMultiplier >= 0.0;
    assert TotalCapex(e) * e.annualMaintenanceRate >= 0.0;
  }

  /** Capital and maintenance costs grow in proportion to the quantity bought: each is the quantity times a single unit's. */
  lemma CostsLinearInQuantity(e: AutomationEquipment)
    ensures TotalCapex(e) == e.quantity as real * TotalCapex(e.(quantity := 1))
    ensures AnnualOpex(e) == e.quantity as real * AnnualOpex(e.(quantity := 1))
  {
    var unit := e.(quantity := 1);
    assert TotalCapex(unit) == e.unitPrice * (1.0 + e.installationCostMultiplier);
    assert AnnualOpex(unit) == TotalCapex(unit) * e.annualMaintenanceRate;
  }

  function CapexSum(es: seq<AutomationEquipment>): real
  {
    if es == [] then 0.0 else CapexSum(es[..|es| - 1]) + TotalCapex(es[|es| - 1])
  }

  function OpexSum(es: seq<AutomationEquipment>): real
  {
    if es == [] then 0.0 else OpexSum(es[..|es| - 1]) + AnnualOpex(es[|es| - 1])
  }

  /** Σ labour reduction × CAPEX. */
  function LaborWeight(es: seq<AutomationEquipment>): real
  {
    if es == [] then 0.0
    else LaborWeight(es[..|es| - 1]) + es[|es| - 1].laborReductionFactor * TotalCapex(es[|es| - 1])
  }

  /** Σ efficiency boost × CAPEX. */
  function BoostWeight(es: seq<AutomationEquipment>): real
  {
    if es == [] then 0.0
    else BoostWeight(es[..|es| - 1]) + es[|es| - 1].efficiencyBoost * TotalCapex(es[|es| - 1])
  }

  /** The capital-weighted mean of an effect, 0 when there is no capital to weigh by. */
  function WeightedMean(weighted: real, weight: real): real
  {
    if weight > 0.0 then weighted / weight else 0.0
  }

  lemma ScaleAtMost(f: real, x: real)
    requires 0.0 <= f <= 1.0 && x >= 0.0
    ensures 0.0 <= f * x <= x
  {
  }

  /** For sensible equipment the weighted labour sum lies between 0 and the CAPEX total. */
  lemma {:induction false} LaborWeightWithinCapex(es: seq<AutomationEquipment>)
    requires forall i :: 0 <= i < |es| ==> Sensible(es[i])
    ensures 0.0 <= LaborWeight(es) <= CapexSum(es)
  {
    if es != [] {
      var init, last := es[..|es| - 1], es[|es| - 1];
      assert forall i :: 0 <= i < |init| ==> init[i] == es[i];
      LaborWeightWithinCapex(init);
      SensibleCosts(last);
      ScaleAtMost(last.laborReductionFactor, TotalCapex(last));
    }
  }

  /** For sensible equipment the weighted boost sum lies between 0 and the CAPEX total. */
  lemma {:induction false} BoostWeightWithinCapex(es: seq<AutomationEquipment>)
    requires forall i :: 0 <= i < |es| ==> Sensible(es[i])
    ensures 0.0 <= BoostWeight(es) <= CapexSum(es)
  {
    if es != [] {
      var init, last := es[..|es| - 1], es[|es| - 1];
      assert forall i :: 0 <= i < |init| ==> init[i] == es[i];
      BoostWeightWithinCapex(init);
      SensibleCosts(last);
      ScaleAtMost(last.efficiencyBoost, TotalCapex(last));
    }
  }

  lemma {:induction false} OpexSumNonNegative(es: seq<AutomationEquipment>)
    requires forall i :: 0 <= i < |es| ==> Sensible(es[i])
    ensures 0.0 <= OpexSum(es)
  {
    if es != [] {
      var init := es[..|es| - 1];
      assert forall i :: 0 <= i < |init| ==> init[i] == es[i];
      OpexSumNonNegative(init);
      SensibleCosts(es[|es| - 1]);
    }
  }

  lemma WeightedMeanIsFraction(weighted: real, weight: real)
    requires 0.0 <= weighted <= weight
    ensures 0.0 <= WeightedMean(weighted, weight) <= 1.0
  {
    if weight > 0.0 {
      assert weighted / weight <= weight / weight;
    }
  }

  lemma AppendSums(es: seq<AutomationEquipment>, e: AutomationEquipment)
    ensures CapexSum(es + [e]) == CapexSum(es) + TotalCapex(e)
    ensures OpexSum(es + [e]) == OpexSum(es) + AnnualOpex(e)
    ensures LaborWeight(es + [e]) == LaborWeight(es) + e.laborReductionFactor * TotalCapex(e)
    ensures BoostWeight(es + [e]) == BoostWeight(es) + e.efficiencyBoost * TotalCapex(e)
  {
    assert (es + [e])[..|es|] == es;
  }

  /** The `name` and `description` each `build_level_k_scenario` gives its scenario, by level. */
  const LevelNames: seq<string> := [
    "Без автоматизации (базовая WMS)",
    "Гибридная автоматизация (базовая)",
    "Гибридная автоматизация (средняя)",
    "Полная автоматизация"]
  const LevelDescriptions: seq<string> := [
    "Минимальная автоматизация: базовая WMS, ручные сканеры, без конвейеров и роботов",
    "Базовая автоматизация: продвинутая WMS, конвейеры для сортировки, электротележки",
    "Средняя автоматизация: AGV, автоматическая комплектация, вертикальные лифты",
    "Максимальная автоматизация: AutoStore, роботизированная комплектация, полная интеграция"]

  /** An `AutomationScenario`: the equipment list and the totals `calculate_totals` last wrote. */
  class AutomationScenario {
    const level: AutomationLevel
    const name: string
    const description: string
    var equipment: seq<AutomationEquipment>
    var totalCapex: real
    var totalAnnualOpex: real
    var laborReductionFactor: real
    var efficiencyMultiplier: real

    /** The totals describe the current equipment list. */
    ghost predicate TotalsCurrent()
      reads this
    {
      totalCapex == CapexSum(equipment) && totalAnnualOpex == OpexSum(equipment) &&
      (equipment != [] ==>
        laborReductionFactor == WeightedMean(LaborWeight(equipment), CapexSum(equipment)) &&
        efficiencyMultiplier == 1.0 + WeightedMean(BoostWeight(equipment), CapexSum(equipment)))
    }

    constructor (level: AutomationLevel, name: string, description: string)
      ensures this.level == level && this.name == name && this.description == description && equipment == []
      ensures totalCapex == 0.0 && totalAnnualOpex == 0.0 && laborReductionFactor == 0.0 && efficiencyMultiplier == 1.0
      ensures TotalsCurrent()
    {
      this.level := level;
      this.name := name;
      this.description := description;
      equipment := [];
      totalCapex, totalAnnualOpex := 0.0, 0.0;
      laborReductionFactor, efficiencyMultiplier := 0.0, 1.0;
    }

    /** `add_equipment`: appends, leaving the totals as they were. */
    method AddEquipment(e: AutomationEquipment)
      modifies this
      ensures equipment == old(equipment) + [e]
      ensures totalCapex == old(totalCapex) && totalAnnualOpex == old(totalAnnualOpex)
      ensures laborReductionFactor == old(laborReductionFactor) && efficiencyMultiplier == old(efficiencyMultiplier)
    {
      equipment := equipment + [e];
    }

    /**
     * `calculate_totals`: CAPEX and OPEX sums; with equipment, the
     * capital-weighted labour reduction and 1 + the weighted efficiency
     * boost; with none, the two effects keep their previous values.
     */
    method CalculateTotals()
      modifies this
      ensures equipment == old(equipment) && TotalsCurrent()
      ensures equipment == [] ==>
        laborReductionFactor == old(laborReductionFactor) && efficiencyMultiplier == old(efficiencyMultiplier)
      ensures (forall i :: 0 <= i < |equipment| ==> Sensible(equipment[i])) ==>
        totalCapex >= 0.0 && totalAnnualOpex >= 0.0 &&
        (equipment != [] ==> 0.0 <= laborReductionFactor <= 1.0 && 1.0 <= efficiencyMultiplier <= 2.0)
    {
      var es := equipment;
      var capex, opex, labor, boost := 0.0, 0.0, 0.0, 0.0;
      var i := 0;
      while i < |es|
        invariant 0 <= i <= |es|
        invariant capex == CapexSum(es[..i]) && opex == OpexSum(es[..i])
        invariant labor == LaborWeight(es[..i]) && boost == BoostWeight(es[..i])
        invariant unchanged(this)
      {
        var e := es[i];
        assert es[..i + 1] == es[..i] + [e];
        AppendSums(es[..i], e);
        capex := capex + TotalCapex(e);
        opex := opex + AnnualOpex(e);
        labor := labor + e.laborReductionFactor * TotalCapex(e);
        boost := boost + e.efficiencyBoost * TotalCapex(e);
        i := i + 1;
      }
      assert es[..|es|] == es;
      totalCapex := capex;
      totalAnnualOpex := opex;
      if es != [] {
        laborReductionFactor := WeightedMean(labor, capex);
        efficiencyMultiplier := 1.0 + WeightedMean(boost, capex);
      }
      if forall k :: 0 <= k < |es| ==> Sensible(es[k]) {
        LaborWeightWithinCapex(es);
        BoostWeightWithinCapex(es);
        OpexSumNonNegative(es);
        WeightedMeanIsFraction(labor, capex);
        WeightedMeanIsFraction(boost, capex);
      }
    }
  }

  // ---------------------------------------------------------------------
  // The four levels
  // ---------------------------------------------------------------------

  /** The equipment names, in the order the four levels introduce them. */
  const EquipmentNames: seq<string> := [
    "Базовая WMS (лицензии + внедрение)",
    "Ручные сканеры (штрих-коды + RF ID)",
    "Ручные паллетные тележки",
    "Конвейеры для сортировки",
    "Электрические паллетные тележки",
    "Pick-to-Light система",
    "AGV (автономные роботы)",
    "Вертикальные лифты (VLM)",
    "Автоматическая система сортировки (расширенная)",
    "AutoStore (роботизированная система)",
    "Роботы-манипуляторы для комплектации",
    "Автоматические dock doors",
    "ERP интеграция и AI-аналитика"]

  /** Level 0: basic WMS, hand scanners, manual pallet jacks. */
  function Level0Items(): seq<AutomationEquipment>
  {
    [ AutomationEquipment(EquipmentNames[0], "WMS", 1, 15000000.0, 0.20, 0.15, 0.0, 0.05),
      AutomationEquipment(EquipmentNames[1], "Scanning", 100, 50000.0, 0.05, 0.10, 0.0, 0.03),
      AutomationEquipment(EquipmentNames[2], "Material Handling", 30, 35000.0, 0.0, 0.08, 0.0, 0.0) ]
  }

  /** Level 1 adds sorting conveyors, electric pallet jacks and pick-to-light. */
  function Level1Items(): seq<AutomationEquipment>
  {
    [ AutomationEquipment(EquipmentNames[3], "Conveyor", 4, 3500000.0, 0.25, 0.12, 0.08, 0.12),
      AutomationEquipment(EquipmentNames[4], "Material Handling", 15, 250000.0, 0.05, 0.10, 0.05, 0.08),
      AutomationEquipment(EquipmentNames[5], "Picking Assist", 50, 150000.0, 0.15, 0.10, 0.03, 0.10) ]
  }

  /** Level 2 adds AGVs, vertical lift modules and an extended sorter. */
  function Level2Items(): seq<AutomationEquipment>
  {
    [ AutomationEquipment(EquipmentNames[6], "AGV", 10, 4500000.0, 0.20, 0.15, 0.15, 0.18),
      AutomationEquipment(EquipmentNames[7], "Storage & Retrieval", 6, 8000000.0, 0.15, 0.12, 0.10, 0.15),
      AutomationEquipment(EquipmentNames[8], "Sorting", 2, 12000000.0, 0.25, 0.12, 0.12, 0.20) ]
  }

  /** Level 3 adds AutoStore, picking robots, automatic dock doors and ERP integration. */
  function Level3Items(): seq<AutomationEquipment>
  {
    [ AutomationEquipment(EquipmentNames[9], "AutoStore", 1, 150000000.0, 0.30, 0.15, 0.25, 0.40),
      AutomationEquipment(EquipmentNames[10], "Robotics", 8, 15000000.0, 0.25, 0.15, 0.20, 0.35),
      AutomationEquipment(EquipmentNames[11], "Infrastructure", 10, 800000.0, 0.10, 0.10, 0.05, 0.08),
      AutomationEquipment(EquipmentNames[12], "Software", 1, 20000000.0, 0.30, 0.18, 0.08, 0.15) ]
  }

  function NewItems(level: AutomationLevel): seq<AutomationEquipment>
  {
    match level
    case Level0 => Level0Items()
    case Level1 => Level1Items()
    case Level2 => Level2Items()
    case Level3 => Level3Items()
  }

  /** The level below, whose whole list each builder copies first. */
  function Previous(level: AutomationLevel): Option<AutomationLevel>
  {
    match level
    case Level0 => None
    case Level1 => Some(Level0)
    case Level2 => Some(Level1)
    case Level3 => Some(Level2)
  }

  function Rank(level: AutomationLevel): nat
  {
    match level
    case Level0 => 0
    case Level1 => 1
    case Level2 => 2
    case Level3 => 3
  }

  /** A level's equipment: the previous level's list, then its own items. */
  function LevelEquipment(level: AutomationLevel): seq<AutomationEquipment>
    decreases Rank(level)
  {
    match Previous(level)
    case None => NewItems(level)
    case Some(below) => LevelEquipment(below) + NewItems(level)
  }

  /** The lists have 3, 6, 9 and 13 items, each starting with the whole list below it. */
  lemma LevelSizesAndNesting()
    ensures |LevelEquipment(Level0)| == 3 && |LevelEquipment(Level1)| == 6
    ensures |LevelEquipment(Level2)| == 9 && |LevelEquipment(Level3)| == 13
    ensures LevelEquipment(Level0) <= LevelEquipment(Level1) <= LevelEquipment(Level2) <= LevelEquipment(Level3)
  {
  }

  lemma {:induction false} CapexSumConcat(a: seq<AutomationEquipment>, b: seq<AutomationEquipment>)
    ensures CapexSum(a + b) == CapexSum(a) + CapexSum(b)
    decreases |b|
  {
    if b == [] {
      assert a + b == a;
    } else {
      var init := b[..|b| - 1];
      CapexSumConcat(a, init);
      assert (a + b)[..|a + b| - 1] == a + init;
    }
  }

  lemma {:induction false} CapexSumNonNegative(es: seq<AutomationEquipment>)
    requires forall i :: 0 <= i < |es| ==> Sensible(es[i])
    ensures CapexSum(es) >= 0.0
  {
    LaborWeightWithinCapex(es);
  }

  lemma AllItemsSensible(level: AutomationLevel)
    ensures forall i :: 0 <= i < |NewItems(level)| ==> Sensible(NewItems(level)[i])
  {
  }

  /** Each level costs at least as much as the one below it. */
  lemma CapexNonDecreasing(level: AutomationLevel)
    requires Previous(level).Some?
    ensures CapexSum(LevelEquipment(Previous(level).value)) <= CapexSum(LevelEquipment(level))
  {
    CapexSumConcat(LevelEquipment(Previous(level).value), NewItems(level));
    AllItemsSensible(level);
    CapexSumNonNegative(NewItems(level));
  }

  lemma CapexOfThree(es: seq<AutomationEquipment>)
    requires |es| == 3
    ensures CapexSum(es) == TotalCapex(es[0]) + TotalCapex(es[1]) + TotalCapex(es[2])
  {
    assert es[..2][..1] == es[..1] && es[..1][..0] == [] && es[..3] == es;
    assert CapexSum(es[..1]) == TotalCapex(es[0]);
    assert CapexSum(es[..2]) == TotalCapex(es[0]) + TotalCapex(es[1]);
  }

  lemma CapexOfFour(es: seq<AutomationEquipment>)
    requires |es| == 4
    ensures CapexSum(es) == TotalCapex(es[0]) + TotalCapex(es[1]) + TotalCapex(es[2]) + TotalCapex(es[3])
  {
    CapexOfThree(es[..3]);
    assert es[..3][0] == es[0] && es[..3][1] == es[1] && es[..3][2] == es[2];
  }

  /** The level lists cost 24.3, 54.3625, 193.5625 and 573.3625 million rubles with installation. */
  lemma LevelCapexTotals()
    ensures CapexSum(LevelEquipment(Level0)) == 24300000.0
    ensures CapexSum(LevelEquipment(Level1)) == 54362500.0
    ensures CapexSum(LevelEquipment(Level2)) == 193562500.0
    ensures CapexSum(LevelEquipment(Level3)) == 573362500.0
  {
    CapexOfThree(Level0Items());
    CapexOfThree(Level1Items());
    CapexOfThree(Level2Items());
    CapexOfFour(Level3Items());
    CapexSumConcat(LevelEquipment(Level0), Level1Items());
    CapexSumConcat(LevelEquipment(Level1), Level2Items());
    CapexSumConcat(LevelEquipment(Level2), Level3Items());
  }

  /**
   * `build_level_k_scenario`: a new scenario holding the level's list (the
   * previous level built afresh and copied item by item, then the level's
   * own items) with its totals calculated.
   */
  method BuildScenario(level: AutomationLevel) returns (s: AutomationScenario)
    ensures fresh(s) && s.level == level && s.name == LevelNames[Rank(level)] && s.description == LevelDescriptions[Rank(level)]
    ensures s.equipment == LevelEquipment(level) && s.TotalsCurrent()
    decreases Rank(level)
  {
    s := NewScenario(level);
    if Previous(level).Some? {
      var below := BuildScenario(Previous(level).value);
      AddAll(s, below.equipment);
    }
    AddAll(s, NewItems(level));
    s.CalculateTotals();
  }

  /** `AutomationScenario(level=…, name=…, description=…)` as each builder opens it, still empty. */
  method NewScenario(level: AutomationLevel) returns (s: AutomationScenario)
    ensures fresh(s) && s.level == level && s.name == LevelNames[Rank(level)] && s.description == LevelDescriptions[Rank(level)]
    ensures s.equipment == [] && s.TotalsCurrent()
  {
    s := new AutomationScenario(level, LevelNames[Rank(level)], LevelDescriptions[Rank(level)]);
  }

  /** Adds the items to the scenario one by one, in order. */
  method AddAll(s: AutomationScenario, items: seq<AutomationEquipment>)
    modifies s
    ensures s.equipment == old(s.equipment) + items
  {
    var i := 0;
    while i < |items|
      invariant 0 <= i <= |items|
      invariant s.equipment == old(s.equipment) + items[..i]
    {
      assert items[..i + 1] == items[..i] + [items[i]];
      s.AddEquipment(items[i]);
      i := i + 1;
    }
    assert items[..i] == items;
  }

  /** One row of `compare_scenarios` (the labour reduction in percent). */
  datatype ComparisonRow = ComparisonRow(
    level: AutomationLevel,
    capex: real,
    annualOpex: real,
    laborReductionPercent: real,
    efficiencyMultiplier: real,
    name: string)

  function Ranks(levels: seq<AutomationLevel>): seq<nat>
  {
    if levels == [] then [] else Ranks(levels[..|levels| - 1]) + [Rank(levels[|levels| - 1])]
  }

  /** `AutomationScenarioBuilder`: the scenarios built so far, by level. */
  class AutomationScenarioBuilder {
    var scenarios: map<AutomationLevel, AutomationScenario>

    constructor ()
      ensures scenarios == map[]
    {
      scenarios := map[];
    }

    /** `build_all_scenarios`: all four levels, each built afresh. */
    method BuildAllScenarios()
      modifies this
      ensures scenarios.Keys == {Level0, Level1, Level2, Level3}
      ensures forall l :: l in scenarios ==>
        fresh(scenarios[l]) && scenarios[l].level == l && scenarios[l].name == LevelNames[Rank(l)] &&
        scenarios[l].equipment == LevelEquipment(l) && scenarios[l].TotalsCurrent()
    {
      var s0 := BuildScenario(Level0);
      var s1 := BuildScenario(Level1);
      var s2 := BuildScenario(Level2);
      var s3 := BuildScenario(Level3);
      scenarios := map[Level0 := s0, Level1 := s1, Level2 := s2, Level3 := s3];
    }

    /** `compare_scenarios`: one row per built level, in level order. */
    method CompareScenarios() returns (rows: seq<ComparisonRow>)
      ensures LevelsOf(rows) == PresentInOrder(LevelOrder, scenarios.Keys)
      ensures RowsMatch(rows, scenarios)
    {
      rows := [];
      var k := 0;
      while k < |LevelOrder|
        invariant 0 <= k <= |LevelOrder|
        invariant LevelsOf(rows) == PresentInOrder(LevelOrder[..k], scenarios.Keys)
        invariant RowsMatch(rows, scenarios)
      {
        var l := LevelOrder[k];
        PresentInOrderStep(k, scenarios.Keys);
        if l in scenarios {
          var s := scenarios[l];
          var row := ComparisonRow(l, s.totalCapex, s.totalAnnualOpex, s.laborReductionFactor * 100.0,
                                   s.efficiencyMultiplier, s.name);
          LevelsOfAppend(rows, row);
          RowsExtend(rows, row, scenarios);
          rows := rows + [row];
        }
        k := k + 1;
      }
      assert LevelOrder[..k] == LevelOrder;
    }
  }

  /** The levels of the rows, in row order. */
  function LevelsOf(rows: seq<ComparisonRow>): (ls: seq<AutomationLevel>)
    ensures |ls| == |rows|
  {
    if rows == [] then [] else LevelsOf(rows[..|rows| - 1]) + [rows[|rows| - 1].level]
  }

  lemma {:induction false} LevelsOfIndex(rows: seq<ComparisonRow>)
    ensures forall i :: 0 <= i < |rows| ==> LevelsOf(rows)[i] == rows[i].level
  {
    if rows != [] {
      LevelsOfIndex(rows[..|rows| - 1]);
    }
  }

  lemma LevelsOfAppend(rows: seq<ComparisonRow>, row: ComparisonRow)
    ensures LevelsOf(rows + [row]) == LevelsOf(rows) + [row.level]
  {
    assert (rows + [row])[..|rows|] == rows;
  }

  /** Rows that each carry their own scenario's totals stay so when one more such row is appended. */
  predicate RowsMatch(rows: seq<ComparisonRow>, scenarios: map<AutomationLevel, AutomationScenario>)
    reads scenarios.Values
  {
    forall i :: 0 <= i < |rows| ==> rows[i].level in scenarios && RowOf(rows[i], scenarios[rows[i].level])
  }

  lemma RowsExtend(rows: seq<ComparisonRow>, row: ComparisonRow, scenarios: map<AutomationLevel, AutomationScenario>)
    requires RowsMatch(rows, scenarios)
    requires row.level in scenarios && RowOf(row, scenarios[row.level])
    ensures RowsMatch(rows + [row], scenarios)
  {
  }

  lemma PresentInOrderStep(k: nat, keys: set<AutomationLevel>)
    requires k < |LevelOrder|
    ensures PresentInOrder(LevelOrder[..k + 1], keys) ==
      PresentInOrder(LevelOrder[..k], keys) + (if LevelOrder[k] in keys then [LevelOrder[k]] else [])
  {
    assert LevelOrder[..k + 1][..k] == LevelOrder[..k];
  }

  /** The levels of `order` that are in `keys`, in the order of `order`. */
  function PresentInOrder(order: seq<AutomationLevel>, keys: set<AutomationLevel>): seq<AutomationLevel>
  {
    if order == [] then []
    else PresentInOrder(order[..|order| - 1], keys) + (if order[|order| - 1] in keys then [order[|order| - 1]] else [])
  }

  /** Taking the levels in rank order gives each present level once, by increasing rank. */
  lemma {:induction false} PresentInOrderSpec(k: nat, keys: set<AutomationLevel>)
    requires k <= |LevelOrder|
    ensures var p := PresentInOrder(LevelOrder[..k], keys);
      (forall i, j :: 0 <= i < j < |p| ==> Rank(p[i]) < Rank(p[j])) &&
      (forall i :: 0 <= i < |p| ==> Rank(p[i]) < k) &&
      (forall l :: l in keys && Rank(l) < k <==> l in p)
  {
    if k > 0 {
      PresentInOrderSpec(k - 1, keys);
      assert LevelOrder[..k][..k - 1] == LevelOrder[..k - 1];
      var l := LevelOrder[k - 1];
      RankIdentifies(l, k - 1);
    }
  }

  /** A comparison row carries its scenario's totals, the labour reduction as a percentage. */
  predicate RowOf(row: ComparisonRow, s: AutomationScenario)
    reads s
  {
    row.capex == s.totalCapex && row.annualOpex == s.totalAnnualOpex &&
    row.laborReductionPercent == s.laborReductionFactor * 100.0 &&
    row.efficiencyMultiplier == s.efficiencyMultiplier && row.name == s.name
  }

  lemma RankIdentifies(l: AutomationLevel, k: nat)
    requires k < |LevelOrder| && l == LevelOrder[k]
    ensures Rank(l) == k && forall m :: Rank(m) == k ==> m == l
  {
  }

  // ---------------------------------------------------------------------
  // ROI
  // ---------------------------------------------------------------------

  /** A payback period in years, or `float('inf')`. */
  datatype Payback = Finite(years: real) | Infinite

  datatype Roi = Roi(
    capex: real,
    annualOpex: real,
    reducedStaff: int,
    annualLaborSavings: real,
    throughputIncrease: int,
    annualRevenueIncrease: real,
    totalAnnualBenefit: real,
    netAnnualBenefit: real,
    payback: Payback,
    roi5yPercent: real)

  const ProfitPerOrder: real := 500.0

  /** The ROI entry of one scenario's totals. */
  function RoiOf(capex: real, annualOpex: real, laborReductionFactor: real, efficiencyMultiplier: real,
                 baseStaffCount: int, monthlySalary: real, baseThroughput: int): (r: Roi)
    ensures r.capex == capex && r.annualOpex == annualOpex
    ensures r.reducedStaff == Trunc(baseStaffCount as real * laborReductionFactor)
    ensures r.annualLaborSavings == r.reducedStaff as real * monthlySalary * 12.0
    ensures r.throughputIncrease == Trunc(baseThroughput as real * efficiencyMultiplier) - baseThroughput
    ensures r.annualRevenueIncrease == r.throughputIncrease as real * 12.0 * ProfitPerOrder
    ensures r.totalAnnualBenefit == r.annualLaborSavings + r.annualRevenueIncrease
    ensures r.netAnnualBenefit == r.totalAnnualBenefit - annualOpex
    ensures r.payback.Finite? <==> r.netAnnualBenefit > 0.0
    ensures r.payback.Finite? ==> r.payback.years * r.netAnnualBenefit == capex
    ensures capex <= 0.0 ==> r.roi5yPercent == 0.0
    ensures capex > 0.0 ==> r.roi5yPercent * capex == (5.0 * r.netAnnualBenefit - capex) * 100.0
  {
    var reducedStaff := Trunc(baseStaffCount as real * laborReductionFactor);
    var laborSavings := reducedStaff as real * monthlySalary * 12.0;
    var newThroughput := Trunc(baseThroughput as real * efficiencyMultiplier);
    var increase := newThroughput - baseThroughput;
    var revenue := increase as real * 12.0 * ProfitPerOrder;
    var benefit := laborSavings + revenue;
    var net := benefit - annualOpex;
    var payback := if net > 0.0 then Finite(capex / net) else Infinite;
    var roi5 := if capex > 0.0 then (net * 5.0 - capex) / capex * 100.0 else 0.0;
    Roi(capex, annualOpex, reducedStaff, laborSavings, increase, revenue, benefit, net, payback, roi5)
  }

  /** A staff reduction that is a fraction of a non-negative headcount stays within that headcount. */
  lemma ReducedStaffWithinBase(capex: real, annualOpex: real, labor: real, eff: real, baseStaff: int, salary: real, baseThroughput: int)
    requires 0.0 <= labor <= 1.0 && baseStaff >= 0
    ensures 0 <= RoiOf(capex, annualOpex, labor, eff, baseStaff, salary, baseThroughput).reducedStaff <= baseStaff
  {
    var scaled := baseStaff as real * labor;
    ScaleAtMost(labor, baseStaff as real);
    assert scaled == labor * baseStaff as real;
    assert 0.0 <= scaled <= baseStaff as real;
  }

  /** An efficiency multiplier of at least 1 never lowers throughput. */
  lemma ThroughputIncreaseNonNegative(capex: real, annualOpex: real, labor: real, eff: real, baseStaff: int, salary: real, baseThroughput: int)
    requires eff >= 1.0 && baseThroughput >= 0
    ensures RoiOf(capex, annualOpex, labor, eff, baseStaff, salary, baseThroughput).throughputIncrease >= 0
  {
    assert baseThroughput as real * eff >= baseThroughput as real * 1.0;
  }

  /** With positive CAPEX and benefit, the investment pays back within five years exactly when the 5-year ROI is non-negative. */
  lemma PaybackWithinFiveYearsIffRoiNonNegative(capex: real, annualOpex: real, labor: real, eff: real, baseStaff: int, salary: real, baseThroughput: int)
    requires capex > 0.0
    requires RoiOf(capex, annualOpex, labor, eff, baseStaff, salary, baseThroughput).netAnnualBenefit > 0.0
    ensures RoiOf(capex, annualOpex, labor, eff, baseStaff, salary, baseThroughput).payback.years <= 5.0 <==>
      RoiOf(capex, annualOpex, labor, eff, baseStaff, salary, baseThroughput).roi5yPercent >= 0.0
  {
    var r := RoiOf(capex, annualOpex, labor, eff, baseStaff, salary, baseThroughput);
    var net, years, roi := r.netAnnualBenefit, r.payback.years, r.roi5yPercent;
    assert years * net == capex;
    assert roi * capex == (5.0 * net - capex) * 100.0;
    if years <= 5.0 {
      assert capex <= 5.0 * net by {
        assert years * net <= 5.0 * net;
      }
      assert roi * capex >= 0.0;
    } else {
      assert capex > 5.0 * net by {
        assert years * net > 5.0 * net;
      }
      assert roi * capex < 0.0;
    }
  }

  /**
   * `calculate_roi_analysis` over the built scenarios: one entry per
   * level, computed from that scenario's totals.  Reads only.
   */
  method CalculateRoiAnalysis(b: AutomationScenarioBuilder, baseStaffCount: int, monthlySalary: real, baseThroughput: int)
    returns (roi: map<AutomationLevel, Roi>)
    ensures roi.Keys == b.scenarios.Keys
    ensures forall l :: l in roi ==>
      roi[l] == RoiOf(b.scenarios[l].totalCapex, b.scenarios[l].totalAnnualOpex, b.scenarios[l].laborReductionFactor,
                      b.scenarios[l].efficiencyMultiplier, baseStaffCount, monthlySalary, baseThroughput)
  {
    roi := map[];
    var k := 0;
    while k < |LevelOrder|
      invariant 0 <= k <= |LevelOrder|
      invariant forall l :: l in roi <==> l in b.scenarios && Rank(l) < k
      invariant forall l :: l in roi ==>
        roi[l] == RoiOf(b.scenarios[l].totalCapex, b.scenarios[l].totalAnnualOpex, b.scenarios[l].laborReductionFactor,
                        b.scenarios[l].efficiencyMultiplier, baseStaffCount, monthlySalary, baseThroughput)
    {
      var l := LevelOrder[k];
      assert Rank(l) == k;
      if l in b.scenarios {
        var s := b.scenarios[l];
        roi := roi[l := RoiOf(s.totalCapex, s.totalAnnualOpex, s.laborReductionFactor, s.efficiencyMultiplier,
                              baseStaffCount, monthlySalary, baseThroughput)];
      }
      k := k + 1;
    }
  }
}
