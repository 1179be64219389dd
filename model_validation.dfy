/**
 * model_validation.py: `ModelValidator`, a list of check results and two
 * counters.  Each `_validate_*` check decides pass or fail and a severity;
 * four of them also count a critical failure or a warning.  The four
 * `validate_*` groups run their checks in order and append the results.
 * Dictionary inputs read with `.get(key, default)` are records of options.
 */
module ModelValidation {
  import opened Numeric
  import Config
  import Zoning
  import Automation
  import Transport

  datatype Severity = Critical | Warning | Info

  datatype Check =
    | Area | Coordinates | Capex | Opex | TransportCost
    | ZoningRatios | StorageCapacity | DockCount | ClimateZones
    | PaybackPeriod | RoiTarget | LaborReduction | BenefitCalculations
    | TargetThroughput | BudgetConstraints | GppGdpCompliance | ProjectTimeline

  /** `ValidationResult` without its display texts. */
  datatype ValidationResult = ValidationResult(check: Check, passed: bool, severity: Severity)

  /** The location record, every key optional. */
  datatype LocationData = LocationData(
    areaOfferedSqm: Option<real>,
    lat: Option<real>,
    lon: Option<real>,
    totalInitialCapex: Option<real>,
    totalAnnualOpexS1: Option<real>,
    totalAnnualTransportCost: Option<real>,
    currentClass: Option<string>)

  /** The equipment record the warehouse checks read. */
  datatype EquipmentData = EquipmentData(
    totalPalletPositions: Option<int>,
    inboundDocks: Option<int>,
    outboundDocks: Option<int>)

  function OrZero(x: Option<real>): real
  {
    if x.Some? then x.value else 0.0
  }

  function OrZeroInt(x: Option<int>): int
  {
    if x.Some? then x.value else 0
  }

  /** Most checks report `failSeverity` on failure and info on success. */
  function Outcome(check: Check, passed: bool, failSeverity: Severity): (r: ValidationResult)
    ensures r.check == check && r.passed == passed
    ensures r.severity == (if passed then Info else failSeverity)
  {
    ValidationResult(check, passed, if passed then Info else failSeverity)
  }

  // ---------------------------------------------------------------------
  // The individual checks
  // ---------------------------------------------------------------------

  /** `_validate_area`: below the minimum is critical; between minimum and target a warning. */
  function AreaCheck(actual: real, minRequired: real, target: real): (r: ValidationResult)
    ensures r.check == Area
    ensures r.passed <==> actual >= minRequired
    ensures r.severity == Critical <==> actual < minRequired
    ensures r.severity == Warning <==> minRequired <= actual < target
    ensures r.severity == Info <==> actual >= minRequired && actual >= target
  {
    var passed := actual >= minRequired;
    ValidationResult(Area, passed, if !passed then Critical else if actual >= target then Info else Warning)
  }

  /** `_validate_coordinates`: both present and inside 55-56 N, 37-38 E. */
  function CoordinatesCheck(lat: Option<real>, lon: Option<real>): (r: ValidationResult)
    ensures r.check == Coordinates
    ensures r.passed <==> lat.Some? && lon.Some? && 55.0 <= lat.value <= 56.0 && 37.0 <= lon.value <= 38.0
    ensures r.severity == Critical <==> !r.passed
  {
    Outcome(Coordinates, lat.Some? && lon.Some? && 55.0 <= lat.value <= 56.0 && 37.0 <= lon.value <= 38.0, Critical)
  }

  const MaxCapex: real := 1500000000.0
  const TargetOpex: real := 300000000.0
  const MaxTransport: real := 100000000.0

  /** `_validate_capex`: positive and at most 1.5 billion. */
  function CapexCheck(capex: real): (r: ValidationResult)
    ensures r.check == Capex
    ensures r.passed <==> 0.0 < capex <= 1500000000.0
    ensures r.severity == Warning <==> !r.passed
  {
    Outcome(Capex, 0.0 < capex <= MaxCapex, Warning)
  }

  /** `_validate_opex`: at most the 300M target plus 30%. */
  function OpexCheck(opex: real): (r: ValidationResult)
    ensures r.check == Opex
    ensures r.passed <==> opex <= 390000000.0
    ensures r.severity == Warning <==> !r.passed
  {
    Outcome(Opex, opex <= TargetOpex * 1.3, Warning)
  }

  /** `_validate_transport_cost`: at most 100M a year. */
  function TransportCostCheck(cost: real): (r: ValidationResult)
    ensures r.check == TransportCost
    ensures r.passed <==> cost <= 100000000.0
    ensures r.severity == Warning <==> !r.passed
  {
    Outcome(TransportCost, cost <= MaxTransport, Warning)
  }

  /** The floor of the normal and cold storage zones that are present. */
  function StorageArea(zones: map<Zoning.ZoneId, Zoning.ZoneSpec>): real
  {
    Zoning.ZoneArea(zones, Zoning.StorageNormal) + Zoning.ZoneArea(zones, Zoning.StorageCold)
  }

  /**
   * `_validate_zoning_ratios`: storage as a percentage of the summed zone
   * areas (0 when that sum is not positive) must reach 75.  Every key is a
   * zone id, so the sum over the values is `AllocatedArea`.
   */
  function ZoningRatiosCheck(zones: map<Zoning.ZoneId, Zoning.ZoneSpec>): (r: ValidationResult)
    ensures r.check == ZoningRatios
    ensures r.passed <==> Zoning.AllocatedArea(zones) > 0.0 && StorageArea(zones) >= 0.75 * Zoning.AllocatedArea(zones)
    ensures r.severity == Warning <==> !r.passed
  {
    var total := Zoning.AllocatedArea(zones);
    var ratio := if total > 0.0 then (StorageArea(zones) / total) * 100.0 else 0.0;
    PercentageAtLeast(StorageArea(zones), total);
    Outcome(ZoningRatios, ratio >= 75.0, Warning)
  }

  /** A share of a positive whole reaches 75% exactly when the part is three quarters of it. */
  lemma PercentageAtLeast(part: real, whole: real)
    ensures whole > 0.0 ==> ((part / whole) * 100.0 >= 75.0 <==> part >= 0.75 * whole)
  {
    if whole > 0.0 {
      assert (part / whole) * whole == part;
    }
  }

  /** `_validate_storage_capacity`: two pallet places per SKU. */
  function StorageCapacityCheck(totalPositions: int, totalSku: int): (r: ValidationResult)
    ensures r.check == StorageCapacity
    ensures r.passed <==> totalPositions >= 2 * totalSku
    ensures r.severity == Critical <==> !r.passed
  {
    Outcome(StorageCapacity, totalPositions >= totalSku * 2, Critical)
  }

  /** `_validate_dock_count`: at least ten docks, a missing count being zero. */
  function DockCountCheck(e: EquipmentData): (r: ValidationResult)
    ensures r.check == DockCount
    ensures r.passed <==> OrZeroInt(e.inboundDocks) + OrZeroInt(e.outboundDocks) >= 10
    ensures r.severity == Warning <==> !r.passed
  {
    Outcome(DockCount, OrZeroInt(e.inboundDocks) + OrZeroInt(e.outboundDocks) >= 10, Warning)
  }

  /** `_validate_climate_zones`: a cold storage zone exists. */
  function ClimateZonesCheck(zones: map<Zoning.ZoneId, Zoning.ZoneSpec>): (r: ValidationResult)
    ensures r.check == ClimateZones
    ensures r.passed <==> Zoning.StorageCold in zones
    ensures r.severity == Critical <==> !r.passed
  {
    Outcome(ClimateZones, Zoning.StorageCold in zones, Critical)
  }

  /** The shortest finite payback among the ROI entries, if any is finite. */
  function MinFinitePayback(rs: seq<Automation.Roi>): (m: Option<real>)
    ensures m.None? <==> forall i :: 0 <= i < |rs| ==> rs[i].payback.Infinite?
    ensures m.Some? ==> exists i :: 0 <= i < |rs| && rs[i].payback == Automation.Finite(m.value)
    ensures m.Some? ==> forall i :: 0 <= i < |rs| && rs[i].payback.Finite? ==> m.value <= rs[i].payback.years
  {
    if rs == [] then None
    else
      var init, last := rs[..|rs| - 1], rs[|rs| - 1];
      var rest := MinFinitePayback(init);
      assert forall i :: 0 <= i < |init| ==> init[i] == rs[i];
      if last.payback.Infinite? then rest
      else if rest.None? || last.payback.years < rest.value then Some(last.payback.years)
      else rest
  }

  /** `_validate_payback_period`: some finite payback within seven years. */
  function PaybackCheck(rs: seq<Automation.Roi>): (r: ValidationResult)
    ensures r.check == PaybackPeriod
    ensures r.passed <==> exists i :: 0 <= i < |rs| && rs[i].payback.Finite? && rs[i].payback.years <= 7.0
    ensures r.severity == Warning <==> !r.passed
  {
    var m := MinFinitePayback(rs);
    Outcome(PaybackPeriod, m.Some? && m.value <= 7.0, Warning)
  }

  /** The largest 5-year ROI, 0 for no entries. */
  function MaxRoi(rs: seq<Automation.Roi>): (m: real)
    ensures rs != [] ==> exists i :: 0 <= i < |rs| && rs[i].roi5yPercent == m
    ensures forall i :: 0 <= i < |rs| ==> rs[i].roi5yPercent <= m || rs == []
    ensures rs == [] ==> m == 0.0
  {
    if |rs| == 1 then rs[0].roi5yPercent
    else if rs == [] then 0.0
    else
      var init := rs[..|rs| - 1];
      assert forall i :: 0 <= i < |init| ==> init[i] == rs[i];
      MaxReal(MaxRoi(init), rs[|rs| - 1].roi5yPercent)
  }

  /** `_validate_roi_target`: some scenario reaches a 20% 5-year ROI. */
  function RoiTargetCheck(rs: seq<Automation.Roi>): (r: ValidationResult)
    ensures r.check == RoiTarget
    ensures r.passed <==> exists i :: 0 <= i < |rs| && rs[i].roi5yPercent >= 20.0
    ensures r.severity == Warning <==> !r.passed
  {
    Outcome(RoiTarget, MaxRoi(rs) >= 20.0, Warning)
  }

  /** `_validate_labor_reduction`: every staff reduction lies within the initial headcount. */
  function LaborReductionCheck(rs: seq<Automation.Roi>): (r: ValidationResult)
    ensures r.check == LaborReduction
    ensures r.passed <==> forall i :: 0 <= i < |rs| ==> 0 <= rs[i].reducedStaff <= Config.InitialStaffCount
    ensures r.severity == Critical <==> !r.passed
  {
    Outcome(LaborReduction, forall i :: 0 <= i < |rs| ==> 0 <= rs[i].reducedStaff <= Config.InitialStaffCount, Critical)
  }

  /** The net benefit recomputed from its parts agrees with the reported one to within 1%. */
  predicate BenefitConsistent(x: Automation.Roi)
  {
    var expected := x.annualLaborSavings + x.annualRevenueIncrease - x.annualOpex;
    AbsReal(expected - x.netAnnualBenefit) <= AbsReal(expected * 0.01)
  }

  /** `_validate_benefit_calculations`. */
  function BenefitCheck(rs: seq<Automation.Roi>): (r: ValidationResult)
    ensures r.check == BenefitCalculations
    ensures r.passed <==> forall i :: 0 <= i < |rs| ==> BenefitConsistent(rs[i])
    ensures r.severity == Critical <==> !r.passed
  {
    Outcome(BenefitCalculations, forall i :: 0 <= i < |rs| ==> BenefitConsistent(rs[i]), Critical)
  }

  /** `_validate_target_throughput`: always reported as info. */
  function TargetThroughputCheck(targetOrdersMonth: int): (r: ValidationResult)
    ensures r.check == TargetThroughput && r.severity == Info
    ensures r.passed <==> targetOrdersMonth > 0
  {
    ValidationResult(TargetThroughput, targetOrdersMonth > 0, Info)
  }

  const MaxBudget: real := 2000000000.0

  /** The largest automation CAPEX among the ROI entries. */
  function MaxAutomationCapex(rs: seq<Automation.Roi>): (m: real)
    requires rs != []
    ensures exists i :: 0 <= i < |rs| && rs[i].capex == m
    ensures forall i :: 0 <= i < |rs| ==> rs[i].capex <= m
  {
    if |rs| == 1 then rs[0].capex
    else
      var init := rs[..|rs| - 1];
      assert forall i :: 0 <= i < |init| ==> init[i] == rs[i];
      MaxReal(MaxAutomationCapex(init), rs[|rs| - 1].capex)
  }

  /**
   * The investment `_validate_budget_constraints` compares with the budget,
   * as written: the site CAPEX plus (largest automation CAPEX − site CAPEX).
   */
  function BudgetInvestmentAsWritten(siteCapex: real, rs: seq<Automation.Roi>): (t: real)
    ensures rs != [] ==> t == MaxAutomationCapex(rs)
    ensures rs == [] ==> t == siteCapex
  {
    if rs != [] then siteCapex + (MaxAutomationCapex(rs) - siteCapex) else siteCapex
  }

  /** The investment the check is meant to bound: the site CAPEX plus the largest automation CAPEX. */
  function BudgetInvestment(siteCapex: real, rs: seq<Automation.Roi>): (t: real)
    ensures rs != [] ==> t == siteCapex + MaxAutomationCapex(rs) && forall i :: 0 <= i < |rs| ==> siteCapex + rs[i].capex <= t
    ensures rs == [] ==> t == siteCapex
  {
    if rs != [] then siteCapex + MaxAutomationCapex(rs) else siteCapex
  }

  /** The combined investment is within the budget exactly when every site-plus-automation total is. */
  lemma BudgetWithin(capex: real, rs: seq<Automation.Roi>)
    ensures rs != [] ==> (BudgetInvestment(capex, rs) <= MaxBudget <==>
      forall i :: 0 <= i < |rs| ==> capex + rs[i].capex <= MaxBudget)
  {
    if rs != [] {
      var i :| 0 <= i < |rs| && rs[i].capex == MaxAutomationCapex(rs);
      assert capex + rs[i].capex == BudgetInvestment(capex, rs);
    }
  }

  /**
   * `_validate_budget_constraints` as written: the site CAPEX cancels out, so
   * the check bounds the automation CAPEX alone.  A missing site CAPEX is a
   * `KeyError`.
   */
  function BudgetCheckAsWritten(loc: LocationData, rs: seq<Automation.Roi>): (r: Result<ValidationResult, string>)
    ensures r.Err? <==> loc.totalInitialCapex.None?
    ensures r.Ok? && rs != [] ==> (r.value.passed <==> MaxAutomationCapex(rs) <= 2000000000.0)
  {
    if loc.totalInitialCapex.None? then Err("KeyError: total_initial_capex")
    else Ok(Outcome(BudgetConstraints, BudgetInvestmentAsWritten(loc.totalInitialCapex.value, rs) <= MaxBudget, Critical))
  }

  /** The budget check with the site CAPEX counted: every site-plus-automation total within 2 billion. */
  function BudgetCheck(loc: LocationData, rs: seq<Automation.Roi>): (r: Result<ValidationResult, string>)
    ensures r.Err? <==> loc.totalInitialCapex.None?
    ensures r.Ok? ==> r.value.check == BudgetConstraints && (r.value.severity == Critical <==> !r.value.passed)
    ensures r.Ok? && rs == [] ==> (r.value.passed <==> loc.totalInitialCapex.value <= 2000000000.0)
    ensures r.Ok? && rs != [] ==> (r.value.passed <==>
      forall i :: 0 <= i < |rs| ==> loc.totalInitialCapex.value + rs[i].capex <= 2000000000.0)
  {
    if loc.totalInitialCapex.None? then Err("KeyError: total_initial_capex")
    else
      var capex := loc.totalInitialCapex.value;
      BudgetWithin(capex, rs);
      Ok(Outcome(BudgetConstraints, BudgetInvestment(capex, rs) <= MaxBudget, Critical))
  }

  /** A 1.8-billion site with automation scenarios costing at most 540M. */
  function BudgetWitnessRoi(capex: real): Automation.Roi
  {
    Automation.Roi(capex, 0.0, 0, 0.0, 0, 0.0, 0.0, 0.0, Automation.Infinite, 0.0)
  }

  /**
   * The site of 1.8 billion with a 540M automation level passes the check as
   * written, although together they need 2.34 billion; the corrected check
   * fails it.
   */
  lemma BudgetCheckIgnoresSiteCapex()
    ensures var loc := LocationData(None, None, None, Some(1800000000.0), None, None, None);
      var rs := [BudgetWitnessRoi(21000000.0), BudgetWitnessRoi(540000000.0)];
      BudgetCheckAsWritten(loc, rs).Ok? && BudgetCheckAsWritten(loc, rs).value.passed &&
      BudgetCheck(loc, rs).Ok? && !BudgetCheck(loc, rs).value.passed
  {
    var rs := [BudgetWitnessRoi(21000000.0), BudgetWitnessRoi(540000000.0)];
    assert MaxAutomationCapex(rs) == 540000000.0;
    assert 1800000000.0 + rs[1].capex > 2000000000.0;
  }

  /** `_validate_gpp_gdp_compliance`: class A, or A after modification. */
  function GppGdpCheck(currentClass: Option<string>): (r: ValidationResult)
    ensures r.check == GppGdpCompliance
    ensures r.passed <==> currentClass == Some("A") || currentClass == Some("A_requires_mod")
    ensures r.severity == Critical <==> !r.passed
  {
    var c := if currentClass.Some? then currentClass.value else "";
    Outcome(GppGdpCompliance, c == "A" || c == "A_requires_mod", Critical)
  }

  /** `_validate_project_timeline`: always passes. */
  function ProjectTimelineCheck(): (r: ValidationResult)
    ensures r.check == ProjectTimeline && r.passed && r.severity == Info
  {
    ValidationResult(ProjectTimeline, true, Info)
  }

  // ---------------------------------------------------------------------
  // Cross-checks with the rest of the model
  // ---------------------------------------------------------------------

  /**
   * No standard zoning the zoning rules accept passes the storage-ratio
   * check: storage is at most 0.95 of the floor against 0.45 for the other
   * zones, under 68% of the allocated area.
   */
  lemma StandardZoningFailsStorageRatio(t: real, n: real, c: real)
    requires t > 0.0 && n >= 0.0 && c >= 0.0 && Zoning.RatiosAccepted(n, c)
    ensures !ZoningRatiosCheck(Zoning.StandardZones(t, n, c)).passed
  {
    var z := Zoning.StandardZones(t, n, c);
    Zoning.ZoningAreaSum(t, n, c);
    Zoning.StandardZoneAt(t, n, c, Zoning.StorageNormal);
    Zoning.StandardZoneAt(t, n, c, Zoning.StorageCold);
    assert StorageArea(z) == t * n + t * c;
    assert Zoning.AllocatedArea(z) == t * 0.45 + t * n + t * c;
    assert t * (n + c) == t * n + t * c;
    assert t * (n + c) <= t * 0.95;
    assert 0.75 * Zoning.AllocatedArea(z) - StorageArea(z) == 0.25 * (1.35 * t - t * (n + c));
    assert StorageArea(z) < 0.75 * Zoning.AllocatedArea(z);
    assert !ZoningRatiosCheck(z).passed;
  }

  /** Equipment data carrying the transport planner's dock plan. */
  function DocksOf(p: Transport.DockPlan): EquipmentData
  {
    EquipmentData(None, Some(p.inboundDocks), Some(p.outboundDocks))
  }

  /** The planner's eight docks for the configured order volume fall short of the ten the dock check asks for. */
  lemma ConfiguredDocksFailDockCount(d: Transport.Distances)
    ensures !DockCountCheck(DocksOf(Transport.DockRequirements(Transport.FleetRequirements(Transport.TargetOrdersMonth, d)))).passed
  {
    Transport.ConfiguredDockPlan(d);
  }

  /** ROI entries computed by `RoiOf` with fractional labour reductions pass the labour and benefit checks. */
  lemma ComputedRoiPassesConsistencyChecks(rs: seq<Automation.Roi>)
    requires forall i :: 0 <= i < |rs| ==> 0 <= rs[i].reducedStaff <= Config.InitialStaffCount
    requires forall i :: 0 <= i < |rs| ==>
      rs[i].netAnnualBenefit == rs[i].annualLaborSavings + rs[i].annualRevenueIncrease - rs[i].annualOpex
    ensures LaborReductionCheck(rs).passed && BenefitCheck(rs).passed
  {
    forall i | 0 <= i < |rs|
      ensures BenefitConsistent(rs[i])
    {
    }
  }

  // ---------------------------------------------------------------------
  // The validator
  // ---------------------------------------------------------------------

  function CountIf(b: bool): nat
  {
    if b then 1 else 0
  }

  class ModelValidator {
    var validationResults: seq<ValidationResult>
    var criticalFailures: nat
    var warnings: nat

    constructor ()
      ensures validationResults == [] && criticalFailures == 0 && warnings == 0
    {
      validationResults := [];
      criticalFailures := 0;
      warnings := 0;
    }

    /** `_validate_area`: a failure is one critical failure, a short-of-target pass one warning. */
    method ValidateArea(actual: real, minRequired: real, target: real) returns (r: ValidationResult)
      modifies this
      ensures r == AreaCheck(actual, minRequired, target)
      ensures criticalFailures == old(criticalFailures) + CountIf(!r.passed)
      ensures warnings == old(warnings) + CountIf(r.severity == Warning)
      ensures validationResults == old(validationResults)
    {
      r := AreaCheck(actual, minRequired, target);
      if !r.passed {
        criticalFailures := criticalFailures + 1;
      } else if r.severity == Warning {
        warnings := warnings + 1;
      }
    }

    /** `_validate_capex`: a failure is one warning. */
    method ValidateCapex(capex: real) returns (r: ValidationResult)
      modifies this
      ensures r == CapexCheck(capex)
      ensures criticalFailures == old(criticalFailures) && warnings == old(warnings) + CountIf(!r.passed)
      ensures validationResults == old(validationResults)
    {
      r := CapexCheck(capex);
      if !r.passed {
        warnings := warnings + 1;
      }
    }

    /** `_validate_opex`: a failure is one warning. */
    method ValidateOpex(opex: real) returns (r: ValidationResult)
      modifies this
      ensures r == OpexCheck(opex)
      ensures criticalFailures == old(criticalFailures) && warnings == old(warnings) + CountIf(!r.passed)
      ensures validationResults == old(validationResults)
    {
      r := OpexCheck(opex);
      if !r.passed {
        warnings := warnings + 1;
      }
    }

    /** `_validate_storage_capacity`: a failure is one critical failure. */
    method ValidateStorageCapacity(e: EquipmentData, totalSku: int) returns (r: ValidationResult)
      modifies this
      ensures r == StorageCapacityCheck(OrZeroInt(e.totalPalletPositions), totalSku)
      ensures criticalFailures == old(criticalFailures) + CountIf(!r.passed) && warnings == old(warnings)
      ensures validationResults == old(validationResults)
    {
      r := StorageCapacityCheck(OrZeroInt(e.totalPalletPositions), totalSku);
      if !r.passed {
        criticalFailures := criticalFailures + 1;
      }
    }

    /** `validate_location_data`: area, coordinates, CAPEX, OPEX and transport cost, appended in that order. */
    method ValidateLocationData(loc: LocationData) returns (results: seq<ValidationResult>)
      modifies this
      ensures results == [AreaCheck(OrZero(loc.areaOfferedSqm), Config.MinAreaSqm, Config.TargetAreaSqm),
                          CoordinatesCheck(loc.lat, loc.lon), CapexCheck(OrZero(loc.totalInitialCapex)),
                          OpexCheck(OrZero(loc.totalAnnualOpexS1)), TransportCostCheck(OrZero(loc.totalAnnualTransportCost))]
      ensures validationResults == old(validationResults) + results
      ensures criticalFailures == old(criticalFailures) + CountIf(!results[0].passed)
      ensures warnings == old(warnings) + CountIf(results[0].severity == Warning) +
                          CountIf(!results[2].passed) + CountIf(!results[3].passed)
    {
      var area := ValidateArea(OrZero(loc.areaOfferedSqm), Config.MinAreaSqm, Config.TargetAreaSqm);
      var coordinates := CoordinatesCheck(loc.lat, loc.lon);
      var capex := ValidateCapex(OrZero(loc.totalInitialCapex));
      var opex := ValidateOpex(OrZero(loc.totalAnnualOpexS1));
      var transport := TransportCostCheck(OrZero(loc.totalAnnualTransportCost));
      results := [area, coordinates, capex, opex, transport];
      validationResults := validationResults + results;
    }

    /** `validate_warehouse_configuration`: zoning ratios, storage capacity, docks and the cold zone. */
    method ValidateWarehouseConfiguration(zones: map<Zoning.ZoneId, Zoning.ZoneSpec>, e: EquipmentData, totalSku: int)
      returns (results: seq<ValidationResult>)
      modifies this
      ensures results == [ZoningRatiosCheck(zones), StorageCapacityCheck(OrZeroInt(e.totalPalletPositions), totalSku),
                          DockCountCheck(e), ClimateZonesCheck(zones)]
      ensures validationResults == old(validationResults) + results
      ensures criticalFailures == old(criticalFailures) + CountIf(!results[1].passed) && warnings == old(warnings)
    {
      var ratios := ZoningRatiosCheck(zones);
      var capacity := ValidateStorageCapacity(e, totalSku);
      var docks := DockCountCheck(e);
      var climate := ClimateZonesCheck(zones);
      results := [ratios, capacity, docks, climate];
      validationResults := validationResults + results;
    }

    /** `validate_roi_calculations`: payback, ROI target, labour reduction and benefit arithmetic; no counter moves. */
    method ValidateRoiCalculations(rs: seq<Automation.Roi>) returns (results: seq<ValidationResult>)
      modifies this
      ensures results == [PaybackCheck(rs), RoiTargetCheck(rs), LaborReductionCheck(rs), BenefitCheck(rs)]
      ensures validationResults == old(validationResults) + results
      ensures criticalFailures == old(criticalFailures) && warnings == old(warnings)
    {
      results := [PaybackCheck(rs), RoiTargetCheck(rs), LaborReductionCheck(rs), BenefitCheck(rs)];
      validationResults := validationResults + results;
    }

    /**
     * `validate_business_requirements`: throughput target, budget (site CAPEX
     * counted), GPP/GDP class and timeline.  Without a site CAPEX the budget
     * check fails with a `KeyError` and nothing is appended.
     */
    method ValidateBusinessRequirements(loc: LocationData, rs: seq<Automation.Roi>)
      returns (r: Result<seq<ValidationResult>, string>)
      modifies this
      ensures r.Err? <==> loc.totalInitialCapex.None?
      ensures r.Err? ==> validationResults == old(validationResults)
      ensures r.Ok? ==> r.value == [TargetThroughputCheck(Config.TargetOrdersMonth), BudgetCheck(loc, rs).value,
                                     GppGdpCheck(loc.currentClass), ProjectTimelineCheck()]
      ensures r.Ok? ==> validationResults == old(validationResults) + r.value
      ensures criticalFailures == old(criticalFailures) && warnings == old(warnings)
    {
      var throughput := TargetThroughputCheck(Config.TargetOrdersMonth);
      var budget := BudgetCheck(loc, rs);
      if budget.Err? {
        return Err(budget.error);
      }
      var results := [throughput, budget.value, GppGdpCheck(loc.currentClass), ProjectTimelineCheck()];
      validationResults := validationResults + results;
      r := Ok(results);
    }
  }
}
