/**
 * storage_conditions.py: the storage regimes of a pharmaceutical warehouse
 * (temperature, humidity, special control), the manager's table of named
 * conditions, the split of an SKU count over those conditions, and the
 * climate-system cost and redundancy formulas.
 */
module StorageConditions {
  import opened Numeric

  datatype TemperatureRegime = Normal | ColdChain | Frozen | RoomTemp

  datatype HumidityControl = Strict | Moderate | NoHumidityControl

  datatype SpecialControl = Narcotic | Psychotropic | HighRisk | NoSpecialControl

  /** A `StorageCondition` record; every SKU carries an RF ID tag by default. */
  datatype StorageCondition = StorageCondition(
    temperatureRegime: TemperatureRegime,
    humidityControl: HumidityControl,
    specialControl: SpecialControl,
    rfIdTracking: bool)

  /** A closed interval `(lo, hi)` in degrees Celsius or percent relative humidity. */
  datatype Range = Range(lo: int, hi: int)

  /** `get_temperature_range`. */
  function TemperatureRange(c: StorageCondition): (r: Range)
    ensures r.lo < r.hi
    ensures c.temperatureRegime == Frozen <==> r.hi < 0
    ensures c.temperatureRegime == ColdChain <==> 0 < r.lo && r.hi <= 8
  {
    match c.temperatureRegime
    case Normal => Range(15, 25)
    case ColdChain => Range(2, 8)
    case Frozen => Range(-25, -18)
    case RoomTemp => Range(10, 30)
  }

  /** `get_humidity_range`. */
  function HumidityRange(c: StorageCondition): (r: Range)
    ensures 0 <= r.lo < r.hi <= 100
    ensures c.humidityControl == NoHumidityControl <==> r == Range(0, 100)
  {
    match c.humidityControl
    case Strict => Range(40, 60)
    case Moderate => Range(30, 70)
    case NoHumidityControl => Range(0, 100)
  }

  /** Stricter humidity control means a narrower band inside the looser one. */
  lemma HumidityBandsNested(strict: StorageCondition, moderate: StorageCondition, none: StorageCondition)
    requires strict.humidityControl == Strict && moderate.humidityControl == Moderate
    requires none.humidityControl == NoHumidityControl
    ensures HumidityRange(none).lo < HumidityRange(moderate).lo < HumidityRange(strict).lo
    ensures HumidityRange(strict).hi < HumidityRange(moderate).hi < HumidityRange(none).hi
  {
  }

  /** `requires_validation`: GPP/GDP validation for the normal and cold-chain regimes. */
  predicate RequiresValidation(c: StorageCondition)
  {
    c.temperatureRegime == Normal || c.temperatureRegime == ColdChain
  }

  /** `requires_special_security`: any special control at all. */
  predicate RequiresSpecialSecurity(c: StorageCondition)
  {
    c.specialControl != NoSpecialControl
  }

  /**
   * The regimes that need validation are exactly those whose whole
   * temperature band lies inside +2 … +25 °C.
   */
  lemma ValidationIffBandWithin2To25(c: StorageCondition)
    ensures RequiresValidation(c) <==> 2 <= TemperatureRange(c).lo && TemperatureRange(c).hi <= 25
  {
  }

  /** The four conditions `_initialize_default_conditions` writes. */
  function DefaultConditions(): (m: map<string, StorageCondition>)
    ensures m.Keys == {"normal", "cold_chain", "normal_controlled", "cold_controlled"}
    ensures forall id :: id in m ==> RequiresValidation(m[id]) && m[id].humidityControl == Strict && m[id].rfIdTracking
  {
    map[
      "normal" := StorageCondition(Normal, Strict, NoSpecialControl, true),
      "cold_chain" := StorageCondition(ColdChain, Strict, NoSpecialControl, true),
      "normal_controlled" := StorageCondition(Normal, Strict, Narcotic, true),
      "cold_controlled" := StorageCondition(ColdChain, Strict, HighRisk, true)
    ]
  }

  /** Of the defaults, exactly the two `_controlled` ones need special security, and exactly the two `cold_` ones are cold chain. */
  lemma DefaultConditionsSecurityAndRegime()
    ensures forall id :: id in DefaultConditions() ==>
      (RequiresSpecialSecurity(DefaultConditions()[id]) <==> id in {"normal_controlled", "cold_controlled"})
    ensures forall id :: id in DefaultConditions() ==>
      (DefaultConditions()[id].temperatureRegime == ColdChain <==> id in {"cold_chain", "cold_controlled"})
  {
  }

  /** One entry of the dictionary `calculate_sku_distribution` returns. */
  datatype SkuAllocation = SkuAllocation(
    conditionId: string,
    skuCount: int,
    share: real,
    condition: StorageCondition,
    temperatureRange: Range,
    humidityRange: Range,
    requiresValidation: bool,
    requiresSpecialSecurity: bool)

  /** The named share profiles; any other name falls back to `balanced`. */
  function ProfileShares(name: string): (p: seq<(string, real)>)
    ensures |p| == 4
    ensures p[0].0 == "normal" && p[1].0 == "cold_chain" && p[2].0 == "normal_controlled" && p[3].0 == "cold_controlled"
    ensures forall i :: 0 <= i < |p| ==> p[i].1 > 0.0
  {
    if name == "cold_heavy" then
      [("normal", 0.50), ("cold_chain", 0.45), ("normal_controlled", 0.03), ("cold_controlled", 0.02)]
    else if name == "normal_heavy" then
      [("normal", 0.75), ("cold_chain", 0.20), ("normal_controlled", 0.03), ("cold_controlled", 0.02)]
    else
      [("normal", 0.65), ("cold_chain", 0.30), ("normal_controlled", 0.03), ("cold_controlled", 0.02)]
  }

  /** Sum of the shares of a profile. */
  function ShareSum(p: seq<(string, real)>): real
  {
    if p == [] then 0.0 else ShareSum(p[..|p| - 1]) + p[|p| - 1].1
  }

  lemma ShareSumOfFour(p: seq<(string, real)>)
    requires |p| == 4
    ensures ShareSum(p) == p[0].1 + p[1].1 + p[2].1 + p[3].1
  {
    assert p[..3][..2] == p[..2] && p[..2][..1] == p[..1] && p[..1][..0] == [];
    assert ShareSum(p[..1]) == p[0].1;
    assert ShareSum(p[..2]) == ShareSum(p[..1]) + p[1].1;
    assert ShareSum(p[..3]) == ShareSum(p[..2]) + p[2].1;
  }

  /** Every profile, the fallback included, splits the whole. */
  lemma ProfilesSumToOne(name: string)
    ensures ShareSum(ProfileShares(name)) == 1.0
  {
    ShareSumOfFour(ProfileShares(name));
  }

  /** `int(total_sku * share)`. */
  function SkuCount(totalSku: int, share: real): int
  {
    Trunc(totalSku as real * share)
  }

  /** The entry made for one condition id that the table holds. */
  function Allocation(id: string, c: StorageCondition, totalSku: int, share: real): (a: SkuAllocation)
    ensures a.conditionId == id && a.condition == c && a.share == share
    ensures totalSku >= 0 && share >= 0.0 ==>
      0 <= a.skuCount && a.skuCount as real <= totalSku as real * share < a.skuCount as real + 1.0
    ensures a.requiresValidation <==> 2 <= a.temperatureRange.lo && a.temperatureRange.hi <= 25
  {
    ValidationIffBandWithin2To25(c);
    SkuAllocation(id, SkuCount(totalSku, share), share, c, TemperatureRange(c), HumidityRange(c),
                  RequiresValidation(c), RequiresSpecialSecurity(c))
  }

  /** The distribution of a profile prefix: profile ids the table lacks are skipped. */
  function Distribution(conditions: map<string, StorageCondition>, p: seq<(string, real)>, totalSku: int): seq<SkuAllocation>
  {
    if p == [] then []
    else
      var last := p[|p| - 1];
      Distribution(conditions, p[..|p| - 1], totalSku) +
      (if last.0 in conditions then [Allocation(last.0, conditions[last.0], totalSku, last.1)] else [])
  }

  /** Sum of the `sku_count` fields. */
  function SumCounts(d: seq<SkuAllocation>): int
  {
    if d == [] then 0 else SumCounts(d[..|d| - 1]) + d[|d| - 1].skuCount
  }

  lemma SumCountsAppend(d: seq<SkuAllocation>, e: seq<SkuAllocation>)
    requires |e| <= 1
    ensures SumCounts(d + e) == SumCounts(d) + (if e == [] then 0 else e[0].skuCount)
  {
    if e != [] {
      assert (d + e)[..|d|] == d;
    } else {
      assert d + e == d;
    }
  }

  lemma Distribute(t: real, a: real, b: real)
    ensures t * (a + b) == t * a + t * b
  {
  }

  /** The SKUs the distribution hands out, entry by entry. */
  function Handed(conditions: map<string, StorageCondition>, p: seq<(string, real)>, totalSku: int): int
  {
    if p == [] then 0
    else Handed(conditions, p[..|p| - 1], totalSku) + (if p[|p| - 1].0 in conditions then SkuCount(totalSku, p[|p| - 1].1) else 0)
  }

  lemma {:induction false} SumCountsIsHanded(conditions: map<string, StorageCondition>, p: seq<(string, real)>, totalSku: int)
    ensures SumCounts(Distribution(conditions, p, totalSku)) == Handed(conditions, p, totalSku)
  {
    if p != [] {
      var last := p[|p| - 1];
      var d0 := Distribution(conditions, p[..|p| - 1], totalSku);
      SumCountsIsHanded(conditions, p[..|p| - 1], totalSku);
      if last.0 in conditions {
        var a := Allocation(last.0, conditions[last.0], totalSku, last.1);
        assert Distribution(conditions, p, totalSku) == d0 + [a];
        SumCountsAppend(d0, [a]);
      } else {
        assert Distribution(conditions, p, totalSku) == d0;
      }
    }
  }

  /** `t × share`, summed entry by entry over a profile. */
  function ScaledShares(p: seq<(string, real)>, t: real): real
  {
    if p == [] then 0.0 else ScaledShares(p[..|p| - 1], t) + t * p[|p| - 1].1
  }

  lemma {:induction false} ScaledSharesIsProduct(p: seq<(string, real)>, t: real)
    ensures ScaledShares(p, t) == t * ShareSum(p)
  {
    if p != [] {
      ScaledSharesIsProduct(p[..|p| - 1], t);
      Distribute(t, ShareSum(p[..|p| - 1]), p[|p| - 1].1);
    }
  }

  lemma {:induction false} HandedAtMostScaled(conditions: map<string, StorageCondition>, p: seq<(string, real)>, totalSku: int)
    requires totalSku >= 0
    requires forall i :: 0 <= i < |p| ==> p[i].1 >= 0.0
    ensures Handed(conditions, p, totalSku) as real <= ScaledShares(p, totalSku as real)
  {
    if p != [] {
      var init, last := p[..|p| - 1], p[|p| - 1];
      assert forall i :: 0 <= i < |init| ==> init[i].1 >= 0.0 by {
        forall i | 0 <= i < |init| ensures init[i].1 >= 0.0 {
          assert init[i] == p[i];
        }
      }
      HandedAtMostScaled(conditions, init, totalSku);
      assert totalSku as real * last.1 >= 0.0;
    }
  }

  lemma HandedAtMost(conditions: map<string, StorageCondition>, p: seq<(string, real)>, totalSku: int)
    requires totalSku >= 0
    requires forall i :: 0 <= i < |p| ==> p[i].1 >= 0.0
    ensures Handed(conditions, p, totalSku) as real <= totalSku as real * ShareSum(p)
  {
    HandedAtMostScaled(conditions, p, totalSku);
    ScaledSharesIsProduct(p, totalSku as real);
  }

  lemma {:induction false} HandedAtLeastScaled(conditions: map<string, StorageCondition>, p: seq<(string, real)>, totalSku: int)
    requires totalSku >= 0
    requires forall i :: 0 <= i < |p| ==> p[i].1 >= 0.0 && p[i].0 in conditions
    ensures Handed(conditions, p, totalSku) as real + |p| as real >= ScaledShares(p, totalSku as real)
  {
    if p != [] {
      var init, last := p[..|p| - 1], p[|p| - 1];
      assert forall i :: 0 <= i < |init| ==> init[i].1 >= 0.0 && init[i].0 in conditions by {
        forall i | 0 <= i < |init| ensures init[i].1 >= 0.0 && init[i].0 in conditions {
          assert init[i] == p[i];
        }
      }
      HandedAtLeastScaled(conditions, init, totalSku);
      assert totalSku as real * last.1 >= 0.0;
    }
  }

  lemma HandedAtLeast(conditions: map<string, StorageCondition>, p: seq<(string, real)>, totalSku: int)
    requires totalSku >= 0
    requires forall i :: 0 <= i < |p| ==> p[i].1 >= 0.0 && p[i].0 in conditions
    ensures Handed(conditions, p, totalSku) as real + |p| as real >= totalSku as real * ShareSum(p)
  {
    HandedAtLeastScaled(conditions, p, totalSku);
    ScaledSharesIsProduct(p, totalSku as real);
  }

  /** Flooring each share can only lose SKUs: a profile with non-negative shares hands out at most `total × Σ shares`. */
  lemma DistributionCountsAtMost(conditions: map<string, StorageCondition>, p: seq<(string, real)>, totalSku: int)
    requires totalSku >= 0
    requires forall i :: 0 <= i < |p| ==> p[i].1 >= 0.0
    ensures SumCounts(Distribution(conditions, p, totalSku)) as real <= totalSku as real * ShareSum(p)
  {
    SumCountsIsHanded(conditions, p, totalSku);
    HandedAtMost(conditions, p, totalSku);
  }

  /** When every profile id is in the table, the floors lose less than one SKU per entry. */
  lemma DistributionCountsAtLeast(conditions: map<string, StorageCondition>, p: seq<(string, real)>, totalSku: int)
    requires totalSku >= 0
    requires forall i :: 0 <= i < |p| ==> p[i].1 >= 0.0 && p[i].0 in conditions
    ensures SumCounts(Distribution(conditions, p, totalSku)) as real + |p| as real >= totalSku as real * ShareSum(p)
  {
    SumCountsIsHanded(conditions, p, totalSku);
    HandedAtLeast(conditions, p, totalSku);
  }

  lemma {:induction false} DistributionIds(conditions: map<string, StorageCondition>, p: seq<(string, real)>, totalSku: int)
    requires forall i :: 0 <= i < |p| ==> p[i].0 in conditions
    ensures |Distribution(conditions, p, totalSku)| == |p|
    ensures forall i :: 0 <= i < |p| ==> Distribution(conditions, p, totalSku)[i].conditionId == p[i].0
  {
    if p != [] {
      var init := p[..|p| - 1];
      assert forall i :: 0 <= i < |init| ==> init[i] == p[i];
      DistributionIds(conditions, init, totalSku);
    }
  }

  /** `StorageConditionManager`: the table of named conditions, mutable in place. */
  class StorageConditionManager {
    var conditions: map<string, StorageCondition>

    /** A new manager holds the four default conditions and nothing else. */
    constructor ()
      ensures conditions == DefaultConditions()
    {
      conditions := DefaultConditions();
    }

    /** `get_condition`: the condition under `id`, or nothing. */
    method GetCondition(id: string) returns (r: Option<StorageCondition>)
      ensures r.Some? <==> id in conditions
      ensures r.Some? ==> r.value == conditions[id]
    {
      if id in conditions {
        r := Some(conditions[id]);
      } else {
        r := None;
      }
    }

    /** `add_custom_condition`: sets (or overwrites) one id; every other id keeps its condition. */
    method AddCustomCondition(id: string, c: StorageCondition)
      modifies this
      ensures conditions.Keys == old(conditions.Keys) + {id}
      ensures conditions[id] == c
      ensures forall other :: other in old(conditions) && other != id ==> conditions[other] == old(conditions[other])
    {
      conditions := conditions[id := c];
    }

    /** `get_all_conditions`: a copy of the table (maps are values, so later additions do not reach it). */
    method GetAllConditions() returns (all: map<string, StorageCondition>)
      ensures all.Keys == conditions.Keys
      ensures forall id :: id in all ==> all[id] == conditions[id]
    {
      all := conditions;
    }

    /** `calculate_sku_distribution`: one entry per profile id found in the table, in profile order. */
    method CalculateSkuDistribution(totalSku: int, profileName: string) returns (dist: seq<SkuAllocation>)
      ensures dist == Distribution(conditions, ProfileShares(profileName), totalSku)
      ensures totalSku >= 0 ==> SumCounts(dist) <= totalSku
      ensures totalSku >= 0 && conditions.Keys >= DefaultConditions().Keys ==> SumCounts(dist) >= totalSku - 4
    {
      var profile := ProfileShares(profileName);
      dist := [];
      var i := 0;
      while i < |profile|
        invariant 0 <= i <= |profile|
        invariant dist == Distribution(conditions, profile[..i], totalSku)
      {
        var (id, share) := profile[i];
        assert profile[..i + 1][..i] == profile[..i];
        if id in conditions {
          dist := dist + [Allocation(id, conditions[id], totalSku, share)];
        }
        i := i + 1;
      }
      assert profile[..|profile|] == profile;
      if totalSku >= 0 {
        DistributionCountsAtMost(conditions, profile, totalSku);
        ProfilesSumToOne(profileName);
        if conditions.Keys >= DefaultConditions().Keys {
          DistributionCountsAtLeast(conditions, profile, totalSku);
        }
      }
    }
  }

  /** With the default table every profile yields the four ids, in profile order. */
  lemma DefaultDistributionIds(profileName: string, totalSku: int)
    ensures |Distribution(DefaultConditions(), ProfileShares(profileName), totalSku)| == 4
    ensures Distribution(DefaultConditions(), ProfileShares(profileName), totalSku)[0].conditionId == "normal"
    ensures Distribution(DefaultConditions(), ProfileShares(profileName), totalSku)[1].conditionId == "cold_chain"
    ensures Distribution(DefaultConditions(), ProfileShares(profileName), totalSku)[2].conditionId == "normal_controlled"
    ensures Distribution(DefaultConditions(), ProfileShares(profileName), totalSku)[3].conditionId == "cold_controlled"
  {
    DistributionIds(DefaultConditions(), ProfileShares(profileName), totalSku);
  }

  // ---------------------------------------------------------------------
  // ClimateSystemCalculator
  // ---------------------------------------------------------------------

  /** `COOLING_POWER_PER_SQM` in W/m², 120 for a regime the table lacks. */
  function CoolingPowerPerSqm(regime: TemperatureRegime): real
  {
    match regime
    case ColdChain => 250.0
    case Frozen => 400.0
    case _ => 120.0
  }

  /** `EQUIPMENT_COST_PER_SQM` in roubles, 8000 for a regime the table lacks. */
  function EquipmentCostPerSqm(regime: TemperatureRegime): real
  {
    match regime
    case ColdChain => 25000.0
    case Frozen => 45000.0
    case _ => 8000.0
  }

  const AnnualMaintenanceRate: real := 0.12
  const ElectricityCostRubPerKwh: real := 6.5
  const OperatingHoursPerYear: real := 8760.0
  const LoadFactor: real := 0.6

  /** The per-zone entry of `calculate_climate_requirements`. */
  datatype ZoneClimate = ZoneClimate(
    regime: TemperatureRegime,
    areaSqm: real,
    coolingPowerKw: real,
    equipmentCapex: real,
    annualMaintenanceOpex: real,
    annualElectricityOpex: real,
    totalAnnualOpex: real)

  /** Cooling power, equipment CAPEX, maintenance and electricity for one zone. */
  function ZoneClimateOf(regime: TemperatureRegime, area: real): (z: ZoneClimate)
    ensures z.regime == regime && z.areaSqm == area
    ensures z.totalAnnualOpex == z.annualMaintenanceOpex + z.annualElectricityOpex
    ensures z.annualMaintenanceOpex == 0.12 * z.equipmentCapex
    ensures area >= 0.0 ==> z.coolingPowerKw >= 0.0 && z.equipmentCapex >= 0.0 && z.totalAnnualOpex >= 0.0
  {
    var kw := area * CoolingPowerPerSqm(regime) / 1000.0;
    var capex := area * EquipmentCostPerSqm(regime);
    var maintenance := capex * AnnualMaintenanceRate;
    var electricity := kw * OperatingHoursPerYear * ElectricityCostRubPerKwh * LoadFactor;
    ZoneClimate(regime, area, kw, capex, maintenance, electricity, maintenance + electricity)
  }

  /** A cold-chain square metre costs more to equip and to run than a normal one. */
  lemma ColdChainCostsMore(area: real)
    requires area > 0.0
    ensures ZoneClimateOf(ColdChain, area).equipmentCapex > ZoneClimateOf(Normal, area).equipmentCapex
    ensures ZoneClimateOf(ColdChain, area).totalAnnualOpex > ZoneClimateOf(Normal, area).totalAnnualOpex
  {
  }

  datatype ClimateRequirements = ClimateRequirements(
    zones: seq<ZoneClimate>,
    totalCapex: real,
    totalAnnualOpex: real,
    totalCoolingPowerKw: real)

  function CapexSum(zs: seq<ZoneClimate>): real
  {
    if zs == [] then 0.0 else CapexSum(zs[..|zs| - 1]) + zs[|zs| - 1].equipmentCapex
  }

  function OpexSum(zs: seq<ZoneClimate>): real
  {
    if zs == [] then 0.0 else OpexSum(zs[..|zs| - 1]) + zs[|zs| - 1].totalAnnualOpex
  }

  function PowerSum(zs: seq<ZoneClimate>): real
  {
    if zs == [] then 0.0 else PowerSum(zs[..|zs| - 1]) + zs[|zs| - 1].coolingPowerKw
  }

  /** Zones of non-negative area give non-negative totals. */
  lemma {:induction false} ClimateSumsNonNegative(zs: seq<ZoneClimate>)
    requires forall i :: 0 <= i < |zs| ==> zs[i] == ZoneClimateOf(zs[i].regime, zs[i].areaSqm) && zs[i].areaSqm >= 0.0
    ensures CapexSum(zs) >= 0.0 && OpexSum(zs) >= 0.0 && PowerSum(zs) >= 0.0
  {
    if zs != [] {
      var init := zs[..|zs| - 1];
      assert forall i :: 0 <= i < |init| ==> init[i] == zs[i];
      ClimateSumsNonNegative(init);
    }
  }

  /**
   * `calculate_climate_requirements` over the `(regime, area)` pairs of a
   * dictionary (whose keys are therefore distinct): one zone entry per pair,
   * totals accumulated with `+=`.
   */
  method CalculateClimateRequirements(zoneAreas: seq<(TemperatureRegime, real)>) returns (req: ClimateRequirements)
    requires forall i, j :: 0 <= i < j < |zoneAreas| ==> zoneAreas[i].0 != zoneAreas[j].0
    ensures |req.zones| == |zoneAreas|
    ensures forall i :: 0 <= i < |zoneAreas| ==> req.zones[i] == ZoneClimateOf(zoneAreas[i].0, zoneAreas[i].1)
    ensures req.totalCapex == CapexSum(req.zones)
    ensures req.totalAnnualOpex == OpexSum(req.zones)
    ensures req.totalCoolingPowerKw == PowerSum(req.zones)
    ensures (forall i :: 0 <= i < |zoneAreas| ==> zoneAreas[i].1 >= 0.0) ==>
      req.totalCapex >= 0.0 && req.totalAnnualOpex >= 0.0 && req.totalCoolingPowerKw >= 0.0
  {
    var zones: seq<ZoneClimate> := [];
    var capex, opex, power := 0.0, 0.0, 0.0;
    var i := 0;
    while i < |zoneAreas|
      invariant 0 <= i <= |zoneAreas| && |zones| == i
      invariant forall k :: 0 <= k < i ==> zones[k] == ZoneClimateOf(zoneAreas[k].0, zoneAreas[k].1)
      invariant capex == CapexSum(zones) && opex == OpexSum(zones) && power == PowerSum(zones)
    {
      var z := ZoneClimateOf(zoneAreas[i].0, zoneAreas[i].1);
      assert (zones + [z])[..i] == zones;
      zones := zones + [z];
      capex := capex + z.equipmentCapex;
      opex := opex + z.totalAnnualOpex;
      power := power + z.coolingPowerKw;
      i := i + 1;
    }
    req := ClimateRequirements(zones, capex, opex, power);
    if forall k :: 0 <= k < |zoneAreas| ==> zoneAreas[k].1 >= 0.0 {
      ClimateSumsNonNegative(zones);
    }
  }

  /** The redundancy multipliers; an unknown level counts as `n+1`. */
  function RedundancyMultiplier(level: string): (m: real)
    ensures 1.5 <= m <= 2.0
    ensures level != "2n" && level != "n+2" ==> m == 1.5
  {
    if level == "2n" then 2.0 else if level == "n+2" then 1.7 else 1.5
  }

  datatype Redundancy = Redundancy(
    redundancyLevel: string,
    additionalCapex: real,
    additionalAnnualOpex: real,
    totalCapexWithRedundancy: real,
    totalOpexWithRedundancy: real)

  /** `calculate_redundancy_requirements`. */
  function CalculateRedundancy(req: ClimateRequirements, level: string): (r: Redundancy)
    ensures r.redundancyLevel == level
    ensures r.totalCapexWithRedundancy == req.totalCapex * RedundancyMultiplier(level)
    ensures r.totalOpexWithRedundancy == req.totalAnnualOpex * (1.0 + 0.3 * (RedundancyMultiplier(level) - 1.0))
    ensures req.totalCapex >= 0.0 ==>
      req.totalCapex * 0.5 <= r.additionalCapex <= req.totalCapex && r.totalCapexWithRedundancy >= req.totalCapex
    ensures req.totalAnnualOpex >= 0.0 ==>
      req.totalAnnualOpex * 0.15 <= r.additionalAnnualOpex <= req.totalAnnualOpex * 0.3
  {
    var m := RedundancyMultiplier(level);
    var capex := req.totalCapex * (m - 1.0);
    var opex := req.totalAnnualOpex * (m - 1.0) * 0.3;
    Redundancy(level, capex, opex, req.totalCapex + capex, req.totalAnnualOpex + opex)
  }

  /** An unknown level gives exactly the `n+1` figures. */
  lemma UnknownRedundancyIsNPlusOne(req: ClimateRequirements, level: string)
    requires level != "n+1" && level != "2n" && level != "n+2"
    ensures CalculateRedundancy(req, level) == CalculateRedundancy(req, "n+1").(redundancyLevel := level)
  {
  }
}
