/**
 * transport_planner.py: the four delivery flows (long-haul CFO trucks,
 * local city deliveries, air-cargo runs to SVO, the cold chain), each sized
 * by rounding the flow's pallets up to whole trips and trips up to whole
 * trucks; the fleet totals with the lease-or-buy recommendation; the dock
 * counts the peak traffic needs; and the dock utilisation check.
 */
module Transport {
  import opened Numeric

  datatype VehicleType = VehicleType(
    name: string,
    capacityPallets: int,
    capacityKg: int,
    fuelLitresPer100Km: real,
    maintenanceRubPerKm: real,
    driverRubPerTrip: real,
    driverRubPerDay: real,
    purchaseCostRub: int,
    leaseRubPerMonth: int,
    insuranceRubPerYear: int,
    isRefrigerated: bool,
    temperatureControlRubPerHour: real)

  const HeavyTruck: VehicleType :=
    VehicleType("Грузовик 18-20т (тентованный)", 33, 20000, 28.0, 8.5, 15000.0, 0.0, 4500000, 180000, 120000, false, 0.0)
  const MediumTruck: VehicleType :=
    VehicleType("Грузовик 5т (городской)", 8, 5000, 18.0, 5.2, 0.0, 4500.0, 2800000, 95000, 65000, false, 0.0)
  const RefrigeratedTruck: VehicleType :=
    VehicleType("Рефрижератор 15т (2-8°C)", 24, 15000, 32.0, 12.0, 18000.0, 5500.0, 6500000, 260000, 180000, true, 450.0)

  const CfoOwnFleetShare: real := 0.46
  const AirDeliveryShare: real := 0.25
  const LocalDeliveryShare: real := 0.29
  const ColdChainShare: real := 0.17
  const AvgOrderPallets: real := 1.0
  const WeeksPerMonth: real := 4.33
  const WorkingDaysPerMonth: real := 22.0
  const WorkingDaysPerYear: int := 264
  const DieselRubPerLitre: real := 56.0
  const LoadingHoursPerTruck: real := 1.5
  const UnloadingHoursPerTruck: real := 2.0
  const BufferCoefficient: real := 1.3

  /** `config.TARGET_ORDERS_MONTH`, which the planner reads at construction. */
  const TargetOrdersMonth: real := 10000.0

  datatype FleetKind = CfoHeavy | LocalMedium | SvoMedium | ColdChainRefrigerated

  /** The `costs` entry; only the cold-chain fleet has a refrigeration line. */
  datatype FleetCosts = FleetCosts(
    fuel: real,
    maintenance: real,
    driverSalaries: real,
    insurance: real,
    refrigeration: Option<real>,
    totalOpex: real)

  datatype Fleet = Fleet(
    kind: FleetKind,
    requiredCount: int,
    annualTrips: int,
    annualDistanceKm: real,
    avgDistancePerTripKm: real,
    costs: FleetCosts,
    capexPurchase: int,
    opexLease: int)

  /** The one-way average distances of the three destinations. */
  datatype Distances = Distances(cfoKm: real, svoKm: real, localKm: real)

  /** The fleet's running cost is the sum of its cost lines. */
  predicate CostsAddUp(c: FleetCosts)
  {
    c.totalOpex == c.fuel + c.maintenance + c.driverSalaries + c.insurance +
                   (if c.refrigeration.Some? then c.refrigeration.value else 0.0)
  }

  /** Buying costs the vehicle price per truck; leasing twelve monthly payments per truck. */
  predicate PricedAs(f: Fleet, v: VehicleType)
  {
    f.capexPurchase == f.requiredCount * v.purchaseCostRub &&
    f.opexLease == f.requiredCount * v.leaseRubPerMonth * 12 &&
    f.costs.insurance == (f.requiredCount * v.insuranceRubPerYear) as real &&
    f.costs.fuel == f.annualDistanceKm / 100.0 * v.fuelLitresPer100Km * DieselRubPerLitre &&
    f.costs.maintenance == f.annualDistanceKm * v.maintenanceRubPerKm
  }

  /** `count` units of size `unit` are the fewest that hold `load`. */
  predicate FewestToHold(count: int, unit: real, load: real)
  {
    (count - 1) as real * unit < load <= count as real * unit
  }

  lemma CeilIsFewest(load: real, unit: real)
    requires unit > 0.0
    ensures FewestToHold(Ceil(load / unit), unit, load)
  {
    var c := Ceil(load / unit);
    assert load / unit <= c as real < load / unit + 1.0;
    assert (load / unit) * unit == load;
  }

  function FleetOf(kind: FleetKind, v: VehicleType, trucks: int, annualTrips: int, distanceKm: real, avgKm: real,
                   drivers: real, refrigeration: Option<real>): (f: Fleet)
    ensures f.kind == kind && f.requiredCount == trucks && f.annualTrips == annualTrips
    ensures f.annualDistanceKm == distanceKm && f.avgDistancePerTripKm == avgKm
    ensures f.costs.driverSalaries == drivers && f.costs.refrigeration == refrigeration
    ensures CostsAddUp(f.costs) && PricedAs(f, v)
  {
    var fuel := distanceKm / 100.0 * v.fuelLitresPer100Km * DieselRubPerLitre;
    var maintenance := distanceKm * v.maintenanceRubPerKm;
    var insurance := (trucks * v.insuranceRubPerYear) as real;
    var total := fuel + maintenance + drivers + insurance + (if refrigeration.Some? then refrigeration.value else 0.0);
    Fleet(kind, trucks, annualTrips, distanceKm, avgKm, FleetCosts(fuel, maintenance, drivers, insurance, refrigeration, total),
          trucks * v.purchaseCostRub, trucks * v.leaseRubPerMonth * 12)
  }

  /** The CFO flow's pallets per week. */
  function CfoPalletsPerWeek(monthlyOrders: real): real
  {
    monthlyOrders * CfoOwnFleetShare / WeeksPerMonth * AvgOrderPallets
  }

  /** The fewest 33-pallet trips a week that carry the CFO flow. */
  function CfoTripsPerWeek(monthlyOrders: real): (n: int)
    ensures FewestToHold(n, 33.0, CfoPalletsPerWeek(monthlyOrders))
  {
    CeilIsFewest(CfoPalletsPerWeek(monthlyOrders), 33.0);
    Ceil(CfoPalletsPerWeek(monthlyOrders) / HeavyTruck.capacityPallets as real)
  }

  /**
   * `_calculate_cfo_fleet`: the fewest 33-pallet trips a week that carry the
   * flow, the fewest trucks at two trips a week each, 52 weeks of round trips.
   */
  function CfoFleet(monthlyOrders: real, avgDistanceKm: real): (f: Fleet)
    ensures f.kind == CfoHeavy && f.annualTrips == CfoTripsPerWeek(monthlyOrders) * 52
    ensures FewestToHold(f.requiredCount, 2.0, CfoTripsPerWeek(monthlyOrders) as real)
    ensures f.annualDistanceKm == f.annualTrips as real * avgDistanceKm * 2.0
    ensures f.costs.driverSalaries == f.annualTrips as real * 15000.0
    ensures f.costs.refrigeration == None && CostsAddUp(f.costs) && PricedAs(f, HeavyTruck)
  {
    var v := HeavyTruck;
    var tripsPerWeek := CfoTripsPerWeek(monthlyOrders);
    var trucks := Ceil(tripsPerWeek as real / 2.0);
    CeilIsFewest(tripsPerWeek as real, 2.0);
    var annualTrips := tripsPerWeek * 52;
    var distance := annualTrips as real * avgDistanceKm * 2.0;
    FleetOf(CfoHeavy, v, trucks, annualTrips, distance, avgDistanceKm, annualTrips as real * v.driverRubPerTrip, None)
  }

  /** The local flow's orders per working day. */
  function LocalOrdersPerDay(monthlyOrders: real): real
  {
    monthlyOrders * LocalDeliveryShare / WorkingDaysPerMonth
  }

  /**
   * `_calculate_local_fleet`: the fewest trucks at seven drops a day, each
   * driving the average distance on every one of the 264 working days.
   */
  function LocalFleet(monthlyOrders: real, avgDistanceKm: real): (f: Fleet)
    ensures f.kind == LocalMedium
    ensures FewestToHold(f.requiredCount, 7.0, LocalOrdersPerDay(monthlyOrders))
    ensures f.annualTrips == WorkingDaysPerYear * f.requiredCount
    ensures f.annualDistanceKm == (f.requiredCount * WorkingDaysPerYear) as real * avgDistanceKm
    ensures f.costs.driverSalaries == (f.requiredCount as real * 4500.0) * 264.0
    ensures f.costs.refrigeration == None && CostsAddUp(f.costs) && PricedAs(f, MediumTruck)
  {
    var v := MediumTruck;
    var trucks := Ceil(LocalOrdersPerDay(monthlyOrders) / 7.0);
    CeilIsFewest(LocalOrdersPerDay(monthlyOrders), 7.0);
    var distance := (trucks * WorkingDaysPerYear) as real * avgDistanceKm;
    FleetOf(LocalMedium, v, trucks, WorkingDaysPerYear * trucks, distance, avgDistanceKm,
            (trucks as real * v.driverRubPerDay) * WorkingDaysPerYear as real, None)
  }

  /** The air-cargo flow's pallets per working day. */
  function SvoPalletsPerDay(monthlyOrders: real): real
  {
    monthlyOrders * AirDeliveryShare / WorkingDaysPerMonth * AvgOrderPallets
  }

  /** The fewest 8-pallet trips a day that carry the air-cargo flow. */
  function SvoTripsPerDay(monthlyOrders: real): (n: int)
    ensures FewestToHold(n, 8.0, SvoPalletsPerDay(monthlyOrders))
  {
    CeilIsFewest(SvoPalletsPerDay(monthlyOrders), 8.0);
    Ceil(SvoPalletsPerDay(monthlyOrders) / MediumTruck.capacityPallets as real)
  }

  /**
   * `_calculate_svo_fleet`: the fewest 8-pallet trips a day, the fewest trucks
   * at two trips a day each, 264 days of round trips.
   */
  function SvoFleet(monthlyOrders: real, avgDistanceKm: real): (f: Fleet)
    ensures f.kind == SvoMedium && f.annualTrips == SvoTripsPerDay(monthlyOrders) * WorkingDaysPerYear
    ensures FewestToHold(f.requiredCount, 2.0, SvoTripsPerDay(monthlyOrders) as real)
    ensures f.annualDistanceKm == f.annualTrips as real * avgDistanceKm * 2.0
    ensures f.costs.driverSalaries == (f.requiredCount as real * 4500.0) * 264.0
    ensures f.costs.refrigeration == None && CostsAddUp(f.costs) && PricedAs(f, MediumTruck)
  {
    var v := MediumTruck;
    var tripsPerDay := SvoTripsPerDay(monthlyOrders);
    var trucks := Ceil(tripsPerDay as real / 2.0);
    CeilIsFewest(tripsPerDay as real, 2.0);
    var annualTrips := tripsPerDay * WorkingDaysPerYear;
    var distance := annualTrips as real * avgDistanceKm * 2.0;
    FleetOf(SvoMedium, v, trucks, annualTrips, distance, avgDistanceKm,
            (trucks as real * v.driverRubPerDay) * WorkingDaysPerYear as real, None)
  }

  /** The cold orders per month, split over the three flows and added back up. */
  function ColdOrdersPerMonth(monthlyOrders: real): (r: real)
    ensures r == monthlyOrders * ColdChainShare
  {
    var cold := monthlyOrders * ColdChainShare;
    cold * CfoOwnFleetShare + cold * LocalDeliveryShare + cold * AirDeliveryShare
  }

  /** The fewest 24-pallet trips a month that carry every cold order. */
  function ColdTripsPerMonth(monthlyOrders: real): (n: int)
    ensures FewestToHold(n, 24.0, monthlyOrders * ColdChainShare)
  {
    CeilIsFewest(ColdOrdersPerMonth(monthlyOrders), 24.0);
    Ceil(ColdOrdersPerMonth(monthlyOrders) / RefrigeratedTruck.capacityPallets as real)
  }

  /** The flow-weighted one-way distance. */
  function WeightedDistance(d: Distances): real
  {
    d.cfoKm * CfoOwnFleetShare + d.localKm * LocalDeliveryShare + d.svoKm * AirDeliveryShare
  }

  /**
   * `_calculate_cold_chain_fleet`: the fewest 24-pallet trips a month for all
   * cold orders, the fewest refrigerated trucks at two trips a week, twelve
   * months of round trips at the weighted distance, and the refrigeration unit
   * running for the whole trip at 50 km/h.
   */
  function ColdChainFleet(monthlyOrders: real, d: Distances): (f: Fleet)
    ensures f.kind == ColdChainRefrigerated && f.annualTrips == ColdTripsPerMonth(monthlyOrders) * 12
    ensures FewestToHold(f.requiredCount, 2.0, ColdTripsPerMonth(monthlyOrders) as real / WeeksPerMonth)
    ensures f.avgDistancePerTripKm == WeightedDistance(d)
    ensures f.annualDistanceKm == f.annualTrips as real * WeightedDistance(d) * 2.0
    ensures f.costs.driverSalaries == f.annualTrips as real * 18000.0
    ensures f.costs.refrigeration == Some(f.annualTrips as real * (WeightedDistance(d) * 2.0 / 50.0) * 450.0)
    ensures CostsAddUp(f.costs) && PricedAs(f, RefrigeratedTruck)
  {
    var v := RefrigeratedTruck;
    var tripsPerMonth := ColdTripsPerMonth(monthlyOrders);
    var tripsPerWeek := tripsPerMonth as real / WeeksPerMonth;
    var trucks := Ceil(tripsPerWeek / 2.0);
    CeilIsFewest(tripsPerWeek, 2.0);
    var avg := WeightedDistance(d);
    var annualTrips := tripsPerMonth * 12;
    var distance := annualTrips as real * avg * 2.0;
    var refrigerationHours := annualTrips as real * (avg * 2.0 / 50.0);
    FleetOf(ColdChainRefrigerated, v, trucks, annualTrips, distance, avg, annualTrips as real * v.driverRubPerTrip,
            Some(refrigerationHours * v.temperatureControlRubPerHour))
  }

  // ---------------------------------------------------------------------
  // Fleet totals
  // ---------------------------------------------------------------------

  datatype Recommendation = Lease | Purchase

  datatype FleetSummary = FleetSummary(
    totalVehicles: int,
    fleetBreakdown: seq<Fleet>,
    totalOpexOwnFleet: real,
    totalCapexPurchase: int,
    totalOpexLease: int,
    recommendation: Recommendation)

  function Vehicles(fs: seq<Fleet>): int
  {
    if fs == [] then 0 else Vehicles(fs[..|fs| - 1]) + fs[|fs| - 1].requiredCount
  }

  function OwnOpex(fs: seq<Fleet>): real
  {
    if fs == [] then 0.0 else OwnOpex(fs[..|fs| - 1]) + fs[|fs| - 1].costs.totalOpex
  }

  function PurchaseCapex(fs: seq<Fleet>): int
  {
    if fs == [] then 0 else PurchaseCapex(fs[..|fs| - 1]) + fs[|fs| - 1].capexPurchase
  }

  function LeaseOpex(fs: seq<Fleet>): int
  {
    if fs == [] then 0 else LeaseOpex(fs[..|fs| - 1]) + fs[|fs| - 1].opexLease
  }

  /**
   * `_aggregate_fleet_costs`: the four totals over the fleets, and leasing
   * recommended exactly when a year of lease payments costs less than a year
   * of running the owned fleet plus a fifth of its purchase price.
   */
  function AggregateFleetCosts(fs: seq<Fleet>): (s: FleetSummary)
    ensures s.fleetBreakdown == fs
    ensures s.totalVehicles == Vehicles(fs) && s.totalOpexOwnFleet == OwnOpex(fs)
    ensures s.totalCapexPurchase == PurchaseCapex(fs) && s.totalOpexLease == LeaseOpex(fs)
    ensures s.recommendation == Lease <==>
      s.totalOpexLease as real < s.totalOpexOwnFleet + s.totalCapexPurchase as real / 5.0
  {
    var lease, own, capex := LeaseOpex(fs), OwnOpex(fs), PurchaseCapex(fs);
    FleetSummary(Vehicles(fs), fs, own, capex, lease,
                 if lease as real < own + capex as real / 5.0 then Lease else Purchase)
  }

  /** Over five years: lease is recommended exactly when five years of leasing cost less than buying and running the fleet for five years. */
  lemma LeaseIffCheaperOverFiveYears(fs: seq<Fleet>)
    ensures AggregateFleetCosts(fs).recommendation == Lease <==>
      (5 * LeaseOpex(fs)) as real < 5.0 * OwnOpex(fs) + PurchaseCapex(fs) as real
  {
  }

  lemma {:induction false} TotalsAppend(fs: seq<Fleet>, f: Fleet)
    ensures Vehicles(fs + [f]) == Vehicles(fs) + f.requiredCount
    ensures OwnOpex(fs + [f]) == OwnOpex(fs) + f.costs.totalOpex
    ensures PurchaseCapex(fs + [f]) == PurchaseCapex(fs) + f.capexPurchase
    ensures LeaseOpex(fs + [f]) == LeaseOpex(fs) + f.opexLease
  {
    assert (fs + [f])[..|fs|] == fs;
  }

  /** `calculate_fleet_requirements`: the four flows, aggregated in the order CFO, local, SVO, cold chain. */
  function FleetRequirements(monthlyOrders: real, d: Distances): (s: FleetSummary)
    ensures |s.fleetBreakdown| == 4
    ensures s.fleetBreakdown[0].kind == CfoHeavy && s.fleetBreakdown[1].kind == LocalMedium
    ensures s.fleetBreakdown[2].kind == SvoMedium && s.fleetBreakdown[3].kind == ColdChainRefrigerated
    ensures s.totalVehicles == s.fleetBreakdown[0].requiredCount + s.fleetBreakdown[1].requiredCount +
                               s.fleetBreakdown[2].requiredCount + s.fleetBreakdown[3].requiredCount
    ensures s.totalCapexPurchase == s.fleetBreakdown[0].capexPurchase + s.fleetBreakdown[1].capexPurchase +
                                    s.fleetBreakdown[2].capexPurchase + s.fleetBreakdown[3].capexPurchase
  {
    var fs := [CfoFleet(monthlyOrders, d.cfoKm), LocalFleet(monthlyOrders, d.localKm),
               SvoFleet(monthlyOrders, d.svoKm), ColdChainFleet(monthlyOrders, d)];
    TotalsAppend([], fs[0]);
    assert [fs[0]] + [fs[1]] == fs[..2];
    TotalsAppend([fs[0]], fs[1]);
    TotalsAppend(fs[..2], fs[2]);
    assert fs[..2] + [fs[2]] == fs[..3];
    TotalsAppend(fs[..3], fs[3]);
    assert fs[..3] + [fs[3]] == fs;
    AggregateFleetCosts(fs)
  }

  /**
   * With the configured 10 000 orders a month: 33 CFO trips a week on 17
   * heavy trucks, 19 local trucks, 15 SVO trips a day on 8 trucks, and 71
   * cold-chain trips a month on 9 refrigerated trucks.
   */
  lemma ConfiguredFleetSizes(d: Distances)
    ensures CfoFleet(TargetOrdersMonth, d.cfoKm).annualTrips == 33 * 52
    ensures CfoFleet(TargetOrdersMonth, d.cfoKm).requiredCount == 17
    ensures LocalFleet(TargetOrdersMonth, d.localKm).requiredCount == 19
    ensures SvoFleet(TargetOrdersMonth, d.svoKm).annualTrips == 15 * 264
    ensures SvoFleet(TargetOrdersMonth, d.svoKm).requiredCount == 8
    ensures ColdChainFleet(TargetOrdersMonth, d).annualTrips == 71 * 12
    ensures ColdChainFleet(TargetOrdersMonth, d).requiredCount == 9
  {
  }

  // ---------------------------------------------------------------------
  // Docks
  // ---------------------------------------------------------------------

  datatype DockPlan = DockPlan(
    inboundDocks: int,
    outboundDocks: int,
    totalDocks: int,
    avgTripsPerDay: real,
    peakTripsPerDay: real,
    dockUtilizationPercent: real)

  function AnnualTrips(fs: seq<Fleet>): int
  {
    if fs == [] then 0 else AnnualTrips(fs[..|fs| - 1]) + fs[|fs| - 1].annualTrips
  }

  const MinInboundDocks: int := 4
  const MinOutboundDocks: int := 4

  /**
   * `calculate_dock_requirements`: the peak is the average daily trips plus
   * 30%; 40% of it is unloaded (2 h a truck) and 60% loaded (1.5 h a truck)
   * over 24 hours; each side gets the docks those hours need, at least four.
   */
  function DockRequirements(s: FleetSummary): (p: DockPlan)
    ensures p.avgTripsPerDay == AnnualTrips(s.fleetBreakdown) as real / 264.0
    ensures p.peakTripsPerDay == p.avgTripsPerDay * BufferCoefficient
    ensures p.inboundDocks >= MinInboundDocks && p.outboundDocks >= MinOutboundDocks
    ensures p.totalDocks == p.inboundDocks + p.outboundDocks
    ensures p.peakTripsPerDay * 0.4 * UnloadingHoursPerTruck <= p.inboundDocks as real * 24.0
    ensures p.peakTripsPerDay * 0.6 * LoadingHoursPerTruck <= p.outboundDocks as real * 24.0
    ensures p.inboundDocks > MinInboundDocks ==>
      FewestToHold(p.inboundDocks, 24.0, p.peakTripsPerDay * 0.4 * UnloadingHoursPerTruck)
    ensures p.outboundDocks > MinOutboundDocks ==>
      FewestToHold(p.outboundDocks, 24.0, p.peakTripsPerDay * 0.6 * LoadingHoursPerTruck)
    ensures p.dockUtilizationPercent * (24.0 * p.totalDocks as real) == p.peakTripsPerDay * LoadingHoursPerTruck * 100.0
  {
    var avg := AnnualTrips(s.fleetBreakdown) as real / WorkingDaysPerYear as real;
    var peak := avg * BufferCoefficient;
    var inboundHours := peak * 0.4 * UnloadingHoursPerTruck;
    var outboundHours := peak * 0.6 * LoadingHoursPerTruck;
    CeilIsFewest(inboundHours, 24.0);
    CeilIsFewest(outboundHours, 24.0);
    var inbound := Max(Ceil(inboundHours / 24.0), MinInboundDocks);
    var outbound := Max(Ceil(outboundHours / 24.0), MinOutboundDocks);
    var total := inbound + outbound;
    var utilisation := (peak * LoadingHoursPerTruck) / (24.0 * total as real) * 100.0;
    assert (peak * LoadingHoursPerTruck) / (24.0 * total as real) * (24.0 * total as real) == peak * LoadingHoursPerTruck;
    DockPlan(inbound, outbound, total, avg, peak, utilisation)
  }

  lemma {:induction false} AnnualTripsOfFour(fs: seq<Fleet>)
    requires |fs| == 4
    ensures AnnualTrips(fs) == fs[0].annualTrips + fs[1].annualTrips + fs[2].annualTrips + fs[3].annualTrips
  {
    assert fs[..3][..2] == fs[..2] && fs[..2][..1] == fs[..1] && fs[..1][..0] == [];
    assert AnnualTrips(fs[..1]) == fs[0].annualTrips;
    assert AnnualTrips(fs[..2]) == fs[0].annualTrips + fs[1].annualTrips;
    assert AnnualTrips(fs[..3]) == fs[0].annualTrips + fs[1].annualTrips + fs[2].annualTrips;
  }

  /**
   * With the configured 10 000 orders a month the fleets make 11 544 trips a
   * year, a peak of about 57 a day, which the four-dock minimum covers on
   * both sides: eight docks in all.
   */
  lemma ConfiguredDockPlan(d: Distances)
    ensures AnnualTrips(FleetRequirements(TargetOrdersMonth, d).fleetBreakdown) == 11544
    ensures DockRequirements(FleetRequirements(TargetOrdersMonth, d)).inboundDocks == 4
    ensures DockRequirements(FleetRequirements(TargetOrdersMonth, d)).outboundDocks == 4
    ensures DockRequirements(FleetRequirements(TargetOrdersMonth, d)).totalDocks == 8
  {
    var s := FleetRequirements(TargetOrdersMonth, d);
    ConfiguredFleetSizes(d);
    AnnualTripsOfFour(s.fleetBreakdown);
    assert s.fleetBreakdown == [CfoFleet(TargetOrdersMonth, d.cfoKm), LocalFleet(TargetOrdersMonth, d.localKm),
                                SvoFleet(TargetOrdersMonth, d.svoKm), ColdChainFleet(TargetOrdersMonth, d)];
  }

  /** `DockSimulator(inbound_docks, outbound_docks)`. */
  datatype DockSimulator = DockSimulator(inboundDocks: int, outboundDocks: int)

  datatype Bottleneck = Inbound | Outbound

  datatype DockMetrics = DockMetrics(
    inboundUtilizationPercent: real,
    outboundUtilizationPercent: real,
    bottleneck: Bottleneck,
    isSufficient: bool)

  /**
   * `simulate_dock_operations`: each side's share of the trips against what
   * its docks handle in 24 hours (12 unloadings, 16 loadings a dock).  A side
   * with no docks divides by zero.
   */
  function SimulateDockOperations(sim: DockSimulator, tripsPerDay: real): (r: Result<DockMetrics, string>)
    ensures r.Err? <==> sim.inboundDocks == 0 || sim.outboundDocks == 0
    ensures r.Ok? ==> r.value.inboundUtilizationPercent * (sim.inboundDocks as real * 12.0) == tripsPerDay * 0.4 * 100.0
    ensures r.Ok? ==> r.value.outboundUtilizationPercent * (sim.outboundDocks as real * 16.0) == tripsPerDay * 0.6 * 100.0
    ensures r.Ok? ==> (r.value.bottleneck == Inbound <==>
      r.value.inboundUtilizationPercent > r.value.outboundUtilizationPercent)
    ensures r.Ok? ==> (r.value.isSufficient <==>
      r.value.inboundUtilizationPercent < 85.0 && r.value.outboundUtilizationPercent < 85.0)
  {
    var inboundTrips := tripsPerDay * 0.4;
    var outboundTrips := tripsPerDay * 0.6;
    var inboundCapacity := sim.inboundDocks as real * (24.0 / 2.0);
    var outboundCapacity := sim.outboundDocks as real * (24.0 / 1.5);
    if inboundCapacity == 0.0 || outboundCapacity == 0.0 then Err("division by zero")
    else
      var inU := inboundTrips / inboundCapacity * 100.0;
      var outU := outboundTrips / outboundCapacity * 100.0;
      assert inboundTrips / inboundCapacity * inboundCapacity == inboundTrips;
      assert outboundTrips / outboundCapacity * outboundCapacity == outboundTrips;
      Ok(DockMetrics(inU, outU, if inU > outU then Inbound else Outbound, inU < 85.0 && outU < 85.0))
  }

  lemma UtilisationAtMostFull(u: real, docks: real, load: real)
    requires docks > 0.0 && u * docks == load * 100.0 && load <= docks
    ensures u <= 100.0
  {
    assert (u - 100.0) * docks <= 0.0;
  }

  /** A plan whose docks cover the peak's loading and unloading hours is at most fully used at that peak. */
  lemma CoveredPeakAtMostFull(p: DockPlan)
    requires p.inboundDocks >= MinInboundDocks && p.outboundDocks >= MinOutboundDocks
    requires p.peakTripsPerDay * 0.4 * UnloadingHoursPerTruck <= p.inboundDocks as real * 24.0
    requires p.peakTripsPerDay * 0.6 * LoadingHoursPerTruck <= p.outboundDocks as real * 24.0
    ensures var r := SimulateDockOperations(DockSimulator(p.inboundDocks, p.outboundDocks), p.peakTripsPerDay);
      r.Ok? && r.value.inboundUtilizationPercent <= 100.0 && r.value.outboundUtilizationPercent <= 100.0
  {
    var r := SimulateDockOperations(DockSimulator(p.inboundDocks, p.outboundDocks), p.peakTripsPerDay);
    assert r.Ok?;
    UtilisationAtMostFull(r.value.inboundUtilizationPercent, p.inboundDocks as real * 12.0, p.peakTripsPerDay * 0.4);
    UtilisationAtMostFull(r.value.outboundUtilizationPercent, p.outboundDocks as real * 16.0, p.peakTripsPerDay * 0.6);
  }

  /**
   * The docks `calculate_dock_requirements` sizes are never more than fully
   * used at the peak traffic they were sized for.
   */
  lemma PlannedDocksCarryThePeak(s: FleetSummary)
    ensures var p := DockRequirements(s);
      var r := SimulateDockOperations(DockSimulator(p.inboundDocks, p.outboundDocks), p.peakTripsPerDay);
      r.Ok? && r.value.inboundUtilizationPercent <= 100.0 && r.value.outboundUtilizationPercent <= 100.0
  {
    CoveredPeakAtMostFull(DockRequirements(s));
  }
}
