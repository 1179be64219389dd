/**
 * analysis.py: the site filter and scoring of candidate warehouses (the
 * stub parser and the scraper differ only in the modification surcharge),
 * and the `FleetOptimizer` formulas for the CFO fleet, the annual transport
 * bill and the one-off cost of moving the stock.  Routing (OSRM, geocoding,
 * the great-circle fallback) is a function parameter.
 */
module Analysis {
  import opened Numeric
  import Config
  import Transport

  /** One entry of the candidate dictionary, in its iteration order. */
  datatype Candidate = Candidate(
    name: string,
    lat: real,
    lon: real,
    locationType: string,
    areaOfferedSqm: real,
    costMetricBase: real,
    currentClass: string)

  datatype ScoredLocation = ScoredLocation(
    locationName: string,
    lat: real,
    lon: real,
    locationType: string,
    areaOfferedSqm: real,
    annualBuildingOpex: real,
    totalInitialCapex: real,
    currentClass: string)

  const RequiredTotalArea: real := 17000.0
  const CapexFixedEquipment: real := 50000000.0
  const CapexGppGdpClimate: real := 250000000.0
  /** `AvitoParserStub.CAPEX_MODIFICATION_IF_NEEDED`. */
  const StubModificationCapex: real := 100000000.0
  /** `AvitoCIANScraper.CAPEX_MODIFICATION_IF_NEEDED`. */
  const ScraperModificationCapex: real := 50000000.0
  const NotionalRentRate: real := 7000.0

  /**
   * The record of a site that passed the area filter: racking and climate
   * CAPEX, the class-A surcharge, the building price for a purchase or
   * build-to-suit, and the building OPEX of its ownership type.
   */
  function Score(c: Candidate, modificationCapex: real): (s: ScoredLocation)
    ensures s.locationName == c.name && s.lat == c.lat && s.lon == c.lon && s.locationType == c.locationType
    ensures s.areaOfferedSqm == c.areaOfferedSqm && s.currentClass == c.currentClass
    ensures s.totalInitialCapex == 300000000.0 + (if c.currentClass == "A_requires_mod" then modificationCapex else 0.0) +
                                   (if c.locationType == "POKUPKA_BTS" then c.costMetricBase else 0.0)
    ensures c.locationType == "ARENDA" ==> s.annualBuildingOpex == c.costMetricBase * c.areaOfferedSqm
    ensures c.locationType == "POKUPKA_BTS" ==> s.annualBuildingOpex == 350.0 * c.areaOfferedSqm
    ensures c.locationType != "ARENDA" && c.locationType != "POKUPKA_BTS" ==> s.annualBuildingOpex == 0.0
  {
    var base := CapexFixedEquipment + CapexGppGdpClimate;
    var capex := if c.currentClass == "A_requires_mod" then base + modificationCapex else base;
    var opexAndCapex :=
      if c.locationType == "ARENDA" then (c.costMetricBase * c.areaOfferedSqm, capex)
      else if c.locationType == "POKUPKA_BTS" then ((NotionalRentRate * c.areaOfferedSqm) * 0.05, capex + c.costMetricBase)
      else (0.0, capex);
    ScoredLocation(c.name, c.lat, c.lon, c.locationType, c.areaOfferedSqm, opexAndCapex.0, opexAndCapex.1, c.currentClass)
  }

  /** The records of the sites of at least 17 000 m², in input order. */
  function ScoredSites(cs: seq<Candidate>, modificationCapex: real): seq<ScoredLocation>
  {
    if cs == [] then []
    else
      var last := cs[|cs| - 1];
      ScoredSites(cs[..|cs| - 1], modificationCapex) +
      (if last.areaOfferedSqm < RequiredTotalArea then [] else [Score(last, modificationCapex)])
  }

  /** Every record is a large enough site, and every large enough site has its record. */
  lemma {:induction false} ScoredSitesAreTheLargeOnes(cs: seq<Candidate>, modificationCapex: real)
    ensures |ScoredSites(cs, modificationCapex)| <= |cs|
    ensures forall s :: s in ScoredSites(cs, modificationCapex) ==> s.areaOfferedSqm >= RequiredTotalArea
    ensures forall i :: 0 <= i < |cs| && cs[i].areaOfferedSqm >= RequiredTotalArea ==>
      Score(cs[i], modificationCapex) in ScoredSites(cs, modificationCapex)
  {
    if cs != [] {
      var init := cs[..|cs| - 1];
      ScoredSitesAreTheLargeOnes(init, modificationCapex);
      assert forall i :: 0 <= i < |init| ==> init[i] == cs[i];
    }
  }

  /** Filtering keeps order: the records of a concatenation are the records of each part in turn. */
  lemma {:induction false} ScoredSitesConcat(a: seq<Candidate>, b: seq<Candidate>, modificationCapex: real)
    ensures ScoredSites(a + b, modificationCapex) == ScoredSites(a, modificationCapex) + ScoredSites(b, modificationCapex)
    decreases |b|
  {
    if b == [] {
      assert a + b == a;
    } else {
      ScoredSitesConcat(a, b[..|b| - 1], modificationCapex);
      assert (a + b)[..|a + b| - 1] == a + b[..|b| - 1];
    }
  }

  /** The loop both filters share: skip small sites, score the rest. */
  method FilterAndScore(cs: seq<Candidate>, modificationCapex: real) returns (scored: seq<ScoredLocation>)
    ensures scored == ScoredSites(cs, modificationCapex)
  {
    scored := [];
    var i := 0;
    while i < |cs|
      invariant 0 <= i <= |cs|
      invariant scored == ScoredSites(cs[..i], modificationCapex)
    {
      assert cs[..i + 1][..i] == cs[..i];
      if cs[i].areaOfferedSqm >= RequiredTotalArea {
        scored := scored + [Score(cs[i], modificationCapex)];
      }
      i := i + 1;
    }
    assert cs[..i] == cs;
  }

  /** `AvitoParserStub.filter_and_score_locations`. */
  method FilterAndScoreLocations(cs: seq<Candidate>) returns (scored: seq<ScoredLocation>)
    ensures scored == ScoredSites(cs, StubModificationCapex)
  {
    scored := FilterAndScore(cs, StubModificationCapex);
  }

  /** `AvitoCIANScraper.parse_and_filter_offers`. */
  method ParseAndFilterOffers(cs: seq<Candidate>) returns (scored: seq<ScoredLocation>)
    ensures scored == ScoredSites(cs, ScraperModificationCapex)
  {
    scored := FilterAndScore(cs, ScraperModificationCapex);
  }

  /** The two filters agree except that the scraper charges 50M less for a class-A modification. */
  lemma StubAndScraperDiffer(c: Candidate)
    ensures Score(c, StubModificationCapex).annualBuildingOpex == Score(c, ScraperModificationCapex).annualBuildingOpex
    ensures Score(c, StubModificationCapex).totalInitialCapex - Score(c, ScraperModificationCapex).totalInitialCapex ==
      (if c.currentClass == "A_requires_mod" then 50000000.0 else 0.0)
  {
  }

  // ---------------------------------------------------------------------
  // FleetOptimizer
  // ---------------------------------------------------------------------

  const MonthlyOrders: real := 10000.0
  const CfoOwnFleetShare: real := 0.46
  const AirDeliveryShare: real := 0.25
  const LocalDeliveryShare: real := 0.29
  const CfoTripsPerWeekPerTruck: real := 2.0
  const OwnFleetTariffRubKm: real := 13.4
  const LocalFleetTariffRubKm: real := 11.2

  /** The CFO orders per week, each order its own trip. */
  function CfoOrdersPerWeek(): real
  {
    MonthlyOrders * CfoOwnFleetShare / 4.33
  }

  /** `calculate_required_fleet`: the fewest heavy trucks that run one trip per CFO order at two trips a week. */
  function RequiredFleet(): (n: int)
    ensures Transport.FewestToHold(n, CfoTripsPerWeekPerTruck, CfoOrdersPerWeek())
  {
    Transport.CeilIsFewest(CfoOrdersPerWeek(), CfoTripsPerWeekPerTruck);
    Ceil(CfoOrdersPerWeek() / CfoTripsPerWeekPerTruck)
  }

  /**
   * Counting one trip per order needs 532 heavy trucks, where the detailed
   * planner, filling each truck with 33 pallets, needs 17.
   */
  lemma RequiredFleetVersusPlanner()
    ensures RequiredFleet() == 532
    ensures Transport.CfoFleet(Transport.TargetOrdersMonth, 0.0).requiredCount == 17
  {
    Transport.ConfiguredFleetSizes(Transport.Distances(0.0, 0.0, 0.0));
  }

  /**
   * `calculate_annual_transport_cost`: a year of orders, each flow's share
   * times its distance times its tariff.  Per kilometre of average distance
   * that is 739 680 rubles for the CFO, 402 000 for SVO and 389 760 for the
   * local flow.
   */
  function AnnualTransportCost(dCfo: real, dSvo: real, dLocal: real): (r: real)
    ensures r == 739680.0 * dCfo + 402000.0 * dSvo + 389760.0 * dLocal
  {
    var annualOrders := MonthlyOrders * 12.0;
    var costCfo := (annualOrders * CfoOwnFleetShare) * dCfo * OwnFleetTariffRubKm;
    var costSvo := (annualOrders * AirDeliveryShare) * dSvo * OwnFleetTariffRubKm;
    var costLocal := (annualOrders * LocalDeliveryShare) * dLocal * LocalFleetTariffRubKm;
    costCfo + costSvo + costLocal
  }

  /** The bill adds over distances and is zero when every distance is zero. */
  lemma AnnualTransportCostLinear(a: (real, real, real), b: (real, real, real))
    ensures AnnualTransportCost(a.0 + b.0, a.1 + b.1, a.2 + b.2) ==
      AnnualTransportCost(a.0, a.1, a.2) + AnnualTransportCost(b.0, b.1, b.2)
    ensures AnnualTransportCost(0.0, 0.0, 0.0) == 0.0
  {
  }

  /** What the router reports for one flow's destination. */
  datatype RouteDetails = RouteDetails(distanceKm: real, travelTimeH: real)

  /** `calculate_weighted_annual_distance`'s per-flow entries. */
  datatype FlowRoutes = FlowRoutes(cfo: RouteDetails, svo: RouteDetails, lpu: RouteDetails)

  datatype FleetAndCost = FleetAndCost(
    totalAnnualTransportCost: real,
    costCfo: real,
    costSvo: real,
    costLocal: real,
    heavyTrucks: int,
    lightTrucks: int,
    distances: Transport.Distances)

  /**
   * `calculate_optimal_fleet_and_cost`: the router's distances for the site,
   * the bill split by flow, and the heavy and light truck counts.
   */
  function OptimalFleetAndCost(site: Config.Coord, weightedRoutes: Config.Coord -> FlowRoutes): (r: FleetAndCost)
    ensures r.distances == Transport.Distances(weightedRoutes(site).cfo.distanceKm, weightedRoutes(site).svo.distanceKm,
                                               weightedRoutes(site).lpu.distanceKm)
    ensures r.totalAnnualTransportCost == r.costCfo + r.costSvo + r.costLocal
    ensures r.totalAnnualTransportCost == AnnualTransportCost(r.distances.cfoKm, r.distances.svoKm, r.distances.localKm)
    ensures r.heavyTrucks == RequiredFleet()
    ensures r.lightTrucks == Transport.LocalFleet(Transport.TargetOrdersMonth, r.distances.localKm).requiredCount
  {
    var routes := weightedRoutes(site);
    var dCfo, dSvo, dLpu := routes.cfo.distanceKm, routes.svo.distanceKm, routes.lpu.distanceKm;
    var annualOrders := MonthlyOrders * 12.0;
    var costCfo := (annualOrders * CfoOwnFleetShare) * dCfo * OwnFleetTariffRubKm;
    var costSvo := (annualOrders * AirDeliveryShare) * dSvo * OwnFleetTariffRubKm;
    var costLocal := (annualOrders * LocalDeliveryShare) * dLpu * LocalFleetTariffRubKm;
    var heavy := Ceil(CfoOrdersPerWeek() / CfoTripsPerWeekPerTruck);
    var light := Ceil((MonthlyOrders * LocalDeliveryShare) / 22.0 / 7.0);
    assert (MonthlyOrders * LocalDeliveryShare) / 22.0 == Transport.LocalOrdersPerDay(Transport.TargetOrdersMonth);
    FleetAndCost(costCfo + costSvo + costLocal, costCfo, costSvo, costLocal, heavy, light,
                 Transport.Distances(dCfo, dSvo, dLpu))
  }

  /** `OSRMGeoRouter.CURRENT_HUB_COORDS`, which differs from `config.CURRENT_HUB_COORDS` in the third decimals. */
  const RouterCurrentHub: Config.Coord := Config.Coord(55.857, 37.436)

  const HiredTransportTariffRubH: real := 2500.0
  const LoadingUnloadingTimeH: real := 4.0

  datatype RelocationCapex = RelocationCapex(
    transportCapexRub: real,
    distanceKm: real,
    estimatedTrips: int,
    totalTimeHours: real,
    tariffRubPerHour: real)

  /**
   * `calculate_relocation_capex`: 40% of the warehouse floor moved at 100 m²
   * a truck, each trip a round trip plus four hours of handling, paid by the
   * hour.
   */
  function CalculateRelocationCapex(site: Config.Coord, route: (Config.Coord, Config.Coord) -> RouteDetails,
                                    warehouseAreaSqm: real): (r: RelocationCapex)
    ensures Transport.FewestToHold(r.estimatedTrips, 100.0, warehouseAreaSqm * 0.4)
    ensures r.distanceKm == route(RouterCurrentHub, site).distanceKm
    ensures r.totalTimeHours == r.estimatedTrips as real * (2.0 * route(RouterCurrentHub, site).travelTimeH + 4.0)
    ensures r.transportCapexRub == r.totalTimeHours * 2500.0 && r.tariffRubPerHour == 2500.0
  {
    var details := route(RouterCurrentHub, site);
    var tripTime := details.travelTimeH * 2.0 + LoadingUnloadingTimeH;
    Transport.CeilIsFewest(warehouseAreaSqm * 0.4, 100.0);
    var trips := Ceil((warehouseAreaSqm * 0.4) / 100.0);
    var totalTime := trips as real * tripTime;
    RelocationCapex(totalTime * HiredTransportTariffRubH, details.distanceKm, trips, totalTime, HiredTransportTariffRubH)
  }

  /**
   * For the configured 17 000 m² warehouse the move takes 68 trips and costs
   * 340 000 rubles per hour of one-way travel plus 680 000 for handling.
   */
  lemma ConfiguredRelocation(site: Config.Coord, route: (Config.Coord, Config.Coord) -> RouteDetails)
    ensures CalculateRelocationCapex(site, route, 17000.0).estimatedTrips == 68
    ensures CalculateRelocationCapex(site, route, 17000.0).transportCapexRub ==
      340000.0 * route(RouterCurrentHub, site).travelTimeH + 680000.0
  {
    var r := CalculateRelocationCapex(site, route, 17000.0);
    assert r.estimatedTrips == 68;
  }
}
