/**
 * core/location.py: `WarehouseConfigurator`, the base CAPEX and OPEX of a
 * site from its ownership type, plus the yearly change in transport cost when
 * the hub moves there.  The road distance (haversine × 1.4) is a parameter
 * `dist`; every statement below holds for any distance function.
 */
module Location {
  import opened Numeric
  import Config

  datatype Ownership = Arenda | Pokupka

  /** The two ownership types the configurators accept; any other is a `ValueError`. */
  function ParseOwnership(s: string): (r: Result<Ownership, string>)
    ensures r == Ok(Arenda) <==> s == "ARENDA"
    ensures r == Ok(Pokupka) <==> s == "POKUPKA"
    ensures r.Err? <==> s != "ARENDA" && s != "POKUPKA"
  {
    if s == "ARENDA" then Ok(Arenda)
    else if s == "POKUPKA" then Ok(Pokupka)
    else Err("ValueError: ownership type must be ARENDA or POKUPKA")
  }

  datatype WarehouseConfigurator = WarehouseConfigurator(
    ownership: Ownership,
    rentRateSqmYear: real,
    purchaseCost: real,
    site: Config.Coord)

  /** The constructor: the ownership guard, then the fields as given. */
  function NewWarehouseConfigurator(ownershipType: string, rentRateSqmYear: real, purchaseCost: real, lat: real, lon: real)
    : (r: Result<WarehouseConfigurator, string>)
    ensures r.Err? <==> ownershipType != "ARENDA" && ownershipType != "POKUPKA"
    ensures r.Ok? ==> r.value.ownership == (if ownershipType == "ARENDA" then Arenda else Pokupka)
    ensures r.Ok? ==> r.value.rentRateSqmYear == rentRateSqmYear && r.value.purchaseCost == purchaseCost
    ensures r.Ok? ==> r.value.site == Config.Coord(lat, lon)
  {
    match ParseOwnership(ownershipType)
    case Err(e) => Err(e)
    case Ok(o) => Ok(WarehouseConfigurator(o, rentRateSqmYear, purchaseCost, Config.Coord(lat, lon)))
  }

  const RackingCapexRub: real := 50000000.0
  const ClimateCapexRub: real := 250000000.0
  const ConfiguredAreaSqm: real := 17000.0

  /** `calculate_fixed_capex`: racking plus climate equipment. */
  function FixedCapex(): (r: real)
    ensures r == 300000000.0
  {
    RackingCapexRub + ClimateCapexRub
  }

  /** `calculate_annual_opex`: rent of the 17000 m² for ARENDA, 15% of that rent for POKUPKA. */
  function AnnualOpex(w: WarehouseConfigurator): (r: real)
    ensures w.ownership.Arenda? ==> r == 17000.0 * w.rentRateSqmYear
    ensures w.ownership.Pokupka? ==> r == 0.15 * (17000.0 * w.rentRateSqmYear)
  {
    match w.ownership
    case Arenda => ConfiguredAreaSqm * w.rentRateSqmYear
    case Pokupka => (ConfiguredAreaSqm * w.rentRateSqmYear) * 0.15
  }

  /** The delivery points the transport change is averaged over. */
  const KeyPoints: seq<Config.Coord> := [Config.AirportSvo, Config.CfdHubsAvg, Config.MoscowClientsAvg]

  /** The distance from `from` to each point, summed. */
  function TotalDistance(from: Config.Coord, points: seq<Config.Coord>, dist: (Config.Coord, Config.Coord) -> real): real
  {
    if points == [] then 0.0
    else TotalDistance(from, points[..|points| - 1], dist) + dist(from, points[|points| - 1])
  }

  /** The sum over the points of (distance from `hub` − distance from the current hub). */
  function ExtraDistance(hub: Config.Coord, points: seq<Config.Coord>, dist: (Config.Coord, Config.Coord) -> real): real
  {
    if points == [] then 0.0
    else
      var p := points[|points| - 1];
      ExtraDistance(hub, points[..|points| - 1], dist) + (dist(hub, p) - dist(Config.CurrentHub, p))
  }

  /** The summed increase is the new hub's total distance minus the current hub's. */
  lemma {:induction false} ExtraDistanceIsDifference(hub: Config.Coord, points: seq<Config.Coord>, dist: (Config.Coord, Config.Coord) -> real)
    ensures ExtraDistance(hub, points, dist) == TotalDistance(hub, points, dist) - TotalDistance(Config.CurrentHub, points, dist)
  {
    if points != [] {
      ExtraDistanceIsDifference(hub, points[..|points| - 1], dist);
    }
  }

  /** A hub no nearer to any point than the current hub adds distance overall. */
  lemma {:induction false} ExtraDistanceNonNegative(hub: Config.Coord, points: seq<Config.Coord>, dist: (Config.Coord, Config.Coord) -> real)
    requires forall i :: 0 <= i < |points| ==> dist(hub, points[i]) >= dist(Config.CurrentHub, points[i])
    ensures ExtraDistance(hub, points, dist) >= 0.0
  {
    if points != [] {
      var init := points[..|points| - 1];
      assert forall i :: 0 <= i < |init| ==> init[i] == points[i];
      ExtraDistanceNonNegative(hub, init, dist);
    }
  }

  /** One trip per order: `TARGET_ORDERS_MONTH × 12` trips a year. */
  const AnnualTrips: real := (Config.TargetOrdersMonth * 12) as real

  /**
   * The yearly transport cost change of moving the hub to `site`: the mean
   * extra distance over the key points, times the yearly trips, times the tariff.
   */
  function TransportCostChange(site: Config.Coord, dist: (Config.Coord, Config.Coord) -> real): (r: real)
    ensures r == (TotalDistance(site, KeyPoints, dist) - TotalDistance(Config.CurrentHub, KeyPoints, dist)) * 536000.0
    ensures site == Config.CurrentHub ==> r == 0.0
  {
    ExtraDistanceIsDifference(site, KeyPoints, dist);
    ExtraDistance(site, KeyPoints, dist) / (|KeyPoints| as real) * AnnualTrips * Config.TransportTariffRubPerKm
  }

  /** A site no nearer than the current hub to any key point never lowers the transport cost. */
  lemma MovingFartherCostsMore(site: Config.Coord, dist: (Config.Coord, Config.Coord) -> real)
    requires forall i :: 0 <= i < |KeyPoints| ==> dist(site, KeyPoints[i]) >= dist(Config.CurrentHub, KeyPoints[i])
    ensures TransportCostChange(site, dist) >= 0.0
  {
    ExtraDistanceNonNegative(site, KeyPoints, dist);
  }

  /** `get_transport_cost_change_rub`: the loop over the key points. */
  method GetTransportCostChange(w: WarehouseConfigurator, dist: (Config.Coord, Config.Coord) -> real) returns (r: real)
    ensures r == TransportCostChange(w.site, dist)
  {
    var total := 0.0;
    for i := 0 to |KeyPoints|
      invariant total == ExtraDistance(w.site, KeyPoints[..i], dist)
    {
      var point := KeyPoints[i];
      var distOld := dist(Config.CurrentHub, point);
      var distNew := dist(w.site, point);
      assert KeyPoints[..i + 1][..i] == KeyPoints[..i];
      total := total + (distNew - distOld);
    }
    assert KeyPoints[..|KeyPoints|] == KeyPoints;
    var avg := total / (|KeyPoints| as real);
    var annualExtraKm := avg * AnnualTrips;
    r := annualExtraKm * Config.TransportTariffRubPerKm;
  }

  datatype BaseFinancials = BaseFinancials(baseCapex: real, baseOpex: real)

  /** `get_base_financials`: the purchase price joins the CAPEX only when buying; OPEX is building plus transport change. */
  method GetBaseFinancials(w: WarehouseConfigurator, dist: (Config.Coord, Config.Coord) -> real) returns (r: BaseFinancials)
    ensures r.baseCapex == 300000000.0 + (if w.ownership.Pokupka? then w.purchaseCost else 0.0)
    ensures r.baseOpex == AnnualOpex(w) + TransportCostChange(w.site, dist)
    ensures w.site == Config.CurrentHub ==> r.baseOpex == AnnualOpex(w)
  {
    var baseCapex := FixedCapex();
    var baseOpexLocation := AnnualOpex(w);
    if w.ownership.Pokupka? {
      baseCapex := baseCapex + w.purchaseCost;
    }
    var transport := GetTransportCostChange(w, dist);
    r := BaseFinancials(baseCapex, baseOpexLocation + transport);
  }
}
