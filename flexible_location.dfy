/**
 * flexible_location_model.py: the full finance profile of a candidate site,
 * meaning the ownership cost, the initial CAPEX, and the transport change
 * averaged over eight medical institutions (LPU) in Moscow plus Sheremetyevo.
 * The road distance is the parameter `dist`, as in `Location`.
 */
module FlexibleLocation {
  import opened Numeric
  import Config
  import Location

  const RentRateRubSqmYear: real := 7500.0
  const PokupkaBuildingCostRub: real := 1500000000.0
  const CapexBaseShelvingValidationRub: real := 350000000.0
  const OpexMaintenanceBaseRubYear: real := 50000000.0
  const DefaultAreaSqm: int := 17000

  const SheremetyevoCoords: Config.Coord := Config.Coord(55.97, 37.41)
  const MoscowLpuPoints: seq<Config.Coord> := [
    Config.Coord(55.75, 37.61), Config.Coord(55.79, 37.53), Config.Coord(55.67, 37.48), Config.Coord(55.65, 37.76),
    Config.Coord(55.87, 37.66), Config.Coord(55.83, 37.44), Config.Coord(55.73, 37.79), Config.Coord(55.60, 37.57)]

  /** The eight LPU points followed by Sheremetyevo. */
  const KeyPoints: seq<Config.Coord> := MoscowLpuPoints + [SheremetyevoCoords]

  const AnnualOrdersCount: real := 120000.0

  datatype DistanceMetrics = DistanceMetrics(avgExtraDistancePerTripKm: real, totalAnnualExtraKm: real)

  /** The mean extra distance over the nine points, and that mean times one trip per order for a year. */
  function DistancesOf(newHub: Config.Coord, dist: (Config.Coord, Config.Coord) -> real): (m: DistanceMetrics)
    ensures 9.0 * m.avgExtraDistancePerTripKm ==
      Location.TotalDistance(newHub, KeyPoints, dist) - Location.TotalDistance(Config.CurrentHub, KeyPoints, dist)
    ensures m.totalAnnualExtraKm == m.avgExtraDistancePerTripKm * 120000.0
    ensures newHub == Config.CurrentHub ==> m.avgExtraDistancePerTripKm == 0.0 && m.totalAnnualExtraKm == 0.0
  {
    Location.ExtraDistanceIsDifference(newHub, KeyPoints, dist);
    var avg := Location.ExtraDistance(newHub, KeyPoints, dist) / (|KeyPoints| as real);
    DistanceMetrics(avg, avg * AnnualOrdersCount)
  }

  /** `YandexGeoAnalyzer.calculate_distances`: the loop over the nine points. */
  method CalculateDistances(newHub: Config.Coord, dist: (Config.Coord, Config.Coord) -> real) returns (m: DistanceMetrics)
    ensures m == DistancesOf(newHub, dist)
  {
    var total := 0.0;
    for i := 0 to |KeyPoints|
      invariant total == Location.ExtraDistance(newHub, KeyPoints[..i], dist)
    {
      var point := KeyPoints[i];
      var distOld := dist(Config.CurrentHub, point);
      var distNew := dist(newHub, point);
      assert KeyPoints[..i + 1][..i] == KeyPoints[..i];
      total := total + (distNew - distOld);
    }
    assert KeyPoints[..|KeyPoints|] == KeyPoints;
    var avg := total / (|KeyPoints| as real);
    m := DistanceMetrics(avg, avg * AnnualOrdersCount);
  }

  datatype LocationParameters = LocationParameters(
    locationName: string,
    site: Config.Coord,
    ownershipType: string,
    areaSqm: int)

  datatype FinanceProfile = FinanceProfile(
    locationName: string,
    ownershipType: string,
    coordinates: Config.Coord,
    initialCapexRub: real,
    annualLocationCostRub: real,
    annualTransportCostChangeRub: int,
    avgExtraDistancePerTripKm: real)

  /**
   * `LocationParameters.calculate_full_finance_profile`.  Renting costs the
   * area at 7500 a year; buying adds 1.5 billion to the 350M CAPEX and costs
   * 50M a year; any other ownership is a `ValueError`.  The transport change
   * is rounded to whole roubles, the mean distance to hundredths of a km.
   */
  function CalculateFullFinanceProfile(p: LocationParameters, dist: (Config.Coord, Config.Coord) -> real)
    : (r: Result<FinanceProfile, string>)
    ensures r.Err? <==> p.ownershipType != "ARENDA" && p.ownershipType != "POKUPKA"
    ensures r.Ok? && p.ownershipType == "ARENDA" ==>
      r.value.initialCapexRub == 350000000.0 && r.value.annualLocationCostRub == p.areaSqm as real * 7500.0
    ensures r.Ok? && p.ownershipType == "POKUPKA" ==>
      r.value.initialCapexRub == 1850000000.0 && r.value.annualLocationCostRub == 50000000.0
    ensures r.Ok? ==> (r.value.locationName, r.value.ownershipType, r.value.coordinates) == (p.locationName, p.ownershipType, p.site)
    ensures r.Ok? ==> var exact := (Location.TotalDistance(p.site, KeyPoints, dist) - Location.TotalDistance(Config.CurrentHub, KeyPoints, dist)) / 9.0;
      exact * 1608000.0 - 0.5 <= r.value.annualTransportCostChangeRub as real <= exact * 1608000.0 + 0.5 &&
      exact - 0.005 <= r.value.avgExtraDistancePerTripKm <= exact + 0.005
    ensures r.Ok? && p.site == Config.CurrentHub ==>
      r.value.annualTransportCostChangeRub == 0 && r.value.avgExtraDistancePerTripKm == 0.0
  {
    if p.ownershipType != "ARENDA" && p.ownershipType != "POKUPKA" then Err("ValueError: unknown ownership type")
    else
      var baseCapex := CapexBaseShelvingValidationRub + (if p.ownershipType == "POKUPKA" then PokupkaBuildingCostRub else 0.0);
      var annualLocationCost := if p.ownershipType == "ARENDA" then p.areaSqm as real * RentRateRubSqmYear else OpexMaintenanceBaseRubYear;
      var metrics := DistancesOf(p.site, dist);
      var increase := metrics.totalAnnualExtraKm * Config.TransportTariffRubPerKm;
      Ok(FinanceProfile(p.locationName, p.ownershipType, p.site, baseCapex, annualLocationCost,
                        RoundHalfEven(increase), Round2(metrics.avgExtraDistancePerTripKm)))
  }

  /**
   * At the default 17000 m², the profile of buying a site (1.85 billion, then
   * 50M a year) comes out cheaper to hold than that of renting it (350M, then
   * 127.5M a year) exactly from the twentieth year on: the 1.5 billion takes
   * 19.4 years of saved rent to recover.
   */
  lemma PurchasePaysOffFromYearTwenty(p: LocationParameters, dist: (Config.Coord, Config.Coord) -> real, years: nat)
    requires p.areaSqm == DefaultAreaSqm
    ensures var rent := CalculateFullFinanceProfile(p.(ownershipType := "ARENDA"), dist).value;
      var buy := CalculateFullFinanceProfile(p.(ownershipType := "POKUPKA"), dist).value;
      buy.initialCapexRub + years as real * buy.annualLocationCostRub < rent.initialCapexRub + years as real * rent.annualLocationCostRub
      <==> years >= 20
  {
    var rent := CalculateFullFinanceProfile(p.(ownershipType := "ARENDA"), dist).value;
    var buy := CalculateFullFinanceProfile(p.(ownershipType := "POKUPKA"), dist).value;
    assert (rent.initialCapexRub + years as real * rent.annualLocationCostRub) - (buy.initialCapexRub + years as real * buy.annualLocationCostRub)
      == years as real * 77500000.0 - 1500000000.0;
    if years >= 20 {
      assert years as real * 77500000.0 >= 20.0 * 77500000.0;
    } else {
      assert years as real * 77500000.0 <= 19.0 * 77500000.0;
    }
  }
}
