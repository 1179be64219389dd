/**
 * The project-wide constants of config.py and the one staffing rule every
 * scenario runner shares: the operators left after attrition.
 */
module Config {
  import opened Numeric

  const InitialStaffCount: int := 100
  const OperatorSalaryRubMonth: real := 85000.0
  const TransportTariffRubPerKm: real := 13.4
  const MinAreaSqm: real := 17000.0
  const TargetAreaSqm: real := 17500.0
  const AnnualRentPerSqmRub: real := 7500.0
  const PurchaseBuildingCostRub: real := 1500000000.0
  const BaseEquipmentCapexRub: real := 350000000.0
  const MaintenanceCostOfOwnedBuildingRubYear: real := 50000000.0

  /** 15.0 minutes, in ticks of a hundredth of a minute. */
  const BaseOrderProcessingTicks: nat := 1500
  const TargetOrdersMonth: nat := 10000
  const SimulationWorkingDays: nat := 20
  const MinutesPerWorkingDay: nat := 480
  const TicksPerMinute: nat := 100

  /** A point as (latitude, longitude). */
  datatype Coord = Coord(lat: real, lon: real)

  const CurrentHub: Coord := Coord(55.858, 37.433)
  const AirportSvo: Coord := Coord(55.97, 37.41)
  const CfdHubsAvg: Coord := Coord(54.51, 36.26)
  const MoscowClientsAvg: Coord := Coord(55.75, 37.62)

  /** `math.floor(initial * (1 - attrition))`: the operators who stay after the move. */
  function StaffAfterAttrition(initial: int, attrition: real): int
  {
    Floor(initial as real * (1.0 - attrition))
  }

  /** More attrition never leaves more staff. */
  lemma StaffAfterAttritionMonotone(initial: nat, a1: real, a2: real)
    requires a1 <= a2
    ensures StaffAfterAttrition(initial, a2) <= StaffAfterAttrition(initial, a1)
  {
    assert initial as real * (1.0 - a2) <= initial as real * (1.0 - a1) by {
      assert initial as real * (a2 - a1) >= 0.0;
    }
  }

  /** Attrition in [0, 1] keeps the count between none and everybody. */
  lemma StaffAfterAttritionBounds(initial: nat, attrition: real)
    requires 0.0 <= attrition <= 1.0
    ensures 0 <= StaffAfterAttrition(initial, attrition) <= initial
  {
    assert 0.0 <= initial as real * (1.0 - attrition) <= initial as real by {
      assert initial as real * attrition >= 0.0;
    }
  }

  /** The two attrition rates the scenarios use: 25% leaves 75 of 100 operators, 15% leaves 85. */
  lemma ScenarioStaffCounts()
    ensures StaffAfterAttrition(InitialStaffCount, 0.25) == 75
    ensures StaffAfterAttrition(InitialStaffCount, 0.15) == 85
  {
  }
}
