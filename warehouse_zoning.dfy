/**
 * warehouse_zoning.py: the split of a warehouse floor into eleven functional
 * zones by fixed ratios, their places on a 140 m × 125 m plan, the racking,
 * picking and dock-door equipment they need, and the exported zone table.
 */
module Zoning {
  import opened Numeric
  import opened StorageConditions

  /** `(x, y, width, height)` on the plan, in metres. */
  datatype Position = Position(x: int, y: int, width: int, height: int)

  /** The keys of `self.zones`: `receiving`, `quarantine`, `storage_normal`, …, `office`. */
  datatype ZoneId = Receiving | Quarantine | StorageNormal | StorageCold | Controlled
                  | Picking | Dispatch | Crossdock | Returns | Technical | Office

  /** A `ZoneSpec` without its display texts (name, description, colour). */
  datatype ZoneSpec = ZoneSpec(areaSqm: real, temperatureRegime: Option<TemperatureRegime>, position: Option<Position>)

  /** The zone ids in the order `calculate_standard_zoning` writes them and the layout lists them. */
  const ZoneIds: seq<ZoneId> := [Receiving, Quarantine, StorageNormal, StorageCold, Controlled,
    Picking, Dispatch, Crossdock, Returns, Technical, Office]

  const AllZoneIds: set<ZoneId> := {Receiving, Quarantine, StorageNormal, StorageCold, Controlled,
    Picking, Dispatch, Crossdock, Returns, Technical, Office}

  lemma EveryZoneIdListed(id: ZoneId)
    ensures id in ZoneIds && id in AllZoneIds
  {
  }

  /** The share of the floor each zone receives; the two storage shares are the caller's. */
  function ZoneRatio(id: ZoneId, normalStorageRatio: real, coldChainRatio: real): real
  {
    match id
    case Receiving => 0.08
    case Quarantine => 0.05
    case StorageNormal => normalStorageRatio
    case StorageCold => coldChainRatio
    case Controlled => 0.03
    case Picking => 0.12
    case Dispatch => 0.06
    case Crossdock => 0.04
    case Returns => 0.02
    case Technical => 0.03
    case Office => 0.02
  }

  /** Cold storage is cold chain, the technical and office rooms have no regime, every other zone is normal. */
  function ZoneRegime(id: ZoneId): Option<TemperatureRegime>
  {
    match id
    case StorageCold => Some(ColdChain)
    case Technical => None
    case Office => None
    case _ => Some(Normal)
  }

  /** One zone of the standard plan: `total × ratio` m², its regime, no position yet. */
  function StandardZone(totalArea: real, normalStorageRatio: real, coldChainRatio: real, id: ZoneId): ZoneSpec
  {
    ZoneSpec(totalArea * ZoneRatio(id, normalStorageRatio, coldChainRatio), ZoneRegime(id), None)
  }

  /** The eleven zones of a floor of `totalArea` m², not yet placed on the plan. */
  function StandardZones(totalArea: real, normalStorageRatio: real, coldChainRatio: real): map<ZoneId, ZoneSpec>
  {
    map id | id in AllZoneIds :: StandardZone(totalArea, normalStorageRatio, coldChainRatio, id)
  }

  /** The standard plan has every zone id, each with its standard zone. */
  lemma StandardZoneAt(totalArea: real, n: real, c: real, id: ZoneId)
    ensures StandardZones(totalArea, n, c).Keys == AllZoneIds
    ensures id in StandardZones(totalArea, n, c) && StandardZones(totalArea, n, c)[id] == StandardZone(totalArea, n, c, id)
  {
    EveryZoneIdListed(id);
  }

  /** Each standard zone takes its share of the floor. */
  lemma StandardZoneArea(totalArea: real, n: real, c: real, id: ZoneId)
    ensures ZoneArea(StandardZones(totalArea, n, c), id) == totalArea * ZoneRatio(id, n, c)
  {
    StandardZoneAt(totalArea, n, c, id);
  }

  /** A zone's area, or 0 for a zone that is not there (the empty default `ZoneSpec`). */
  function ZoneArea(zones: map<ZoneId, ZoneSpec>, id: ZoneId): real
  {
    if id in zones then zones[id].areaSqm else 0.0
  }

  /** The floor the zones take up together. */
  function AllocatedArea(zones: map<ZoneId, ZoneSpec>): real
  {
    ZoneArea(zones, Receiving) + ZoneArea(zones, Quarantine) + ZoneArea(zones, StorageNormal) +
    ZoneArea(zones, StorageCold) + ZoneArea(zones, Controlled) + ZoneArea(zones, Picking) +
    ZoneArea(zones, Dispatch) + ZoneArea(zones, Crossdock) + ZoneArea(zones, Returns) +
    ZoneArea(zones, Technical) + ZoneArea(zones, Office)
  }

  /**
   * The zones cover `total × (0.45 + normal + cold)`: with the default
   * 0.65 and 0.30 that is 140 % of the floor, so the plan over-allocates it.
   */
  lemma ZoningAreaSum(totalArea: real, n: real, c: real)
    ensures AllocatedArea(StandardZones(totalArea, n, c)) == totalArea * (0.45 + n + c)
    ensures totalArea > 0.0 && n == 0.65 && c == 0.30 ==>
      AllocatedArea(StandardZones(totalArea, n, c)) == totalArea * 1.40 > totalArea
  {
    var z := StandardZones(totalArea, n, c);
    StandardZoneArea(totalArea, n, c, Receiving);
    StandardZoneArea(totalArea, n, c, Quarantine);
    StandardZoneArea(totalArea, n, c, StorageNormal);
    StandardZoneArea(totalArea, n, c, StorageCold);
    StandardZoneArea(totalArea, n, c, Controlled);
    StandardZoneArea(totalArea, n, c, Picking);
    StandardZoneArea(totalArea, n, c, Dispatch);
    StandardZoneArea(totalArea, n, c, Crossdock);
    StandardZoneArea(totalArea, n, c, Returns);
    StandardZoneArea(totalArea, n, c, Technical);
    StandardZoneArea(totalArea, n, c, Office);
    assert AllocatedArea(z) == totalArea * 0.08 + totalArea * 0.05 + totalArea * n + totalArea * c + totalArea * 0.03 +
      totalArea * 0.12 + totalArea * 0.06 + totalArea * 0.04 + totalArea * 0.02 + totalArea * 0.03 + totalArea * 0.02;
    assert AllocatedArea(z) == totalArea * 0.45 + totalArea * n + totalArea * c;
  }

  /** The ratio guard: the two storage shares may take at most 95 %. */
  predicate RatiosAccepted(normalStorageRatio: real, coldChainRatio: real)
  {
    normalStorageRatio + coldChainRatio <= 0.95
  }

  /** The place of each zone on the 140 m × 125 m plan of `calculate_positions_for_visualization`. */
  function LayoutOf(id: ZoneId): Position
  {
    match id
    case Receiving => Position(0, 100, 35, 25)
    case Quarantine => Position(35, 100, 25, 25)
    case StorageNormal => Position(0, 20, 90, 80)
    case StorageCold => Position(90, 50, 50, 50)
    case Controlled => Position(90, 100, 25, 25)
    case Picking => Position(0, 0, 90, 20)
    case Dispatch => Position(115, 100, 25, 25)
    case Crossdock => Position(60, 100, 30, 25)
    case Returns => Position(90, 0, 25, 20)
    case Technical => Position(115, 0, 25, 20)
    case Office => Position(90, 20, 50, 30)
  }

  predicate Disjoint(a: Position, b: Position)
  {
    a.x + a.width <= b.x || b.x + b.width <= a.x || a.y + a.height <= b.y || b.y + b.height <= a.y
  }

  function Area(p: Position): int
  {
    p.width * p.height
  }

  /**
   * The layout tiles the plan: every zone lies inside 140 × 125, no two zones
   * overlap, and their areas add up to the full 17 500 m².
   */
  lemma LayoutTilesThePlan()
    ensures forall id: ZoneId :: (0 <= LayoutOf(id).x && LayoutOf(id).x + LayoutOf(id).width <= 140 &&
      0 <= LayoutOf(id).y && LayoutOf(id).y + LayoutOf(id).height <= 125)
    ensures forall a: ZoneId, b: ZoneId :: a != b ==> Disjoint(LayoutOf(a), LayoutOf(b))
    ensures Area(LayoutOf(Receiving)) + Area(LayoutOf(Quarantine)) + Area(LayoutOf(StorageNormal)) +
      Area(LayoutOf(StorageCold)) + Area(LayoutOf(Controlled)) + Area(LayoutOf(Picking)) +
      Area(LayoutOf(Dispatch)) + Area(LayoutOf(Crossdock)) + Area(LayoutOf(Returns)) +
      Area(LayoutOf(Technical)) + Area(LayoutOf(Office)) == 140 * 125
  {
  }

  // ---------------------------------------------------------------------
  // Equipment
  // ---------------------------------------------------------------------

  const PalletRackCostPerSqm: real := 2500.0
  const ShelvingCostPerSqm: real := 3500.0
  const PickingEquipmentCost: real := 1500000.0
  const DockDoorCost: real := 500000.0

  /** The zones that get racking, in the order they are costed. */
  const RackedZoneIds: seq<ZoneId> := [StorageNormal, StorageCold, Controlled, Quarantine]

  datatype RackingEntry = RackingEntry(zoneId: ZoneId, palletRacking: bool, usableAreaSqm: real, capex: real)

  /** Racking for one zone: 80 % of its floor, pallet racks for storage and shelving elsewhere. */
  function RackingFor(id: ZoneId, area: real): (r: RackingEntry)
    ensures r.zoneId == id && r.usableAreaSqm == 0.8 * area
    ensures r.palletRacking <==> id == StorageNormal || id == StorageCold
    ensures r.capex == (if r.palletRacking then 2000.0 else 2800.0) * area
  {
    var usable := area * 0.8;
    if id == StorageNormal || id == StorageCold then RackingEntry(id, true, usable, usable * PalletRackCostPerSqm)
    else RackingEntry(id, false, usable, usable * ShelvingCostPerSqm)
  }

  /** The racking entries of the listed zones that exist, in list order. */
  function Racking(zones: map<ZoneId, ZoneSpec>, ids: seq<ZoneId>): seq<RackingEntry>
  {
    if ids == [] then []
    else
      var id := ids[|ids| - 1];
      Racking(zones, ids[..|ids| - 1]) + (if id in zones then [RackingFor(id, zones[id].areaSqm)] else [])
  }

  /** Racking one more zone id appends that zone's entry, if the zone exists. */
  lemma RackingStep(zones: map<ZoneId, ZoneSpec>, ids: seq<ZoneId>, i: nat)
    requires i < |ids|
    ensures Racking(zones, ids[..i + 1]) ==
      Racking(zones, ids[..i]) + (if ids[i] in zones then [RackingFor(ids[i], zones[ids[i]].areaSqm)] else [])
  {
    assert ids[..i + 1][..i] == ids[..i];
  }

  function RackingCapex(rs: seq<RackingEntry>): real
  {
    if rs == [] then 0.0 else RackingCapex(rs[..|rs| - 1]) + rs[|rs| - 1].capex
  }

  lemma RackingCapexAppend(rs: seq<RackingEntry>, e: RackingEntry)
    ensures RackingCapex(rs + [e]) == RackingCapex(rs) + e.capex
  {
    assert (rs + [e])[..|rs|] == rs;
  }

  /** One dock door per 1000 m² of the zone (`int(area / 2000 * 2)`), never fewer than four. */
  function DockCount(area: real): (n: int)
    ensures n >= 4
    ensures area >= 4000.0 ==> n as real <= area / 1000.0 < n as real + 1.0
    ensures area < 5000.0 ==> n == 4
  {
    Max(4, Trunc(area / 2000.0 * 2.0))
  }

  datatype Equipment = Equipment(
    racking: seq<RackingEntry>,
    pickingCapex: real,
    inboundDocks: int,
    outboundDocks: int,
    docksCapex: real,
    totalCapex: real)

  /** With all four racked zones present, there is one racking entry per zone, in costing order. */
  lemma RackingOfFullPlan(zones: map<ZoneId, ZoneSpec>)
    requires StorageNormal in zones && StorageCold in zones && Controlled in zones && Quarantine in zones
    ensures Racking(zones, RackedZoneIds) == [RackingFor(StorageNormal, zones[StorageNormal].areaSqm),
      RackingFor(StorageCold, zones[StorageCold].areaSqm), RackingFor(Controlled, zones[Controlled].areaSqm),
      RackingFor(Quarantine, zones[Quarantine].areaSqm)]
  {
    var ids := RackedZoneIds;
    assert ids[..1] == [StorageNormal] && ids[..2] == [StorageNormal, StorageCold];
    assert ids[..3] == [StorageNormal, StorageCold, Controlled] && ids[..4] == ids;
    assert ids[..1][..0] == [] && ids[..2][..1] == ids[..1] && ids[..3][..2] == ids[..2] && ids[..4][..3] == ids[..3];
    var e1 := RackingFor(StorageNormal, zones[StorageNormal].areaSqm);
    var e2 := RackingFor(StorageCold, zones[StorageCold].areaSqm);
    var e3 := RackingFor(Controlled, zones[Controlled].areaSqm);
    var e4 := RackingFor(Quarantine, zones[Quarantine].areaSqm);
    assert Racking(zones, ids[..1]) == [] + [e1] == [e1];
    assert Racking(zones, ids[..2]) == [e1] + [e2] == [e1, e2];
    assert Racking(zones, ids[..3]) == [e1, e2] + [e3] == [e1, e2, e3];
    assert Racking(zones, ids[..4]) == [e1, e2, e3] + [e4] == [e1, e2, e3, e4];
  }

  lemma RackingCapexOfFour(r1: RackingEntry, r2: RackingEntry, r3: RackingEntry, r4: RackingEntry)
    ensures RackingCapex([r1, r2, r3, r4]) == r1.capex + r2.capex + r3.capex + r4.capex
  {
    RackingCapexAppend([], r1);
    RackingCapexAppend([r1], r2);
    RackingCapexAppend([r1, r2], r3);
    RackingCapexAppend([r1, r2, r3], r4);
    assert [r1] + [r2] == [r1, r2] && [r1, r2] + [r3] == [r1, r2, r3] && [r1, r2, r3] + [r4] == [r1, r2, r3, r4];
  }

  /** The standard zones are racked in costing order, each on its share of the floor. */
  lemma StandardRacking(totalArea: real, n: real, c: real)
    ensures Racking(StandardZones(totalArea, n, c), RackedZoneIds) ==
      [RackingFor(StorageNormal, totalArea * n), RackingFor(StorageCold, totalArea * c),
       RackingFor(Controlled, totalArea * 0.03), RackingFor(Quarantine, totalArea * 0.05)]
  {
    var z := StandardZones(totalArea, n, c);
    StandardZoneAt(totalArea, n, c, StorageNormal);
    StandardZoneAt(totalArea, n, c, StorageCold);
    StandardZoneAt(totalArea, n, c, Controlled);
    StandardZoneAt(totalArea, n, c, Quarantine);
    assert z[StorageNormal].areaSqm == totalArea * n && z[StorageCold].areaSqm == totalArea * c;
    assert z[Controlled].areaSqm == totalArea * 0.03 && z[Quarantine].areaSqm == totalArea * 0.05;
    RackingOfFullPlan(z);
  }

  /**
   * The racking CAPEX of the standard zones: 2000 roubles per m² of the two
   * storage zones, and 2800 per m² of the controlled and quarantine zones,
   * which take 8 % of the floor (224 roubles per m² of floor).
   */
  lemma StandardRackingCapex(totalArea: real, n: real, c: real)
    ensures RackingCapex(Racking(StandardZones(totalArea, n, c), RackedZoneIds)) ==
      2000.0 * (totalArea * n) + 2000.0 * (totalArea * c) + 224.0 * totalArea
  {
    StandardRacking(totalArea, n, c);
    var r1 := RackingFor(StorageNormal, totalArea * n);
    var r2 := RackingFor(StorageCold, totalArea * c);
    var r3 := RackingFor(Controlled, totalArea * 0.03);
    var r4 := RackingFor(Quarantine, totalArea * 0.05);
    RackingCapexOfFour(r1, r2, r3, r4);
    assert r3.capex == 84.0 * totalArea && r4.capex == 140.0 * totalArea;
  }

  /** On a standard plan below 62 500 m² both dock counts sit at the floor of four doors. */
  lemma StandardPlanDocks(totalArea: real, n: real, c: real)
    requires 0.0 <= totalArea < 62500.0
    ensures DockCount(ZoneArea(StandardZones(totalArea, n, c), Receiving)) == 4
    ensures DockCount(ZoneArea(StandardZones(totalArea, n, c), Dispatch)) == 4
  {
    StandardZoneAt(totalArea, n, c, Receiving);
    StandardZoneAt(totalArea, n, c, Dispatch);
  }

  /** The floor plan: the zones written so far, keyed by id. */
  class WarehouseZoning {
    const totalArea: real
    const locationName: string
    var zones: map<ZoneId, ZoneSpec>

    /** Zones are only ever written by the standard zoning, all eleven at once. */
    ghost predicate Valid()
      reads this
    {
      zones == map[] || zones.Keys == AllZoneIds
    }

    constructor (totalArea: real, locationName: string)
      ensures Valid() && this.totalArea == totalArea && this.locationName == locationName && zones == map[]
    {
      this.totalArea := totalArea;
      this.locationName := locationName;
      zones := map[];
    }

    /**
     * `calculate_standard_zoning`: a rejected ratio pair raises before any
     * zone is written; otherwise all eleven zones are (re)written, without
     * positions, and the table is returned.
     */
    method CalculateStandardZoning(normalStorageRatio: real, coldChainRatio: real)
      returns (r: Result<map<ZoneId, ZoneSpec>, string>)
      requires Valid()
      modifies this
      ensures Valid()
      ensures r.Err? <==> !RatiosAccepted(normalStorageRatio, coldChainRatio)
      ensures r.Err? ==> zones == old(zones)
      ensures r.Ok? ==> zones == StandardZones(totalArea, normalStorageRatio, coldChainRatio) && r.value == zones
    {
      if normalStorageRatio + coldChainRatio > 0.95 {
        return Err("storage shares must not exceed 95%");
      }
      zones := zones + StandardZones(totalArea, normalStorageRatio, coldChainRatio);
      r := Ok(zones);
    }

    /** `calculate_positions_for_visualization`: zones that exist get their place on the plan; nothing else changes. */
    method CalculatePositionsForVisualization()
      requires Valid()
      modifies this
      ensures Valid()
      ensures zones.Keys == old(zones).Keys
      ensures forall id :: id in zones ==> zones[id] == old(zones)[id].(position := Some(LayoutOf(id)))
    {
      var i := 0;
      while i < |ZoneIds|
        invariant 0 <= i <= |ZoneIds|
        invariant zones.Keys == old(zones).Keys
        invariant forall id :: id in zones ==>
          zones[id] == old(zones)[id].(position := if id in ZoneIds[..i] then Some(LayoutOf(id)) else old(zones)[id].position)
      {
        var id := ZoneIds[i];
        assert ZoneIds[..i + 1] == ZoneIds[..i] + [id];
        if id in zones {
          zones := zones[id := zones[id].(position := Some(LayoutOf(id)))];
        }
        i := i + 1;
      }
      assert ZoneIds[..|ZoneIds|] == ZoneIds;
      forall id | id in zones
        ensures id in ZoneIds
      {
        EveryZoneIdListed(id);
      }
    }

    /**
     * `calculate_equipment_requirements`: racking for the storage, controlled
     * and quarantine zones, the picking kit, and dock doors sized on the
     * receiving and dispatch areas.  Reads the zones, changes nothing.
     */
    method CalculateEquipmentRequirements() returns (eq: Equipment)
      ensures eq.racking == Racking(zones, RackedZoneIds)
      ensures eq.pickingCapex == 1500000.0
      ensures eq.inboundDocks == DockCount(ZoneArea(zones, Receiving)) >= 4
      ensures eq.outboundDocks == DockCount(ZoneArea(zones, Dispatch)) >= 4
      ensures eq.docksCapex == (eq.inboundDocks + eq.outboundDocks) as real * 500000.0
      ensures eq.totalCapex == RackingCapex(eq.racking) + eq.pickingCapex + eq.docksCapex
    {
      var racking, total := RackingAndCapex(zones);
      total := total + PickingEquipmentCost;
      var inbound := DockCount(ZoneArea(zones, Receiving));
      var outbound := DockCount(ZoneArea(zones, Dispatch));
      var docks := (inbound + outbound) as real * DockDoorCost;
      total := total + docks;
      eq := Equipment(racking, PickingEquipmentCost, inbound, outbound, docks, total);
    }
  }

  /** The racking loop of `calculate_equipment_requirements`, with its running CAPEX. */
  method RackingAndCapex(zones: map<ZoneId, ZoneSpec>) returns (racking: seq<RackingEntry>, total: real)
    ensures racking == Racking(zones, RackedZoneIds) && total == RackingCapex(racking)
  {
    racking, total := [], 0.0;
    var i := 0;
    while i < |RackedZoneIds|
      invariant 0 <= i <= |RackedZoneIds|
      invariant racking == Racking(zones, RackedZoneIds[..i])
      invariant total == RackingCapex(racking)
    {
      var id := RackedZoneIds[i];
      RackingStep(zones, RackedZoneIds, i);
      if id in zones {
        var entry := RackingFor(id, zones[id].areaSqm);
        RackingCapexAppend(racking, entry);
        racking := racking + [entry];
        total := total + entry.capex;
      }
      i := i + 1;
    }
    assert RackedZoneIds[..|RackedZoneIds|] == RackedZoneIds;
  }

  /** One zone of `export_zoning_data`. */
  datatype ZoneExport = ZoneExport(areaSqm: real, share: real, temperatureRegime: Option<TemperatureRegime>)

  datatype ZoningExport = ZoningExport(locationName: string, totalArea: real, zones: map<ZoneId, ZoneExport>)

  /**
   * `export_zoning_data` of a floor plan: every zone with its share of the
   * floor.  A floor of zero area with zones on it divides by zero.
   */
  method ExportZoningData(z: WarehouseZoning) returns (r: Result<ZoningExport, string>)
    ensures r.Err? <==> z.totalArea == 0.0 && z.zones != map[]
    ensures r.Ok? ==> r.value.locationName == z.locationName && r.value.totalArea == z.totalArea
    ensures r.Ok? ==> r.value.zones.Keys == z.zones.Keys
    ensures r.Ok? ==> forall id :: id in z.zones ==>
      r.value.zones[id].areaSqm == z.zones[id].areaSqm &&
      r.value.zones[id].share * z.totalArea == z.zones[id].areaSqm &&
      r.value.zones[id].temperatureRegime == z.zones[id].temperatureRegime
  {
    var zones := z.zones;
    if z.totalArea == 0.0 && zones != map[] {
      return Err("division by zero");
    }
    var out: map<ZoneId, ZoneExport> := map[];
    var rest := zones.Keys;
    while rest != {}
      invariant rest <= zones.Keys
      invariant out.Keys == zones.Keys - rest
      invariant forall id :: id in out ==>
        out[id].areaSqm == zones[id].areaSqm && out[id].share * z.totalArea == zones[id].areaSqm &&
        out[id].temperatureRegime == zones[id].temperatureRegime
      decreases rest
    {
      var id :| id in rest;
      var zone := zones[id];
      out := out[id := ZoneExport(zone.areaSqm, zone.areaSqm / z.totalArea, zone.temperatureRegime)];
      rest := rest - {id};
    }
    r := Ok(ZoningExport(z.locationName, z.totalArea, out));
  }
}
