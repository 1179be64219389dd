# Warehouse relocation analysis — a Dafny model

The system weighs moving a pharmaceutical distribution warehouse out of its
current Moscow hub. It asks which candidate site to take, whether to rent or
buy it, how to zone and equip the building, which trucks and docks it needs,
and how much automation pays for the operators lost in the move. This project
models the computing core of that system:

- **Order-flow simulations.** Four SimPy models (`WarehouseSimulator`,
  `DynamicWarehouseSim`, `WarehouseModel`, `WarehouseSim`) push a stream of
  orders through a pool of operators. Here they share one engine, the class
  `OrderFlow.OrderEngine`, over an operator pool `Resources.OperatorPool`
  (the FIFO `simpy.Resource`) and a statistics collector `Stats.StatsCollector`.
  Time is counted in integer ticks of 1/100 minute, so the 0.96-minute arrival
  interval and the 15-minute service time (divided by the efficiency) are exact.
- **Scenario runners.** `SimulationRunner` and `run_all_scenarios_for_location`
  price the four relocation scenarios and their automation payback.
  `FlexsimBridge` turns a scenario into a FlexSim configuration.
- **Site economics.** `WarehouseConfigurator` and `LocationParameters` give a
  site's CAPEX, OPEX and yearly transport cost change. The analysis module
  filters and scores offers, sizes the trunk fleet and prices the move itself.
- **Warehouse design.** `WarehouseZoning` covers zones, layout and equipment.
  `StorageConditionManager` covers storage regimes, the SKU split, climate
  equipment and redundancy. `TransportPlanner` covers fleets and docks.
  `AutomationScenarioBuilder` covers automation levels and their ROI.
- **Validation.** `ModelValidator` runs checks against the business
  requirements.

Distances are parameters of the functions that use them, as are the routing
services and the site's base financials. Every statement about them therefore
holds for any distance function.

The code is inconsistent with itself in a few places; the model follows each
file as written:
- `simulation_model.py` imports names `config.py` does not define, so those
  values are parameters (`SimulationModel.Settings`).
- The scenario efficiencies of `main_simulation_runner.py` (1.2, 1.5) differ
  from those of `scenarios.py` (1.25, 2.0). Each runner keeps its own.
- `simulation_runner.py:8` imports `LocationAnalyzer` from `core/location.py`,
  which does not define it; the runner takes the site's base financials as a
  parameter instead.
- The ROI stub in `analysis.py` adds a 100M modification CAPEX, while the
  scraper adds 50M.

## Model

| member | source | states |
|---|---|---|
| `Numeric.Floor` | simulation_model.py:29 | `math.floor`: the greatest integer not above x |
| `Numeric.Ceil` | transport_planner.py:161 | `math.ceil`: the least integer not below x |
| `Numeric.Trunc` | simulation_runner.py:70-73 | `int()` on a float truncates toward zero, for both signs |
| `Numeric.RoundHalfEven` | flexible_location_model.py:141 | `round(x)`: within 1/2 of x, and even on a tie |
| `Numeric.Round2` | core/simulation_engine.py:74 | `round(x, 2)` lies within 0.005 of x |
| `Config.StaffAfterAttritionMonotone` | simulation_runner.py:41 | more attrition never leaves more operators |
| `Config.StaffAfterAttritionBounds` | simulation_runner.py:41 | the staff after an attrition rate in [0, 1] lies between 0 and the initial staff |
| `Config.ScenarioStaffCounts` | scenarios.py:9-36 | 25% attrition leaves 75 of the 100 operators and 15% leaves 85 |
| `Resources.OperatorPool.constructor` | core/simulation_engine.py:26 | a new pool has its capacity, no unit in use and an empty queue |
| `Resources.OperatorPool.Request` | core/simulation_engine.py:37-38 | a request is granted exactly when a unit is free; otherwise it joins the back of the queue |
| `Resources.OperatorPool.Release` | core/simulation_engine.py:37-45 | a released unit passes to the head of the queue, or becomes free when nobody waits |
| `Stats.MeanAtLeast` | simulation_model.py:18 | the mean of values at least `lo` is at least `lo` |
| `Stats.AverageMinutes` | simulation_model.py:17-22 | the average cycle time is 0 without orders, else the mean rounded to hundredths of a minute |
| `Stats.AverageMinutesAtLeast` | simulation_model.py:18-21 | the reported average is no less than a lower bound on every cycle time |
| `Stats.StatsCollector.constructor` | simulation_model.py:9-11 | a collector starts with no completed order and no cycle time |
| `Stats.StatsCollector.LogOrderCompletion` | simulation_model.py:13-15 | a completion counts one order and appends its cycle time `end - start` |
| `Stats.StatsCollector.GetSummary` | simulation_model.py:17-22 | the throughput is the number of logged orders and the average their mean cycle time, or 0 |
| `OrderFlow.ArrivalClosedForm` | core/simulation_engine.py:53-56 | order k arrives at the first arrival plus k intervals |
| `OrderFlow.ArrivalsIncrease` | core/simulation_engine.py:53-56 | a later order arrives at least one interval after an earlier one |
| `OrderFlow.ServiceTicks` | core/simulation_engine.py:23 | the service time times the efficiency is the base time; a zero efficiency divides by zero and a negative one gives a negative delay |
| `OrderFlow.ScenarioServiceTicks` | scenarios.py:14-35 | efficiencies 1.0, 1.2, 1.25, 1.5 and 2.0 give 15, 12.5, 12, 10 and 7.5 minutes |
| `OrderFlow.FifoStart` | core/simulation_engine.py:32-45 | the first-come-first-served reference start of order k: never before its arrival |
| `OrderFlow.FifoStartMonotone` | core/simulation_engine.py:32-45 | with a FIFO queue a later order never starts earlier |
| `OrderFlow.FifoStartIsArrival` | core/simulation_engine.py:32-45 | when capacity × interval covers the service time, every order starts on arrival |
| `OrderFlow.CountsFifoBeyondGenerated` | core/simulation_engine.py:53-67 | orders the generator never made before the horizon cannot finish before it |
| `OrderFlow.LogSumsToFifoTotal` | core/simulation_engine.py:40-45 | a log of reference cycle times sums to the reference total |
| `OrderFlow.FifoTotalWithoutWaiting` | core/simulation_engine.py:40-45 | without waiting, n orders spend exactly n service times in the system |
| `OrderFlow.CountsAllWithoutWaiting` | core/simulation_engine.py:53-67 | without waiting, when the last order allowed finishes before the horizon, every allowed order is counted |
| `OrderFlow.OrderEngine.constructor` | core/simulation_engine.py:15-30 | the engine starts at time 0 with no order generated, processed or waiting |
| `OrderFlow.OrderEngine.CompleteHead` | core/simulation_engine.py:37-45 | the oldest order in service finishes now, at its reference completion, and is counted with cycle time now minus its arrival; the head of the queue, if any, joins the service line starting now and leaves the queue |
| `OrderFlow.OrderEngine.RecordHead` | core/simulation_engine.py:43-45 | the oldest order in service leaves the service line at its reference completion, counted and logged with its cycle time; its operator is still held |
| `OrderFlow.OrderEngine.HandOver` | core/simulation_engine.py:37-45 | the freed operator goes to the head of the queue, which joins the service line starting now with the earlier jobs unchanged; with nobody waiting the operator becomes free; counts and log unchanged |
| `OrderFlow.OrderEngine.Admit` | core/simulation_engine.py:34-38 | the order due now is generated and the next is due one interval later; with a free operator it joins the service line starting now, otherwise it joins the back of the queue |
| `OrderFlow.OrderEngine.AdmitToService` | core/simulation_engine.py:37-38 | the new order takes a free operator and is appended to the service line with start now; the earlier jobs and the queue are unchanged |
| `OrderFlow.OrderEngine.AdmitToQueue` | core/simulation_engine.py:37-38 | an order that finds every operator busy waits in the queue |
| `OrderFlow.OrderEngine.Step` | core/simulation_engine.py:58-67 | after one tick the finished orders are exactly the generated ones whose reference completion is before the new clock, and an order was generated exactly when one was due and the plan allows it |
| `OrderFlow.OrderEngine.FinishDue` | core/simulation_engine.py:40-45 | completes exactly the orders whose reference completion is now, in FIFO order: each newly counted order completes now and every order left in service ends later |
| `OrderFlow.OrderEngine.Tick` | core/simulation_engine.py:67 | with nothing left due, the clock moves one tick; counts, service line, queue and total stay as they were, and the finished orders are exactly those with reference completion before the new clock |
| `OrderFlow.OrderEngine.DueSettled` | core/simulation_engine.py:37-45 | once nothing in service is due, the finished orders are exactly those with reference completion not after now |
| `OrderFlow.OrderEngine.Run` | core/simulation_engine.py:67 | `env.run(until)` advances the clock to the horizon, after which the finished orders are exactly the generated ones whose reference completion is before it |
| `OrderFlow.OrderEngine.TotalCycleAtLeast` | core/simulation_engine.py:40-45 | every processed order took at least the service time |
| `OrderFlow.Simulate` | core/simulation_engine.py:58-74 | the generator has made every order due before the horizon (up to the limit); the orders counted are exactly those whose first-come-first-served reference completion is before the horizon; each logged cycle time is the reference one, their sum the reference total, at least count × service; the summary is the count and mean |
| `OrderFlow.Counters` | core/simulation_engine.py:58-74 | a run's count is the reference count before the horizon and its total the reference total, at least count × service |
| `SimulationEngine.TimingConstants` | core/simulation_engine.py:50-67 | the interval is 96 ticks (0.96 minutes), so 10000 orders fill the 9600-minute month; the run lasts 1.5 months |
| `SimulationEngine.SimulatorPlan` | core/simulation_engine.py:15-30 | the simulator's parameters, with its failures: a zero efficiency, a non-positive capacity, a negative delay |
| `SimulationEngine.OrderArrivals` | core/simulation_engine.py:47-56 | order k is generated at 0.96·k minutes |
| `SimulationEngine.RoundedMeanAtLeast` | core/simulation_engine.py:70-74 | the rounded average cycle time is no less than the service time |
| `SimulationEngine.ReportedAverageAtLeastServiceTime` | core/simulation_engine.py:70-74 | the average cycle time times the efficiency is at least 15 minutes |
| `SimulationEngine.Run` | core/simulation_engine.py:58-74 | fails exactly when the parameters do, with their error; otherwise the throughput is exactly the number of orders the first-come-first-served reference completes before the horizon and the average is their reference mean rounded to hundredths; with at least 16 operators and efficiency at least 1 that is all 10000 orders at exactly 15/efficiency minutes |
| `SimulationEngine.Report` | core/simulation_engine.py:69-74 | the KPIs of a run are the reference count and rounded mean; all 10000 orders at 15/efficiency minutes when nobody waits and the run reaches the horizon |
| `SimulationEngine.ReferenceKpi` | core/simulation_engine.py:69-74 | the KPIs built from the reference counters report the reference run |
| `SimulationEngine.KpiAverage` | core/simulation_engine.py:69-74 | the throughput is the count; the average is 0 without orders, else at least 15/efficiency |
| `SimulationEngine.AverageOfEqualCycles` | core/simulation_engine.py:69-74 | when every order took exactly the service time, the reported average is exactly 15/efficiency minutes |
| `SimulationEngine.NobodyWaits` | core/simulation_engine.py:50-67 | 16 or more operators serve each 0.96-minute arrival at once, and over the 1.5-month run all 10000 orders finish |
| `SimulationEngine.FullRun` | core/simulation_engine.py:58-74 | with no waiting, the run counts all 10000 orders with an average of exactly 15/efficiency minutes |
| `DynamicSim.DynamicPlan` | dynamic_simpy_model.py:18-30 | the same parameters and failures for `DynamicWarehouseSim` |
| `DynamicSim.AverageCycleTime` | dynamic_simpy_model.py:61 | the unrounded mean: 0 without orders, else total over count |
| `DynamicSim.AverageAtLeastServiceTime` | dynamic_simpy_model.py:61-67 | the average times the efficiency is at least 15 minutes |
| `DynamicSim.Run` | dynamic_simpy_model.py:50-67 | fails exactly when the parameters do; otherwise the throughput is exactly the reference count before the horizon and the average is the unrounded reference mean; with at least 16 operators and efficiency at least 1: 10000 orders at exactly 15/efficiency minutes |
| `DynamicSim.Report` | dynamic_simpy_model.py:57-67 | the KPIs are the reference count and unrounded mean; all 10000 orders at 15/efficiency minutes when nobody waits and the run reaches the horizon |
| `DynamicSim.FullRun` | dynamic_simpy_model.py:50-67 | with at least 16 operators and efficiency at least 1 the run counts all 10000 orders, averaging exactly 15/efficiency minutes |
| `SimulationModel.NewStaffManager` | simulation_model.py:26-32 | staff is floor(initial·(1 − attrition)); a staff below one fails, then a zero efficiency divides by zero, otherwise it succeeds with process time × efficiency = base time (a negative process time is accepted here) |
| `SimulationModel.OrdersToGenerate` | simulation_model.py:56-57 | `int(TARGET_ORDERS_MONTH)` orders are generated |
| `SimulationModel.OrdersArriveAfterTheirWait` | simulation_model.py:53-62 | order k+1 is created after k+1 waits, at (k+1) intervals |
| `SimulationModel.Run` | simulation_model.py:64-73 | the staff manager's error passes through; a zero duration fails as `env.run` does; a negative efficiency fails exactly when some order starts service before the stop, else the summary is empty; otherwise the summary counts exactly the orders the reference completes before the stop, with their reference mean rounded to a tick |
| `SimulationModel.Report` | simulation_model.py:64-73 | the summary of a run is the reference count and its mean rounded to a tick, never below the process time |
| `Bloc3Scenarios.InterArrivalIs096` | bloc3_simpy_scenarios.py:58-63 | 500 orders a day over 480 minutes arrive every 0.96 minutes |
| `Bloc3Scenarios.AvailableOperatorsByScenario` | bloc3_simpy_scenarios.py:26-51 | scenarios 1, 3 and 4 leave 75 operators and scenario 2 leaves 85 |
| `Bloc3Scenarios.OrderIdArrival` | bloc3_simpy_scenarios.py:102-110 | order k arrives at 0.96·k minutes |
| `Bloc3Scenarios.Run` | bloc3_simpy_scenarios.py:112-121 | fails exactly when no operator is left or the run length is 0, in that order; the last order id is the number of arrival ticks before the stop; the orders processed are exactly those the reference completes before the stop, which with at least 16 operators is the count of orders arriving 15 minutes before it |
| `Bloc3Scenarios.NoWaitingCount` | bloc3_simpy_scenarios.py:58-121 | with at least 16 operators, the orders counted are exactly those arriving at least 15 minutes before the stop |
| `Bloc3Scenarios.ScriptRunCompletes` | bloc3_simpy_scenarios.py:112-121 | the script's 20-day run of 480 minutes a day completes 9985 orders |
| `StorageConditions.TemperatureRange` | storage_conditions.py:41-49 | each regime's band is non-empty; only frozen is below zero; only cold chain lies in (0, 8] |
| `StorageConditions.HumidityRange` | storage_conditions.py:51-58 | each humidity band lies within 0–100%; no control is exactly the full range |
| `StorageConditions.HumidityBandsNested` | storage_conditions.py:51-58 | strict control lies inside moderate, which lies inside none |
| `StorageConditions.ValidationIffBandWithin2To25` | storage_conditions.py:60-62 | validation is required exactly when the temperature band lies within 2–25 °C |
| `StorageConditions.DefaultConditions` | storage_conditions.py:77-109 | the four default conditions, all validated, strictly humidity-controlled and RFID-tracked |
| `StorageConditions.DefaultConditionsSecurityAndRegime` | storage_conditions.py:64-66 | the security and regime of each default condition |
| `StorageConditions.ProfileShares` | storage_conditions.py:135-156 | every profile, including the fallback for an unknown name, gives positive shares to the four conditions, in order |
| `StorageConditions.ProfilesSumToOne` | storage_conditions.py:135-154 | every profile's shares sum to 1 |
| `StorageConditions.Allocation` | storage_conditions.py:160-171 | an allocation holds `int(total·share)` SKUs and the condition's ranges and validation flag |
| `StorageConditions.DistributionCountsAtMost` | storage_conditions.py:159-173 | truncation never allocates more than total times the summed shares |
| `StorageConditions.DistributionCountsAtLeast` | storage_conditions.py:159-173 | truncation loses less than one SKU per condition |
| `StorageConditions.DistributionIds` | storage_conditions.py:159-173 | one allocation per profile entry, in the profile's order |
| `StorageConditions.StorageConditionManager.constructor` | storage_conditions.py:72-75 | a manager starts with the default conditions |
| `StorageConditions.StorageConditionManager.GetCondition` | storage_conditions.py:111-113 | a lookup finds exactly the stored conditions |
| `StorageConditions.StorageConditionManager.AddCustomCondition` | storage_conditions.py:115-117 | adding sets one key and leaves the others unchanged |
| `StorageConditions.StorageConditionManager.GetAllConditions` | storage_conditions.py:119-121 | the copy equals the stored conditions |
| `StorageConditions.StorageConditionManager.CalculateSkuDistribution` | storage_conditions.py:123-173 | the distribution allocates at most the total and, over the default conditions, loses at most 4 SKUs |
| `StorageConditions.DefaultDistributionIds` | storage_conditions.py:123-173 | over the defaults the distribution lists the four conditions in order |
| `StorageConditions.ZoneClimateOf` | storage_conditions.py:242-262 | a zone's OPEX is maintenance (12% of CAPEX) plus electricity, and none of its figures is negative |
| `StorageConditions.ColdChainCostsMore` | storage_conditions.py:203-214 | a cold-chain zone costs more to equip and to run than a normal one of the same area |
| `StorageConditions.ClimateSumsNonNegative` | storage_conditions.py:264-266 | the climate totals are never negative |
| `StorageConditions.CalculateClimateRequirements` | storage_conditions.py:225-268 | one entry per zone, each priced by its regime; the totals are their sums |
| `StorageConditions.RedundancyMultiplier` | storage_conditions.py:282-288 | the multiplier lies in [1.5, 2]; unknown levels take 1.5 |
| `StorageConditions.CalculateRedundancy` | storage_conditions.py:270-299 | CAPEX is scaled by the multiplier and OPEX by 30% of its excess: 50–100% more CAPEX and 15–30% more OPEX |
| `StorageConditions.UnknownRedundancyIsNPlusOne` | storage_conditions.py:288 | an unknown level is priced as n+1 |
| `Zoning.StandardZoneAt` | warehouse_zoning.py:56-176 | the standard zoning has the eleven zones, each at its ratio of the floor |
| `Zoning.ZoningAreaSum` | warehouse_zoning.py:57-166 | the zones cover 45% of the floor plus both storage ratios: 140% with the defaults |
| `Zoning.LayoutTilesThePlan` | warehouse_zoning.py:183-201 | the drawing's rectangles stay inside the 140×125 plan and never overlap |
| `Zoning.RackingFor` | warehouse_zoning.py:411-431 | storage zones get pallet racking at 2000 per m², the others shelving at 2800; usable area is 80% |
| `Zoning.DockCount` | warehouse_zoning.py:443-444 | docks are a thousandth of the area, but at least 4 |
| `Zoning.RackingOfFullPlan` | warehouse_zoning.py:411-432 | a complete zoning racks storage_normal, storage_cold, controlled and quarantine, one entry each in that order; picking is not racked |
| `Zoning.StandardRackingCapex` | warehouse_zoning.py:411-432 | the racking CAPEX of the standard zoning as a function of the area and ratios |
| `Zoning.StandardPlanDocks` | warehouse_zoning.py:443-444 | the standard receiving and dispatch zones get 4 docks each below 62500 m² |
| `Zoning.WarehouseZoning.constructor` | warehouse_zoning.py:27-38 | a new zoning has its area and name and no zones |
| `Zoning.WarehouseZoning.CalculateStandardZoning` | warehouse_zoning.py:40-176 | rejects ratios outside the accepted bounds and keeps the zones then; otherwise installs the standard zoning |
| `Zoning.WarehouseZoning.CalculatePositionsForVisualization` | warehouse_zoning.py:178-205 | every zone gets its layout position and nothing else changes |
| `Zoning.WarehouseZoning.CalculateEquipmentRequirements` | warehouse_zoning.py:390-454 | equipment is racking plus picking plus 500k per dock, with at least 4 docks each way |
| `Zoning.ExportZoningData` | warehouse_zoning.py:366-388 | the export lists each zone with its share of the area; zones over a zero area divide by zero |
| `Transport.FleetOf` | transport_planner.py:172-199 | a fleet's costs add up and are priced from its vehicle type |
| `Transport.CfoTripsPerWeek` | transport_planner.py:153-161 | the fewest 33-pallet trips that carry the week's pallets |
| `Transport.CfoFleet` | transport_planner.py:143-199 | heavy trucks: the fewest at two trips a week, 52 weeks, round-trip distance, 15000 per trip for drivers |
| `Transport.LocalFleet` | transport_planner.py:201-251 | medium trucks: the fewest at seven orders a day, one trip a working day |
| `Transport.SvoTripsPerDay` | transport_planner.py:264-270 | the fewest 8-pallet trips a day to the airport |
| `Transport.SvoFleet` | transport_planner.py:253-307 | airport fleet: the fewest trucks at two trips a day, 264 days |
| `Transport.ColdOrdersPerMonth` | transport_planner.py:318-323 | the cold-chain share of the orders |
| `Transport.ColdTripsPerMonth` | transport_planner.py:325-326 | the fewest 24-order refrigerated trips a month |
| `Transport.ColdChainFleet` | transport_planner.py:309-376 | refrigerated trucks: weighted distance, 18000 per trip, refrigeration cost per 50 km |
| `Transport.AggregateFleetCosts` | transport_planner.py:378-397 | totals are sums over the fleets; lease is recommended exactly when five years of lease cost less than buying and running |
| `Transport.LeaseIffCheaperOverFiveYears` | transport_planner.py:396 | the lease recommendation in terms of the summed fleet costs |
| `Transport.FleetRequirements` | transport_planner.py:114-141 | the four fleets in order and their summed totals |
| `Transport.ConfiguredFleetSizes` | transport_planner.py:143-376 | at 10000 orders a month: 17 heavy, 19 local, 8 airport and 9 refrigerated trucks |
| `Transport.DockRequirements` | transport_planner.py:399-458 | peak trips are average times the buffer; each side has the fewest docks that carry its share, and at least the minimum |
| `Transport.ConfiguredDockPlan` | transport_planner.py:399-444 | the configured fleet makes 11544 trips a year and needs 4 + 4 docks |
| `Transport.SimulateDockOperations` | transport_planner.py:511-537 | utilisation is load over capacity; the bottleneck is the busier side; sufficient means both sides under 85% |
| `Transport.CoveredPeakAtMostFull` | transport_planner.py:511-537 | docks sized for the peak run at most full |
| `Transport.PlannedDocksCarryThePeak` | transport_planner.py:399-458 | simulating the planned docks at the peak load never overloads them |
| `Automation.CostsLinearInQuantity` | automation_scenarios.py:32-40 | an item's CAPEX and OPEX are its quantity times those of a single unit |
| `Automation.SensibleCosts` | automation_scenarios.py:32-40 | for non-negative inputs, CAPEX is at least the bare purchase price and OPEX is not negative |
| `Automation.LaborWeightWithinCapex` | automation_scenarios.py:75-80 | the capex-weighted labour reduction lies between 0 and the total CAPEX |
| `Automation.BoostWeightWithinCapex` | automation_scenarios.py:83-88 | the capex-weighted efficiency boost lies between 0 and the total CAPEX |
| `Automation.OpexSumNonNegative` | automation_scenarios.py:71 | the summed OPEX is not negative |
| `Automation.AutomationScenario.constructor` | automation_scenarios.py:46-62 | a new scenario keeps its level, name and description and has no equipment, zero totals and an efficiency of 1 |
| `Automation.AutomationScenario.AddEquipment` | automation_scenarios.py:64-66 | adding appends the item and leaves the totals as they were |
| `Automation.AutomationScenario.CalculateTotals` | automation_scenarios.py:68-88 | the totals become the sums and the capex-weighted means; with sensible items the reduction lies in [0, 1] and the multiplier at least 1 |
| `Automation.CapexSumNonNegative` | automation_scenarios.py:70 | the CAPEX of sensible items is not negative |
| `Automation.LevelSizesAndNesting` | automation_scenarios.py:124-366 | levels 0–3 hold 3, 6, 9 and 13 items, each level extending the previous |
| `Automation.AllItemsSensible` | automation_scenarios.py:124-366 | every catalogue item has non-negative costs and factors |
| `Automation.CapexNonDecreasing` | automation_scenarios.py:178-366 | each level costs at least as much as the one before |
| `Automation.LevelCapexTotals` | automation_scenarios.py:124-366 | the levels cost 24.3M, 54.3625M, 193.5625M and 573.3625M |
| `Automation.BuildScenario` | automation_scenarios.py:124-366 | a level's scenario carries the level's own name and description and holds that level's equipment with its totals computed |
| `Automation.NewScenario` | automation_scenarios.py:124-136 | a new scenario has the level's name and description and no equipment |
| `Automation.AutomationScenarioBuilder.constructor` | automation_scenarios.py:120-122 | a builder starts with no scenario |
| `Automation.AutomationScenarioBuilder.BuildAllScenarios` | automation_scenarios.py:368-376 | all four levels are built, each under its own name and with its own equipment |
| `Automation.AutomationScenarioBuilder.CompareScenarios` | automation_scenarios.py:387-411 | one row per built level, in level order, each showing that scenario's totals |
| `Automation.PresentInOrderSpec` | automation_scenarios.py:403 | the rows are exactly the built levels, in level order |
| `Automation.RoiOf` | automation_scenarios.py:509-547 | CAPEX and OPEX as given; the reduced staff is int(base staff × labour reduction) and the labour saving is that staff × monthly salary × 12; the throughput increase is int(base × efficiency) − base and the revenue increase is that increase × 12 × 500 per order; the total benefit is savings plus revenue and the net benefit is that minus OPEX; payback is finite exactly when the benefit is positive, and payback × benefit = CAPEX; the 5-year ROI formula |
| `Automation.ReducedStaffWithinBase` | automation_scenarios.py:511 | the staff saved lies between 0 and the base staff |
| `Automation.ThroughputIncreaseNonNegative` | automation_scenarios.py:515-516 | an efficiency of at least 1 never lowers throughput |
| `Automation.PaybackWithinFiveYearsIffRoiNonNegative` | automation_scenarios.py:529-533 | with a positive CAPEX and a finite payback, payback within five years exactly when the 5-year ROI is not negative |
| `Automation.CalculateRoiAnalysis` | automation_scenarios.py:493-549 | one ROI per built scenario, from its totals |
| `Analysis.Score` | analysis.py:40-73 | the site's CAPEX is 300M, plus the modification cost for class A_requires_mod, plus the purchase price when buying; OPEX by ownership type |
| `Analysis.ScoredSitesAreTheLargeOnes` | analysis.py:40-75 | exactly the offers of at least 17000 m² are scored, in order |
| `Analysis.ScoredSitesConcat` | analysis.py:40-75 | scoring a concatenation scores each part |
| `Analysis.FilterAndScore` | analysis.py:40-75 | the loop computes the scored list |
| `Analysis.FilterAndScoreLocations` | analysis.py:35-75 | the stub scores with a 100M modification cost |
| `Analysis.ParseAndFilterOffers` | analysis.py:132-208 | the scraper scores with a 50M modification cost |
| `Analysis.StubAndScraperDiffer` | analysis.py:33 | the two scorings agree on OPEX and differ by 50M of CAPEX exactly for sites needing modification |
| `Analysis.RequiredFleet` | analysis.py:598-615 | the fewest trucks that carry the week's orders at the stated trips per truck |
| `Analysis.RequiredFleetVersusPlanner` | analysis.py:598-615 | this sizing needs 532 heavy trucks where the transport planner needs 17 |
| `Analysis.AnnualTransportCost` | analysis.py:617-632 | the yearly cost is linear in the three flow distances |
| `Analysis.AnnualTransportCostLinear` | analysis.py:617-632 | the cost is additive in the distances and 0 when all three distances are 0 |
| `Analysis.OptimalFleetAndCost` | analysis.py:638-706 | distances come from the routing parameter; total cost is the three flows; fleet sizes as above |
| `Analysis.CalculateRelocationCapex` | analysis.py:708-767 | the move takes the fewest 100 m² truckloads of 40% of the area; time is trips × (round trip + 4 h) at 2500 per hour |
| `Analysis.ConfiguredRelocation` | analysis.py:739-752 | moving 17000 m² takes 68 trips |
| `ModelValidation.AreaCheck` | model_validation.py:353-370 | fails critically below the minimum, warns below the target, passes otherwise |
| `ModelValidation.CoordinatesCheck` | model_validation.py:372-383 | passes exactly for coordinates inside the Moscow region's box |
| `ModelValidation.CapexCheck` | model_validation.py:385-400 | passes exactly for 0 < CAPEX ≤ 1.5 billion; otherwise a warning |
| `ModelValidation.OpexCheck` | model_validation.py:402-417 | passes exactly for OPEX ≤ 390M; otherwise a warning |
| `ModelValidation.TransportCostCheck` | model_validation.py:419-431 | passes exactly for a transport cost ≤ 100M |
| `ModelValidation.ZoningRatiosCheck` | model_validation.py:433-450 | passes exactly when storage is at least 75% of the allocated area |
| `ModelValidation.StorageCapacityCheck` | model_validation.py:452-469 | passes exactly with at least two pallet positions per SKU; otherwise critical |
| `ModelValidation.DockCountCheck` | model_validation.py:471-484 | passes exactly with at least 10 docks in all |
| `ModelValidation.ClimateZonesCheck` | model_validation.py:486-498 | passes exactly when a cold storage zone exists |
| `ModelValidation.MinFinitePayback` | model_validation.py:500-521 | the least finite payback, or none when all are infinite |
| `ModelValidation.PaybackCheck` | model_validation.py:500-521 | passes exactly when some scenario pays back within 7 years |
| `ModelValidation.MaxRoi` | model_validation.py:523-537 | the greatest 5-year ROI, or 0 for no scenario |
| `ModelValidation.RoiTargetCheck` | model_validation.py:523-537 | passes exactly when some scenario reaches 20% ROI |
| `ModelValidation.LaborReductionCheck` | model_validation.py:539-558 | passes exactly when every reduction lies within the initial staff |
| `ModelValidation.BenefitCheck` | model_validation.py:560-586 | passes exactly when every net benefit is savings plus revenue minus OPEX |
| `ModelValidation.TargetThroughputCheck` | model_validation.py:588-600 | passes exactly for a positive target |
| `ModelValidation.MaxAutomationCapex` | model_validation.py:609 | the greatest automation CAPEX |
| `ModelValidation.BudgetInvestmentAsWritten` | model_validation.py:605-611 | as written, the investment reduces to the greatest automation CAPEX |
| `ModelValidation.BudgetInvestment` | model_validation.py:605-611 | the site CAPEX plus the greatest automation CAPEX, which bounds every scenario's total |
| `ModelValidation.BudgetWithin` | model_validation.py:613 | the budget holds exactly when every scenario's total is at most 2 billion |
| `ModelValidation.BudgetCheckAsWritten` | model_validation.py:602-622 | as written, the verdict depends only on the automation CAPEX |
| `ModelValidation.BudgetCheck` | model_validation.py:602-622 | passes exactly when site plus automation CAPEX stays within 2 billion; a failure is critical |
| `ModelValidation.BudgetCheckIgnoresSiteCapex` | model_validation.py:608-611 | a 1.8-billion site with a 540M automation option passes as written and fails corrected |
| `ModelValidation.GppGdpCheck` | model_validation.py:624-636 | passes exactly for class A or A_requires_mod |
| `ModelValidation.ProjectTimelineCheck` | model_validation.py:638-651 | always passes, at severity info |
| `ModelValidation.StandardZoningFailsStorageRatio` | model_validation.py:433-450 | no standard zoning the zoning class accepts meets the 75% storage ratio |
| `ModelValidation.ConfiguredDocksFailDockCount` | model_validation.py:471-484 | the planner's 8 docks fail the 10-dock check |
| `ModelValidation.ComputedRoiPassesConsistencyChecks` | model_validation.py:539-586 | ROI records computed by the automation module pass the labour and benefit checks |
| `ModelValidation.ModelValidator.constructor` | model_validation.py:26-30 | a validator starts with no result and zero counters |
| `ModelValidation.ModelValidator.ValidateArea` | model_validation.py:353-370 | the area check, counting a critical failure or a warning |
| `ModelValidation.ModelValidator.ValidateCapex` | model_validation.py:385-400 | the CAPEX check, counting a warning on failure |
| `ModelValidation.ModelValidator.ValidateOpex` | model_validation.py:402-417 | the OPEX check, counting a warning on failure |
| `ModelValidation.ModelValidator.ValidateStorageCapacity` | model_validation.py:452-469 | the capacity check, counting a critical failure |
| `ModelValidation.ModelValidator.ValidateLocationData` | model_validation.py:32-73 | the five location checks in order, appended to the results, with the counters updated |
| `ModelValidation.ModelValidator.ValidateWarehouseConfiguration` | model_validation.py:75-110 | the four configuration checks in order |
| `ModelValidation.ModelValidator.ValidateRoiCalculations` | model_validation.py:112-145 | the four ROI checks in order |
| `ModelValidation.ModelValidator.ValidateBusinessRequirements` | model_validation.py:147-180 | the throughput, budget, GPP/GDP and timeline checks, with the corrected budget check; fails without a site CAPEX |
| `Location.ParseOwnership` | core/location.py:16-17 | only ARENDA and POKUPKA are accepted |
| `Location.NewWarehouseConfigurator` | core/location.py:15-23 | the ownership guard, then the fields as given |
| `Location.FixedCapex` | core/location.py:25-29 | racking plus climate: 300M |
| `Location.AnnualOpex` | core/location.py:31-38 | rent of 17000 m² when renting, 15% of it when buying |
| `Location.ExtraDistanceIsDifference` | core/location.py:65-68 | the summed increase is the new hub's total distance minus the current hub's |
| `Location.ExtraDistanceNonNegative` | core/location.py:65-68 | a hub no nearer to any point adds distance |
| `Location.TransportCostChange` | core/location.py:54-75 | the change is the distance difference times 536000, and 0 at the current hub |
| `Location.MovingFartherCostsMore` | core/location.py:54-75 | a site no nearer to any key point never lowers the cost |
| `Location.GetTransportCostChange` | core/location.py:54-75 | the loop computes that change |
| `Location.GetBaseFinancials` | core/location.py:77-93 | CAPEX adds the purchase price only when buying; OPEX is building plus transport change |
| `FlexibleLocation.DistancesOf` | flexible_location_model.py:59-87 | nine times the mean extra distance is the distance difference over the nine points |
| `FlexibleLocation.CalculateDistances` | flexible_location_model.py:59-87 | the loop computes those metrics |
| `FlexibleLocation.CalculateFullFinanceProfile` | flexible_location_model.py:107-143 | an unknown ownership fails; renting costs 7500 per m² and buying 1.5 billion up front plus 50M a year; rounded transport change |
| `FlexibleLocation.PurchasePaysOffFromYearTwenty` | flexible_location_model.py:107-121 | comparing the two profiles the function gives for 17000 m²: buying (1.85 billion up front, 50M a year) costs less to hold than renting (350M, 127.5M a year) exactly from year 20 |
| `Runner.OnlyFirstKeyIsNoMitigation` | simulation_runner.py:55-56 | only the first scenario key contains "No_Mitigation" |
| `Runner.RoundedPayback` | simulation_runner.py:59-63 | a payback exactly with automation, a positive baseline and a saving, within 0.005 of investment over saving |
| `Runner.BaselineIsFirstScenario` | simulation_runner.py:34-56 | every scenario is priced against the first one |
| `Runner.ScenariosRun` | simulation_runner.py:41-46 | every configured scenario's simulation starts |
| `Runner.NoScenarioGetsAPayback` | simulation_runner.py:50-63 | the automation scenarios keep 75 operators, so no scenario records a payback |
| `Runner.RunScenario` | simulation_runner.py:37-77 | one scenario's row: its staff, throughput 10000, cycle time int(15/efficiency), truncated OPEX and CAPEX and the payback against the baseline; the baseline moves to this OPEX exactly for a no-mitigation key |
| `Runner.SimulationRunner.constructor` | simulation_runner.py:20-26 | a runner starts with no results |
| `Runner.SimulationRunner.RunAllScenarios` | simulation_runner.py:28-80 | one row per scenario appended in order, each with throughput 10000 and cycle time int(15/efficiency), priced against the baseline |
| `MainRunner.OpenEndedPayback` | main_simulation_runner.py:56-67 | no payback without automation, infinite without a saving, else investment over saving |
| `MainRunner.PaybackVariantsAgree` | main_simulation_runner.py:61-67 | both runners agree up to rounding where both give a number |
| `MainRunner.ScenariosRun` | main_simulation_runner.py:44-48 | every scenario of this runner starts |
| `MainRunner.ConfiguredPaybacks` | main_simulation_runner.py:28-67 | the automation scenarios get an infinite payback and the others none |
| `MainRunner.RunScenario` | main_simulation_runner.py:40-77 | one scenario's row: its staff, throughput 10000, truncated annual cost and CAPEX, and the open-ended payback against the first scenario |
| `MainRunner.RunAllScenariosForLocation` | main_simulation_runner.py:14-79 | fails for an unknown ownership, else four rows in order, each with throughput 10000 and its exact financial columns |
| `Flexsim.AutomationSystems` | core/flexsim_bridge.py:26-31 | no system below 100M, conveyors at exactly 100M, three systems above |
| `Flexsim.SpacesReplaced` | core/flexsim_bridge.py:53 | replacing spaces keeps every other character in place |
| `Flexsim.SafeScenarioName` | core/flexsim_bridge.py:53 | the sanitised name has no space |
| `Flexsim.ConfigFileName` | core/flexsim_bridge.py:53-54 | `flexsim_setup_<name>.json` with no space |
| `Flexsim.NumberedNameSanitised` | core/flexsim_bridge.py:53 | "N. words" becomes "N_words" with underscores for spaces |
| `Flexsim.GenerateJsonConfig` | core/flexsim_bridge.py:22-59 | the configuration copies the scenario, site and KPIs, and names its file |
| `Flexsim.SendCommand` | core/flexsim_bridge.py:61-74 | three commands succeed, GET_KPI returns the stub KPIs, anything else is an error |

## Left out

- Floating point: every quantity is an exact real or integer, so rounding drift of Python floats is not modelled; `round`, `int`, `math.floor` and `math.ceil` are modelled exactly.
- The road distance (haversine × 1.4), the OSRM and Yandex routing services and their fallbacks are parameters.
- File, JSON and CSV writes, `print`, progress output, plots, animations, the `visualize_*` functions, the `main` functions and `formula_visualizer.py` are left out.
- `LocationAnalyzer` is not part of this model, so `SimulationRunner` takes the site's base financials as a parameter.
- The file write of `generate_json_config` is left out; the configuration and the file name are returned.
- `verify_model_objectives`, `generate_validation_report` and `run_full_validation` only assemble reports and are left out; message texts of the checks are left out too.
- `generate_transport_schedule` returns a constant table and is left out; so is `MonitoringSystemCalculator`.
- `model_validation.py` contains unresolved merge-conflict markers, so the file as written does not parse; the markers lie wholly inside its `if __name__ == "__main__":` block, which is left out, and the checks modelled here lie outside them.
- `OrderFlow.ServiceTicks`: an efficiency whose service time is not a whole number of 1/100 minute returns an error instead of simulating; every configured efficiency is on the grid.
- `OrderFlow.OrderEngine.Run`: whether an event falling exactly at the horizon is still processed is a parameter (`completionAtHorizon`), since SimPy's float comparison decides it.
- `SimulationEngine.Run`, `DynamicSim.Run`, `SimulationModel.Run` and `Bloc3Scenarios.Run` take the same `completionAtHorizon` parameter, and their contracts hold for either value.
- `SimulationModel.Run`: a positive process time that is not a whole number of 1/100 minute returns an error (`OffTickGrid`) instead of simulating; the arrival interval and base processing time are required positive, so a zero or negative arrival interval is not modelled.
- `ModelValidation.ModelValidator.ValidateBusinessRequirements`: records the corrected budget check `BudgetCheck` rather than the code's, which lets the site CAPEX cancel out (see Findings); `BudgetCheckIgnoresSiteCapex` models the check as written.
- `Zoning.WarehouseZoning.CalculateStandardZoning`: the zones' display names, colours and descriptions are not modelled.
- `Zoning.WarehouseZoning.CalculateEquipmentRequirements`: the nested dictionary shape of the result is flattened into a record.
- `Flexsim.SafeScenarioName`: only the general shape of the result is proved (no spaces, and `NumberedNameSanitised` for "N. words" names), not each configured name spelt out.

## Findings

| source | as written | input that shows it | evidently intended | confidence | as-written member | corrected member |
|---|---|---|---|---|---|---|
| model_validation.py:602-622 | the total investment is `capex + (max automation capex − capex)`, so the site CAPEX cancels out | site CAPEX 1.8 billion with automation CAPEX 21M and 540M: passes as written although 1.8 billion + 540M exceeds the 2-billion budget | site CAPEX plus the largest automation CAPEX stays within 2 billion | not executed | `ModelValidation.BudgetCheckIgnoresSiteCapex` | `ModelValidation.BudgetCheck` |
