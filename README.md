# Container terminal investment simulation

This project models class `System` of the container terminal planner in
`src/terminal_optimization/container_system.py`, and proves properties of that model.

A `System` holds an append-only registry of elements. The demand side of the registry is
commodities with yearly volume scenarios and the three vessel classes. Everything else in it
is infrastructure: berths, quay walls, STS cranes, tractors, laden, empty and OOG stacks,
stack equipment, gates, empty handlers and general services.

`simulate` walks through the lifecycle year by year. Each year it computes the vessel calls
and runs the investment decisions in a fixed order. Every decision is a loop that appends
one element and recomputes its trigger, until the trigger clears:

- berth occupancy for berths, quays and cranes;
- crane counts for tractors, empty handlers and stack equipment;
- required against planned-plus-online capacity for the stacks;
- the gate service rate for gates.

General services are added once, in the second year. After the investment years,
`simulate`:

- writes the energy, general labour and fuel cost of every year into the elements' cash-flow
  series;
- computes the demurrage and the revenue of every year;
- sums the series into a ledger and discounts it at the real WACC;
- returns the NPV.

The model is split into these modules:

- **Numbers, Config and Registry.** The extended reals (`Fin(r)` or `Inf` for
  `float("inf")`), money that may be non-finite, the injected configuration tables, the
  element datatype, and the registry folds (`find_elements`, counts and planned or online
  sums).
- **Traffic and Capacity.** Pure calculators over the registry: vessel calls, TEU split,
  boxes and box moves, quay throughput, stack requirements, berth and crane occupancy, gate
  minutes, the waiting-factor table and the crane-slot check.
- **Assets.** The element each `*_invest` routine builds: its capex, opex, land use and
  `year_online`, plus quay sizing.
- **CashFlow.** `add_cashflow_data_to_element`, the ledger, WACC, discounting and NPV.
- **Costs and Revenue.** The energy, labour and fuel writers, demurrage and revenue.
- **Triggers.** Closed forms for how many elements each investment loop appends.
- **Terminal.** Class `System`. It has the registry and the demurrage and revenue lists as
  fields, and the investment routines, cost writers and financial routines as methods. Each
  method's loop is proved against the pure functions above.

Quantities are exact reals. `int(...)` is modelled as truncation toward zero, and `np.ceil`
as `Ceil`. Where the Python would crash with an unbound variable or a division by zero, the
model states the precondition instead:

- all three vessel classes must be present, with positive call sizes;
- some commodity must have data for the simulated year;
- the year's volume must be non-zero where `calculate_revenue` divides by it;
- `operational_hours >= 24`.
- the commodities' vessel-class percentages and scenario volumes must be non-negative. The model counts vessel calls, `np.ceil` of a class volume over the call size, as natural numbers; a negative share or volume, which the source would accept, would give a negative call count. `DemandOk`, part of the registry invariant, states this.

The configuration also needs positive counts and capacities for every investment loop to
make progress. `ParamsOk` collects these demands.

## Model

| member | source | states |
|---|---|---|
| Numbers.AddMoney | src/terminal_optimization/container_system.py:1371-1372 | a sum is non-finite exactly when one of its terms is; otherwise it carries the sum of the finite values |
| Numbers.Max | src/terminal_optimization/container_system.py:681 | the result bounds both arguments and equals one of them |
| Numbers.Ceil | src/terminal_optimization/container_system.py:1417-1421 | `np.ceil`: the least integer at or above x |
| Numbers.Trunc | src/terminal_optimization/container_system.py:629 | `int(...)`: truncation toward zero, for negative and non-negative arguments |
| Numbers.PowPositive | src/terminal_optimization/container_system.py:1278-1279 | every power of a positive base is positive, so a discount factor never divides by zero |
| Numbers.CeilDivision | src/terminal_optimization/container_system.py:1417 | `ceil(v / s)` units of size s cover v, and one unit fewer would not |
| Registry.Find | src/terminal_optimization/container_system.py:1381-1390 | `find_elements` returns only elements of the requested kind, and never more than the registry holds |
| Registry.FindComplete | src/terminal_optimization/container_system.py:1381-1390 | `find_elements` misses nothing: an element is in the result exactly when the registry holds it and it is of the requested kind |
| Registry.AppendOne | src/terminal_optimization/container_system.py:1381-1390 | appending one element changes every filter, count, planned sum, online sum and slot total by exactly that element's contribution |
| Registry.OnlineAtMostAll | src/terminal_optimization/container_system.py:697-707 | the online count of a kind never exceeds its total count |
| Registry.PlannedUniform | src/terminal_optimization/container_system.py:1661-1663 | when every element of a kind has value v, the planned sum is count × v |
| Registry.PlannedTimes | src/terminal_optimization/container_system.py:1661-1663 | the same planned sum, as a repeated addition of v |
| Registry.OnlineUniform | src/terminal_optimization/container_system.py:1664-1665 | when every element of a kind has value v, the online sum is online count × v |
| Registry.OnlineTimes | src/terminal_optimization/container_system.py:1664-1665 | the same online sum, as a repeated addition of v |
| Registry.NoneOnline | src/terminal_optimization/container_system.py:1664-1665 | with no element of the kind online, the online sum is zero |
| Registry.SlotsUniform | src/terminal_optimization/container_system.py:1902-1905 | when every berth offers c crane slots, the slot total is berths × c |
| Registry.LatestQuayYear | src/terminal_optimization/container_system.py:678-681 | the latest quay `year_online` is defined exactly when the registry has a quay |
| Registry.LatestQuayYearIsMax | src/terminal_optimization/container_system.py:678-681 | every quay comes online no later than the latest quay year |
| Registry.SameShapeTotals | src/terminal_optimization/container_system.py:238-245 | registries that differ only in the elements' cash-flow series have equal counts, sums, slots and latest quay year, so writing cost cells changes no calculator |
| Traffic.CallSizePositive | src/terminal_optimization/container_system.py:1414-1421 | the call size found for each vessel class is positive |
| Traffic.ClassVolumesNonNegative | src/terminal_optimization/container_system.py:1402-1411 | with non-negative scenario volumes and class percentages, the per-class and total volumes are non-negative |
| Traffic.ClassCallsCover | src/terminal_optimization/container_system.py:1417 | the calls of one class carry the class volume, and one call fewer would not |
| Traffic.VesselCallsCover | src/terminal_optimization/container_system.py:1392-1424 | `calculate_vessel_calls`: for every vessel class, the calls are the least number that carries that class's share of the year's volume |
| Traffic.SplitTeuConserves | src/terminal_optimization/container_system.py:1441-1446 | when the four category percentages add up to one, the laden, reefer, empty and OOG TEU add up to the volume |
| Traffic.ThroughputCapped | src/terminal_optimization/container_system.py:1745-1799 | the online and planned throughput are each the smaller of the TEU demand and the matching quay capacity |
| Traffic.ToBoxes | src/terminal_optimization/container_system.py:1472-1475 | each category's box count times its TEU factor gives back its TEU |
| Traffic.SameOnlineThroughput | src/terminal_optimization/container_system.py:1448-1479 | the boxes depend only on the year's volume and the online crane capacity |
| Traffic.StackMovesSplit | src/terminal_optimization/container_system.py:1512-1523 | the laden and reefer stack moves are the box count times the weighted mix of import/export and transhipment moves per box |
| Traffic.NoCraneNoMoves | src/terminal_optimization/container_system.py:1448-1525 | with no crane capacity online, there are no boxes and no STS, stack, empty or tractor moves |
| Traffic.NoThroughputNoBoxes | src/terminal_optimization/container_system.py:1459-1479 | a zero online throughput yields zero boxes of every category |
| Traffic.NoBoxesNoMoves | src/terminal_optimization/container_system.py:1484-1525 | zero boxes yield zero moves of every kind |
| Traffic.AssetsKeepDemand | src/terminal_optimization/container_system.py:1402-1415 | appending infrastructure leaves the commodities and vessels unchanged |
| Traffic.DemandDetermines | src/terminal_optimization/container_system.py:1392-1446 | registries with the same commodities and vessels have the same volumes, call sizes and last handling fee in every year |
| Traffic.VolumeHasFee | src/terminal_optimization/container_system.py:189-196 | a non-zero volume needs a commodity, so a handling fee is defined |
| Capacity.OnlineAtMostPlanned | src/terminal_optimization/container_system.py:1541-1544 | with non-negative capacities, the online capacity never exceeds the planned capacity |
| Capacity.BerthOccupancy | src/terminal_optimization/container_system.py:1644-1743 | `calculate_berth_occupancy`. With no cranes all four occupancies are Inf. With cranes the planned values are finite, and the online values are Inf exactly when no crane capacity is online. Finite online values are at most 1 |
| Capacity.PlannedOccupancyBound | src/terminal_optimization/container_system.py:1668-1683 | with equal cranes filling at most the available slots, the planned berth occupancy is at most a per-crane scale divided by the crane count |
| Capacity.UniformBerthPlanned | src/terminal_optimization/container_system.py:1668-1683 | a bound on the planned berth time of equal cranes carries over to the planned berth occupancy |
| Capacity.CraneTarget | src/terminal_optimization/container_system.py:550 | the crane count at which the occupancy bound falls to the allowable occupancy is at least one |
| Capacity.BelowCraneTarget | src/terminal_optimization/container_system.py:550 | a crane count at which the bound still exceeds the allowable occupancy lies below the target |
| Capacity.GateMinutes | src/terminal_optimization/container_system.py:1807-1855 | the gate service rate is Inf exactly when there is no gate; otherwise it exceeds 1 exactly when the design gate minutes exceed the planned gate capacity |
| Capacity.RatioAboveOne | src/terminal_optimization/container_system.py:1850 | with a positive divisor, a quotient exceeds one exactly when the dividend exceeds the divisor |
| Capacity.WaitingFactor | src/terminal_optimization/container_system.py:1869-1894 | the factor is Inf exactly when the berth count is not 1 to 7. Otherwise it is `max(0, polynomial)`: non-negative, at least the polynomial, and 0 at an Inf occupancy |
| Capacity.CraneSlotByBerths | src/terminal_optimization/container_system.py:1901-1913 | when every berth has the same `max_cranes`, a slot is free exactly when berths × `max_cranes` exceeds the crane count |
| CashFlow.Zeros | src/terminal_optimization/container_system.py:1248-1253 | a zero column over the lifecycle |
| CashFlow.Schedule | src/terminal_optimization/container_system.py:1283-1326 | the series a new element gets covers every year of the lifecycle. Cell i of every column is the booking of year startyear + i: the capex cell, the maintenance, insurance and labour cells from `year_online` on, and 0 energy and fuel |
| CashFlow.CapexColumn | src/terminal_optimization/container_system.py:1305-1312 | the capex column has one cell per lifecycle year, cell i being the capex booked in year start + i |
| CashFlow.OpexColumn | src/terminal_optimization/container_system.py:1315-1322 | an operating-cost column has one cell per lifecycle year, cell i being the cost booked in year start + i |
| CashFlow.CapexTiming | src/terminal_optimization/container_system.py:1305-1312 | with a delivery time above one year, 0.6 × capex in year `year_online` − 2 and 0.4 × capex in year `year_online` − 1; otherwise the whole capex in year `year_online` − 1; 0 in every other year, so 0 from `year_online` on |
| CashFlow.CapexColumnTotal | src/terminal_optimization/container_system.py:1305-1312 | the capex column sums to the capex of the booking years that fall inside the lifecycle, so nothing is booked twice |
| CashFlow.CapexColumnComplete | src/terminal_optimization/container_system.py:1305-1312 | when every booking year falls inside the lifecycle, the capex column sums to the whole capex |
| CashFlow.OpexColumnTotal | src/terminal_optimization/container_system.py:1315-1322 | an operating-cost column books its value once for every lifecycle year at or after `year_online` |
| CashFlow.OpexTiming | src/terminal_optimization/container_system.py:1315-1322 | an operating-cost column holds the value in every year from `year_online` on and 0 in every year before it |
| CashFlow.SetCell | src/terminal_optimization/container_system.py:242-243 | writing one cell changes that cell of the named column and nothing else |
| CashFlow.AddSeq | src/terminal_optimization/container_system.py:1264 | column `+=` adds year by year |
| CashFlow.ColumnTotal | src/terminal_optimization/container_system.py:1260-1264 | a ledger column covers the whole lifecycle |
| CashFlow.LedgerOf | src/terminal_optimization/container_system.py:1247-1264 | every ledger column, demurrage and revenue included, covers the lifecycle |
| CashFlow.LedgerConserves | src/terminal_optimization/container_system.py:1260-1264 | a ledger column adds up to the sum over every element with a series of that element's column total, so nothing is lost or counted twice |
| CashFlow.DefaultNominalValue | src/terminal_optimization/container_system.py:1328-1342 | the nominal WACC of the default gearing, returns and tax is 0.1584 |
| CashFlow.WaccRealInflates | src/terminal_optimization/container_system.py:1344-1352 | inflating the real WACC gives back the nominal WACC: (1 + real)(1 + inflation) = 1 + nominal |
| CashFlow.DefaultWaccPositive | src/terminal_optimization/container_system.py:1344-1352 | the default real WACC is positive |
| CashFlow.Discount | src/terminal_optimization/container_system.py:1278-1279 | the discount factor (1 + WACC)^i is positive |
| CashFlow.DiscountAtLeastOne | src/terminal_optimization/container_system.py:1278-1279 | at a non-negative rate, the discount factor is at least one |
| CashFlow.DiscountShrinks | src/terminal_optimization/container_system.py:1274-1279 | at a non-negative rate, a discounted non-negative amount is at most the amount |
| CashFlow.DiscountColumn | src/terminal_optimization/container_system.py:1271-1279 | entry i of a discounted column is the ledger entry divided by (1 + WACC)^i |
| CashFlow.DiscountMoney | src/terminal_optimization/container_system.py:1271-1279 | the discounted demurrage is non-finite where the demurrage is, and otherwise the entry divided by (1 + WACC)^i |
| CashFlow.DiscountLedger | src/terminal_optimization/container_system.py:1269-1281 | `cash_flows_WACC_real` has every column the ledger has, with the same length |
| CashFlow.NpvFinite | src/terminal_optimization/container_system.py:1354-1377 | the NPV is non-finite exactly when some year's demurrage is |
| CashFlow.DiscountCostFree | src/terminal_optimization/container_system.py:1269-1279 | discounting a cost-free ledger leaves it cost-free |
| CashFlow.PresentValuesOfRevenues | src/terminal_optimization/container_system.py:1362-1372 | without costs, the present values add up the revenues taken as they are |
| CashFlow.NpvOfRevenuesOnly | src/terminal_optimization/container_system.py:1362-1372 | the NPV of a cost-free ledger is the undiscounted sum of the revenues: `NPV` adds `self.revenues`, not their discounted values |
| Assets.WithSeries | src/terminal_optimization/container_system.py:1283-1326 | `add_cashflow_data_to_element` gives the element the schedule of its own capex, maintenance, insurance, labour, `year_online` and delivery time, and changes nothing else about it |
| Assets.OnlineYear | src/terminal_optimization/container_system.py:739-742 | `year_online` is year + delivery time, plus one exactly when the decision falls in the start year |
| Assets.MaxLoa | src/terminal_optimization/container_system.py:570-571 | the quay design length is the largest LOA of the three vessel classes |
| Assets.MaxDraft | src/terminal_optimization/container_system.py:572-573 | the design draft is the largest draft of the three vessel classes |
| Assets.QuayDepth | src/terminal_optimization/container_system.py:572-587 | the quay depth accommodates every vessel class: its draft plus maximum sinkage, wave motion and safety margin |
| Assets.QuayLineLength | src/terminal_optimization/container_system.py:576-583 | the quay lengths added for berths 1..n sum to LOA + 30 for one berth and to 1.1·n·(LOA + 15) for n ≥ 2 |
| Assets.NewBerth | src/terminal_optimization/container_system.py:556-557 | a berth with the configured `max_cranes`, online after its delivery time, and with no series |
| Assets.NewQuay | src/terminal_optimization/container_system.py:606-643 | `quay_invest`: a quay online after its delivery time, whose land use is length × apron width |
| Assets.NewCrane | src/terminal_optimization/container_system.py:645-687 | `crane_invest`: a crane of the configured effective capacity, online in the later of year + delivery time and the latest quay year |
| Assets.NewTractor | src/terminal_optimization/container_system.py:724-747 | a tractor online in year + delivery time, plus one in the start year |
| Assets.NewHandler | src/terminal_optimization/container_system.py:767-799 | an empty handler online in year + delivery time, plus one in the start year |
| Assets.NewEquipment | src/terminal_optimization/container_system.py:1005-1051 | stack equipment of the configured technology, online in year + delivery time, plus one in the start year |
| Assets.NewLadenStack | src/terminal_optimization/container_system.py:825-864 | a laden stack of the configured technology's capacity, with a series, online in year + delivery time, plus one in the start year |
| Assets.NewEmptyStack | src/terminal_optimization/container_system.py:890-919 | an empty stack of the configured capacity, with a series, online in year + delivery time, plus one in the start year |
| Assets.NewOOGStack | src/terminal_optimization/container_system.py:947-975 | an OOG stack of the configured capacity, online in year + delivery time, plus one in the start year; it has a series exactly when the decision is not in the start year |
| Assets.NewGate | src/terminal_optimization/container_system.py:1110-1144 | a gate of the configured capacity, with a series, online in year + delivery time, plus one in the start year |
| Assets.NewGeneralServices | src/terminal_optimization/container_system.py:1163-1230 | general services online after their delivery time, with a series, whose maintenance is the capex times the maintenance ratio |
| Costs.BookElement | src/terminal_optimization/container_system.py:238-245 | writing one element's cost sets only the year's cell of the target column, and only for elements of the kind that have a series; its kind, timing, capacities and every other cell stay as they were |
| Costs.Booked | src/terminal_optimization/container_system.py:238-245 | a writer pass keeps the registry's length and every series' lifecycle length |
| Costs.BookedAt | src/terminal_optimization/container_system.py:238-245 | element i after a writer pass is element i with its own cell written |
| Costs.BookedShape | src/terminal_optimization/container_system.py:238-245 | a writer pass changes no element's kind, timing or capacities |
| Costs.BookedFrame | src/terminal_optimization/container_system.py:238-245 | a writer pass touches only the year's cell of the one column it writes |
| Costs.BookedOtherKind | src/terminal_optimization/container_system.py:238-264 | a pass over one kind leaves the cells of every other kind unchanged |
| Costs.BookedCellsTotal | src/terminal_optimization/container_system.py:238-245 | after a pass over a kind whose elements all have a series, that kind's cells of the year add up to the cost of its online elements |
| Costs.SharesAddUp | src/terminal_optimization/container_system.py:238-243 | spread equally over the online elements of a kind, the per-element shares add up to the whole amount |
| Costs.EnergyPasses | src/terminal_optimization/container_system.py:223-326 | the energy passes keep every series' lifecycle length |
| Costs.EnergyBooked | src/terminal_optimization/container_system.py:223-326 | `calculate_energy_cost` keeps every series' lifecycle length |
| Costs.EnergyFrame | src/terminal_optimization/container_system.py:223-326 | `calculate_energy_cost` writes only the energy cells of the year |
| Costs.EnergyPassesCranes | src/terminal_optimization/container_system.py:231-245 | after the energy passes, the crane energy cells are those the crane pass wrote; the later passes do not touch them |
| Costs.EnergyPassesCraneTotal | src/terminal_optimization/container_system.py:231-245 | with equal cranes, the crane energy cells add up to consumption × energy price × STS moves |
| Costs.CraneEnergyTotal | src/terminal_optimization/container_system.py:228-245 | `calculate_energy_cost`: the STS moves are shared over the online cranes and the crane energy of the year adds up to consumption × price × all STS moves |
| Costs.EnergyPassesReefers | src/terminal_optimization/container_system.py:265-282 | after the energy passes, the laden-stack energy cells are those the reefer pass wrote; the general-services pass does not touch them |
| Costs.EnergyPassesReeferTotal | src/terminal_optimization/container_system.py:265-282 | with equal laden stacks, the laden-stack energy cells add up to reefers per slot × yearly reefer price × reefer slots |
| Costs.ReeferEnergyTotal | src/terminal_optimization/container_system.py:265-282 | the reefer slots are shared over the online laden stacks, powered 24 hours on 365 days; the stacks' energy of the year adds up to reefers per slot × energy price × 24 × 365 × all reefer slots |
| Costs.EnergyPassesEquipment | src/terminal_optimization/container_system.py:247-263 | with rmg, after the energy passes the stack-equipment energy cells are those the equipment pass wrote |
| Costs.EnergyPassesSkipEquipment | src/terminal_optimization/container_system.py:247-263 | without rmg no energy pass writes the stack-equipment energy cells |
| Costs.EnergyPassesEquipmentTotal | src/terminal_optimization/container_system.py:247-263 | with equal machines, the stack-equipment energy cells add up to power consumption × energy price × stack moves under rmg and are untouched otherwise |
| Costs.EquipmentEnergyTotal | src/terminal_optimization/container_system.py:247-263 | with rmg the stack moves are shared over the online machines and their energy of the year adds up to power consumption × price × all stack moves; with rtg, rs or sc the energy writer leaves those cells as they were |
| Costs.GeneralEnergyTotal | src/terminal_optimization/container_system.py:284-326 | every online general-services element is charged the lighting of the online land use plus the general consumption |
| Costs.LabourBooked | src/terminal_optimization/container_system.py:328-366 | `calculate_general_labour_cost` keeps every series' lifecycle length |
| Costs.LabourFrame | src/terminal_optimization/container_system.py:328-366 | `calculate_general_labour_cost` writes only the labour cells of the year |
| Costs.GeneralLabourTotal | src/terminal_optimization/container_system.py:335-366 | with an online crane, every online general-services element is charged the fixed and shift labour of the year; with none, nothing is written |
| Costs.NoCraneNoLabour | src/terminal_optimization/container_system.py:341 | with no online crane, the labour writer leaves the registry unchanged |
| Costs.FuelPasses | src/terminal_optimization/container_system.py:369-430 | the fuel passes keep every series' lifecycle length |
| Costs.FuelBooked | src/terminal_optimization/container_system.py:369-430 | `calculate_fuel_cost` keeps every series' lifecycle length |
| Costs.FuelFrame | src/terminal_optimization/container_system.py:369-430 | `calculate_fuel_cost` writes only the fuel cells of the year |
| Costs.HandlerFuelTotal | src/terminal_optimization/container_system.py:374-389 | with equal handlers, the empty-handler fuel of the year adds up to consumption × fuel price × empty moves |
| Costs.FuelPassesEquipment | src/terminal_optimization/container_system.py:391-408 | with rtg, rs or sc, after the fuel passes the stack-equipment fuel cells are those the equipment pass wrote |
| Costs.FuelPassesSkipEquipment | src/terminal_optimization/container_system.py:391-408 | with rmg no fuel pass writes the stack-equipment fuel cells |
| Costs.FuelPassesEquipmentTotal | src/terminal_optimization/container_system.py:391-408 | with equal machines, the stack-equipment fuel cells add up to fuel consumption × fuel price × stack moves when the equipment burns fuel and are untouched otherwise |
| Costs.EquipmentFuelTotal | src/terminal_optimization/container_system.py:391-408 | with rtg, rs or sc the stack moves are shared over the online machines and their fuel of the year adds up to fuel consumption × fuel price × all stack moves; with rmg the fuel writer leaves those cells as they were |
| Costs.TractorFuelTotal | src/terminal_optimization/container_system.py:411-429 | with equal tractors, the tractor fuel of the year adds up to consumption × fuel price × tractor moves |
| Costs.NoCraneNoDemurrage | src/terminal_optimization/container_system.py:444-478 | with no online crane the service rate is 0 and the demurrage is 0 |
| Costs.DemurrageUnbounded | src/terminal_optimization/container_system.py:433-482 | with equal cranes, the demurrage is non-finite exactly when a crane is online and the berth count is outside 1..7, where the waiting factor is Inf |
| Costs.OnlineDemurrage | src/terminal_optimization/container_system.py:450-473 | with crane capacity online, the demurrage is finite exactly when the berth count is 1..7 |
| Costs.DemurrageNonNegative | src/terminal_optimization/container_system.py:450-480 | with non-negative demurrage rates, a finite demurrage is non-negative, because the penalty time is `max(0, ...)` |
| Revenue.SafetyFactor | src/terminal_optimization/container_system.py:171-180 | the safety factor is 0 exactly when there is no quay, more than one crane and no tractor, and 1 otherwise |
| Revenue.CappedRevenue | src/terminal_optimization/container_system.py:217-219 | the revenue is the smaller of the demand value and the handling capacity, both scaled by the safety factor |
| Revenue.YearRevenue | src/terminal_optimization/container_system.py:165-221 | `calculate_revenue` appends a revenue exactly when a commodity, and so a fee, exists |
| Revenue.VolumeBooksRevenue | src/terminal_optimization/container_system.py:189-221 | a year with non-zero volume always books a revenue |
| Revenue.UniformFeeDemand | src/terminal_optimization/container_system.py:189-196 | at one fee for every commodity, the demand value is total volume × fee × safety factor |
| Revenue.DemandRevenueNonNegative | src/terminal_optimization/container_system.py:189-196 | at non-negative fees and volumes, the demand value is non-negative |
| Revenue.NoCraneNoRevenue | src/terminal_optimization/container_system.py:204-219 | with no crane online, the service rate is 0 and so is the revenue |
| Revenue.ServiceRateAtMostCapacity | src/terminal_optimization/container_system.py:204-208 | the service rate lies between 0 and the online effective crane capacity |
| Revenue.CraneOccupancyNonNegative | src/terminal_optimization/container_system.py:1720-1731 | a finite online crane occupancy lies between 0 and 1 |
| Triggers.FloorDivIsDiv | src/terminal_optimization/container_system.py:719 | `//` on non-negative counts is floor division |
| Triggers.DivAtLeast | src/terminal_optimization/container_system.py:719 | t // r reaches c exactly when t reaches c·r |
| Triggers.RatioAddsExit | src/terminal_optimization/container_system.py:719-750 | the ratio loops append nothing exactly when the starting count already serves the cranes. Otherwise they stop with the whole count at c·r or more, and one append fewer would not have stopped them |
| Triggers.RatioLoopTest | src/terminal_optimization/container_system.py:697-750 | after j appends (the counter is the online count before the first append and the whole count after), the loop test holds exactly while j is below the closed-form count |
| Triggers.HalfIsRatio | src/terminal_optimization/container_system.py:1057 | the rmg test `stack > equipment * 0.5` is the ratio test with ratio 2 |
| Triggers.StackAddsCover | src/terminal_optimization/container_system.py:821-867 | the closed-form stack count covers the deficit, and one stack fewer would not |
| Triggers.StackLoopTest | src/terminal_optimization/container_system.py:821 | after j stacks the deficit is still open exactly while j is below the closed-form count |
| Triggers.GateTargetCover | src/terminal_optimization/container_system.py:1106 | the target gate count is at least one and covers the design minutes; above one gate, one fewer would not |
| Triggers.GateAddsCover | src/terminal_optimization/container_system.py:1106-1146 | the gate loop stops with at least one gate covering the design minutes. It appends nothing exactly when that holds at the start, and one gate fewer would not have stopped it |
| Triggers.GateLoopTest | src/terminal_optimization/container_system.py:1106-1146 | after j gates the gates suffice exactly when j is the closed-form count |
| Terminal.AppendElement | src/terminal_optimization/container_system.py:556-558 | appending a sound asset keeps the registry sound and the demand side unchanged, and adds one to its kind's count and its slots to the slot total |
| Terminal.AppendKeeps | src/terminal_optimization/container_system.py:719-750 | appending an asset other than a berth or crane keeps the registry invariant: cranes ≤ slots, berths ≤ quays |
| Terminal.RepeatKeeps | src/terminal_optimization/container_system.py:719-750 | appending j copies of such an asset keeps the invariant and the demand, adds j to its kind and leaves the crane count unchanged |
| Terminal.RegistryOccupancy | src/terminal_optimization/container_system.py:1652-1670 | under the registry invariant, a registry with cranes has berths, so the occupancy divides by a non-zero berth count |
| Terminal.WithBerthOk | src/terminal_optimization/container_system.py:553-558 | a berth is added only when no crane slot is free, and afterwards a slot is free and there is at most one berth more than quays |
| Terminal.WithQuayOk | src/terminal_optimization/container_system.py:567-588 | a quay is added only when berths exceed quays, and afterwards quays ≥ berths |
| Terminal.BerthPassOk | src/terminal_optimization/container_system.py:550-604 | one pass of the berth loop keeps the registry invariant and the demand side, only appends berths, quays and cranes, and adds exactly one crane |
| Terminal.BerthLoopProgress | src/terminal_optimization/container_system.py:550-604 | while the planned occupancy exceeds the allowable occupancy, the crane count is below the target count, which bounds the loop |
| Terminal.StackAppend | src/terminal_optimization/container_system.py:1541-1544 | appending a stack adds its capacity to the planned sum, and to the online sum once it is online; the volume and crane capacity do not change |
| Terminal.LadenAfterAppend | src/terminal_optimization/container_system.py:1529-1572 | a new laden stack leaves the required capacity and reefer slots unchanged and adds its step to planned + online |
| Terminal.EmptyAfterAppend | src/terminal_optimization/container_system.py:1574-1606 | a new empty stack leaves the required capacity unchanged and adds its step to planned + online |
| Terminal.OOGAfterAppend | src/terminal_optimization/container_system.py:1608-1639 | a new OOG stack leaves the required capacity unchanged and adds its step to planned + online |
| Terminal.GateAfterAppend | src/terminal_optimization/container_system.py:1807-1855 | a new gate leaves the design gate minutes unchanged and adds one gate |
| Terminal.GateTest | src/terminal_optimization/container_system.py:1850 | the gate loop test `service_rate_planned > 1` is "the gates do not cover the design minutes" |
| Terminal.GateLoopState | src/terminal_optimization/container_system.py:1106-1146 | after j gates the loop test holds exactly while j is below the closed-form count |
| Terminal.RatioLoop | src/terminal_optimization/container_system.py:719-750 | the tractor, empty-handler and stack-equipment loop appends the closed-form count of copies and stops with the cranes served by count // required |
| Terminal.HalfLoop | src/terminal_optimization/container_system.py:1056-1088 | the rmg equipment loop appends the closed-form count and stops with stacks ≤ equipment × 0.5 |
| Terminal.LadenStackLoop | src/terminal_optimization/container_system.py:821-867 | the laden stack loop appends the least number of stacks covering the deficit, and stops with required ≤ planned + online |
| Terminal.EmptyStackLoop | src/terminal_optimization/container_system.py:886-923 | the empty stack loop appends the least number of stacks covering the deficit, and stops with required ≤ planned + online |
| Terminal.OOGStackLoop | src/terminal_optimization/container_system.py:943-977 | the OOG stack loop appends the least number of stacks covering the deficit, and stops with required ≤ planned + online |
| Terminal.GateLoop | src/terminal_optimization/container_system.py:1106-1146 | the gate loop appends the closed-form number of gates and stops with a gate service rate ≤ 1 |
| Terminal.BookAll | src/terminal_optimization/container_system.py:238-245 | the in-place writer loop over the registry yields exactly the writer pass |
| Terminal.RegistryDemurrage | src/terminal_optimization/container_system.py:442-447 | under the registry invariant the demurrage is defined: online cranes imply quays to divide by |
| Terminal.OnlineCraneCapacity | src/terminal_optimization/container_system.py:444-450 | an online crane means positive online crane capacity |
| Terminal.AddColumns | src/terminal_optimization/container_system.py:1260-1264 | the accumulation loop builds exactly the six ledger columns |
| Terminal.DiscountLoop | src/terminal_optimization/container_system.py:1271-1279 | the per-year discounting loop yields the discounted column |
| Terminal.DiscountMoneyLoop | src/terminal_optimization/container_system.py:1271-1279 | the per-year discounting loop yields the discounted demurrage column |
| Terminal.LatestQuayLoop | src/terminal_optimization/container_system.py:678-681 | the `years_online` loop yields the latest quay `year_online` |
| Terminal.FindQuayYear | src/terminal_optimization/container_system.py:678-681 | the latest year over `find_elements(Quay_wall)` is the latest quay year of the registry |
| Terminal.FrameKeepsRegistry | src/terminal_optimization/container_system.py:242-245 | writing cost cells keeps the registry invariant, the element shapes and the demand side |
| Terminal.BerthLoop | src/terminal_optimization/container_system.py:550-604 | the registry the berth loop leaves keeps the registry invariant and the demand side, and only appends berths, quays and cranes |
| Terminal.BerthLoopExits | src/terminal_optimization/container_system.py:550-604 | the berth loop stops with a defined planned berth occupancy within the allowable occupancy, and leaves the registry alone when that holds at the start |
| Terminal.AfterTractors | src/terminal_optimization/container_system.py:689-752 | the registry `horizontal_transport_invest` leaves keeps the invariant and the demand side and only appends |
| Terminal.AfterLaden | src/terminal_optimization/container_system.py:804-867 | the registry `laden_stack_invest` leaves keeps the invariant and the demand side and only appends |
| Terminal.AfterEmpty | src/terminal_optimization/container_system.py:869-925 | the registry `empty_stack_invest` leaves keeps the invariant and the demand side and only appends |
| Terminal.AfterOOG | src/terminal_optimization/container_system.py:927-977 | the registry `oog_stack_invest` leaves keeps the invariant and the demand side and only appends |
| Terminal.AfterEquipment | src/terminal_optimization/container_system.py:979-1088 | the registry `stack_equipment_invest` leaves keeps the invariant and the demand side and only appends |
| Terminal.AfterGates | src/terminal_optimization/container_system.py:1090-1146 | the registry `gate_invest` leaves keeps the invariant and the demand side and only appends |
| Terminal.AfterHandlers | src/terminal_optimization/container_system.py:754-802 | the registry `empty_handler_invest` leaves keeps the invariant and the demand side and only appends |
| Terminal.AfterGeneral | src/terminal_optimization/container_system.py:1148-1230 | the registry `general_services_invest` leaves keeps the invariant and the demand side and only appends |
| Terminal.Decide | src/terminal_optimization/container_system.py:100-125 | each investment decision of the year keeps the invariant and the demand side and only appends |
| Terminal.Decided | src/terminal_optimization/container_system.py:100-125 | running a list of decisions in order keeps the invariant and the demand side and only appends |
| Terminal.DecidedFirst | src/terminal_optimization/container_system.py:100-125 | running a list of decisions is taking the first one and then running the rest on the registry it leaves |
| Terminal.YearStep | src/terminal_optimization/container_system.py:100-125 | the year's decisions, berth through general services in the source's order, keep the invariant and the demand side and only append |
| Terminal.Invested | src/terminal_optimization/container_system.py:90-125 | the registry after the investment years from the start year up to a given year keeps the invariant and the demand side and only appends |
| Terminal.InvestedYear | src/terminal_optimization/container_system.py:90-125 | one more investment year, on the registry the years before it left, keeps the invariant and the demand side and only appends |
| Terminal.InvestedOneYear | src/terminal_optimization/container_system.py:90-125 | investing over the single year `year` is that year's decisions |
| Terminal.InvestedNext | src/terminal_optimization/container_system.py:90-125 | investing up to the year after `year` is taking year `year`'s decisions on the registry the years before it left |
| Terminal.WriteYear | src/terminal_optimization/container_system.py:129-137 | each cost writer of one year rewrites cost cells only: the invariant, the element shapes and the demand side are kept |
| Terminal.WrittenUntil | src/terminal_optimization/container_system.py:129-137 | running a writer over the years up to a given year keeps the invariant, the element shapes and the demand side |
| Terminal.WrittenYear | src/terminal_optimization/container_system.py:129-137 | running a writer over one more year keeps the invariant, the element shapes and the demand side |
| Terminal.WrittenNext | src/terminal_optimization/container_system.py:129-137 | running a writer up to the year after `year` is running it over `year` on the registry the earlier years left |
| Terminal.CostsWritten | src/terminal_optimization/container_system.py:129-137 | the energy, labour and fuel loops, run one after the other, keep the invariant, the element shapes and the demand side |
| Terminal.CostsWrittenIs | src/terminal_optimization/container_system.py:129-137 | the three writer loops run in the source's order leave exactly CostsWritten |
| Terminal.Simulated | src/terminal_optimization/container_system.py:90-137 | the registry `simulate` leaves keeps the invariant and the demand side and has the shape of the invested registry: the writers change no element's kind, timing or capacities |
| Terminal.SimulatedIs | src/terminal_optimization/container_system.py:90-137 | the investment loop followed by the writer loops leaves exactly Simulated |
| Terminal.System.constructor | src/terminal_optimization/container_system.py:12-56 | a system with the given configuration and registry, and empty demurrage and revenue lists |
| Terminal.System.CountOnline | src/terminal_optimization/container_system.py:233-236 | the counting loop yields the number of elements of a kind online in the year |
| Terminal.System.FindElements | src/terminal_optimization/container_system.py:1381-1390 | the filter loop yields `find_elements` |
| Terminal.System.SumOnline | src/terminal_optimization/container_system.py:1662-1665 | the summing loop yields the online sum of a measure |
| Terminal.System.QuayInvest | src/terminal_optimization/container_system.py:606-643 | appends exactly the new quay and keeps the registry invariant |
| Terminal.System.CraneInvest | src/terminal_optimization/container_system.py:645-687 | appends exactly the new crane, online no earlier than the latest quay |
| Terminal.System.BerthStep | src/terminal_optimization/container_system.py:550-604 | one pass of the berth loop: berth decision, quay decision, crane |
| Terminal.System.BerthDecision | src/terminal_optimization/container_system.py:553-565 | appends a berth exactly when no crane slot is free |
| Terminal.System.QuayDecision | src/terminal_optimization/container_system.py:567-595 | appends a quay sized by the berth count exactly when berths exceed quays |
| Terminal.System.BerthInvest | src/terminal_optimization/container_system.py:512-604 | `berth_invest` ends with a defined planned berth occupancy within the allowable occupancy, changes nothing when that already held, keeps the invariant and only appends berths, quays and cranes |
| Terminal.System.HorizontalTransportInvest | src/terminal_optimization/container_system.py:689-752 | returns the online crane count and appends the closed-form number of tractors. Except with straddle carriers, it stops with the cranes served by the tractor count, which is the online count when nothing was added and the whole count otherwise |
| Terminal.System.EmptyHandlerInvest | src/terminal_optimization/container_system.py:754-802 | appends the closed-form number of handlers and stops with all cranes served by the whole handler count // required |
| Terminal.System.StackEquipmentInvest | src/terminal_optimization/container_system.py:979-1088 | appends the closed-form number of equipment units for the configured technology. It stops when the loop test fails: for rtg, sc and rs, online cranes ≤ count // required; for rmg, online laden stacks ≤ 0.5 × count. The count is the online count if nothing was appended and the whole count otherwise |
| Terminal.System.LadenStackInvest | src/terminal_optimization/container_system.py:804-867 | appends the least number of laden stacks covering the deficit and stops with required ≤ planned + online |
| Terminal.System.EmptyStackInvest | src/terminal_optimization/container_system.py:869-925 | appends the least number of empty stacks covering the deficit and stops with required ≤ planned + online |
| Terminal.System.OOGStackInvest | src/terminal_optimization/container_system.py:927-977 | appends the least number of OOG stacks covering the deficit and stops with required ≤ planned + online |
| Terminal.System.GateInvest | src/terminal_optimization/container_system.py:1090-1146 | appends the closed-form number of gates and stops with a gate service rate ≤ 1 |
| Terminal.System.GeneralServicesInvest | src/terminal_optimization/container_system.py:1148-1230 | appends one general-services element, sized by the online land use, exactly in year startyear + 1 |
| Terminal.System.BookCells | src/terminal_optimization/container_system.py:238-245 | one writer pass over a kind, keeping the registry invariant and the element shapes |
| Terminal.System.CalculateEnergyCost | src/terminal_optimization/container_system.py:223-326 | the registry after `calculate_energy_cost` is the energy writer applied to it |
| Terminal.System.BookShare | src/terminal_optimization/container_system.py:238-245 | one pass that shares an amount over a kind's online elements |
| Terminal.System.GeneralEnergyRate | src/terminal_optimization/container_system.py:284-320 | the land-use loop yields the general energy charge |
| Terminal.System.CalculateGeneralLabourCost | src/terminal_optimization/container_system.py:328-366 | the registry after `calculate_general_labour_cost` is the labour writer applied to it |
| Terminal.System.CalculateFuelCost | src/terminal_optimization/container_system.py:369-430 | the registry after `calculate_fuel_cost` is the fuel writer applied to it |
| Terminal.System.CalculateDemurrageCost | src/terminal_optimization/container_system.py:433-482 | appends the year's demurrage to the list |
| Terminal.System.ServicePerQuayLoop | src/terminal_optimization/container_system.py:442-447 | the service-rate loop yields the online crane capacity per quay |
| Terminal.System.CalculateRevenue | src/terminal_optimization/container_system.py:165-221 | appends the year's revenue when a fee exists, and nothing otherwise |
| Terminal.System.DemandLoop | src/terminal_optimization/container_system.py:189-196 | the commodity loop yields the demand value and the last fee |
| Terminal.System.ServiceRateLoop | src/terminal_optimization/container_system.py:204-208 | the crane loop yields the service rate |
| Terminal.System.YearInvest | src/terminal_optimization/container_system.py:100-125 | one investment year yields exactly YearStep: the nine decisions in the source's order. It keeps the invariant and the demand side and only appends to the registry |
| Terminal.System.TakeDecision | src/terminal_optimization/container_system.py:100-125 | one investment decision yields exactly Decide: the matching `*_invest` call |
| Terminal.System.InvestEveryYear | src/terminal_optimization/container_system.py:90-125 | the investment years yield exactly Invested over the whole lifecycle. They keep the invariant and the demand side and only append |
| Terminal.System.InvestYearOf | src/terminal_optimization/container_system.py:90-125 | one pass of the investment loop takes the registry from Invested up to `year` to Invested up to the year after |
| Terminal.System.WriteEveryYear | src/terminal_optimization/container_system.py:129-137 | the three writer loops yield exactly CostsWritten. They keep the invariant, the element shapes and the demand side |
| Terminal.System.WriteLoop | src/terminal_optimization/container_system.py:129-137 | one writer loop yields exactly WrittenUntil over the whole lifecycle, keeping the invariant, the element shapes and the demand side |
| Terminal.System.WriteYearOf | src/terminal_optimization/container_system.py:129-137 | one pass of a writer loop takes the registry from WrittenUntil `year` to WrittenUntil the year after |
| Terminal.System.WriteBy | src/terminal_optimization/container_system.py:129-137 | one writer call yields exactly WriteYear: the matching `calculate_*_cost` call |
| Terminal.System.DemurrageEveryYear | src/terminal_optimization/container_system.py:141-144 | one demurrage per year, entry i being the demurrage of year startyear + i |
| Terminal.System.DemurrageYear | src/terminal_optimization/container_system.py:143-144 | appending one year keeps the demurrage list year by year |
| Terminal.System.RevenueEveryYear | src/terminal_optimization/container_system.py:146-149 | one revenue per year, entry i being the revenue of year startyear + i |
| Terminal.System.RevenueYear | src/terminal_optimization/container_system.py:148-149 | appending one year keeps the revenue list year by year |
| Terminal.System.AddCashflowElements | src/terminal_optimization/container_system.py:1241-1281 | returns the ledger of the registry, demurrage and revenues, and its discounted copy at the real WACC |
| Terminal.System.NPV | src/terminal_optimization/container_system.py:1354-1377 | the NPV of the ledger at the default real WACC, non-finite exactly when some year's demurrage is |
| Terminal.System.Simulate | src/terminal_optimization/container_system.py:58-163 | `simulate` leaves exactly the registry Simulated. It keeps the invariant and the demand and fills one demurrage and one revenue per year. Its result is the NPV of the resulting ledger, non-finite exactly when some demurrage is |

## Left out

- The `!= np.inf` guards of the cost writers (e.g. lines 241, 261, 278, 323) are not modelled. Every written value is a finite real in the model, so they always pass.
- Cells the source never writes stay NaN in its data frames. A column an element lacks is skipped when the ledger is summed (lines 1260-1262), and the energy and fuel writers write 0 for offline elements. So the only such cells are general-services labour in years without an online STS crane (lines 341, 360-365), when the element's own labour is 0 and its schedule has no labour column. The `fillna` at line 1266 does not act in place, so there a NaN would spread into the source's ledger and NPV. The model books 0.0 in those cells.
- `waiting_time_occupancy` (line 1897) and `rate_throughput_volume` (line 211) are computed but never used by the core, so they are not modelled.
- The storage capacity totals of `calculate_throughput` (lines 1761-1791) are computed but unused, so they are not modelled.
- Plotting, `report_element`, the debug prints and `calculate_indirect_costs` are not modelled. They only produce output, or are never called from `simulate` (line 157).
- `container_objects.py` is not part of this model. The element constructors and the derived attributes (a crane's `effective_capacity`, the stack and vessel record fields) are taken as given configuration fields.
- `container_defaults.py` becomes the injected `Defaults` record, and `streamlit_app.py` is not part of the model.
- The quay unit rate, `int(Gijt_constant * (2·depth + freeboard) ** Gijt_coefficient)` (line 625), is a configuration field. Its depth is fixed by the configuration, and a fractional power is not expressible over exact reals.
- The pandas lookups with try/except (lines 192-196, 1404-1411, 1436-1439) become an `Option` lookup in the commodity's scenario map. A missing year contributes nothing.
- numpy and Python number types are not distinguished: integer and float arithmetic are both exact reals.
- The investment routines run on a value copy of the registry. The empty-handler and stack-equipment loops append one mutated object repeatedly (lines 767, 1005-1012), which becomes a sequence of equal values. Aliasing between the copies is not modelled.
- Terminal.System.Simulate: requires data and a non-zero volume for every simulated year (`DemandEveryYear`). With zero volume, `calculate_revenue` divides by `total_vol` (line 211).
- Terminal.System.LadenStackInvest: builds the laden stack once per call, since its reefer rack cost depends on reefer slots that the appended stacks do not change.
- Terminal.System.CalculateEnergyCost, Terminal.System.CalculateGeneralLabourCost and Terminal.System.CalculateFuelCost: their in-place writes are modelled through the `Booked` functions on the registry value. The state after them states the whole new registry, but their per-kind totals are proved in separate lemmas.
- Costs.GeneralEnergyTotal: the lighting charge sums each online element's `land_use` over the six land-using kinds, as the source does. It does not check that `land_use` is expressed in the same units for every kind.
