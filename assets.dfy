/** The elements the investment routines create: for each kind, the attributes
    the routine sets (online year, capex, operating costs, land use, capacity)
    from the configuration, and the cash-flow series booked from them. Also the
    quay sizing rule and what the registry demands of each element. */
module Assets {
  import opened Numbers
  import opened Config
  import opened Registry
  import opened CashFlow

  /** k copies of one element (the loops that re-append the same object). */
  function Repeat(e: Element, k: nat): (r: seq<Element>)
    ensures |r| == k && forall i :: 0 <= i < k ==> r[i] == e
  {
    if k == 0 then [] else Repeat(e, k - 1) + [e]
  }

  /** An asset of a kind with every attribute the routines may set still zero. */
  function Blank(k: Kind, delivery: int, yearOnline: int): (e: Element)
    ensures e.Asset? && e.kind == k && e.deliveryTime == delivery && e.yearOnline == yearOnline
    ensures e.capex == 0.0 && e.insurance == 0.0 && e.labour == 0.0 && e.series.None?
  {
    Asset(k, delivery, yearOnline, 0.0, 0.0, 0.0, 0.0, 0.0, 0.0, 0.0, 0,
          0.0, 0.0, 0.0, 0.0, 0.0, 0.0, None)
  }

  /** `add_cashflow_data_to_element`: the element with its series booked from
      its own capex, operating costs, online year and delivery time. */
  function WithSeries(p: Params, e: Element): (r: Element)
    requires e.Asset?
    ensures r.Asset? && Shape(r) == Shape(e)
    ensures r.series == Some(Schedule(p, e.capex, e.maintenance, e.insurance, e.labour, e.yearOnline, e.deliveryTime))
  {
    e.(series := Some(Schedule(p, e.capex, e.maintenance, e.insurance, e.labour, e.yearOnline, e.deliveryTime)))
  }

  /** The online year of a vehicle, stack, piece of stack equipment or gate:
      after the delivery time, one year later when ordered in the start year. */
  function OnlineYear(p: Params, year: int, delivery: int): (y: int)
    ensures y >= year + delivery
    ensures y == year + delivery <==> year != p.startyear
    ensures y <= year + delivery + 1
  {
    if year == p.startyear then year + delivery + 1 else year + delivery
  }

  /** The wages of a crew over the daily shifts, at the blue-collar salary. */
  function CrewLabour(p: Params, crew: real): real
  {
    crew * p.defaults.labour.dailyShifts * p.defaults.labour.blueCollarSalary
  }

  // ---------------------------------------------------------------------
  // Quay sizing (PIANC 2014, as applied in `berth_invest`)

  /** The largest length over all of the three vessel classes. */
  function MaxLoa(p: Params): (l: real)
    ensures l >= p.defaults.handysize.loa && l >= p.defaults.handymax.loa && l >= p.defaults.panamax.loa
    ensures l == p.defaults.handysize.loa || l == p.defaults.handymax.loa || l == p.defaults.panamax.loa
  {
    Max(Max(p.defaults.handysize.loa, p.defaults.handymax.loa), p.defaults.panamax.loa)
  }

  /** The largest draft over the three vessel classes. */
  function MaxDraft(p: Params): (d: real)
    ensures d >= p.defaults.handysize.draft && d >= p.defaults.handymax.draft && d >= p.defaults.panamax.draft
    ensures d == p.defaults.handysize.draft || d == p.defaults.handymax.draft || d == p.defaults.panamax.draft
  {
    Max(Max(p.defaults.handysize.draft, p.defaults.handymax.draft), p.defaults.panamax.draft)
  }

  /** The length of the next quay for `berths` berths when `quays` quays exist. */
  function QuayLength(loa: real, berths: int, quays: int): real
  {
    if quays == 0 then loa + 2.0 * 15.0
    else if quays == 1 then 1.1 * berths as real * (loa + 15.0) - (loa + 2.0 * 15.0)
    else 1.1 * berths as real * (loa + 15.0) - 1.1 * (berths - 1) as real * (loa + 15.0)
  }

  /** The quay depth: the deepest draft plus sinkage, wave motion and safety margin. */
  function QuayDepth(p: Params): (d: real)
    ensures forall t :: d >= VesselDataOf(p, t).draft + p.defaults.quay.maxSinkage +
                             p.defaults.quay.waveMotion + p.defaults.quay.safetyMargin
  {
    MaxDraft(p) + p.defaults.quay.maxSinkage + p.defaults.quay.waveMotion + p.defaults.quay.safetyMargin
  }

  /** The total quay length after n quays, each built when the berth count first
      exceeded the quay count, i.e. the q-th quay (from 0) built for q + 1 berths. */
  function QuayLine(loa: real, n: nat): real
  {
    if n == 0 then 0.0 else QuayLine(loa, n - 1) + QuayLength(loa, n, n - 1)
  }

  /** The quays add up to the PIANC length of the whole berth line: one berth needs
      LOA + 30, n >= 2 berths need 1.1 * n * (LOA + 15). */
  lemma {:induction false} QuayLineLength(loa: real, n: nat)
    requires n >= 1
    ensures QuayLine(loa, n) == if n == 1 then loa + 30.0 else 1.1 * n as real * (loa + 15.0)
  {
    if n == 2 {
      QuayLineTwo(loa);
    } else if n > 2 {
      QuayLineLength(loa, n - 1);
      QuayLineStep(loa, n);
    }
  }

  lemma QuayLineTwo(loa: real)
    ensures QuayLine(loa, 2) == 1.1 * 2 as real * (loa + 15.0)
  {
    assert QuayLine(loa, 1) == loa + 30.0;
    assert QuayLine(loa, 2) == (loa + 30.0) + (1.1 * 2.0 * (loa + 15.0) - (loa + 30.0));
  }

  lemma QuayLineStep(loa: real, n: nat)
    requires n > 2 && QuayLine(loa, n - 1) == 1.1 * (n - 1) as real * (loa + 15.0)
    ensures QuayLine(loa, n) == 1.1 * n as real * (loa + 15.0)
  {
    var m := n as real;
    assert QuayLength(loa, n, n - 1) == 1.1 * m * (loa + 15.0) - 1.1 * (m - 1.0) * (loa + 15.0);
    assert QuayLine(loa, n) == 1.1 * (m - 1.0) * (loa + 15.0) + QuayLength(loa, n, n - 1);
  }

  // ---------------------------------------------------------------------
  // The elements each routine appends

  /** `berth_invest`'s new berth: online after its delivery time, no series. */
  function NewBerth(p: Params, year: int): (e: Element)
    ensures IsKind(e, Berth) && e.series.None?
    ensures e.maxCranes == p.defaults.berth.maxCranes
    ensures e.yearOnline == year + e.deliveryTime
    ensures AssetOk(p, e)
  {
    var b := p.defaults.berth;
    Blank(Berth, b.deliveryTime, year + b.deliveryTime).(maxCranes := b.maxCranes)
  }

  /** `quay_invest`: capex is the wall at the unit rate, the mobilisation (at least
      its minimum), the apron pavement and the land, each truncated as the source
      does; insurance and maintenance are shares of the wall cost. */
  function NewQuay(p: Params, year: int, length: real, depth: real): (e: Element)
    ensures IsKind(e, Quay) && e.yearOnline == year + p.defaults.quay.deliveryTime
    ensures e.landUse == length * p.defaults.quay.apronWidth
    ensures AssetOk(p, e)
  {
    var q := p.defaults.quay;
    var rate := q.unitRate as real;
    var mobilisation := Trunc(Max(length * rate * q.mobilisationPerc, q.mobilisationMin)) as real;
    var apron := length * q.apronWidth * q.apronPavement;
    var land := length * q.apronWidth * p.landPrice;
    WithSeries(p, Blank(Quay, q.deliveryTime, year + q.deliveryTime).(
      capex := Trunc(length * rate + mobilisation + apron + land) as real,
      insurance := rate * length * q.insurancePerc,
      maintenance := rate * length * q.maintenancePerc,
      landUse := length * q.apronWidth, length := length, depth := depth))
  }

  /** `crane_invest`: a crane of the configured type, online after its delivery
      time but not before the latest quay. */
  function NewCrane(p: Params, year: int, latestQuay: int): (e: Element)
    ensures IsKind(e, Crane) && e.effectiveCapacity == p.crane.effectiveCapacity
    ensures e.yearOnline >= year + p.crane.deliveryTime && e.yearOnline >= latestQuay
    ensures e.yearOnline == year + p.crane.deliveryTime || e.yearOnline == latestQuay
    ensures AssetOk(p, e)
  {
    var c := p.crane;
    var yo := if year + c.deliveryTime >= latestQuay then year + c.deliveryTime else latestQuay;
    WithSeries(p, Blank(Crane, c.deliveryTime, yo).(
      capex := Trunc(c.unitRate + c.unitRate * c.mobilisationPerc) as real,
      insurance := c.unitRate * c.insurancePerc,
      maintenance := c.unitRate * c.maintenancePerc,
      labour := CrewLabour(p, c.crew),
      effectiveCapacity := c.effectiveCapacity, consumption := c.consumption))
  }

  /** A vehicle of `horizontal_transport_invest` or `empty_handler_invest`. */
  function NewVehicle(p: Params, k: Kind, v: VehicleData, year: int): (e: Element)
    requires k == Tractor || k == EmptyHandler
    ensures IsKind(e, k) && e.yearOnline == OnlineYear(p, year, v.deliveryTime)
    ensures AssetOk(p, e)
  {
    var b := Blank(k, v.deliveryTime, OnlineYear(p, year, v.deliveryTime));
    WithSeries(p, b.(
      capex := Trunc(v.unitRate + v.mobilisation) as real,
      maintenance := v.unitRate * v.maintenancePerc,
      labour := CrewLabour(p, v.crew),
      fuelConsumption := v.fuelConsumption))
  }

  function NewTractor(p: Params, year: int): (e: Element)
    ensures IsKind(e, Tractor) && e.yearOnline == OnlineYear(p, year, p.defaults.tractor.deliveryTime)
    ensures AssetOk(p, e)
  {
    NewVehicle(p, Tractor, p.defaults.tractor, year)
  }

  function NewHandler(p: Params, year: int): (e: Element)
    ensures IsKind(e, EmptyHandler) && e.yearOnline == OnlineYear(p, year, p.defaults.handler.deliveryTime)
    ensures AssetOk(p, e)
  {
    NewVehicle(p, EmptyHandler, p.defaults.handler, year)
  }

  /** `stack_equipment_invest`: one unit of the configured stack equipment. */
  function NewEquipment(p: Params, year: int): (e: Element)
    ensures IsKind(e, StackEquipment) && e.yearOnline == OnlineYear(p, year, EquipmentDataOf(p).deliveryTime)
    ensures AssetOk(p, e)
  {
    var q := EquipmentDataOf(p);
    WithSeries(p, Blank(StackEquipment, q.deliveryTime, OnlineYear(p, year, q.deliveryTime)).(
      capex := Trunc(q.unitRate + q.mobilisation) as real,
      insurance := q.unitRate * q.insurancePerc,
      maintenance := q.unitRate * q.maintenancePerc,
      labour := CrewLabour(p, q.crew),
      fuelConsumption := q.fuelConsumption, powerConsumption := q.powerConsumption))
  }

  /** The pavement and drainage cost of a stack block, before land. */
  function StackWorks(s: StackData): real
  {
    (s.pavement + s.drainage) * s.grossTgs * s.length * s.width * s.areaFactor
  }

  /** A stack block of the given table: capacity from the table, capex the
      pavement, drainage and land of the block plus mobilisation and `extra`,
      maintenance a share of pavement and drainage, both truncated. */
  function NewStack(p: Params, k: Kind, s: StackData, year: int, extra: real, landUse: real): (e: Element)
    ensures IsKind(e, k) && e.capacity == s.capacity && e.yearOnline == OnlineYear(p, year, s.deliveryTime)
    ensures e.landUse == landUse
  {
    var area := s.length * s.width;
    Blank(k, s.deliveryTime, OnlineYear(p, year, s.deliveryTime)).(
      capex := Trunc((s.pavement + s.drainage + p.landPrice) * s.grossTgs * area * s.areaFactor
                     + s.mobilisation + extra) as real,
      maintenance := Trunc((s.pavement + s.drainage) * s.grossTgs * area * s.areaFactor * s.maintenancePerc) as real,
      landUse := landUse, capacity := s.capacity, reefersPresent := s.reefersPresent)
  }

  /** `laden_stack_invest`: the rack for the year's reefer slots is part of capex. */
  function NewLadenStack(p: Params, year: int, reeferSlots: real): (e: Element)
    requires LadenStackData(p).height != 0.0
    ensures IsKind(e, LadenStack) && e.capacity == LadenStackData(p).capacity && e.series.Some?
    ensures e.yearOnline == OnlineYear(p, year, LadenStackData(p).deliveryTime)
    ensures AssetOk(p, e)
  {
    var s := LadenStackData(p);
    WithSeries(p, NewStack(p, LadenStack, s, year, reeferSlots * s.reeferRack,
                           s.capacity / s.height * s.grossTgs * s.areaFactor))
  }

  function NewEmptyStack(p: Params, year: int): (e: Element)
    requires p.defaults.emptyStack.height != 0.0
    ensures IsKind(e, EmptyStack) && e.capacity == p.defaults.emptyStack.capacity && e.series.Some?
    ensures e.yearOnline == OnlineYear(p, year, p.defaults.emptyStack.deliveryTime)
    ensures AssetOk(p, e)
  {
    var s := p.defaults.emptyStack;
    WithSeries(p, NewStack(p, EmptyStack, s, year, 0.0, s.capacity / s.height * s.grossTgs * s.areaFactor))
  }

  /** `oog_stack_invest`: land use without the area factor, and, as the source
      is indented, a series only for stacks ordered after the start year. */
  function NewOOGStack(p: Params, year: int): (e: Element)
    requires p.defaults.oogStack.height != 0.0
    ensures IsKind(e, OOGStack) && e.capacity == p.defaults.oogStack.capacity
    ensures e.series.None? <==> year == p.startyear
    ensures e.yearOnline == OnlineYear(p, year, p.defaults.oogStack.deliveryTime)
    ensures AssetOk(p, e)
  {
    var s := p.defaults.oogStack;
    var e := NewStack(p, OOGStack, s, year, 0.0, s.capacity / s.height * s.grossTgs);
    if year == p.startyear then e else WithSeries(p, e)
  }

  /** `gate_invest`: capex the unit, mobilisation, canopy and land of the gate area. */
  function NewGate(p: Params, year: int): (e: Element)
    ensures IsKind(e, Gate) && e.capacity == p.defaults.gate.capacity && e.series.Some?
    ensures e.yearOnline == OnlineYear(p, year, p.defaults.gate.deliveryTime)
    ensures AssetOk(p, e)
  {
    var g := p.defaults.gate;
    WithSeries(p, Blank(Gate, g.deliveryTime, OnlineYear(p, year, g.deliveryTime)).(
      capex := Trunc(g.unitRate + g.mobilisation + g.canopyCosts * g.area + p.landPrice * g.area) as real,
      maintenance := g.unitRate * g.maintenancePerc,
      labour := CrewLabour(p, g.crew),
      landUse := g.area, capacity := g.capacity))
  }

  /** The floor area of the general-services buildings. */
  function Buildings(g: GeneralData): real
  {
    g.office + g.workshop + g.scanningInspectionArea + g.repairBuilding
  }

  /** `general_services_invest`: buildings, lighting masts for the terminal's
      land (`totalLand`, in hectares), the fixed installations and the land of
      the buildings; maintenance a share of capex; online after the delivery time. */
  function NewGeneralServices(p: Params, year: int, totalLand: real): (e: Element)
    requires p.defaults.general.lightingMastRequired != 0.0
    ensures IsKind(e, GeneralServices) && e.series.Some?
    ensures e.yearOnline == year + p.defaults.general.deliveryTime
    ensures e.maintenance == e.capex * p.defaults.general.generalMaintenance
    ensures AssetOk(p, e)
  {
    var g := p.defaults.general;
    var capex := g.office * g.officeCost + g.workshop * g.workshopCost
                 + g.scanningInspectionArea * g.scanningInspectionAreaCost
                 + g.lightingMastCost * (totalLand / g.lightingMastRequired)
                 + g.repairBuilding * g.repairBuildingCost
                 + (g.fuelStationCost + g.firefightCost + g.maintenanceToolsCost
                    + g.terminalOperatingSoftwareCost + g.electricalStationCost)
                 + Buildings(g) * p.landPrice;
    WithSeries(p, Blank(GeneralServices, g.deliveryTime, year + g.deliveryTime).(
      capex := capex, maintenance := capex * g.generalMaintenance, landUse := Buildings(g)))
  }

  // ---------------------------------------------------------------------
  // What the registry demands of an element

  /** The kinds the cost writers write into: every element of these kinds has a series. */
  predicate Written(k: Kind)
  {
    k == Crane || k == Tractor || k == LadenStack || k == StackEquipment ||
    k == EmptyHandler || k == GeneralServices
  }

  /** Series cover the lifecycle; written kinds have one; cranes, berths and gates
      carry the configured capacity, slots and gate capacity. */
  predicate AssetOk(p: Params, e: Element)
  {
    e.Asset? ==>
      (e.series.Some? ==> SeriesOk(e.series.value, p.lifecycle)) &&
      (Written(e.kind) ==> e.series.Some?) &&
      (e.kind == Crane ==> e.effectiveCapacity == p.crane.effectiveCapacity) &&
      (e.kind == Berth ==> e.maxCranes == p.defaults.berth.maxCranes) &&
      (e.kind == Gate ==> e.capacity == p.defaults.gate.capacity)
  }
}
