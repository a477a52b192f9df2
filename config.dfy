/** The injected configuration of a terminal: one record per asset type, per
    container category and per vessel class (the default tables of the
    repository), and the scalar parameters of a `System`. Field names follow
    the source's attribute names. */
module Config {

  /** The four stacking technologies, for both `laden_stack` and `stack_equipment`. */
  datatype Tech = RTG | RMG | SC | RS

  /** The crane types `crane_invest` accepts. */
  datatype CraneType = GantryCrane | HarbourCrane | STSCrane | MobileCrane

  datatype VesselType = Handysize | Handymax | Panamax

  /** `quay_wall_data`. `unitRate` is the value of the Gijt power law
      `int(Gijt_constant * (2 * depth + freeboard) ** Gijt_coefficient)` for the
      configured depth; the depth is fixed by the configuration, so is the rate. */
  datatype QuayData = QuayData(
    deliveryTime: int, mobilisationMin: real, mobilisationPerc: real,
    maintenancePerc: real, insurancePerc: real, freeboard: real,
    maxSinkage: real, waveMotion: real, safetyMargin: real,
    apronWidth: real, apronPavement: real, unitRate: int)

  /** `berth_data`. */
  datatype BerthData = BerthData(deliveryTime: int, maxCranes: int)

  /** `crane_type_defaults` (e.g. `sts_crane_data`); `effectiveCapacity` is the
      capacity the crane object derives from lifting capacity, cycles and efficiency. */
  datatype CraneData = CraneData(
    craneType: CraneType, deliveryTime: int, unitRate: real,
    mobilisationPerc: real, maintenancePerc: real, insurancePerc: real,
    crew: real, consumption: real, effectiveCapacity: real)

  /** `tractor_trailer_data` and `empty_handler_data`: a vehicle that is added
      in proportion to the number of cranes. */
  datatype VehicleData = VehicleData(
    deliveryTime: int, unitRate: real, mobilisation: real,
    maintenancePerc: real, crew: real, fuelConsumption: real,
    required: int, nonEssentialMoves: real)

  /** The stack tables (`rtg_stack_data`, ..., `empty_stack_data`, `oog_stack_data`),
      with the reefer and move attributes the stack objects carry. */
  datatype StackData = StackData(
    deliveryTime: int, mobilisation: real, maintenancePerc: real,
    width: real, height: real, length: real, capacity: real,
    grossTgs: real, areaFactor: real, pavement: real, drainage: real,
    reeferRack: real, reefersPresent: real, reeferFactor: real,
    household: real, digout: real, digoutMargin: real)

  /** The stack equipment tables (`rtg_data`, `rmg_data`, `sc_data`, `rs_data`). */
  datatype EquipmentData = EquipmentData(
    deliveryTime: int, unitRate: real, mobilisation: real,
    maintenancePerc: real, insurancePerc: real, crew: real,
    required: int, fuelConsumption: real, powerConsumption: real)

  /** `gate_data`. */
  datatype GateData = GateData(
    deliveryTime: int, unitRate: real, mobilisation: real,
    maintenancePerc: real, crew: real, canopyCosts: real, area: real,
    designCapacity: real, exitInspectionTime: real, entryInspectionTime: real,
    peakHour: real, peakDay: real, peakFactor: real, truckMoves: real,
    capacity: real)

  /** `general_services_data`: buildings, their costs and the staff table. */
  datatype GeneralData = GeneralData(
    deliveryTime: int, office: real, workshop: real,
    scanningInspectionArea: real, repairBuilding: real,
    officeCost: real, workshopCost: real, scanningInspectionAreaCost: real,
    repairBuildingCost: real, lightingMastCost: real, lightingMastRequired: real,
    fuelStationCost: real, firefightCost: real, maintenanceToolsCost: real,
    terminalOperatingSoftwareCost: real, electricalStationCost: real,
    generalMaintenance: real, lightingConsumption: real, generalConsumption: real,
    crewRequired: real, ceo: real, secretary: real, administration: real,
    hr: real, commercial: real, operations: real, engineering: real,
    security: real)

  /** `labour_data`. */
  datatype LabourData = LabourData(dailyShifts: real, blueCollarSalary: real, whiteCollarSalary: real)

  /** The container tables (`laden_container_data`, ...). */
  datatype ContainerData = ContainerData(teuFactor: real, dwellTime: real, peakFactor: real, stackOccupancy: real)

  /** A vessel class table (`handysize_data`, ...). */
  datatype VesselData = VesselData(
    callSize: real, loa: real, draft: real, mooringTime: real,
    allTurnTime: real, demurrageRate: real)

  datatype Defaults = Defaults(
    quay: QuayData, berth: BerthData, tractor: VehicleData, handler: VehicleData,
    rtgStack: StackData, rmgStack: StackData, scStack: StackData, rsStack: StackData,
    emptyStack: StackData, oogStack: StackData,
    rtg: EquipmentData, rmg: EquipmentData, sc: EquipmentData, rs: EquipmentData,
    gate: GateData, general: GeneralData, labour: LabourData,
    laden: ContainerData, reefer: ContainerData, empty: ContainerData, oog: ContainerData,
    handysize: VesselData, handymax: VesselData, panamax: VesselData)

  /** The constructor arguments of `System`. */
  datatype Params = Params(
    startyear: int, lifecycle: nat, stackEquipment: Tech, ladenStack: Tech,
    operationalHours: int, crane: CraneData, allowableBerthOccupancy: real,
    ladenPerc: real, reeferPerc: real, emptyPerc: real, oogPerc: real,
    transhipmentRatio: real, energyPrice: real, fuelPrice: real, landPrice: real,
    defaults: Defaults)

  /** The laden stack table chosen by `laden_stack`. */
  function LadenStackData(p: Params): StackData
  {
    match p.ladenStack
    case RTG => p.defaults.rtgStack
    case RMG => p.defaults.rmgStack
    case SC => p.defaults.scStack
    case RS => p.defaults.rsStack
  }

  /** The stack equipment table chosen by `stack_equipment`. */
  function EquipmentDataOf(p: Params): EquipmentData
  {
    match p.stackEquipment
    case RTG => p.defaults.rtg
    case RMG => p.defaults.rmg
    case SC => p.defaults.sc
    case RS => p.defaults.rs
  }

  function VesselDataOf(p: Params, t: VesselType): VesselData
  {
    match t
    case Handysize => p.defaults.handysize
    case Handymax => p.defaults.handymax
    case Panamax => p.defaults.panamax
  }

  /** `operational_hours // 24`. */
  function OperationalDays(p: Params): int
  {
    p.operationalHours / 24
  }

  predicate VesselDataOk(v: VesselData)
  {
    v.callSize >= 0.0 && v.mooringTime >= 0.0
  }

  predicate StackDataOk(s: StackData)
  {
    s.capacity > 0.0 && s.height != 0.0
  }

  predicate ContainerDataOk(c: ContainerData)
  {
    c.teuFactor != 0.0 && c.stackOccupancy != 0.0
  }

  /** What the source needs of its configuration: every divisor it uses is
      non-zero (`operational_hours // 24`, stack heights, occupancy ratios, TEU
      factors, the lighting-mast and crew ratios), and
      every "add until satisfied" loop can make progress: each added crane,
      berth slot, stack, gate and vehicle adds capacity, and the allowable
      berth occupancy is positive. */
  predicate ParamsOk(p: Params)
  {
    var d := p.defaults;
    p.operationalHours >= 24 &&
    p.allowableBerthOccupancy > 0.0 &&
    p.crane.effectiveCapacity > 0.0 &&
    d.berth.maxCranes >= 1 &&
    d.tractor.required >= 1 && d.handler.required >= 1 &&
    (p.stackEquipment != RMG ==> EquipmentDataOf(p).required >= 1) &&
    StackDataOk(LadenStackData(p)) && StackDataOk(d.emptyStack) && StackDataOk(d.oogStack) &&
    d.gate.capacity > 0.0 &&
    d.general.lightingMastRequired != 0.0 && d.general.crewRequired != 0.0 &&
    ContainerDataOk(d.laden) && ContainerDataOk(d.reefer) &&
    ContainerDataOk(d.empty) && ContainerDataOk(d.oog) &&
    VesselDataOk(d.handysize) && VesselDataOk(d.handymax) && VesselDataOk(d.panamax)
  }
}
