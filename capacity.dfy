/** The capacity calculators: stack requirements, berth and crane occupancy,
    gate design minutes, the waiting-time factor table and the crane-slot
    check. Each folds sums over the registry; none changes it. */
module Capacity {
  import opened Numbers
  import opened Config
  import opened Registry
  import opened Traffic

  /** What the laden/reefer stack calculator returns. */
  datatype LadenLoad = LadenLoad(
    planned: real, online: real, required: real,
    groundSlots: real, area: real, reeferSlots: real)

  /** What the empty and OOG stack calculators return (the empty calculator
      also reports its ground slots and area). */
  datatype StackLoad = StackLoad(planned: real, online: real, required: real)

  /** The divisors the stack calculators use are non-zero. */
  predicate StackInputsOk(p: Params)
  {
    p.operationalHours >= 24 &&
    StackDataOk(LadenStackData(p)) && StackDataOk(p.defaults.emptyStack) && StackDataOk(p.defaults.oogStack) &&
    ContainerDataOk(p.defaults.laden) && ContainerDataOk(p.defaults.reefer) &&
    ContainerDataOk(p.defaults.empty) && ContainerDataOk(p.defaults.oog)
  }

  /** Ground slots a category needs: TEU times peak factor and dwell time, over
      the stack occupancy, the stack height and the operational days. */
  function GroundSlots(teu: real, c: ContainerData, height: real, days: int): real
    requires c.stackOccupancy != 0.0 && height != 0.0 && days != 0
  {
    teu * c.peakFactor * c.dwellTime / c.stackOccupancy / height / days as real
  }

  /** `laden_reefer_stack_capacity`: capacity planned and online over the laden
      stacks, and the capacity the year's laden and reefer TEU require (reefer
      ground slots are scaled by the reefer factor). */
  function LadenReeferStackCapacity(p: Params, es: seq<Element>, year: int): LadenLoad
    requires StackInputsOk(p) && LastVolume(es, year).Some?
  {
    var t := ThroughputCharacteristics(p, es, year);
    var s := LadenStackData(p);
    var days := OperationalDays(p);
    var laden := GroundSlots(t.laden, p.defaults.laden, s.height, days);
    var reefer := GroundSlots(t.reefer, p.defaults.reefer, s.height, days) * s.reeferFactor;
    var total := laden + reefer;
    LadenLoad(Planned(es, LadenStack, Capacity), Online(es, LadenStack, Capacity, year),
              (laden + reefer) * s.height, total, total * s.areaFactor, reefer * s.height)
  }

  /** `empty_stack_capacity`. */
  function EmptyStackCapacity(p: Params, es: seq<Element>, year: int): StackLoad
    requires StackInputsOk(p) && LastVolume(es, year).Some?
  {
    var t := ThroughputCharacteristics(p, es, year);
    var s := p.defaults.emptyStack;
    var slots := GroundSlots(t.empty, p.defaults.empty, s.height, OperationalDays(p));
    StackLoad(Planned(es, EmptyStack, Capacity), Online(es, EmptyStack, Capacity, year), slots * s.height)
  }

  /** `oog_stack_capacity`: the OOG spots are the ground slots divided by the
      OOG TEU factor (and not multiplied back by the height). */
  function OOGStackCapacity(p: Params, es: seq<Element>, year: int): StackLoad
    requires StackInputsOk(p) && LastVolume(es, year).Some?
  {
    var t := ThroughputCharacteristics(p, es, year);
    StackLoad(Planned(es, OOGStack, Capacity), Online(es, OOGStack, Capacity, year), OOGSpots(p, t.oog))
  }

  /** The OOG spots for a year's OOG TEU. */
  function OOGSpots(p: Params, teu: real): real
    requires StackInputsOk(p)
  {
    var o := p.defaults.oog;
    GroundSlots(teu, o, p.defaults.oogStack.height, OperationalDays(p)) / o.teuFactor
  }

  /** The stack triggers fire while the requirement exceeds planned plus online
      capacity; since the planned total already holds the online stacks, online
      capacity is counted twice. */
  predicate StackShort(required: real, planned: real, online: real)
  {
    required > planned + online
  }

  /** Online capacity is part of planned capacity: with non-negative values the
      online total never exceeds the planned total of the same kind. */
  lemma {:induction false} OnlineAtMostPlanned(es: seq<Element>, k: Kind, m: Measure, year: int)
    requires forall i :: 0 <= i < |es| && IsKind(es[i], k) ==> ValueOf(es[i], m) >= 0.0
    ensures Online(es, k, m, year) <= Planned(es, k, m)
  {
    if es != [] {
      InitIndex(es);
      OnlineAtMostPlanned(Init(es), k, m, year);
    }
  }

  // ---------------------------------------------------------------------
  // Berth and crane occupancy

  datatype Occupancy = Occupancy(berthPlanned: Ext, berthOnline: Ext, cranePlanned: Ext, craneOnline: Ext)

  /** Hours the calls of one class keep the cranes busy at a service rate. */
  function CraneTime(calls: nat, v: VesselData, rate: real): real
    requires rate != 0.0
  {
    calls as real * (v.callSize / rate)
  }

  /** Hours the calls of one class occupy a berth: crane time plus mooring time
      divided by `split`. */
  function BerthTime(calls: nat, v: VesselData, rate: real, split: real): real
    requires rate != 0.0 && split != 0.0
  {
    calls as real * (v.callSize / rate + v.mooringTime / split)
  }

  /** What `calculate_berth_occupancy` needs to avoid a division by zero: once
      there is a crane, the planned service rate and the berth count are non-zero. */
  predicate OccupancyDefined(es: seq<Element>)
  {
    Count(es, Crane) > 0 ==> Planned(es, Crane, EffectiveCapacity) != 0.0 && Count(es, Berth) > 0
  }

  /** `calculate_berth_occupancy`, with the default vessel tables. Planned values
      use every crane and divide mooring time by the berth count for every class;
      online values use the cranes online in `year`, divide mooring time by the
      berth count for Panamax only, and are capped at 1. */
  function BerthOccupancy(p: Params, es: seq<Element>, c: Calls, year: int): (o: Occupancy)
    requires p.operationalHours > 0 && OccupancyDefined(es)
    ensures Count(es, Crane) == 0 ==> o == Occupancy(Inf, Inf, Inf, Inf)
    ensures Count(es, Crane) > 0 ==> o.berthPlanned.Fin? && o.cranePlanned.Fin?
    ensures Count(es, Crane) > 0 ==>
      (o.berthOnline.Inf? <==> Online(es, Crane, EffectiveCapacity, year) == 0.0) &&
      (o.craneOnline.Inf? <==> Online(es, Crane, EffectiveCapacity, year) == 0.0)
    ensures o.berthOnline.Fin? ==> o.berthOnline.r <= 1.0
    ensures o.craneOnline.Fin? ==> o.craneOnline.r <= 1.0
  {
    var hs, hm, pm := p.defaults.handysize, p.defaults.handymax, p.defaults.panamax;
    var oh := p.operationalHours as real;
    if Count(es, Crane) == 0 then Occupancy(Inf, Inf, Inf, Inf)
    else
      var planned := Planned(es, Crane, EffectiveCapacity);
      var online := Online(es, Crane, EffectiveCapacity, year);
      var berths := Count(es, Berth) as real;
      var berthPlanned := (BerthTime(c.handysize, hs, planned, berths) + BerthTime(c.handymax, hm, planned, berths)
                           + BerthTime(c.panamax, pm, planned, berths)) / oh;
      var cranePlanned := (CraneTime(c.handysize, hs, planned) + CraneTime(c.handymax, hm, planned)
                           + CraneTime(c.panamax, pm, planned)) / oh;
      if online == 0.0 then Occupancy(Fin(berthPlanned), Inf, Fin(cranePlanned), Inf)
      else
        var berthOnline := (BerthTime(c.handysize, hs, online, 1.0) + BerthTime(c.handymax, hm, online, 1.0)
                            + BerthTime(c.panamax, pm, online, berths)) / oh;
        var craneOnline := (CraneTime(c.handysize, hs, online) + CraneTime(c.handymax, hm, online)
                            + CraneTime(c.panamax, pm, online)) / oh;
        Occupancy(Fin(berthPlanned), Fin(Min(berthOnline, 1.0)), Fin(cranePlanned), Fin(Min(craneOnline, 1.0)))
  }

  /** The planned berth-hours per crane that bound planned occupancy: for calls
      c, cranes of effective capacity `eff` and at most `slots` cranes per berth,
      n cranes give a planned occupancy of at most OccupancyScale / n. */
  function OccupancyScale(p: Params, c: Calls, eff: real, slots: real): real
    requires p.operationalHours > 0 && eff != 0.0
  {
    var hs, hm, pm := p.defaults.handysize, p.defaults.handymax, p.defaults.panamax;
    (ClassScale(c.handysize, hs, eff, slots) + ClassScale(c.handymax, hm, eff, slots)
     + ClassScale(c.panamax, pm, eff, slots)) / p.operationalHours as real
  }

  function ClassScale(calls: nat, v: VesselData, eff: real, slots: real): real
    requires eff != 0.0
  {
    calls as real * v.callSize / eff + calls as real * v.mooringTime * slots
  }

  /** The berth time of one class with n cranes of capacity eff on b berths, each
      berth holding at most `slots` cranes, is at most ClassScale / n. */
  lemma BerthTimeBound(calls: nat, v: VesselData, n: real, eff: real, b: real, slots: real)
    requires VesselDataOk(v) && n >= 1.0 && eff > 0.0 && b > 0.0 && n <= b * slots
    ensures BerthTime(calls, v, n * eff, b) <= ClassScale(calls, v, eff, slots) / n
  {
    var k := calls as real;
    var x := k * v.mooringTime;
    var y := k * v.callSize / eff;
    assert x >= 0.0;
    ScaledQuotient(k, v.callSize, n, eff);
    Distribute(k, v.callSize / (n * eff), v.mooringTime / b);
    TimesQuotient(k, v.mooringTime, b);
    MooringBound(x, n, b, slots);
    assert ClassScale(calls, v, eff, slots) == y + x * slots;
    SplitQuotient(y, x * slots, n);
    assert BerthTime(calls, v, n * eff, b) == k * (v.callSize / (n * eff)) + k * (v.mooringTime / b);
    assert BerthTime(calls, v, n * eff, b) == y / n + x / b;
  }

  lemma TimesQuotient(k: real, a: real, b: real)
    requires b != 0.0
    ensures k * (a / b) == (k * a) / b
  {
  }

  lemma SplitQuotient(a: real, b: real, n: real)
    requires n != 0.0
    ensures (a + b) / n == a / n + b / n
  {
  }

  lemma ScaledQuotient(k: real, a: real, n: real, e: real)
    requires n != 0.0 && e != 0.0
    ensures k * (a / (n * e)) == (k * a / e) / n
  {
  }

  lemma Distribute(k: real, a: real, b: real)
    ensures k * (a + b) == k * a + k * b
  {
  }

  lemma MooringBound(x: real, n: real, b: real, slots: real)
    requires x >= 0.0 && n >= 1.0 && b > 0.0 && n <= b * slots
    ensures x / b <= x * slots / n
  {
    MulLe(n, b * slots, x);
    assert x * n <= x * slots * b;
    QuotientLe(x, n, b, slots);
  }

  lemma QuotientLe(x: real, n: real, b: real, slots: real)
    requires x >= 0.0 && n > 0.0 && b > 0.0 && x * n <= x * slots * b
    ensures x / b <= x * slots / n
  {
    var l, r := x / b, x * slots / n;
    assert l * b == x;
    assert r * n == x * slots;
    assert l * b * n <= r * n * b;
    if l > r {
      MulStrict(r, l, b * n);
      assert false;
    }
  }

  /** With every crane of capacity eff, at most `slots` cranes per berth and at
      least one crane, planned berth occupancy is at most OccupancyScale over the
      crane count: adding cranes drives it towards zero. */
  lemma PlannedOccupancyBound(p: Params, es: seq<Element>, c: Calls, year: int, eff: real)
    requires p.operationalHours > 0 && eff > 0.0
    requires VesselDataOk(p.defaults.handysize) && VesselDataOk(p.defaults.handymax) && VesselDataOk(p.defaults.panamax)
    requires forall i :: 0 <= i < |es| && IsKind(es[i], Crane) ==> es[i].effectiveCapacity == eff
    requires Count(es, Crane) >= 1
    requires Count(es, Crane) <= Count(es, Berth) * p.defaults.berth.maxCranes
    ensures OccupancyDefined(es)
    ensures BerthOccupancy(p, es, c, year).berthPlanned.r <=
            OccupancyScale(p, c, eff, p.defaults.berth.maxCranes as real) / Count(es, Crane) as real
  {
    var n, b := Count(es, Crane) as real, Count(es, Berth) as real;
    var slots := p.defaults.berth.maxCranes as real;
    CraneSlots(Count(es, Crane), Count(es, Berth), p.defaults.berth.maxCranes);
    MulPositive(n, eff);
    PlannedTimeBound(p, c, n, eff, b, slots);
    UniformBerthPlanned(p, es, c, year, eff, n, b, OccupancyScale(p, c, eff, slots) / n);
  }

  /** With every crane of capacity eff, the planned crane capacity is the crane
      count n times eff, so a bound on the planned berth time at that capacity
      bounds planned berth occupancy. */
  lemma UniformBerthPlanned(p: Params, es: seq<Element>, c: Calls, year: int, eff: real, n: real, b: real, bound: real)
    requires p.operationalHours > 0 && eff > 0.0 && Count(es, Crane) > 0 && Count(es, Berth) > 0
    requires n == Count(es, Crane) as real && b == Count(es, Berth) as real && n * eff > 0.0
    requires forall i :: 0 <= i < |es| && IsKind(es[i], Crane) ==> es[i].effectiveCapacity == eff
    requires PlannedBerthTime(p, c, n * eff, b) <= bound
    ensures OccupancyDefined(es)
    ensures BerthOccupancy(p, es, c, year).berthPlanned.r <= bound
  {
    PlannedUniform(es, Crane, EffectiveCapacity, eff);
    BerthPlannedIs(p, es, c, year, n * eff);
  }

  /** Whole crane counts within the berths' slots, as reals. */
  lemma CraneSlots(n: nat, b: nat, slots: nat)
    requires 1 <= n <= b * slots
    ensures b > 0 && b as real > 0.0 && 1.0 <= n as real <= b as real * slots as real
  {
    assert (b * slots) as real == b as real * slots as real;
  }

  /** The planned berth occupancy of the three default classes at planned crane
      capacity `planned` on b berths. */
  function PlannedBerthTime(p: Params, c: Calls, planned: real, b: real): real
    requires p.operationalHours > 0 && planned != 0.0 && b != 0.0
  {
    var hs, hm, pm := p.defaults.handysize, p.defaults.handymax, p.defaults.panamax;
    (BerthTime(c.handysize, hs, planned, b) + BerthTime(c.handymax, hm, planned, b)
     + BerthTime(c.panamax, pm, planned, b)) / p.operationalHours as real
  }

  /** Planned berth occupancy at a given planned crane capacity. */
  lemma BerthPlannedIs(p: Params, es: seq<Element>, c: Calls, year: int, planned: real)
    requires p.operationalHours > 0 && Count(es, Crane) > 0 && Count(es, Berth) > 0 && planned > 0.0
    requires Planned(es, Crane, EffectiveCapacity) == planned
    ensures OccupancyDefined(es)
    ensures BerthOccupancy(p, es, c, year).berthPlanned.r == PlannedBerthTime(p, c, planned, Count(es, Berth) as real)
  {
  }

  /** The bound on the three classes' planned berth time, on plain values. */
  lemma PlannedTimeBound(p: Params, c: Calls, n: real, eff: real, b: real, slots: real)
    requires p.operationalHours > 0 && eff > 0.0 && n >= 1.0 && b > 0.0 && n <= b * slots && n * eff > 0.0
    requires VesselDataOk(p.defaults.handysize) && VesselDataOk(p.defaults.handymax) && VesselDataOk(p.defaults.panamax)
    ensures PlannedBerthTime(p, c, n * eff, b) <= OccupancyScale(p, c, eff, slots) / n
  {
    var hs, hm, pm := p.defaults.handysize, p.defaults.handymax, p.defaults.panamax;
    BerthTimeBound(c.handysize, hs, n, eff, b, slots);
    BerthTimeBound(c.handymax, hm, n, eff, b, slots);
    BerthTimeBound(c.panamax, pm, n, eff, b, slots);
    SumOfQuotients(BerthTime(c.handysize, hs, n * eff, b), BerthTime(c.handymax, hm, n * eff, b),
                   BerthTime(c.panamax, pm, n * eff, b),
                   ClassScale(c.handysize, hs, eff, slots), ClassScale(c.handymax, hm, eff, slots),
                   ClassScale(c.panamax, pm, eff, slots), n, p.operationalHours as real);
  }

  lemma SumOfQuotients(t1: real, t2: real, t3: real, u1: real, u2: real, u3: real, n: real, h: real)
    requires n > 0.0 && h > 0.0 && t1 <= u1 / n && t2 <= u2 / n && t3 <= u3 / n
    ensures (t1 + t2 + t3) / h <= ((u1 + u2 + u3) / h) / n
  {
    assert u1 / n + u2 / n + u3 / n == (u1 + u2 + u3) / n;
    assert ((u1 + u2 + u3) / n) / h == ((u1 + u2 + u3) / h) / n;
  }

  /** The number of cranes beyond which planned occupancy is within the allowed
      occupancy: at least one, and at least OccupancyScale / allowable. */
  function CraneTarget(scale: real, allowable: real): (n: nat)
    requires allowable > 0.0
    ensures n >= 1
  {
    var q := Ceil(scale / allowable);
    if q < 1 then 1 else q
  }

  /** A crane count whose bound still exceeds the allowed occupancy is below the
      crane target. */
  lemma BelowCraneTarget(scale: real, allowable: real, n: nat)
    requires allowable > 0.0 && n >= 1 && scale / n as real > allowable
    ensures n < CraneTarget(scale, allowable)
  {
    var m := n as real;
    assert scale > allowable * m by {
      assert (scale / m) * m == scale;
      MulStrict(allowable, scale / m, m);
    }
    assert scale / allowable > m by {
      var q := scale / allowable;
      assert q * allowable == scale;
      MulCancel(q, m, allowable);
    }
  }

  // ---------------------------------------------------------------------
  // Gates

  datatype GateLoad = GateLoad(capacityPlanned: real, capacityOnline: real, rate: Ext, minutes: real)

  /** The design gate-lane minutes of the year's online box throughput: import
      and export are each half of the non-transhipment boxes, and each truck move
      costs the exit or entry inspection time, scaled by the weekly peak factors. */
  function DesignGateMinutes(p: Params, es: seq<Element>, year: int): real
    requires LastVolume(es, year).Some?
    requires ContainerDataOk(p.defaults.laden) && ContainerDataOk(p.defaults.reefer)
    requires ContainerDataOk(p.defaults.empty) && ContainerDataOk(p.defaults.oog)
  {
    GateLaneMinutes(p, BoxTotal(ThroughputBox(p, es, year)))
  }

  /** The design gate-lane minutes of `box` boxes. */
  function GateLaneMinutes(p: Params, box: real): real
  {
    var g := p.defaults.gate;
    var importMoves := box * (1.0 - p.transhipmentRatio) * 0.5;
    var exportMoves := box * (1.0 - p.transhipmentRatio) * 0.5;
    var exit := importMoves * g.truckMoves / 52.0 * g.peakFactor * g.peakDay * g.peakHour
                * g.exitInspectionTime * g.designCapacity;
    var entry := exportMoves * g.truckMoves / 52.0 * g.peakFactor * g.peakDay * g.peakHour
                 * g.entryInspectionTime * g.designCapacity;
    entry + exit
  }

  /** `calculate_gate_minutes`: the service rate is the design minutes over the
      planned gate capacity, and "inf" when there is no gate. */
  function GateMinutes(p: Params, es: seq<Element>, year: int): (g: GateLoad)
    requires LastVolume(es, year).Some?
    requires ContainerDataOk(p.defaults.laden) && ContainerDataOk(p.defaults.reefer)
    requires ContainerDataOk(p.defaults.empty) && ContainerDataOk(p.defaults.oog)
    requires Count(es, Gate) > 0 ==> Planned(es, Gate, Capacity) != 0.0
    ensures g.rate.Inf? <==> Count(es, Gate) == 0
    ensures Count(es, Gate) > 0 && Planned(es, Gate, Capacity) > 0.0 ==>
      (Exceeds(g.rate, 1.0) <==> DesignGateMinutes(p, es, year) > Planned(es, Gate, Capacity))
  {
    if Count(es, Gate) == 0 then GateLoad(0.0, 0.0, Inf, 0.0)
    else
      var planned := Planned(es, Gate, Capacity);
      var minutes := DesignGateMinutes(p, es, year);
      RatioAboveOne(minutes, planned);
      GateLoad(planned, Online(es, Gate, Capacity, year), Fin(minutes / planned), minutes)
  }

  lemma RatioAboveOne(x: real, d: real)
    requires d != 0.0
    ensures d > 0.0 ==> (x / d > 1.0 <==> x > d)
  {
    assert (x / d) * d == x;
    if d < 0.0 {
    } else if x / d > 1.0 {
      MulStrict(1.0, x / d, d);
    } else {
      MulLe(x / d, 1.0, d);
    }
  }

  // ---------------------------------------------------------------------
  // Waiting time

  datatype Poly = Poly(a4: real, a3: real, a2: real, a1: real, a0: real)

  /** The fourth-order regression of the E2/E/n queue, one row per berth count. */
  function Coefficients(berths: int): Poly
    requires 1 <= berths <= 7
  {
    match berths
    case 1 => Poly(79.726, -126.47, 70.660, -14.651, 0.9218)
    case 2 => Poly(29.825, -46.489, 25.656, -5.3517, 0.3376)
    case 3 => Poly(19.362, -30.388, 16.791, -3.5457, 0.2253)
    case 4 => Poly(17.334, -27.745, 15.432, -3.2725, 0.2080)
    case 5 => Poly(11.149, -17.339, 9.4010, -1.9687, 0.1247)
    case 6 => Poly(10.512, -16.390, 8.8292, -1.8368, 0.1158)
    case _ => Poly(8.4371, -13.226, 7.1446, -1.4902, 0.0941)
  }

  function Evaluate(c: Poly, x: real): real
  {
    c.a4 * x * x * x * x + c.a3 * x * x * x + c.a2 * x * x + c.a1 * x + c.a0
  }

  /** The waiting-time factor of `waiting_time`: `max(0, poly(occupancy))` for 1
      to 7 berths and "inf" otherwise. With an "inf" occupancy the polynomial is
      inf - inf, which is NaN, and `max(0, NaN)` is 0. */
  function WaitingFactor(berths: int, occupancy: Ext): (f: Ext)
    ensures f.Inf? <==> !(1 <= berths <= 7)
    ensures f.Fin? ==> f.r >= 0.0
    ensures 1 <= berths <= 7 && occupancy.Inf? ==> f == Fin(0.0)
    ensures 1 <= berths <= 7 && occupancy.Fin? ==> f.r >= Evaluate(Coefficients(berths), occupancy.r)
  {
    if !(1 <= berths <= 7) then Inf
    else if occupancy.Inf? then Fin(0.0)
    else Fin(Max(0.0, Evaluate(Coefficients(berths), occupancy.r)))
  }

  /** `waiting_time`'s factor for a year: taken at the online berth occupancy of
      the year's calls, indexed by the berth count. */
  function WaitingTime(p: Params, es: seq<Element>, year: int): Ext
    requires p.operationalHours > 0 && OccupancyDefined(es) && DemandOk(es)
  {
    WaitingFactor(Count(es, Berth), BerthOccupancy(p, es, VesselCalls(es, year), year).berthOnline)
  }

  // ---------------------------------------------------------------------
  // Crane slots

  /** `check_crane_slot_available`: the berths offer more crane slots than there are cranes. */
  function CraneSlotAvailable(es: seq<Element>): bool
  {
    Slots(es) > Count(es, Crane)
  }

  /** With every berth offering the configured slots, a slot is free exactly
      when berths times slots exceeds the crane count. */
  lemma CraneSlotByBerths(es: seq<Element>, slots: int)
    requires forall i :: 0 <= i < |es| && IsKind(es[i], Berth) ==> es[i].maxCranes == slots
    ensures CraneSlotAvailable(es) <==> Count(es, Berth) * slots > Count(es, Crane)
  {
    SlotsUniform(es, slots);
  }
}
