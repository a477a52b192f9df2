/** The simulation engine: a `System` holding the registry, the demurrage and
    revenue lists, the investment routines run year by year, the cost writers
    that fill the element series, and the financial summary. */
module Terminal {
  import opened Numbers
  import opened Config
  import opened Registry
  import opened Traffic
  import opened Capacity
  import opened CashFlow
  import opened Triggers
  import opened Assets
  import opened Costs
  import opened Revenue

  // ---------------------------------------------------------------------
  // What the registry keeps true

  /** Every element meets the registry's demands and the demand inputs are usable. */
  predicate ElementsOk(p: Params, es: seq<Element>)
  {
    (forall i :: 0 <= i < |es| ==> AssetOk(p, es[i])) && DemandOk(es)
  }

  /** The registry invariant: sound elements, no more cranes than crane slots and
      no more berths than quays. */
  predicate RegistryOk(p: Params, es: seq<Element>)
  {
    ElementsOk(p, es) && Count(es, Crane) <= Slots(es) && Count(es, Berth) <= Count(es, Quay)
  }

  /** Appending a sound asset keeps the elements sound and the demand side as it was. */
  lemma AppendElement(p: Params, es: seq<Element>, e: Element)
    requires ElementsOk(p, es) && e.Asset? && AssetOk(p, e)
    ensures ElementsOk(p, es + [e]) && DemandOf(es + [e]) == DemandOf(es)
    ensures forall k :: Count(es + [e], k) == Count(es, k) + (if IsKind(e, k) then 1 else 0)
    ensures Slots(es + [e]) == Slots(es) + (if IsKind(e, Berth) then e.maxCranes else 0)
  {
    AppendOne(es, e);
    AssetsKeepDemand(es, [e]);
    assert forall i :: 0 <= i < |es| ==> (es + [e])[i] == es[i];
  }

  /** Appending an asset other than a berth or a crane keeps the registry invariant. */
  lemma AppendKeeps(p: Params, es: seq<Element>, e: Element)
    requires RegistryOk(p, es) && e.Asset? && AssetOk(p, e) && e.kind != Berth && e.kind != Crane
    ensures RegistryOk(p, es + [e]) && DemandOf(es + [e]) == DemandOf(es)
  {
    AppendElement(p, es, e);
  }

  /** Appending j copies of an asset other than a berth or a crane keeps the
      registry invariant and the demand side, and adds j to its kind's count. */
  lemma {:induction false} RepeatKeeps(p: Params, es: seq<Element>, e: Element, j: nat)
    requires RegistryOk(p, es) && e.Asset? && AssetOk(p, e) && e.kind != Berth && e.kind != Crane
    ensures RegistryOk(p, es + Repeat(e, j)) && DemandOf(es + Repeat(e, j)) == DemandOf(es)
    ensures Count(es + Repeat(e, j), e.kind) == Count(es, e.kind) + j
    ensures Count(es + Repeat(e, j), Crane) == Count(es, Crane)
  {
    if j == 0 {
      assert es + Repeat(e, j) == es;
    } else {
      RepeatKeeps(p, es, e, j - 1);
      KeepsOneMore(p, es, e, j - 1);
    }
  }

  /** The step of RepeatKeeps: one more copy keeps what j copies kept. */
  lemma KeepsOneMore(p: Params, es: seq<Element>, e: Element, j: nat)
    requires e.Asset? && AssetOk(p, e) && e.kind != Berth && e.kind != Crane
    requires RegistryOk(p, es + Repeat(e, j)) && DemandOf(es + Repeat(e, j)) == DemandOf(es)
    requires Count(es + Repeat(e, j), e.kind) == Count(es, e.kind) + j
    requires Count(es + Repeat(e, j), Crane) == Count(es, Crane)
    ensures RegistryOk(p, es + Repeat(e, j + 1)) && DemandOf(es + Repeat(e, j + 1)) == DemandOf(es)
    ensures Count(es + Repeat(e, j + 1), e.kind) == Count(es, e.kind) + j + 1
    ensures Count(es + Repeat(e, j + 1), Crane) == Count(es, Crane)
  {
    var front := es + Repeat(e, j);
    RepeatStep(es, e, j);
    AppendKeeps(p, front, e);
    AppendOne(front, e);
  }

  /** One more copy at the end. */
  lemma RepeatStep(es: seq<Element>, e: Element, j: nat)
    ensures (es + Repeat(e, j)) + [e] == es + Repeat(e, j + 1)
  {
    assert Repeat(e, j + 1) == Repeat(e, j) + [e];
  }

  /** With every berth offering the configured slots, a free slot means a berth,
      and with berths no more than quays, a quay. */
  lemma SlotMeansQuay(p: Params, es: seq<Element>)
    requires ElementsOk(p, es) && Count(es, Berth) <= Count(es, Quay) && Slots(es) > 0
    ensures Count(es, Berth) > 0 && Count(es, Quay) > 0 && LatestQuayYear(es).Some?
  {
    SlotsUniform(es, p.defaults.berth.maxCranes);
  }

  /** The registry invariant makes the occupancy calculator well defined. */
  lemma RegistryOccupancy(p: Params, es: seq<Element>)
    requires ParamsOk(p) && RegistryOk(p, es)
    ensures OccupancyDefined(es)
  {
    PlannedUniform(es, Crane, EffectiveCapacity, p.crane.effectiveCapacity);
    if Count(es, Crane) > 0 {
      SlotMeansQuay(p, es);
    }
  }

  // ---------------------------------------------------------------------
  // One pass of the berth loop

  /** The first decision of a pass: a berth when no crane slot is free. */
  function WithBerth(p: Params, es: seq<Element>, year: int): seq<Element>
  {
    if !CraneSlotAvailable(es) then es + [NewBerth(p, year)] else es
  }

  /** The second decision: a quay, sized for the berth count, when berths
      outnumber quays. */
  function WithQuay(p: Params, es: seq<Element>, year: int): seq<Element>
  {
    var b, q := Count(es, Berth), Count(es, Quay);
    if b > q then es + [NewQuay(p, year, QuayLength(MaxLoa(p), b, q), QuayDepth(p))] else es
  }

  /** One pass of the `berth_invest` loop: the berth and quay decisions, then a
      crane when a slot is free. */
  function BerthPass(p: Params, es: seq<Element>, year: int): seq<Element>
    requires ParamsOk(p) && RegistryOk(p, es)
  {
    var es2 := WithQuay(p, WithBerth(p, es, year), year);
    if CraneSlotAvailable(es2) then
      WithQuayOk(p, WithBerth(p, es, year), year);
      SlotMeansQuay(p, es2);
      es2 + [NewCrane(p, year, LatestQuayYear(es2).value)]
    else es2
  }

  /** The assets a berth-loop pass may append. */
  predicate BerthKind(e: Element)
  {
    IsKind(e, Berth) || IsKind(e, Quay) || IsKind(e, Crane)
  }

  /** b extends a with berths, quays and cranes only. */
  predicate BerthGrowth(a: seq<Element>, b: seq<Element>)
  {
    |a| <= |b| && b[..|a|] == a && forall i :: |a| <= i < |b| ==> BerthKind(b[i])
  }

  /** Growing by one berth, quay or crane. */
  lemma GrowthAppend(a: seq<Element>, b: seq<Element>, e: Element)
    requires BerthGrowth(a, b) && BerthKind(e)
    ensures BerthGrowth(a, b + [e])
  {
    assert (b + [e])[..|a|] == b[..|a|];
  }

  /** After the berth decision a crane slot is free, and berths exceed quays by
      at most one. */
  lemma WithBerthOk(p: Params, es: seq<Element>, year: int)
    requires ParamsOk(p) && RegistryOk(p, es)
    ensures var r := WithBerth(p, es, year);
      ElementsOk(p, r) && DemandOf(r) == DemandOf(es) && BerthGrowth(es, r) &&
      Count(r, Crane) == Count(es, Crane) && Slots(r) > Count(r, Crane) &&
      Count(r, Berth) <= Count(r, Quay) + 1
  {
    if !CraneSlotAvailable(es) {
      AppendElement(p, es, NewBerth(p, year));
      GrowthAppend(es, es, NewBerth(p, year));
    } else {
      assert es[..|es|] == es;
    }
  }

  /** After the quay decision berths are within the quays again, and the free
      slot is still there. */
  lemma WithQuayOk(p: Params, es: seq<Element>, year: int)
    requires ParamsOk(p) && ElementsOk(p, es)
    requires Slots(es) > Count(es, Crane) && Count(es, Berth) <= Count(es, Quay) + 1
    ensures var r := WithQuay(p, es, year);
      ElementsOk(p, r) && DemandOf(r) == DemandOf(es) && BerthGrowth(es, r) &&
      Count(r, Crane) == Count(es, Crane) && Slots(r) > Count(r, Crane) &&
      Count(r, Berth) <= Count(r, Quay)
  {
    var b, q := Count(es, Berth), Count(es, Quay);
    var quay := NewQuay(p, year, QuayLength(MaxLoa(p), b, q), QuayDepth(p));
    AppendElement(p, es, quay);
    GrowthAppend(es, es, quay);
  }

  /** Each pass keeps the registry invariant (cranes within the slots, berths
      within the quays, which is why a crane always finds its quay) and adds
      exactly one crane besides at most one berth and one quay. */
  lemma BerthPassOk(p: Params, es: seq<Element>, year: int)
    requires ParamsOk(p) && RegistryOk(p, es)
    ensures var r := BerthPass(p, es, year);
      RegistryOk(p, r) && DemandOf(r) == DemandOf(es) && BerthGrowth(es, r) &&
      Count(r, Crane) == Count(es, Crane) + 1
  {
    var es1 := WithBerth(p, es, year);
    WithBerthOk(p, es, year);
    var es2 := WithQuay(p, es1, year);
    WithQuayOk(p, es1, year);
    SlotMeansQuay(p, es2);
    var crane := NewCrane(p, year, LatestQuayYear(es2).value);
    AppendElement(p, es2, crane);
    GrowthTransitive(es, es1, es2);
    GrowthAppend(es, es2, crane);
  }

  /** While planned occupancy exceeds the allowed occupancy there are fewer cranes
      than the crane target: each pass adds a crane, so the loop ends. */
  lemma BerthLoopProgress(p: Params, es: seq<Element>, c: Calls, year: int)
    requires ParamsOk(p) && RegistryOk(p, es)
    requires (RegistryOccupancy(p, es);
              Exceeds(BerthOccupancy(p, es, c, year).berthPlanned, p.allowableBerthOccupancy))
    ensures Count(es, Crane) < CraneTarget(OccupancyScale(p, c, p.crane.effectiveCapacity, p.defaults.berth.maxCranes as real),
                                           p.allowableBerthOccupancy)
  {
    var eff, mc := p.crane.effectiveCapacity, p.defaults.berth.maxCranes;
    var scale := OccupancyScale(p, c, eff, mc as real);
    if Count(es, Crane) >= 1 {
      SlotsUniform(es, mc);
      PlannedOccupancyBound(p, es, c, year, eff);
      BelowCraneTarget(scale, p.allowableBerthOccupancy, Count(es, Crane));
    }
  }

  // ---------------------------------------------------------------------
  // How many elements each remaining investment routine appends

  /** Tractors `horizontal_transport_invest` appends: none with straddle
      carriers, otherwise enough for the online STS cranes at the tractor ratio. */
  function TractorAdds(p: Params, es: seq<Element>, year: int): nat
    requires ParamsOk(p)
  {
    if p.stackEquipment == SC then 0
    else RatioAdds(OnlineCount(es, Crane, year), OnlineCount(es, Tractor, year), Count(es, Tractor),
                   p.defaults.tractor.required as nat)
  }

  /** Empty handlers `empty_handler_invest` appends: it counts every crane and
      every handler, online or not. */
  function HandlerAdds(p: Params, es: seq<Element>): nat
    requires ParamsOk(p)
  {
    RatioAdds(Count(es, Crane), Count(es, EmptyHandler), Count(es, EmptyHandler), p.defaults.handler.required as nat)
  }

  /** Stack equipment `stack_equipment_invest` appends: for rmg two machines per
      online laden stack, otherwise enough for the online STS cranes at the ratio. */
  function EquipmentAdds(p: Params, es: seq<Element>, year: int): nat
    requires ParamsOk(p)
  {
    if p.stackEquipment == RMG then
      RatioAdds(OnlineCount(es, LadenStack, year), OnlineCount(es, StackEquipment, year), Count(es, StackEquipment), 2)
    else
      RatioAdds(OnlineCount(es, Crane, year), OnlineCount(es, StackEquipment, year), Count(es, StackEquipment),
                EquipmentDataOf(p).required as nat)
  }

  /** What one new stack adds to planned plus online capacity in `year`. */
  function StackStep(e: Element, year: int): real
    requires e.Asset?
  {
    e.capacity + (if year >= e.yearOnline then e.capacity else 0.0)
  }

  /** Laden stacks `laden_stack_invest` appends, each with the rack cost of the
      year's reefer slots. */
  function LadenStackAdds(p: Params, es: seq<Element>, year: int): nat
    requires ParamsOk(p) && LastVolume(es, year).Some?
  {
    var l := LadenReeferStackCapacity(p, es, year);
    StackAdds(l.required - l.planned - l.online, StackStep(NewLadenStack(p, year, l.reeferSlots), year))
  }

  function EmptyStackAdds(p: Params, es: seq<Element>, year: int): nat
    requires ParamsOk(p) && LastVolume(es, year).Some?
  {
    var l := EmptyStackCapacity(p, es, year);
    StackAdds(l.required - l.planned - l.online, StackStep(NewEmptyStack(p, year), year))
  }

  function OOGStackAdds(p: Params, es: seq<Element>, year: int): nat
    requires ParamsOk(p) && LastVolume(es, year).Some?
  {
    var l := OOGStackCapacity(p, es, year);
    StackAdds(l.required - l.planned - l.online, StackStep(NewOOGStack(p, year), year))
  }

  /** Gates `gate_invest` appends. */
  function GateAddsOf(p: Params, es: seq<Element>, year: int): nat
    requires ParamsOk(p) && LastVolume(es, year).Some?
  {
    GateAdds(DesignGateMinutes(p, es, year), Count(es, Gate), p.defaults.gate.capacity)
  }

  /** The land `general_services_invest` covers with lighting masts, in
      hectares: the online quays, stacks and gates plus the buildings. */
  function TotalLand(p: Params, es: seq<Element>, year: int): real
  {
    (Online(es, Quay, LandUse, year) + Online(es, LadenStack, LandUse, year) + Online(es, EmptyStack, LandUse, year)
     + Online(es, OOGStack, LandUse, year) + Online(es, Gate, LandUse, year) + Buildings(p.defaults.general)) * 0.0001
  }

  /** Appending a stack adds its capacity to the planned total of its kind and,
      when it is online in `year`, to the online total; the year's volume stays. */
  lemma StackAppend(es: seq<Element>, e: Element, year: int)
    requires e.Asset?
    ensures LastVolume(es + [e], year) == LastVolume(es, year)
    ensures Planned(es + [e], e.kind, Capacity) == Planned(es, e.kind, Capacity) + e.capacity
    ensures Online(es + [e], e.kind, Capacity, year) ==
      Online(es, e.kind, Capacity, year) + (if year >= e.yearOnline then e.capacity else 0.0)
    ensures Online(es + [e], Crane, EffectiveCapacity, year) == Online(es, Crane, EffectiveCapacity, year) ||
      e.kind == Crane
  {
    AppendOne(es, e);
    AssetsKeepDemand(es, [e]);
    DemandDetermines(es + [e], es);
  }

  /** The stack calculators after a stack of their kind is appended: the
      requirement (and the reefer slots) stay, planned plus online capacity grows
      by the stack's step. */
  lemma LadenAfterAppend(p: Params, es: seq<Element>, e: Element, year: int)
    requires StackInputsOk(p) && LastVolume(es, year).Some? && e.Asset? && e.kind == LadenStack
    ensures LastVolume(es + [e], year) == LastVolume(es, year)
    ensures var a, b := LadenReeferStackCapacity(p, es + [e], year), LadenReeferStackCapacity(p, es, year);
      a.required == b.required && a.reeferSlots == b.reeferSlots &&
      a.planned + a.online == b.planned + b.online + StackStep(e, year)
  {
    StackAppend(es, e, year);
  }

  /** One iteration of the laden stack loop keeps its invariant. */
  lemma {:induction false} LadenLoopStep(p: Params, es0: seq<Element>, es: seq<Element>, stack: Element, year: int,
                                        load0: LadenLoad, j: nat)
    requires StackInputsOk(p) && LastVolume(es, year).Some? && stack.Asset? && stack.kind == LadenStack
    requires es == es0 + Repeat(stack, j)
    requires var l := LadenReeferStackCapacity(p, es, year);
      l.required == load0.required && l.reeferSlots == load0.reeferSlots &&
      l.planned + l.online == load0.planned + load0.online + Times(StackStep(stack, year), j)
    ensures es + [stack] == es0 + Repeat(stack, j + 1) && LastVolume(es + [stack], year).Some?
    ensures var l := LadenReeferStackCapacity(p, es + [stack], year);
      l.required == load0.required && l.reeferSlots == load0.reeferSlots &&
      l.planned + l.online == load0.planned + load0.online + Times(StackStep(stack, year), j + 1)
  {
    LadenAfterAppend(p, es, stack, year);
    RepeatStep(es0, stack, j);
  }

  lemma EmptyAfterAppend(p: Params, es: seq<Element>, e: Element, year: int)
    requires StackInputsOk(p) && LastVolume(es, year).Some? && e.Asset? && e.kind == EmptyStack
    ensures LastVolume(es + [e], year) == LastVolume(es, year)
    ensures var a, b := EmptyStackCapacity(p, es + [e], year), EmptyStackCapacity(p, es, year);
      a.required == b.required && a.planned + a.online == b.planned + b.online + StackStep(e, year)
  {
    StackAppend(es, e, year);
  }

  /** One iteration of the empty stack loop keeps its invariant. */
  lemma {:induction false} EmptyLoopStep(p: Params, es0: seq<Element>, es: seq<Element>, stack: Element, year: int,
                                        load0: StackLoad, j: nat)
    requires StackInputsOk(p) && LastVolume(es, year).Some? && stack.Asset? && stack.kind == EmptyStack
    requires es == es0 + Repeat(stack, j)
    requires var l := EmptyStackCapacity(p, es, year);
      l.required == load0.required &&
      l.planned + l.online == load0.planned + load0.online + Times(StackStep(stack, year), j)
    ensures es + [stack] == es0 + Repeat(stack, j + 1) && LastVolume(es + [stack], year).Some?
    ensures var l := EmptyStackCapacity(p, es + [stack], year);
      l.required == load0.required &&
      l.planned + l.online == load0.planned + load0.online + Times(StackStep(stack, year), j + 1)
  {
    EmptyAfterAppend(p, es, stack, year);
    RepeatStep(es0, stack, j);
  }

  lemma OOGAfterAppend(p: Params, es: seq<Element>, e: Element, year: int)
    requires StackInputsOk(p) && LastVolume(es, year).Some? && e.Asset? && e.kind == OOGStack
    ensures LastVolume(es + [e], year) == LastVolume(es, year)
    ensures var a, b := OOGStackCapacity(p, es + [e], year), OOGStackCapacity(p, es, year);
      a.required == b.required && a.planned + a.online == b.planned + b.online + StackStep(e, year)
  {
    StackAppend(es, e, year);
  }

  /** One iteration of the OOG stack loop keeps its invariant. */
  lemma {:induction false} OOGLoopStep(p: Params, es0: seq<Element>, es: seq<Element>, stack: Element, year: int,
                                        load0: StackLoad, j: nat)
    requires StackInputsOk(p) && LastVolume(es, year).Some? && stack.Asset? && stack.kind == OOGStack
    requires es == es0 + Repeat(stack, j)
    requires var l := OOGStackCapacity(p, es, year);
      l.required == load0.required &&
      l.planned + l.online == load0.planned + load0.online + Times(StackStep(stack, year), j)
    ensures es + [stack] == es0 + Repeat(stack, j + 1) && LastVolume(es + [stack], year).Some?
    ensures var l := OOGStackCapacity(p, es + [stack], year);
      l.required == load0.required &&
      l.planned + l.online == load0.planned + load0.online + Times(StackStep(stack, year), j + 1)
  {
    OOGAfterAppend(p, es, stack, year);
    RepeatStep(es0, stack, j);
  }

  /** The gate calculator after a gate is appended: the same design minutes, one
      gate more. */
  lemma GateAfterAppend(p: Params, es: seq<Element>, e: Element, year: int)
    requires ParamsOk(p) && LastVolume(es, year).Some? && e.Asset? && e.kind == Gate
    ensures LastVolume(es + [e], year) == LastVolume(es, year)
    ensures DesignGateMinutes(p, es + [e], year) == DesignGateMinutes(p, es, year)
    ensures Count(es + [e], Gate) == Count(es, Gate) + 1
  {
    StackAppend(es, e, year);
    CountAppend(es, e);
    SameOnlineThroughput(p, es + [e], es, year);
  }

  /** The gate calculator's precondition: with a gate, some gate capacity. */
  predicate GatesPlannedOk(p: Params, es: seq<Element>)
  {
    Count(es, Gate) > 0 ==> Planned(es, Gate, Capacity) != 0.0
  }

  /** Every gate carries the configured gate capacity. */
  predicate GateCapacities(p: Params, es: seq<Element>)
  {
    Planned(es, Gate, Capacity) == Times(p.defaults.gate.capacity, Count(es, Gate))
  }

  /** The gate loop test in terms of the gate count: the service rate exceeds
      one exactly when there is no gate or the design minutes exceed the gates'
      capacity. */
  lemma GateTest(p: Params, es: seq<Element>, year: int)
    requires ParamsOk(p) && GateCapacities(p, es) && LastVolume(es, year).Some?
    ensures GatesPlannedOk(p, es)
    ensures Exceeds(GateMinutes(p, es, year).rate, 1.0) <==>
      !GatesSuffice(DesignGateMinutes(p, es, year), Count(es, Gate), p.defaults.gate.capacity)
  {
    var n, cap := Count(es, Gate), p.defaults.gate.capacity;
    TimesIsCountProduct(cap, n);
    if n > 0 {
      GateRate(DesignGateMinutes(p, es, year), Planned(es, Gate, Capacity), n, cap);
    }
  }

  /** n > 0 gates of positive capacity: the planned capacity is positive, and the
      minutes exceed it exactly when the gates do not suffice. */
  lemma GateRate(minutes: real, planned: real, n: nat, cap: real)
    requires cap > 0.0 && n > 0 && planned == n as real * cap
    ensures planned > 0.0 && (minutes > planned <==> !GatesSuffice(minutes, n, cap))
  {
    MulLe(1.0, n as real, cap);
  }

  /** The gate loop test after j of the k gates the loop appends. */
  lemma GateLoopState(p: Params, es: seq<Element>, year: int, n0: nat, j: nat)
    requires ParamsOk(p) && GateCapacities(p, es) && LastVolume(es, year).Some?
    requires Count(es, Gate) == n0 + j && j <= GateAdds(DesignGateMinutes(p, es, year), n0, p.defaults.gate.capacity)
    ensures GatesPlannedOk(p, es)
    ensures Exceeds(GateMinutes(p, es, year).rate, 1.0) <==> j < GateAdds(DesignGateMinutes(p, es, year), n0, p.defaults.gate.capacity)
  {
    GateTest(p, es, year);
    GateLoopTest(DesignGateMinutes(p, es, year), n0, p.defaults.gate.capacity, j);
  }

  /** Gates all carry the configured capacity. */
  lemma GatesPlanned(p: Params, es: seq<Element>)
    requires ElementsOk(p, es)
    ensures GateCapacities(p, es)
  {
    PlannedTimes(es, Gate, Capacity, p.defaults.gate.capacity);
  }

  /** A new gate keeps every gate at the configured capacity. */
  lemma GateKeepsCapacities(p: Params, es: seq<Element>, year: int)
    requires GateCapacities(p, es)
    ensures GateCapacities(p, es + [NewGate(p, year)])
  {
    var g := NewGate(p, year);
    CountAppend(es, g);
    StackAppend(es, g, 0);
  }

  // ---------------------------------------------------------------------
  // The registry the investment and writer loops leave

  /** The registry `berth_invest` leaves: berth passes for as long as the
      planned berth occupancy exceeds the allowed occupancy. Every pass adds a
      crane, and the cranes stay below the crane target while the loop runs. */
  function BerthLoop(p: Params, es: seq<Element>, c: Calls, year: int): (r: seq<Element>)
    requires ParamsOk(p) && RegistryOk(p, es)
    ensures RegistryOk(p, r) && DemandOf(r) == DemandOf(es) && BerthGrowth(es, r)
    decreases CraneTarget(OccupancyScale(p, c, p.crane.effectiveCapacity, p.defaults.berth.maxCranes as real),
                          p.allowableBerthOccupancy) - Count(es, Crane)
  {
    RegistryOccupancy(p, es);
    if Exceeds(BerthOccupancy(p, es, c, year).berthPlanned, p.allowableBerthOccupancy) then
      BerthLoopProgress(p, es, c, year);
      BerthPassOk(p, es, year);
      var r := BerthLoop(p, BerthPass(p, es, year), c, year);
      GrowthTransitive(es, BerthPass(p, es, year), r);
      r
    else
      assert es[..|es|] == es;
      es
  }

  /** The berth loop stops with the planned berth occupancy within the allowed
      occupancy, and leaves a registry that is already within it unchanged. */
  lemma {:induction false} BerthLoopExits(p: Params, es: seq<Element>, c: Calls, year: int)
    requires ParamsOk(p) && RegistryOk(p, es)
    ensures var r := BerthLoop(p, es, c, year);
      OccupancyDefined(r) && !Exceeds(BerthOccupancy(p, r, c, year).berthPlanned, p.allowableBerthOccupancy)
    ensures (RegistryOccupancy(p, es);
             !Exceeds(BerthOccupancy(p, es, c, year).berthPlanned, p.allowableBerthOccupancy)) ==>
      BerthLoop(p, es, c, year) == es
    decreases CraneTarget(OccupancyScale(p, c, p.crane.effectiveCapacity, p.defaults.berth.maxCranes as real),
                          p.allowableBerthOccupancy) - Count(es, Crane)
  {
    RegistryOccupancy(p, es);
    RegistryOccupancy(p, BerthLoop(p, es, c, year));
    if Exceeds(BerthOccupancy(p, es, c, year).berthPlanned, p.allowableBerthOccupancy) {
      BerthLoopProgress(p, es, c, year);
      BerthPassOk(p, es, year);
      BerthLoopExits(p, BerthPass(p, es, year), c, year);
    }
  }

  /** The registry `horizontal_transport_invest` leaves. */
  function AfterTractors(p: Params, es: seq<Element>, year: int): (r: seq<Element>)
    requires ParamsOk(p) && RegistryOk(p, es)
    ensures RegistryOk(p, r) && DemandOf(r) == DemandOf(es) && Grows(es, r)
  {
    RepeatKeeps(p, es, NewTractor(p, year), TractorAdds(p, es, year));
    es + Repeat(NewTractor(p, year), TractorAdds(p, es, year))
  }

  /** The registry `laden_stack_invest` leaves. */
  function AfterLaden(p: Params, es: seq<Element>, year: int): (r: seq<Element>)
    requires ParamsOk(p) && RegistryOk(p, es) && LastVolume(es, year).Some?
    ensures RegistryOk(p, r) && DemandOf(r) == DemandOf(es) && Grows(es, r)
  {
    var stack := NewLadenStack(p, year, LadenReeferStackCapacity(p, es, year).reeferSlots);
    RepeatKeeps(p, es, stack, LadenStackAdds(p, es, year));
    es + Repeat(stack, LadenStackAdds(p, es, year))
  }

  /** The registry `empty_stack_invest` leaves. */
  function AfterEmpty(p: Params, es: seq<Element>, year: int): (r: seq<Element>)
    requires ParamsOk(p) && RegistryOk(p, es) && LastVolume(es, year).Some?
    ensures RegistryOk(p, r) && DemandOf(r) == DemandOf(es) && Grows(es, r)
  {
    RepeatKeeps(p, es, NewEmptyStack(p, year), EmptyStackAdds(p, es, year));
    es + Repeat(NewEmptyStack(p, year), EmptyStackAdds(p, es, year))
  }

  /** The registry `oog_stack_invest` leaves. */
  function AfterOOG(p: Params, es: seq<Element>, year: int): (r: seq<Element>)
    requires ParamsOk(p) && RegistryOk(p, es) && LastVolume(es, year).Some?
    ensures RegistryOk(p, r) && DemandOf(r) == DemandOf(es) && Grows(es, r)
  {
    RepeatKeeps(p, es, NewOOGStack(p, year), OOGStackAdds(p, es, year));
    es + Repeat(NewOOGStack(p, year), OOGStackAdds(p, es, year))
  }

  /** The registry `stack_equipment_invest` leaves. */
  function AfterEquipment(p: Params, es: seq<Element>, year: int): (r: seq<Element>)
    requires ParamsOk(p) && RegistryOk(p, es)
    ensures RegistryOk(p, r) && DemandOf(r) == DemandOf(es) && Grows(es, r)
  {
    RepeatKeeps(p, es, NewEquipment(p, year), EquipmentAdds(p, es, year));
    es + Repeat(NewEquipment(p, year), EquipmentAdds(p, es, year))
  }

  /** The registry `gate_invest` leaves. */
  function AfterGates(p: Params, es: seq<Element>, year: int): (r: seq<Element>)
    requires ParamsOk(p) && RegistryOk(p, es) && LastVolume(es, year).Some?
    ensures RegistryOk(p, r) && DemandOf(r) == DemandOf(es) && Grows(es, r)
  {
    RepeatKeeps(p, es, NewGate(p, year), GateAddsOf(p, es, year));
    es + Repeat(NewGate(p, year), GateAddsOf(p, es, year))
  }

  /** The registry `empty_handler_invest` leaves. */
  function AfterHandlers(p: Params, es: seq<Element>, year: int): (r: seq<Element>)
    requires ParamsOk(p) && RegistryOk(p, es)
    ensures RegistryOk(p, r) && DemandOf(r) == DemandOf(es) && Grows(es, r)
  {
    RepeatKeeps(p, es, NewHandler(p, year), HandlerAdds(p, es));
    es + Repeat(NewHandler(p, year), HandlerAdds(p, es))
  }

  /** The registry `general_services_invest` leaves: one general-services
      element in the year after the start year, none in any other year. */
  function AfterGeneral(p: Params, es: seq<Element>, year: int): (r: seq<Element>)
    requires ParamsOk(p) && RegistryOk(p, es)
    ensures RegistryOk(p, r) && DemandOf(r) == DemandOf(es) && Grows(es, r)
  {
    if year == p.startyear + 1 then
      var g := NewGeneralServices(p, year, TotalLand(p, es, year));
      AppendKeeps(p, es, g);
      es + [g]
    else es
  }

  /** The investment decisions `simulate` takes in every year, in the order it
      takes them. */
  datatype Decision =
    | BerthDecision | TransportDecision | LadenDecision | EmptyDecision | OOGDecision
    | EquipmentDecision | GateDecision | HandlerDecision | GeneralDecision

  const YearDecisions: seq<Decision> :=
    [BerthDecision, TransportDecision, LadenDecision, EmptyDecision, OOGDecision,
     EquipmentDecision, GateDecision, HandlerDecision, GeneralDecision]

  /** The registry one investment decision leaves in `year`. The berth loop
      runs for the vessel calls of the registry it is handed, which is the one
      the year starts with. */
  function Decide(p: Params, d: Decision, es: seq<Element>, year: int): (r: seq<Element>)
    requires ParamsOk(p) && RegistryOk(p, es) && LastVolume(es, year).Some?
    ensures RegistryOk(p, r) && DemandOf(r) == DemandOf(es) && Grows(es, r)
  {
    match d
    case BerthDecision => BerthLoop(p, es, VesselCalls(es, year), year)
    case TransportDecision => AfterTractors(p, es, year)
    case LadenDecision => AfterLaden(p, es, year)
    case EmptyDecision => AfterEmpty(p, es, year)
    case OOGDecision => AfterOOG(p, es, year)
    case EquipmentDecision => AfterEquipment(p, es, year)
    case GateDecision => AfterGates(p, es, year)
    case HandlerDecision => AfterHandlers(p, es, year)
    case GeneralDecision => AfterGeneral(p, es, year)
  }

  /** The registry the decisions ds leave, taken in order, each on the
      registry the previous one left. */
  function Decided(p: Params, ds: seq<Decision>, es: seq<Element>, year: int): (r: seq<Element>)
    requires ParamsOk(p) && RegistryOk(p, es) && LastVolume(es, year).Some?
    ensures RegistryOk(p, r) && DemandOf(r) == DemandOf(es) && Grows(es, r)
    decreases |ds|
  {
    if ds == [] then es
    else
      var next := Decide(p, ds[0], es, year);
      Volume(es, next, year);
      var r := Decided(p, ds[1..], next, year);
      GrowsChain(es, next, r);
      r
  }

  /** One pass of `simulate`'s investment loop: the decisions of the year in
      their order, on the registry the year starts with. */
  function YearStep(p: Params, es: seq<Element>, year: int): (r: seq<Element>)
    requires ParamsOk(p) && RegistryOk(p, es) && LastVolume(es, year).Some?
    ensures RegistryOk(p, r) && DemandOf(r) == DemandOf(es) && Grows(es, r)
  {
    Decided(p, YearDecisions, es, year)
  }

  /** Taking the first of the decisions ds, then the rest on the registry it
      leaves, is taking them all. */
  lemma DecidedFirst(p: Params, ds: seq<Decision>, es: seq<Element>, year: int, next: seq<Element>)
    requires ParamsOk(p) && RegistryOk(p, es) && LastVolume(es, year).Some? && ds != []
    requires next == Decide(p, ds[0], es, year)
    ensures DemandOf(next) == DemandOf(es) && Grows(es, next) && LastVolume(next, year).Some?
    ensures Decided(p, ds, es, year) == Decided(p, ds[1..], next, year)
  {
    Volume(es, next, year);
  }

  /** The year the year loops of `simulate` stop at: the first year after the
      lifecycle. */
  function EndYear(p: Params): int
  {
    p.startyear + p.lifecycle
  }

  /** Every year from `from` up to, not including, `to` has a throughput. */
  predicate VolumeEveryYear(es: seq<Element>, from: int, to: int)
  {
    forall y :: from <= y < to ==> LastVolume(es, y).Some?
  }

  /** The registry the investment loop of `simulate` leaves when it has run
      over the years from `start` up to, not including, `end`. */
  function Invested(p: Params, es: seq<Element>, start: int, end: int): (r: seq<Element>)
    requires ParamsOk(p) && RegistryOk(p, es) && VolumeEveryYear(es, start, end)
    ensures RegistryOk(p, r) && DemandOf(r) == DemandOf(es) && Grows(es, r)
    decreases end - start, 1
  {
    if end <= start then es else InvestedYear(p, es, start, end - 1)
  }

  /** The registry the investment loop leaves after `year`: YearStep on the
      registry the years before it left. */
  function InvestedYear(p: Params, es: seq<Element>, start: int, year: int): (r: seq<Element>)
    requires ParamsOk(p) && RegistryOk(p, es) && start <= year && VolumeEveryYear(es, start, year + 1)
    ensures RegistryOk(p, r) && DemandOf(r) == DemandOf(es) && Grows(es, r)
    decreases year + 1 - start, 0
  {
    var before := Invested(p, es, start, year);
    Volume(es, before, year);
    var r := YearStep(p, before, year);
    GrowsChain(es, before, r);
    r
  }

  /** One year of the investment loop is YearStep. */
  lemma InvestedOneYear(p: Params, es: seq<Element>, year: int)
    requires ParamsOk(p) && RegistryOk(p, es) && LastVolume(es, year).Some?
    ensures Invested(p, es, year, year + 1) == YearStep(p, es, year)
  {
    InvestedNext(p, es, year, year, year + 1, Invested(p, es, year, year));
  }

  /** Running the loop up to `year` and then over `year` is running it up to
      `next`, the year after. */
  lemma InvestedNext(p: Params, es: seq<Element>, start: int, year: int, next: int, b: seq<Element>)
    requires ParamsOk(p) && RegistryOk(p, es) && start <= year && next == year + 1
    requires VolumeEveryYear(es, start, next)
    requires b == Invested(p, es, start, year)
    ensures LastVolume(b, year).Some?
    ensures Invested(p, es, start, next) == YearStep(p, b, year)
  {
    Volume(es, b, year);
    assert Invested(p, es, start, next) == InvestedYear(p, es, start, year);
  }

  /** The registries the loop leaves carry the demand of the one it started
      from, so the years with a throughput stay the same. */
  lemma VolumesKept(a: seq<Element>, b: seq<Element>, from: int, to: int)
    requires DemandOf(a) == DemandOf(b) && VolumeEveryYear(a, from, to)
    ensures VolumeEveryYear(b, from, to)
  {
    DemandDetermines(a, b);
  }

  /** The three cost writers `simulate` runs over the lifecycle. */
  datatype Writer = EnergyWriter | LabourWriter | FuelWriter

  /** What one writer books in one year, on the registry as it finds it. The
      writers rewrite cost cells only. */
  function WriteYear(p: Params, w: Writer, es: seq<Element>, year: int): (r: seq<Element>)
    requires ParamsOk(p) && RegistryOk(p, es) && InYears(year, p.startyear, p.lifecycle) && LastVolume(es, year).Some?
    ensures RegistryOk(p, r) && SameShape(es, r) && DemandOf(r) == DemandOf(es)
  {
    ValidSeries(p, es);
    match w
    case EnergyWriter =>
      var mv, slots := BoxMoves(p, es, year), LadenReeferStackCapacity(p, es, year).reeferSlots;
      EnergyFrame(p, es, year, mv, slots);
      FrameKeepsRegistry(p, es, EnergyBooked(p, es, year, mv, slots), EnergyCol, year - p.startyear);
      EnergyBooked(p, es, year, mv, slots)
    case LabourWriter =>
      var teu := TeuTotal(ThroughputCharacteristics(p, es, year));
      LabourFrame(p, es, year, teu);
      FrameKeepsRegistry(p, es, LabourBooked(p, es, year, teu), LabourCol, year - p.startyear);
      LabourBooked(p, es, year, teu)
    case FuelWriter =>
      var mv := BoxMoves(p, es, year);
      FuelFrame(p, es, year, mv);
      FrameKeepsRegistry(p, es, FuelBooked(p, es, year, mv), FuelCol, year - p.startyear);
      FuelBooked(p, es, year, mv)
  }

  /** The registry after writer w has run over the years from the start year
      up to, not including, `end`. */
  function WrittenUntil(p: Params, w: Writer, es: seq<Element>, end: int): (r: seq<Element>)
    requires ParamsOk(p) && RegistryOk(p, es) && end <= EndYear(p)
    requires VolumeEveryYear(es, p.startyear, end)
    ensures RegistryOk(p, r) && SameShape(es, r) && DemandOf(r) == DemandOf(es)
    decreases end - p.startyear, 1
  {
    if end <= p.startyear then es else WrittenYear(p, w, es, end - 1)
  }

  /** The registry after writer w has run over `year`: WriteYear on the
      registry the years before it left. */
  function WrittenYear(p: Params, w: Writer, es: seq<Element>, year: int): (r: seq<Element>)
    requires ParamsOk(p) && RegistryOk(p, es) && InYears(year, p.startyear, p.lifecycle)
    requires VolumeEveryYear(es, p.startyear, year + 1)
    ensures RegistryOk(p, r) && SameShape(es, r) && DemandOf(r) == DemandOf(es)
    decreases year + 1 - p.startyear, 0
  {
    var before := WrittenUntil(p, w, es, year);
    Volume(es, before, year);
    var r := WriteYear(p, w, before, year);
    ShapeChain(es, before, r);
    r
  }

  /** Running writer w up to `year` and then over `year` is running it up to
      `next`, the year after. */
  lemma WrittenNext(p: Params, w: Writer, es: seq<Element>, year: int, next: int, b: seq<Element>)
    requires ParamsOk(p) && RegistryOk(p, es) && InYears(year, p.startyear, p.lifecycle) && next == year + 1
    requires VolumeEveryYear(es, p.startyear, next)
    requires b == WrittenUntil(p, w, es, year)
    ensures LastVolume(b, year).Some?
    ensures WrittenUntil(p, w, es, next) == WriteYear(p, w, b, year)
  {
    Volume(es, b, year);
    assert WrittenUntil(p, w, es, next) == WrittenYear(p, w, es, year);
  }

  /** The registry `simulate`'s writer loops leave: energy over every year,
      then general labour over every year, then fuel over every year. */
  function CostsWritten(p: Params, es: seq<Element>): (r: seq<Element>)
    requires ParamsOk(p) && RegistryOk(p, es) && VolumeEveryYear(es, p.startyear, EndYear(p))
    ensures RegistryOk(p, r) && SameShape(es, r) && DemandOf(r) == DemandOf(es)
  {
    var end := EndYear(p);
    var energy := WrittenUntil(p, EnergyWriter, es, end);
    VolumesKept(es, energy, p.startyear, end);
    var labour := WrittenUntil(p, LabourWriter, energy, end);
    VolumesKept(es, labour, p.startyear, end);
    ShapeChain(es, energy, labour);
    var fuel := WrittenUntil(p, FuelWriter, labour, end);
    ShapeChain(es, labour, fuel);
    fuel
  }

  /** The three writer loops, run one after the other, leave CostsWritten. */
  lemma CostsWrittenIs(p: Params, es: seq<Element>, energy: seq<Element>, labour: seq<Element>, fuel: seq<Element>)
    requires ParamsOk(p) && RegistryOk(p, es) && VolumeEveryYear(es, p.startyear, EndYear(p))
    requires energy == WrittenUntil(p, EnergyWriter, es, EndYear(p))
    requires VolumeEveryYear(energy, p.startyear, EndYear(p))
    requires labour == WrittenUntil(p, LabourWriter, energy, EndYear(p))
    requires VolumeEveryYear(labour, p.startyear, EndYear(p))
    requires fuel == WrittenUntil(p, FuelWriter, labour, EndYear(p))
    ensures fuel == CostsWritten(p, es)
  {
  }

  /** The registry `simulate` leaves: the investment decisions of every year,
      then the cost writers. The writers change no element's kind, timing or
      capacities, so the counts and capacities are the invested ones. */
  function Simulated(p: Params, es: seq<Element>): (r: seq<Element>)
    requires ParamsOk(p) && RegistryOk(p, es) && VolumeEveryYear(es, p.startyear, EndYear(p))
    ensures RegistryOk(p, r) && DemandOf(r) == DemandOf(es)
    ensures SameShape(Invested(p, es, p.startyear, EndYear(p)), r)
  {
    var invested := Invested(p, es, p.startyear, EndYear(p));
    VolumesKept(es, invested, p.startyear, EndYear(p));
    CostsWritten(p, invested)
  }

  /** The investment loop followed by the writer loops leaves Simulated. */
  lemma SimulatedIs(p: Params, es: seq<Element>, invested: seq<Element>, r: seq<Element>)
    requires ParamsOk(p) && RegistryOk(p, es) && VolumeEveryYear(es, p.startyear, EndYear(p))
    requires invested == Invested(p, es, p.startyear, EndYear(p))
    requires VolumeEveryYear(invested, p.startyear, EndYear(p))
    requires r == CostsWritten(p, invested)
    ensures r == Simulated(p, es)
  {
  }

  // ---------------------------------------------------------------------
  // The system

  class System {
    const p: Params
    var elements: seq<Element>
    var demurrage: seq<Money>
    var revenues: seq<real>

    ghost predicate Valid()
      reads this`elements
    {
      ParamsOk(p) && RegistryOk(p, elements)
    }

    /** `System(...)` with the given configuration and initial registry; the
        demurrage list, which the source creates in `simulate`, starts empty here. */
    constructor (p: Params, elements: seq<Element>)
      requires ParamsOk(p) && RegistryOk(p, elements)
      ensures Valid() && this.p == p && this.elements == elements
      ensures demurrage == [] && revenues == []
    {
      this.p := p;
      this.elements := elements;
      demurrage := [];
      revenues := [];
    }

    /** The counting loops over `self.elements`: the elements of a kind online in `year`. */
    method CountOnline(k: Kind, year: int) returns (n: nat)
      ensures n == OnlineCount(elements, k, year)
    {
      n := 0;
      var i := 0;
      while i < |elements|
        invariant 0 <= i <= |elements| && n == OnlineCount(elements[..i], k, year)
      {
        assert Init(elements[..i + 1]) == elements[..i];
        if IsOnline(elements[i], k, year) {
          n := n + 1;
        }
        i := i + 1;
      }
      assert elements[..i] == elements;
    }

    /** `find_elements`: the elements of a kind, in registry order. */
    method FindElements(k: Kind) returns (r: seq<Element>)
      ensures r == Find(elements, k)
    {
      r := [];
      var i := 0;
      while i < |elements|
        invariant 0 <= i <= |elements| && r == Find(elements[..i], k)
      {
        assert Init(elements[..i + 1]) == elements[..i];
        if IsKind(elements[i], k) {
          r := r + [elements[i]];
        }
        i := i + 1;
      }
      assert elements[..i] == elements;
    }

    /** The land-use loops: a measure summed over the elements of a kind online in `year`. */
    method SumOnline(k: Kind, m: Measure, year: int) returns (s: real)
      ensures s == Online(elements, k, m, year)
    {
      s := 0.0;
      var i := 0;
      while i < |elements|
        invariant 0 <= i <= |elements| && s == Online(elements[..i], k, m, year)
      {
        assert Init(elements[..i + 1]) == elements[..i];
        if IsOnline(elements[i], k, year) {
          s := s + ValueOf(elements[i], m);
        }
        i := i + 1;
      }
      assert elements[..i] == elements;
    }

    /** `quay_invest`: append a quay of the given length and depth. */
    method QuayInvest(year: int, length: real, depth: real)
      requires Valid()
      modifies this`elements
      ensures Valid() && DemandOf(elements) == DemandOf(old(elements))
      ensures elements == old(elements) + [NewQuay(p, year, length, depth)]
    {
      AppendKeeps(p, elements, NewQuay(p, year, length, depth));
      elements := elements + [NewQuay(p, year, length, depth)];
    }

    /** `crane_invest`: append a crane online after its delivery time, and not
        before the latest quay; the source fails without a quay. */
    method CraneInvest(year: int)
      requires ParamsOk(p) && Count(elements, Quay) > 0
      modifies this`elements
      ensures elements == old(elements) + [NewCrane(p, year, LatestQuayYear(old(elements)).value)]
    {
      var quays := FindElements(Quay);
      FindQuayYear(elements);
      var latest := LatestQuayLoop(quays);
      elements := elements + [NewCrane(p, year, latest)];
    }

    /** The body of the `berth_invest` loop: one pass of the berth, quay and
        crane decisions. */
    method BerthStep(year: int)
      requires Valid()
      modifies this`elements
      ensures elements == BerthPass(p, old(elements), year)
    {
      ghost var es := elements;
      BerthDecision(year);
      WithBerthOk(p, es, year);
      QuayDecision(year);
      WithQuayOk(p, WithBerth(p, es, year), year);
      if CraneSlotAvailable(elements) {
        SlotMeansQuay(p, elements);
        CraneInvest(year);
      }
    }

    /** A berth when no crane slot is free. */
    method BerthDecision(year: int)
      modifies this`elements
      ensures elements == WithBerth(p, old(elements), year)
    {
      if !CraneSlotAvailable(elements) {
        elements := elements + [NewBerth(p, year)];
      }
    }

    /** A quay when berths outnumber quays. */
    method QuayDecision(year: int)
      modifies this`elements
      ensures elements == WithQuay(p, old(elements), year)
    {
      var berths := Count(elements, Berth);
      var quays := Count(elements, Quay);
      if berths > quays {
        elements := elements + [NewQuay(p, year, QuayLength(MaxLoa(p), berths, quays), QuayDepth(p))];
      }
    }

    /** `berth_invest`: while planned berth occupancy exceeds the allowed
        occupancy, pass through the berth, quay and crane decisions. */
    method BerthInvest(year: int, c: Calls)
      requires Valid()
      modifies this`elements
      ensures Valid() && DemandOf(elements) == DemandOf(old(elements))
      ensures BerthGrowth(old(elements), elements)
      ensures OccupancyDefined(elements) &&
        !Exceeds(BerthOccupancy(p, elements, c, year).berthPlanned, p.allowableBerthOccupancy)
      ensures (OccupancyDefined(old(elements)) &&
               !Exceeds(BerthOccupancy(p, old(elements), c, year).berthPlanned, p.allowableBerthOccupancy)) ==>
        elements == old(elements)
      ensures elements == BerthLoop(p, old(elements), c, year)
    {
      RegistryOccupancy(p, elements);
      var occupancy := BerthOccupancy(p, elements, c, year);
      ghost var first := occupancy;
      while Exceeds(occupancy.berthPlanned, p.allowableBerthOccupancy)
        invariant elements == old(elements) || Exceeds(first.berthPlanned, p.allowableBerthOccupancy)
        invariant Valid() && BerthLoop(p, elements, c, year) == BerthLoop(p, old(elements), c, year)
        invariant Valid() && DemandOf(elements) == DemandOf(old(elements))
        invariant BerthGrowth(old(elements), elements)
        invariant OccupancyDefined(elements) && occupancy == BerthOccupancy(p, elements, c, year)
        decreases CraneTarget(OccupancyScale(p, c, p.crane.effectiveCapacity, p.defaults.berth.maxCranes as real),
                              p.allowableBerthOccupancy) - Count(elements, Crane)
      {
        BerthLoopProgress(p, elements, c, year);
        ghost var before := elements;
        BerthStep(year);
        BerthPassOk(p, before, year);
        GrowthTransitive(old(elements), before, elements);
        RegistryOccupancy(p, elements);
        occupancy := BerthOccupancy(p, elements, c, year);
      }
    }

    /** `horizontal_transport_invest`: unless straddle carriers do the
        horizontal transport, add tractors while the online STS cranes exceed the
        tractor count over the tractor ratio; the count starts at the online
        tractors and is every tractor after an append. Returns the online cranes. */
    method HorizontalTransportInvest(year: int) returns (stsCranes: nat)
      requires Valid()
      modifies this`elements
      ensures Valid() && DemandOf(elements) == DemandOf(old(elements))
      ensures stsCranes == OnlineCount(old(elements), Crane, year)
      ensures elements == old(elements) + Repeat(NewTractor(p, year), TractorAdds(p, old(elements), year))
      ensures elements == AfterTractors(p, old(elements), year)
      ensures p.stackEquipment != SC ==>
        stsCranes <= FloorDiv(if elements == old(elements) then OnlineCount(elements, Tractor, year)
                              else Count(elements, Tractor), p.defaults.tractor.required as nat)
    {
      stsCranes := CountOnline(Crane, year);
      var online := CountOnline(Tractor, year);
      if p.stackEquipment != SC {
        ghost var es0 := elements;
        var tractor := NewTractor(p, year);
        elements := RatioLoop(elements, tractor, stsCranes, online, p.defaults.tractor.required as nat);
        RepeatKeeps(p, es0, tractor, TractorAdds(p, es0, year));
      }
    }

    /** `empty_handler_invest`: add empty handlers while all cranes exceed all
        handlers over the handler ratio. */
    method EmptyHandlerInvest(year: int)
      requires Valid()
      modifies this`elements
      ensures Valid() && DemandOf(elements) == DemandOf(old(elements))
      ensures elements == old(elements) + Repeat(NewHandler(p, year), HandlerAdds(p, old(elements)))
      ensures elements == AfterHandlers(p, old(elements), year)
      ensures Count(elements, Crane) <= FloorDiv(Count(elements, EmptyHandler), p.defaults.handler.required as nat)
    {
      var handlers := FindElements(EmptyHandler);
      var cranes := FindElements(Crane);
      ghost var es0 := elements;
      var handler := NewHandler(p, year);
      elements := RatioLoop(elements, handler, |cranes|, |handlers|, p.defaults.handler.required as nat);
      RepeatKeeps(p, es0, handler, HandlerAdds(p, es0));
    }

    /** `stack_equipment_invest`: for rtg, sc and rs add machines while the online
        STS cranes exceed the machine count over the ratio; for rmg while the
        online laden stacks exceed half the machine count. */
    method StackEquipmentInvest(year: int)
      requires Valid()
      modifies this`elements
      ensures Valid() && DemandOf(elements) == DemandOf(old(elements))
      ensures elements == old(elements) + Repeat(NewEquipment(p, year), EquipmentAdds(p, old(elements), year))
      ensures elements == AfterEquipment(p, old(elements), year)
      ensures var machines := if elements == old(elements) then OnlineCount(old(elements), StackEquipment, year)
                              else Count(elements, StackEquipment);
        (p.stackEquipment == RTG || p.stackEquipment == SC || p.stackEquipment == RS ==>
           OnlineCount(old(elements), Crane, year) <= FloorDiv(machines, EquipmentDataOf(p).required as nat)) &&
        (p.stackEquipment == RMG ==> OnlineCount(old(elements), LadenStack, year) as real <= machines as real * 0.5)
    {
      var stsCranes := CountOnline(Crane, year);
      var online := CountOnline(StackEquipment, year);
      var stacks := CountOnline(LadenStack, year);
      ghost var es0 := elements;
      var machine := NewEquipment(p, year);
      if p.stackEquipment == RTG || p.stackEquipment == SC || p.stackEquipment == RS {
        elements := RatioLoop(elements, machine, stsCranes, online, EquipmentDataOf(p).required as nat);
      }
      if p.stackEquipment == RMG {
        elements := HalfLoop(elements, machine, stacks, online);
        HalfIsRatio(stacks, if elements == es0 then online else Count(elements, StackEquipment));
      }
      RepeatKeeps(p, es0, machine, EquipmentAdds(p, es0, year));
    }

    /** `self.elements.append` of an asset other than a berth or a crane. */
    method AppendAsset(e: Element)
      requires Valid() && e.Asset? && AssetOk(p, e) && e.kind != Berth && e.kind != Crane
      modifies this`elements
      ensures Valid() && DemandOf(elements) == DemandOf(old(elements))
      ensures elements == old(elements) + [e]
      ensures forall k :: Count(elements, k) == Count(old(elements), k) + (if IsKind(e, k) then 1 else 0)
    {
      AppendElement(p, elements, e);
      AppendKeeps(p, elements, e);
      AppendOne(elements, e);
      DemandDetermines(elements + [e], elements);
      elements := elements + [e];
    }

    /** `laden_stack_invest`: add laden stacks while the required capacity exceeds
        planned plus online capacity. */
    method LadenStackInvest(year: int)
      requires Valid() && LastVolume(elements, year).Some?
      modifies this`elements
      ensures Valid() && DemandOf(elements) == DemandOf(old(elements))
      ensures LastVolume(elements, year).Some?
      ensures elements == old(elements) +
        Repeat(NewLadenStack(p, year, LadenReeferStackCapacity(p, old(elements), year).reeferSlots),
               LadenStackAdds(p, old(elements), year))
      ensures elements == AfterLaden(p, old(elements), year)
      ensures var l := LadenReeferStackCapacity(p, elements, year); !StackShort(l.required, l.planned, l.online)
    {
      ghost var es0 := elements;
      var load := LadenReeferStackCapacity(p, elements, year);
      var stack := NewLadenStack(p, year, load.reeferSlots);
      ghost var n := LadenStackAdds(p, es0, year);
      elements := LadenStackLoop(p, elements, year, stack);
      assert elements == es0 + Repeat(stack, n);
      RepeatKeeps(p, es0, stack, n);
    }

    /** `empty_stack_invest`: as for laden stacks, with the empty stack table. */
    method EmptyStackInvest(year: int)
      requires Valid() && LastVolume(elements, year).Some?
      modifies this`elements
      ensures Valid() && DemandOf(elements) == DemandOf(old(elements))
      ensures LastVolume(elements, year).Some?
      ensures elements == old(elements) + Repeat(NewEmptyStack(p, year), EmptyStackAdds(p, old(elements), year))
      ensures elements == AfterEmpty(p, old(elements), year)
      ensures var l := EmptyStackCapacity(p, elements, year); !StackShort(l.required, l.planned, l.online)
    {
      ghost var es0 := elements;
      var stack := NewEmptyStack(p, year);
      ghost var n := EmptyStackAdds(p, es0, year);
      elements := EmptyStackLoop(p, elements, year, stack);
      assert elements == es0 + Repeat(stack, n);
      RepeatKeeps(p, es0, stack, n);
    }

    /** `oog_stack_invest`: as for laden stacks, with the OOG table and the OOG
        spot requirement. */
    method OOGStackInvest(year: int)
      requires Valid() && LastVolume(elements, year).Some?
      modifies this`elements
      ensures Valid() && DemandOf(elements) == DemandOf(old(elements))
      ensures LastVolume(elements, year).Some?
      ensures elements == old(elements) + Repeat(NewOOGStack(p, year), OOGStackAdds(p, old(elements), year))
      ensures elements == AfterOOG(p, old(elements), year)
      ensures var l := OOGStackCapacity(p, elements, year); !StackShort(l.required, l.planned, l.online)
    {
      ghost var es0 := elements;
      var stack := NewOOGStack(p, year);
      ghost var n := OOGStackAdds(p, es0, year);
      elements := OOGStackLoop(p, elements, year, stack);
      assert elements == es0 + Repeat(stack, n);
      RepeatKeeps(p, es0, stack, n);
    }

    /** `gate_invest`: add gates while the planned service rate exceeds one (it
        is "inf" with no gate). */
    method GateInvest(year: int)
      requires Valid() && LastVolume(elements, year).Some?
      modifies this`elements
      ensures Valid() && DemandOf(elements) == DemandOf(old(elements))
      ensures LastVolume(elements, year).Some?
      ensures elements == old(elements) + Repeat(NewGate(p, year), GateAddsOf(p, old(elements), year))
      ensures elements == AfterGates(p, old(elements), year)
      ensures GatesPlannedOk(p, elements) && !Exceeds(GateMinutes(p, elements, year).rate, 1.0)
    {
      GatesPlanned(p, elements);
      ghost var es0 := elements;
      var gate := NewGate(p, year);
      ghost var n := GateAddsOf(p, es0, year);
      elements := GateLoop(p, elements, year, gate);
      assert elements == es0 + Repeat(gate, n);
      RepeatKeeps(p, es0, gate, n);
    }

    /** `general_services_invest`: in the year after the start year, add the
        general services, lit over the online land plus the buildings; the
        source reads the year's throughput first and fails without one. */
    method GeneralServicesInvest(year: int)
      requires Valid() && LastVolume(elements, year).Some?
      modifies this`elements
      ensures Valid() && DemandOf(elements) == DemandOf(old(elements))
      ensures elements == old(elements) +
        (if year == p.startyear + 1 then [NewGeneralServices(p, year, TotalLand(p, old(elements), year))] else [])
      ensures elements == AfterGeneral(p, old(elements), year)
    {
      var quay := SumOnline(Quay, LandUse, year);
      var stack := SumOnline(LadenStack, LandUse, year);
      var empty := SumOnline(EmptyStack, LandUse, year);
      var oog := SumOnline(OOGStack, LandUse, year);
      var gate := SumOnline(Gate, LandUse, year);
      var totalLand := (quay + stack + empty + oog + gate + Buildings(p.defaults.general)) * 0.0001;
      assert totalLand == TotalLand(p, elements, year);
      if year == p.startyear + 1 {
        AppendAsset(NewGeneralServices(p, year, totalLand));
      }
    }

    // -------------------------------------------------------------------
    // The cost writers

    /** One writer loop, `for element in self.find_elements(k)`: every element
        of the kind gets the year's cell of column c booked at rate r. */
    method BookCells(k: Kind, c: Column, year: int, r: Rate)
      requires Valid() && InYears(year, p.startyear, p.lifecycle)
      modifies this`elements
      ensures WriterInputs(p, old(elements), year)
      ensures Valid() && elements == Booked(old(elements), k, c, year, p.startyear, p.lifecycle, r)
      ensures SameShape(old(elements), elements) && DemandOf(elements) == DemandOf(old(elements))
    {
      ghost var es := elements;
      ValidSeries(p, es);
      elements := BookAll(elements, k, c, year, p.startyear, p.lifecycle, r);
      BookedFrame(es, k, c, year, p.startyear, p.lifecycle, r);
      FrameKeepsRegistry(p, es, elements, c, year - p.startyear);
    }

    /** `calculate_energy_cost`: the crane, rmg, laden-stack and general-services
        passes, each rate taken from the registry as the previous pass left it,
        books exactly the energy the energy writer specifies for the registry as
        it was. */
    method CalculateEnergyCost(year: int)
      requires Valid() && InYears(year, p.startyear, p.lifecycle) && LastVolume(elements, year).Some?
      modifies this`elements
      ensures Valid() && SameShape(old(elements), elements) && DemandOf(elements) == DemandOf(old(elements))
      ensures elements == EnergyBooked(p, old(elements), year, BoxMoves(p, old(elements), year),
                                       LadenReeferStackCapacity(p, old(elements), year).reeferSlots)
    {
      ghost var es := elements;
      var mv := BoxMoves(p, elements, year);
      BookShare(Crane, EnergyCol, year, Consumption, p.energyPrice, mv.sts);
      ghost var a := elements;
      if p.stackEquipment == RMG {
        BookShare(StackEquipment, EnergyCol, year, PowerConsumption, p.energyPrice, mv.stack);
      }
      ghost var b := elements;
      ShapeChain(es, a, b);
      Reshaped(p, es, b, year);
      var slots := LadenReeferStackCapacity(p, elements, year).reeferSlots;
      BookShare(LadenStack, EnergyCol, year, ReefersPresent, ReeferPrice(p), slots);
      ghost var c := elements;
      ShapeChain(es, b, c);
      var general := GeneralEnergyRate(year);
      BookCells(GeneralServices, EnergyCol, year, Flat(general));
      ShapeChain(es, c, elements);
      EnergyPassesAre(p, es, a, b, c, elements, year, mv, slots);
    }

    /** A writer's count loop followed by its pass: the elements of kind k
        online in the year share `amount` at `price`, each weighted by its
        measure m. */
    method BookShare(k: Kind, c: Column, year: int, m: Measure, price: real, amount: real)
      requires Valid() && InYears(year, p.startyear, p.lifecycle)
      modifies this`elements
      ensures Valid() && SameShape(old(elements), elements) && DemandOf(elements) == DemandOf(old(elements))
      ensures SeriesLengths(old(elements), p.lifecycle)
      ensures elements == Booked(old(elements), k, c, year, p.startyear, p.lifecycle,
                                 Share(m, price, amount, OnlineCount(old(elements), k, year)))
    {
      var online := CountOnline(k, year);
      BookCells(k, c, year, Share(m, price, amount, online));
    }

    /** The general energy of the year: the land-use loop over the lit kinds,
        the lighting of that land, and the general consumption. */
    method GeneralEnergyRate(year: int) returns (v: real)
      ensures v == GeneralEnergy(p, elements, year)
    {
      var quay := SumOnline(Quay, LandUse, year);
      var stack := SumOnline(LadenStack, LandUse, year);
      var empty := SumOnline(EmptyStack, LandUse, year);
      var oog := SumOnline(OOGStack, LandUse, year);
      var gate := SumOnline(Gate, LandUse, year);
      var general := SumOnline(GeneralServices, LandUse, year);
      var g := p.defaults.general;
      var land := quay + stack + empty + oog + gate + general;
      var lighting := land * p.energyPrice * g.lightingConsumption;
      var consumption := g.generalConsumption * p.energyPrice * p.operationalHours as real;
      v := lighting + consumption;
      assert land == LitLand(elements, year);
    }

    /** `calculate_general_labour_cost`: with an online crane, the general labour
        of the year's TEU is booked on the general services; without, nothing. */
    method CalculateGeneralLabourCost(year: int)
      requires Valid() && InYears(year, p.startyear, p.lifecycle) && LastVolume(elements, year).Some?
      modifies this`elements
      ensures Valid() && SameShape(old(elements), elements) && DemandOf(elements) == DemandOf(old(elements))
      ensures elements == LabourBooked(p, old(elements), year, TeuTotal(ThroughputCharacteristics(p, old(elements), year)))
    {
      var t := ThroughputCharacteristics(p, elements, year);
      var teu := TeuTotal(t);
      var cranes := CountOnline(Crane, year);
      if cranes != 0 {
        BookCells(GeneralServices, LabourCol, year, Flat(GeneralLabour(p, teu)));
      }
    }

    /** `calculate_fuel_cost`: the empty-handler, stack-equipment (rtg, rs, sc)
        and tractor passes book exactly the fuel the fuel writer specifies. */
    method CalculateFuelCost(year: int)
      requires Valid() && InYears(year, p.startyear, p.lifecycle) && LastVolume(elements, year).Some?
      modifies this`elements
      ensures Valid() && SameShape(old(elements), elements) && DemandOf(elements) == DemandOf(old(elements))
      ensures elements == FuelBooked(p, old(elements), year, BoxMoves(p, old(elements), year))
    {
      ghost var es := elements;
      var mv := BoxMoves(p, elements, year);
      BookShare(EmptyHandler, FuelCol, year, FuelConsumption, p.fuelPrice, mv.empty);
      ghost var a := elements;
      assert a == Booked(es, EmptyHandler, FuelCol, year, p.startyear, p.lifecycle, HandlerFuel(p, es, year, mv));
      if p.stackEquipment != RMG {
        SameOnlineCount(es, a, StackEquipment, year);
        BookShare(StackEquipment, FuelCol, year, FuelConsumption, p.fuelPrice, mv.stack);
        assert elements == Booked(a, StackEquipment, FuelCol, year, p.startyear, p.lifecycle, EquipmentFuel(p, es, year, mv));
      }
      ghost var b := elements;
      ShapeChain(es, a, b);
      SameOnlineCount(es, b, Tractor, year);
      BookShare(Tractor, FuelCol, year, FuelConsumption, p.fuelPrice, mv.tractor);
      ShapeChain(es, b, elements);
    }

    // -------------------------------------------------------------------
    // Demurrage and revenue

    /** `calculate_demurrage_cost`: the year's demurrage is appended to the
        demurrage list. */
    method CalculateDemurrageCost(year: int)
      requires Valid()
      modifies this`demurrage
      ensures DemurrageInputs(p, elements, year)
      ensures demurrage == old(demurrage) + [DemurrageCost(p, elements, year)]
    {
      RegistryDemurrage(p, elements, year);
      var c := VesselCalls(elements, year);
      var f := WaitingTime(p, elements, year);
      var quays := FindElements(Quay);
      var rate := ServicePerQuayLoop(year, |quays|);
      var d: Money;
      if rate != 0.0 {
        d := AddMoney(AddMoney(ClassDemurrage(p.defaults.handymax, c.handymax, f, rate),
                               ClassDemurrage(p.defaults.handysize, c.handysize, f, rate)),
                      ClassDemurrage(p.defaults.panamax, c.panamax, f, rate));
      } else {
        d := Finite(0.0);
      }
      demurrage := demurrage + [d];
    }

    /** The service-rate loop of `calculate_demurrage_cost`: every online crane
        adds its effective capacity over the quay count. */
    method ServicePerQuayLoop(year: int, quays: nat) returns (s: real)
      requires quays == Count(elements, Quay)
      requires OnlineCount(elements, Crane, year) > 0 ==> quays > 0
      ensures s == ServicePerQuay(elements, year)
    {
      s := 0.0;
      var i := 0;
      while i < |elements|
        invariant 0 <= i <= |elements|
        invariant s == if quays == 0 then 0.0 else Online(elements[..i], Crane, EffectiveCapacity, year) / quays as real
      {
        assert Init(elements[..i + 1]) == elements[..i];
        if IsOnline(elements[i], Crane, year) {
          OnlineCounted(elements, Crane, year, i);
          SumOfShares(Online(elements[..i], Crane, EffectiveCapacity, year), ValueOf(elements[i], EffectiveCapacity),
                      quays as real);
          s := s + ValueOf(elements[i], EffectiveCapacity) / quays as real;
        }
        i := i + 1;
      }
      assert elements[..i] == elements;
    }

    /** `calculate_revenue`: the year's revenue is appended to the revenue list;
        without a commodity there is no fee and nothing is appended. */
    method CalculateRevenue(year: int)
      requires Valid()
      requires ClassVolumes(elements, year).total != 0.0 || Online(elements, Crane, EffectiveCapacity, year) != 0.0
      modifies this`revenues
      ensures RevenueInputs(p, elements, year)
      ensures YearRevenue(p, elements, year).Some? ==> revenues == old(revenues) + [YearRevenue(p, elements, year).value]
      ensures YearRevenue(p, elements, year).None? ==> revenues == old(revenues)
    {
      RegistryOccupancy(p, elements);
      var quays := FindElements(Quay);
      var cranes := FindElements(Crane);
      var tractors := FindElements(Tractor);
      var sf := if |quays| < 1 && |cranes| > 1 && |tractors| < 1 then 0.0 else 1.0;
      var demand, fee := DemandLoop(year, sf);
      var o := CraneOccupancy(p, elements, year);
      OnlineCraneCapacity(p, elements, year);
      var service := ServiceRateLoop(year, o);
      if fee.Some? {
        revenues := revenues + [CappedRevenue(demand, service, p.operationalHours as real, fee.value, sf)];
      }
    }

    /** The commodity loop of `calculate_revenue`: the demand value of the
        commodities with data for the year, and the fee of the last commodity. */
    method DemandLoop(year: int, sf: real) returns (d: real, fee: Option<real>)
      ensures d == DemandRevenue(elements, year, sf) && fee == LastFee(elements)
    {
      d, fee := 0.0, None;
      var i := 0;
      while i < |elements|
        invariant 0 <= i <= |elements|
        invariant d == DemandRevenue(elements[..i], year, sf) && fee == LastFee(elements[..i])
      {
        assert Init(elements[..i + 1]) == elements[..i];
        var e := elements[i];
        if e.Commodity? {
          fee := Some(e.handlingFee);
          match VolumeOf(e, year)
          case Some(volume) =>
            d := d + volume * e.handlingFee * sf;
          case None =>
        }
        i := i + 1;
      }
      assert elements[..i] == elements;
    }

    /** The service-rate loop of `calculate_revenue`: every online crane adds
        its effective capacity times the online crane occupancy. */
    method ServiceRateLoop(year: int, o: Ext) returns (s: real)
      requires o.Inf? ==> OnlineCount(elements, Crane, year) == 0
      ensures s == ServiceRate(elements, year, o)
    {
      s := 0.0;
      var i := 0;
      while i < |elements|
        invariant 0 <= i <= |elements|
        invariant s == ServiceRate(elements[..i], year, o)
      {
        assert Init(elements[..i + 1]) == elements[..i];
        if IsOnline(elements[i], Crane, year) {
          OnlineCounted(elements, Crane, year, i);
          Distribute(o.r, Online(elements[..i], Crane, EffectiveCapacity, year), ValueOf(elements[i], EffectiveCapacity));
          s := s + ValueOf(elements[i], EffectiveCapacity) * o.r;
        }
        i := i + 1;
      }
      assert elements[..i] == elements;
    }

    // -------------------------------------------------------------------
    // The simulation engine and the financial summary

    /** One investment decision of the year: the matching `*_invest` method. */
    method TakeDecision(d: Decision, year: int)
      requires Valid() && LastVolume(elements, year).Some?
      modifies this`elements
      ensures Valid() && elements == Decide(p, d, old(elements), year)
    {
      match d
      case BerthDecision =>
        var c := VesselCalls(elements, year);
        BerthInvest(year, c);
      case TransportDecision =>
        var _ := HorizontalTransportInvest(year);
      case LadenDecision =>
        LadenStackInvest(year);
      case EmptyDecision =>
        EmptyStackInvest(year);
      case OOGDecision =>
        OOGStackInvest(year);
      case EquipmentDecision =>
        StackEquipmentInvest(year);
      case GateDecision =>
        GateInvest(year);
      case HandlerDecision =>
        EmptyHandlerInvest(year);
      case GeneralDecision =>
        GeneralServicesInvest(year);
    }

    /** The body of the year loop of `simulate`: the investment decisions of
        the year, in order. */
    method YearInvest(year: int)
      requires Valid() && LastVolume(elements, year).Some?
      modifies this`elements
      ensures Valid() && DemandOf(elements) == DemandOf(old(elements))
      ensures Grows(old(elements), elements)
      ensures elements == YearStep(p, old(elements), year)
    {
      ghost var es := elements;
      var ds := YearDecisions;
      while ds != []
        invariant Valid() && LastVolume(elements, year).Some?
        invariant DemandOf(elements) == DemandOf(es) && Grows(es, elements)
        invariant YearStep(p, es, year) == Decided(p, ds, elements, year)
        decreases |ds|
      {
        ghost var prev := elements;
        TakeDecision(ds[0], year);
        DecidedFirst(p, ds, prev, year, elements);
        GrowsChain(es, prev, elements);
        ds := ds[1..];
      }
    }

    /** `simulate`: the investment decisions year by year, then the energy,
        general labour and fuel writers over every year, the demurrage and the
        revenue of every year, and the NPV of the resulting ledger. */
    method Simulate() returns (npv: Money)
      requires Valid() && DemandEveryYear(elements, p.startyear, p.lifecycle)
      modifies this
      ensures Valid() && DemandOf(elements) == DemandOf(old(elements))
      ensures elements == Simulated(p, old(elements))
      ensures |demurrage| == p.lifecycle && |revenues| == p.lifecycle
      ensures DemurrageList(p, elements, demurrage, p.startyear) && RevenueList(p, elements, revenues, p.startyear)
      ensures npv == Npv(LedgerOf(elements, demurrage, revenues, p.lifecycle), DefaultWacc)
      ensures npv.NotFinite? <==> exists i :: 0 <= i < p.lifecycle && demurrage[i].NotFinite?
    {
      ghost var es := elements;
      InvestEveryYear();
      ghost var invested := elements;
      DemandYears(es, elements, p.startyear, p.lifecycle);

      WriteEveryYear();
      SimulatedIs(p, es, invested, elements);
      DemandYears(es, elements, p.startyear, p.lifecycle);
      DemurrageEveryYear();
      RevenueEveryYear();
      npv := NPV();
    }

    /** The investment loop of `simulate`. */
    method InvestEveryYear()
      requires Valid() && DemandEveryYear(elements, p.startyear, p.lifecycle)
      modifies this`elements
      ensures Valid() && DemandOf(elements) == DemandOf(old(elements)) && Grows(old(elements), elements)
      ensures elements == Invested(p, old(elements), p.startyear, EndYear(p))
    {
      ghost var es := elements;
      var year := p.startyear;
      while year != EndYear(p)
        invariant p.startyear <= year <= EndYear(p)
        invariant ParamsOk(p) && RegistryOk(p, es) && VolumeEveryYear(es, p.startyear, EndYear(p))
        invariant elements == Invested(p, es, p.startyear, year)
        decreases EndYear(p) - year
      {
        var next := year + 1;
        InvestYearOf(es, year, next);
        year := next;
      }
    }

    /** The pass of the investment loop for `year`, on the registry the years
        before it left. */
    method InvestYearOf(ghost es: seq<Element>, year: int, ghost next: int)
      requires Valid() && RegistryOk(p, es) && p.startyear <= year && next == year + 1
      requires VolumeEveryYear(es, p.startyear, next)
      requires elements == Invested(p, es, p.startyear, year)
      modifies this`elements
      ensures Valid() && elements == Invested(p, es, p.startyear, next)
    {
      ghost var b := elements;
      InvestedNext(p, es, p.startyear, year, next, b);
      YearInvest(year);
    }

    /** The three writer loops of `simulate`: energy, general labour and fuel
        over every year. The writers only rewrite cost cells. */
    method WriteEveryYear()
      requires Valid() && DemandEveryYear(elements, p.startyear, p.lifecycle)
      modifies this`elements
      ensures Valid() && SameShape(old(elements), elements) && DemandOf(elements) == DemandOf(old(elements))
      ensures elements == CostsWritten(p, old(elements))
    {
      ghost var es := elements;
      WriteLoop(EnergyWriter);
      ghost var energy := elements;
      VolumesKept(es, energy, p.startyear, EndYear(p));
      WriteLoop(LabourWriter);
      ghost var labour := elements;
      VolumesKept(es, labour, p.startyear, EndYear(p));
      ShapeChain(es, energy, labour);
      WriteLoop(FuelWriter);
      ShapeChain(es, labour, elements);
      CostsWrittenIs(p, es, energy, labour, elements);
    }

    /** One writer loop of `simulate`: writer w over every year of the
        lifecycle. */
    method WriteLoop(w: Writer)
      requires Valid() && VolumeEveryYear(elements, p.startyear, EndYear(p))
      modifies this`elements
      ensures Valid() && SameShape(old(elements), elements) && DemandOf(elements) == DemandOf(old(elements))
      ensures elements == WrittenUntil(p, w, old(elements), EndYear(p))
    {
      ghost var es := elements;
      var year := p.startyear;
      while year != EndYear(p)
        invariant p.startyear <= year <= EndYear(p)
        invariant ParamsOk(p) && RegistryOk(p, es) && VolumeEveryYear(es, p.startyear, EndYear(p))
        invariant elements == WrittenUntil(p, w, es, year)
        decreases EndYear(p) - year
      {
        var next := year + 1;
        WriteYearOf(w, es, year, next);
        year := next;
      }
    }

    /** The pass of a writer loop for `year`, on the registry the years before
        it left. */
    method WriteYearOf(w: Writer, ghost es: seq<Element>, year: int, ghost next: int)
      requires Valid() && RegistryOk(p, es) && InYears(year, p.startyear, p.lifecycle) && next == year + 1
      requires VolumeEveryYear(es, p.startyear, next)
      requires elements == WrittenUntil(p, w, es, year)
      modifies this`elements
      ensures Valid() && elements == WrittenUntil(p, w, es, next)
    {
      ghost var b := elements;
      WrittenNext(p, w, es, year, next, b);
      WriteBy(w, year);
    }

    /** What writer w books in `year`: the matching `calculate_*_cost`
        method. */
    method WriteBy(w: Writer, year: int)
      requires Valid() && InYears(year, p.startyear, p.lifecycle) && LastVolume(elements, year).Some?
      modifies this`elements
      ensures Valid() && elements == WriteYear(p, w, old(elements), year)
    {
      match w
      case EnergyWriter => CalculateEnergyCost(year);
      case LabourWriter => CalculateGeneralLabourCost(year);
      case FuelWriter => CalculateFuelCost(year);
    }

    /** The demurrage loop of `simulate`: a fresh list with one entry per year. */
    method DemurrageEveryYear()
      requires Valid()
      modifies this`demurrage
      ensures |demurrage| == p.lifecycle
      ensures DemurrageList(p, elements, demurrage, p.startyear)
    {
      var start, n := p.startyear, p.lifecycle;
      demurrage := [];
      var year := start;
      while year < start + n
        invariant start <= year <= start + n && |demurrage| == year - start
        invariant DemurrageList(p, elements, demurrage, start)
      {
        DemurrageYear(year);
        year := year + 1;
      }
    }

    /** One pass of the demurrage loop: the list gains the year's entry. */
    method DemurrageYear(year: int)
      requires Valid() && DemurrageList(p, elements, demurrage, p.startyear) && year == p.startyear + |demurrage|
      modifies this`demurrage
      ensures DemurrageList(p, elements, demurrage, p.startyear) && |demurrage| == |old(demurrage)| + 1
    {
      ghost var d := demurrage;
      CalculateDemurrageCost(year);
      ghost var x := demurrage[|d|];
      assert demurrage == d + [x];
      DemurrageOkAt(p, elements, year, x);
      EntriesAppend(DemurrageOk(p, elements), d, p.startyear, x);
    }

    /** The revenue loop of `simulate`: a fresh list; a non-zero volume every
        year gives one entry per year. */
    method RevenueEveryYear()
      requires Valid() && DemandEveryYear(elements, p.startyear, p.lifecycle)
      modifies this`revenues
      ensures |revenues| == p.lifecycle
      ensures RevenueList(p, elements, revenues, p.startyear)
    {
      var start, n := p.startyear, p.lifecycle;
      revenues := [];
      var year := start;
      while year < start + n
        invariant start <= year <= start + n && |revenues| == year - start
        invariant RevenueList(p, elements, revenues, start)
      {
        assert ClassVolumes(elements, year).total != 0.0;
        RevenueYear(year);
        year := year + 1;
      }
    }

    /** One pass of the revenue loop: with volume in the year the list gains
        the year's entry. */
    method RevenueYear(year: int)
      requires Valid() && ClassVolumes(elements, year).total != 0.0
      requires RevenueList(p, elements, revenues, p.startyear) && year == p.startyear + |revenues|
      modifies this`revenues
      ensures RevenueList(p, elements, revenues, p.startyear) && |revenues| == |old(revenues)| + 1
    {
      ghost var r := revenues;
      CalculateRevenue(year);
      VolumeBooksRevenue(p, elements, year);
      ghost var x := revenues[|r|];
      assert revenues == r + [x];
      RevenueOkAt(p, elements, year, x);
      EntriesAppend(RevenueOk(p, elements), r, p.startyear, x);
    }

    /** `add_cashflow_elements`: the ledger of the registry and the two lists,
        and the ledger discounted at the real WACC. */
    method AddCashflowElements() returns (l: Ledger, d: Ledger)
      requires Valid() && |demurrage| == p.lifecycle && |revenues| == p.lifecycle
      ensures SeriesLengths(elements, p.lifecycle)
      ensures l == LedgerOf(elements, demurrage, revenues, p.lifecycle)
      ensures d == DiscountLedger(l, DefaultWacc)
    {
      ValidSeries(p, elements);
      var capex, maintenance, insurance, energy, labour, fuel := AddColumns(elements, p.lifecycle);
      l := Ledger(capex, maintenance, insurance, energy, labour, fuel, demurrage, revenues);
      DefaultWaccPositive();
      var w := WaccReal(WaccNominal(60.0, 0.10, 0.30, 0.28), 0.02);
      var c1 := DiscountLoop(capex, w);
      var c2 := DiscountLoop(maintenance, w);
      var c3 := DiscountLoop(insurance, w);
      var c4 := DiscountLoop(energy, w);
      var c5 := DiscountLoop(labour, w);
      var c6 := DiscountLoop(fuel, w);
      var dm := DiscountMoneyLoop(demurrage, w);
      var rv := DiscountLoop(revenues, w);
      d := Ledger(c1, c2, c3, c4, c5, c6, dm, rv);
    }

    /** `NPV`: the present values of the years, summed; not finite exactly when
        the demurrage of some year is not. */
    method NPV() returns (npv: Money)
      requires Valid() && |demurrage| == p.lifecycle && |revenues| == p.lifecycle
      ensures SeriesLengths(elements, p.lifecycle)
      ensures npv == Npv(LedgerOf(elements, demurrage, revenues, p.lifecycle), DefaultWacc)
      ensures npv.NotFinite? <==> exists i :: 0 <= i < p.lifecycle && demurrage[i].NotFinite?
    {
      var l, d := AddCashflowElements();
      npv := Finite(0.0);
      var i := 0;
      while i < p.lifecycle
        invariant 0 <= i <= p.lifecycle && npv == PresentValues(revenues, d, i)
      {
        npv := AddMoney(npv, PresentValue(revenues, d, i));
        i := i + 1;
      }
      NpvFinite(revenues, d, p.lifecycle);
    }
  }

  /** The append loop of the ratio routines on the registry: append x while c
      exceeds the count over r, where the count starts at t0 and is the number of
      elements of x's kind after each append (a `find_elements` count). It appends
      RatioAdds elements and stops at the first count that serves c. */
  method RatioLoop(es0: seq<Element>, x: Element, c: nat, t0: nat, r: nat) returns (es: seq<Element>)
    requires r >= 1 && x.Asset?
    ensures es == es0 + Repeat(x, RatioAdds(c, t0, Count(es0, x.kind), r))
    ensures c <= FloorDiv(if es == es0 then t0 else Count(es, x.kind), r)
  {
    ghost var n0 := Count(es0, x.kind);
    ghost var k := RatioAdds(c, t0, n0, r);
    es := es0;
    var online := t0;
    ghost var j := 0;
    while c > FloorDiv(online, r)
      invariant j <= k && online == (if j == 0 then t0 else n0 + j)
      invariant es == es0 + Repeat(x, j) && Count(es, x.kind) == n0 + j
      decreases k - j
    {
      RatioLoopTest(c, t0, n0, r, j);
      RepeatStep(es0, x, j);
      CountAppend(es, x);
      es := es + [x];
      online := Count(es, x.kind);
      j := j + 1;
    }
    RatioLoopTest(c, t0, n0, r, j);
    RepeatAdds(es0, x, j);
  }

  /** The rmg loop of `stack_equipment_invest`: append x while the online laden
      stacks exceed half the machine count, which starts at t0 and is the number
      of machines after each append. */
  method HalfLoop(es0: seq<Element>, x: Element, stacks: nat, t0: nat) returns (es: seq<Element>)
    requires x.Asset?
    ensures es == es0 + Repeat(x, RatioAdds(stacks, t0, Count(es0, x.kind), 2))
    ensures stacks <= FloorDiv(if es == es0 then t0 else Count(es, x.kind), 2)
  {
    ghost var n0 := Count(es0, x.kind);
    ghost var k := RatioAdds(stacks, t0, n0, 2);
    es := es0;
    var online := t0;
    ghost var j := 0;
    HalfIsRatio(stacks, online);
    while stacks as real > online as real * 0.5
      invariant j <= k && online == (if j == 0 then t0 else n0 + j)
      invariant es == es0 + Repeat(x, j) && Count(es, x.kind) == n0 + j
      decreases k - j
    {
      HalfIsRatio(stacks, online);
      RatioLoopTest(stacks, t0, n0, 2, j);
      RepeatStep(es0, x, j);
      CountAppend(es, x);
      es := es + [x];
      online := Count(es, x.kind);
      j := j + 1;
    }
    HalfIsRatio(stacks, online);
    RatioLoopTest(stacks, t0, n0, 2, j);
    RepeatAdds(es0, x, j);
  }

  /** The loop of `laden_stack_invest` on the registry: append the stack while
      the required capacity exceeds planned plus online capacity. It appends
      the least number of stacks that covers the initial deficit and stops with
      the requirement covered. */
  method LadenStackLoop(p: Params, es0: seq<Element>, year: int, stack: Element) returns (es: seq<Element>)
    requires StackInputsOk(p) && LastVolume(es0, year).Some?
    requires stack.Asset? && stack.kind == LadenStack && stack.capacity > 0.0
    ensures var l := LadenReeferStackCapacity(p, es0, year);
      es == es0 + Repeat(stack, StackAdds(l.required - l.planned - l.online, StackStep(stack, year)))
    ensures LastVolume(es, year).Some?
    ensures var l := LadenReeferStackCapacity(p, es, year); !StackShort(l.required, l.planned, l.online)
  {
    es := es0;
    var load := LadenReeferStackCapacity(p, es, year);
    ghost var load0 := load;
    ghost var step := StackStep(stack, year);
    ghost var deficit := load0.required - load0.planned - load0.online;
    ghost var k := StackAdds(deficit, step);
    ghost var j := 0;
    while StackShort(load.required, load.planned, load.online)
      invariant j <= k && es == es0 + Repeat(stack, j) && LastVolume(es, year).Some?
      invariant load == LadenReeferStackCapacity(p, es, year)
      invariant load.required == load0.required && load.reeferSlots == load0.reeferSlots
      invariant load.planned + load.online == load0.planned + load0.online + Times(step, j)
      decreases k - j
    {
      StackLoopTimes(deficit, step, j);
      assert j < k;
      LadenLoopStep(p, es0, es, stack, year, load0, j);
      es := es + [stack];
      load := LadenReeferStackCapacity(p, es, year);
      j := j + 1;
    }
    StackLoopTimes(deficit, step, j);
    assert j == k;
  }

  /** The loop of `empty_stack_invest` on the registry. */
  method EmptyStackLoop(p: Params, es0: seq<Element>, year: int, stack: Element) returns (es: seq<Element>)
    requires StackInputsOk(p) && LastVolume(es0, year).Some?
    requires stack.Asset? && stack.kind == EmptyStack && stack.capacity > 0.0
    ensures var l := EmptyStackCapacity(p, es0, year);
      es == es0 + Repeat(stack, StackAdds(l.required - l.planned - l.online, StackStep(stack, year)))
    ensures LastVolume(es, year).Some?
    ensures var l := EmptyStackCapacity(p, es, year); !StackShort(l.required, l.planned, l.online)
  {
    es := es0;
    var load := EmptyStackCapacity(p, es, year);
    ghost var load0 := load;
    ghost var step := StackStep(stack, year);
    ghost var deficit := load0.required - load0.planned - load0.online;
    ghost var k := StackAdds(deficit, step);
    ghost var j := 0;
    while StackShort(load.required, load.planned, load.online)
      invariant j <= k && es == es0 + Repeat(stack, j) && LastVolume(es, year).Some?
      invariant load == EmptyStackCapacity(p, es, year) && load.required == load0.required
      invariant load.planned + load.online == load0.planned + load0.online + Times(step, j)
      decreases k - j
    {
      StackLoopTimes(deficit, step, j);
      assert j < k;
      EmptyLoopStep(p, es0, es, stack, year, load0, j);
      es := es + [stack];
      load := EmptyStackCapacity(p, es, year);
      j := j + 1;
    }
    StackLoopTimes(deficit, step, j);
    assert j == k;
  }

  /** The loop of `oog_stack_invest` on the registry. */
  method OOGStackLoop(p: Params, es0: seq<Element>, year: int, stack: Element) returns (es: seq<Element>)
    requires StackInputsOk(p) && LastVolume(es0, year).Some?
    requires stack.Asset? && stack.kind == OOGStack && stack.capacity > 0.0
    ensures var l := OOGStackCapacity(p, es0, year);
      es == es0 + Repeat(stack, StackAdds(l.required - l.planned - l.online, StackStep(stack, year)))
    ensures LastVolume(es, year).Some?
    ensures var l := OOGStackCapacity(p, es, year); !StackShort(l.required, l.planned, l.online)
  {
    es := es0;
    var load := OOGStackCapacity(p, es, year);
    ghost var load0 := load;
    ghost var step := StackStep(stack, year);
    ghost var deficit := load0.required - load0.planned - load0.online;
    ghost var k := StackAdds(deficit, step);
    ghost var j := 0;
    while StackShort(load.required, load.planned, load.online)
      invariant j <= k && es == es0 + Repeat(stack, j) && LastVolume(es, year).Some?
      invariant load == OOGStackCapacity(p, es, year) && load.required == load0.required
      invariant load.planned + load.online == load0.planned + load0.online + Times(step, j)
      decreases k - j
    {
      StackLoopTimes(deficit, step, j);
      assert j < k;
      OOGLoopStep(p, es0, es, stack, year, load0, j);
      es := es + [stack];
      load := OOGStackCapacity(p, es, year);
      j := j + 1;
    }
    StackLoopTimes(deficit, step, j);
    assert j == k;
  }

  /** The loop of `gate_invest` on the registry: append the gate while the
      planned service rate exceeds one. It appends GateAddsOf gates and stops
      with the rate at most one. */
  method GateLoop(p: Params, es0: seq<Element>, year: int, gate: Element) returns (es: seq<Element>)
    requires ParamsOk(p) && LastVolume(es0, year).Some? && GateCapacities(p, es0) && gate == NewGate(p, year)
    ensures es == es0 + Repeat(gate, GateAddsOf(p, es0, year)) && LastVolume(es, year).Some?
    ensures GatesPlannedOk(p, es) && !Exceeds(GateMinutes(p, es, year).rate, 1.0)
  {
    GateLoopState(p, es0, year, Count(es0, Gate), 0);
    es := es0;
    var rate := GateMinutes(p, es, year).rate;
    ghost var minutes := DesignGateMinutes(p, es, year);
    ghost var n0 := Count(es, Gate);
    ghost var k := GateAddsOf(p, es, year);
    ghost var j := 0;
    while Exceeds(rate, 1.0)
      invariant j <= k && es == es0 + Repeat(gate, j) && LastVolume(es, year).Some? && GateCapacities(p, es)
      invariant Count(es, Gate) == n0 + j && DesignGateMinutes(p, es, year) == minutes
      invariant GatesPlannedOk(p, es) && rate == GateMinutes(p, es, year).rate
      invariant Exceeds(rate, 1.0) <==> j < k
      decreases k - j
    {
      GateAfterAppend(p, es, gate, year);
      GateKeepsCapacities(p, es, year);
      RepeatStep(es0, gate, j);
      es := es + [gate];
      j := j + 1;
      GateLoopState(p, es, year, n0, j);
      rate := GateMinutes(p, es, year).rate;
    }
  }

  /** One append adds one to the count of its own kind. */
  lemma CountAppend(es: seq<Element>, x: Element)
    requires x.Asset?
    ensures Count(es + [x], x.kind) == Count(es, x.kind) + 1
  {
    assert Init(es + [x]) == es;
  }

  /** j appended copies: the sequence is unchanged exactly when j is zero. */
  lemma RepeatAdds(es: seq<Element>, x: Element, j: nat)
    ensures es + Repeat(x, j) == es <==> j == 0
  {
    assert |es + Repeat(x, j)| == |es| + j;
  }

  /** The loop of one writer over the registry: every element of kind k, in
      order, gets the year's cell of column c booked at rate r. */
  method BookAll(es: seq<Element>, k: Kind, c: Column, year: int, start: int, n: nat, r: Rate)
    returns (b: seq<Element>)
    requires SeriesLengths(es, n) && InYears(year, start, n)
    ensures b == Booked(es, k, c, year, start, n, r)
  {
    b := es;
    var i := 0;
    assert es[..0] == [];
    while i < |b|
      invariant 0 <= i <= |es| && |b| == |es|
      invariant b == Booked(es[..i], k, c, year, start, n, r) + es[i..]
    {
      BookStep(es, k, c, year, start, n, r, i, b);
      if IsKind(b[i], k) {
        b := b[i := BookElement(b[i], k, c, year - start, n, year, r)];
      }
      i := i + 1;
    }
    assert es[..i] == es;
  }

  /** The registry invariant gives the demurrage calculator what it needs. */
  lemma RegistryDemurrage(p: Params, es: seq<Element>, year: int)
    requires ParamsOk(p) && RegistryOk(p, es)
    ensures DemurrageInputs(p, es, year)
  {
    RegistryOccupancy(p, es);
    OnlineAtMostAll(es, Crane, year);
    if OnlineCount(es, Crane, year) > 0 {
      SlotMeansQuay(p, es);
    }
  }

  /** Cranes share one positive effective capacity, so an online crane means
      online capacity, and the online crane occupancy is not "inf". */
  lemma OnlineCraneCapacity(p: Params, es: seq<Element>, year: int)
    requires ParamsOk(p) && RegistryOk(p, es)
    ensures OnlineCount(es, Crane, year) > 0 ==> Count(es, Crane) > 0 && Online(es, Crane, EffectiveCapacity, year) > 0.0
  {
    OnlineAtMostAll(es, Crane, year);
    if OnlineCount(es, Crane, year) > 0 {
      UniformOnlinePositive(es, Crane, EffectiveCapacity, p.crane.effectiveCapacity, year);
    }
  }

  lemma SumOfShares(a: real, b: real, n: real)
    requires n != 0.0
    ensures a / n + b / n == (a + b) / n
  {
  }

  /** Rewritten cost cells change no online count. */
  lemma SameOnlineCount(a: seq<Element>, b: seq<Element>, k: Kind, year: int)
    requires SameShape(a, b)
    ensures OnlineCount(a, k, year) == OnlineCount(b, k, year)
  {
    SameShapeTotals(a, b);
  }

  /** Rewritten cost cells change no online count, so not the reefer rate. */
  lemma SameReeferRate(p: Params, a: seq<Element>, b: seq<Element>, year: int, slots: real)
    requires SameShape(a, b)
    ensures ReeferEnergy(p, a, year, slots) ==
            Share(ReefersPresent, ReeferPrice(p), slots, OnlineCount(b, LadenStack, year))
  {
    SameOnlineCount(a, b, LadenStack, year);
  }

  /** Rewritten cost cells change no land use, so not the general energy. */
  lemma SameGeneralEnergy(p: Params, a: seq<Element>, b: seq<Element>, year: int)
    requires SameShape(a, b)
    ensures GeneralEnergy(p, a, year) == GeneralEnergy(p, b, year)
  {
    SameShapeTotals(a, b);
    assert LitLand(a, year) == LitLand(b, year);
  }

  /** The four passes as the energy method runs them, each rate read from the
      registry the previous pass left, are the energy writer on the registry
      as it was. */
  lemma EnergyPassesAre(p: Params, es: seq<Element>, a: seq<Element>, b: seq<Element>, c: seq<Element>,
                        d: seq<Element>, year: int, mv: Moves, slots: real)
    requires WriterInputs(p, es, year)
    requires a == Booked(es, Crane, EnergyCol, year, p.startyear, p.lifecycle,
                         Share(Consumption, p.energyPrice, mv.sts, OnlineCount(es, Crane, year)))
    requires b == if p.stackEquipment == RMG
                  then Booked(a, StackEquipment, EnergyCol, year, p.startyear, p.lifecycle,
                              Share(PowerConsumption, p.energyPrice, mv.stack, OnlineCount(a, StackEquipment, year)))
                  else a
    requires c == Booked(b, LadenStack, EnergyCol, year, p.startyear, p.lifecycle,
                         Share(ReefersPresent, ReeferPrice(p), slots, OnlineCount(b, LadenStack, year)))
    requires d == Booked(c, GeneralServices, EnergyCol, year, p.startyear, p.lifecycle, Flat(GeneralEnergy(p, c, year)))
    ensures d == EnergyBooked(p, es, year, mv, slots)
  {
    var n := p.lifecycle;
    BookedShape(es, Crane, EnergyCol, year, p.startyear, n, CraneEnergy(p, es, year, mv));
    SameOnlineCount(es, a, StackEquipment, year);
    if p.stackEquipment == RMG {
      BookedShape(a, StackEquipment, EnergyCol, year, p.startyear, n, EquipmentEnergy(p, es, year, mv));
    }
    ShapeChain(es, a, b);
    SameReeferRate(p, es, b, year, slots);
    BookedShape(b, LadenStack, EnergyCol, year, p.startyear, n, ReeferEnergy(p, es, year, slots));
    ShapeChain(es, b, c);
    SameGeneralEnergy(p, es, c, year);
  }

  /** Same shape is an equivalence: it chains. */
  lemma ShapeChain(a: seq<Element>, b: seq<Element>, c: seq<Element>)
    requires SameShape(a, b) && SameShape(b, c)
    ensures SameShape(a, c)
  {
  }

  /** Rewritten cost cells change neither the year's volume nor the reefer
      slots the energy writer reads. */
  lemma Reshaped(p: Params, a: seq<Element>, b: seq<Element>, year: int)
    requires ParamsOk(p) && SameShape(a, b) && LastVolume(a, year).Some?
    ensures LastVolume(b, year) == LastVolume(a, year)
    ensures LadenReeferStackCapacity(p, a, year).reeferSlots == LadenReeferStackCapacity(p, b, year).reeferSlots
  {
    SameShapeDemand(a, b);
    DemandLastVolume(a, year);
    DemandLastVolume(b, year);
    assert ThroughputCharacteristics(p, a, year) == ThroughputCharacteristics(p, b, year);
  }

  /** The element loop of `add_cashflow_elements`: every element with a
      cash-flow table adds its columns to the ledger columns. */
  method AddColumns(es: seq<Element>, n: nat)
    returns (capex: seq<real>, maintenance: seq<real>, insurance: seq<real>,
             energy: seq<real>, labour: seq<real>, fuel: seq<real>)
    requires SeriesLengths(es, n)
    ensures capex == ColumnTotal(es, CapexCol, n) && maintenance == ColumnTotal(es, MaintenanceCol, n)
    ensures insurance == ColumnTotal(es, InsuranceCol, n) && energy == ColumnTotal(es, EnergyCol, n)
    ensures labour == ColumnTotal(es, LabourCol, n) && fuel == ColumnTotal(es, FuelCol, n)
  {
    capex, maintenance, insurance, energy, labour, fuel := Zeros(n), Zeros(n), Zeros(n), Zeros(n), Zeros(n), Zeros(n);
    var i := 0;
    assert es[..0] == [];
    while i < |es|
      invariant 0 <= i <= |es| && SeriesLengths(es[..i], n)
      invariant capex == ColumnTotal(es[..i], CapexCol, n) && maintenance == ColumnTotal(es[..i], MaintenanceCol, n)
      invariant insurance == ColumnTotal(es[..i], InsuranceCol, n) && energy == ColumnTotal(es[..i], EnergyCol, n)
      invariant labour == ColumnTotal(es[..i], LabourCol, n) && fuel == ColumnTotal(es[..i], FuelCol, n)
    {
      PrefixStep(es, n, i);
      if HasSeries(es[i]) {
        var s := es[i].series.value;
        capex := AddSeq(capex, ColumnOf(s, CapexCol));
        maintenance := AddSeq(maintenance, ColumnOf(s, MaintenanceCol));
        insurance := AddSeq(insurance, ColumnOf(s, InsuranceCol));
        energy := AddSeq(energy, ColumnOf(s, EnergyCol));
        labour := AddSeq(labour, ColumnOf(s, LabourCol));
        fuel := AddSeq(fuel, ColumnOf(s, FuelCol));
      }
      i := i + 1;
    }
    assert es[..i] == es;
  }

  /** One more element of the registry prefix. */
  lemma PrefixStep(es: seq<Element>, n: nat, i: int)
    requires SeriesLengths(es, n) && 0 <= i < |es|
    ensures SeriesLengths(es[..i + 1], n)
    ensures es[..i + 1] != [] && Init(es[..i + 1]) == es[..i] && Last(es[..i + 1]) == es[i]
  {
    assert forall j :: 0 <= j <= i ==> es[..i + 1][j] == es[j];
  }

  /** The year loop of `add_cashflow_elements` on one column: year index i is
      divided by (1 + w)^i. */
  method DiscountLoop(s: seq<real>, w: real) returns (r: seq<real>)
    requires w > -1.0
    ensures r == DiscountColumn(s, w)
  {
    r := [];
    var i := 0;
    while i < |s|
      invariant 0 <= i <= |s| && |r| == i && forall j :: 0 <= j < i ==> r[j] == s[j] / Discount(w, j)
    {
      r := r + [s[i] / Discount(w, i)];
      i := i + 1;
    }
  }

  /** The same loop on the demurrage column, where a non-finite entry stays so. */
  method DiscountMoneyLoop(s: seq<Money>, w: real) returns (r: seq<Money>)
    requires w > -1.0
    ensures r == DiscountMoney(s, w)
  {
    r := [];
    var i := 0;
    while i < |s|
      invariant 0 <= i <= |s| && |r| == i
      invariant forall j :: 0 <= j < i ==> r[j] == if s[j].Finite? then Finite(s[j].v / Discount(w, j)) else NotFinite
    {
      r := r + [if s[i].Finite? then Finite(s[i].v / Discount(w, i)) else NotFinite];
      i := i + 1;
    }
  }

  /** A per-year list: entry i satisfies ok at year start + i. */
  predicate Entries<T>(ok: (int, T) -> bool, d: seq<T>, start: int)
  {
    d == [] || (Entries(ok, d[..|d| - 1], start) && ok(start + |d| - 1, d[|d| - 1]))
  }

  /** A per-year list gains the next year's entry. */
  lemma EntriesAppend<T>(ok: (int, T) -> bool, d: seq<T>, start: int, x: T)
    requires Entries(ok, d, start) && ok(start + |d|, x)
    ensures Entries(ok, d + [x], start)
  {
    var e := d + [x];
    assert |e| - 1 == |d|;
    assert e[..|e| - 1] == d && e[|e| - 1] == x;
  }

  /** Read back entry i of a per-year list. */
  lemma {:induction false} EntriesAt<T>(ok: (int, T) -> bool, d: seq<T>, start: int, i: int)
    requires Entries(ok, d, start) && 0 <= i < |d|
    ensures ok(start + i, d[i])
  {
    var front := d[..|d| - 1];
    if i < |front| {
      EntriesAt(ok, front, start, i);
      assert front[i] == d[i];
    } else {
      assert start + i == start + |d| - 1;
    }
  }

  /** m is the demurrage of the year. */
  predicate DemurrageEntry(p: Params, es: seq<Element>, year: int, m: Money)
  {
    DemurrageInputs(p, es, year) && m == DemurrageCost(p, es, year)
  }

  function DemurrageOk(p: Params, es: seq<Element>): (int, Money) -> bool
  {
    (year: int, m: Money) => DemurrageEntry(p, es, year, m)
  }

  lemma DemurrageOkAt(p: Params, es: seq<Element>, year: int, m: Money)
    requires DemurrageInputs(p, es, year) && m == DemurrageCost(p, es, year)
    ensures DemurrageOk(p, es)(year, m)
  {
  }

  /** Entry i of the demurrage list is the demurrage of year start + i. */
  predicate DemurrageList(p: Params, es: seq<Element>, d: seq<Money>, start: int)
  {
    Entries(DemurrageOk(p, es), d, start)
  }

  /** x is the revenue of the year. */
  predicate RevenueEntry(p: Params, es: seq<Element>, year: int, x: real)
  {
    RevenueInputs(p, es, year) && YearRevenue(p, es, year) == Some(x)
  }

  function RevenueOk(p: Params, es: seq<Element>): (int, real) -> bool
  {
    (year: int, x: real) => RevenueEntry(p, es, year, x)
  }

  lemma RevenueOkAt(p: Params, es: seq<Element>, year: int, x: real)
    requires RevenueInputs(p, es, year) && YearRevenue(p, es, year) == Some(x)
    ensures RevenueOk(p, es)(year, x)
  {
  }

  /** Entry i of the revenue list is the revenue of year start + i. */
  predicate RevenueList(p: Params, es: seq<Element>, r: seq<real>, start: int)
  {
    Entries(RevenueOk(p, es), r, start)
  }

  /** Every simulated year has demand data and a non-zero volume. */
  predicate DemandEveryYear(es: seq<Element>, start: int, n: nat)
  {
    forall y :: start <= y < start + n ==> LastVolume(es, y).Some? && ClassVolumes(es, y).total != 0.0
  }

  /** The demand of every year depends on the demand side only. */
  lemma DemandYears(a: seq<Element>, b: seq<Element>, start: int, n: nat)
    requires DemandOf(a) == DemandOf(b) && DemandEveryYear(a, start, n)
    ensures DemandEveryYear(b, start, n)
  {
    DemandDetermines(a, b);
  }

  lemma Volume(a: seq<Element>, b: seq<Element>, year: int)
    requires DemandOf(a) == DemandOf(b) && LastVolume(a, year).Some?
    ensures LastVolume(b, year).Some?
  {
    DemandLastVolume(a, year);
    DemandLastVolume(b, year);
  }

  /** b extends a: the registry only grew at its end. */
  predicate Grows(a: seq<Element>, b: seq<Element>)
  {
    |a| <= |b| && b[..|a|] == a
  }

  lemma GrowsChain(a: seq<Element>, b: seq<Element>, c: seq<Element>)
    requires Grows(a, b) && Grows(b, c)
    ensures Grows(a, c)
  {
    assert c[..|a|] == c[..|b|][..|a|];
  }

  /** The registry invariant gives every series the lifecycle's length. */
  lemma ValidSeries(p: Params, es: seq<Element>)
    requires RegistryOk(p, es)
    ensures SeriesLengths(es, p.lifecycle)
  {
    forall i | 0 <= i < |es| && es[i].Asset? && es[i].series.Some?
      ensures SeriesOk(es[i].series.value, p.lifecycle)
    {
      assert AssetOk(p, es[i]);
    }
  }

  /** A writer loop after i + 1 elements is the loop after i elements plus the
      booking of element i. */
  lemma BookedPrefix(es: seq<Element>, k: Kind, c: Column, year: int, start: int, n: nat, r: Rate, i: int)
    requires SeriesLengths(es, n) && InYears(year, start, n) && 0 <= i < |es|
    ensures SeriesLengths(es[..i], n) && SeriesLengths(es[..i + 1], n)
    ensures Booked(es[..i + 1], k, c, year, start, n, r) ==
            Booked(es[..i], k, c, year, start, n, r) + [BookElement(es[i], k, c, year - start, n, year, r)]
  {
    assert forall j :: 0 <= j <= i ==> es[..i + 1][j] == es[j];
    assert Init(es[..i + 1]) == es[..i] && Last(es[..i + 1]) == es[i];
  }

  /** One step of the writer loop: booking element i (a no-op for other kinds)
      extends the booked prefix by one. */
  lemma BookStep(es: seq<Element>, k: Kind, c: Column, year: int, start: int, n: nat, r: Rate, i: int,
                 b: seq<Element>)
    requires SeriesLengths(es, n) && InYears(year, start, n) && 0 <= i < |es|
    requires SeriesLengths(es[..i], n) && b == Booked(es[..i], k, c, year, start, n, r) + es[i..]
    ensures SeriesLengths(es[..i + 1], n) && |b| == |es| && b[i] == es[i]
    ensures var next := Booked(es[..i + 1], k, c, year, start, n, r) + es[i + 1..];
      b[i := BookElement(b[i], k, c, year - start, n, year, r)] == next && (!IsKind(b[i], k) ==> b == next)
  {
    BookedPrefix(es, k, c, year, start, n, r, i);
    var booked := BookElement(es[i], k, c, year - start, n, year, r);
    Splice(Booked(es[..i], k, c, year, start, n, r), es[i..], booked);
    assert es[i..][1..] == es[i + 1..];
  }

  /** Replacing the head of the unvisited part moves it to the visited part. */
  lemma Splice(done: seq<Element>, rest: seq<Element>, x: Element)
    requires rest != []
    ensures (done + rest)[|done| := x] == (done + [x]) + rest[1..]
    ensures rest[0] == x ==> done + rest == (done + [x]) + rest[1..]
  {
    assert rest == [rest[0]] + rest[1..];
  }

  /** Rewriting cells keeps the registry invariant and the demand side. */
  lemma FrameKeepsRegistry(p: Params, a: seq<Element>, b: seq<Element>, c: Column, idx: nat)
    requires RegistryOk(p, a) && CellFrame(a, b, c, idx) && SeriesLengths(b, p.lifecycle)
    ensures RegistryOk(p, b) && SameShape(a, b) && DemandOf(b) == DemandOf(a)
  {
    CellFrameShape(a, b, c, idx);
    SameShapeTotals(a, b);
    SameShapeDemand(a, b);
    DemandDetermines(a, b);
    forall i | 0 <= i < |b|
      ensures AssetOk(p, b[i]) && (!b[i].Asset? ==> b[i] == a[i])
    {
      assert AssetOk(p, a[i]) && Shape(a[i]) == Shape(b[i]) && ElementFrame(a[i], b[i], c, idx);
    }
  }

  /** The loop of `crane_invest` over the quays: the latest year a quay comes online. */
  method LatestQuayLoop(quays: seq<Element>) returns (latest: int)
    requires quays != [] && forall i :: 0 <= i < |quays| ==> IsKind(quays[i], Quay)
    ensures LatestQuayYear(quays) == Some(latest)
  {
    latest := quays[0].yearOnline;
    assert Init(quays[..1]) == [];
    var i := 1;
    while i < |quays|
      invariant 1 <= i <= |quays|
      invariant LatestQuayYear(quays[..i]) == Some(latest)
    {
      assert Init(quays[..i + 1]) == quays[..i];
      if quays[i].yearOnline > latest {
        latest := quays[i].yearOnline;
      }
      i := i + 1;
    }
    assert quays[..i] == quays;
  }

  /** The latest quay year is the one the crane loop over `find_elements(Quay)` finds. */
  lemma {:induction false} FindQuayYear(es: seq<Element>)
    ensures LatestQuayYear(Find(es, Quay)) == LatestQuayYear(es)
  {
    if es != [] {
      FindQuayYear(Init(es));
      var f := Find(es, Quay);
      if IsKind(Last(es), Quay) {
        assert Init(f) == Find(Init(es), Quay) && Last(f) == Last(es);
      } else {
        assert f == Find(Init(es), Quay);
      }
    }
  }

  lemma GrowthTransitive(a: seq<Element>, b: seq<Element>, c: seq<Element>)
    requires BerthGrowth(a, b) && BerthGrowth(b, c)
    ensures BerthGrowth(a, c)
  {
    assert c[..|a|] == b[..|a|];
    forall i | |a| <= i < |c|
      ensures BerthKind(c[i])
    {
      if i < |b| {
        assert c[i] == b[i];
      }
    }
  }
}
