/** Demand and traffic: the scenario lookups, the split of a year's volume over
    vessel classes and container categories, the vessel calls, the quay
    throughput, and the box counts and box moves derived from it. */
module Traffic {
  import opened Numbers
  import opened Config
  import opened Registry

  /** A commodity's scenario lookup: None when the scenario has no row for the year. */
  function VolumeOf(e: Element, year: int): Option<real>
    requires e.Commodity?
  {
    if year in e.scenario then Some(e.scenario[year]) else None
  }

  /** What the source demands of its demand inputs: shares and volumes are
      non-negative, every vessel has a positive call size, and each of the three
      vessel types is present (the call count of a missing type is unbound). */
  predicate DemandOk(es: seq<Element>)
  {
    (forall i :: 0 <= i < |es| && es[i].Commodity? ==>
       es[i].handysizePerc >= 0.0 && es[i].handymaxPerc >= 0.0 && es[i].panamaxPerc >= 0.0 &&
       forall y :: y in es[i].scenario ==> es[i].scenario[y] >= 0.0) &&
    (forall i :: 0 <= i < |es| && es[i].Vessel? ==> es[i].callSize > 0.0) &&
    CallSize(es, Handysize).Some? && CallSize(es, Handymax).Some? && CallSize(es, Panamax).Some?
  }

  datatype Volumes = Volumes(handysize: real, handymax: real, panamax: real, total: real)

  /** The per-class volumes of `calculate_vessel_calls`: every commodity with
      data for the year contributes its volume times its class percentages / 100;
      commodities without data contribute nothing. */
  function ClassVolumes(es: seq<Element>, year: int): Volumes
  {
    if es == [] then Volumes(0.0, 0.0, 0.0, 0.0) else AddVolumes(ClassVolumes(Init(es), year), Last(es), year)
  }

  /** One pass of the commodity loop: a commodity with data adds its shares. */
  function AddVolumes(v: Volumes, e: Element, year: int): Volumes
  {
    if e.Commodity? && VolumeOf(e, year).Some? then
      var vol := VolumeOf(e, year).value;
      Volumes(v.handysize + vol * e.handysizePerc / 100.0,
              v.handymax + vol * e.handymaxPerc / 100.0,
              v.panamax + vol * e.panamaxPerc / 100.0,
              v.total + vol)
    else v
  }

  /** The call size of the last vessel of a type (the loop keeps the last one). */
  function CallSize(es: seq<Element>, t: VesselType): Option<real>
  {
    if es == [] then None
    else if Last(es).Vessel? && Last(es).vesselType == t then Some(Last(es).callSize)
    else CallSize(Init(es), t)
  }

  lemma {:induction false} CallSizePositive(es: seq<Element>, t: VesselType)
    requires forall i :: 0 <= i < |es| && es[i].Vessel? ==> es[i].callSize > 0.0
    requires CallSize(es, t).Some?
    ensures CallSize(es, t).value > 0.0
  {
    if !(Last(es).Vessel? && Last(es).vesselType == t) {
      InitIndex(es);
      CallSizePositive(Init(es), t);
    }
  }

  /** Shares and volumes are non-negative, so is every class volume. */
  lemma {:induction false} ClassVolumesNonNegative(es: seq<Element>, year: int)
    requires forall i :: 0 <= i < |es| && es[i].Commodity? ==>
       es[i].handysizePerc >= 0.0 && es[i].handymaxPerc >= 0.0 && es[i].panamaxPerc >= 0.0 &&
       forall y :: y in es[i].scenario ==> es[i].scenario[y] >= 0.0
    ensures var v := ClassVolumes(es, year);
      v.handysize >= 0.0 && v.handymax >= 0.0 && v.panamax >= 0.0 && v.total >= 0.0
  {
    if es != [] {
      InitIndex(es);
      ClassVolumesNonNegative(Init(es), year);
      var e := Last(es);
      if e.Commodity? && VolumeOf(e, year).Some? {
        assert e == es[|es| - 1];
        var vol := VolumeOf(e, year).value;
        assert vol >= 0.0;
        NonNegProduct(vol, e.handysizePerc);
        NonNegProduct(vol, e.handymaxPerc);
        NonNegProduct(vol, e.panamaxPerc);
      }
    }
  }

  lemma NonNegProduct(a: real, b: real)
    requires a >= 0.0 && b >= 0.0
    ensures a * b / 100.0 >= 0.0
  {
  }

  datatype Calls = Calls(handysize: nat, handymax: nat, panamax: nat)

  function TotalCalls(c: Calls): nat
  {
    c.handysize + c.handymax + c.panamax
  }

  function CallsOf(c: Calls, t: VesselType): nat
  {
    match t
    case Handysize => c.handysize
    case Handymax => c.handymax
    case Panamax => c.panamax
  }

  function VolumeOfClass(v: Volumes, t: VesselType): real
  {
    match t
    case Handysize => v.handysize
    case Handymax => v.handymax
    case Panamax => v.panamax
  }

  /** n calls of size cs carry vol and n - 1 calls would not. */
  predicate CallsCover(n: int, cs: real, vol: real)
  {
    (n - 1) as real * cs < vol <= n as real * cs
  }

  /** `int(np.ceil(vol / call_size))`: the least number of calls that carries vol. */
  function ClassCalls(vol: real, cs: real): nat
    requires vol >= 0.0 && cs > 0.0
  {
    CeilDivision(vol, cs);
    assert vol / cs >= 0.0;
    Ceil(vol / cs)
  }

  /** ClassCalls calls carry the volume and one call fewer would not. */
  lemma ClassCallsCover(vol: real, cs: real)
    requires vol >= 0.0 && cs > 0.0
    ensures CallsCover(ClassCalls(vol, cs), cs, vol)
  {
    CeilDivision(vol, cs);
  }

  /** A per-class fact for the three classes holds for every class. */
  lemma CoverEveryClass(es: seq<Element>, v: Volumes, c: Calls)
    requires CallSize(es, Handysize).Some? && CallSize(es, Handymax).Some? && CallSize(es, Panamax).Some?
    requires CallsCover(c.handysize, CallSize(es, Handysize).value, v.handysize)
    requires CallsCover(c.handymax, CallSize(es, Handymax).value, v.handymax)
    requires CallsCover(c.panamax, CallSize(es, Panamax).value, v.panamax)
    ensures forall t :: CallsCover(CallsOf(c, t), CallSize(es, t).value, VolumeOfClass(v, t))
  {
    forall t ensures CallsCover(CallsOf(c, t), CallSize(es, t).value, VolumeOfClass(v, t)) {
      match t
      case Handysize =>
      case Handymax =>
      case Panamax =>
    }
  }

  /** `calculate_vessel_calls`: per class, the ceiling of the class volume over
      the call size of that class's vessel, i.e. the least number of calls that
      carries the class volume. */
  function VesselCalls(es: seq<Element>, year: int): Calls
    requires DemandOk(es)
  {
    ClassVolumesNonNegative(es, year);
    CallSizePositive(es, Handysize);
    CallSizePositive(es, Handymax);
    CallSizePositive(es, Panamax);
    var v := ClassVolumes(es, year);
    Calls(ClassCalls(v.handysize, CallSize(es, Handysize).value),
          ClassCalls(v.handymax, CallSize(es, Handymax).value),
          ClassCalls(v.panamax, CallSize(es, Panamax).value))
  }

  /** Every class gets the least number of calls that carries its volume. */
  lemma VesselCallsCover(es: seq<Element>, year: int)
    requires DemandOk(es)
    ensures forall t :: CallsCover(CallsOf(VesselCalls(es, year), t), CallSize(es, t).value,
                                   VolumeOfClass(ClassVolumes(es, year), t))
  {
    ClassVolumesNonNegative(es, year);
    CallSizePositive(es, Handysize);
    CallSizePositive(es, Handymax);
    CallSizePositive(es, Panamax);
    var v := ClassVolumes(es, year);
    ClassCallsCover(v.handysize, CallSize(es, Handysize).value);
    ClassCallsCover(v.handymax, CallSize(es, Handymax).value);
    ClassCallsCover(v.panamax, CallSize(es, Panamax).value);
    CoverEveryClass(es, v, VesselCalls(es, year));
  }

  /** The volume `throughput_characteristics` reads: the volume of the last
      commodity that has data for the year (each lookup overwrites the previous
      one); None when no commodity has data, where the source fails. */
  function LastVolume(es: seq<Element>, year: int): Option<real>
  {
    if es == [] then None
    else if Last(es).Commodity? && VolumeOf(Last(es), year).Some? then VolumeOf(Last(es), year)
    else LastVolume(Init(es), year)
  }

  datatype Teu = Teu(laden: real, reefer: real, empty: real, oog: real)

  function TeuTotal(t: Teu): real
  {
    t.laden + t.reefer + t.empty + t.oog
  }

  /** A volume split over the four container categories by the fixed shares. */
  function SplitTeu(p: Params, volume: real): Teu
  {
    Teu(volume * p.ladenPerc, volume * p.reeferPerc, volume * p.emptyPerc, volume * p.oogPerc)
  }

  /** `throughput_characteristics`: the year's volume split by category. */
  function ThroughputCharacteristics(p: Params, es: seq<Element>, year: int): Teu
    requires LastVolume(es, year).Some?
  {
    SplitTeu(p, LastVolume(es, year).value)
  }

  /** With shares summing to one the split loses and invents nothing. */
  lemma SplitTeuConserves(p: Params, volume: real)
    requires p.ladenPerc + p.reeferPerc + p.emptyPerc + p.oogPerc == 1.0
    ensures TeuTotal(SplitTeu(p, volume)) == volume
  {
    calc {
      TeuTotal(SplitTeu(p, volume));
      volume * p.ladenPerc + volume * p.reeferPerc + volume * p.emptyPerc + volume * p.oogPerc;
      volume * (p.ladenPerc + p.reeferPerc + p.emptyPerc + p.oogPerc);
    }
  }

  /** The planned quay capacity: every crane at the allowable berth occupancy times 0.7. */
  function QuayCapacityPlanned(p: Params, es: seq<Element>): real
  {
    Planned(es, Crane, EffectiveCapacity) * p.operationalHours as real * p.allowableBerthOccupancy * 0.7
  }

  /** The online quay capacity: the cranes online at full operational hours. */
  function QuayCapacityOnline(p: Params, es: seq<Element>, year: int): real
  {
    Online(es, Crane, EffectiveCapacity, year) * p.operationalHours as real
  }

  datatype Throughput = Throughput(online: real, planned: real)

  /** `calculate_throughput`: the year's demand capped by the online and by the
      planned quay capacity. */
  function CalculateThroughput(p: Params, es: seq<Element>, year: int): Throughput
    requires LastVolume(es, year).Some?
  {
    var volume := LastVolume(es, year).value;
    Throughput(OnlineThroughput(p, Online(es, Crane, EffectiveCapacity, year), volume),
               PlannedThroughput(p, Planned(es, Crane, EffectiveCapacity), volume))
  }

  /** The online throughput: the demand of `volume` capped by the online crane
      capacity `online` at full operational hours. */
  function OnlineThroughput(p: Params, online: real, volume: real): real
  {
    Min(online * p.operationalHours as real, TeuTotal(SplitTeu(p, volume)))
  }

  /** The planned throughput: the demand of `volume` capped by the crane capacity
      `planned` at the allowable berth occupancy times 0.7. */
  function PlannedThroughput(p: Params, planned: real, volume: real): real
  {
    Min(planned * p.operationalHours as real * p.allowableBerthOccupancy * 0.7, TeuTotal(SplitTeu(p, volume)))
  }

  /** The throughput is the demand capped by the quay capacity, online and planned. */
  lemma ThroughputCapped(p: Params, es: seq<Element>, year: int)
    requires LastVolume(es, year).Some?
    ensures var t, demand := CalculateThroughput(p, es, year), TeuTotal(ThroughputCharacteristics(p, es, year));
      t.online <= demand && t.online <= QuayCapacityOnline(p, es, year) &&
      (t.online == demand || t.online == QuayCapacityOnline(p, es, year)) &&
      t.planned <= demand && t.planned <= QuayCapacityPlanned(p, es) &&
      (t.planned == demand || t.planned == QuayCapacityPlanned(p, es))
  {
  }

  datatype Boxes = Boxes(laden: real, reefer: real, empty: real, oog: real)

  function BoxTotal(b: Boxes): real
  {
    b.laden + b.reefer + b.empty + b.oog
  }

  /** TEU to boxes, per category, by the category's TEU factor. */
  function ToBoxes(p: Params, t: Teu): (b: Boxes)
    requires ContainerDataOk(p.defaults.laden) && ContainerDataOk(p.defaults.reefer)
    requires ContainerDataOk(p.defaults.empty) && ContainerDataOk(p.defaults.oog)
    ensures b.laden * p.defaults.laden.teuFactor == t.laden
    ensures b.reefer * p.defaults.reefer.teuFactor == t.reefer
    ensures b.empty * p.defaults.empty.teuFactor == t.empty
    ensures b.oog * p.defaults.oog.teuFactor == t.oog
  {
    var d := p.defaults;
    Boxes(t.laden / d.laden.teuFactor, t.reefer / d.reefer.teuFactor,
          t.empty / d.empty.teuFactor, t.oog / d.oog.teuFactor)
  }

  /** `throughput_box`: the online throughput split by category, in boxes. */
  function ThroughputBox(p: Params, es: seq<Element>, year: int): Boxes
    requires LastVolume(es, year).Some?
    requires ContainerDataOk(p.defaults.laden) && ContainerDataOk(p.defaults.reefer)
    requires ContainerDataOk(p.defaults.empty) && ContainerDataOk(p.defaults.oog)
  {
    ToBoxes(p, SplitTeu(p, CalculateThroughput(p, es, year).online))
  }

  /** The online box throughput depends on the registry only through the
      year's volume and the online crane capacity. */
  lemma SameOnlineThroughput(p: Params, a: seq<Element>, b: seq<Element>, year: int)
    requires LastVolume(a, year).Some? && LastVolume(a, year) == LastVolume(b, year)
    requires Online(a, Crane, EffectiveCapacity, year) == Online(b, Crane, EffectiveCapacity, year)
    requires ContainerDataOk(p.defaults.laden) && ContainerDataOk(p.defaults.reefer)
    requires ContainerDataOk(p.defaults.empty) && ContainerDataOk(p.defaults.oog)
    ensures ThroughputBox(p, a, year) == ThroughputBox(p, b, year)
  {
  }

  datatype Moves = Moves(sts: real, stack: real, empty: real, tractor: real)

  /** The moves per import/export laden box and per transhipment laden box
      for a stack of the given height, household ratio and dig-out margin. */
  function MovesImportExport(s: StackData): real
  {
    ((2.0 + s.household + (s.height - 1.0) / 2.0) + (2.0 + s.household) * s.digoutMargin) / 2.0
  }

  function MovesTranshipment(s: StackData): real
  {
    0.5 * ((2.0 + s.household) * s.digoutMargin)
  }

  /** The stack moves of a number of laden and reefer boxes: the transhipment
      share is moved at the transhipment rate and the rest at the import/export rate. */
  function StackMoves(p: Params, ladenReefer: real): real
  {
    var s := LadenStackData(p);
    var ts := ladenReefer * p.transhipmentRatio;
    var ie := ladenReefer - ts;
    ie * MovesImportExport(s) + ts * MovesTranshipment(s)
  }

  /** `box_moves`: quay crane moves are the box throughput, tractor moves add the
      non-essential moves, empty moves the household and dig-out factors. */
  function BoxMoves(p: Params, es: seq<Element>, year: int): Moves
    requires LastVolume(es, year).Some?
    requires ContainerDataOk(p.defaults.laden) && ContainerDataOk(p.defaults.reefer)
    requires ContainerDataOk(p.defaults.empty) && ContainerDataOk(p.defaults.oog)
  {
    MovesOf(p, ThroughputBox(p, es, year))
  }

  /** The moves of a year's boxes. */
  function MovesOf(p: Params, b: Boxes): Moves
  {
    var total := BoxTotal(b);
    var e := p.defaults.emptyStack;
    Moves(total, StackMoves(p, b.laden + b.reefer), b.empty * e.household * e.digout,
          total * p.defaults.tractor.nonEssentialMoves)
  }

  /** The stack-move rule is linear in the share moved at each rate: it is a
      weighted mean of the two per-box rates over the laden and reefer boxes. */
  lemma StackMovesSplit(p: Params, n: real)
    ensures StackMoves(p, n) ==
      n * ((1.0 - p.transhipmentRatio) * MovesImportExport(LadenStackData(p))
           + p.transhipmentRatio * MovesTranshipment(LadenStackData(p)))
  {
    var s := LadenStackData(p);
    var a, b, r := MovesImportExport(s), MovesTranshipment(s), p.transhipmentRatio;
    calc {
      StackMoves(p, n);
      (n - n * r) * a + (n * r) * b;
      { assert (n - n * r) * a == n * ((1.0 - r) * a); }
      n * ((1.0 - r) * a) + (n * r) * b;
      { assert (n * r) * b == n * (r * b); }
      n * ((1.0 - r) * a) + n * (r * b);
      n * ((1.0 - r) * a + r * b);
    }
  }

  /** Without an online crane nothing crosses the quay: no boxes and no moves. */
  lemma NoCraneNoMoves(p: Params, es: seq<Element>, year: int)
    requires LastVolume(es, year).Some?
    requires ContainerDataOk(p.defaults.laden) && ContainerDataOk(p.defaults.reefer)
    requires ContainerDataOk(p.defaults.empty) && ContainerDataOk(p.defaults.oog)
    requires TeuTotal(ThroughputCharacteristics(p, es, year)) >= 0.0
    requires Online(es, Crane, EffectiveCapacity, year) == 0.0
    ensures ThroughputBox(p, es, year) == Boxes(0.0, 0.0, 0.0, 0.0)
    ensures BoxMoves(p, es, year) == Moves(0.0, 0.0, 0.0, 0.0)
  {
    assert QuayCapacityOnline(p, es, year) == 0.0;
    assert CalculateThroughput(p, es, year).online == 0.0;
    NoThroughputNoBoxes(p, es, year);
    NoBoxesNoMoves(p, es, year);
  }

  lemma NoThroughputNoBoxes(p: Params, es: seq<Element>, year: int)
    requires LastVolume(es, year).Some?
    requires ContainerDataOk(p.defaults.laden) && ContainerDataOk(p.defaults.reefer)
    requires ContainerDataOk(p.defaults.empty) && ContainerDataOk(p.defaults.oog)
    requires CalculateThroughput(p, es, year).online == 0.0
    ensures ThroughputBox(p, es, year) == Boxes(0.0, 0.0, 0.0, 0.0)
  {
    ZeroBoxes(p);
  }

  lemma ZeroBoxes(p: Params)
    requires ContainerDataOk(p.defaults.laden) && ContainerDataOk(p.defaults.reefer)
    requires ContainerDataOk(p.defaults.empty) && ContainerDataOk(p.defaults.oog)
    ensures ToBoxes(p, SplitTeu(p, 0.0)) == Boxes(0.0, 0.0, 0.0, 0.0)
  {
    assert SplitTeu(p, 0.0) == Teu(0.0, 0.0, 0.0, 0.0);
  }

  lemma NoBoxesNoMoves(p: Params, es: seq<Element>, year: int)
    requires LastVolume(es, year).Some?
    requires ContainerDataOk(p.defaults.laden) && ContainerDataOk(p.defaults.reefer)
    requires ContainerDataOk(p.defaults.empty) && ContainerDataOk(p.defaults.oog)
    requires ThroughputBox(p, es, year) == Boxes(0.0, 0.0, 0.0, 0.0)
    ensures BoxMoves(p, es, year) == Moves(0.0, 0.0, 0.0, 0.0)
  {
    NoMovesOfNoBoxes(p);
  }

  lemma NoMovesOfNoBoxes(p: Params)
    ensures MovesOf(p, Boxes(0.0, 0.0, 0.0, 0.0)) == Moves(0.0, 0.0, 0.0, 0.0)
  {
    assert StackMoves(p, 0.0) == 0.0;
  }

  // ---------------------------------------------------------------------
  // The demand side of a registry

  /** The commodities and vessels of a registry, in order: everything the traffic
      formulas read. */
  function DemandOf(es: seq<Element>): seq<Element>
  {
    if es == [] then [] else DemandOf(Init(es)) + (if Last(es).Asset? then [] else [Last(es)])
  }

  /** Appending assets leaves the demand side alone. */
  lemma {:induction false} AssetsKeepDemand(es: seq<Element>, added: seq<Element>)
    requires forall i :: 0 <= i < |added| ==> added[i].Asset?
    ensures DemandOf(es + added) == DemandOf(es)
  {
    if added != [] {
      var k := |added| - 1;
      assert Init(es + added) == es + added[..k];
      assert Last(es + added) == added[k] && added[k].Asset?;
      DemandStep(es + added);
      assert DemandOf(es + added) == DemandOf(es + added[..k]);
      AssetsKeepDemand(es, added[..k]);
    } else {
      assert es + added == es;
    }
  }

  /** Registries of the same shape have the same demand side. */
  lemma {:induction false} SameShapeDemand(a: seq<Element>, b: seq<Element>)
    requires SameShape(a, b)
    ensures DemandOf(a) == DemandOf(b)
  {
    if a != [] {
      assert SameShape(Init(a), Init(b)) by {
        forall i | 0 <= i < |Init(a)|
          ensures Shape(Init(a)[i]) == Shape(Init(b)[i])
        {
          assert Init(a)[i] == a[i] && Init(b)[i] == b[i];
        }
      }
      SameShapeDemand(Init(a), Init(b));
      assert Shape(Last(a)) == Shape(Last(b));
    }
  }

  lemma DemandStep(es: seq<Element>)
    requires es != []
    ensures Last(es).Asset? ==> DemandOf(es) == DemandOf(Init(es))
    ensures !Last(es).Asset? ==>
      (DemandOf(es) != [] && Init(DemandOf(es)) == DemandOf(Init(es)) && Last(DemandOf(es)) == Last(es))
  {
    if !Last(es).Asset? {
      assert DemandOf(es) == DemandOf(Init(es)) + [Last(es)];
    }
  }

  /** The handling fee `calculate_revenue` applies to the quay throughput: the
      fee of the last commodity, None without a commodity. */
  function LastFee(es: seq<Element>): Option<real>
  {
    if es == [] then None
    else if Last(es).Commodity? then Some(Last(es).handlingFee)
    else LastFee(Init(es))
  }

  lemma {:induction false} DemandLastVolume(es: seq<Element>, year: int)
    ensures LastVolume(es, year) == LastVolume(DemandOf(es), year)
  {
    if es != [] {
      DemandLastVolume(Init(es), year);
      DemandStep(es);
    }
  }

  lemma {:induction false} DemandClassVolumes(es: seq<Element>, year: int)
    ensures ClassVolumes(es, year) == ClassVolumes(DemandOf(es), year)
  {
    if es != [] {
      DemandClassVolumes(Init(es), year);
      DemandStep(es);
    }
  }

  lemma {:induction false} DemandCallSize(es: seq<Element>, t: VesselType)
    ensures CallSize(es, t) == CallSize(DemandOf(es), t)
  {
    if es != [] {
      DemandCallSize(Init(es), t);
      DemandStep(es);
    }
  }

  lemma {:induction false} DemandLastFee(es: seq<Element>)
    ensures LastFee(es) == LastFee(DemandOf(es))
  {
    if es != [] {
      DemandLastFee(Init(es));
      DemandStep(es);
    }
  }

  /** Everything the traffic formulas compute depends on the demand side only. */
  lemma DemandDetermines(a: seq<Element>, b: seq<Element>)
    requires DemandOf(a) == DemandOf(b)
    ensures forall y :: LastVolume(a, y) == LastVolume(b, y) && ClassVolumes(a, y) == ClassVolumes(b, y)
    ensures forall t :: CallSize(a, t) == CallSize(b, t)
    ensures LastFee(a) == LastFee(b)
  {
    forall y
      ensures LastVolume(a, y) == LastVolume(b, y) && ClassVolumes(a, y) == ClassVolumes(b, y)
    {
      DemandLastVolume(a, y);
      DemandLastVolume(b, y);
      DemandClassVolumes(a, y);
      DemandClassVolumes(b, y);
    }
    forall t
      ensures CallSize(a, t) == CallSize(b, t)
    {
      DemandCallSize(a, t);
      DemandCallSize(b, t);
    }
    DemandLastFee(a);
    DemandLastFee(b);
  }

  /** A year with a non-zero total volume has a commodity, so the fee
      `calculate_revenue` uses is bound. */
  lemma {:induction false} VolumeHasFee(es: seq<Element>, year: int)
    requires ClassVolumes(es, year).total != 0.0
    ensures LastFee(es).Some?
  {
    if !Last(es).Commodity? {
      VolumeHasFee(Init(es), year);
    }
  }
}
