/** The asset registry: one append-only sequence holding the demand
    (commodities), the vessel types and every infrastructure element the
    simulation creates, each tagged with its kind. `find_elements` becomes a
    filter on the tag; the registry totals are folds over that filter. */
module Registry {
  import opened Numbers
  import opened Config

  datatype Kind =
    | Berth | Quay | Crane | Tractor | LadenStack | EmptyStack | OOGStack
    | StackEquipment | Gate | EmptyHandler | GeneralServices

  /** The per-element cash-flow table (`element.df`): one entry per year of the
      lifecycle, index i standing for year `startyear + i`. */
  datatype Series = Series(
    capex: seq<real>, maintenance: seq<real>, insurance: seq<real>,
    labour: seq<real>, energy: seq<real>, fuel: seq<real>)

  datatype Element =
    | Commodity(handlingFee: real, scenario: map<int, real>,
                handysizePerc: real, handymaxPerc: real, panamaxPerc: real)
    | Vessel(vesselType: VesselType, callSize: real)
    | Asset(kind: Kind, deliveryTime: int, yearOnline: int,
            capex: real, maintenance: real, insurance: real, labour: real,
            landUse: real, capacity: real, effectiveCapacity: real, maxCranes: int,
            consumption: real, fuelConsumption: real, powerConsumption: real,
            reefersPresent: real, length: real, depth: real,
            series: Option<Series>)

  predicate IsKind(e: Element, k: Kind) {
    e.Asset? && e.kind == k
  }

  /** An asset counts as online in `year` once `year >= year_online`. */
  predicate IsOnline(e: Element, k: Kind, year: int) {
    IsKind(e, k) && year >= e.yearOnline
  }

  /** The additive attributes the calculators and cost writers fold over the registry. */
  datatype Measure =
    | Capacity | EffectiveCapacity | LandUse
    | Consumption | PowerConsumption | FuelConsumption | ReefersPresent

  function ValueOf(e: Element, m: Measure): real
  {
    if !e.Asset? then 0.0
    else match m
      case Capacity => e.capacity
      case EffectiveCapacity => e.effectiveCapacity
      case LandUse => e.landUse
      case Consumption => e.consumption
      case PowerConsumption => e.powerConsumption
      case FuelConsumption => e.fuelConsumption
      case ReefersPresent => e.reefersPresent
  }

  function Last(es: seq<Element>): Element
    requires es != []
  {
    es[|es| - 1]
  }

  function Init(es: seq<Element>): seq<Element>
    requires es != []
  {
    es[..|es| - 1]
  }

  /** The registry without its last element keeps the others at their places. */
  lemma InitIndex(es: seq<Element>)
    requires es != []
    ensures forall i :: 0 <= i < |Init(es)| ==> Init(es)[i] == es[i]
  {
  }

  /** `find_elements(kind)`: the elements of one kind, in registry order. */
  function Find(es: seq<Element>, k: Kind): (r: seq<Element>)
    ensures forall i :: 0 <= i < |r| ==> IsKind(r[i], k)
    ensures |r| <= |es|
  {
    if es == [] then []
    else
      assert es == Init(es) + [Last(es)];
      Find(Init(es), k) + (if IsKind(Last(es), k) then [Last(es)] else [])
  }

  /** `find_elements` misses nothing: an element is found exactly when the
      registry holds it and it is of the requested kind. */
  lemma {:induction false} FindComplete(es: seq<Element>, k: Kind)
    ensures forall e :: e in Find(es, k) <==> e in es && IsKind(e, k)
  {
    if es != [] {
      assert es == Init(es) + [Last(es)];
      FindComplete(Init(es), k);
    }
  }

  /** `len(find_elements(kind))`. */
  function Count(es: seq<Element>, k: Kind): nat
  {
    |Find(es, k)|
  }

  /** The number of elements of a kind online in `year`. */
  function OnlineCount(es: seq<Element>, k: Kind, year: int): nat
  {
    if es == [] then 0
    else OnlineCount(Init(es), k, year) + (if IsOnline(Last(es), k, year) then 1 else 0)
  }

  /** The sum of a measure over all elements of a kind ("planned"). */
  function Planned(es: seq<Element>, k: Kind, m: Measure): real
  {
    if es == [] then 0.0
    else Planned(Init(es), k, m) + (if IsKind(Last(es), k) then ValueOf(Last(es), m) else 0.0)
  }

  /** The sum of a measure over the elements of a kind online in `year`. */
  function Online(es: seq<Element>, k: Kind, m: Measure, year: int): real
  {
    if es == [] then 0.0
    else Online(Init(es), k, m, year) + (if IsOnline(Last(es), k, year) then ValueOf(Last(es), m) else 0.0)
  }

  /** The crane slots the berths offer: the sum of `max_cranes` over berths. */
  function Slots(es: seq<Element>): int
  {
    if es == [] then 0
    else Slots(Init(es)) + (if IsKind(Last(es), Berth) then Last(es).maxCranes else 0)
  }

  /** `max(year_online of every quay)`, None when there is no quay. */
  function LatestQuayYear(es: seq<Element>): (r: Option<int>)
    ensures r.None? <==> Count(es, Quay) == 0
  {
    if es == [] then None
    else
      var rest := LatestQuayYear(Init(es));
      if !IsKind(Last(es), Quay) then rest
      else if rest.Some? && rest.value >= Last(es).yearOnline then rest
      else Some(Last(es).yearOnline)
  }

  /** What appending one element does to every registry total: the element's own
      contribution is added and nothing else changes. */
  lemma AppendOne(es: seq<Element>, e: Element)
    ensures Init(es + [e]) == es && Last(es + [e]) == e
    ensures forall k :: Find(es + [e], k) == Find(es, k) + (if IsKind(e, k) then [e] else [])
    ensures forall k :: Count(es + [e], k) == Count(es, k) + (if IsKind(e, k) then 1 else 0)
    ensures forall k, y :: OnlineCount(es + [e], k, y) == OnlineCount(es, k, y) + (if IsOnline(e, k, y) then 1 else 0)
    ensures forall k, m :: Planned(es + [e], k, m) == Planned(es, k, m) + (if IsKind(e, k) then ValueOf(e, m) else 0.0)
    ensures forall k, m, y :: Online(es + [e], k, m, y) == Online(es, k, m, y) + (if IsOnline(e, k, y) then ValueOf(e, m) else 0.0)
    ensures Slots(es + [e]) == Slots(es) + (if IsKind(e, Berth) then e.maxCranes else 0)
  {
    assert Init(es + [e]) == es;
  }

  /** Online elements are a subset of all elements: the online count never exceeds the count. */
  lemma {:induction false} OnlineAtMostAll(es: seq<Element>, k: Kind, year: int)
    ensures OnlineCount(es, k, year) <= Count(es, k)
  {
    if es != [] {
      OnlineAtMostAll(Init(es), k, year);
    }
  }

  /** Every element of kind k carries the value v of measure m. */
  predicate Uniform(es: seq<Element>, k: Kind, m: Measure, v: real)
  {
    forall i :: 0 <= i < |es| && IsKind(es[i], k) ==> ValueOf(es[i], m) == v
  }

  /** When every element of a kind carries the same value v of a measure, the
      planned total is the count times v. */
  lemma {:induction false} PlannedUniform(es: seq<Element>, k: Kind, m: Measure, v: real)
    requires Uniform(es, k, m, v)
    ensures Planned(es, k, m) == Count(es, k) as real * v
  {
    PlannedTimes(es, k, m, v);
    TimesIsCountProduct(v, Count(es, k));
  }

  lemma {:induction false} PlannedTimes(es: seq<Element>, k: Kind, m: Measure, v: real)
    requires Uniform(es, k, m, v)
    ensures Planned(es, k, m) == Times(v, Count(es, k))
  {
    if es != [] {
      InitIndex(es);
      PlannedTimes(Init(es), k, m, v);
      CountStep(es, k);
    }
  }

  /** The count of a kind grows by one exactly at an element of that kind. */
  lemma CountStep(es: seq<Element>, k: Kind)
    requires es != []
    ensures Count(es, k) == Count(Init(es), k) + (if IsKind(Last(es), k) then 1 else 0)
  {
  }

  /** The online total under the same uniformity: online count times v. */
  /** Elements of one positive value, one of them online, have a positive online sum. */
  lemma {:induction false} UniformOnlinePositive(es: seq<Element>, k: Kind, m: Measure, v: real, year: int)
    requires Uniform(es, k, m, v) && v > 0.0 && OnlineCount(es, k, year) > 0
    ensures Online(es, k, m, year) > 0.0
  {
    OnlineUniform(es, k, m, v, year);
    MulPositive(OnlineCount(es, k, year) as real, v);
  }

  lemma {:induction false} OnlineUniform(es: seq<Element>, k: Kind, m: Measure, v: real, year: int)
    requires Uniform(es, k, m, v)
    ensures Online(es, k, m, year) == OnlineCount(es, k, year) as real * v
  {
    OnlineTimes(es, k, m, v, year);
    TimesIsCountProduct(v, OnlineCount(es, k, year));
  }

  lemma {:induction false} OnlineTimes(es: seq<Element>, k: Kind, m: Measure, v: real, year: int)
    requires Uniform(es, k, m, v)
    ensures Online(es, k, m, year) == Times(v, OnlineCount(es, k, year))
  {
    if es != [] {
      InitIndex(es);
      OnlineTimes(Init(es), k, m, v, year);
    }
  }

  /** Nothing online contributes nothing. */
  lemma {:induction false} NoneOnline(es: seq<Element>, k: Kind, m: Measure, year: int)
    requires OnlineCount(es, k, year) == 0
    ensures Online(es, k, m, year) == 0.0
  {
    if es != [] {
      NoneOnline(Init(es), k, m, year);
    }
  }

  /** With every berth offering c slots, the registry offers berths times c slots. */
  lemma {:induction false} SlotsUniform(es: seq<Element>, c: int)
    requires forall i :: 0 <= i < |es| && IsKind(es[i], Berth) ==> es[i].maxCranes == c
    ensures Slots(es) == Count(es, Berth) * c
  {
    if es != [] {
      InitIndex(es);
      SlotsUniform(Init(es), c);
      CountStep(es, Berth);
      if IsKind(Last(es), Berth) {
        OneMoreInt(Count(Init(es), Berth), c);
      }
    }
  }

  lemma OneMoreInt(n: nat, c: int)
    ensures (n + 1) * c == n * c + c
  {
  }

  /** Every quay came online no later than the latest quay year. */
  lemma {:induction false} LatestQuayYearIsMax(es: seq<Element>, i: int)
    requires 0 <= i < |es| && IsKind(es[i], Quay)
    ensures LatestQuayYear(es).Some? && es[i].yearOnline <= LatestQuayYear(es).value
  {
    if i < |es| - 1 {
      assert Init(es)[i] == es[i];
      LatestQuayYearIsMax(Init(es), i);
    }
  }

  /** An element with its cash-flow table dropped: all the registry totals see. */
  function Shape(e: Element): Element
  {
    if e.Asset? then e.(series := None) else e
  }

  /** Two registries that differ at most in the cash-flow tables of their elements. */
  predicate SameShape(a: seq<Element>, b: seq<Element>)
  {
    |a| == |b| && forall i :: 0 <= i < |a| ==> Shape(a[i]) == Shape(b[i])
  }

  /** Writing cash-flow cells changes no registry total. */
  lemma {:induction false} SameShapeTotals(a: seq<Element>, b: seq<Element>)
    requires SameShape(a, b)
    ensures forall k :: Count(a, k) == Count(b, k)
    ensures forall k, y :: OnlineCount(a, k, y) == OnlineCount(b, k, y)
    ensures forall k, m :: Planned(a, k, m) == Planned(b, k, m)
    ensures forall k, m, y :: Online(a, k, m, y) == Online(b, k, m, y)
    ensures Slots(a) == Slots(b) && LatestQuayYear(a) == LatestQuayYear(b)
  {
    if a != [] {
      SameShapeInit(a, b);
      SameShapeTotals(Init(a), Init(b));
      forall k
        ensures Count(a, k) == Count(b, k)
      {
        CountStep(a, k);
        CountStep(b, k);
      }
    }
  }

  /** Registries of the same shape without their last elements keep it. */
  lemma SameShapeInit(a: seq<Element>, b: seq<Element>)
    requires SameShape(a, b) && a != []
    ensures SameShape(Init(a), Init(b)) && Shape(Last(a)) == Shape(Last(b))
  {
    InitIndex(a);
    InitIndex(b);
  }
}
