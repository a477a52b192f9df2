/** The revenue of a year: the value of the demand at the commodities'
    handling fees, capped by what the online cranes can handle in the
    operational hours, both scaled by a safety factor. */
module Revenue {
  import opened Numbers
  import opened Config
  import opened Registry
  import opened Traffic
  import opened Capacity

  /** The safety margin of `calculate_revenue`: zero for a registry with no quay,
      more than one crane and no tractor, one otherwise. */
  function SafetyFactor(es: seq<Element>): (sf: real)
    ensures sf == 0.0 || sf == 1.0
    ensures sf == 0.0 <==> Count(es, Quay) < 1 && Count(es, Crane) > 1 && Count(es, Tractor) < 1
  {
    if Count(es, Quay) < 1 && Count(es, Crane) > 1 && Count(es, Tractor) < 1 then 0.0 else 1.0
  }

  /** What one commodity adds to the demand value: its volume of the year times
      its own handling fee times the safety factor; nothing without data. */
  function CommodityRevenue(e: Element, year: int, sf: real): real
  {
    if e.Commodity? && VolumeOf(e, year).Some? then VolumeOf(e, year).value * e.handlingFee * sf else 0.0
  }

  /** The demand value: the commodity loop of `calculate_revenue`. */
  function DemandRevenue(es: seq<Element>, year: int, sf: real): real
  {
    if es == [] then 0.0 else DemandRevenue(Init(es), year, sf) + CommodityRevenue(Last(es), year, sf)
  }

  /** What `calculate_revenue` needs: the occupancy calculator is defined and
      the quotient of service rate and volume is defined, which takes a non-zero
      volume unless the service rate is a (possibly zero) numpy float, which it
      is once an online crane has a non-zero effective capacity. */
  predicate RevenueInputs(p: Params, es: seq<Element>, year: int)
  {
    p.operationalHours > 0 && OccupancyDefined(es) && DemandOk(es) &&
    (ClassVolumes(es, year).total != 0.0 || Online(es, Crane, EffectiveCapacity, year) != 0.0)
  }

  /** The online crane occupancy of the year's calls. */
  function CraneOccupancy(p: Params, es: seq<Element>, year: int): Ext
    requires RevenueInputs(p, es, year)
  {
    BerthOccupancy(p, es, VesselCalls(es, year), year).craneOnline
  }

  /** The service rate of the online cranes at crane occupancy o: their
      effective capacity times o. An "inf" occupancy means no crane capacity is
      online; the loop then adds nothing. */
  function ServiceRate(es: seq<Element>, year: int, o: Ext): real
  {
    if o.Inf? then 0.0 else Online(es, Crane, EffectiveCapacity, year) * o.r
  }

  /** The smaller of the demand value and the handling capacity (service rate
      times operational hours times fee), both times the safety factor. */
  function CappedRevenue(demand: real, service: real, hours: real, fee: real, sf: real): (r: real)
    ensures r <= demand * sf && r <= service * hours * fee * sf
    ensures r == demand * sf || r == service * hours * fee * sf
  {
    Min(demand * sf, service * hours * fee * sf)
  }

  /** `calculate_revenue`: the demand value capped by the handling capacity at
      the last commodity's fee; None when there is no commodity, where the
      source appends nothing. */
  function YearRevenue(p: Params, es: seq<Element>, year: int): (r: Option<real>)
    requires RevenueInputs(p, es, year)
    ensures r.Some? <==> LastFee(es).Some?
  {
    var sf := SafetyFactor(es);
    match LastFee(es)
    case None => None
    case Some(fee) =>
      Some(CappedRevenue(DemandRevenue(es, year, sf), ServiceRate(es, year, CraneOccupancy(p, es, year)),
                         p.operationalHours as real, fee, sf))
  }

  /** A year with volume has a commodity, so a revenue is booked. */
  lemma VolumeBooksRevenue(p: Params, es: seq<Element>, year: int)
    requires RevenueInputs(p, es, year) && ClassVolumes(es, year).total != 0.0
    ensures YearRevenue(p, es, year).Some?
  {
    VolumeHasFee(es, year);
  }

  /** At one handling fee f for every commodity the demand value is the total
      volume times f times the safety factor. */
  lemma {:induction false} UniformFeeDemand(es: seq<Element>, year: int, sf: real, f: real)
    requires forall i :: 0 <= i < |es| && es[i].Commodity? ==> es[i].handlingFee == f
    ensures DemandRevenue(es, year, sf) == ClassVolumes(es, year).total * f * sf
    decreases |es|
  {
    if es != [] {
      var front := Init(es);
      InitIndex(es);
      UniformFeeDemand(front, year, sf, f);
      assert Last(es) == es[|es| - 1];
      CommodityStep(es, year, sf, f);
    }
  }

  /** The last commodity adds its volume to the total and its volume at fee f
      to the demand value, so the demand value stays the total at fee f. */
  lemma CommodityStep(es: seq<Element>, year: int, sf: real, f: real)
    requires es != [] && DemandRevenue(Init(es), year, sf) == ClassVolumes(Init(es), year).total * f * sf
    requires Last(es).Commodity? ==> Last(es).handlingFee == f
    ensures DemandRevenue(es, year, sf) == ClassVolumes(es, year).total * f * sf
  {
    var e := Last(es);
    if e.Commodity? && VolumeOf(e, year).Some? {
      Distribute3(ClassVolumes(Init(es), year).total, VolumeOf(e, year).value, f, sf);
    }
  }

  lemma Distribute3(a: real, b: real, f: real, s: real)
    ensures a * f * s + b * f * s == (a + b) * f * s
  {
  }

  /** Commodities with non-negative fees and volumes. */
  predicate PricedVolumes(es: seq<Element>)
  {
    forall i :: 0 <= i < |es| && es[i].Commodity? ==>
      es[i].handlingFee >= 0.0 && forall y :: y in es[i].scenario ==> es[i].scenario[y] >= 0.0
  }

  /** At non-negative fees and volumes every commodity adds a non-negative value. */
  lemma {:induction false} DemandRevenueNonNegative(es: seq<Element>, year: int, sf: real)
    requires PricedVolumes(es) && sf >= 0.0
    ensures DemandRevenue(es, year, sf) >= 0.0
  {
    if es != [] {
      InitIndex(es);
      DemandRevenueNonNegative(Init(es), year, sf);
      var e := Last(es);
      if e.Commodity? && VolumeOf(e, year).Some? {
        assert e == es[|es| - 1];
        Triple(VolumeOf(e, year).value, e.handlingFee, sf);
      }
    }
  }

  lemma Triple(a: real, b: real, c: real)
    requires a >= 0.0 && b >= 0.0 && c >= 0.0
    ensures a * b * c >= 0.0
  {
    assert a * b >= 0.0;
  }

  /** With no crane capacity online the cranes handle nothing, so at
      non-negative fees and volumes the revenue is zero. */
  lemma NoCraneNoRevenue(p: Params, es: seq<Element>, year: int)
    requires RevenueInputs(p, es, year) && PricedVolumes(es) && OnlineCount(es, Crane, year) == 0
    ensures YearRevenue(p, es, year).Some? ==> YearRevenue(p, es, year).value == 0.0
  {
    var sf := SafetyFactor(es);
    var o := CraneOccupancy(p, es, year);
    NoneOnline(es, Crane, EffectiveCapacity, year);
    NoServiceRate(es, year, o);
    DemandRevenueNonNegative(es, year, sf);
    if LastFee(es).Some? {
      var d := DemandRevenue(es, year, sf);
      NoCapacityNoRevenue(d, p.operationalHours as real, LastFee(es).value, sf);
    }
  }

  lemma NoServiceRate(es: seq<Element>, year: int, o: Ext)
    requires Online(es, Crane, EffectiveCapacity, year) == 0.0
    ensures ServiceRate(es, year, o) == 0.0
  {
  }

  lemma NoCapacityNoRevenue(demand: real, hours: real, fee: real, sf: real)
    requires demand >= 0.0 && sf >= 0.0
    ensures CappedRevenue(demand, 0.0, hours, fee, sf) == 0.0
  {
    assert demand * sf >= 0.0;
  }

  /** The online cranes never serve more than their effective capacity: the
      crane occupancy is capped at one. */
  lemma ServiceRateAtMostCapacity(p: Params, es: seq<Element>, year: int)
    requires ParamsOk(p) && RevenueInputs(p, es, year) && Online(es, Crane, EffectiveCapacity, year) >= 0.0
    ensures 0.0 <= ServiceRate(es, year, CraneOccupancy(p, es, year)) <= Online(es, Crane, EffectiveCapacity, year)
  {
    CraneOccupancyNonNegative(p, es, year);
    ServiceRateBound(es, year, CraneOccupancy(p, es, year));
  }

  lemma ServiceRateBound(es: seq<Element>, year: int, o: Ext)
    requires o.Fin? ==> 0.0 <= o.r <= 1.0
    requires Online(es, Crane, EffectiveCapacity, year) >= 0.0
    ensures 0.0 <= ServiceRate(es, year, o) <= Online(es, Crane, EffectiveCapacity, year)
  {
    if o.Fin? {
      var online := Online(es, Crane, EffectiveCapacity, year);
      MulLe(o.r, 1.0, online);
      MulLe(0.0, o.r, online);
      assert ServiceRate(es, year, o) == o.r * online;
      assert o.r * online <= 1.0 * online;
      assert 1.0 * online == online;
    }
  }

  /** A finite crane occupancy is a share of the operational hours: between 0 and 1. */
  lemma CraneOccupancyNonNegative(p: Params, es: seq<Element>, year: int)
    requires ParamsOk(p) && RevenueInputs(p, es, year) && Online(es, Crane, EffectiveCapacity, year) >= 0.0
    ensures CraneOccupancy(p, es, year).Fin? ==> 0.0 <= CraneOccupancy(p, es, year).r <= 1.0
  {
    var c := VesselCalls(es, year);
    var o := BerthOccupancy(p, es, c, year);
    if o.craneOnline.Fin? {
      var online := Online(es, Crane, EffectiveCapacity, year);
      assert Count(es, Crane) > 0 && online > 0.0;
      var hs, hm, pm := p.defaults.handysize, p.defaults.handymax, p.defaults.panamax;
      CraneTimeNonNegative(c.handysize, hs, online);
      CraneTimeNonNegative(c.handymax, hm, online);
      CraneTimeNonNegative(c.panamax, pm, online);
    }
  }

  lemma CraneTimeNonNegative(calls: nat, v: VesselData, rate: real)
    requires v.callSize >= 0.0 && rate > 0.0
    ensures CraneTime(calls, v, rate) >= 0.0
  {
    assert v.callSize / rate >= 0.0;
    MulLe(0.0, calls as real, v.callSize / rate);
  }
}
