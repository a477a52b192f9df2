/** The yearly cost calculators: the writers that book energy, general labour
    and fuel into the series of the elements, the demurrage of the vessels
    waiting for a berth, and the revenue of the handled volume. Each is a
    function of the registry; the class in the Terminal module runs them. */
module Costs {
  import opened Numbers
  import opened Config
  import opened Registry
  import opened Traffic
  import opened Capacity
  import opened CashFlow
  import opened Assets

  // ---------------------------------------------------------------------
  // Booking one cost cell per element of a kind

  /** How a writer prices an element of its kind that is online in the year:
      either a share of the year's moves (or reefer slots), split evenly over
      the `online` elements online and weighted by the element's own
      consumption measure and a price, or one flat amount. */
  datatype Rate =
    | Share(m: Measure, price: real, amount: real, online: nat)
    | Flat(v: real)

  /** The cell a writer books for an element of its kind: its priced share when
      it is online in the year, zero before. The online count of a share is
      never zero when an element is online (OnlineCounted); the guard only keeps
      the function total. */
  function Cell(e: Element, year: int, r: Rate): real
    requires e.Asset?
  {
    if year < e.yearOnline then 0.0
    else match r
      case Flat(v) => v
      case Share(m, price, amount, n) => ShareOf(e, m, price, amount, n)
  }

  /** An element's priced share of an amount split over n elements. */
  function ShareOf(e: Element, m: Measure, price: real, amount: real, n: nat): real
  {
    if n == 0 then 0.0 else ValueOf(e, m) * Each(price, amount, n)
  }

  /** The price of one element's part of an amount split n ways. */
  function Each(price: real, amount: real, n: nat): real
    requires n != 0
  {
    price * (amount / n as real)
  }

  /** One element after a writer ran over it: an element of the kind with a
      series gets its cell of column c at index idx set; every other element is
      left as it was. */
  function BookElement(e: Element, k: Kind, c: Column, idx: nat, n: nat, year: int, r: Rate): (b: Element)
    requires HasSeries(e) && IsKind(e, k) ==> SeriesOk(e.series.value, n) && idx < n
    ensures Shape(b) == Shape(e) && HasSeries(b) == HasSeries(e)
    ensures HasSeries(e) && IsKind(e, k) ==> SeriesOk(b.series.value, n)
    ensures !(IsKind(e, k) && HasSeries(e)) ==> b == e
    ensures IsKind(e, k) && HasSeries(e) ==> forall d :: ColumnOf(b.series.value, d) ==
                                                   if d == c then ColumnOf(e.series.value, c)[idx := Cell(e, year, r)]
                                                   else ColumnOf(e.series.value, d)
  {
    if IsKind(e, k) && HasSeries(e) then e.(series := Some(SetCell(e.series.value, c, idx, Cell(e, year, r))))
    else e
  }

  lemma {:induction false} InitSeriesLengths(es: seq<Element>, n: nat)
    requires es != [] && SeriesLengths(es, n)
    ensures SeriesLengths(Init(es), n)
  {
    InitIndex(es);
  }

  /** A writer's pass over the registry: every element booked by BookElement at
      the index of `year` in the lifecycle starting in `start`. */
  function Booked(es: seq<Element>, k: Kind, c: Column, year: int, start: int, n: nat, r: Rate): (b: seq<Element>)
    requires SeriesLengths(es, n) && InYears(year, start, n)
    ensures |b| == |es| && SeriesLengths(b, n)
  {
    if es == [] then []
    else
      InitSeriesLengths(es, n);
      Booked(Init(es), k, c, year, start, n, r) + [BookElement(Last(es), k, c, year - start, n, year, r)]
  }

  /** The last element of a pass is booked after the pass over the others. */
  lemma {:induction false} BookedSplit(es: seq<Element>, k: Kind, c: Column, year: int, start: int, n: nat, r: Rate)
    requires es != [] && SeriesLengths(es, n) && InYears(year, start, n)
    ensures SeriesLengths(Init(es), n)
    ensures var b := Booked(es, k, c, year, start, n, r);
      Init(b) == Booked(Init(es), k, c, year, start, n, r) && Last(b) == BookElement(Last(es), k, c, year - start, n, year, r)
  {
    InitSeriesLengths(es, n);
  }

  /** A pass books every element by BookElement. */
  lemma {:induction false} BookedAt(es: seq<Element>, k: Kind, c: Column, year: int, start: int, n: nat, r: Rate, i: int)
    requires SeriesLengths(es, n) && InYears(year, start, n) && 0 <= i < |es|
    ensures Booked(es, k, c, year, start, n, r)[i] == BookElement(es[i], k, c, year - start, n, year, r)
  {
    BookedSplit(es, k, c, year, start, n, r);
    if i < |es| - 1 {
      BookedAt(Init(es), k, c, year, start, n, r, i);
      assert Init(es)[i] == es[i];
      assert Booked(es, k, c, year, start, n, r)[i] == Init(Booked(es, k, c, year, start, n, r))[i];
    }
  }

  /** A writer changes only cost cells: the registry keeps its shape. */
  lemma {:induction false} BookedShape(es: seq<Element>, k: Kind, c: Column, year: int, start: int, n: nat, r: Rate)
    requires SeriesLengths(es, n) && InYears(year, start, n)
    ensures SameShape(es, Booked(es, k, c, year, start, n, r))
  {
    BookedFrame(es, k, c, year, start, n, r);
    CellFrameShape(es, Booked(es, k, c, year, start, n, r), c, year - start);
  }

  /** An element online in `year` is counted by the online count. */
  lemma {:induction false} OnlineCounted(es: seq<Element>, k: Kind, year: int, i: int)
    requires 0 <= i < |es| && IsOnline(es[i], k, year)
    ensures OnlineCount(es, k, year) >= 1
  {
    if i < |es| - 1 {
      assert Init(es)[i] == es[i];
      OnlineCounted(Init(es), k, year, i);
    }
  }

  /** The year's cells of column c over the elements of kind k that have a series. */
  function KindCells(es: seq<Element>, k: Kind, c: Column, idx: nat): real
  {
    if es == [] then 0.0
    else KindCells(Init(es), k, c, idx) + CellOf(Last(es), k, c, idx)
  }

  /** The cell `idx` of column c of an element of kind k, zero for any other element. */
  function CellOf(e: Element, k: Kind, c: Column, idx: nat): real
  {
    if IsKind(e, k) && HasSeries(e) && idx < |ColumnOf(e.series.value, c)| then ColumnOf(e.series.value, c)[idx] else 0.0
  }

  /** What a pass books in total over the elements of its kind: a flat amount
      once per online element; a share weighted by the online total of the
      measure. */
  function BookedTotal(es: seq<Element>, k: Kind, year: int, r: Rate): real
  {
    match r
    case Flat(v) => FlatTotal(es, k, year, v)
    case Share(m, price, amount, n) => ShareTotal(es, k, year, m, price, amount, n)
  }

  function FlatTotal(es: seq<Element>, k: Kind, year: int, v: real): real
  {
    PerElement(OnlineCount(es, k, year), v)
  }

  /** One flat amount for each of c elements. */
  function PerElement(c: nat, v: real): real
  {
    c as real * v
  }

  function ShareTotal(es: seq<Element>, k: Kind, year: int, m: Measure, price: real, amount: real, n: nat): real
  {
    Spread(Online(es, k, m, year), price, amount, n)
  }

  /** A measure total priced at one element's part of an amount split n ways. */
  function Spread(total: real, price: real, amount: real, n: nat): real
  {
    if n == 0 then 0.0 else total * Each(price, amount, n)
  }

  predicate AllBooked(es: seq<Element>, k: Kind)
  {
    forall i :: 0 <= i < |es| && IsKind(es[i], k) ==> HasSeries(es[i])
  }

  lemma ShareSplit(total: real, s: real, x: real, u: real, last: real)
    requires total == s + x && last == x * u
    ensures total * u == s * u + last
  {
  }

  lemma {:induction false} FlatTotalStep(es: seq<Element>, k: Kind, year: int, v: real)
    requires es != []
    ensures FlatTotal(es, k, year, v) == FlatTotal(Init(es), k, year, v) + (if IsOnline(Last(es), k, year) then v else 0.0)
  {
    var c := OnlineCount(Init(es), k, year);
    assert OnlineCount(es, k, year) == c + (if IsOnline(Last(es), k, year) then 1 else 0);
    SuccTimes(c, v);
  }

  lemma SuccTimes(c: nat, v: real)
    ensures (c + 1) as real * v == c as real * v + v
  {
  }

  lemma {:induction false} ShareTotalStep(es: seq<Element>, k: Kind, year: int, m: Measure, price: real, amount: real, n: nat)
    requires es != []
    ensures ShareTotal(es, k, year, m, price, amount, n) == ShareTotal(Init(es), k, year, m, price, amount, n) +
      (if IsOnline(Last(es), k, year) then ShareOf(Last(es), m, price, amount, n) else 0.0)
  {
    SpreadStep(Online(Init(es), k, m, year), ValueOf(Last(es), m), IsOnline(Last(es), k, year), price, amount, n);
  }

  /** Spreading one more value adds that value's share. */
  lemma SpreadStep(s: real, v: real, on: bool, price: real, amount: real, n: nat)
    ensures Spread(s + (if on then v else 0.0), price, amount, n) ==
      Spread(s, price, amount, n) + (if on then (if n == 0 then 0.0 else v * Each(price, amount, n)) else 0.0)
  {
    if n != 0 && on {
      ShareSplit(s + v, s, v, Each(price, amount, n), v * Each(price, amount, n));
    }
  }

  /** A pass's total grows by the cell of each element of its kind. */
  lemma {:induction false} BookedTotalStep(es: seq<Element>, k: Kind, year: int, r: Rate)
    requires es != []
    ensures BookedTotal(es, k, year, r) ==
      BookedTotal(Init(es), k, year, r) + (if IsKind(Last(es), k) then Cell(Last(es), year, r) else 0.0)
  {
    match r
    case Flat(v) =>
      FlatTotalStep(es, k, year, v);
    case Share(m, price, amount, n) =>
      ShareTotalStep(es, k, year, m, price, amount, n);
  }

  /** The cell a pass leaves in an element: the priced cell for an element of
      its kind, zero for any other. */
  function BookedCell(e: Element, k: Kind, year: int, r: Rate): real
  {
    if IsKind(e, k) then Cell(e, year, r) else 0.0
  }

  /** Registries whose year's cells of kind k are the booked cells of es add up
      to the pass's total. */
  lemma {:induction false} CellsTotal(es: seq<Element>, b: seq<Element>, k: Kind, c: Column, idx: nat, year: int, r: Rate)
    requires |b| == |es|
    requires forall i :: 0 <= i < |es| ==> CellOf(b[i], k, c, idx) == BookedCell(es[i], k, year, r)
    ensures KindCells(b, k, c, idx) == BookedTotal(es, k, year, r)
  {
    if es != [] {
      InitIndex(es);
      InitIndex(b);
      CellsTotal(Init(es), Init(b), k, c, idx, year, r);
      assert CellOf(Last(b), k, c, idx) == BookedCell(Last(es), k, year, r);
      BookedTotalStep(es, k, year, r);
    }
  }

  /** A pass books the cell of each element of its kind that has a series. */
  lemma {:induction false} BookedCellAt(es: seq<Element>, k: Kind, c: Column, year: int, start: int, n: nat, r: Rate, i: int)
    requires SeriesLengths(es, n) && InYears(year, start, n) && AllBooked(es, k) && 0 <= i < |es|
    ensures CellOf(Booked(es, k, c, year, start, n, r)[i], k, c, year - start) == BookedCell(es[i], k, year, r)
  {
    BookedAt(es, k, c, year, start, n, r, i);
  }

  /** The cells a pass books over the elements of its kind add up to its total. */
  lemma {:induction false} BookedCellsTotal(es: seq<Element>, k: Kind, c: Column, year: int, start: int, n: nat, r: Rate)
    requires SeriesLengths(es, n) && InYears(year, start, n) && AllBooked(es, k)
    ensures KindCells(Booked(es, k, c, year, start, n, r), k, c, year - start) == BookedTotal(es, k, year, r)
  {
    var b := Booked(es, k, c, year, start, n, r);
    forall i | 0 <= i < |es|
      ensures CellOf(b[i], k, c, year - start) == BookedCell(es[i], k, year, r)
    {
      BookedCellAt(es, k, c, year, start, n, r, i);
    }
    CellsTotal(es, b, k, c, year - start, year, r);
  }

  /** An even split loses nothing: when every element of the kind has the same
      consumption v and the share is split over all online elements, the
      shares add up to v times the price times the whole amount. */
  lemma {:induction false} SharesAddUp(es: seq<Element>, k: Kind, m: Measure, v: real, year: int, price: real, amount: real)
    requires Uniform(es, k, m, v) && OnlineCount(es, k, year) > 0
    ensures ShareTotal(es, k, year, m, price, amount, OnlineCount(es, k, year)) == v * price * amount
  {
    OnlineUniform(es, k, m, v, year);
    EvenSpread(Online(es, k, m, year), OnlineCount(es, k, year), v, price, amount);
  }

  lemma EvenSpread(total: real, n: nat, v: real, price: real, amount: real)
    requires n > 0 && total == n as real * v
    ensures Spread(total, price, amount, n) == v * price * amount
  {
    EvenSplit(n as real, v, price, amount);
  }

  lemma EvenSplit(n: real, v: real, price: real, amount: real)
    requires n != 0.0
    ensures (n * v) * (price * (amount / n)) == v * price * amount
  {
    assert n * (amount / n) == amount;
    calc {
      (n * v) * (price * (amount / n));
      v * price * (n * (amount / n));
    }
  }

  // ---------------------------------------------------------------------
  // What a pass changes

  /** Element b differs from a at most in the cell `idx` of column c of its
      series: same series presence, every other column and every other year of
      column c kept. */
  predicate ElementFrame(a: Element, b: Element, c: Column, idx: nat)
  {
    Shape(a) == Shape(b) && HasSeries(a) == HasSeries(b) &&
    (HasSeries(a) ==>
       (forall d :: d != c ==> ColumnOf(b.series.value, d) == ColumnOf(a.series.value, d)) &&
       |ColumnOf(b.series.value, c)| == |ColumnOf(a.series.value, c)| &&
       forall j :: 0 <= j < |ColumnOf(a.series.value, c)| && j != idx ==>
         ColumnOf(b.series.value, c)[j] == ColumnOf(a.series.value, c)[j])
  }

  /** Registry b differs from a at most in the year's cell of column c. */
  predicate CellFrame(a: seq<Element>, b: seq<Element>, c: Column, idx: nat)
  {
    |a| == |b| && forall i :: 0 <= i < |a| ==> ElementFrame(a[i], b[i], c, idx)
  }

  lemma {:induction false} CellFrameShape(a: seq<Element>, b: seq<Element>, c: Column, idx: nat)
    requires CellFrame(a, b, c, idx)
    ensures SameShape(a, b)
  {
  }

  lemma {:induction false} CellFrameTransitive(a: seq<Element>, b: seq<Element>, x: seq<Element>, c: Column, idx: nat)
    requires CellFrame(a, b, c, idx) && CellFrame(b, x, c, idx)
    ensures CellFrame(a, x, c, idx)
  {
    forall i | 0 <= i < |a|
      ensures ElementFrame(a[i], x[i], c, idx)
    {
      assert ElementFrame(a[i], b[i], c, idx) && ElementFrame(b[i], x[i], c, idx);
    }
  }

  lemma {:induction false} ElementBookedFrame(e: Element, k: Kind, c: Column, idx: nat, n: nat, year: int, r: Rate)
    requires HasSeries(e) && IsKind(e, k) ==> SeriesOk(e.series.value, n) && idx < n
    ensures ElementFrame(e, BookElement(e, k, c, idx, n, year, r), c, idx)
  {
  }

  /** A pass touches only the year's cell of its column. */
  lemma {:induction false} BookedFrame(es: seq<Element>, k: Kind, c: Column, year: int, start: int, n: nat, r: Rate)
    requires SeriesLengths(es, n) && InYears(year, start, n)
    ensures CellFrame(es, Booked(es, k, c, year, start, n, r), c, year - start)
  {
    var b := Booked(es, k, c, year, start, n, r);
    forall i | 0 <= i < |es|
      ensures ElementFrame(es[i], b[i], c, year - start)
    {
      BookedFrameAt(es, k, c, year, start, n, r, i);
    }
  }

  lemma {:induction false} BookedFrameAt(es: seq<Element>, k: Kind, c: Column, year: int, start: int, n: nat, r: Rate,
                                         i: int)
    requires SeriesLengths(es, n) && InYears(year, start, n) && 0 <= i < |es|
    ensures ElementFrame(es[i], Booked(es, k, c, year, start, n, r)[i], c, year - start)
  {
    BookedAt(es, k, c, year, start, n, r, i);
    ElementBookedFrame(es[i], k, c, year - start, n, year, r);
  }

  /** A pass after passes that touched only the year's cells of the same
      column keeps that frame. */
  lemma FrameThenBooked(es: seq<Element>, b: seq<Element>, k: Kind, c: Column, year: int, start: int, n: nat, r: Rate)
    requires SeriesLengths(b, n) && InYears(year, start, n) && CellFrame(es, b, c, year - start)
    ensures CellFrame(es, Booked(b, k, c, year, start, n, r), c, year - start)
  {
    var x := Booked(b, k, c, year, start, n, r);
    forall i | 0 <= i < |es|
      ensures ElementFrame(es[i], x[i], c, year - start)
    {
      ElementThenBooked(es[i], b, k, c, year, start, n, r, i);
    }
  }

  lemma {:induction false} ElementThenBooked(a: Element, b: seq<Element>, k: Kind, c: Column, year: int, start: int,
                                             n: nat, r: Rate, i: int)
    requires SeriesLengths(b, n) && InYears(year, start, n) && 0 <= i < |b| && ElementFrame(a, b[i], c, year - start)
    ensures ElementFrame(a, Booked(b, k, c, year, start, n, r)[i], c, year - start)
  {
    BookedAt(b, k, c, year, start, n, r, i);
    ElementBookedFrame(b[i], k, c, year - start, n, year, r);
  }

  /** Registries with the same cells of kind k have the same cell total. */
  lemma {:induction false} SameCells(a: seq<Element>, b: seq<Element>, k: Kind, c: Column, idx: nat)
    requires |a| == |b| && forall i :: 0 <= i < |a| ==> CellOf(a[i], k, c, idx) == CellOf(b[i], k, c, idx)
    ensures KindCells(a, k, c, idx) == KindCells(b, k, c, idx)
  {
    if a != [] {
      InitIndex(a);
      InitIndex(b);
      SameCells(Init(a), Init(b), k, c, idx);
    }
  }

  /** A pass over another kind leaves the cells of kind k alone. */
  lemma {:induction false} BookedOtherKind(es: seq<Element>, k: Kind, other: Kind, c: Column, year: int, start: int,
                        n: nat, r: Rate, idx: nat)
    requires SeriesLengths(es, n) && InYears(year, start, n) && other != k
    ensures KindCells(Booked(es, other, c, year, start, n, r), k, c, idx) == KindCells(es, k, c, idx)
  {
    var b := Booked(es, other, c, year, start, n, r);
    forall i | 0 <= i < |es|
      ensures CellOf(b[i], k, c, idx) == CellOf(es[i], k, c, idx)
    {
      OtherKindAt(es, k, other, c, year, start, n, r, idx, i);
    }
    SameCells(b, es, k, c, idx);
  }

  lemma {:induction false} OtherKindAt(es: seq<Element>, k: Kind, other: Kind, c: Column, year: int, start: int,
                                       n: nat, r: Rate, idx: nat, i: int)
    requires SeriesLengths(es, n) && InYears(year, start, n) && other != k && 0 <= i < |es|
    ensures CellOf(Booked(es, other, c, year, start, n, r)[i], k, c, idx) == CellOf(es[i], k, c, idx)
  {
    BookedAt(es, other, c, year, start, n, r, i);
    CellOfOtherKind(es[i], k, other, c, year - start, n, year, r, idx);
  }

  /** An optional pass over kind o1 and a pass over kind o2 leave the cells of
      kind k alone. */
  lemma OtherPasses(a: seq<Element>, k: Kind, both: bool, o1: Kind, r1: Rate, o2: Kind, r2: Rate,
                    c: Column, year: int, start: int, n: nat)
    requires SeriesLengths(a, n) && InYears(year, start, n) && o1 != k && o2 != k
    ensures var b := if both then Booked(a, o1, c, year, start, n, r1) else a;
      KindCells(Booked(b, o2, c, year, start, n, r2), k, c, year - start) == KindCells(a, k, c, year - start)
  {
    var b := if both then Booked(a, o1, c, year, start, n, r1) else a;
    BookedOtherKind(a, k, o1, c, year, start, n, r1, year - start);
    BookedOtherKind(b, k, o2, c, year, start, n, r2, year - start);
  }

  lemma CellOfOtherKind(e: Element, k: Kind, other: Kind, c: Column, at: nat, n: nat, year: int, r: Rate, idx: nat)
    requires HasSeries(e) && IsKind(e, other) ==> SeriesOk(e.series.value, n) && at < n
    requires other != k
    ensures CellOf(BookElement(e, other, c, at, n, year, r), k, c, idx) == CellOf(e, k, c, idx)
  {
    if IsKind(e, k) {
      assert !IsKind(e, other);
    }
  }

  // ---------------------------------------------------------------------
  // The three writers

  /** What the writers need: series over the lifecycle and a simulated year. */
  predicate WriterInputs(p: Params, es: seq<Element>, year: int)
  {
    SeriesLengths(es, p.lifecycle) && InYears(year, p.startyear, p.lifecycle)
  }

  /** The land the lighting covers: the online quays, stacks, gates and general services. */
  function LitLand(es: seq<Element>, year: int): real
  {
    Online(es, Quay, LandUse, year) + Online(es, LadenStack, LandUse, year) + Online(es, EmptyStack, LandUse, year) +
    Online(es, OOGStack, LandUse, year) + Online(es, Gate, LandUse, year) + Online(es, GeneralServices, LandUse, year)
  }

  /** The energy of the general services: lighting of the lit land plus the
      general consumption over the operational hours. */
  function GeneralEnergy(p: Params, es: seq<Element>, year: int): real
  {
    LightingAndConsumption(p, LitLand(es, year))
  }

  /** The general energy for `land` lit hectares. */
  function LightingAndConsumption(p: Params, land: real): real
  {
    var g := p.defaults.general;
    land * p.energyPrice * g.lightingConsumption + g.generalConsumption * p.energyPrice * p.operationalHours as real
  }

  /** A registry that only had cells rewritten books every written kind in full. */
  lemma {:induction false} CellFrameAllBooked(a: seq<Element>, b: seq<Element>, c: Column, idx: nat, k: Kind)
    requires CellFrame(a, b, c, idx) && AllBooked(a, k)
    ensures AllBooked(b, k) && SameShape(a, b)
  {
    forall i | 0 <= i < |b| && IsKind(b[i], k)
      ensures HasSeries(b[i])
    {
      assert ElementFrame(a[i], b[i], c, idx);
      assert IsKind(a[i], k) by {
        assert Shape(a[i]).kind == Shape(b[i]).kind;
      }
    }
  }

  /** A pass over a registry b that differs from es only in this column's
      cells of the year books what it would have booked over es. */
  lemma FramedBookedTotal(es: seq<Element>, b: seq<Element>, k: Kind, c: Column, year: int, start: int, n: nat, r: Rate)
    requires SeriesLengths(b, n) && InYears(year, start, n) && CellFrame(es, b, c, year - start) && AllBooked(es, k)
    ensures KindCells(Booked(b, k, c, year, start, n, r), k, c, year - start) == BookedTotal(es, k, year, r)
  {
    CellFrameAllBooked(es, b, c, year - start, k);
    ShapedBookedTotal(es, b, k, c, year, start, n, r);
  }

  lemma ShapedBookedTotal(es: seq<Element>, b: seq<Element>, k: Kind, c: Column, year: int, start: int, n: nat, r: Rate)
    requires SeriesLengths(b, n) && InYears(year, start, n) && SameShape(es, b) && AllBooked(b, k)
    ensures KindCells(Booked(b, k, c, year, start, n, r), k, c, year - start) == BookedTotal(es, k, year, r)
  {
    BookedCellsTotal(b, k, c, year, start, n, r);
    SameShapeBookedTotal(es, b, k, year, r);
  }

  /** Share and flat totals depend only on the registry's shape. */
  lemma {:induction false} SameShapeShares(a: seq<Element>, b: seq<Element>, k: Kind, year: int, m: Measure,
                                           price: real, amount: real, n: nat)
    requires SameShape(a, b)
    ensures ShareTotal(a, k, year, m, price, amount, n) == ShareTotal(b, k, year, m, price, amount, n)
  {
    SameShapeTotals(a, b);
    assert Online(a, k, m, year) == Online(b, k, m, year);
  }

  lemma {:induction false} SameShapeFlat(a: seq<Element>, b: seq<Element>, k: Kind, year: int, v: real)
    requires SameShape(a, b)
    ensures FlatTotal(a, k, year, v) == FlatTotal(b, k, year, v)
  {
    SameShapeTotals(a, b);
    assert OnlineCount(a, k, year) == OnlineCount(b, k, year);
  }

  lemma {:induction false} SameShapeBookedTotal(a: seq<Element>, b: seq<Element>, k: Kind, year: int, r: Rate)
    requires SameShape(a, b)
    ensures BookedTotal(a, k, year, r) == BookedTotal(b, k, year, r)
  {
    match r
    case Flat(v) => SameShapeFlat(a, b, k, year, v);
    case Share(m, price, amount, n) => SameShapeShares(a, b, k, year, m, price, amount, n);
  }

  /** The four passes of the energy writer over a registry, in the order
      `calculate_energy_cost` runs them, for given rates: cranes, stack
      equipment (only when `rmg` holds), laden stacks, general services. */
  function EnergyPasses(es: seq<Element>, year: int, start: int, n: nat, rmg: bool,
                        cranes: Rate, equipment: Rate, reefers: Rate, general: Rate): (b: seq<Element>)
    requires SeriesLengths(es, n) && InYears(year, start, n)
    ensures SeriesLengths(b, n)
  {
    var a := Booked(es, Crane, EnergyCol, year, start, n, cranes);
    var b := if rmg then Booked(a, StackEquipment, EnergyCol, year, start, n, equipment) else a;
    var c := Booked(b, LadenStack, EnergyCol, year, start, n, reefers);
    Booked(c, GeneralServices, EnergyCol, year, start, n, general)
  }

  /** `calculate_energy_cost`: the cranes share the STS moves, rmg stack
      equipment the stack moves, laden stacks the reefer slots (powered around
      the clock for a year), and every online general-services element books the
      general energy; offline elements book zero. The year's box moves `mv`
      and reefer slots come from `box_moves` and `laden_reefer_stack_capacity`. */
  function EnergyBooked(p: Params, es: seq<Element>, year: int, mv: Moves, reeferSlots: real): (b: seq<Element>)
    requires WriterInputs(p, es, year)
    ensures SeriesLengths(b, p.lifecycle)
  {
    EnergyPasses(es, year, p.startyear, p.lifecycle, p.stackEquipment == RMG, CraneEnergy(p, es, year, mv),
                 EquipmentEnergy(p, es, year, mv), ReeferEnergy(p, es, year, reeferSlots), Flat(GeneralEnergy(p, es, year)))
  }

  /** Each online crane's share of the STS moves at its consumption. */
  function CraneEnergy(p: Params, es: seq<Element>, year: int, mv: Moves): Rate
  {
    Share(Consumption, p.energyPrice, mv.sts, OnlineCount(es, Crane, year))
  }

  /** Each online rmg's share of the stack moves at its power consumption. */
  function EquipmentEnergy(p: Params, es: seq<Element>, year: int, mv: Moves): Rate
  {
    Share(PowerConsumption, p.energyPrice, mv.stack, OnlineCount(es, StackEquipment, year))
  }

  /** Each online laden stack's share of the reefer slots, its reefers powered
      for 24 hours on 365 days. */
  function ReeferEnergy(p: Params, es: seq<Element>, year: int, reeferSlots: real): Rate
  {
    Share(ReefersPresent, ReeferPrice(p), reeferSlots, OnlineCount(es, LadenStack, year))
  }

  /** The price of powering one reefer slot for a year: 24 hours on 365 days. */
  function ReeferPrice(p: Params): real
  {
    p.energyPrice * 24.0 * 365.0
  }

  /** The energy passes change only the energy cells of the year. */
  lemma {:induction false} EnergyPassesFrame(es: seq<Element>, year: int, start: int, n: nat, rmg: bool,
                                             cranes: Rate, equipment: Rate, reefers: Rate, general: Rate)
    requires SeriesLengths(es, n) && InYears(year, start, n)
    ensures CellFrame(es, EnergyPasses(es, year, start, n, rmg, cranes, equipment, reefers, general), EnergyCol, year - start)
  {
    var c := EnergyBeforeGeneral(es, year, start, n, rmg, cranes, equipment, reefers, general);
    FrameThenBooked(es, c, GeneralServices, EnergyCol, year, start, n, general);
  }

  /** The energy writer changes only the energy cells of the year. */
  lemma {:induction false} EnergyFrame(p: Params, es: seq<Element>, year: int, mv: Moves, reeferSlots: real)
    requires WriterInputs(p, es, year)
    ensures CellFrame(es, EnergyBooked(p, es, year, mv, reeferSlots), EnergyCol, year - p.startyear)
  {
    EnergyPassesFrame(es, year, p.startyear, p.lifecycle, p.stackEquipment == RMG, CraneEnergy(p, es, year, mv),
                      EquipmentEnergy(p, es, year, mv), ReeferEnergy(p, es, year, reeferSlots), Flat(GeneralEnergy(p, es, year)));
  }

  /** After the energy passes the cranes' energy cells are those of the crane
      pass: the later passes book other kinds. */
  lemma {:induction false} EnergyPassesCranes(es: seq<Element>, year: int, start: int, n: nat, rmg: bool,
                                              cranes: Rate, equipment: Rate, reefers: Rate, general: Rate)
    requires SeriesLengths(es, n) && InYears(year, start, n) && AllBooked(es, Crane)
    ensures KindCells(EnergyPasses(es, year, start, n, rmg, cranes, equipment, reefers, general), Crane, EnergyCol, year - start) ==
            BookedTotal(es, Crane, year, cranes)
  {
    var a := Booked(es, Crane, EnergyCol, year, start, n, cranes);
    BookedCellsTotal(es, Crane, EnergyCol, year, start, n, cranes);
    CraneOtherPasses(a, rmg, equipment, reefers, general, year, start, n);
  }

  /** The energy passes after the crane pass book other kinds. */
  lemma CraneOtherPasses(a: seq<Element>, rmg: bool, equipment: Rate, reefers: Rate, general: Rate,
                         year: int, start: int, n: nat)
    requires SeriesLengths(a, n) && InYears(year, start, n)
    ensures var b := if rmg then Booked(a, StackEquipment, EnergyCol, year, start, n, equipment) else a;
      var c := Booked(b, LadenStack, EnergyCol, year, start, n, reefers);
      KindCells(Booked(c, GeneralServices, EnergyCol, year, start, n, general), Crane, EnergyCol, year - start) ==
      KindCells(a, Crane, EnergyCol, year - start)
  {
    var b := if rmg then Booked(a, StackEquipment, EnergyCol, year, start, n, equipment) else a;
    OtherPasses(a, Crane, rmg, StackEquipment, equipment, LadenStack, reefers, EnergyCol, year, start, n);
    var c := Booked(b, LadenStack, EnergyCol, year, start, n, reefers);
    BookedOtherKind(c, Crane, GeneralServices, EnergyCol, year, start, n, general, year - start);
  }

  /** After the energy passes the general-services energy cells add up to one
      flat amount g per online general-services element of the original registry. */
  lemma {:induction false} EnergyPassesGeneral(es: seq<Element>, year: int, start: int, n: nat, rmg: bool,
                                               cranes: Rate, equipment: Rate, reefers: Rate, g: real)
    requires SeriesLengths(es, n) && InYears(year, start, n) && AllBooked(es, GeneralServices)
    ensures KindCells(EnergyPasses(es, year, start, n, rmg, cranes, equipment, reefers, Flat(g)), GeneralServices, EnergyCol,
                      year - start) == FlatTotal(es, GeneralServices, year, g)
  {
    var c := EnergyBeforeGeneral(es, year, start, n, rmg, cranes, equipment, reefers, Flat(g));
    FramedBookedTotal(es, c, GeneralServices, EnergyCol, year, start, n, Flat(g));
  }

  /** The registry the general-services energy pass runs over: the original
      one with only energy cells of the year rewritten. */
  lemma {:induction false} EnergyBeforeGeneral(es: seq<Element>, year: int, start: int, n: nat, rmg: bool,
                                               cranes: Rate, equipment: Rate, reefers: Rate, general: Rate)
    returns (c: seq<Element>)
    requires SeriesLengths(es, n) && InYears(year, start, n)
    ensures SeriesLengths(c, n) && CellFrame(es, c, EnergyCol, year - start)
    ensures EnergyPasses(es, year, start, n, rmg, cranes, equipment, reefers, general) ==
            Booked(c, GeneralServices, EnergyCol, year, start, n, general)
  {
    var b := BookedPairFrame(es, Crane, cranes, rmg, StackEquipment, equipment, EnergyCol, year, start, n);
    c := Booked(b, LadenStack, EnergyCol, year, start, n, reefers);
    FrameThenBooked(es, b, LadenStack, EnergyCol, year, start, n, reefers);
  }

  /** Energy conservation over the passes: with every crane of consumption v
      and the STS moves split over all online cranes, the cranes' cells add up
      to v times the price times the moves. */
  lemma {:induction false} EnergyPassesCraneTotal(es: seq<Element>, year: int, start: int, n: nat, rmg: bool, v: real,
                                                  price: real, sts: real, cranes: Rate, equipment: Rate, reefers: Rate,
                                                  general: Rate)
    requires SeriesLengths(es, n) && InYears(year, start, n) && AllBooked(es, Crane)
    requires forall i :: 0 <= i < |es| && IsKind(es[i], Crane) ==> ValueOf(es[i], Consumption) == v
    requires OnlineCount(es, Crane, year) > 0 && cranes == Share(Consumption, price, sts, OnlineCount(es, Crane, year))
    ensures KindCells(EnergyPasses(es, year, start, n, rmg, cranes, equipment, reefers, general), Crane, EnergyCol,
                      year - start) == v * price * sts
  {
    EnergyPassesCranes(es, year, start, n, rmg, cranes, equipment, reefers, general);
    SharesAddUp(es, Crane, Consumption, v, year, price, sts);
  }

  /** Fuel conservation over the passes for the empty handlers. */
  lemma {:induction false} FuelPassesHandlerTotal(es: seq<Element>, year: int, start: int, n: nat, fueled: bool, v: real,
                                                  price: real, amount: real, handlers: Rate, equipment: Rate, tractors: Rate)
    requires SeriesLengths(es, n) && InYears(year, start, n) && AllBooked(es, EmptyHandler)
    requires forall i :: 0 <= i < |es| && IsKind(es[i], EmptyHandler) ==> ValueOf(es[i], FuelConsumption) == v
    requires OnlineCount(es, EmptyHandler, year) > 0
    requires handlers == Share(FuelConsumption, price, amount, OnlineCount(es, EmptyHandler, year))
    ensures KindCells(FuelPasses(es, year, start, n, fueled, handlers, equipment, tractors), EmptyHandler, FuelCol,
                      year - start) == v * price * amount
  {
    FuelPassesHandlers(es, year, start, n, fueled, handlers, equipment, tractors);
    SharesAddUp(es, EmptyHandler, FuelConsumption, v, year, price, amount);
  }

  /** Fuel conservation over the passes for the tractors. */
  lemma {:induction false} FuelPassesTractorTotal(es: seq<Element>, year: int, start: int, n: nat, fueled: bool, v: real,
                                                  price: real, amount: real, handlers: Rate, equipment: Rate, tractors: Rate)
    requires SeriesLengths(es, n) && InYears(year, start, n) && AllBooked(es, Tractor)
    requires forall i :: 0 <= i < |es| && IsKind(es[i], Tractor) ==> ValueOf(es[i], FuelConsumption) == v
    requires OnlineCount(es, Tractor, year) > 0
    requires tractors == Share(FuelConsumption, price, amount, OnlineCount(es, Tractor, year))
    ensures KindCells(FuelPasses(es, year, start, n, fueled, handlers, equipment, tractors), Tractor, FuelCol,
                      year - start) == v * price * amount
  {
    FuelPassesTractors(es, year, start, n, fueled, handlers, equipment, tractors);
    SharesAddUp(es, Tractor, FuelConsumption, v, year, price, amount);
  }

  /** The general labour of a year: the crew the year's TEU require, staffed
      with the fixed white-collar posts and the shift posts (operations white
      collar, engineering and security blue collar) over the daily shifts. */
  function GeneralLabour(p: Params, teu: real): real
    requires p.defaults.general.crewRequired != 0.0
  {
    var g, l := p.defaults.general, p.defaults.labour;
    var crew := Ceil(teu / g.crewRequired) as real;
    var fixed := crew * (g.ceo + g.secretary + g.administration + g.hr + g.commercial) * l.whiteCollarSalary;
    var shift := crew * l.dailyShifts * g.operations * l.whiteCollarSalary +
                 crew * l.dailyShifts * (g.engineering + g.security) * l.blueCollarSalary;
    fixed + shift
  }

  /** `calculate_general_labour_cost`: in a year with an online crane every
      online general-services element books the general labour and every
      offline one zero; in a year without, nothing is booked. `teu` is the
      year's total TEU from `throughput_characteristics`. */
  function LabourBooked(p: Params, es: seq<Element>, year: int, teu: real): (b: seq<Element>)
    requires WriterInputs(p, es, year) && p.defaults.general.crewRequired != 0.0
    ensures SeriesLengths(b, p.lifecycle)
  {
    if OnlineCount(es, Crane, year) == 0 then es
    else Booked(es, GeneralServices, LabourCol, year, p.startyear, p.lifecycle, Flat(GeneralLabour(p, teu)))
  }

  /** The general-labour writer changes only the labour cells of the year. */
  lemma {:induction false} LabourFrame(p: Params, es: seq<Element>, year: int, teu: real)
    requires WriterInputs(p, es, year) && p.defaults.general.crewRequired != 0.0
    ensures CellFrame(es, LabourBooked(p, es, year, teu), LabourCol, year - p.startyear)
  {
    if OnlineCount(es, Crane, year) != 0 {
      BookedFrame(es, GeneralServices, LabourCol, year, p.startyear, p.lifecycle, Flat(GeneralLabour(p, teu)));
    } else {
      assert forall i :: 0 <= i < |es| ==> ElementFrame(es[i], es[i], LabourCol, year - p.startyear);
    }
  }

  /** The passes of the fuel writer for given rates: empty handlers, stack
      equipment (only when `fueled` holds), tractors. */
  function FuelPasses(es: seq<Element>, year: int, start: int, n: nat, fueled: bool,
                      handlers: Rate, equipment: Rate, tractors: Rate): (b: seq<Element>)
    requires SeriesLengths(es, n) && InYears(year, start, n)
    ensures SeriesLengths(b, n)
  {
    var a := Booked(es, EmptyHandler, FuelCol, year, start, n, handlers);
    var b := if fueled then Booked(a, StackEquipment, FuelCol, year, start, n, equipment) else a;
    Booked(b, Tractor, FuelCol, year, start, n, tractors)
  }

  /** `calculate_fuel_cost`: the empty handlers share the empty moves; stack
      equipment other than rmg (rtg, rs, sc) shares the stack moves; the
      tractors share the tractor moves; each at its own fuel consumption and
      the fuel price. Offline elements book zero. `mv` are the year's box moves. */
  function FuelBooked(p: Params, es: seq<Element>, year: int, mv: Moves): (b: seq<Element>)
    requires WriterInputs(p, es, year)
    ensures SeriesLengths(b, p.lifecycle)
  {
    FuelPasses(es, year, p.startyear, p.lifecycle, p.stackEquipment != RMG,
               HandlerFuel(p, es, year, mv), EquipmentFuel(p, es, year, mv), TractorFuel(p, es, year, mv))
  }

  function HandlerFuel(p: Params, es: seq<Element>, year: int, mv: Moves): Rate
  {
    Share(FuelConsumption, p.fuelPrice, mv.empty, OnlineCount(es, EmptyHandler, year))
  }

  function EquipmentFuel(p: Params, es: seq<Element>, year: int, mv: Moves): Rate
  {
    Share(FuelConsumption, p.fuelPrice, mv.stack, OnlineCount(es, StackEquipment, year))
  }

  function TractorFuel(p: Params, es: seq<Element>, year: int, mv: Moves): Rate
  {
    Share(FuelConsumption, p.fuelPrice, mv.tractor, OnlineCount(es, Tractor, year))
  }

  /** The fuel passes change only the fuel cells of the year. */
  lemma {:induction false} FuelPassesFrame(es: seq<Element>, year: int, start: int, n: nat, fueled: bool,
                                           handlers: Rate, equipment: Rate, tractors: Rate)
    requires SeriesLengths(es, n) && InYears(year, start, n)
    ensures CellFrame(es, FuelPasses(es, year, start, n, fueled, handlers, equipment, tractors), FuelCol, year - start)
  {
    var b := BookedPairFrame(es, EmptyHandler, handlers, fueled, StackEquipment, equipment, FuelCol, year, start, n);
    FrameThenBooked(es, b, Tractor, FuelCol, year, start, n, tractors);
  }

  /** Two passes over one column, the second only when `both` holds, change
      only the cells of that column and year. */
  lemma {:induction false} BookedPairFrame(es: seq<Element>, k1: Kind, r1: Rate, both: bool, k2: Kind, r2: Rate,
                                           c: Column, year: int, start: int, n: nat)
    returns (b: seq<Element>)
    requires SeriesLengths(es, n) && InYears(year, start, n)
    ensures var a := Booked(es, k1, c, year, start, n, r1);
            b == (if both then Booked(a, k2, c, year, start, n, r2) else a)
    ensures SeriesLengths(b, n) && CellFrame(es, b, c, year - start)
  {
    var a := Booked(es, k1, c, year, start, n, r1);
    BookedFrame(es, k1, c, year, start, n, r1);
    b := SecondPassFrame(es, a, both, k2, r2, c, year, start, n);
  }

  /** The optional second pass of BookedPairFrame keeps the frame of the first. */
  lemma SecondPassFrame(es: seq<Element>, a: seq<Element>, both: bool, k: Kind, r: Rate,
                        c: Column, year: int, start: int, n: nat)
    returns (b: seq<Element>)
    requires SeriesLengths(a, n) && InYears(year, start, n) && CellFrame(es, a, c, year - start)
    ensures b == (if both then Booked(a, k, c, year, start, n, r) else a)
    ensures SeriesLengths(b, n) && CellFrame(es, b, c, year - start)
  {
    if both {
      b := Booked(a, k, c, year, start, n, r);
      FrameThenBooked(es, a, k, c, year, start, n, r);
    } else {
      b := a;
    }
  }

  /** The fuel writer changes only the fuel cells of the year. */
  lemma {:induction false} FuelFrame(p: Params, es: seq<Element>, year: int, mv: Moves)
    requires WriterInputs(p, es, year)
    ensures CellFrame(es, FuelBooked(p, es, year, mv), FuelCol, year - p.startyear)
  {
    FuelPassesFrame(es, year, p.startyear, p.lifecycle, p.stackEquipment != RMG,
                    HandlerFuel(p, es, year, mv), EquipmentFuel(p, es, year, mv), TractorFuel(p, es, year, mv));
  }

  /** After the fuel passes the handlers' fuel cells are those of the first pass. */
  lemma {:induction false} FuelPassesHandlers(es: seq<Element>, year: int, start: int, n: nat, fueled: bool,
                                              handlers: Rate, equipment: Rate, tractors: Rate)
    requires SeriesLengths(es, n) && InYears(year, start, n) && AllBooked(es, EmptyHandler)
    ensures KindCells(FuelPasses(es, year, start, n, fueled, handlers, equipment, tractors), EmptyHandler, FuelCol, year - start) ==
            BookedTotal(es, EmptyHandler, year, handlers)
  {
    var a := Booked(es, EmptyHandler, FuelCol, year, start, n, handlers);
    BookedCellsTotal(es, EmptyHandler, FuelCol, year, start, n, handlers);
    OtherPasses(a, EmptyHandler, fueled, StackEquipment, equipment, Tractor, tractors, FuelCol, year, start, n);
  }

  /** After the fuel passes the tractors' fuel cells add up to what the
      tractor pass books over the original registry. */
  lemma {:induction false} FuelPassesTractors(es: seq<Element>, year: int, start: int, n: nat, fueled: bool,
                                              handlers: Rate, equipment: Rate, tractors: Rate)
    requires SeriesLengths(es, n) && InYears(year, start, n) && AllBooked(es, Tractor)
    ensures KindCells(FuelPasses(es, year, start, n, fueled, handlers, equipment, tractors), Tractor, FuelCol, year - start) ==
            BookedTotal(es, Tractor, year, tractors)
  {
    var b := BookedPairFrame(es, EmptyHandler, handlers, fueled, StackEquipment, equipment, FuelCol, year, start, n);
    FramedBookedTotal(es, b, Tractor, FuelCol, year, start, n, tractors);
  }

  // ---------------------------------------------------------------------
  // What the writers book in total

  /** Energy conservation for the cranes: when every crane has consumption v
      and some crane is online, the cranes' energy cells of the year add up to
      v times the energy price times the year's STS moves: the moves are split
      among the online cranes without loss. */
  lemma {:induction false} CraneEnergyTotal(p: Params, es: seq<Element>, year: int, mv: Moves, reeferSlots: real, v: real)
    requires WriterInputs(p, es, year) && AllBooked(es, Crane)
    requires forall i :: 0 <= i < |es| && IsKind(es[i], Crane) ==> ValueOf(es[i], Consumption) == v
    requires OnlineCount(es, Crane, year) > 0
    ensures KindCells(EnergyBooked(p, es, year, mv, reeferSlots), Crane, EnergyCol, year - p.startyear) ==
            v * p.energyPrice * mv.sts
  {
    EnergyPassesCraneTotal(es, year, p.startyear, p.lifecycle, p.stackEquipment == RMG, v, p.energyPrice, mv.sts,
                           CraneEnergy(p, es, year, mv), EquipmentEnergy(p, es, year, mv),
                           ReeferEnergy(p, es, year, reeferSlots), Flat(GeneralEnergy(p, es, year)));
  }

  /** Every online general-services element books the general energy once: the
      general-services energy cells of the year add up to the flat total, the
      online count times the general energy. */
  lemma {:induction false} GeneralEnergyTotal(p: Params, es: seq<Element>, year: int, mv: Moves, reeferSlots: real)
    requires WriterInputs(p, es, year) && AllBooked(es, GeneralServices)
    ensures KindCells(EnergyBooked(p, es, year, mv, reeferSlots), GeneralServices, EnergyCol, year - p.startyear) ==
            FlatTotal(es, GeneralServices, year, GeneralEnergy(p, es, year))
  {
    var g := GeneralEnergy(p, es, year);
    EnergyPassesGeneral(es, year, p.startyear, p.lifecycle, p.stackEquipment == RMG, CraneEnergy(p, es, year, mv),
                        EquipmentEnergy(p, es, year, mv), ReeferEnergy(p, es, year, reeferSlots), g);
  }

  /** General labour: in a year with an online crane the general-services
      labour cells of the year add up to the online count times the general
      labour; in a year without, the labour cells are as they were. */
  lemma {:induction false} GeneralLabourTotal(p: Params, es: seq<Element>, year: int, teu: real)
    requires WriterInputs(p, es, year) && p.defaults.general.crewRequired != 0.0 && AllBooked(es, GeneralServices)
    ensures OnlineCount(es, Crane, year) > 0 ==>
      KindCells(LabourBooked(p, es, year, teu), GeneralServices, LabourCol, year - p.startyear) ==
      OnlineCount(es, GeneralServices, year) as real * GeneralLabour(p, teu)
    ensures OnlineCount(es, Crane, year) == 0 ==> LabourBooked(p, es, year, teu) == es
  {
    if OnlineCount(es, Crane, year) > 0 {
      CraneLabourTotal(p, es, year, teu);
    } else {
      NoCraneNoLabour(p, es, year, teu);
    }
  }

  lemma {:induction false} CraneLabourTotal(p: Params, es: seq<Element>, year: int, teu: real)
    requires WriterInputs(p, es, year) && p.defaults.general.crewRequired != 0.0 && AllBooked(es, GeneralServices)
    requires OnlineCount(es, Crane, year) > 0
    ensures KindCells(LabourBooked(p, es, year, teu), GeneralServices, LabourCol, year - p.startyear) ==
      OnlineCount(es, GeneralServices, year) as real * GeneralLabour(p, teu)
  {
    LabourIsBooked(p, es, year, teu);
    FlatCellsTotal(es, GeneralServices, LabourCol, year, p.startyear, p.lifecycle, GeneralLabour(p, teu));
    PerElementIs(KindCells(LabourBooked(p, es, year, teu), GeneralServices, LabourCol, year - p.startyear),
                 OnlineCount(es, GeneralServices, year), GeneralLabour(p, teu));
  }

  /** A flat pass books v once per online element of its kind. */
  lemma {:induction false} FlatCellsTotal(es: seq<Element>, k: Kind, c: Column, year: int, start: int, n: nat, v: real)
    requires SeriesLengths(es, n) && InYears(year, start, n) && AllBooked(es, k)
    ensures KindCells(Booked(es, k, c, year, start, n, Flat(v)), k, c, year - start) == PerElement(OnlineCount(es, k, year), v)
  {
    BookedCellsTotal(es, k, c, year, start, n, Flat(v));
  }

  lemma PerElementIs(x: real, c: nat, v: real)
    requires x == PerElement(c, v)
    ensures x == c as real * v
  {
  }

  lemma {:induction false} LabourIsBooked(p: Params, es: seq<Element>, year: int, teu: real)
    requires WriterInputs(p, es, year) && p.defaults.general.crewRequired != 0.0 && OnlineCount(es, Crane, year) > 0
    ensures LabourBooked(p, es, year, teu) ==
      Booked(es, GeneralServices, LabourCol, year, p.startyear, p.lifecycle, Flat(GeneralLabour(p, teu)))
  {
  }

  lemma {:induction false} NoCraneNoLabour(p: Params, es: seq<Element>, year: int, teu: real)
    requires WriterInputs(p, es, year) && p.defaults.general.crewRequired != 0.0 && OnlineCount(es, Crane, year) == 0
    ensures LabourBooked(p, es, year, teu) == es
  {
  }

  /** Fuel conservation for the empty handlers: when every handler has fuel
      consumption v and some handler is online, the handlers' fuel cells of the
      year add up to v times the fuel price times the year's empty moves. */
  lemma {:induction false} HandlerFuelTotal(p: Params, es: seq<Element>, year: int, mv: Moves, v: real)
    requires WriterInputs(p, es, year) && AllBooked(es, EmptyHandler)
    requires forall i :: 0 <= i < |es| && IsKind(es[i], EmptyHandler) ==> ValueOf(es[i], FuelConsumption) == v
    requires OnlineCount(es, EmptyHandler, year) > 0
    ensures KindCells(FuelBooked(p, es, year, mv), EmptyHandler, FuelCol, year - p.startyear) == v * p.fuelPrice * mv.empty
  {
    FuelPassesHandlerTotal(es, year, p.startyear, p.lifecycle, p.stackEquipment != RMG, v, p.fuelPrice, mv.empty,
                           HandlerFuel(p, es, year, mv), EquipmentFuel(p, es, year, mv), TractorFuel(p, es, year, mv));
  }

  /** Fuel conservation for the tractors, the last pass of the fuel writer. */
  lemma {:induction false} TractorFuelTotal(p: Params, es: seq<Element>, year: int, mv: Moves, v: real)
    requires WriterInputs(p, es, year) && AllBooked(es, Tractor)
    requires forall i :: 0 <= i < |es| && IsKind(es[i], Tractor) ==> ValueOf(es[i], FuelConsumption) == v
    requires OnlineCount(es, Tractor, year) > 0
    ensures KindCells(FuelBooked(p, es, year, mv), Tractor, FuelCol, year - p.startyear) == v * p.fuelPrice * mv.tractor
  {
    FuelPassesTractorTotal(es, year, p.startyear, p.lifecycle, p.stackEquipment != RMG, v, p.fuelPrice, mv.tractor,
                           HandlerFuel(p, es, year, mv), EquipmentFuel(p, es, year, mv), TractorFuel(p, es, year, mv));
  }

  /** Energy conservation for the laden stacks: when every laden stack has v
      reefers present per slot and some stack is online, the stacks' energy
      cells of the year add up to v times the yearly reefer price times the
      year's reefer slots, whatever the earlier passes booked. */
  lemma {:induction false} ReeferEnergyTotal(p: Params, es: seq<Element>, year: int, mv: Moves, reeferSlots: real, v: real)
    requires WriterInputs(p, es, year) && AllBooked(es, LadenStack)
    requires forall i :: 0 <= i < |es| && IsKind(es[i], LadenStack) ==> ValueOf(es[i], ReefersPresent) == v
    requires OnlineCount(es, LadenStack, year) > 0
    ensures KindCells(EnergyBooked(p, es, year, mv, reeferSlots), LadenStack, EnergyCol, year - p.startyear) ==
            v * ReeferPrice(p) * reeferSlots
  {
    EnergyPassesReeferTotal(es, year, p.startyear, p.lifecycle, p.stackEquipment == RMG, v, ReeferPrice(p), reeferSlots,
                            CraneEnergy(p, es, year, mv), EquipmentEnergy(p, es, year, mv),
                            ReeferEnergy(p, es, year, reeferSlots), Flat(GeneralEnergy(p, es, year)));
  }

  /** Energy conservation over the passes for the laden stacks. */
  lemma {:induction false} EnergyPassesReeferTotal(es: seq<Element>, year: int, start: int, n: nat, rmg: bool, v: real,
                                                   price: real, slots: real, cranes: Rate, equipment: Rate, reefers: Rate,
                                                   general: Rate)
    requires SeriesLengths(es, n) && InYears(year, start, n) && AllBooked(es, LadenStack)
    requires forall i :: 0 <= i < |es| && IsKind(es[i], LadenStack) ==> ValueOf(es[i], ReefersPresent) == v
    requires OnlineCount(es, LadenStack, year) > 0
    requires reefers == Share(ReefersPresent, price, slots, OnlineCount(es, LadenStack, year))
    ensures KindCells(EnergyPasses(es, year, start, n, rmg, cranes, equipment, reefers, general), LadenStack, EnergyCol,
                      year - start) == v * price * slots
  {
    EnergyPassesReefers(es, year, start, n, rmg, cranes, equipment, reefers, general);
    SharesAddUp(es, LadenStack, ReefersPresent, v, year, price, slots);
  }

  /** After the energy passes the laden stacks' energy cells are those of the
      reefer pass over the original registry. */
  lemma {:induction false} EnergyPassesReefers(es: seq<Element>, year: int, start: int, n: nat, rmg: bool,
                                               cranes: Rate, equipment: Rate, reefers: Rate, general: Rate)
    requires SeriesLengths(es, n) && InYears(year, start, n) && AllBooked(es, LadenStack)
    ensures KindCells(EnergyPasses(es, year, start, n, rmg, cranes, equipment, reefers, general), LadenStack, EnergyCol,
                      year - start) == BookedTotal(es, LadenStack, year, reefers)
  {
    var b := BookedPairFrame(es, Crane, cranes, rmg, StackEquipment, equipment, EnergyCol, year, start, n);
    FramedBookedTotal(es, b, LadenStack, EnergyCol, year, start, n, reefers);
    var c := Booked(b, LadenStack, EnergyCol, year, start, n, reefers);
    assert EnergyPasses(es, year, start, n, rmg, cranes, equipment, reefers, general) ==
           Booked(c, GeneralServices, EnergyCol, year, start, n, general);
    BookedOtherKind(c, LadenStack, GeneralServices, EnergyCol, year, start, n, general, year - start);
  }

  /** Stack-equipment energy: with rmg, when every machine has power
      consumption v and some machine is online, the equipment's energy cells of
      the year add up to v times the energy price times the year's stack moves;
      with any other equipment type the energy writer leaves them as they were. */
  lemma {:induction false} EquipmentEnergyTotal(p: Params, es: seq<Element>, year: int, mv: Moves, reeferSlots: real,
                                                v: real)
    requires WriterInputs(p, es, year) && AllBooked(es, StackEquipment)
    requires forall i :: 0 <= i < |es| && IsKind(es[i], StackEquipment) ==> ValueOf(es[i], PowerConsumption) == v
    requires OnlineCount(es, StackEquipment, year) > 0
    ensures p.stackEquipment == RMG ==>
      KindCells(EnergyBooked(p, es, year, mv, reeferSlots), StackEquipment, EnergyCol, year - p.startyear) ==
      v * p.energyPrice * mv.stack
    ensures p.stackEquipment != RMG ==>
      KindCells(EnergyBooked(p, es, year, mv, reeferSlots), StackEquipment, EnergyCol, year - p.startyear) ==
      KindCells(es, StackEquipment, EnergyCol, year - p.startyear)
  {
    EnergyPassesEquipmentTotal(es, year, p.startyear, p.lifecycle, p.stackEquipment == RMG, v, p.energyPrice, mv.stack,
                               CraneEnergy(p, es, year, mv), EquipmentEnergy(p, es, year, mv),
                               ReeferEnergy(p, es, year, reeferSlots), Flat(GeneralEnergy(p, es, year)));
  }

  /** Energy conservation over the passes for rmg stack equipment; without
      rmg the passes leave the equipment's cells alone. */
  lemma {:induction false} EnergyPassesEquipmentTotal(es: seq<Element>, year: int, start: int, n: nat, rmg: bool, v: real,
                                                      price: real, stack: real, cranes: Rate, equipment: Rate,
                                                      reefers: Rate, general: Rate)
    requires SeriesLengths(es, n) && InYears(year, start, n) && AllBooked(es, StackEquipment)
    requires forall i :: 0 <= i < |es| && IsKind(es[i], StackEquipment) ==> ValueOf(es[i], PowerConsumption) == v
    requires OnlineCount(es, StackEquipment, year) > 0
    requires equipment == Share(PowerConsumption, price, stack, OnlineCount(es, StackEquipment, year))
    ensures rmg ==> KindCells(EnergyPasses(es, year, start, n, rmg, cranes, equipment, reefers, general), StackEquipment,
                              EnergyCol, year - start) == v * price * stack
    ensures !rmg ==> KindCells(EnergyPasses(es, year, start, n, rmg, cranes, equipment, reefers, general), StackEquipment,
                               EnergyCol, year - start) == KindCells(es, StackEquipment, EnergyCol, year - start)
  {
    if rmg {
      EnergyPassesEquipment(es, year, start, n, cranes, equipment, reefers, general);
      SharesAddUp(es, StackEquipment, PowerConsumption, v, year, price, stack);
    } else {
      EnergyPassesSkipEquipment(es, year, start, n, cranes, equipment, reefers, general);
    }
  }

  /** With rmg, after the energy passes the equipment's energy cells are those
      of the equipment pass over the original registry. */
  lemma {:induction false} EnergyPassesEquipment(es: seq<Element>, year: int, start: int, n: nat,
                                                 cranes: Rate, equipment: Rate, reefers: Rate, general: Rate)
    requires SeriesLengths(es, n) && InYears(year, start, n) && AllBooked(es, StackEquipment)
    ensures KindCells(EnergyPasses(es, year, start, n, true, cranes, equipment, reefers, general), StackEquipment,
                      EnergyCol, year - start) == BookedTotal(es, StackEquipment, year, equipment)
  {
    var a := Booked(es, Crane, EnergyCol, year, start, n, cranes);
    BookedFrame(es, Crane, EnergyCol, year, start, n, cranes);
    FramedBookedTotal(es, a, StackEquipment, EnergyCol, year, start, n, equipment);
    var b := Booked(a, StackEquipment, EnergyCol, year, start, n, equipment);
    OtherPasses(b, StackEquipment, true, LadenStack, reefers, GeneralServices, general, EnergyCol, year, start, n);
  }

  /** Without rmg no energy pass books stack equipment. */
  lemma {:induction false} EnergyPassesSkipEquipment(es: seq<Element>, year: int, start: int, n: nat,
                                                     cranes: Rate, equipment: Rate, reefers: Rate, general: Rate)
    requires SeriesLengths(es, n) && InYears(year, start, n)
    ensures KindCells(EnergyPasses(es, year, start, n, false, cranes, equipment, reefers, general), StackEquipment,
                      EnergyCol, year - start) == KindCells(es, StackEquipment, EnergyCol, year - start)
  {
    var a := Booked(es, Crane, EnergyCol, year, start, n, cranes);
    BookedOtherKind(es, StackEquipment, Crane, EnergyCol, year, start, n, cranes, year - start);
    OtherPasses(a, StackEquipment, true, LadenStack, reefers, GeneralServices, general, EnergyCol, year, start, n);
  }

  /** Stack-equipment fuel: with rtg, rs or sc, when every machine has fuel
      consumption v and some machine is online, the equipment's fuel cells of
      the year add up to v times the fuel price times the year's stack moves;
      with rmg the fuel writer leaves them as they were. */
  lemma {:induction false} EquipmentFuelTotal(p: Params, es: seq<Element>, year: int, mv: Moves, v: real)
    requires WriterInputs(p, es, year) && AllBooked(es, StackEquipment)
    requires forall i :: 0 <= i < |es| && IsKind(es[i], StackEquipment) ==> ValueOf(es[i], FuelConsumption) == v
    requires OnlineCount(es, StackEquipment, year) > 0
    ensures p.stackEquipment != RMG ==>
      KindCells(FuelBooked(p, es, year, mv), StackEquipment, FuelCol, year - p.startyear) == v * p.fuelPrice * mv.stack
    ensures p.stackEquipment == RMG ==>
      KindCells(FuelBooked(p, es, year, mv), StackEquipment, FuelCol, year - p.startyear) ==
      KindCells(es, StackEquipment, FuelCol, year - p.startyear)
  {
    FuelPassesEquipmentTotal(es, year, p.startyear, p.lifecycle, p.stackEquipment != RMG, v, p.fuelPrice, mv.stack,
                             HandlerFuel(p, es, year, mv), EquipmentFuel(p, es, year, mv), TractorFuel(p, es, year, mv));
  }

  /** Fuel conservation over the passes for stack equipment that burns fuel;
      for rmg the passes leave the equipment's cells alone. */
  lemma {:induction false} FuelPassesEquipmentTotal(es: seq<Element>, year: int, start: int, n: nat, fueled: bool, v: real,
                                                    price: real, stack: real, handlers: Rate, equipment: Rate, tractors: Rate)
    requires SeriesLengths(es, n) && InYears(year, start, n) && AllBooked(es, StackEquipment)
    requires forall i :: 0 <= i < |es| && IsKind(es[i], StackEquipment) ==> ValueOf(es[i], FuelConsumption) == v
    requires OnlineCount(es, StackEquipment, year) > 0
    requires equipment == Share(FuelConsumption, price, stack, OnlineCount(es, StackEquipment, year))
    ensures fueled ==> KindCells(FuelPasses(es, year, start, n, fueled, handlers, equipment, tractors), StackEquipment,
                                 FuelCol, year - start) == v * price * stack
    ensures !fueled ==> KindCells(FuelPasses(es, year, start, n, fueled, handlers, equipment, tractors), StackEquipment,
                                  FuelCol, year - start) == KindCells(es, StackEquipment, FuelCol, year - start)
  {
    if fueled {
      FuelPassesEquipment(es, year, start, n, handlers, equipment, tractors);
      SharesAddUp(es, StackEquipment, FuelConsumption, v, year, price, stack);
    } else {
      FuelPassesSkipEquipment(es, year, start, n, handlers, equipment, tractors);
    }
  }

  /** With rtg, rs or sc, after the fuel passes the equipment's fuel cells are
      those of the equipment pass over the original registry. */
  lemma {:induction false} FuelPassesEquipment(es: seq<Element>, year: int, start: int, n: nat,
                                               handlers: Rate, equipment: Rate, tractors: Rate)
    requires SeriesLengths(es, n) && InYears(year, start, n) && AllBooked(es, StackEquipment)
    ensures KindCells(FuelPasses(es, year, start, n, true, handlers, equipment, tractors), StackEquipment, FuelCol,
                      year - start) == BookedTotal(es, StackEquipment, year, equipment)
  {
    var a := Booked(es, EmptyHandler, FuelCol, year, start, n, handlers);
    BookedFrame(es, EmptyHandler, FuelCol, year, start, n, handlers);
    FramedBookedTotal(es, a, StackEquipment, FuelCol, year, start, n, equipment);
    var b := Booked(a, StackEquipment, FuelCol, year, start, n, equipment);
    BookedOtherKind(b, StackEquipment, Tractor, FuelCol, year, start, n, tractors, year - start);
  }

  /** With rmg no fuel pass books stack equipment. */
  lemma {:induction false} FuelPassesSkipEquipment(es: seq<Element>, year: int, start: int, n: nat,
                                                   handlers: Rate, equipment: Rate, tractors: Rate)
    requires SeriesLengths(es, n) && InYears(year, start, n)
    ensures KindCells(FuelPasses(es, year, start, n, false, handlers, equipment, tractors), StackEquipment, FuelCol,
                      year - start) == KindCells(es, StackEquipment, FuelCol, year - start)
  {
    OtherPasses(es, StackEquipment, true, EmptyHandler, handlers, Tractor, tractors, FuelCol, year, start, n);
  }

  // ---------------------------------------------------------------------
  // Demurrage

  /** What `calculate_demurrage_cost` needs: the occupancy and waiting-time
      calculators are defined, and a year with an online crane has a quay (the
      service rate divides by the quay count). */
  predicate DemurrageInputs(p: Params, es: seq<Element>, year: int)
  {
    p.operationalHours > 0 && OccupancyDefined(es) && DemandOk(es) &&
    (OnlineCount(es, Crane, year) > 0 ==> Count(es, Quay) > 0)
  }

  /** The service rate per quay: the effective capacity of the online cranes
      over the quay count. Without a quay no crane is online and the sum is empty. */
  function ServicePerQuay(es: seq<Element>, year: int): real
  {
    if Count(es, Quay) == 0 then 0.0 else Online(es, Crane, EffectiveCapacity, year) / Count(es, Quay) as real
  }

  /** The demurrage of one vessel class at service rate `rate` and waiting
      factor `factor`: the waiting hours beyond the all-turn time, for every
      call, at the demurrage rate. With an "inf" factor a positive service time
      waits forever; a zero service time gives inf * 0, which is NaN, and
      `max(0, NaN)` is 0. */
  function ClassDemurrage(v: VesselData, calls: nat, factor: Ext, rate: real): Money
    requires rate != 0.0
  {
    var service := v.callSize / rate;
    match factor
    case Fin(f) => Finite(Max(0.0, f * service - v.allTurnTime) * calls as real * v.demurrageRate)
    case Inf => if service > 0.0 then NotFinite else Finite(0.0)
  }

  /** `calculate_demurrage_cost`: the demurrage of the three default vessel
      classes for the year's calls at the waiting factor of the year, or zero
      when the service rate per quay is zero. */
  function DemurrageCost(p: Params, es: seq<Element>, year: int): (d: Money)
    requires DemurrageInputs(p, es, year)
  {
    var rate := ServicePerQuay(es, year);
    if rate == 0.0 then Finite(0.0)
    else
      var f, c := WaitingTime(p, es, year), VesselCalls(es, year);
      AddMoney(AddMoney(ClassDemurrage(p.defaults.handymax, c.handymax, f, rate),
                        ClassDemurrage(p.defaults.handysize, c.handysize, f, rate)),
               ClassDemurrage(p.defaults.panamax, c.panamax, f, rate))
  }

  /** A year without online cranes has no demurrage. */
  lemma NoCraneNoDemurrage(p: Params, es: seq<Element>, year: int)
    requires DemurrageInputs(p, es, year) && OnlineCount(es, Crane, year) == 0
    ensures DemurrageCost(p, es, year) == Finite(0.0)
  {
    NoServicePerQuay(es, year);
  }

  lemma NoServicePerQuay(es: seq<Element>, year: int)
    requires OnlineCount(es, Crane, year) == 0
    ensures ServicePerQuay(es, year) == 0.0
  {
    NoneOnline(es, Crane, EffectiveCapacity, year);
  }

  /** With cranes of one positive effective capacity and vessels that carry
      something, demurrage is not finite exactly when a crane is online and the
      berth count is outside the range of the queueing table (one to seven). */
  lemma {:induction false} DemurrageUnbounded(p: Params, es: seq<Element>, year: int, eff: real)
    requires DemurrageInputs(p, es, year) && eff > 0.0 && Uniform(es, Crane, EffectiveCapacity, eff)
    requires p.defaults.handysize.callSize > 0.0 && p.defaults.handymax.callSize > 0.0 && p.defaults.panamax.callSize > 0.0
    ensures DemurrageCost(p, es, year).NotFinite? <==>
            OnlineCount(es, Crane, year) > 0 && !(1 <= Count(es, Berth) <= 7)
  {
    var n := OnlineCount(es, Crane, year);
    if n == 0 {
      NoCraneNoDemurrage(p, es, year);
    } else {
      UniformOnlinePositive(es, Crane, EffectiveCapacity, eff, year);
      OnlineDemurrage(p, es, year);
    }
  }

  /** With positive crane capacity online and vessels that carry something,
      demurrage is not finite exactly when the berth count is outside the
      queueing table. */
  lemma {:induction false} OnlineDemurrage(p: Params, es: seq<Element>, year: int)
    requires DemurrageInputs(p, es, year) && OnlineCount(es, Crane, year) > 0
    requires Online(es, Crane, EffectiveCapacity, year) > 0.0
    requires p.defaults.handysize.callSize > 0.0 && p.defaults.handymax.callSize > 0.0 && p.defaults.panamax.callSize > 0.0
    ensures DemurrageCost(p, es, year).NotFinite? <==> !(1 <= Count(es, Berth) <= 7)
  {
    var rate := ServicePerQuay(es, year);
    ServicePositive(Online(es, Crane, EffectiveCapacity, year), Count(es, Quay) as real);
    var f := WaitingTime(p, es, year);
    assert f.Inf? <==> !(1 <= Count(es, Berth) <= 7);
    ServicePositive(p.defaults.handymax.callSize, rate);
    ServicePositive(p.defaults.handysize.callSize, rate);
    ServicePositive(p.defaults.panamax.callSize, rate);
  }

  lemma ServicePositive(size: real, rate: real)
    requires size > 0.0 && rate > 0.0
    ensures size / rate > 0.0
  {
  }

  /** At non-negative demurrage rates a finite demurrage is never negative. */
  lemma DemurrageNonNegative(p: Params, es: seq<Element>, year: int)
    requires DemurrageInputs(p, es, year)
    requires p.defaults.handysize.demurrageRate >= 0.0 && p.defaults.handymax.demurrageRate >= 0.0 &&
             p.defaults.panamax.demurrageRate >= 0.0
    ensures DemurrageCost(p, es, year).Finite? ==> DemurrageCost(p, es, year).v >= 0.0
  {
    var rate := ServicePerQuay(es, year);
    if rate != 0.0 {
      var f, c := WaitingTime(p, es, year), VesselCalls(es, year);
      ClassDemurrageNonNegative(p.defaults.handymax, c.handymax, f, rate);
      ClassDemurrageNonNegative(p.defaults.handysize, c.handysize, f, rate);
      ClassDemurrageNonNegative(p.defaults.panamax, c.panamax, f, rate);
    }
  }

  lemma ClassDemurrageNonNegative(v: VesselData, calls: nat, factor: Ext, rate: real)
    requires rate != 0.0 && v.demurrageRate >= 0.0
    ensures ClassDemurrage(v, calls, factor, rate).Finite? ==> ClassDemurrage(v, calls, factor, rate).v >= 0.0
  {
    if factor.Fin? {
      var pen := Max(0.0, factor.r * (v.callSize / rate) - v.allTurnTime);
      ProductNonNegative(pen, calls as real);
      ProductNonNegative(pen * calls as real, v.demurrageRate);
    }
  }

  lemma ProductNonNegative(a: real, b: real)
    requires a >= 0.0 && b >= 0.0
    ensures a * b >= 0.0
  {
  }
}
