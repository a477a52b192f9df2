/** The financial layer: the per-element cash-flow series, the ledger that sums
    them per year, discounting at the real WACC, and the NPV. Index i of every
    column stands for year `startyear + i`. */
module CashFlow {
  import opened Numbers
  import opened Config
  import opened Registry

  function Zeros(n: nat): (z: seq<real>)
    ensures |z| == n && forall i :: 0 <= i < n ==> z[i] == 0.0
  {
    seq(n, i => 0.0)
  }

  function Sum(s: seq<real>): real
  {
    if s == [] then 0.0 else Sum(s[..|s| - 1]) + s[|s| - 1]
  }

  lemma SumAppend(s: seq<real>, x: real)
    ensures Sum(s + [x]) == Sum(s) + x
  {
    assert (s + [x])[..|s|] == s;
  }

  // ---------------------------------------------------------------------
  // The series of one element (`add_cashflow_data_to_element`)

  /** The capex booked in `year`: with a delivery time above one year, 60% two
      years and 40% one year before the element comes online; otherwise all of
      it in the year before. */
  function CapexCell(capex: real, yearOnline: int, delivery: int, year: int): real
  {
    if delivery > 1 then
      if year == yearOnline - 2 then 0.6 * capex
      else if year == yearOnline - 1 then 0.4 * capex
      else 0.0
    else if year == yearOnline - 1 then capex
    else 0.0
  }

  /** An operating cost is booked in every year the element is online. */
  function OpexCell(value: real, yearOnline: int, year: int): real
  {
    if year >= yearOnline then value else 0.0
  }

  /** The capex column over the n years from `start`: cell i holds the capex
      booked in year `start + i`. */
  function CapexColumn(capex: real, yearOnline: int, delivery: int, start: int, n: nat): (s: seq<real>)
    ensures |s| == n
    ensures forall i :: 0 <= i < n ==> s[i] == CapexCell(capex, yearOnline, delivery, start + i)
  {
    if n == 0 then [] else CapexColumn(capex, yearOnline, delivery, start, n - 1) + [CapexCell(capex, yearOnline, delivery, start + n - 1)]
  }

  /** An operating-cost column over the n years from `start`: cell i holds
      the cost booked in year `start + i`. */
  function OpexColumn(value: real, yearOnline: int, start: int, n: nat): (s: seq<real>)
    ensures |s| == n
    ensures forall i :: 0 <= i < n ==> s[i] == OpexCell(value, yearOnline, start + i)
  {
    if n == 0 then [] else OpexColumn(value, yearOnline, start, n - 1) + [OpexCell(value, yearOnline, start + n - 1)]
  }

  /** The series a new element receives: capex and its three operating costs
      booked over the lifecycle; energy and fuel are left to the cost writers. */
  function Schedule(p: Params, capex: real, maintenance: real, insurance: real, labour: real,
                    yearOnline: int, delivery: int): (s: Series)
    ensures SeriesOk(s, p.lifecycle)
    ensures forall i :: 0 <= i < p.lifecycle ==>
      s.capex[i] == CapexCell(capex, yearOnline, delivery, p.startyear + i) &&
      s.maintenance[i] == OpexCell(maintenance, yearOnline, p.startyear + i) &&
      s.insurance[i] == OpexCell(insurance, yearOnline, p.startyear + i) &&
      s.labour[i] == OpexCell(labour, yearOnline, p.startyear + i) &&
      s.energy[i] == 0.0 && s.fuel[i] == 0.0
  {
    var n := p.lifecycle;
    Series(CapexColumn(capex, yearOnline, delivery, p.startyear, n),
           OpexColumn(maintenance, yearOnline, p.startyear, n),
           OpexColumn(insurance, yearOnline, p.startyear, n),
           OpexColumn(labour, yearOnline, p.startyear, n),
           Zeros(n), Zeros(n))
  }

  /** Every column of a series covers the whole lifecycle. */
  predicate SeriesOk(s: Series, n: nat)
  {
    |s.capex| == n && |s.maintenance| == n && |s.insurance| == n &&
    |s.labour| == n && |s.energy| == n && |s.fuel| == n
  }

  predicate InYears(year: int, start: int, n: nat)
  {
    start <= year < start + n
  }

  /** The capex the column books in total: each booking year contributes its
      share when it falls inside the n years, and is dropped otherwise. */
  function BookedCapex(capex: real, yearOnline: int, delivery: int, start: int, n: nat): real
  {
    if delivery > 1 then
      (if InYears(yearOnline - 2, start, n) then 0.6 * capex else 0.0) +
      (if InYears(yearOnline - 1, start, n) then 0.4 * capex else 0.0)
    else if InYears(yearOnline - 1, start, n) then capex
    else 0.0
  }

  /** The capex column sums to the booked capex: nothing is booked twice. */
  lemma {:induction false} CapexColumnTotal(capex: real, yearOnline: int, delivery: int, start: int, n: nat)
    ensures Sum(CapexColumn(capex, yearOnline, delivery, start, n)) == BookedCapex(capex, yearOnline, delivery, start, n)
  {
    if n > 0 {
      var init := CapexColumn(capex, yearOnline, delivery, start, n - 1);
      var last := CapexCell(capex, yearOnline, delivery, start + n - 1);
      CapexColumnTotal(capex, yearOnline, delivery, start, n - 1);
      assert CapexColumn(capex, yearOnline, delivery, start, n) == init + [last];
      SumAppend(init, last);
      BookedCapexStep(capex, yearOnline, delivery, start, n);
    }
  }

  /** One more year adds that year's capex cell to the booked capex. */
  lemma BookedCapexStep(capex: real, yearOnline: int, delivery: int, start: int, n: nat)
    requires n > 0
    ensures BookedCapex(capex, yearOnline, delivery, start, n) ==
      BookedCapex(capex, yearOnline, delivery, start, n - 1) + CapexCell(capex, yearOnline, delivery, start + n - 1)
  {
  }

  /** With every booking year inside the lifecycle the whole capex is booked. */
  lemma CapexColumnComplete(capex: real, yearOnline: int, delivery: int, start: int, n: nat)
    requires (if delivery > 1 then InYears(yearOnline - 2, start, n) else true) && InYears(yearOnline - 1, start, n)
    ensures Sum(CapexColumn(capex, yearOnline, delivery, start, n)) == capex
  {
    CapexColumnTotal(capex, yearOnline, delivery, start, n);
  }

  /** The capex column year by year: with a delivery time above one year 60%
      of the capex two years and 40% one year before the element comes online,
      otherwise all of it in the year before; nothing in any other year, so
      nothing from the online year on. */
  lemma CapexTiming(capex: real, yearOnline: int, delivery: int, start: int, n: nat, i: int)
    requires 0 <= i < n
    ensures var s := CapexColumn(capex, yearOnline, delivery, start, n);
      (delivery > 1 && start + i == yearOnline - 2 ==> s[i] == 0.6 * capex) &&
      (delivery > 1 && start + i == yearOnline - 1 ==> s[i] == 0.4 * capex) &&
      (delivery <= 1 && start + i == yearOnline - 1 ==> s[i] == capex) &&
      (start + i != yearOnline - 1 && (delivery <= 1 || start + i != yearOnline - 2) ==> s[i] == 0.0) &&
      (start + i >= yearOnline ==> s[i] == 0.0)
  {
  }

  /** The number of the n years from `start` in which an element online from
      `yearOnline` is online. */
  function OnlineYears(yearOnline: int, start: int, n: nat): (k: nat)
    ensures k <= n
  {
    if yearOnline <= start then n
    else if yearOnline >= start + n then 0
    else start + n - yearOnline
  }

  lemma OnlineYearsStep(yearOnline: int, start: int, n: nat)
    requires n > 0
    ensures OnlineYears(yearOnline, start, n) ==
      OnlineYears(yearOnline, start, n - 1) + (if start + n - 1 >= yearOnline then 1 else 0)
  {
  }

  /** An operating-cost column books the value once for every online year and
      nothing in the others. */
  lemma {:induction false} OpexColumnTotal(value: real, yearOnline: int, start: int, n: nat)
    ensures Sum(OpexColumn(value, yearOnline, start, n)) == Times(value, OnlineYears(yearOnline, start, n))
  {
    if n > 0 {
      OpexColumnTotal(value, yearOnline, start, n - 1);
      SumAppend(OpexColumn(value, yearOnline, start, n - 1), OpexCell(value, yearOnline, start + n - 1));
      OnlineYearsStep(yearOnline, start, n);
    }
  }

  /** The same total as a product: value times the number of online years. */
  lemma OpexColumnProduct(value: real, yearOnline: int, start: int, n: nat)
    ensures Sum(OpexColumn(value, yearOnline, start, n)) == value * OnlineYears(yearOnline, start, n) as real
  {
    OpexColumnTotal(value, yearOnline, start, n);
    TimesIsProduct(value, OnlineYears(yearOnline, start, n));
  }

  /** An operating-cost column year by year: the value in every year from the
      online year on, zero in every year before it. */
  lemma OpexTiming(value: real, yearOnline: int, start: int, n: nat, i: int)
    requires 0 <= i < n
    ensures var s := OpexColumn(value, yearOnline, start, n);
      (start + i >= yearOnline ==> s[i] == value) && (start + i < yearOnline ==> s[i] == 0.0)
  {
  }

  // ---------------------------------------------------------------------
  // Columns and cells

  datatype Column = CapexCol | MaintenanceCol | InsuranceCol | LabourCol | EnergyCol | FuelCol

  function ColumnOf(s: Series, c: Column): seq<real>
  {
    match c
    case CapexCol => s.capex
    case MaintenanceCol => s.maintenance
    case InsuranceCol => s.insurance
    case LabourCol => s.labour
    case EnergyCol => s.energy
    case FuelCol => s.fuel
  }

  /** One cell of one column set to v, every other cell kept. */
  function SetCell(s: Series, c: Column, i: nat, v: real): (r: Series)
    requires SeriesOk(s, |s.capex|) && i < |s.capex|
    ensures SeriesOk(r, |s.capex|)
    ensures forall d :: ColumnOf(r, d) == if d == c then ColumnOf(s, d)[i := v] else ColumnOf(s, d)
  {
    match c
    case CapexCol => s.(capex := s.capex[i := v])
    case MaintenanceCol => s.(maintenance := s.maintenance[i := v])
    case InsuranceCol => s.(insurance := s.insurance[i := v])
    case LabourCol => s.(labour := s.labour[i := v])
    case EnergyCol => s.(energy := s.energy[i := v])
    case FuelCol => s.(fuel := s.fuel[i := v])
  }

  // ---------------------------------------------------------------------
  // The ledger (`add_cashflow_elements`)

  /** Every series in the registry covers the lifecycle. */
  predicate SeriesLengths(es: seq<Element>, n: nat)
  {
    forall i :: 0 <= i < |es| && es[i].Asset? && es[i].series.Some? ==> SeriesOk(es[i].series.value, n)
  }

  predicate HasSeries(e: Element)
  {
    e.Asset? && e.series.Some?
  }

  function AddSeq(a: seq<real>, b: seq<real>): (r: seq<real>)
    requires |a| == |b|
    ensures |r| == |a| && forall i :: 0 <= i < |a| ==> r[i] == a[i] + b[i]
  {
    seq(|a|, i requires 0 <= i < |a| => a[i] + b[i])
  }

  /** A ledger column: the year-wise sum of that column over every element that
      has a series; elements without one are skipped. */
  function ColumnTotal(es: seq<Element>, c: Column, n: nat): (r: seq<real>)
    requires SeriesLengths(es, n)
    ensures |r| == n
  {
    if es == [] then Zeros(n)
    else
      InitIndex(es);
      var rest := ColumnTotal(Init(es), c, n);
      if HasSeries(Last(es)) then AddSeq(rest, ColumnOf(Last(es).series.value, c)) else rest
  }

  /** The summed cash flows per year, with the demurrage and revenue lists. */
  datatype Ledger = Ledger(
    capex: seq<real>, maintenance: seq<real>, insurance: seq<real>,
    energy: seq<real>, labour: seq<real>, fuel: seq<real>,
    demurrage: seq<Money>, revenues: seq<real>)

  predicate LedgerOk(l: Ledger, n: nat)
  {
    |l.capex| == n && |l.maintenance| == n && |l.insurance| == n && |l.energy| == n &&
    |l.labour| == n && |l.fuel| == n && |l.demurrage| == n && |l.revenues| == n
  }

  /** The ledger of a registry and the per-year demurrage and revenue lists. */
  function LedgerOf(es: seq<Element>, demurrage: seq<Money>, revenues: seq<real>, n: nat): (l: Ledger)
    requires SeriesLengths(es, n) && |demurrage| == n && |revenues| == n
    ensures LedgerOk(l, n)
  {
    Ledger(ColumnTotal(es, CapexCol, n), ColumnTotal(es, MaintenanceCol, n), ColumnTotal(es, InsuranceCol, n),
           ColumnTotal(es, EnergyCol, n), ColumnTotal(es, LabourCol, n), ColumnTotal(es, FuelCol, n),
           demurrage, revenues)
  }

  /** The sum of one column over the series of a registry. */
  function SeriesTotal(es: seq<Element>, c: Column, n: nat): real
    requires SeriesLengths(es, n)
  {
    if es == [] then 0.0
    else
      InitIndex(es);
      SeriesTotal(Init(es), c, n) + (if HasSeries(Last(es)) then Sum(ColumnOf(Last(es).series.value, c)) else 0.0)
  }

  lemma {:induction false} SumAdd(a: seq<real>, b: seq<real>)
    requires |a| == |b|
    ensures Sum(AddSeq(a, b)) == Sum(a) + Sum(b)
  {
    if a != [] {
      var k := |a| - 1;
      assert AddSeq(a, b)[..k] == AddSeq(a[..k], b[..k]);
      SumAdd(a[..k], b[..k]);
    }
  }

  lemma {:induction false} SumZeros(n: nat)
    ensures Sum(Zeros(n)) == 0.0
  {
    if n > 0 {
      assert Zeros(n)[..n - 1] == Zeros(n - 1);
      SumZeros(n - 1);
    }
  }

  /** The ledger neither loses nor invents money: over the whole lifecycle a
      ledger column holds exactly what the element series hold. */
  lemma {:induction false} LedgerConserves(es: seq<Element>, c: Column, n: nat)
    requires SeriesLengths(es, n)
    ensures Sum(ColumnTotal(es, c, n)) == SeriesTotal(es, c, n)
  {
    if es == [] {
      SumZeros(n);
    } else {
      InitIndex(es);
      LedgerConserves(Init(es), c, n);
      if HasSeries(Last(es)) {
        SumAdd(ColumnTotal(Init(es), c, n), ColumnOf(Last(es).series.value, c));
      }
    }
  }

  // ---------------------------------------------------------------------
  // WACC and discounting

  /** `WACC_nominal`: with E = 100 - gearing and D = gearing, the weighted cost
      of equity and debt after tax. */
  function WaccNominal(gearing: real, re: real, rd: real, tc: real): real
  {
    var e := 100.0 - gearing;
    var d := gearing;
    ((e / (e + d)) * re + (d / (e + d)) * rd) * (1.0 - tc)
  }

  /** `WACC_real`: the nominal rate deflated by the inflation. */
  function WaccReal(nominal: real, inflation: real): real
    requires inflation != -1.0
  {
    (nominal + 1.0) / (inflation + 1.0) - 1.0
  }

  /** The defaults: gearing 60, return on equity 0.10, on debt 0.30, tax 0.28 and
      inflation 0.02. */
  const DefaultNominal: real := WaccNominal(60.0, 0.10, 0.30, 0.28)
  const DefaultWacc: real := WaccReal(DefaultNominal, 0.02)

  lemma DefaultNominalValue()
    ensures DefaultNominal == 0.1584
  {
  }

  /** Deflating undoes inflating: one plus the real rate, grown by the inflation,
      is one plus the nominal rate. */
  lemma WaccRealInflates(nominal: real, inflation: real)
    requires inflation != -1.0
    ensures (1.0 + WaccReal(nominal, inflation)) * (1.0 + inflation) == 1.0 + nominal
  {
  }

  /** The default real rate is positive, so discounting shrinks later years. */
  lemma DefaultWaccPositive()
    ensures DefaultWacc > 0.0
  {
    DefaultNominalValue();
  }

  /** The discount factor of year index i at rate w. */
  function Discount(w: real, i: nat): (d: real)
    requires w > -1.0
    ensures d > 0.0
  {
    PowPositive(1.0 + w, i);
    Pow(1.0 + w, i)
  }

  lemma {:induction false} DiscountAtLeastOne(w: real, i: nat)
    requires w >= 0.0
    ensures Discount(w, i) >= 1.0
  {
    if i > 0 {
      DiscountAtLeastOne(w, i - 1);
      MulLe(1.0, 1.0 + w, Discount(w, i - 1));
    }
  }

  /** At a non-negative rate a discounted non-negative amount is at most the amount. */
  lemma DiscountShrinks(x: real, w: real, i: nat)
    requires x >= 0.0 && w >= 0.0
    ensures x / Discount(w, i) <= x
  {
    DiscountAtLeastOne(w, i);
    var d := Discount(w, i);
    assert (x / d) * d == x;
    if x / d > x {
      MulLe(1.0, d, x / d);
      assert false;
    }
  }

  function DiscountColumn(s: seq<real>, w: real): (r: seq<real>)
    requires w > -1.0
    ensures |r| == |s| && forall i :: 0 <= i < |s| ==> r[i] == s[i] / Discount(w, i)
  {
    seq(|s|, i requires 0 <= i < |s| => s[i] / Discount(w, i))
  }

  function DiscountMoney(s: seq<Money>, w: real): (r: seq<Money>)
    requires w > -1.0
    ensures |r| == |s| && forall i :: 0 <= i < |s| ==>
      r[i].NotFinite? == s[i].NotFinite? && (s[i].Finite? ==> r[i].v == s[i].v / Discount(w, i))
  {
    seq(|s|, i requires 0 <= i < |s| => if s[i].Finite? then Finite(s[i].v / Discount(w, i)) else NotFinite)
  }

  /** `cash_flows_WACC_real`: every ledger entry of year index i divided by
      (1 + w)^i; the revenue column is discounted too, though the NPV does not use it. */
  function DiscountLedger(l: Ledger, w: real): (d: Ledger)
    requires w > -1.0
    ensures forall n: nat :: LedgerOk(l, n) ==> LedgerOk(d, n)
  {
    Ledger(DiscountColumn(l.capex, w), DiscountColumn(l.maintenance, w), DiscountColumn(l.insurance, w),
           DiscountColumn(l.energy, w), DiscountColumn(l.labour, w), DiscountColumn(l.fuel, w),
           DiscountMoney(l.demurrage, w), DiscountColumn(l.revenues, w))
  }

  // ---------------------------------------------------------------------
  // NPV

  /** The present value of year index i: the undiscounted revenue less the
      discounted capex and discounted operating costs, demurrage included. */
  function PresentValue(revenues: seq<real>, d: Ledger, i: nat): Money
    requires LedgerOk(d, |revenues|) && i < |revenues|
  {
    var opex := d.insurance[i] + d.maintenance[i] + d.energy[i] + d.fuel[i] + d.labour[i];
    if d.demurrage[i].NotFinite? then NotFinite
    else Finite(revenues[i] - d.capex[i] - (opex + d.demurrage[i].v))
  }

  function PresentValues(revenues: seq<real>, d: Ledger, n: nat): Money
    requires LedgerOk(d, |revenues|) && n <= |revenues|
  {
    if n == 0 then Finite(0.0) else AddMoney(PresentValues(revenues, d, n - 1), PresentValue(revenues, d, n - 1))
  }

  /** `NPV`: the sum over the lifecycle of the present values. */
  function Npv(l: Ledger, w: real): Money
    requires w > -1.0 && LedgerOk(l, |l.revenues|)
  {
    var d := DiscountLedger(l, w);
    PresentValues(l.revenues, d, |l.revenues|)
  }

  /** A non-finite demurrage in any year makes the NPV non-finite; otherwise it is finite. */
  lemma {:induction false} NpvFinite(revenues: seq<real>, d: Ledger, n: nat)
    requires LedgerOk(d, |revenues|) && n <= |revenues|
    ensures PresentValues(revenues, d, n).NotFinite? <==> exists i :: 0 <= i < n && d.demurrage[i].NotFinite?
  {
    if n > 0 {
      NpvFinite(revenues, d, n - 1);
    }
  }

  /** No year of the ledger carries a cost or a demurrage. */
  predicate CostFree(l: Ledger)
    requires LedgerOk(l, |l.revenues|)
  {
    forall i :: 0 <= i < |l.revenues| ==>
      l.capex[i] == 0.0 && l.maintenance[i] == 0.0 && l.insurance[i] == 0.0 &&
      l.energy[i] == 0.0 && l.labour[i] == 0.0 && l.fuel[i] == 0.0 && l.demurrage[i] == Finite(0.0)
  }

  /** Discounting keeps a cost-free ledger cost-free. */
  lemma DiscountCostFree(l: Ledger, w: real)
    requires w > -1.0 && LedgerOk(l, |l.revenues|) && CostFree(l)
    ensures LedgerOk(DiscountLedger(l, w), |l.revenues|)
    ensures var d := DiscountLedger(l, w); forall i :: 0 <= i < |l.revenues| ==>
      d.capex[i] == 0.0 && d.maintenance[i] == 0.0 && d.insurance[i] == 0.0 &&
      d.energy[i] == 0.0 && d.labour[i] == 0.0 && d.fuel[i] == 0.0 && d.demurrage[i] == Finite(0.0)
  {
  }

  /** With a cost-free discounted ledger the present values add up the revenues. */
  lemma {:induction false} PresentValuesOfRevenues(revenues: seq<real>, d: Ledger, n: nat)
    requires LedgerOk(d, |revenues|) && n <= |revenues|
    requires forall i :: 0 <= i < |revenues| ==>
      d.capex[i] == 0.0 && d.maintenance[i] == 0.0 && d.insurance[i] == 0.0 &&
      d.energy[i] == 0.0 && d.labour[i] == 0.0 && d.fuel[i] == 0.0 && d.demurrage[i] == Finite(0.0)
    ensures PresentValues(revenues, d, n) == Finite(Sum(revenues[..n]))
  {
    if n > 0 {
      PresentValuesOfRevenues(revenues, d, n - 1);
      assert PresentValue(revenues, d, n - 1) == Finite(revenues[n - 1]);
      assert revenues[..n][..n - 1] == revenues[..n - 1];
    }
  }

  /** Without costs and demurrage the NPV is the plain sum of the revenues: revenues
      are not discounted. */
  lemma NpvOfRevenuesOnly(l: Ledger, w: real)
    requires w > -1.0 && LedgerOk(l, |l.revenues|) && CostFree(l)
    ensures Npv(l, w) == Finite(Sum(l.revenues))
  {
    DiscountCostFree(l, w);
    PresentValuesOfRevenues(l.revenues, DiscountLedger(l, w), |l.revenues|);
    assert l.revenues[..|l.revenues|] == l.revenues;
  }
}
