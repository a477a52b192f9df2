/** Numeric helpers shared by the terminal model: an optional value, a real
    number extended with the "inf" sentinel the simulation uses for
    "capacity inadequate", the integer conversions of the source
    (`np.ceil`, `int(...)`) and integer powers for discounting. */
module Numbers {

  datatype Option<T> = None | Some(value: T)

  /** A float that is either finite or the `float("inf")` sentinel. */
  datatype Ext = Fin(r: real) | Inf

  /** A money amount that is either finite or not (an "inf" or NaN amount, which
      absorbs every sum it enters). */
  datatype Money = Finite(v: real) | NotFinite

  function AddMoney(a: Money, b: Money): (c: Money)
    ensures c.NotFinite? <==> a.NotFinite? || b.NotFinite?
    ensures c.Finite? ==> c.v == a.v + b.v
  {
    if a.Finite? && b.Finite? then Finite(a.v + b.v) else NotFinite
  }

  /** `x > bound` as the source evaluates it on a float: inf exceeds everything. */
  predicate Exceeds(x: Ext, bound: real) {
    x.Inf? || x.r > bound
  }

  function Max(a: real, b: real): (m: real)
    ensures m >= a && m >= b && (m == a || m == b)
  {
    if a >= b then a else b
  }

  function Min(a: real, b: real): real
  {
    if a <= b then a else b
  }

  /** `np.ceil`: the least integer not below x. */
  function Ceil(x: real): (c: int)
    ensures (c - 1) as real < x <= c as real
  {
    if x.Floor as real == x then x.Floor else x.Floor + 1
  }

  /** Python's `int(x)` on a float: truncation toward zero. */
  function Trunc(x: real): (t: int)
    ensures x >= 0.0 ==> 0 <= t && t as real <= x < t as real + 1.0
    ensures x < 0.0 ==> t <= 0 && t as real - 1.0 < x <= t as real
  {
    if x >= 0.0 then x.Floor else -((-x).Floor)
  }

  /** b raised to the natural power n. */
  function Pow(b: real, n: nat): real
  {
    if n == 0 then 1.0 else b * Pow(b, n - 1)
  }

  lemma {:induction false} PowPositive(b: real, n: nat)
    requires b > 0.0
    ensures Pow(b, n) > 0.0
  {
    if n > 0 {
      PowPositive(b, n - 1);
    }
  }

  /** Ceiling division: c = Ceil(v / s) is the least count of size-s lots holding v. */
  lemma CeilDivision(v: real, s: real)
    requires s > 0.0
    ensures ((Ceil(v / s) - 1) as real) * s < v
    ensures v <= (Ceil(v / s) as real) * s
  {
    var q := v / s;
    assert q * s == v;
    BelowProduct((Ceil(q) - 1) as real, q, s, v);
    AboveProduct(q, Ceil(q) as real, s, v);
  }

  lemma BelowProduct(a: real, q: real, s: real, v: real)
    requires a < q && s > 0.0 && q * s == v
    ensures a * s < v
  {
    MulStrict(a, q, s);
  }

  lemma AboveProduct(q: real, b: real, s: real, v: real)
    requires q <= b && s >= 0.0 && q * s == v
    ensures v <= b * s
  {
    MulLe(q, b, s);
  }

  lemma MulStrict(a: real, b: real, s: real)
    requires a < b && s > 0.0
    ensures a * s < b * s
  {
  }

  lemma MulLe(a: real, b: real, s: real)
    requires a <= b && s >= 0.0
    ensures a * s <= b * s
  {
  }

  /** v added k times. */
  function Times(v: real, k: nat): real
  {
    if k == 0 then 0.0 else Times(v, k - 1) + v
  }

  /** Repeated addition is multiplication by the count. */
  lemma {:induction false} TimesIsProduct(v: real, k: nat)
    ensures Times(v, k) == v * k as real
  {
    if k > 0 {
      TimesIsProduct(v, k - 1);
      assert v * k as real == v * (k - 1) as real + v;
    }
  }

  /** The same product, count first. */
  lemma TimesIsCountProduct(v: real, k: nat)
    ensures Times(v, k) == k as real * v
  {
    TimesIsProduct(v, k);
  }

  lemma MulPositive(a: real, b: real)
    requires a > 0.0 && b > 0.0
    ensures a * b > 0.0
  {
  }

  lemma MulCancel(a: real, b: real, s: real)
    requires s > 0.0 && a * s > b * s
    ensures a > b
  {
  }
}
