/** The closed forms of the investment loops. Every `*_invest` routine appends
    one element at a time until its trigger clears; these functions say how many
    elements that is, and their contracts say that the count clears the trigger
    and that one element fewer would not have. */
module Triggers {
  import opened Numbers
  import opened Traffic

  /** Python's `//` on non-negative integers, by repeated subtraction. */
  function FloorDiv(t: nat, r: nat): nat
    requires r >= 1
    decreases t
  {
    if t < r then 0 else 1 + FloorDiv(t - r, r)
  }

  /** c * r by repeated addition. */
  function Mul(c: nat, r: nat): nat
  {
    if c == 0 then 0 else Mul(c - 1, r) + r
  }

  /** FloorDiv is floor division. */
  lemma {:induction false} FloorDivIsDiv(t: nat, r: nat)
    requires r >= 1
    ensures FloorDiv(t, r) == t / r
  {
    if t >= r {
      FloorDivIsDiv(t - r, r);
      var q, m := (t - r) / r, (t - r) % r;
      assert t == (q + 1) * r + m;
      DivUnique(t, r, q + 1, m);
    } else {
      DivUnique(t, r, 0, t);
    }
  }

  /** The quotient of a division with a remainder below the divisor. */
  lemma DivUnique(t: nat, r: nat, q: nat, m: nat)
    requires r >= 1 && m < r && t == q * r + m
    ensures t / r == q
  {
    var q', m' := t / r, t % r;
    assert q' * r <= t < (q + 1) * r;
    MulLess(q', q + 1, r);
    assert q * r <= t < (q' + 1) * r;
    MulLess(q, q' + 1, r);
  }

  lemma MulLess(a: int, b: int, r: int)
    requires r >= 1 && a * r < b * r
    ensures a < b
  {
  }

  /** Mul is multiplication. */
  lemma {:induction false} MulIsProduct(c: nat, r: nat)
    ensures Mul(c, r) == c * r
  {
    if c > 0 {
      MulIsProduct(c - 1, r);
    }
  }

  /** Floor division by r reaches c exactly when the dividend reaches c * r. */
  lemma {:induction false} DivAtLeast(x: nat, r: nat, c: nat)
    requires r >= 1
    ensures FloorDiv(x, r) >= c <==> x >= Mul(c, r)
  {
    if c > 0 && x >= r {
      DivAtLeast(x - r, r, c - 1);
    }
  }

  /** The tractor, empty-handler and stack-equipment loops run `while c > t // r`:
      c is the crane count, r the ratio, and t starts at t0 and becomes the
      whole count n0 + j once j elements are appended. RatioAdds is the number
      of appends. */
  function RatioAdds(c: nat, t0: nat, n0: nat, r: nat): nat
    requires r >= 1
  {
    if c <= FloorDiv(t0, r) then 0 else if Mul(c, r) - n0 >= 1 then Mul(c, r) - n0 else 1
  }

  /** The loop stops at once exactly when t0 already serves the cranes; otherwise
      it stops with the whole count at least c * r, one append earlier it would not
      have stopped. */
  lemma RatioAddsExit(c: nat, t0: nat, n0: nat, r: nat)
    requires r >= 1
    ensures RatioAdds(c, t0, n0, r) == 0 <==> c <= FloorDiv(t0, r)
    ensures var k := RatioAdds(c, t0, n0, r);
      k > 0 ==> c <= FloorDiv(n0 + k, r) && n0 + k >= Mul(c, r)
    ensures var k := RatioAdds(c, t0, n0, r);
      k > 1 ==> c > FloorDiv(n0 + k - 1, r)
  {
    var k := RatioAdds(c, t0, n0, r);
    if k > 0 {
      DivAtLeast(n0 + k, r, c);
      if k > 1 {
        DivAtLeast(n0 + k - 1, r, c);
      }
    }
  }

  /** The loop test after j appends, where the counter is t0 before the first
      append and the whole count n0 + j after it: the test holds exactly while
      fewer than RatioAdds elements have been appended. */
  lemma RatioLoopTest(c: nat, t0: nat, n0: nat, r: nat, j: nat)
    requires r >= 1 && j <= RatioAdds(c, t0, n0, r)
    ensures (c > FloorDiv(if j == 0 then t0 else n0 + j, r)) <==> j < RatioAdds(c, t0, n0, r)
  {
    var k := RatioAdds(c, t0, n0, r);
    RatioAddsExit(c, t0, n0, r);
    if 0 < j < k {
      DivAtLeast(n0 + k - 1, r, c);
      DivAtLeast(n0 + j, r, c);
    }
  }

  /** The rmg variant runs `while stack > equipment * 0.5`: for whole counts this
      is the ratio test with r = 2. */
  lemma HalfIsRatio(stacks: nat, t: nat)
    ensures (stacks as real > t as real * 0.5) <==> stacks > FloorDiv(t, 2)
  {
    DivAtLeast(t, 2, stacks);
    MulIsProduct(stacks, 2);
  }

  /** The stack loops run `while required > planned + online`; each new stack
      adds `step` to planned plus online (its capacity, twice when it is online
      in the year). StackAdds is the least number of stacks that covers the
      deficit required - planned - online. */
  function StackAdds(deficit: real, step: real): nat
    requires step > 0.0
  {
    if deficit <= 0.0 then 0 else ClassCalls(deficit, step)
  }

  /** StackAdds stacks cover the deficit and one stack fewer would not. */
  lemma StackAddsCover(deficit: real, step: real)
    requires step > 0.0
    ensures var k := StackAdds(deficit, step);
      deficit <= k as real * step && (k > 0 ==> (k - 1) as real * step < deficit)
  {
    if deficit > 0.0 {
      ClassCallsCover(deficit, step);
    }
  }

  /** The stack loop test after j appends of `step` each: the deficit is still
      open exactly while fewer than StackAdds stacks have been appended. */
  lemma StackLoopTest(deficit: real, step: real, j: nat)
    requires step > 0.0 && j <= StackAdds(deficit, step)
    ensures deficit > j as real * step <==> j < StackAdds(deficit, step)
  {
    var k := StackAdds(deficit, step);
    StackAddsCover(deficit, step);
    if j < k {
      MulLe(j as real, (k - 1) as real, step);
    }
  }

  /** The stack loop test with the added capacity as a repeated sum. */
  lemma StackLoopTimes(deficit: real, step: real, j: nat)
    requires step > 0.0 && j <= StackAdds(deficit, step)
    ensures deficit > Times(step, j) <==> j < StackAdds(deficit, step)
  {
    TimesIsProduct(step, j);
    StackLoopTest(deficit, step, j);
  }

  /** The gate count the gate loop reaches: at least one gate (with no gate the
      service rate is "inf"), and the least count whose capacity covers the
      design minutes. */
  function GateTarget(minutes: real, capacity: real): nat
    requires capacity > 0.0
  {
    if minutes <= 0.0 then 1 else ClassCalls(minutes, capacity)
  }

  /** GateTarget gates suffice, and with more than one gate one fewer would not. */
  lemma GateTargetCover(minutes: real, capacity: real)
    requires capacity > 0.0
    ensures var n := GateTarget(minutes, capacity);
      n >= 1 && minutes <= n as real * capacity && (n > 1 ==> (n - 1) as real * capacity < minutes)
  {
    if minutes > 0.0 {
      ClassCallsCover(minutes, capacity);
    }
  }

  /** The number of gates the gate loop appends to n0 existing gates. */
  function GateAdds(minutes: real, n0: nat, capacity: real): nat
    requires capacity > 0.0
  {
    if n0 >= 1 && minutes <= n0 as real * capacity then 0
    else
      var t := GateTarget(minutes, capacity);
      GateTargetCover(minutes, capacity);
      AboveCount(minutes, n0, t, capacity);
      t - n0
  }

  /** The gate loop stops with at least one gate and the design minutes within
      the capacity, it stops at once exactly when that already holds, and with
      one gate fewer it would not have stopped. */
  lemma GateAddsCover(minutes: real, n0: nat, capacity: real)
    requires capacity > 0.0
    ensures var k := GateAdds(minutes, n0, capacity);
      n0 + k >= 1 && minutes <= (n0 + k) as real * capacity &&
      (k > 0 ==> n0 + k - 1 == 0 || (n0 + k - 1) as real * capacity < minutes) &&
      (k == 0 <==> n0 >= 1 && minutes <= n0 as real * capacity)
  {
    if !(n0 >= 1 && minutes <= n0 as real * capacity) {
      GateTargetCover(minutes, capacity);
    }
  }

  /** n gates of the given capacity cover the design minutes: the gate loop's
      exit condition. */
  predicate GatesSuffice(minutes: real, n: nat, capacity: real)
  {
    n >= 1 && minutes <= n as real * capacity
  }

  /** The gate loop test after j appends: the loop stops exactly when GateAdds
      gates have been appended. */
  lemma GateLoopTest(minutes: real, n0: nat, capacity: real, j: nat)
    requires capacity > 0.0 && j <= GateAdds(minutes, n0, capacity)
    ensures GatesSuffice(minutes, n0 + j, capacity) <==> j == GateAdds(minutes, n0, capacity)
  {
    var k := GateAdds(minutes, n0, capacity);
    GateAddsCover(minutes, n0, capacity);
    if j < k && n0 + j >= 1 {
      BelowGateCount(minutes, n0 + j, n0 + k - 1, capacity);
    }
  }

  /** Fewer gates than a count that does not suffice do not suffice either. */
  lemma BelowGateCount(minutes: real, n: nat, m: nat, capacity: real)
    requires capacity > 0.0 && 1 <= n <= m && m as real * capacity < minutes
    ensures !GatesSuffice(minutes, n, capacity)
  {
    MulLe(n as real, m as real, capacity);
  }

  lemma AboveCount(minutes: real, n0: nat, t: nat, capacity: real)
    requires capacity > 0.0 && t >= 1 && minutes <= t as real * capacity
    requires !(n0 >= 1 && minutes <= n0 as real * capacity)
    ensures t > n0
  {
    if n0 >= 1 && t <= n0 {
      MulLe(t as real, n0 as real, capacity);
    }
  }
}
