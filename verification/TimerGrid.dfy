/** A timer's grid: registration time plus whole periods, in exact arithmetic. */
module TimerGrid {

  // Products are reasoned about by these laws alone.
  function Mul(a: real, b: real): real { a * b }

  lemma MulAdds(a: real, b: real, c: real)
    ensures Mul(a + b, c) == Mul(a, c) + Mul(b, c)
  {}

  lemma MulPositive(a: real, c: real)
    requires a > 0.0 && c > 0.0
    ensures Mul(a, c) > 0.0
  {}

  lemma MulUnits(c: real)
    ensures Mul(0.0, c) == 0.0 && Mul(1.0, c) == c
  {}

  lemma MulGrows(a: real, b: real, c: real)
    requires a < b && c > 0.0
    ensures Mul(a, c) < Mul(b, c)
  {
    hide Mul;
    MulAdds(a, b - a, c);
    MulPositive(b - a, c);
    assert a + (b - a) == b;
  }

  function Times(k: int, period: real): real { Mul(k as real, period) }

  lemma TimesNext(k: int, period: real)
    ensures Times(k + 1, period) == Times(k, period) + period && Times(0, period) == 0.0 && Times(1, period) == period
  {
    hide Mul;
    MulUnits(period);
    TimesSum(k, 1, period);
  }

  lemma TimesSum(a: int, b: int, period: real)
    ensures Times(a + b, period) == Times(a, period) + Times(b, period)
  {
    hide Mul;
    assert (a + b) as real == a as real + b as real;
    MulAdds(a as real, b as real, period);
  }

  lemma TimesGrows(a: int, b: int, period: real)
    requires a < b && period > 0.0
    ensures Times(a, period) < Times(b, period)
  {
    MulGrows(a as real, b as real, period);
  }

  /** The grid point of a timer registered at `base`. */
  function Point(base: real, period: real, k: int): real {
    base + Times(k, period)
  }

  /** How many periods past `due` the closed form moves a timer that is due at `at`. */
  function Periods(due: real, period: real, at: real): (n: int)
    requires period > 0.0 && due <= at
  {
    ((at - due) / period).Floor + 1
  }

  lemma Within(x: real, lo: real, c: real)
    requires lo <= x < lo + 1.0 && c > 0.0
    ensures Mul(lo, c) <= Mul(x, c) && Mul(x, c) < Mul(lo, c) + c
  {
    hide Mul;
    if lo < x { MulGrows(lo, x, c); }
    MulGrows(x, lo + 1.0, c);
    MulAdds(lo, 1.0, c);
    MulUnits(c);
  }

  lemma DividedBack(d: real, c: real)
    requires c > 0.0
    ensures d == Mul(d / c, c)
  {}

  lemma Bracketed(d: real, period: real, m: int)
    requires period > 0.0 && m == (d / period).Floor
    ensures Times(m, period) <= d < Times(m + 1, period)
  {
    hide Mul;
    DividedBack(d, period);
    Within(d / period, m as real, period);
    TimesNext(m, period);
  }

  /** Exactly enough periods: one fewer does not pass `at`. */
  lemma PeriodsSuffice(due: real, period: real, at: real)
    requires period > 0.0 && due <= at
    ensures Periods(due, period, at) >= 1
    ensures due + Times(Periods(due, period, at) - 1, period) <= at < due + Times(Periods(due, period, at), period)
  {
    var n := Periods(due, period, at);
    Bracketed(at - due, period, n - 1);
    if n < 1 {
      TimesNext(0, period);
      if n < 0 { TimesGrows(n, 0, period); }
    }
  }

  lemma PeriodsUnique(due: real, period: real, at: real, n: int)
    requires period > 0.0 && due <= at
    requires due + Times(n - 1, period) <= at < due + Times(n, period)
    ensures n == Periods(due, period, at)
  {
    hide Times;
    PeriodsSuffice(due, period, at);
    var m := Periods(due, period, at);
    if n < m {
      if n < m - 1 { TimesGrows(n, m - 1, period); }
    } else if m < n {
      if m < n - 1 { TimesGrows(m, n - 1, period); }
    }
  }

  /** Stepping one period at a time to the first point after `at`. */
  function FirstAfter(due: real, period: real, at: real): real
    requires period > 0.0
    decreases if due <= at then Periods(due, period, at) else 0
  {
    if due > at then due
    else
      PeriodsDecrease(due, period, at);
      FirstAfter(due + period, period, at)
  }

  lemma PeriodsDecrease(due: real, period: real, at: real)
    requires period > 0.0 && due <= at
    ensures Periods(due, period, at) > 0
    ensures due + period <= at ==> Periods(due + period, period, at) == Periods(due, period, at) - 1
  {
    hide Times, Periods;
    PeriodsSuffice(due, period, at);
    if due + period <= at {
      var n := Periods(due, period, at) - 1;
      TimesNext(n, period);
      TimesNext(n - 1, period);
      PeriodsUnique(due + period, period, at, n);
    }
  }

  /** The closed form is the stepping. */
  lemma {:induction false} ClosedFormSteps(due: real, period: real, at: real)
    requires period > 0.0
    ensures FirstAfter(due, period, at) == if due <= at then due + Times(Periods(due, period, at), period) else due
    decreases if due <= at then Periods(due, period, at) else 0
  {
    if due <= at {
      PeriodsDecrease(due, period, at);
      var n := Periods(due, period, at);
      TimesNext(n - 1, period);
      TimesNext(0, period);
      ClosedFormSteps(due + period, period, at);
      if due + period > at { PeriodsUnique(due, period, at, 1); }
    }
  }

  lemma SteppedSame(due: real, period: real, at: real, next: real)
    requires period > 0.0 && due <= at && next == due + Times(Periods(due, period, at), period)
    ensures FirstAfter(next, period, at) == FirstAfter(due, period, at)
  {
    PeriodsSuffice(due, period, at);
    ClosedFormSteps(due, period, at);
  }

  /** Moves a timer to the first point on its grid after `at`, in one step; the loop is for what
      rounding leaves behind, and exact arithmetic leaves nothing. */
  method PastGrid(due: real, period: real, at: real) returns (next: real)
    requires period > 0.0
    ensures next == FirstAfter(due, period, at)
    ensures next > at
  {
    next := due;
    if next <= at {
      next := next + (((at - next) / period).Floor + 1) as real * period;
      SteppedSame(due, period, at, next);
      while next <= at
        invariant FirstAfter(next, period, at) == FirstAfter(due, period, at)
        decreases if next <= at then Periods(next, period, at) else 0
      {
        PeriodsDecrease(next, period, at);
        next := next + period;
      }
    }
  }

  /** On the grid before, on the grid after, and strictly further along it when it was due. */
  lemma StaysOnGrid(base: real, period: real, k: int, at: real) returns (k': int)
    requires period > 0.0
    ensures k' >= k && (Point(base, period, k) <= at ==> k' > k)
    ensures FirstAfter(Point(base, period, k), period, at) == Point(base, period, k')
    ensures Point(base, period, k') > at
  {
    hide Times, Periods;
    var due := Point(base, period, k);
    ClosedFormSteps(due, period, at);
    k' := k;
    if due <= at {
      PeriodsSuffice(due, period, at);
      var n := Periods(due, period, at);
      k' := k + n;
      TimesSum(k, n, period);
    }
  }
}
