/** Sums and extremes over a stretch of a price series, shared by the indicators. */
module Series {
  import opened Numbers

  /** Two series of the same length with the same values before index i. */
  ghost predicate Agree<T>(a: seq<T>, b: seq<T>, i: nat) {
    |a| == |b| && forall j :: 0 <= j < i && j < |a| ==> a[j] == b[j]
  }

  function SumIn(xs: seq<real>, lo: nat, hi: nat): real
    requires lo <= hi <= |xs|
  {
    if lo == hi then 0.0 else SumIn(xs, lo, hi - 1) + xs[hi - 1]
  }

  /** The loop that adds up a window; a window that ends before it starts is empty. */
  method SumOver(xs: seq<real>, lo: nat, hi: nat) returns (sum: real)
    requires hi <= |xs|
    ensures sum == if lo <= hi then SumIn(xs, lo, hi) else 0.0
  {
    sum := 0.0;
    var j := lo;
    while j < hi
      invariant lo <= j
      invariant if lo <= hi then j <= hi && sum == SumIn(xs, lo, j) else sum == 0.0
    {
      sum := sum + xs[j];
      j := j + 1;
    }
  }

  /** The same sum over values that may be NaN; one NaN makes the sum NaN. */
  function SumNum(xs: seq<Num>, lo: nat, hi: nat): Num
    requires lo <= hi <= |xs|
  {
    if lo == hi then Val(0.0) else Add(SumNum(xs, lo, hi - 1), xs[hi - 1])
  }

  function Lift(xs: seq<real>): seq<Num> { seq(|xs|, i requires 0 <= i < |xs| => Val(xs[i])) }

  function Abs(x: real): real { if x < 0.0 then -x else x }

  function Max(x: real, y: real): real { if x > y then x else y }

  /** The first of the highest (lowest) values in a non-empty stretch. */
  function Extreme(xs: seq<real>, lo: nat, hi: nat, high: bool): real
    requires lo < hi <= |xs|
  {
    if hi == lo + 1 then xs[lo]
    else
      var ext := Extreme(xs, lo, hi - 1, high);
      if (high && xs[hi - 1] > ext) || (!high && xs[hi - 1] < ext) then xs[hi - 1] else ext
  }

  lemma {:induction false} ExtremeBounds(xs: seq<real>, lo: nat, hi: nat, high: bool)
    requires lo < hi <= |xs|
    ensures forall j :: lo <= j < hi ==> if high then xs[j] <= Extreme(xs, lo, hi, high) else xs[j] >= Extreme(xs, lo, hi, high)
    ensures exists j :: lo <= j < hi && xs[j] == Extreme(xs, lo, hi, high)
  {
    if hi == lo + 1 {
      assert xs[lo] == Extreme(xs, lo, hi, high);
    } else {
      ExtremeBounds(xs, lo, hi - 1, high);
      if Extreme(xs, lo, hi, high) == xs[hi - 1] {
      } else {
        var j :| lo <= j < hi - 1 && xs[j] == Extreme(xs, lo, hi - 1, high);
      }
    }
  }

  lemma {:induction false} ExtremeAgrees(xs: seq<real>, ys: seq<real>, lo: nat, hi: nat, high: bool)
    requires lo < hi <= |xs| && Agree(xs, ys, hi)
    ensures Extreme(xs, lo, hi, high) == Extreme(ys, lo, hi, high)
  {
    if hi > lo + 1 {
      ExtremeAgrees(xs, ys, lo, hi - 1, high);
    }
  }

  lemma {:induction false} SumAgrees(xs: seq<real>, ys: seq<real>, lo: nat, hi: nat)
    requires lo <= hi <= |xs| && Agree(xs, ys, hi)
    ensures SumIn(xs, lo, hi) == SumIn(ys, lo, hi)
  {
    if lo < hi {
      SumAgrees(xs, ys, lo, hi - 1);
    }
  }

  lemma {:induction false} SumNumAgrees(xs: seq<Num>, ys: seq<Num>, lo: nat, hi: nat)
    requires lo <= hi <= |xs| && Agree(xs, ys, hi)
    ensures SumNum(xs, lo, hi) == SumNum(ys, lo, hi)
  {
    if lo < hi {
      SumNumAgrees(xs, ys, lo, hi - 1);
    }
  }

  /** A termwise bound on two series by a third carries over to the sums. */
  lemma {:induction false} SumBelow(xs: seq<real>, ys: seq<real>, zs: seq<real>, lo: nat, hi: nat)
    requires lo <= hi <= |xs| && hi <= |ys| && hi <= |zs|
    requires forall j :: lo <= j < hi ==> xs[j] + ys[j] <= zs[j]
    ensures SumIn(xs, lo, hi) + SumIn(ys, lo, hi) <= SumIn(zs, lo, hi)
  {
    if lo < hi {
      SumBelow(xs, ys, zs, lo, hi - 1);
    }
  }

  lemma {:induction false} SumNonNegative(xs: seq<real>, lo: nat, hi: nat)
    requires lo <= hi <= |xs| && forall j :: lo <= j < hi ==> xs[j] >= 0.0
    ensures SumIn(xs, lo, hi) >= 0.0
  {
    if lo < hi {
      SumNonNegative(xs, lo, hi - 1);
    }
  }

  /** x is a number between a and b. */
  predicate Between(x: Num, a: real, b: real) { x.Val? && a <= x.v <= b }

  /** The same, if x is a number at all. */
  ghost predicate Within(x: Num, a: real, b: real) { x.Val? ==> a <= x.v <= b }

  lemma OneMore(n: real, a: real)
    ensures (n + 1.0) * a == n * a + a
  {}

  lemma {:induction false} SumNumWithin(xs: seq<Num>, lo: nat, hi: nat, a: real, b: real)
    requires lo <= hi <= |xs| && forall j :: lo <= j < hi ==> Within(xs[j], a, b)
    ensures Within(SumNum(xs, lo, hi), (hi - lo) as real * a, (hi - lo) as real * b)
  {
    if lo < hi {
      SumNumWithin(xs, lo, hi - 1, a, b);
      var n := (hi - 1 - lo) as real;
      OneMore(n, a);
      OneMore(n, b);
      assert (hi - lo) as real == n + 1.0;
    }
  }

  /** A sum is a number exactly when all its terms are. */
  lemma {:induction false} SumNumDefined(xs: seq<Num>, lo: nat, hi: nat)
    requires lo <= hi <= |xs|
    ensures SumNum(xs, lo, hi).Val? <==> forall j :: lo <= j < hi ==> xs[j].Val?
  {
    if lo < hi {
      SumNumDefined(xs, lo, hi - 1);
    }
  }

  lemma {:induction false} DivBetween(x: real, d: real, a: real, b: real)
    requires d > 0.0 && d * a <= x <= d * b
    ensures a <= x / d <= b
  {}

  lemma {:induction false} MeanWithin(xs: seq<Num>, lo: nat, hi: nat, a: real, b: real)
    requires lo < hi <= |xs| && forall j :: lo <= j < hi ==> Within(xs[j], a, b)
    ensures Within(Over(SumNum(xs, lo, hi), (hi - lo) as real), a, b)
  {
    SumNumWithin(xs, lo, hi, a, b);
    if SumNum(xs, lo, hi).Val? {
      DivBetween(SumNum(xs, lo, hi).v, (hi - lo) as real, a, b);
    }
  }

  /** The mean of values between a and b is between them. */
  lemma {:induction false} MeanBetween(xs: seq<Num>, lo: nat, hi: nat, a: real, b: real)
    requires lo < hi <= |xs| && forall j :: lo <= j < hi ==> Between(xs[j], a, b)
    ensures Between(Over(SumNum(xs, lo, hi), (hi - lo) as real), a, b)
  {
    MeanWithin(xs, lo, hi, a, b);
    SumNumDefined(xs, lo, hi);
  }

  lemma {:induction false} SumLift(xs: seq<real>, lo: nat, hi: nat)
    requires lo <= hi <= |xs|
    ensures SumNum(Lift(xs), lo, hi) == Val(SumIn(xs, lo, hi))
  {
    if lo < hi {
      SumLift(xs, lo, hi - 1);
    }
  }

  // ----- Wilder's smoothing -----

  function WilderStep(prev: real, x: real, period: nat): real
    requires period >= 1
  {
    (prev * (period - 1) as real + x) / period as real
  }

  /** Wilder's running average: the mean of entries 1..period, then one part in period of each new entry. */
  function Wilder(xs: seq<real>, period: nat, i: nat): real
    requires 1 <= period <= i < |xs|
    decreases i
  {
    if i == period then SumIn(xs, 1, period + 1) / period as real
    else WilderStep(Wilder(xs, period, i - 1), xs[i], period)
  }

  lemma {:induction false} WilderAgrees(xs: seq<real>, ys: seq<real>, period: nat, i: nat)
    requires 1 <= period <= i < |xs| && Agree(xs, ys, i + 1)
    ensures Wilder(xs, period, i) == Wilder(ys, period, i)
    decreases i
  {
    if i == period {
      SumAgrees(xs, ys, 1, period + 1);
    } else {
      WilderAgrees(xs, ys, period, i - 1);
    }
  }

  lemma {:induction false} WilderNonNegative(xs: seq<real>, period: nat, i: nat)
    requires 1 <= period <= i < |xs| && forall j :: 1 <= j <= i ==> xs[j] >= 0.0
    ensures Wilder(xs, period, i) >= 0.0
    decreases i
  {
    if i == period {
      SumNonNegative(xs, 1, period + 1);
    } else {
      WilderNonNegative(xs, period, i - 1);
      ProductNonNegative(Wilder(xs, period, i - 1), (period - 1) as real);
    }
  }

  lemma {:induction false} ProductNonNegative(x: real, y: real)
    requires x >= 0.0 && y >= 0.0
    ensures x * y >= 0.0
  {}
}
