/** Moving averages and Aroon. */
module Trend {
  import opened Numbers
  import opened Series

  function SmaAt(vals: seq<Num>, period: int, i: nat): Num
    requires i < |vals|
  {
    if period < 1 || i < period then NaN else Over(SumNum(vals, i - period, i), period as real)
  }

  method SMA(vals: seq<Num>, period: int) returns (out: array<Num>)
    ensures out.Length == |vals| && forall i :: 0 <= i < |vals| ==> out[i] == SmaAt(vals, period, i)
  {
    out := new Num[|vals|](_ => NaN);
    if period < 1 {
      return;
    }
    for i := 0 to |vals|
      invariant forall k :: 0 <= k < i ==> out[k] == SmaAt(vals, period, k)
    {
      if i < period {
        out[i] := NaN;
        continue;
      }
      var sum := WindowSum(vals, i - period, i);
      out[i] := Over(sum, period as real);
    }
  }

  /** The inner loop of SMA and of the stochastic's smoothing. */
  method WindowSum(vals: seq<Num>, lo: nat, hi: nat) returns (sum: Num)
    requires lo <= hi <= |vals|
    ensures sum == SumNum(vals, lo, hi)
  {
    sum := Val(0.0);
    for j := lo to hi
      invariant sum == SumNum(vals, lo, j)
    {
      sum := Add(sum, vals[j]);
    }
  }

  lemma {:induction false} SmaSeesOnlyPast(a: seq<Num>, b: seq<Num>, period: int, i: nat)
    requires i < |a| && Agree(a, b, i)
    ensures SmaAt(a, period, i) == SmaAt(b, period, i)
  {
    if 1 <= period <= i {
      SumNumAgrees(a, b, i - period, i);
    }
  }

  /** Moving the window on by one trades its oldest value for the newest: the mean of a window as its own reference. */
  lemma {:induction false} SmaSlides(vals: seq<real>, period: nat, i: nat)
    requires 1 <= period <= i && i + 1 < |vals|
    ensures SmaAt(Lift(vals), period, i).Val? && SmaAt(Lift(vals), period, i + 1).Val?
    ensures SmaAt(Lift(vals), period, i + 1).v - SmaAt(Lift(vals), period, i).v
         == (vals[i] - vals[i - period]) / period as real
  {
    SumLift(vals, i - period, i);
    SumLift(vals, i + 1 - period, i + 1);
    SumFirst(vals, i - period, i);
    var a, b, p := SumIn(vals, i - period, i), SumIn(vals, i + 1 - period, i + 1), period as real;
    assert b == a - vals[i - period] + vals[i];
    hide SumIn;
    DifferenceOver(a, b, p);
  }

  lemma DifferenceOver(a: real, b: real, p: real)
    requires p > 0.0
    ensures b / p - a / p == (b - a) / p
  {}

  lemma {:induction false} SumFirst(xs: seq<real>, lo: nat, hi: nat)
    requires lo < hi <= |xs|
    ensures SumIn(xs, lo, hi) == xs[lo] + SumIn(xs, lo + 1, hi)
  {
    if lo + 1 < hi {
      SumFirst(xs, lo, hi - 1);
    }
  }

  /** A warmed-up SMA lies between any bounds on its window. */
  lemma {:induction false} SmaBetween(vals: seq<Num>, period: nat, i: nat, a: real, b: real)
    requires 1 <= period <= i < |vals|
    requires forall j :: i - period <= j < i ==> Between(vals[j], a, b)
    ensures Between(SmaAt(vals, period, i), a, b)
  {
    MeanBetween(vals, i - period, i, a, b);
  }

  function Multiplier(period: int): real
    requires period >= 1
  {
    2.0 / (period + 1) as real
  }

  function EmaStep(x: Num, prev: Num, multiplier: real): Num {
    if x.NaN? || prev.NaN? then NaN else Val((x.v - prev.v) * multiplier + prev.v)
  }

  /** Exponential average: seeded with a plain mean; the slots before the seed stay 0 in a long enough series. */
  function EmaAt(vals: seq<Num>, period: int, i: nat): Num
    requires i < |vals|
    decreases i
  {
    if period < 1 || |vals| <= period then NaN
    else if i < period then Val(0.0)
    else if i == period then Over(SumNum(vals, 0, period), period as real)
    else EmaStep(vals[i - 1], EmaAt(vals, period, i - 1), Multiplier(period))
  }

  method EMA(vals: seq<Num>, period: int) returns (out: array<Num>)
    ensures out.Length == |vals| && forall i :: 0 <= i < |vals| ==> out[i] == EmaAt(vals, period, i)
  {
    if period < 1 || |vals| <= period {
      out := new Num[|vals|](_ => NaN);
      return;
    }
    out := new Num[|vals|](_ => Val(0.0));
    var sum := Val(0.0);
    for i := 0 to period
      invariant sum == SumNum(vals, 0, i)
    {
      sum := Add(sum, vals[i]);
    }
    var multiplier := Multiplier(period);
    out[period] := Over(sum, period as real);
    for i := period + 1 to |vals|
      invariant forall k {:trigger out[k]} :: 0 <= k < i ==> out[k] == EmaAt(vals, period, k)
    {
      out[i] := EmaStep(vals[i - 1], out[i - 1], multiplier);
    }
  }

  lemma {:induction false} EmaSeesOnlyPast(a: seq<Num>, b: seq<Num>, period: int, i: nat)
    requires i < |a| && Agree(a, b, i)
    ensures EmaAt(a, period, i) == EmaAt(b, period, i)
    decreases i
  {
    if 1 <= period < |a| && period <= i {
      if i == period {
        SumNumAgrees(a, b, 0, period);
      } else {
        EmaSeesOnlyPast(a, b, period, i - 1);
      }
    }
  }

  /** A warmed-up EMA lies between any bounds on the values before it: between their minimum and maximum. */
  lemma {:induction false} EmaBetween(vals: seq<Num>, period: int, i: nat, a: real, b: real)
    requires 1 <= period <= i < |vals|
    requires forall j :: 0 <= j < i ==> Between(vals[j], a, b)
    ensures Between(EmaAt(vals, period, i), a, b)
    decreases i
  {
    if i == period {
      MeanBetween(vals, 0, period, a, b);
    } else {
      EmaBetween(vals, period, i - 1, a, b);
      BlendBetween(vals[i - 1], EmaAt(vals, period, i - 1), period, a, b);
    }
  }

  lemma {:induction false} BlendBetween(x: Num, prev: Num, period: nat, a: real, b: real)
    requires 1 <= period && Between(x, a, b) && Between(prev, a, b)
    ensures Between(EmaStep(x, prev, Multiplier(period)), a, b)
  {
    var m := Multiplier(period);
    DivBetween(2.0, (period + 1) as real, 0.0, 1.0);
    hide Multiplier;
    ProductNonNegative(x.v - a, m);
    ProductNonNegative(prev.v - a, 1.0 - m);
    ProductNonNegative(b - x.v, m);
    ProductNonNegative(b - prev.v, 1.0 - m);
  }

  // ----- Aroon (reads bar i itself) -----

  predicate Beyond(x: real, y: real, high: bool) { if high then x > y else x < y }

  /** The position the loop holds after the bars in [start, j): it begins at i, and only a value beyond the one held
      moves it. */
  function Peak(vals: seq<real>, start: nat, j: nat, i: nat, high: bool): (where: nat)
    requires start <= j <= i < |vals|
    ensures start <= where <= i
  {
    if j == start then i
    else
      var held := Peak(vals, start, j - 1, i, high);
      if Beyond(vals[j - 1], vals[held], high) then j - 1 else held
  }

  function AroonAt(vals: seq<real>, period: nat, i: nat, high: bool): Num
    requires i < |vals|
  {
    if period == 0 || i < period then NaN
    else Val(100.0 * (period - (i - Peak(vals, i - period, i, i, high))) as real / period as real)
  }

  /** With a negative period the first write is outside the slices; 0 divides nothing by nothing. */
  method Aroon(highs: seq<real>, lows: seq<real>, period: nat)
    returns (up: array<Num>, down: array<Num>, osc: array<Num>)
    requires |highs| == |lows|
    ensures up.Length == down.Length == osc.Length == |highs|
    ensures forall i :: 0 <= i < |highs| ==> up[i] == AroonAt(highs, period, i, true)
    ensures forall i :: 0 <= i < |highs| ==> down[i] == AroonAt(lows, period, i, false)
    ensures forall i :: 0 <= i < |highs| ==> osc[i] == Sub(up[i], down[i])
  {
    var n := |highs|;
    up := new Num[n](_ => NaN);
    down := new Num[n](_ => NaN);
    osc := new Num[n](_ => NaN);
    var i := period;
    while i < n
      invariant period <= i
      invariant forall k {:trigger up[k]} :: 0 <= k < n && k < i ==> up[k] == AroonAt(highs, period, k, true)
      invariant forall k {:trigger down[k]} :: 0 <= k < n && k < i ==> down[k] == AroonAt(lows, period, k, false)
      invariant forall k {:trigger osc[k]} :: 0 <= k < n && k < i ==> osc[k] == Sub(up[k], down[k])
      invariant forall k :: i <= k < n ==> up[k].NaN? && down[k].NaN? && osc[k].NaN?
    {
      var hi, lo := Peaks(highs, lows, i - period, i);
      up[i] := if period == 0 then NaN else Val(100.0 * (period - (i - hi)) as real / period as real);
      down[i] := if period == 0 then NaN else Val(100.0 * (period - (i - lo)) as real / period as real);
      osc[i] := Sub(up[i], down[i]);
      i := i + 1;
    }
  }

  method Peaks(highs: seq<real>, lows: seq<real>, start: nat, i: nat) returns (hi: nat, lo: nat)
    requires start <= i < |highs| == |lows|
    ensures hi == Peak(highs, start, i, i, true) && lo == Peak(lows, start, i, i, false)
  {
    hi, lo := i, i;
    for j := start to i
      invariant hi == Peak(highs, start, j, i, true) && lo == Peak(lows, start, j, i, false)
    {
      if highs[j] > highs[hi] {
        hi := j;
      }
      if lows[j] < lows[lo] {
        lo := j;
      }
    }
  }

  /** where is the position of the highest (lowest) value in the period before i and at i itself: i if it is one,
      the earliest otherwise. */
  ghost predicate IsPeak(vals: seq<real>, period: nat, i: nat, where: nat, high: bool)
    requires period <= i < |vals|
  {
    && i - period <= where <= i
    && (forall j :: i - period <= j <= i ==> if high then vals[j] <= vals[where] else vals[j] >= vals[where])
    && (forall j :: i - period <= j <= i && where < i && (j < where || j == i) ==> vals[j] != vals[where])
  }

  lemma {:induction false} PeakIsPeak(vals: seq<real>, period: nat, i: nat, where: nat, high: bool)
    requires period <= i < |vals|
    ensures where == Peak(vals, i - period, i, i, high) <==> IsPeak(vals, period, i, where, high)
  {
    PeakHeld(vals, i - period, i, i, high);
    var p := Peak(vals, i - period, i, i, high);
    assert IsPeak(vals, period, i, p, high);
    if IsPeak(vals, period, i, where, high) {
      assert vals[where] == vals[p];
    }
  }

  lemma {:induction false} PeakHeld(vals: seq<real>, start: nat, j: nat, i: nat, high: bool)
    requires start <= j <= i < |vals|
    ensures var p := Peak(vals, start, j, i, high);
      && (p < j || p == i)
      && !Beyond(vals[i], vals[p], high) && (forall k :: start <= k < j ==> !Beyond(vals[k], vals[p], high))
      && (p < i ==> Beyond(vals[p], vals[i], high) && forall k :: start <= k < p ==> Beyond(vals[p], vals[k], high))
  {
    if j > start {
      PeakHeld(vals, start, j - 1, i, high);
    }
  }

  lemma {:induction false} AroonBetween(vals: seq<real>, period: nat, i: nat, high: bool)
    requires 1 <= period <= i < |vals|
    ensures Between(AroonAt(vals, period, i, high), 0.0, 100.0)
  {
    var where := Peak(vals, i - period, i, i, high);
    DivBetween(100.0 * (period - (i - where)) as real, period as real, 0.0, 100.0);
  }

  /** No value from i on reaches the line at i. */
  ghost predicate AroonExcludesBar(period: nat, n: nat, i: nat, high: bool)
    requires i < n
  {
    forall a, b :: |a| == n && Agree(a, b, i) ==> AroonAt(a, period, i, high) == AroonAt(b, period, i, high)
  }

  /** Against the contract of the package, bar i is read wherever the line is defined. */
  lemma {:induction false} AroonExcludesBarExactly(period: nat, n: nat, i: nat, high: bool)
    requires i < n
    ensures AroonExcludesBar(period, n, i, high) <==> period == 0 || i < period
  {
    if 0 < period <= i {
      var flat := seq(n, _ => 0.0);
      var last := seq(n, j => if j == i then (if high then -1.0 else 1.0) else 0.0);
      PeakIsPeak(flat, period, i, i, high);
      PeakIsPeak(last, period, i, i - period, high);
      assert Agree(flat, last, i) && AroonAt(flat, period, i, high) != AroonAt(last, period, i, high);
    }
  }
}
